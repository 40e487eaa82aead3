/**
 * The sign-up page (`sign-up.tsx`): five checks run in a fixed order and the
 * first that fails is the only error shown; otherwise the auth store's
 * `register` runs. Success leads shopkeepers to shop creation and everyone
 * else to the shop list; a failure whose message mentions `email` is shown
 * on the email field. The register reply and the random id of the toast are
 * parameters; the 500 ms delay before navigating is not modelled.
 */
module SignUp {
  import opened Common
  import opened Strings
  import AuthStore
  import Toasts

  datatype Field = Name | Email | Password | ConfirmPassword

  /** `formData`: the five inputs of the form. */
  datatype FormData = FormData(name: string, email: string, password: string, confirmPassword: string, role: AuthStore.Role)

  /** The checks of `handleSubmit`, in their order; only the first failure is reported. */
  function FirstError(f: FormData): (r: Option<(Field, string)>)
    ensures r.None? <==> Trim(f.name) != "" && Trim(f.email) != "" && Utf16Length(f.password) >= 6 && f.password == f.confirmPassword
    ensures r.Some? && r.value.0 == Name ==> Trim(f.name) == "" && r.value.1 == "Name is required"
    ensures r.Some? && r.value.0 == Email ==> Trim(f.name) != "" && Trim(f.email) == "" && r.value.1 == "Email is required"
    ensures r.Some? && r.value.0 == Password ==>
              Trim(f.name) != "" && Trim(f.email) != "" && Utf16Length(f.password) < 6 &&
              r.value.1 == (if f.password == "" then "Password is required" else "Password must be at least 6 characters")
    ensures r.Some? && r.value.0 == ConfirmPassword ==>
              Trim(f.name) != "" && Trim(f.email) != "" && Utf16Length(f.password) >= 6 &&
              f.password != f.confirmPassword && r.value.1 == "Passwords do not match"
  {
    if Trim(f.name) == "" then Some((Name, "Name is required"))
    else if Trim(f.email) == "" then Some((Email, "Email is required"))
    else if f.password == "" then Some((Password, "Password is required"))
    else if Utf16Length(f.password) < 6 then Some((Password, "Password must be at least 6 characters"))
    else if f.password != f.confirmPassword then Some((ConfirmPassword, "Passwords do not match"))
    else None
  }

  /**
   * The length check counts UTF-16 code units: a password of three astral
   * characters (three emoji, say) passes it although it has only three
   * characters.
   */
  lemma ThreeAstralPasswordAccepted(f: FormData, a: char, b: char, c: char)
    requires Trim(f.name) != "" && Trim(f.email) != ""
    requires IsAstral(a) && IsAstral(b) && IsAstral(c)
    requires f.password == [a, b, c] && f.confirmPassword == f.password
    ensures FirstError(f).None?
  {
    Utf16LengthThreeAstral(a, b, c);
  }

  /** A name or email of whitespace only is refused, whatever else is filled in. */
  lemma BlankNameOrEmailRefused(f: FormData)
    requires forall i :: 0 <= i < |f.name| ==> IsSpace(f.name[i])
    ensures FirstError(f) == Some((Name, "Name is required"))
    ensures Trim(f.name) != "" && (forall i :: 0 <= i < |f.email| ==> IsSpace(f.email[i])) ==>
              FirstError(f) == Some((Email, "Email is required"))
  {
    TrimEmptyIff(f.name);
    TrimEmptyIff(f.email);
  }

  /** Where a successful registration leads. */
  function Redirect(role: AuthStore.Role): (r: string)
    ensures role.Shopkeeper? <==> r == "/create-shop"
    ensures role.Customer? <==> r == "/shops"
  {
    if role.Shopkeeper? then "/create-shop" else "/shops"
  }

  /** The errors after a failed registration: the message on the email field when it mentions `email`. */
  function FailureErrors(message: string): (r: map<Field, string>)
    ensures Includes(message, "email") ==> r == map[Email := message]
    ensures !Includes(message, "email") ==> r == map[]
  {
    if Includes(message, "email") then map[Email := message] else map[]
  }

  /** A message naming the email field lands on it. */
  lemma EmailMessageOnEmailField(before: string, after: string)
    ensures FailureErrors(before + "email" + after) == map[Email := before + "email" + after]
  {
    IncludesInfix(before, "email", after);
  }

  /** The text of the error toast after a failed registration. */
  function FailureToast(message: string): (r: string)
    ensures r != ""
    ensures message != "" ==> r == message
  {
    if message != "" then message else "Registration failed. Please try again."
  }

  datatype Outcome = NotAttempted | Registered(navigateTo: string) | RegisterFailed

  class Page {
    const auth: AuthStore.Store
    const toasts: Toasts.Store
    var formData: FormData
    var errors: map<Field, string>
    var isLoading: bool

    /** The empty form; the role starts as customer. */
    constructor(auth: AuthStore.Store, toasts: Toasts.Store)
      ensures this.auth == auth && this.toasts == toasts
      ensures formData == FormData("", "", "", "", AuthStore.Customer) && errors == map[] && !isLoading
    {
      this.auth := auth;
      this.toasts := toasts;
      formData := FormData("", "", "", "", AuthStore.Customer);
      errors := map[];
      isLoading := false;
    }

    /** The inputs' `onChange` handlers: `setFormData` with one input changed; the errors stay until the next submission. */
    method SetFormData(f: FormData)
      modifies this
      ensures formData == f && errors == old(errors) && isLoading == old(isLoading)
    {
      formData := f;
    }

    /** `handleSubmit`, with the reply of `register` and the id of the toast it shows. */
    method HandleSubmit(reply: AuthStore.SignInReply, toastId: string) returns (outcome: Outcome)
      modifies this, auth, toasts
      ensures formData == old(formData)
      ensures FirstError(formData).Some? ==>
                outcome == NotAttempted && errors == map[FirstError(formData).value.0 := FirstError(formData).value.1] &&
                isLoading == old(isLoading) && auth.State() == old(auth.State()) &&
                toasts.toasts == old(toasts.toasts) && toasts.timers == old(toasts.timers)
      ensures FirstError(formData).None? ==>
                !isLoading && auth.State() == AuthStore.SignInSettle(AuthStore.StartLoading(old(auth.State())), reply)
      ensures FirstError(formData).None? && reply.SignedIn? ==>
                outcome == Registered(Redirect(formData.role)) && errors == map[] &&
                toasts.toasts == old(toasts.toasts) + [Toasts.Toast(toastId, "Account created successfully!", Toasts.Success, None)]
      ensures FirstError(formData).None? && reply.SignInFailed? ==>
                outcome == RegisterFailed && errors == FailureErrors(reply.error) &&
                toasts.toasts == old(toasts.toasts) + [Toasts.Toast(toastId, FailureToast(reply.error), Toasts.Error, None)]
    {
      errors := map[];
      var failed := FirstError(formData);
      if failed.Some? {
        errors := map[failed.value.0 := failed.value.1];
        outcome := NotAttempted;
      } else {
        outcome := Register(reply, toastId);
      }
    }

    /** The rest of `handleSubmit` once the checks pass: loading, `register`, then the toast and, on a failure, the email error. */
    method Register(reply: AuthStore.SignInReply, toastId: string) returns (outcome: Outcome)
      requires errors == map[]
      modifies this, auth, toasts
      ensures formData == old(formData)
      ensures !isLoading && auth.State() == AuthStore.SignInSettle(AuthStore.StartLoading(old(auth.State())), reply)
      ensures reply.SignedIn? ==>
                outcome == Registered(Redirect(formData.role)) && errors == map[] &&
                toasts.toasts == old(toasts.toasts) + [Toasts.Toast(toastId, "Account created successfully!", Toasts.Success, None)]
      ensures reply.SignInFailed? ==>
                outcome == RegisterFailed && errors == FailureErrors(reply.error) &&
                toasts.toasts == old(toasts.toasts) + [Toasts.Toast(toastId, FailureToast(reply.error), Toasts.Error, None)]
    {
      isLoading := true;
      auth.BeginSignIn();
      var err := auth.SettleSignIn(reply);
      if err.None? {
        toasts.ShowSuccess("Account created successfully!", None, toastId);
        outcome := Registered(if formData.role == AuthStore.Shopkeeper then "/create-shop" else "/shops");
      } else {
        var message := err.value;
        toasts.ShowError(if message != "" then message else "Registration failed. Please try again.", None, toastId);
        if Includes(message, "email") {
          errors := map[Email := message];
        }
        outcome := RegisterFailed;
      }
      isLoading := false;
    }
  }
}
