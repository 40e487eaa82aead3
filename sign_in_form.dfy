/**
 * The sign-in form (`sign-in-form.tsx`): an empty email and then an empty
 * password stop the submission with a field error; otherwise the auth
 * store's `login` runs, and its failure becomes the password's error. The
 * login reply and the random id of the toast are parameters; the 500 ms
 * delay before navigating is not modelled.
 */
module SignInForm {
  import opened Common
  import AuthStore
  import Toasts

  datatype Field = EmailField | PasswordField

  /** The check before `login`: only the first empty field is reported. */
  function InputError(email: string, password: string): (r: Option<(Field, string)>)
    ensures r.None? <==> email != "" && password != ""
    ensures r.Some? && r.value.0 == EmailField ==> email == "" && r.value.1 == "Email is required"
    ensures r.Some? && r.value.0 == PasswordField ==> email != "" && password == "" && r.value.1 == "Password is required"
  {
    if email == "" then Some((EmailField, "Email is required"))
    else if password == "" then Some((PasswordField, "Password is required"))
    else None
  }

  /** The errors a field error shows: that one field. */
  function ErrorsOf(e: Option<(Field, string)>): (r: map<Field, string>)
    ensures e.None? ==> r == map[]
    ensures e.Some? ==> r.Keys == {e.value.0} && r[e.value.0] == e.value.1
  {
    if e.None? then map[] else map[e.value.0 := e.value.1]
  }

  /** The password error after a failed login: the error's message, or a fallback when it has none. */
  function FailureError(message: string): (r: string)
    ensures r != ""
    ensures message != "" ==> r == message
  {
    if message != "" then message else "Invalid credentials"
  }

  /** The text of the error toast after a failed login. */
  function FailureToast(message: string): (r: string)
    ensures r != ""
    ensures message != "" ==> r == message
  {
    if message != "" then message else "Login failed. Please try again."
  }

  /** Where a successful sign-in leads: the shopkeeper dashboard, whatever the user's role. */
  const Dashboard := "/shopkeeper/dashboard"

  datatype Outcome = NotAttempted | SignedIn(navigateTo: string) | LoginFailed

  class Form {
    const auth: AuthStore.Store
    const toasts: Toasts.Store
    var email: string
    var password: string
    var errors: map<Field, string>
    var isLoading: bool

    constructor(auth: AuthStore.Store, toasts: Toasts.Store)
      ensures this.auth == auth && this.toasts == toasts
      ensures email == "" && password == "" && errors == map[] && !isLoading
    {
      this.auth := auth;
      this.toasts := toasts;
      email := "";
      password := "";
      errors := map[];
      isLoading := false;
    }

    /** The email input's `onChange`: `setEmail`; the errors stay until the next submission. */
    method SetEmail(value: string)
      modifies this
      ensures email == value && password == old(password) && errors == old(errors) && isLoading == old(isLoading)
    {
      email := value;
    }

    /** The password input's `onChange`: `setPassword`. */
    method SetPassword(value: string)
      modifies this
      ensures password == value && email == old(email) && errors == old(errors) && isLoading == old(isLoading)
    {
      password := value;
    }

    /** `handleSignIn`, with the reply of `login` and the id of the toast it shows. */
    method HandleSignIn(reply: AuthStore.SignInReply, toastId: string) returns (outcome: Outcome)
      modifies this, auth, toasts
      ensures email == old(email) && password == old(password)
      ensures InputError(email, password).Some? ==>
                outcome == NotAttempted && errors == ErrorsOf(InputError(email, password)) &&
                isLoading == old(isLoading) && auth.State() == old(auth.State()) &&
                toasts.toasts == old(toasts.toasts) && toasts.timers == old(toasts.timers)
      ensures InputError(email, password).None? ==>
                !isLoading && auth.State() == AuthStore.SignInSettle(AuthStore.StartLoading(old(auth.State())), reply)
      ensures InputError(email, password).None? && reply.SignedIn? ==>
                outcome == SignedIn(Dashboard) && errors == map[] &&
                toasts.toasts == old(toasts.toasts) + [Toasts.Toast(toastId, "Login successful!", Toasts.Success, None)]
      ensures InputError(email, password).None? && reply.SignInFailed? ==>
                outcome == LoginFailed && errors == map[PasswordField := FailureError(reply.error)] &&
                toasts.toasts == old(toasts.toasts) + [Toasts.Toast(toastId, FailureToast(reply.error), Toasts.Error, None)]
    {
      errors := map[];
      if email == "" {
        errors := map[EmailField := "Email is required"];
        return NotAttempted;
      }
      if password == "" {
        errors := map[PasswordField := "Password is required"];
        return NotAttempted;
      }
      isLoading := true;
      auth.BeginSignIn();
      var err := auth.SettleSignIn(reply);
      if err.None? {
        toasts.ShowSuccess("Login successful!", None, toastId);
        outcome := SignedIn(Dashboard);
      } else {
        var message := err.value;
        toasts.ShowError(if message != "" then message else "Login failed. Please try again.", None, toastId);
        errors := map[PasswordField := if message != "" then message else "Invalid credentials"];
        outcome := LoginFailed;
      }
      isLoading := false;
    }
  }
}
