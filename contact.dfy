/**
 * The contact page (`contact.tsx`): the form is valid when name, email and
 * message each hold something besides whitespace, the submit button is
 * disabled otherwise, and a valid submission replaces the form by the
 * success view. Nothing is sent anywhere.
 */
module Contact {
  import opened Strings

  /** `valid`; the phone number plays no part. */
  function Valid(name: string, email: string, message: string): (r: bool)
    ensures r <==> (exists i :: 0 <= i < |name| && !IsSpace(name[i])) &&
                   (exists i :: 0 <= i < |email| && !IsSpace(email[i])) &&
                   (exists i :: 0 <= i < |message| && !IsSpace(message[i]))
  {
    TrimEmptyIff(name);
    TrimEmptyIff(email);
    TrimEmptyIff(message);
    Trim(name) != "" && Trim(email) != "" && Trim(message) != ""
  }

  /** What the left panel shows. */
  datatype View = Form(submitDisabled: bool) | Sent

  class Page {
    var name: string
    var email: string
    var phone: string
    var message: string
    var submitted: bool

    constructor()
      ensures name == "" && email == "" && phone == "" && message == "" && !submitted
    {
      name := "";
      email := "";
      phone := "";
      message := "";
      submitted := false;
    }

    /** Typing into the four inputs. */
    method Edit(newName: string, newEmail: string, newPhone: string, newMessage: string)
      modifies this
      ensures name == newName && email == newEmail && phone == newPhone && message == newMessage
      ensures submitted == old(submitted)
    {
      name, email, phone, message := newName, newEmail, newPhone, newMessage;
    }

    /** `handleSubmit`: only a valid form is marked submitted; the fields stay as they are. */
    method HandleSubmit()
      modifies this
      ensures submitted == (old(submitted) || Valid(name, email, message))
      ensures name == old(name) && email == old(email) && phone == old(phone) && message == old(message)
    {
      if !Valid(name, email, message) {
        return;
      }
      submitted := true;
    }

    /** The success view once submitted; before that, the form with its button disabled exactly when invalid. */
    method Render() returns (view: View)
      ensures submitted <==> view == Sent
      ensures view.Form? ==> (view.submitDisabled <==> !Valid(name, email, message))
    {
      if submitted {
        view := Sent;
      } else {
        view := Form(!Valid(name, email, message));
      }
    }
  }
}
