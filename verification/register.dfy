/**
 * The registration form: five text fields, the effect that enables the
 * submit button, the submission's success and failure branches, and the
 * redirect shown to a user who is already identified.
 */
module Register {
  import opened JsValues
  import opened Dialogs
  import App

  const MinPasswordLength: nat := 8
  const RegisteredMessage: string := "Registered successfully"
  const RejectedText: string := "Please try again later or contact us for assistance"
  const UnexpectedText: string := "An unexpected error occurred. Please try again later."

  /**
   * The enable-predicate: every field non-empty (untrimmed), the passwords
   * equal, and the password at least eight UTF-16 code units long.
   */
  predicate CanSubmit(firstName: string, lastName: string, email: string, password: string, confirmPassword: string) {
    && firstName != ""
    && lastName != ""
    && email != ""
    && password != ""
    && confirmPassword != ""
    && password == confirmPassword
    && Utf16Length(password) >= MinPasswordLength
  }

  /**
   * The two password non-emptiness tests are implied by the others: the
   * predicate is the three name/email tests, matching passwords and the length.
   */
  lemma CanSubmitSimplified(f: string, l: string, e: string, p: string, c: string)
    ensures CanSubmit(f, l, e, p, c) <==>
              f != "" && l != "" && e != "" && p == c && Utf16Length(p) >= MinPasswordLength
  {
  }

  /** Eight characters always pass the length test; passing it needs at least four characters. */
  lemma PasswordLengthBound(p: string)
    ensures |p| >= MinPasswordLength ==> Utf16Length(p) >= MinPasswordLength
    ensures Utf16Length(p) >= MinPasswordLength ==> 2 * |p| >= MinPasswordLength
  {
  }

  /** Fields holding only spaces count as filled: the form does not trim. */
  lemma BlankFieldsAccepted()
    ensures CanSubmit(" ", " ", " ", "        ", "        ")
  {
    assert Utf16Length("        ") == 8;
  }

  /** The form is replaced by a redirect to `/` whenever `user.id !== null`. */
  predicate RedirectsHome(user: App.User) {
    user.id != Null
  }

  /** The outcome of `POST /users/register`. */
  datatype RegisterReply =
    | RegisterRejected                    // non-2xx status, network or JSON failure
    | RegisterBody(message: Js<string>)  // the body's `message` field

  /** The five inputs of the form. */
  datatype Field = FirstName | LastName | Email | Password | ConfirmPassword

  /** The registration form's state. */
  class RegisterForm {
    var firstName: string
    var lastName: string
    var email: string
    var password: string
    var confirmPassword: string
    var isActive: bool

    /** The enable effect has run since the last field change. */
    predicate Valid()
      reads this
    {
      isActive == CanSubmit(firstName, lastName, email, password, confirmPassword)
    }

    constructor ()
      ensures Valid() && !isActive
      ensures firstName == lastName == email == password == confirmPassword == ""
    {
      firstName, lastName, email, password, confirmPassword := "", "", "", "", "";
      isActive := false;
    }

    /** The effect that runs after any field changes. */
    method RefreshActive()
      modifies this`isActive
      ensures Valid()
    {
      if firstName != "" && lastName != "" && email != "" && password != "" && confirmPassword != ""
         && password == confirmPassword && Utf16Length(password) >= MinPasswordLength {
        isActive := true;
      } else {
        isActive := false;
      }
    }

    /** Typing into one field (its `onChange`), followed by the enable effect. */
    method SetField(field: Field, value: string)
      modifies this
      ensures Valid()
      ensures firstName == (if field == FirstName then value else old(firstName))
      ensures lastName == (if field == LastName then value else old(lastName))
      ensures email == (if field == Email then value else old(email))
      ensures password == (if field == Password then value else old(password))
      ensures confirmPassword == (if field == ConfirmPassword then value else old(confirmPassword))
    {
      match field {
        case FirstName => firstName := value;
        case LastName => lastName := value;
        case Email => email := value;
        case Password => password := value;
        case ConfirmPassword => confirmPassword := value;
      }
      RefreshActive();
    }

    /**
     * `registerUser`: only the exact success message clears the five fields;
     * every other outcome leaves them and shows an error dialog.
     */
    method Submit(reply: RegisterReply) returns (alert: Alert)
      requires Valid()
      modifies this
      ensures Valid()
      ensures var ok := reply == RegisterBody(Val(RegisteredMessage));
              && (ok ==> firstName == lastName == email == password == confirmPassword == "" && !isActive)
              && (!ok ==> firstName == old(firstName) && lastName == old(lastName) && email == old(email)
                          && password == old(password) && confirmPassword == old(confirmPassword)
                          && isActive == old(isActive))
              && (alert.icon == SuccessIcon <==> ok)
      ensures reply == RegisterBody(Val(RegisteredMessage)) ==>
                alert == Alert(SuccessIcon, "Registration Successful", "Thank you for registering!")
      ensures reply.RegisterRejected? ==> alert == Alert(ErrorIcon, "Error", UnexpectedText)
      ensures reply.RegisterBody? && reply.message != Val(RegisteredMessage) ==>
                alert == Alert(ErrorIcon, "Something went wrong.", OrString(reply.message, RejectedText))
      ensures reply.RegisterBody? && reply.message != Val(RegisteredMessage) ==>
                alert.text == OrString(reply.message, RejectedText)
    {
      match reply
      case RegisterRejected =>
        alert := Alert(ErrorIcon, "Error", UnexpectedText);
      case RegisterBody(m) =>
        if m == Val(RegisteredMessage) {
          firstName := "";
          lastName := "";
          email := "";
          password := "";
          confirmPassword := "";
          RefreshActive();
          alert := Alert(SuccessIcon, "Registration Successful", "Thank you for registering!");
        } else {
          alert := Alert(ErrorIcon, "Something went wrong.", OrString(m, RejectedText));
        }
    }
  }
}
