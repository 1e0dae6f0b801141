/**
  The sign-in form (src/pages/signin.jsx): two input fields, a record of
  per-field error messages, and the submit handler that rewrites both
  messages and decides whether the form is valid.
*/
module SignIn {
  import opened Credentials

  const EmptyEmail := "Email cannot be empty"
  const BadEmail := "Invalid email format"
  const EmptyPassword := "Password cannot be empty"
  const WeakPassword :=
    "Password must be at least 8 characters, include an uppercase letter, a lowercase letter, a number, and a special character"

  /** The `errors` state of the form; `""` means no error is shown for that field. */
  datatype FieldErrors = FieldErrors(email: string, password: string)

  const NoErrors := FieldErrors("", "")

  /**
    The message the submit handler leaves for the email field: the emptiness
    test first, the format test second; no message exactly when the address
    has the accepted shape.
  */
  function EmailError(email: string): (m: string)
    ensures m == EmptyEmail || m == BadEmail || m == ""
    ensures m == EmptyEmail <==> email == ""
    ensures m == BadEmail <==> email != "" && !ValidateEmail(email)
    ensures m == "" <==> EmailShape(email)
  {
    ValidateEmailIff(email);
    EmptyIsRejected();
    if email == "" then EmptyEmail
    else if !ValidateEmail(email) then BadEmail
    else ""
  }

  /**
    The message the submit handler leaves for the password field: the
    emptiness test first, the strength test second; no message exactly when
    the password is strong.
  */
  function PasswordError(password: string): (m: string)
    ensures m == EmptyPassword || m == WeakPassword || m == ""
    ensures m == EmptyPassword <==> password == ""
    ensures m == WeakPassword <==> password != "" && !ValidatePassword(password)
    ensures m == "" <==> StrongPassword(password)
  {
    ValidatePasswordIff(password);
    EmptyIsRejected();
    if password == "" then EmptyPassword
    else if !ValidatePassword(password) then WeakPassword
    else ""
  }

  /** The errors a submit leaves: each field's message depends on that field alone. */
  function SubmitErrors(email: string, password: string): (e: FieldErrors)
    ensures e.email == EmailError(email) && e.password == PasswordError(password)
    ensures e == NoErrors <==> EmailShape(email) && StrongPassword(password)
  {
    FieldErrors(EmailError(email), PasswordError(password))
  }

  /** The email message ignores the password, and the password message ignores the email. */
  lemma FieldsIndependent(email: string, email': string, password: string, password': string)
    ensures SubmitErrors(email, password).email == SubmitErrors(email, password').email
    ensures SubmitErrors(email, password).password == SubmitErrors(email', password).password
  {
  }

  class SignInForm {
    var email: string
    var password: string
    var errors: FieldErrors

    constructor ()
      ensures email == "" && password == "" && errors == NoErrors
    {
      email, password, errors := "", "", NoErrors;
    }

    /** Typing in the email field; the shown errors stay until the next submit. */
    method SetEmail(value: string)
      modifies this`email
      ensures email == value
    {
      email := value;
    }

    /** Typing in the password field; the shown errors stay until the next submit. */
    method SetPassword(value: string)
      modifies this`password
      ensures password == value
    {
      password := value;
    }

    /**
      The submit handler: it clears `valid` on each failing test and overwrites
      each field of `errors` in turn, so nothing of the previous errors
      survives.
    */
    method HandleSubmit() returns (valid: bool)
      modifies this`errors
      ensures errors == SubmitErrors(email, password)
      ensures valid <==> email != "" && ValidateEmail(email) && password != "" && ValidatePassword(password)
      ensures valid <==> errors == NoErrors
    {
      valid := true;

      if email == "" {
        errors := errors.(email := EmptyEmail);
        valid := false;
      } else if !ValidateEmail(email) {
        errors := errors.(email := BadEmail);
        valid := false;
      } else {
        errors := errors.(email := "");
      }

      if password == "" {
        errors := errors.(password := EmptyPassword);
        valid := false;
      } else if !ValidatePassword(password) {
        errors := errors.(password := WeakPassword);
        valid := false;
      } else {
        errors := errors.(password := "");
      }
    }
  }
}
