/**
  The sign-up form's submit handler (src/pages/signup.jsx): eight checks in a
  fixed order, the first failing one reported through the error slice; when
  all pass, a register payload is built and `registerUser` dispatched, and
  the page navigates to `/sentEmail` only when that call is fulfilled.

  The form reuses `validateEmail` and `validatePassword` from a helper module
  of the repository that is not part of this model; they are taken to be the
  sign-in page's checks (module Credentials).
*/
module Signup {
  import opened Wrappers
  import opened Credentials
  import opened AuthSlice

  /** The user roles the payload can carry; only `USER` is sent from this form. */
  datatype Role = USER | INSTITUTION

  /** The form's state at the moment of submitting. */
  datatype SignupForm = SignupForm(name: string, email: string, password: string, confirmPassword: string, conscent: bool)

  /** The body sent with `registerUser`. */
  datatype RegisterPayload = RegisterPayload(name: string, emailAddress: string, password: string, conscent: bool, role: Role)

  /** The navigation to the e-mail-sent page, with the state it passes along. */
  datatype Navigation = Navigation(path: string, sentEmailMessage: string, emailAddress: string, isEmailVerify: bool)

  /** The checks of the submit handler. */
  datatype Check =
    | NameGiven | EmailGiven | EmailWellFormed | PasswordGiven | PasswordStrong
    | ConfirmGiven | PasswordsMatch | ConsentGiven

  /** The order in which the handler runs the checks. */
  const Checks: seq<Check> :=
    [NameGiven, EmailGiven, EmailWellFormed, PasswordGiven, PasswordStrong, ConfirmGiven, PasswordsMatch, ConsentGiven]

  predicate Passes(c: Check, f: SignupForm) {
    match c
    case NameGiven => f.name != ""
    case EmailGiven => f.email != ""
    case EmailWellFormed => ValidateEmail(f.email)
    case PasswordGiven => f.password != ""
    case PasswordStrong => ValidatePassword(f.password)
    case ConfirmGiven => f.confirmPassword != ""
    case PasswordsMatch => f.password == f.confirmPassword
    case ConsentGiven => f.conscent
  }

  // The messages the handler reports, one per check.
  const NameRequired := "Name is required."
  const EmailRequired := "Email is required."
  const EmailInvalid := "Invalid email format."
  const PasswordRequired := "Password is required."
  const PasswordWeak :=
    "Password must be at least 8 characters, include an uppercase letter, a lowercase letter, a number, and a special character."
  const ConfirmRequired := "Confirm password is required."
  const PasswordMismatch := "Passwords do not match."
  const ConsentRequired := "Please agree to terms and conditions"

  /** The error each check reports when it fails. */
  function Message(c: Check): string {
    match c
    case NameGiven => NameRequired
    case EmailGiven => EmailRequired
    case EmailWellFormed => EmailInvalid
    case PasswordGiven => PasswordRequired
    case PasswordStrong => PasswordWeak
    case ConfirmGiven => ConfirmRequired
    case PasswordsMatch => PasswordMismatch
    case ConsentGiven => ConsentRequired
  }

  /** Different checks report different messages, so a message names the check that failed. */
  lemma MessagesDistinct(c: Check, c': Check)
    requires c != c'
    ensures Message(c) != Message(c')
  {
  }

  /** Reference definition: the first check of `cs` that `f` fails, if any. */
  function FirstFailure(cs: seq<Check>, f: SignupForm): (r: Option<Check>)
    ensures r.None? <==> forall i | 0 <= i < |cs| :: Passes(cs[i], f)
    ensures r.Some? ==> exists i | 0 <= i < |cs| :: cs[i] == r.value && !Passes(cs[i], f)
                          && forall k | 0 <= k < i :: Passes(cs[k], f)
  {
    if cs == [] then None
    else if !Passes(cs[0], f) then Some(cs[0])
    else
      var r := FirstFailure(cs[1..], f);
      assert r.Some? ==> exists i | 0 <= i < |cs| :: cs[i] == r.value && !Passes(cs[i], f)
                            && forall k | 0 <= k < i :: Passes(cs[k], f) by {
        if r.Some? {
          var i :| 0 <= i < |cs| - 1 && cs[1..][i] == r.value && !Passes(cs[1..][i], f)
                   && forall k | 0 <= k < i :: Passes(cs[1..][k], f);
          assert cs[i + 1] == r.value && forall k | 0 <= k < i + 1 :: Passes(cs[k], f);
        }
      }
      assert r.None? ==> forall i | 0 <= i < |cs| :: Passes(cs[i], f) by {
        if r.None? {
          forall i | 0 <= i < |cs| ensures Passes(cs[i], f) {
            if i > 0 { assert cs[i] == cs[1..][i - 1]; }
          }
        }
      }
      r
  }

  /** The payload built once every check has passed. */
  function PayloadOf(f: SignupForm): RegisterPayload {
    RegisterPayload(f.name, f.email, f.password, f.conscent, USER)
  }

  /**
    The handler's chain of tests: the message of the first failing test, or
    the register payload. Every payload it builds comes from a form whose
    address and password pass both checks, whose confirmation equals the
    password and whose consent box is ticked.
  */
  function Validate(f: SignupForm): (r: Result<RegisterPayload, string>)
    ensures r.Success? ==> forall c :: Passes(c, f)
    ensures r.Success? ==> && r.value.name == f.name && r.value.name != ""
                           && r.value.emailAddress == f.email && EmailShape(r.value.emailAddress)
                           && r.value.password == f.confirmPassword && StrongPassword(r.value.password)
                           && r.value.conscent && r.value.role == USER
  {
    ValidateEmailIff(f.email);
    ValidatePasswordIff(f.password);
    if f.name == "" then Failure(Message(NameGiven))
    else if f.email == "" then Failure(Message(EmailGiven))
    else if !ValidateEmail(f.email) then Failure(Message(EmailWellFormed))
    else if f.password == "" then Failure(Message(PasswordGiven))
    else if !ValidatePassword(f.password) then Failure(Message(PasswordStrong))
    else if f.confirmPassword == "" then Failure(Message(ConfirmGiven))
    else if f.password != f.confirmPassword then Failure(Message(PasswordsMatch))
    else if !f.conscent then Failure(Message(ConsentGiven))
    else Success(PayloadOf(f))
  }

  /** The chain reports exactly the first failing check in the fixed order, and succeeds when none fails. */
  lemma ValidateReportsFirstFailure(f: SignupForm)
    ensures match FirstFailure(Checks, f)
            case None => Validate(f) == Success(PayloadOf(f))
            case Some(c) => Validate(f) == Failure(Message(c))
  {
    var cs := Checks;
    match FirstFailure(cs, f) {
      case None =>
        assert Passes(cs[0], f) && Passes(cs[1], f) && Passes(cs[2], f) && Passes(cs[3], f);
        assert Passes(cs[4], f) && Passes(cs[5], f) && Passes(cs[6], f) && Passes(cs[7], f);
      case Some(c) =>
        var i :| 0 <= i < |cs| && cs[i] == c && !Passes(cs[i], f) && forall k | 0 <= k < i :: Passes(cs[k], f);
        FailureAt(f, i);
    }
  }

  /** When check `i` is the first to fail, the chain reports its message. */
  lemma FailureAt(f: SignupForm, i: nat)
    requires i < |Checks| && !Passes(Checks[i], f) && forall k | 0 <= k < i :: Passes(Checks[k], f)
    ensures Validate(f) == Failure(Message(Checks[i]))
  {
    var cs := Checks;
    if i == 0 {
      assert Validate(f) == Failure(Message(NameGiven));
    } else if i == 1 {
      assert Passes(cs[0], f);
      assert Validate(f) == Failure(Message(EmailGiven));
    } else if i == 2 {
      assert Passes(cs[0], f) && Passes(cs[1], f);
      assert Validate(f) == Failure(Message(EmailWellFormed));
    } else if i == 3 {
      assert Passes(cs[0], f) && Passes(cs[1], f) && Passes(cs[2], f);
      assert Validate(f) == Failure(Message(PasswordGiven));
    } else if i == 4 {
      assert Passes(cs[0], f) && Passes(cs[1], f) && Passes(cs[2], f) && Passes(cs[3], f);
      assert Validate(f) == Failure(Message(PasswordStrong));
    } else if i == 5 {
      assert Passes(cs[0], f) && Passes(cs[1], f) && Passes(cs[2], f) && Passes(cs[3], f);
      assert Passes(cs[4], f);
      assert Validate(f) == Failure(Message(ConfirmGiven));
    } else if i == 6 {
      assert Passes(cs[0], f) && Passes(cs[1], f) && Passes(cs[2], f) && Passes(cs[3], f);
      assert Passes(cs[4], f) && Passes(cs[5], f);
      assert Validate(f) == Failure(Message(PasswordsMatch));
    } else {
      assert Passes(cs[0], f) && Passes(cs[1], f) && Passes(cs[2], f) && Passes(cs[3], f);
      assert Passes(cs[4], f) && Passes(cs[5], f) && Passes(cs[6], f);
      assert Validate(f) == Failure(Message(ConsentGiven));
    }
  }

  /** Validation succeeds exactly when the form passes every check. */
  lemma ValidateSucceedsIffAllPass(f: SignupForm)
    ensures Validate(f).Success? <==> forall c :: Passes(c, f)
  {
    ValidateReportsFirstFailure(f);
    var r := FirstFailure(Checks, f);
    if r.Some? {
      assert !Passes(r.value, f);
    }
  }

  /**
    A password mismatch is reported only when the name, the address, the
    password and its confirmation are all present and the address and the
    password both pass their checks.
  */
  lemma MismatchReportedLast(f: SignupForm)
    requires Validate(f) == Failure(Message(PasswordsMatch))
    ensures f.name != "" && f.email != "" && ValidateEmail(f.email)
    ensures f.password != "" && ValidatePassword(f.password) && f.confirmPassword != ""
    ensures f.password != f.confirmPassword
  {
  }

  /**
    The submit handler. A failing check dispatches its one `setError` and
    nothing else; otherwise `registerUser` runs with the payload, and the page
    navigates to `/sentEmail` only if that call is fulfilled.
  */
  method HandleSubmit(store: AuthStore, f: SignupForm, registerOutcome: Outcome)
    returns (sent: Option<RegisterPayload>, nav: Option<Navigation>)
    modifies store
    ensures store.State() == old(store.State())
    ensures Validate(f).Failure? ==>
              && sent == None && nav == None
              && store.log == old(store.log) + [SetError(Validate(f).error)]
    ensures Validate(f).Success? ==>
              && sent == Some(Validate(f).value)
              && store.log == old(store.log) + Signals(RegisterUser, registerOutcome)
    ensures nav.Some? <==> Validate(f).Success? && Settle(registerOutcome).Fulfilled?
    ensures nav.Some? ==> nav.value == Navigation("/sentEmail", "to verify the email", f.email, true)
  {
    var checked := Validate(f);
    if checked.Failure? {
      store.log := store.log + [SetError(checked.error)];
      return None, None;
    }
    sent := Some(checked.value);
    var response := store.Dispatch(RegisterUser, registerOutcome);
    nav := None;
    if response.Fulfilled? {
      nav := Some(Navigation("/sentEmail", "to verify the email", f.email, true));
    }
  }
}
