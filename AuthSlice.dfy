/**
  The authentication slice of the client store (src/store/slices/authSlice.js):
  the ten request thunks, each of which dispatches loading, error, success and
  self-identification actions to other slices and settles fulfilled or
  rejected, and the reducer over `{isLoggedIn, data, token, code}`.

  The network call of a thunk is replaced by its outcome, a value given to the
  model: either the call threw, or it returned a response body.
*/
module AuthSlice {
  import opened Wrappers

  // ---------------------------------------------------------------------
  // Requests and their outcomes
  // ---------------------------------------------------------------------

  /** The request thunks the slice exports. */
  datatype Thunk =
    | RegisterUser | RegisterInstitution | Login | Logout | ForgetPassword
    | ResetPassword | VerifyEmail | ResendVerifyEmailLink | ChangePassword | RefreshToken

  /** Keys of the success-message table; the texts behind them are not part of this model. */
  datatype SuccessKey =
    | UserRegister | InstitutionRegister | UserLogin | UserLogout | UserForgotPassword
    | UserResetPassword | UserVerifyEmail | UserResendVerificationEmail | UserChangePassword

  /** The actions a thunk dispatches to the loader, error, message and user slices. */
  datatype Signal =
    | StartLoading
    | StopLoading
    | SetError(message: string)
    | SetSuccess(key: SuccessKey)
    | SelfIdentification

  /** A response body `{success, message, data}`; `data` is kept as opaque JSON text. */
  datatype Body = Body(success: bool, message: string, data: Option<string>)

  /**
    What the network call did: it threw (`axiosError` tells whether the error
    is an axios error, `responseMessage` is `error.response.data.message` when
    the server sent one), or it returned a body.
  */
  datatype Outcome =
    | Thrown(axiosError: bool, responseMessage: Option<string>)
    | Replied(body: Body)

  /** The terminal state of one thunk call: the value it returns or rejects with. */
  datatype Settled = Fulfilled(body: Body) | Rejected(reason: string)

  const GenericError := "Something went wrong"

  /** The thunk dispatches `startLoading` first (every thunk but `refreshToken`). */
  predicate StartsLoading(t: Thunk) {
    t != RefreshToken
  }

  /** The thunk has a `finally` block that dispatches `stopLoading`. */
  predicate HasFinally(t: Thunk) {
    t != Login && t != RefreshToken
  }

  /** The success message a thunk announces when the server reports success. */
  function SuccessKeyOf(t: Thunk): Option<SuccessKey> {
    match t
    case RegisterUser => Some(UserRegister)
    case RegisterInstitution => Some(InstitutionRegister)
    case Login => Some(UserLogin)
    case Logout => Some(UserLogout)
    case ForgetPassword => Some(UserForgotPassword)
    case ResetPassword => Some(UserResetPassword)
    case VerifyEmail => Some(UserVerifyEmail)
    case ResendVerifyEmailLink => Some(UserResendVerificationEmail)
    case ChangePassword => Some(UserChangePassword)
    case RefreshToken => None
  }

  /**
    The message of the `catch` block: the server's message when the error is
    an axios error whose response carries a non-empty (truthy) message, the
    generic text otherwise.
  */
  function ErrorMessage(axiosError: bool, responseMessage: Option<string>): (m: string)
    ensures m != ""
    ensures (axiosError && responseMessage.Some? && responseMessage.value != "") ==> m == responseMessage.value
    ensures !(axiosError && responseMessage.Some? && responseMessage.value != "") ==> m == GenericError
  {
    if axiosError && responseMessage.Some? && responseMessage.value != "" then responseMessage.value
    else GenericError
  }

  /** How a thunk settles, given what its network call did. */
  function Settle(o: Outcome): (r: Settled)
    ensures r.Fulfilled? <==> o.Replied? && o.body.success
    ensures r.Fulfilled? ==> r.body == o.body
    ensures o.Replied? && !o.body.success ==> r == Rejected(o.body.message)
    ensures o.Thrown? ==> r == Rejected(ErrorMessage(o.axiosError, o.responseMessage)) && r.reason != ""
  {
    match o
    case Thrown(axiosError, responseMessage) => Rejected(ErrorMessage(axiosError, responseMessage))
    case Replied(body) => if !body.success then Rejected(body.message) else Fulfilled(body)
  }

  /** What a thunk dispatches once the server reported success. */
  function SuccessSignals(t: Thunk): seq<Signal> {
    (if t == Login then [SelfIdentification] else [])
    + (match SuccessKeyOf(t) case Some(k) => [SetSuccess(k)] case None => [])
  }

  /**
    Everything one call of thunk `t` dispatches, in order: the opening
    `startLoading`, then either `setError` with the rejection reason or the
    success signals, then the `stopLoading` of the `finally` block.
  */
  function Signals(t: Thunk, o: Outcome): seq<Signal> {
    (if StartsLoading(t) then [StartLoading] else [])
    + (match Settle(o) case Rejected(m) => [SetError(m)] case Fulfilled(_) => SuccessSignals(t))
    + (if HasFinally(t) then [StopLoading] else [])
  }

  /** How one signal moves the loading indicator. */
  function LoadingDelta(x: Signal): int {
    match x
    case StartLoading => 1
    case StopLoading => -1
    case _ => 0
  }

  /** Number of `startLoading` minus number of `stopLoading` in a log. */
  function LoadingDepth(log: seq<Signal>): int {
    if log == [] then 0 else LoadingDelta(log[0]) + LoadingDepth(log[1..])
  }

  // ---------------------------------------------------------------------
  // Properties of one thunk call
  // ---------------------------------------------------------------------

  /**
    A thunk with a `finally` block dispatches exactly one `startLoading`, as
    its first action, and exactly one `stopLoading`, as its last, whatever
    its outcome.
  */
  lemma LoadingBracketed(t: Thunk, o: Outcome)
    requires HasFinally(t)
    ensures var log := Signals(t, o);
      && |log| >= 2 && log[0] == StartLoading && log[|log| - 1] == StopLoading
      && multiset(log)[StartLoading] == 1 && multiset(log)[StopLoading] == 1
  {
    var mid := match Settle(o) case Rejected(m) => [SetError(m)] case Fulfilled(_) => SuccessSignals(t);
    assert Signals(t, o) == [StartLoading] + mid + [StopLoading];
    assert StartLoading !in mid && StopLoading !in mid;
  }

  /**
    `userLogin` has no `finally` block: it dispatches `startLoading` first and
    never `stopLoading`; on success it asks for self-identification before
    announcing the login.
  */
  lemma LoginLeavesLoadingOn(o: Outcome)
    ensures var log := Signals(Login, o);
      && log[0] == StartLoading && StopLoading !in log
      && (Settle(o).Fulfilled? ==> log == [StartLoading, SelfIdentification, SetSuccess(UserLogin)])
  {
  }

  /** `refreshToken` dispatches no loading signal and announces no success. */
  lemma RefreshTokenIsQuiet(o: Outcome)
    ensures var log := Signals(RefreshToken, o);
      && StartLoading !in log && StopLoading !in log
      && (forall k :: SetSuccess(k) !in log)
      && (Settle(o).Fulfilled? ==> log == [])
  {
  }

  /**
    A call rejects with `m` exactly when it dispatches `setError(m)`; it then
    dispatches no other error and no success message.
  */
  lemma RejectionIsAnnounced(t: Thunk, o: Outcome, m: string)
    ensures Settle(o) == Rejected(m) <==> SetError(m) in Signals(t, o)
    ensures Settle(o).Rejected? ==> forall k :: SetSuccess(k) !in Signals(t, o)
    ensures Settle(o).Rejected? ==> multiset(Signals(t, o))[SetError(m)] == (if m == Settle(o).reason then 1 else 0)
  {
  }

  /** A body with `success == false` makes the call reject with its message, announced as an error. */
  lemma FailedReplyRejects(t: Thunk, b: Body)
    requires !b.success
    ensures Settle(Replied(b)) == Rejected(b.message)
    ensures SetError(b.message) in Signals(t, Replied(b))
    ensures forall k :: SetSuccess(k) !in Signals(t, Replied(b))
  {
  }

  /**
    A thrown call rejects with the server's message when an axios error
    carries one, else with the generic text, and announces that same message.
  */
  lemma ThrownRejects(t: Thunk, axiosError: bool, responseMessage: Option<string>)
    ensures var m := if axiosError && responseMessage.Some? && responseMessage.value != ""
                     then responseMessage.value else GenericError;
      && Settle(Thrown(axiosError, responseMessage)) == Rejected(m)
      && SetError(m) in Signals(t, Thrown(axiosError, responseMessage))
  {
  }

  /** A call whose server reported success fulfils with the body and dispatches no error. */
  lemma SuccessRaisesNoError(t: Thunk, b: Body)
    requires b.success
    ensures Settle(Replied(b)) == Fulfilled(b)
    ensures forall m :: SetError(m) !in Signals(t, Replied(b))
  {
  }

  /**
    A successful call of a thunk with a success message (every thunk but
    `refreshToken`) announces that message exactly once.
  */
  lemma SuccessAnnouncedOnce(t: Thunk, b: Body, key: SuccessKey)
    requires b.success && SuccessKeyOf(t) == Some(key)
    ensures multiset(Signals(t, Replied(b)))[SetSuccess(key)] == 1
  {
  }

  lemma {:induction false} LoadingDepthAppend(a: seq<Signal>, b: seq<Signal>)
    ensures LoadingDepth(a + b) == LoadingDepth(a) + LoadingDepth(b)
  {
    if a != [] {
      assert (a + b)[0] == a[0] && (a + b)[1..] == a[1..] + b;
      LoadingDepthAppend(a[1..], b);
    } else {
      assert a + b == b;
    }
  }

  /** One call leaves the loading depth where it was, except `userLogin`, which raises it by one. */
  lemma SignalsLoadingDepth(t: Thunk, o: Outcome)
    ensures LoadingDepth(Signals(t, o)) == if t == Login then 1 else 0
  {
    var pre := if StartsLoading(t) then [StartLoading] else [];
    var mid := match Settle(o) case Rejected(m) => [SetError(m)] case Fulfilled(_) => SuccessSignals(t);
    var post := if HasFinally(t) then [StopLoading] else [];
    LoadingDepthAppend(pre + mid, post);
    LoadingDepthAppend(pre, mid);
    assert LoadingDepth(mid) == 0 by {
      if Settle(o).Fulfilled? {
        var self := if t == Login then [SelfIdentification] else [];
        var announce := match SuccessKeyOf(t) case Some(k) => [SetSuccess(k)] case None => [];
        LoadingDepthAppend(self, announce);
      }
    }
  }

  /** The log of a series of calls, each given by its thunk and outcome. */
  function RunsSignals(runs: seq<(Thunk, Outcome)>): seq<Signal> {
    if runs == [] then [] else Signals(runs[0].0, runs[0].1) + RunsSignals(runs[1..])
  }

  function LoginCount(runs: seq<(Thunk, Outcome)>): nat {
    if runs == [] then 0 else (if runs[0].0 == Login then 1 else 0) + LoginCount(runs[1..])
  }

  /**
    Over any series of calls, `startLoading` outnumbers `stopLoading` by exactly
    the number of `userLogin` calls: every other thunk is balanced.
  */
  lemma {:induction false} RunsLoadingDepth(runs: seq<(Thunk, Outcome)>)
    ensures LoadingDepth(RunsSignals(runs)) == LoginCount(runs)
  {
    if runs != [] {
      LoadingDepthAppend(Signals(runs[0].0, runs[0].1), RunsSignals(runs[1..]));
      SignalsLoadingDepth(runs[0].0, runs[0].1);
      RunsLoadingDepth(runs[1..]);
    }
  }

  // ---------------------------------------------------------------------
  // The reducer
  // ---------------------------------------------------------------------

  /** The slice's state; JavaScript's `null` and `undefined` are both `None`. */
  datatype AuthState = AuthState(isLoggedIn: bool, data: Option<string>, token: Option<string>, code: Option<string>)

  const Initial := AuthState(false, None, None, None)

  /** The actions the slice's reducer sees: its own two, and the lifecycle actions of its thunks. */
  datatype Action =
    | SetLoggedIn
    | SetLoggedOut
    | Pending(thunk: Thunk)
    | Done(thunk: Thunk, result: Settled)

  /** The reducer: the cases the slice declares; every other action leaves the state as it is. */
  function Next(s: AuthState, a: Action): (s': AuthState)
    ensures s'.token == s.token && s'.code == s.code
    ensures s'.data != s.data ==> a.Done? && a.result.Fulfilled? && (a.thunk == Login || a.thunk == Logout)
  {
    match a
    case SetLoggedIn => s.(isLoggedIn := true)
    case SetLoggedOut => s.(isLoggedIn := false)
    case Pending(t) => if t == Login then s.(isLoggedIn := false) else s
    case Done(t, r) =>
      if t == Login then
        match r
        case Fulfilled(b) => s.(isLoggedIn := true, data := b.data)
        case Rejected(_) => s.(isLoggedIn := false)
      else if t == Logout && r.Fulfilled? then s.(isLoggedIn := false, data := None)
      else s
  }

  /** A pending or rejected login logs out and keeps `data`. */
  lemma LoginPendingOrRejected(s: AuthState, m: string)
    ensures Next(s, Pending(Login)) == s.(isLoggedIn := false)
    ensures Next(s, Done(Login, Rejected(m))) == s.(isLoggedIn := false)
  {
  }

  /** A fulfilled login followed by a fulfilled logout leaves nobody logged in and no data. */
  lemma LoginThenLogout(s: AuthState, b: Body, b': Body)
    ensures var s' := Next(Next(s, Done(Login, Fulfilled(b))), Done(Logout, Fulfilled(b')));
      s' == AuthState(false, None, s.token, s.code)
  {
  }

  /** A rejected or pending logout has no case: the state is unchanged. */
  lemma LogoutFailureIgnored(s: AuthState, m: string)
    ensures Next(s, Pending(Logout)) == s
    ensures Next(s, Done(Logout, Rejected(m))) == s
  {
  }

  function NextAll(s: AuthState, actions: seq<Action>): AuthState
    decreases actions
  {
    if actions == [] then s else NextAll(Next(s, actions[0]), actions[1..])
  }

  /** No sequence of actions changes `token` or `code`: from the initial state they stay null. */
  lemma {:induction false} TokenAndCodeFixed(s: AuthState, actions: seq<Action>)
    ensures NextAll(s, actions).token == s.token && NextAll(s, actions).code == s.code
    decreases actions
  {
    if actions != [] {
      TokenAndCodeFixed(Next(s, actions[0]), actions[1..]);
    }
  }

  /** The state after a whole thunk call: its pending action, then the action it settles with. */
  function AfterDispatch(s: AuthState, t: Thunk, o: Outcome): AuthState {
    Next(Next(s, Pending(t)), Done(t, Settle(o)))
  }

  /** A login that does not succeed leaves the user logged out and `data` as it was. */
  lemma FailedLoginStaysLoggedOut(s: AuthState, o: Outcome)
    requires !Settle(o).Fulfilled?
    ensures AfterDispatch(s, Login, o) == s.(isLoggedIn := false)
  {
  }

  /** A successful login logs in with the body's data. */
  lemma SuccessfulLogin(s: AuthState, b: Body)
    requires b.success
    ensures AfterDispatch(s, Login, Replied(b)) == s.(isLoggedIn := true, data := b.data)
  {
  }

  /** A logout that does not succeed leaves the session as it was. */
  lemma FailedLogoutKeepsSession(s: AuthState, o: Outcome)
    requires !Settle(o).Fulfilled?
    ensures AfterDispatch(s, Logout, o) == s
  {
  }

  /** The thunks other than login and logout have no reducer case. */
  lemma OtherThunksKeepState(s: AuthState, t: Thunk, o: Outcome)
    requires t != Login && t != Logout
    ensures AfterDispatch(s, t, o) == s
  {
  }

  // ---------------------------------------------------------------------
  // The store: the slice's fields, updated in place, and the log of what
  // its thunks dispatched to the other slices.
  // ---------------------------------------------------------------------

  class AuthStore {
    var isLoggedIn: bool
    var data: Option<string>
    var token: Option<string>
    var code: Option<string>
    /** Every action dispatched to the loader, error, message and user slices, oldest first. */
    var log: seq<Signal>

    function State(): AuthState
      reads this
    {
      AuthState(isLoggedIn, data, token, code)
    }

    constructor ()
      ensures State() == Initial && log == []
    {
      isLoggedIn, data, token, code := false, None, None, None;
      log := [];
    }

    /** Runs the reducer on one action, assigning the fields its case names. */
    method Apply(a: Action)
      modifies this
      ensures State() == Next(old(State()), a)
      ensures log == old(log)
    {
      match a {
        case SetLoggedIn =>
          isLoggedIn := true;
        case SetLoggedOut =>
          isLoggedIn := false;
        case Pending(t) =>
          if t == Login {
            isLoggedIn := false;
          }
        case Done(t, r) =>
          if t == Login {
            match r {
              case Fulfilled(b) =>
                isLoggedIn := true;
                data := b.data;
              case Rejected(_) =>
                isLoggedIn := false;
            }
          } else if t == Logout && r.Fulfilled? {
            isLoggedIn := false;
            data := None;
          }
      }
    }

    /** The body of thunk `t` (its try, catch and finally blocks), given what its network call did. */
    method Run(t: Thunk, o: Outcome) returns (r: Settled)
      modifies this`log
      ensures log == old(log) + Signals(t, o)
      ensures r == Settle(o)
    {
      if StartsLoading(t) {
        log := log + [StartLoading];
      }
      match o {
        case Thrown(axiosError, responseMessage) =>
          var m := ErrorMessage(axiosError, responseMessage);
          log := log + [SetError(m)];
          r := Rejected(m);
        case Replied(b) =>
          if !b.success {
            log := log + [SetError(b.message)];
            r := Rejected(b.message);
          } else {
            if t == Login {
              log := log + [SelfIdentification];
            }
            var key := SuccessKeyOf(t);
            if key.Some? {
              log := log + [SetSuccess(key.value)];
            }
            r := Fulfilled(b);
          }
      }
      if HasFinally(t) {
        log := log + [StopLoading];
      }
    }

    /** Dispatches thunk `t`: its pending action, its body, then the action it settles with. */
    method Dispatch(t: Thunk, o: Outcome) returns (r: Settled)
      modifies this
      ensures r == Settle(o)
      ensures State() == AfterDispatch(old(State()), t, o)
      ensures log == old(log) + Signals(t, o)
    {
      Apply(Pending(t));
      r := Run(t, o);
      Apply(Done(t, r));
    }
  }
}
