# CareerGo client: authentication core in Dafny

This project models the authentication core of the CareerGo web client, a
React/Redux front end for an educational platform. It covers three pieces:

- **Credential checks of the sign-in page** (`src/pages/signin.jsx`). The
  `validateEmail` and `validatePassword` regular expressions are modelled as
  predicates over `string`. Each one states what the anchored regex matches:
  the split points of `^[^\s@]+@[^\s@]+\.[^\s@]+$`, and the four look-aheads
  plus the repeated class of the password pattern. Character classes keep
  their ECMAScript meaning: `\s` is the full WhiteSpace/LineTerminator set,
  `\d` is `[0-9]`, and `.` excludes line terminators. The sign-in form is a
  class. Its submit handler overwrites both per-field error messages and
  returns the `valid` flag.
- **Sign-up submit handler** (`src/pages/signup.jsx`). Eight checks run in a
  fixed order (module `Signup`). The first failing check dispatches one
  `setError`. When every check passes, the handler builds the register
  payload and dispatches `registerUser`. It navigates to `/sentEmail` only
  when that call is fulfilled.
- **Auth slice** (`src/store/slices/authSlice.js`). The ten request thunks
  are modelled against an abstract outcome: the network call either threw or
  returned a body `{success, message, data}`. Everything a thunk dispatches to
  the loader, error, message and user slices goes into an ordered log
  (`startLoading`, `setError(m)`, `setSuccess(key)`, `selfIdentification`,
  `stopLoading`). The call then settles fulfilled or rejected. The reducer
  runs over `{isLoggedIn, data, token, code}`. Class `AuthStore` holds these
  fields and the log, and its methods update them in place.

Files: `Wrappers.dfy` (Option, Result), `Credentials.dfy`, `SignIn.dfy`,
`AuthSlice.dfy`, `Signup.dfy`.

Three behaviours of the code that are easy to get wrong:

- Not every thunk signals both loading-start and loading-stop. `userLogin`
  has no `finally` block, so it never dispatches `stopLoading`.
  `refreshToken` dispatches no loading signal at all.
- The session has no separate "authenticating" state. A pending login only
  sets `isLoggedIn` to false.
- A failed login does change the slice. Its pending and rejected cases set
  `isLoggedIn` to false, even when someone was logged in before. `data` is
  left alone.

## Model

| member | source | states |
|---|---|---|
| `Credentials.ValidateEmailIff` | src/pages/signin.jsx:13-16 | The email regex matches exactly when the address has no whitespace, exactly one `@` with something before it, and after the `@` a `.` with at least one character on each side. |
| `Credentials.EmailExamples` | src/pages/signin.jsx:13-16 | `"a@b.co"` is accepted; `"a@b"` and `"notanemail"` are rejected. |
| `Credentials.ValidatePasswordIff` | src/pages/signin.jsx:18-21 | The password regex matches exactly when the password has at least 8 characters, all from `[A-Za-z0-9@$!%*?&]`, with at least one lower-case letter, one upper-case letter, one digit and one of `@$!%*?&`. |
| `Credentials.PasswordExamples` | src/pages/signin.jsx:18-21 | `"Abcdef1!"` is accepted; `"abcdef1"` and `""` are rejected. |
| `Credentials.EmptyIsRejected` | src/pages/signin.jsx:13-21 | Neither regex accepts the empty string, so the handlers' emptiness tests only choose which message is shown. |
| `SignIn.EmailError` | src/pages/signin.jsx:27-35 | The email message is one of `'Email cannot be empty'`, `'Invalid email format'` or `''`. Emptiness is tested first, the format second. The message is `''` exactly when the address has the accepted shape. |
| `SignIn.PasswordError` | src/pages/signin.jsx:37-48 | The password message is one of `'Password cannot be empty'`, the strength message or `''`. Emptiness is tested first, strength second. The message is `''` exactly when the password is strong. |
| `SignIn.SubmitErrors` | src/pages/signin.jsx:27-48 | After a submit, each field holds its own message. Both fields are empty exactly when the email is well formed and the password is strong. |
| `SignIn.FieldsIndependent` | src/pages/signin.jsx:27-48 | The email message does not depend on the password, and the password message does not depend on the email. |
| `SignIn.SignInForm.constructor` | src/pages/signin.jsx:8-11 | The form starts with empty fields and no errors. |
| `SignIn.SignInForm.SetEmail` | src/pages/signin.jsx:81 | Typing sets the email field and changes nothing else; shown errors stay until the next submit. |
| `SignIn.SignInForm.SetPassword` | src/pages/signin.jsx:97 | Typing sets the password field and changes nothing else. |
| `SignIn.SignInForm.HandleSubmit` | src/pages/signin.jsx:23-54 | Submit overwrites both error fields, whatever they held before. `valid` is true exactly when the email is non-empty and passes `validateEmail` and the password is non-empty and passes `validatePassword`, that is, exactly when no error is left. |
| `Signup.MessagesDistinct` | src/pages/signup.jsx:26-59 | Any two checks report different messages, so the message names the failing check. |
| `Signup.FirstFailure` | src/pages/signup.jsx:26-59 | Reference definition of first-failure order. It returns no check exactly when every check passes. Otherwise it returns a check that fails while every check before it passes. |
| `Signup.Validate` | src/pages/signup.jsx:26-67 | Every built payload comes from a form that passes all eight checks. The payload carries the form's name and `emailAddress == email`. Its password equals the confirmation and is strong. The address has the accepted shape, `conscent` is true and `role` is `USER`. |
| `Signup.FailureAt` | src/pages/signup.jsx:26-59 | When check `i` fails and every check before it passes, the chain reports check `i`'s message. |
| `Signup.ValidateReportsFirstFailure` | src/pages/signup.jsx:26-67 | The chain reports the message of the first failing check in the order name, email present, email format, password present, password format, confirm present, passwords match, consent. It builds the payload when no check fails. |
| `Signup.ValidateSucceedsIffAllPass` | src/pages/signup.jsx:26-69 | A payload is built and sent exactly when every check passes. |
| `Signup.MismatchReportedLast` | src/pages/signup.jsx:38-54 | A password mismatch is reported only when name, email, password and confirmation are all present and both the email and the password pass their checks. |
| `Signup.HandleSubmit` | src/pages/signup.jsx:23-74 | A failing check dispatches exactly one `setError` with its message and never dispatches `registerUser`. Otherwise the payload is sent and the log grows by the register thunk's signals. The page navigates to `/sentEmail`, with the address and the verify flag, exactly when the register call is fulfilled. The auth state is unchanged. |
| `AuthSlice.ErrorMessage` | src/store/slices/authSlice.js:37-44 | The catch-block message is the server's `response.data.message` when the error is an axios error carrying a non-empty message. Otherwise it is `'Something went wrong'`. It is never empty. |
| `AuthSlice.Settle` | src/store/slices/authSlice.js:22-48 | A call is fulfilled, with the body, exactly when the server returned `success` true. With `success` false it rejects with the body's message. When the call threw it rejects with the catch-block message. |
| `AuthSlice.LoadingBracketed` | src/store/slices/authSlice.js:22-48 | A thunk with a `finally` block dispatches exactly one `startLoading`, first, and exactly one `stopLoading`, last, on every path. These thunks are register, registerInstitution, logout, forget, reset, verify, resend and change. |
| `AuthSlice.LoginLeavesLoadingOn` | src/store/slices/authSlice.js:78-102 | `userLogin` dispatches `startLoading` first and never `stopLoading`. On success it dispatches `selfIdentification` before `setSuccess`. |
| `AuthSlice.RefreshTokenIsQuiet` | src/store/slices/authSlice.js:266-286 | `refreshToken` dispatches no loading signal and no success message. On success it dispatches nothing. |
| `AuthSlice.RejectionIsAnnounced` | src/store/slices/authSlice.js:28-44 | A call rejects with `m` exactly when it dispatches `setError(m)`. It then dispatches that error once, no other error and no success message. |
| `AuthSlice.FailedReplyRejects` | src/store/slices/authSlice.js:28-31 | A body with `success` false makes the call dispatch `setError(data.message)` and reject with that same message. No `setSuccess` is dispatched. |
| `AuthSlice.ThrownRejects` | src/store/slices/authSlice.js:37-44 | A thrown call rejects with the server's message when present, else `'Something went wrong'`. It dispatches that same message as an error. |
| `AuthSlice.SuccessRaisesNoError` | src/store/slices/authSlice.js:33-35 | A call whose server reported success is fulfilled with the body and dispatches no error. |
| `AuthSlice.SuccessAnnouncedOnce` | src/store/slices/authSlice.js:33-35 | A successful call of a thunk with a success message announces that message exactly once. |
| `AuthSlice.SignalsLoadingDepth` | src/store/slices/authSlice.js:22-286 | One call leaves the count of `startLoading` minus `stopLoading` unchanged, except `userLogin`, which raises it by one. |
| `AuthSlice.RunsLoadingDepth` | src/store/slices/authSlice.js:22-286 | Over any series of calls, `startLoading` outnumbers `stopLoading` by exactly the number of `userLogin` calls. |
| `AuthSlice.Next` | src/store/slices/authSlice.js:288-316 | No action changes `token` or `code`. Only a fulfilled login or a fulfilled logout changes `data`. |
| `AuthSlice.LoginPendingOrRejected` | src/store/slices/authSlice.js:301-310 | Login pending and login rejected both set `isLoggedIn` to false and leave `data` alone. |
| `AuthSlice.LoginThenLogout` | src/store/slices/authSlice.js:304-314 | A fulfilled login followed by a fulfilled logout ends with `isLoggedIn` false and `data` null. `token` and `code` are unchanged. |
| `AuthSlice.LogoutFailureIgnored` | src/store/slices/authSlice.js:311-314 | A pending or rejected logout has no case and leaves the state unchanged. |
| `AuthSlice.TokenAndCodeFixed` | src/store/slices/authSlice.js:288-316 | No sequence of actions changes `token` or `code`. |
| `AuthSlice.FailedLoginStaysLoggedOut` | src/store/slices/authSlice.js:301-310 | A whole login call that does not succeed ends with `isLoggedIn` false and `data` unchanged. |
| `AuthSlice.SuccessfulLogin` | src/store/slices/authSlice.js:304-307 | A successful login call ends logged in, with `data` set to the body's `data`. |
| `AuthSlice.FailedLogoutKeepsSession` | src/store/slices/authSlice.js:311-314 | A logout call that does not succeed leaves the whole state unchanged. |
| `AuthSlice.OtherThunksKeepState` | src/store/slices/authSlice.js:299-315 | The thunks other than login and logout have no reducer case and leave the state unchanged. |
| `AuthSlice.AuthStore.constructor` | src/store/slices/authSlice.js:15-20 | The initial state is `isLoggedIn` false, with `data`, `token` and `code` all null. The log starts empty. |
| `AuthSlice.AuthStore.Apply` | src/store/slices/authSlice.js:291-315 | Applying an action assigns the fields exactly as the reducer case for that action says. The log is unchanged. |
| `AuthSlice.AuthStore.Run` | src/store/slices/authSlice.js:22-286 | A thunk body appends exactly that thunk's signals for the given outcome to the log. It returns the outcome's settled result. |
| `AuthSlice.AuthStore.Dispatch` | src/store/slices/authSlice.js:288-316 | A whole call runs the pending reducer case, then the thunk body, then the reducer case for the settled result. |

## Left out

- JSX markup, CSS classes, images and the password-visibility toggles. They are presentation and have no stated behaviour.
- The HTTP calls, URLs, `withCredentials` and cookies. Each thunk's network call is an `Outcome` value passed in: it either threw or returned a body.
- The texts of the success-message table (`successMessage`). It is not part of this model, so the model keeps only which key each thunk announces.
- `SuccessKeyOf`: `registerInstitution` looks up `successMessage.institutionResgister` (spelled so in the source), and the model names that key `InstitutionRegister`. Whether the table has an entry under that spelling is not modelled. If it has none, the real call dispatches `setSuccess(undefined)` where the model logs `SetSuccess(InstitutionRegister)`.
- `selfIdentification` and the loader, error and message slices. Their reducers are not part of this model. Their actions are kept only as entries in the log, so, for example, whether `startLoading` is a counter or a flag is not modelled.
- The `validateEmail` and `validatePassword` imported by the sign-up page. Their module is not part of this model. They are assumed to be the same as the sign-in page's regexes.
- The `api` instance used by `userLogout`. It is not part of this model. Its `isAxiosError` is assumed to behave like axios's. In axios only the default export has `isAxiosError`, not instances made by `axios.create()`. If `api` is such an instance, the `catch` block of `userLogout` throws a TypeError. A thrown logout then logs only `startLoading` and `stopLoading`, with no `setError`, and rejects with a serialized error, not a message. So `Signals(Logout, Thrown(..))`, and `RejectionIsAnnounced` and `ThrownRejects` for `Logout`, depend on this assumption. The state results do not: `FailedLogoutKeepsSession` holds either way, because a rejected logout has no reducer case.
- Redux Toolkit internals. `createAsyncThunk` dispatches its own pending, fulfilled and rejected actions, and Immer applies reducer updates. Only the reducer cases written in the slice are modelled. `AuthStore.Dispatch` assumes the library's order: pending, then the body, then the settled action.
- A thunk rejecting because its own code threw outside the `catch` path. The model has no such case.
- React state batching. The `setErrors` updaters are applied one after another, in order, which gives the same final record.
- Concurrency: overlapping or duplicate dispatches, and races between requests in flight.
- The duplicate action type `'auth/confirmation'`, shared by `verifyEmail` and `ResendVerifyEmailLink`. No reducer case handles it, so it has no effect on state.
- The route table (`src/Router/UnauthRouter.jsx`) and the course-management screen (`src/pagesAuthenticated/Institution Profile/CoursesOffered.jsx`). They are outside the authentication core.
- JavaScript value details. `null` and `undefined` are both `None`. `success` is a boolean, `message` is a string, and only the empty string counts as a falsy message. Strings are sequences of code points, not UTF-16 code units. This makes no difference to the two regexes, because a surrogate half is neither whitespace nor `@`, and a character outside the password class fails the check either way.
