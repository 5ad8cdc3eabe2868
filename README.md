# Client session and form core of a React single-page app, in Dafny

This project models the client-side core of a React/TypeScript web application:

- the form validators (`validateEmail`, `validatePassword`, `validateRequired`, the two length
  checks, `validatePhoneNumber`, `getValidationMessage` and the rule-ordered `validateField`);
- `AuthService`, which keeps an access token, a refresh token and the serialised user in the
  browser's key-value storage;
- the `{data, loading, error}` request wrapper behind `useApi` and `useAsyncOperation`;
- the `useAuth` hook, with its login, register and logout wrappers, its start-up initialiser and
  `updateUser`;
- the `ProtectedRoute` guard;
- the login page: form validation, per-field error clearing, guarded submit and the post-login
  target;
- the users page: search and paging state, the choice between a list fetch and a search, the
  pagination controls and the precedence of its four views.

Shape of the model:

- Pure code becomes functions and lemmas: the validators, the guard, the view and request
  choices.
- Code that updates state becomes classes whose methods have `modifies` clauses: the storage, the
  service, each request wrapper, the auth hook and the two pages. Each method's `ensures` ties
  the new state to a specification function of the old state. The lemmas are proved about those
  functions.
- HTTP replies are method parameters. `Api.Reply` is either a thrown error or the `{success, data}`
  envelope whose `data` may be missing.
- An awaited request is split into a start step and a settlement step. This lets two overlapping
  requests settle in either order.

Behaviour of the code that may surprise:

- A refresh without a stored refresh token fails with a plain `Error("No refresh token available")`.
  There is no dedicated error type.
- `isAuthenticated()` needs a non-empty stored token, not merely a present one. After a successful
  login with an empty token, the service's stored judgement is false (`Session.LoginReadsBack`).
  So the next start-up treats the client as logged out. The in-memory `isAuthenticated` flag of
  `useAuth`, which `ProtectedRoute` reads, is still set to true (`UseAuth.AuthHook.SettleLogin`).
- `useAuth`'s login handler adopts `response.user` whenever the reply carries data, even when
  `success` is false. In that case the service has written nothing to storage
  (`UseAuth.AuthHook.SettleLogin`).

Files:

- `validators.dfy`: module `Validators`.
- `session.dfy`: `Session`.
- `use_api.dfy`: `UseApi`.
- `use_auth.dfy`: `UseAuth`.
- `protected_route.dfy`: `ProtectedRoute`.
- `login_page.dfy`: `LoginPage`.
- `users_page.dfy`: `UsersPage`.
- Helpers:
  - `wrappers.dfy`: `Option` and `Result`.
  - `api.dfy`: the reply envelope and how it settles.
  - `text.dfy`: ECMAScript whitespace, `trim`, number rendering.
  - `json.dfy`: the user record and a stand-in for `JSON.stringify`/`JSON.parse`.
  - `router.dfy`: route constants and locations.

## Model

| member | source | states |
|---|---|---|
| Text.TrimStart | src/utils/validators.ts:14 | the result is a suffix of the input, everything dropped is whitespace, and the result is empty or starts with a non-whitespace character |
| Text.TrimEnd | src/utils/validators.ts:14 | the mirror image: a prefix, only whitespace dropped, empty or ends with a non-whitespace character |
| Text.TrimEmptyIffBlank | src/utils/validators.ts:14 | `trim()` gives the empty string exactly when every character is ECMAScript whitespace or a line terminator |
| Text.NatToString | src/utils/validators.ts:45-46 | the rendering of a bound in a message is non-empty decimal digits, has no leading zero (only `0` starts with `0`) and denotes the number |
| Text.IntToString | src/utils/validators.ts:45-46 | a bound's rendering starts with a minus sign exactly when the bound is negative, and the rest is non-empty decimal digits, without a leading zero, denoting its magnitude |
| Validators.ValidateRequiredIff | src/utils/validators.ts:13-15 | `validateRequired(v)` holds exactly when `v` has a character that is not whitespace |
| Validators.LengthChecks | src/utils/validators.ts:17-23 | failing `maxLength n` is the same as passing `minLength n+1`; a passed minimum stays passed, and a passed maximum stays passed for every prefix |
| Validators.EmailPrefix | src/utils/validators.ts:3 | the greedy `[^\s@]*` match: its length is within the string, it covers only class characters, and it stops at the first character outside the class |
| Validators.EmailParts | src/utils/validators.ts:2-5 | a valid email is `local + "@" + host + "." + tld` with three non-empty parts free of whitespace and `@` |
| Validators.EmailFromParts | src/utils/validators.ts:2-5 | conversely, every such concatenation is a valid email (the two together are the if-and-only-if) |
| Validators.EmailShape | src/utils/validators.ts:3 | a valid email has its `@` after a non-empty first part and a `.` strictly inside what follows, and no other character is whitespace or `@` |
| Validators.EmailHasOneAt | src/utils/validators.ts:3 | a valid email contains exactly one `@` |
| Validators.ValidatePasswordIff | src/utils/validators.ts:7-11 | a password passes exactly when it has at least 8 characters, all from `[a-zA-Z0-9@$!%*?&]`, including a lower-case letter, an upper-case letter and a digit |
| Validators.PhoneParts | src/utils/validators.ts:25-28 | a valid phone number is an optional `+` followed by at least 10 characters from digits, whitespace, `-`, `(` and `)` |
| Validators.PhoneFromParts | src/utils/validators.ts:25-28 | conversely, every optional `+` followed by 10 or more such characters is a valid phone number |
| Validators.MessageTable | src/utils/validators.ts:41-50 | the `messages` object has an own entry exactly for the eight known rule names, and every entry is a non-empty (truthy) text |
| Validators.GetValidationMessage | src/utils/validators.ts:40-53 | any rule name outside the eight known keys gets `"<field> is invalid"`; a known key gets its table text |
| Validators.GetValidationMessageAsWritten | src/utils/validators.ts:52 | the lookup as written: for names inherited from `Object.prototype` it returns the inherited member; for every other name it agrees with the corrected lookup |
| Validators.OwnAndInheritedDisjoint | src/utils/validators.ts:41-52 | no key of the message table is also the name of an inherited member |
| Validators.ToStringRuleIsNotAString | src/utils/validators.ts:52 | for rule `"toString"` the as-written lookup returns a function, where the intended result is `"Email is invalid"` |
| Validators.ValidateFieldFirstViolation | src/utils/validators.ts:68-102 | `validateField` returns `null` exactly when no rule rejects; otherwise it returns the message of the first rejecting rule in the order required, email, password, minLength, maxLength, phone, url, custom |
| Validators.FirstViolation | src/utils/validators.ts:68-102 | the index of the first rejecting rule: every earlier rule passes, and the rule at the index, if any, rejects |
| Validators.RequiredComesFirst | src/utils/validators.ts:69-71 | with `required` set, a blank value gets the required message whatever other rules are set |
| Validators.EmptyOptionalPasses | src/utils/validators.ts:73-99 | with `required` unset, the empty string passes every rule, since each later check is guarded by `value &&` |
| Validators.SameChecksSameResult | src/utils/validators.ts:68-102 | two rule sets that switch on the same checks, with equal bounds where a bound is in force, give the same result |
| Validators.ZeroMinLengthIsUnset | src/utils/validators.ts:81-83 | `minLength: 0` behaves exactly like an absent `minLength` |
| Validators.ZeroMaxLengthIsUnset | src/utils/validators.ts:85-87 | `maxLength: 0` behaves exactly like an absent `maxLength` |
| Api.DataOf | src/services/authService.ts:20 | awaiting a request and returning `response.data` rejects exactly when the request threw, with that error, and otherwise resolves to the reply's possibly missing data |
| Json.ParseStringify | src/services/authService.ts:17 | parsing the stored serialisation of a user gives that user back |
| Json.EmptyTextDoesNotParse | src/services/authService.ts:80-86 | the empty text does not parse as a user |
| Session.GetItemIn | src/services/authService.ts:54 | `getItem` returns the stored value for a present key and `null` for a missing one |
| Session.CurrentUserIn | src/services/authService.ts:78-89 | the stored user is `null` when its key is missing or empty, and otherwise the parse of the stored text (`null` when that does not parse) |
| Session.LoginReadsBack | src/services/authService.ts:13-18 | after a successful login the stored token, refresh token and user read back as the reply's; the client is authenticated exactly when the token is non-empty; other keys are untouched |
| Session.FailedLoginWritesNothing | src/services/authService.ts:13-20 | a thrown reply, an unsuccessful one, or one without data leaves storage as it was |
| Session.LogoutClearsSession | src/services/authService.ts:38-43 | after logout no token, refresh token or user is stored, the client is not authenticated, and other keys are untouched |
| Session.RefreshTouchesOnlyToken | src/services/authService.ts:53-70 | a refresh changes no key but the access token; on success that key holds the returned token; any failure leaves storage unchanged; without a non-empty refresh token it fails with "No refresh token available" |
| Session.Storage.GetItem | src/services/authService.ts:54 | reads the stored value, or `null` |
| Session.Storage.SetItem | src/services/authService.ts:15-17 | `setItem` stores the value under the key and changes nothing else |
| Session.Storage.RemoveItem | src/services/authService.ts:40-42 | `removeItem` deletes the key and changes nothing else |
| Session.AuthService.Login | src/services/authService.ts:7-21 | storage becomes the after-login state, so the three keys are written only on a successful reply with data; the reply's data is returned, and a thrown error propagates |
| Session.AuthService.Register | src/services/authService.ts:24-30 | returns the reply's data or propagates the thrown error, and touches no storage |
| Session.AuthService.Logout | src/services/authService.ts:33-44 | removes the three keys whatever the remote reply, and never propagates a remote error |
| Session.AuthService.GetProfile | src/services/authService.ts:47-50 | returns the reply's data or propagates the thrown error |
| Session.AuthService.RefreshToken | src/services/authService.ts:53-70 | storage becomes the after-refresh state, and the result is the refreshed token, or "No refresh token available" / the thrown error / "Failed to refresh token" |
| Session.AuthService.IsAuthenticated | src/services/authService.ts:73-75 | true exactly when a non-empty access token is stored; reads only |
| Session.AuthService.GetCurrentUser | src/services/authService.ts:78-89 | never fails: returns the parsed stored user, or `null` when the key is missing, empty or unparsable |
| Session.AuthService.GetToken | src/services/authService.ts:92-94 | returns exactly the stored access token, or `null` |
| UseApi.StepsAreConsistent | src/hooks/useApi.ts:29-50 | from any state, every step of the wrapper leaves `loading` and `error` not both set; starting keeps the data, and failing keeps the data and stops loading |
| UseApi.LastSettledWins | src/hooks/useApi.ts:29-46 | of two overlapping calls, the one that settles last fixes the error and, when it succeeded, the data; otherwise the earlier success's data or the data from before both calls survives |
| UseApi.LoadingDropsBeforeLastSettlement | src/hooks/useApi.ts:35-40 | the first of two overlapping calls to settle clears `loading` although the other call is still in flight |
| UseApi.ApiHook.constructor | src/hooks/useApi.ts:23-27 | the initial state is idle, or already started when `immediate` is set |
| UseApi.ApiHook.Begin | src/hooks/useApi.ts:31 | `loading` is set and the error cleared; the previous data stays |
| UseApi.ApiHook.Resolve | src/hooks/useApi.ts:35 | the state becomes `{data: result, loading: false, error: null}` |
| UseApi.ApiHook.Reject | src/hooks/useApi.ts:40 | loading stops and the error is recorded; the previous data stays |
| UseApi.ApiHook.Settle | src/hooks/useApi.ts:33-43 | the result is returned or the error rethrown, and the state is the matching settlement step |
| UseApi.ApiHook.Reset | src/hooks/useApi.ts:48-50 | back to the initial state from any state |
| UseAuth.UpdateUserReadsBack | src/hooks/useAuth.ts:84-87 | after `updateUser` the stored user reads back as the new user; the tokens and whether the client is authenticated are unchanged |
| UseAuth.AuthHook.constructor | src/hooks/useAuth.ts:8-38 | on mount there is no user, the client is not authenticated, `isLoading` is true, and there are three distinct idle request wrappers |
| UseAuth.AuthHook.BeginLogin | src/hooks/useAuth.ts:69-71 | the login wrapper starts |
| UseAuth.AuthHook.SettleLogin | src/hooks/useAuth.ts:13-22 | storage reflects the service's login. A reply with data adopts its user and authenticates. A reply without data fails inside the wrapper with the `.user`-of-undefined error. A thrown reply fails with its error and leaves memory as it was |
| UseAuth.AuthHook.BeginRegister | src/hooks/useAuth.ts:74-76 | the register wrapper starts |
| UseAuth.AuthHook.SettleRegister | src/hooks/useAuth.ts:24-28 | registering settles the register wrapper with the reply's data and changes neither the user nor the storage |
| UseAuth.AuthHook.BeginLogout | src/hooks/useAuth.ts:79-81 | the logout wrapper starts |
| UseAuth.AuthHook.SettleLogout | src/hooks/useAuth.ts:30-38 | whatever the remote reply, storage loses its session, the wrapper succeeds, and the in-memory user and authentication are cleared |
| UseAuth.AuthHook.Initialize | src/hooks/useAuth.ts:41-66 | with a stored token, adopts the stored user, or else the fetched profile; if the fetch fails, clears the stored session and keeps memory; without a token it changes nothing; loading always ends |
| UseAuth.AuthHook.UpdateUser | src/hooks/useAuth.ts:84-87 | sets the in-memory user and the stored user, and nothing else |
| ProtectedRoute.Guard | src/components/layout/ProtectedRoute.tsx:12-30 | spinner exactly while loading; otherwise the children exactly when authenticated; otherwise a replacing redirect to `redirectTo` (default `/login`) carrying the current location as `from` |
| LoginPage.FormError.Message | src/pages/LoginPage.tsx:33-39 | every message the form can set is a non-empty string, so it is truthy |
| LoginPage.BlankFieldsAreRequired | src/pages/LoginPage.tsx:29-44 | the email error is "required" exactly when the email is blank; the password error is present exactly when the password is blank, and is then "required" |
| LoginPage.FormValidIff | src/pages/LoginPage.tsx:29-44 | the form validates exactly when the email is a valid email and the password is not blank |
| LoginPage.RedirectTarget | src/pages/LoginPage.tsx:27 | the post-login target is the non-empty `from` path in the location's state; it falls back to `/dashboard` when the state, its `from` or that path is missing or empty; it is never empty |
| LoginPage.GuardRedirectReturnsHere | src/pages/LoginPage.tsx:27 | after the guard redirects away from a protected location, the page it lands on takes the user back to that location's path after login |
| LoginPage.Page.constructor | src/pages/LoginPage.tsx:20-21 | the form is empty and there are no errors |
| LoginPage.Page.ValidateForm | src/pages/LoginPage.tsx:29-44 | the error record is replaced by the one the form yields, and the result says whether it is empty |
| LoginPage.Page.HandleChange | src/pages/LoginPage.tsx:59-65 | only the edited field of the form changes, and only that field's error is cleared |
| LoginPage.Page.HandleSubmit | src/pages/LoginPage.tsx:46-57 | an invalid form stops before login and touches neither authentication nor storage; a valid form always logs in, and storage becomes `AfterLogin`; a reply with data succeeds in the login wrapper and navigates, replacing history, to the redirect target; a thrown or data-less reply leaves the user and authentication flag as they were, leaves the login wrapper failed with the error the page shows, and navigates nowhere; `isLoading` is untouched |
| UsersPage.RequestFor | src/pages/UsersPage.tsx:36-45 | a search with the untrimmed term exactly when the trimmed term is non-empty; otherwise the list page `currentPage`, 10 per page, sorted by `createdAt` descending |
| UsersPage.RetryRequest | src/pages/UsersPage.tsx:105 | the retry fetch asks for the current page, 10 per page, without sort or order |
| UsersPage.PagerFor | src/pages/UsersPage.tsx:180-204 | pagination is shown exactly for an empty term and more than one page; Previous is disabled exactly on page 1, Next exactly on the last page |
| UsersPage.ViewFor | src/pages/UsersPage.tsx:96-212 | exactly one of the spinner (either request loading), the list error, the table (non-empty users, with its pagination) or the empty notice (the search wording exactly for a non-empty term), in that precedence |
| UsersPage.BlankTermHidesPagination | src/pages/UsersPage.tsx:180 | a term of blanks only fetches the paginated list, yet hides its pagination controls |
| UsersPage.Page.constructor | src/pages/UsersPage.tsx:10-13 | no users, an empty term, page 1 of 1, and both request wrappers idle |
| UsersPage.Page.HandleSearch | src/pages/UsersPage.tsx:51-54 | sets the new term and goes back to page 1; users and page count stay |
| UsersPage.Page.HandlePageChange | src/pages/UsersPage.tsx:47-49 | sets the page only |
| UsersPage.Page.RunEffect | src/pages/UsersPage.tsx:36-45 | issues the request the term and page choose, on the matching wrapper, and leaves the other wrapper alone |
| UsersPage.Page.Retry | src/pages/UsersPage.tsx:103-107 | restarts the list wrapper with the retry request |
| UsersPage.Page.SettleList | src/pages/UsersPage.tsx:15-24 | a list success shows its users and takes the reply's page count; a failure keeps both |
| UsersPage.Page.SettleSearch | src/pages/UsersPage.tsx:26-34 | a search success shows the matches as a single page; a failure keeps users and page count |

## Left out

- The HTTP client, its endpoints and the credentials sent: replies are parameters. The login and register request bodies play no part in the modelled behaviour.
- `JSON.stringify`/`JSON.parse`: replaced by a stand-in text format that has the same round trip and also rejects some texts. Real JSON syntax is not modelled. Nor is a stored user that parses to a falsy JSON value.
- `validateUrl` uses the platform's URL parser, so `validateField` takes it as a parameter. A `custom` rule is likewise an arbitrary predicate.
- String lengths are counted in characters, not UTF-16 code units. Outside the Basic Multilingual Plane the length checks can differ by one per character.
- Numeric bounds are integers. A fractional or NaN `minLength`/`maxLength`, and their rendering in messages, are not modelled.
- Text.NatToString: always writes plain decimal digits. JavaScript writes a number of 10^21 or more in exponent form (`1e+21`), and integers above 2^53 are not exact, so messages for such bounds differ. `Text.IntToString` inherits this.
- Console logging in `logout`, `getCurrentUser`, `initializeAuth` and `handleSubmit`.
- React scheduling: batching of `setState`, `useEffect` dependency re-runs, `useCallback` identity, and the 300 ms search debounce with its cancellation. A search is started directly by the effect step. Real promise interleaving is modelled only as explicit settlement steps.
- UseAuth.AuthHook.Initialize: the `authService.logout()` it starts in its `catch` is not awaited. The model clears the storage in the same step, before loading ends.
- Overlapping submits on the login page: `HandleSubmit` runs start and settlement back to back.
- UsersPage.Page.SettleList: a list reply without a `pagination` object would throw inside the success handler. This is not modelled: the reply type always has one.
- The search request's error is never displayed by the page and is not an input of `ViewFor`.
- `loginLoading` and `loginError` are exposed only through the login wrapper's state. `registerLoading`, `registerError` and `logoutLoading` are exposed likewise.
- `getToken` and `refreshToken` re-exported by `useAuth` are the service methods themselves, and are modelled there.
- `UsersPage.Page.Heading` and `UsersPage.Page.Render` carry no contracts of their own. The heading is a two-way choice on the term, and `Render` only applies `ViewFor` to the page state.
- All other JSX markup, styling and navigation links.
- `match` messages and other rules that `validateField` never asks for are in the table but not used.

## Findings

| source | as written | input that shows it | evidently intended | confidence | as-written member | corrected member |
|---|---|---|---|---|---|---|
| src/utils/validators.ts:52 | `messages[rule]` on an object literal also finds members inherited from `Object.prototype`. These are truthy, so they are returned instead of the fallback | `getValidationMessage("Email", "toString")` returns the `toString` function, not a string | `"Email is invalid"` for every rule name outside the eight keys (an own-property lookup) | not executed | Validators.GetValidationMessageAsWritten (shown by Validators.ToStringRuleIsNotAString) | Validators.GetValidationMessage |
