# PayPilot session lifecycle, in Dafny

This project models the client-side session lifecycle of PayPilot, a Blazor
WebAssembly client of a Supabase authentication backend:

- `Models` (`models.dfy`): the session record (`SupabaseSession`, `SupabaseUser`), its deserializer defaults, and the expiry rule. The rule keeps a 30-second safety margin, clamped at zero.
- `AuthState` (`auth_state.dfy`): the authentication-state provider, a class over one stored slot (`stored: Option<Session>`). It projects that slot into an `Identity` (anonymous, or authenticated with a user id and an email). Every set or clear appends the recomputed identity to an append-only notification log.
- `Auth` (`auth_service.dfy`): the authentication service, with sign-up, sign-in, sign-out, lazy refresh of an expired session, the configuration check in its constructor, and the headers put on protected requests. Each backend response is an input value `Response(success, body, parsed)`. Each request sent is appended to a ghost `requests` log, so "no network call" is stated as "the log is unchanged".
- `Text` (`text.dfy`): `string.IsNullOrWhiteSpace` and `char.IsWhiteSpace`, with .NET's white-space set written out.
- `Wrappers` (`wrappers.dfy`): `Option` and `Result`.
- `Scenarios` (`scenarios.dfy`): call sequences whose outcomes the contracts fix. These are a sign-in as user `u1`, a refresh just past the margin, clearing twice, and decorating a request that already has a lower-case authorization header.

Time is a whole number of seconds, and each reading of the current time is a parameter. The refresh reads the clock twice: `now` before the round trip, to judge expiry, and `stampedAt` after it, to stamp the new session.
The lifetime `expiresIn` is a C# `int` (`Int32`).

Two behaviours of the code worth knowing:

- `SetSessionAsync` neither validates nor stamps the session. Stamping `issuedAt` and rejecting a blank access token happen in the service. A user id is never checked, so a session with an empty user id can be stored and authenticated.
- A failed network call during refresh is not swallowed: the exception from `SendAsync` propagates. Transport exceptions are not modelled.

## Model

| member | source | states |
|---|---|---|
| Models.NewUser | Services/Models.cs:5-9 | a user created by the deserializer has id `""` and no email |
| Models.NewSession | Services/Models.cs:11-19 | a session created by the deserializer has empty access and refresh tokens, lifetime 0, token type `"bearer"`, a fresh user and `issuedAt` equal to the creation time |
| Models.UsableLifetime | Services/Models.cs:22 | the usable lifetime is `expiresIn - 30` when that is positive and 0 otherwise, so it is never negative |
| Models.IsExpired | Services/Models.cs:22 | a session is expired exactly when `now` is after `issuedAt` and more than `expiresIn - 30` seconds after it, which is `now > issuedAt + max(0, expiresIn - 30)` |
| Models.ExpiryBoundary | Services/Models.cs:22 | for a lifetime of at least 30 the comparison is strict: not expired at `issuedAt + e - 30`, expired at `issuedAt + e - 29` |
| Models.ExpiryClamped | Services/Models.cs:22 | for a lifetime of at most 30, negative ones included, the session is expired at every `now > issuedAt` and not at `issuedAt` |
| Models.ExpiryMonotone | Services/Models.cs:22 | a session expired at `t` is expired at every later time |
| Models.RestampKeepsFresh | Services/Models.cs:19-22 | restamping with a later `issuedAt` and the same lifetime never turns a fresh session into an expired one |
| Models.ExpiredAfterIssue | Services/Models.cs:22 | an expired session was issued strictly before `now` |
| Models.FreshWhenStamped | Services/Models.cs:22 | a session stamped with `now` is not expired at `now` |
| Models.Wrap32 | Services/Models.cs:15 | unchecked `int` arithmetic: the result is the `int` congruent to the exact value modulo 2^32, and equal to it when it fits |
| Models.IsExpiredAsWritten | Services/Models.cs:22 | the rule as the source computes it, with the margin `ExpiresIn - 30` wrapping in 32 bits; it too holds only after `issuedAt` |
| Models.AsWrittenAgrees | Services/Models.cs:22 | for lifetimes of at least `int.MinValue + 30` the source's wrapping rule and the clamped rule agree at every time |
| Models.AsWrittenMinLifetimeNeverExpires | Services/Models.cs:22 | at lifetime `int.MinValue` the clamped rule expires the session at once, while the source's rule still calls it fresh two billion seconds later |
| Text.IsWhiteSpace | Services/SupabaseAuthStateProvider.cs:20 | `char.IsWhiteSpace`: the Unicode space separators, U+2028, U+2029, U+0009 to U+000D and U+0085; no ASCII letter or digit is white space |
| Text.IsNullOrWhiteSpace | Services/SupabaseAuthStateProvider.cs:20 | `string.IsNullOrWhiteSpace`: every character is white space, so the empty string is blank |
| Text.AsciiLower | Services/SupabaseAuthService.cs:97 | ASCII case folding for header names: the result is never an upper-case ASCII letter, an upper-case letter maps to its lower-case partner, and every other character is kept |
| Text.EqualsIgnoreCase | Services/SupabaseAuthService.cs:97 | header names match ignoring the case of ASCII letters, as in `HttpHeaders`; matching names have equal length |
| Text.EqualsIgnoreCaseReflexive | Services/SupabaseAuthService.cs:97 | every header name matches itself |
| Text.EqualsIgnoreCaseSymmetric | Services/SupabaseAuthService.cs:97 | the match does not depend on which name comes first |
| AuthState.IdentityOf | Services/SupabaseAuthStateProvider.cs:17-31 | the identity is anonymous exactly when the slot is empty or its access token is null or white space; otherwise it carries the stored user's id and email, `""` when the email is absent |
| AuthState.AbsentEmailIsEmpty | Services/SupabaseAuthStateProvider.cs:26 | an authenticated session without an email projects to email `""` |
| AuthState.AuthStateProvider.constructor | Services/SupabaseAuthStateProvider.cs:12-15 | the provider starts over whatever the storage slot already holds, with no notifications sent |
| AuthState.AuthStateProvider.GetAuthenticationState | Services/SupabaseAuthStateProvider.cs:17-31 | returns the identity of the current slot; an authenticated identity implies a stored session with a non-blank token |
| AuthState.AuthStateProvider.SetSession | Services/SupabaseAuthStateProvider.cs:33-37 | the slot becomes exactly the given session, unvalidated and unmerged; exactly one notification is appended, equal to the identity computed after the write |
| AuthState.AuthStateProvider.ClearSession | Services/SupabaseAuthStateProvider.cs:39-43 | from any slot, empty or not, the slot becomes empty and exactly one anonymous notification is appended |
| AuthState.AuthStateProvider.GetSession | Services/SupabaseAuthStateProvider.cs:45-46 | returns the stored slot unchanged |
| Auth.ReadConfig | Services/SupabaseAuthService.cs:21-22 | the settings are accepted exactly when both `Supabase:Url` and `Supabase:AnonKey` are present; a missing URL is reported first, each with its own message |
| Auth.AuthRequest | Services/SupabaseAuthService.cs:27-31 | an auth request's endpoint is the base URL followed by the path, and its only header is `apikey` with the anon key |
| Auth.IsUsable | Services/SupabaseAuthService.cs:53-57 | a response is usable only when it is a success with a parsed session whose access token is not null or white space; an empty token never is |
| Auth.AcceptedSession | Services/SupabaseAuthService.cs:51-61 | a session is accepted exactly when the response is a success with a parsed session whose access token is not blank; the accepted session is the parsed one with `issuedAt = now`, it is not expired at `now`, and its identity is authenticated with its user's id and email |
| Auth.SignInReply | Services/SupabaseAuthService.cs:51-62 | sign-in reports `(true, none)` exactly for a usable response, the body verbatim for a non-success, and `"Invalid session response"` for a success without a usable session |
| Auth.NeedsRefresh | Services/SupabaseAuthService.cs:73 | a refresh is due exactly when a session is stored and expired, which implies `now` is after its `issuedAt` |
| Auth.RefreshedSession | Services/SupabaseAuthService.cs:73-91 | a refresh stores a session exactly when the stored one is expired at the first clock reading and the answer is usable; it is stamped with the second reading, so its `issuedAt` is strictly later than the old one whenever the clock has not gone back between the two |
| Auth.WithoutHeader | Services/SupabaseAuthService.cs:97 | setting the authorization header first removes every existing header of that name, in any letter case, and keeps every other header as often as it occurred |
| Auth.BearerValue | Services/SupabaseAuthService.cs:97 | a bearer header renders as `Bearer <token>`, or as `Bearer` alone when the token is empty |
| Auth.Decorated | Services/SupabaseAuthService.cs:94-99 | after decoration `apikey` and `Accept: application/json` occur once more each than before, every other non-authorization header occurs as often as before, and exactly one authorization header (names compared ignoring case) remains, `Authorization: Bearer <token>` |
| Auth.OutgoingRequest.constructor | Services/SupabaseAuthService.cs:94 | an outgoing request starts with the given headers |
| Auth.AuthService.constructor | Services/SupabaseAuthService.cs:17-23 | the service holds the configured URL and key and the given provider, and has sent nothing |
| Auth.AuthService.Create | Services/SupabaseAuthService.cs:17-23 | construction fails with the configuration error exactly when a setting is missing, and otherwise yields a fresh service over the given provider |
| Auth.AuthService.SignUp | Services/SupabaseAuthService.cs:25-39 | sends one request to `/auth/v1/signup` with the credentials; returns `(true, none)` on success and `(false, body)` otherwise; the provider is untouched |
| Auth.AuthService.SignIn | Services/SupabaseAuthService.cs:41-63 | sends one request to the password-grant endpoint; a rejected response leaves slot and notifications unchanged; a usable one stores the parsed session stamped with `now` and appends its identity |
| Auth.AuthService.SignOut | Services/SupabaseAuthService.cs:65-68 | the slot becomes empty and one anonymous notification is appended |
| Auth.AuthService.EnsureFreshToken | Services/SupabaseAuthService.cs:70-92 | with no session or a fresh one nothing is sent and nothing changes; with an expired one, one request carrying its refresh token is sent; a rejected answer leaves the provider unchanged, a usable one is stored stamped with the second clock reading and notified |
| Auth.AuthService.ApplyAuthHeaders | Services/SupabaseAuthService.cs:94-99 | the request's headers become the decorated headers of their old value |
| Scenarios.SignInScenario | Services/SupabaseAuthService.cs:41-63 | signing in on an empty slot with user `u1`, email `a@b.com` and token `tok1` makes the identity `Authenticated("u1", "a@b.com")` with that one notification |
| Scenarios.RefreshScenario | Services/SupabaseAuthService.cs:70-92 | a one-hour session issued at 0 is left alone at 3570 with no request sent and no notification, and refreshed at 3571 with one request; the answer stamped at 3572 gives `issuedAt` 3572 and one notification |
| Scenarios.ClearTwiceScenario | Services/SupabaseAuthStateProvider.cs:39-43 | clearing an empty slot twice gives the anonymous identity both times and two anonymous notifications |
| Scenarios.StaleAuthorizationReplaced | Services/SupabaseAuthService.cs:97 | a header `authorization: Basic old` is replaced by `Authorization: Bearer tok`, not kept beside it |

## Left out

- HTTP transport: sending, status codes, reading the body, and exceptions thrown by `SendAsync`. The response is an input value, and requests are recorded in a ghost log.
- JSON serialization and deserialization: the parsed session is an input `Option<Session>`. A JSON `null` for `access_token`, `user` or `user.id` (which would make the source throw or treat the token as blank) is not modelled. Strings and the user are always present.
- Blazored local storage: reduced to the `stored` field. The key `"pp_session"` is recorded as a constant. The storage format and storage failures are not modelled.
- `ClaimsPrincipal`, `AuthenticationState` and `NotifyAuthenticationStateChanged`: reduced to `Identity` and the notification log. The claim types and the authentication type `"Supabase"` are not modelled.
- `Task`/`async`, and the race where two concurrent `EnsureFreshTokenAsync` calls both refresh: the model is sequential.
- `DateTime.UtcNow` and `AddSeconds(double)`: time is integer seconds. Sub-second precision and `DateTime` range overflow are not modelled.
- `Program.cs`: dependency-injection wiring only.
- `BillRow`: a data record with no behaviour.
- `HttpRequestMessage` headers are a sequence of (name, rendered value) pairs. Header names are compared ignoring the case of ASCII letters only, which is all a valid header name holds. Header name validation and the typed header collections are not modelled.
- Auth.ReadConfig: looks the two settings up by their exact spelling. The configuration lookup in the source ignores case, so a setting spelled `supabase:url` is found there but not here.
- Auth.AuthService.EnsureFreshToken: decides expiry with the corrected rule `IsExpired`, not the source's wrapping rule `IsExpiredAsWritten`. For a stored lifetime below `int.MinValue + 30` the model sends a refresh right after issue, where the source sends none for about 68 years (see Findings).
- Auth.NeedsRefresh: uses the corrected rule `IsExpired`, not `IsExpiredAsWritten`, for the same reason.
- Auth.RefreshedSession: uses the corrected rule `IsExpired`, not `IsExpiredAsWritten`, for the same reason. Its strictly-later `issuedAt` is promised only when the second clock reading is not earlier than the first. The wall clock can step back, and nothing in the source rules that out.
- A success body that is not valid JSON for a session makes `JsonSerializer.Deserialize` throw, so `SignInAsync` and `EnsureFreshTokenAsync` throw instead of returning. `parsed: Option<Session>` cannot express that outcome, and the model has no exceptions.
- Request bodies: the JSON encoding and the `application/json` content type of the three auth requests are not modelled. A body is its fields.

## Findings

| source | as written | input that shows it | evidently intended | confidence | as-written member | corrected member |
|---|---|---|---|---|---|---|
| Services/Models.cs:22 | `Math.Max(0, ExpiresIn - 30)` subtracts in unchecked 32-bit `int` arithmetic, which wraps around for `ExpiresIn < int.MinValue + 30` | `expires_in = -2147483648`: the margin wraps to 2147483618 seconds, so the session reads as valid for about 68 years | a negative lifetime clamps to 0 and the session expires right after it is issued | not executed; low, since the backend is unlikely to send such a lifetime | Models.AsWrittenMinLifetimeNeverExpires | Models.UsableLifetime |
