# Bytebank session sync — a Dafny model

Bytebank is split into three Next.js applications: `home` (accounts and
transactions), `investments` (the portfolio) and `cards`. They run on
different origins and share one signed-in user. This project models the
client-side code that keeps that session consistent, and the small helpers
around it. Everything is verified with Dafny.

Session handoff:

- **URL fragment.** When the user moves to another application, the
  session travels in the fragment as `#auth=<encodeURIComponent(JSON)>`
  (`HashAuth`, `PercentEncoding`). The target page reads it back and then
  clears it. A logout travels as `#logout=true`.
- **`postMessage` through a hidden iframe.** A login or a logout in one
  application is sent to a `/sync` page of the other application
  (`CrossDomainSync`). That page applies it to its own storage (`SyncPage`).
- **Storage.** Each origin keeps the token, the user data, the balance
  preference and the theme in `localStorage` (`UiStorage`, `Browser`).
  The home application keeps its own signed-in user (`HomeStorage`,
  `HomeAuth`).
- **Redux.** A user slice (`UserSlice`) is mirrored to storage by listener
  middleware (`Middleware`). The header hook reconciles that slice with the
  authentication context and with external logouts (`SharedHeader`).
- **Token checks and API login.** A token check is cached for five minutes
  (`TokenValidation`). The API hook performs login and logout (`ApiAuth`).
  A navigation hook and `UrlUtils` choose where each application lives
  (`CrossAppNavigation`, `Urls`).

Around that:

- the home application's account model and its stored form
  (`Transactions`, `Accounts`, `AccountStore`);
- the investments portfolio (`Investments`);
- the autocomplete input (`Autocomplete`);
- the side menu (`SharedNavigation`);
- PascalCase conversion (`StringUtils`);
- receipt upload and display (`ImageUpload`, `ImageViewer`);
- the chart's name abbreviation (`InvestmentChart`);
- the cards page (`CardsPage`).

Modelling conventions:

- Code that changes state in place is modelled as classes with `modifies`
  clauses.
- Code that only computes is modelled as functions, with lemmas about them.
- Amounts are integers, and dates are milliseconds since the epoch (see
  "Left out" for what this leaves aside).
- An environment variable that is unset or empty is `""`.
- The absence of `window` is a null storage or a boolean parameter.
- `JSON.stringify` and `JSON.parse` are an abstract pair of functions
  (`Json.JsonCodec`). Where a property needs it, `Lawful` requires `parse`
  to invert `stringify`. How a `Date` is written as JSON text and read
  back by `new Date(text)` is a second abstract pair (`Json.DateCodec`),
  with its own round-trip law `DatesLawful`.
- Percent-encoding is concrete: the unreserved set of
  `encodeURIComponent`, and UTF-8 escapes as in section 2.1 of RFC 3986.
  Its round trip is proved, and so is the fact that it never produces `&`.

## Model

| member | source | states |
|---|---|---|
| HashAuth.Capture | packages/ui/src/services/HashAuthService.ts:19 | the group captured by `key([^&]+)` is non-empty and holds no `&`, and a capture exists only when the text contains the key |
| HashAuth.CaptureAtStart | packages/ui/src/services/HashAuthService.ts:19 | a key at the very start followed by a `&`-free run ending at `&` or at the end of the text captures exactly that run |
| HashAuth.AuthStep | packages/ui/src/services/HashAuthService.ts:19-31 | the `auth=` branch finds a session only when both `token` and `userData` are truthy, and it can find one or throw only when the text contains `auth=` |
| HashAuth.LegacyStep | packages/ui/src/services/HashAuthService.ts:33-41 | the legacy branch yields a non-empty decoded token string, and it can yield or throw only when both `token=` and `user=` occur |
| HashAuth.ExtractAuthFromHash | packages/ui/src/services/HashAuthService.ts:11-48 | no window, an empty fragment or a bare `#` gives `null`; any session returned comes from one of the two branches; a thrown decode or parse is `null` |
| HashAuth.CreateAuthUrl | packages/ui/src/services/HashAuthService.ts:53-70 | the URL is the base followed by `#auth=` and a payload written only in the `encodeURIComponent` alphabet |
| HashAuth.CreateLogoutUrl | packages/ui/src/services/HashAuthService.ts:128-130 | the URL is exactly the base followed by `#logout=true` |
| HashAuth.MatchAt | packages/ui/src/services/HashAuthService.ts:83-86 | a match of `[#&]?lit[^&]*` at the start stays inside the text and begins with the literal or with one separator and the literal |
| HashAuth.FirstMatch | packages/ui/src/services/HashAuthService.ts:83-86 | the match found is the leftmost one: it matches where reported and no earlier position matches; no result means no position matches |
| HashAuth.ReplaceFirst | packages/ui/src/services/HashAuthService.ts:82-86 | without a match the text is unchanged; otherwise exactly the leftmost match is cut out and the text around it kept |
| HashAuth.StripSeps | packages/ui/src/services/HashAuthService.ts:88 | the result is a suffix of the input that does not start with `#` or `&`, and everything removed was `#` or `&` |
| HashAuth.ClearAuthHash | packages/ui/src/services/HashAuthService.ts:75-98 | without a window or a fragment nothing changes; otherwise path and search are kept, the fragment becomes the cleaned remainder (none when empty), and no navigation starts |
| HashAuth.ClearLogoutHash | packages/ui/src/services/HashAuthService.ts:153-171 | the same as `clearAuthHash`, removing only the first logout marker and the leading separators |
| HashAuth.RedirectWithAuth | packages/ui/src/services/HashAuthService.ts:103-110 | the page navigates to `createAuthUrl(target, token, user)` and the current entry is untouched |
| HashAuth.RedirectWithLogout | packages/ui/src/services/HashAuthService.ts:145-148 | the page navigates to the target followed by `#logout=true` |
| HashAuth.NoAmpInEncoding | packages/ui/src/services/HashAuthService.ts:64 | the percent-encoded payload never contains `&`, so the `[^&]+` capture takes all of it |
| HashAuth.AuthUrlRoundTrip | packages/ui/src/services/HashAuthService.ts:53-65 | for a base without `#` and truthy token and user, extracting from the fragment of `createAuthUrl(base, token, user)` gives back exactly that token and user |
| HashAuth.ExtractFromAuthHash | packages/ui/src/services/HashAuthService.ts:17-30 | a fragment `#auth=<e>` whose payload decodes and parses to an object with truthy `token` and `userData` yields that session |
| HashAuth.ExtractedImpliesHasAuth | packages/ui/src/services/HashAuthService.ts:115-123 | whenever extraction finds a session, `hasAuthInHash` holds on the same fragment |
| HashAuth.UndecodablePayloadIsNull | packages/ui/src/services/HashAuthService.ts:21-23 | an `auth=` payload that does not percent-decode or does not parse makes extraction return `null`, without trying the legacy pair |
| HashAuth.IncompletePayloadWithoutLegacyIsNull | packages/ui/src/services/HashAuthService.ts:25-43 | an `auth=` payload without a truthy token or user falls through, and with no `token=` part the result is `null` |
| HashAuth.LogoutUrlDetected | packages/ui/src/services/HashAuthService.ts:128-140 | the fragment of `createLogoutUrl(base)` is `#logout=true` and `hasLogoutInHash` holds on it |
| HashAuth.MatchImpliesIncludes | packages/ui/src/services/HashAuthService.ts:160 | a replacement can only happen where the fragment contains the literal |
| HashAuth.LogoutClearWithoutMarker | packages/ui/src/services/HashAuthService.ts:160-161 | a fragment without `logout=true` only loses its leading separators |
| HashAuth.LogoutClearLeadingMarker | packages/ui/src/services/HashAuthService.ts:160-161 | `#logout=true` and `#logout=true&` in front of other text are removed and that text is kept as it is |
| HashAuth.LogoutUrlCleared | packages/ui/src/services/HashAuthService.ts:160-166 | clearing the fragment of a logout URL leaves no fragment at all |
| HashAuth.AuthUrlCleared | packages/ui/src/services/HashAuthService.ts:82-94 | clearing the fragment of a URL made by `createAuthUrl` leaves no fragment at all |
| PercentEncoding.Encode | packages/ui/src/services/HashAuthService.ts:64 | `encodeURIComponent` writes only unreserved characters and `%`, and never shortens its input |
| PercentEncoding.DecodeEscape | packages/ui/src/services/HashAuthService.ts:22 | a decoded escape sequence consumes between 3 characters and the rest of the text |
| PercentEncoding.DecodeEncode | packages/ui/src/services/HashAuthService.ts:22 | `decodeURIComponent(encodeURIComponent(s))` is `s` for every string |
| PercentEncoding.EncodedHasNoSeparator | packages/ui/src/services/HashAuthService.ts:64 | encoded text holds no `&`, `#` or `=` |
| Browser.ParsedItem | packages/ui/src/services/StorageService.ts:21-35 | an absent key and a value that does not parse both read as `null`; a parsable value reads as what it parses to |
| Browser.ParsedItemWritten | packages/ui/src/services/StorageService.ts:9-35 | writing `JSON.stringify(v)` under a key and reading it back gives `v`, whatever else is stored |
| Browser.HashOf | packages/ui/src/services/HashAuthService.ts:14-15 | `location.hash` is empty or starts with `#` and has at least two characters |
| CrossDomainSync.AllowedOrigins | packages/ui/src/services/CrossDomainSyncService.ts:24-40 | exactly the home URL and the investments URL, in that order |
| CrossDomainSync.OtherAppUrl | packages/ui/src/services/CrossDomainSyncService.ts:42-68 | a peer exists iff there is a window and the origin is allowed; home maps to investments, investments to home, and the peer is itself allowed |
| CrossDomainSync.PeerOfPeer | packages/ui/src/services/CrossDomainSyncService.ts:42-68 | when the two URLs differ, the peer of an application's peer is the application itself |
| CrossDomainSync.LoginMessage | packages/ui/src/services/CrossDomainSyncService.ts:207-216 | the login message carries action `login`, the given token and the given user data (none when absent) |
| CrossDomainSync.LogoutMessage | packages/ui/src/services/CrossDomainSyncService.ts:218-222 | the logout message carries action `logout` and neither token nor user data |
| CrossDomainSync.Accept | packages/ui/src/services/CrossDomainSyncService.ts:164-188 | a message reaches `onSync`, unchanged, iff its origin is one of the two allowed URLs and its action is `login` or `logout` |
| CrossDomainSync.SentMessagesAccepted | packages/ui/src/services/CrossDomainSyncService.ts:171-187 | the login and logout messages either application sends pass the other's filter unchanged |
| CrossDomainSync.HandleLocalSync | packages/ui/src/services/CrossDomainSyncService.ts:199-205 | a logout sets the external-logout flag, a login removes it, any other action leaves storage as it was |
| CrossDomainSync.CancelOverall | packages/ui/src/services/CrossDomainSyncService.ts:129 | `clearTimeout` removes exactly the call's overall timer and keeps every other pending timer |
| CrossDomainSync.SyncSender.constructor | packages/ui/src/services/CrossDomainSyncService.ts:17 | the guard starts false, with no calls, timers or posted messages |
| CrossDomainSync.SyncSender.SendSyncData | packages/ui/src/services/CrossDomainSyncService.ts:70-111 | no window rejects; a call while syncing resolves at once and creates no iframe; otherwise the guard is set, a missing peer resolves with the guard left set, a DOM failure rejects, and success attaches the iframe and starts the 10 s timer |
| CrossDomainSync.SyncSender.SyncLogin | packages/ui/src/services/CrossDomainSyncService.ts:207-216 | one new call is recorded, carrying the login message |
| CrossDomainSync.SyncSender.SyncLogout | packages/ui/src/services/CrossDomainSyncService.ts:218-222 | one new call is recorded, carrying the logout message |
| CrossDomainSync.SyncSender.IframeLoaded | packages/ui/src/services/CrossDomainSyncService.ts:112-115 | an attached iframe's `load` starts the 1 s delay and changes nothing else |
| CrossDomainSync.SyncSender.IframeFailed | packages/ui/src/services/CrossDomainSyncService.ts:143-147 | an iframe `error` clears the overall timer, removes the iframe and rejects, and leaves `isSyncing` as it was |
| CrossDomainSync.SyncSender.FireTimer | packages/ui/src/services/CrossDomainSyncService.ts:106-140 | the 10 s timer removes the iframe, resets the guard and rejects; the 1 s delay posts the data to the peer and starts the 3 s delay, or rejects on a `postMessage` exception; the 3 s delay resolves and resets the guard; a settled promise stays settled |
| CrossDomainSync.PostedToAllowedPeer | packages/ui/src/services/CrossDomainSyncService.ts:122 | every message posted goes to the page's peer, which is an allowed origin |
| SyncPage.Navigation | apps/investments/src/app/sync/page.tsx:46-62 | a login moves on to `/investments`, a logout to the home URL, any other action nowhere |
| SyncPage.OnSync | apps/investments/src/app/sync/page.tsx:15-66 | the callback changes only this origin's storage, as the apply step states, and returns where the page goes |
| SyncPage.OnMessage | apps/investments/src/app/sync/page.tsx:15-66 | a message the listener drops changes nothing; an accepted one is applied and navigates as the callback does |
| SyncPage.LoginToken | apps/investments/src/app/sync/page.tsx:25-31 | a login with a token stores it; without one the stored token is kept as it was |
| SyncPage.LoginUserData | apps/investments/src/app/sync/page.tsx:32-38 | a login stores the user data only when the message carries it |
| SyncPage.LoginFlags | apps/investments/src/app/sync/page.tsx:39-42 | a login removes the external-logout flag and sets the sync-completed flag |
| SyncPage.LogoutClearsSession | apps/investments/src/app/sync/page.tsx:50-54 | a logout removes token, user data and show-balance, sets the external-logout flag, and keeps every other key |
| SyncPage.UnknownActionChangesNothing | apps/investments/src/app/sync/page.tsx:63-65 | any other action leaves storage as it was |
| SyncPage.ApplySyncIdempotent | apps/investments/src/app/sync/page.tsx:22-65 | receiving the same message twice leaves storage as receiving it once |
| UiStorage.ThemeJson | packages/ui/src/services/StorageService.ts:90-92 | a theme is stored as the string `light` or `dark` |
| UiStorage.ShowBalanceOr | packages/ui/src/services/StorageService.ts:87 | `?? true`: a missing preference reads as `true`, a stored one as itself |
| UiStorage.StorageService.constructor | packages/ui/src/services/StorageService.ts:1-7 | the service works on the given origin storage (none without a window) |
| UiStorage.StorageService.SetItem | packages/ui/src/services/StorageService.ts:9-19 | with a window the key holds `JSON.stringify(value)` and reads back as `value`; without one nothing changes |
| UiStorage.StorageService.GetItem | packages/ui/src/services/StorageService.ts:21-35 | no window, an absent key and an unparsable value all give `null`; otherwise the parsed value |
| UiStorage.StorageService.RemoveItem | packages/ui/src/services/StorageService.ts:37-42 | the key is gone and reads as `null` |
| UiStorage.StorageService.SetUserData | packages/ui/src/services/StorageService.ts:44-50 | the user data is stored under `@bytebank/user-data` and reads back as given |
| UiStorage.StorageService.GetUserData | packages/ui/src/services/StorageService.ts:52-60 | the value stored under `@bytebank/user-data` |
| UiStorage.StorageService.ClearUserData | packages/ui/src/services/StorageService.ts:62-64 | only the user-data key is removed |
| UiStorage.StorageService.SetAuthToken | packages/ui/src/services/StorageService.ts:66-68 | the token is stored, and the service is then authenticated iff the token is truthy |
| UiStorage.StorageService.GetAuthToken | packages/ui/src/services/StorageService.ts:70-72 | the value stored under `@bytebank/auth-token` |
| UiStorage.StorageService.ClearAuthToken | packages/ui/src/services/StorageService.ts:74-76 | only the token key is removed, and the service is no longer authenticated |
| UiStorage.StorageService.SetShowBalance | packages/ui/src/services/StorageService.ts:82-84 | the preference is stored and reads back as given |
| UiStorage.StorageService.GetShowBalance | packages/ui/src/services/StorageService.ts:86-88 | without a window or a stored preference the balance is shown |
| UiStorage.StorageService.SetTheme | packages/ui/src/services/StorageService.ts:90-92 | the theme is stored under `@bytebank/theme` |
| UiStorage.StorageService.GetTheme | packages/ui/src/services/StorageService.ts:94-96 | the value stored under `@bytebank/theme` |
| UiStorage.StorageService.ClearAllUserData | packages/ui/src/services/StorageService.ts:98-102 | exactly the token, user-data and show-balance keys are removed; afterwards nobody is authenticated and the balance is shown |
| UiStorage.StorageService.SetExternalLogoutFlag | apps/investments/src/app/sync/page.tsx:54 | the raw key `external-logout-flag` holds `true`, nothing else changes |
| UiStorage.StorageService.ClearExternalLogoutFlag | apps/investments/src/app/sync/page.tsx:39 | only the external-logout flag is removed |
| UiStorage.StorageService.SetSyncCompletedFlag | apps/investments/src/app/sync/page.tsx:41 | the sync-completed key holds `true`, nothing else changes |
| UiStorage.AuthenticatedIffNonEmptyToken | packages/ui/src/services/StorageService.ts:70-80 | a stored token string authenticates iff it is non-empty |
| UiStorage.ShowBalanceDefault | packages/ui/src/services/StorageService.ts:86-88 | with no stored preference the balance is shown |
| UiStorage.ClearAllKeepsOthers | packages/ui/src/services/StorageService.ts:98-102 | every key other than the three session keys keeps its value |
| UiStorage.WriteKeepsOthers | packages/ui/src/services/StorageService.ts:9-42 | writing or removing one key leaves every other key reading as before |
| UiStorage.ThemeSurvivesClearAll | packages/ui/src/services/StorageService.ts:98-102 | the theme reads the same before and after `clearAllUserData` |
| UserSlice.Reduce | packages/ui/src/store/userSlice.ts:21-35 | `setUser` makes the state the payload, `clearUser` the initial state, `setUserName` changes the name alone |
| UserSlice.UserStore.constructor | packages/ui/src/store/userSlice.ts:12-16 | the store starts with all three fields empty |
| UserSlice.UserStore.SetUser | packages/ui/src/store/userSlice.ts:22-26 | the three fields are copied from the payload |
| UserSlice.UserStore.ClearUser | packages/ui/src/store/userSlice.ts:27-31 | the three fields become empty and nobody is logged in |
| UserSlice.UserStore.SetUserName | packages/ui/src/store/userSlice.ts:32-34 | only the name changes |
| UserSlice.UserStore.Dispatch | packages/ui/src/store/userSlice.ts:18-36 | dispatching an action applies its reducer to the state |
| UserSlice.InitialNotLoggedIn | packages/ui/src/store/userSlice.ts:12-16 | `selectIsLoggedIn` is false on the initial state |
| UserSlice.ReduceIdempotent | packages/ui/src/store/userSlice.ts:22-31 | applying `setUser` or `clearUser` twice equals applying it once |
| UserSlice.ClearedIsLoggedOut | packages/ui/src/store/userSlice.ts:27-41 | after `clearUser` nobody is logged in |
| UserSlice.SetUserLoggedIn | packages/ui/src/store/userSlice.ts:38-41 | after `setUser` the user is logged in iff name, e-mail and account id of the payload are all non-empty |
| UserSlice.SetUserNameLogin | packages/ui/src/store/userSlice.ts:32-41 | after `setUserName` the login status depends on the new name and the two untouched fields |
| Json.UserJson | packages/ui/src/store/middleware.ts:23-31 | the user object written and announced is truthy and carries the name, e-mail and account id |
| Middleware.Effect | packages/ui/src/store/middleware.ts:13-79 | without a window nothing happens; a value is stored exactly when a non-null event is announced, and the event carries the stored value; the key is removed exactly when `null` is announced |
| Middleware.Listener.constructor | packages/ui/src/store/middleware.ts:11 | no event has been dispatched yet |
| Middleware.Listener.Run | packages/ui/src/store/middleware.ts:13-79 | the storage key and the event list change exactly as the effect for the action says |
| Middleware.Dispatch | packages/ui/src/store/middleware.ts:13-79 | the reducer runs first and the effect then sees the new state: the stored key is written, removed or left as that effect says, and its event is announced |
| Middleware.LocalSetUserPersists | packages/ui/src/store/middleware.ts:19-33 | a local `setUser` stores the payload and announces it once |
| Middleware.ExternalSetUserSilent | packages/ui/src/store/middleware.ts:17-38 | a `setUser` from another application neither writes nor announces |
| Middleware.LocalRenamePersistsWholeState | packages/ui/src/store/middleware.ts:49-60 | a local `setUserName` stores the whole state after the rename, with e-mail and account id kept |
| Middleware.ClearAlwaysAnnounced | packages/ui/src/store/middleware.ts:66-79 | `clearUser` removes the key and announces `null`, external or not |
| Middleware.MissingHookIsLocal | packages/ui/src/store/middleware.ts:17 | a missing `__isUpdatingFromExternal` hook behaves as a local change |
| SharedHeader.PayloadOf | apps/home/src/hooks/useSharedHeaderData.ts:32-35 | the payload carries the context user's name, its e-mail or `""`, and no account id |
| SharedHeader.ReconcileEffect | apps/home/src/hooks/useSharedHeaderData.ts:21-40 | a `"true"` external-logout flag while logged in is removed and only `logout` is called; otherwise storage is untouched and the Redux commands are issued |
| SharedHeader.SyncCommands | apps/home/src/hooks/useSharedHeaderData.ts:30-39 | logged in with a user while Redux is not dispatches `setUser` with that user; logged out while Redux is logged in dispatches `clearUser`; agreeing views dispatch nothing |
| SharedHeader.FinalUser | apps/home/src/hooks/useSharedHeaderData.ts:42-43 | the context user, else the Redux name when non-empty, else nobody |
| SharedHeader.OnLogout | apps/home/src/hooks/useSharedHeaderData.ts:53-57 | `local-logout-flag` is set to `true`, then `logout` is called, then `clearUser` dispatched |
| SharedHeader.HeaderSyncNeverLogsIn | apps/home/src/hooks/useSharedHeaderData.ts:30-36 | the `setUser` the header dispatches never makes `selectIsLoggedIn` true, as its payload has no account id |
| SharedHeader.LoggedOutClearsSlice | apps/home/src/hooks/useSharedHeaderData.ts:37-39 | logged out while Redux is logged in, the effect's one command clears the slice |
| SharedHeader.ReportedUserWhenLoggedIn | apps/home/src/hooks/useSharedHeaderData.ts:42-45 | a logged-in Redux slice makes the header report a login and a user |
| TokenValidation.DigitRun | packages/ui/src/services/TokenValidationService.ts:114 | the digits `parseInt` reads: a run of digits followed by a non-digit or the end |
| TokenValidation.NatToString | packages/ui/src/services/TokenValidationService.ts:123 | `toString` of a timestamp is a non-empty run of decimal digits |
| TokenValidation.ParseIntOfNatToString | packages/ui/src/services/TokenValidationService.ts:114-123 | `parseInt(t.toString(), 10)` gives back `t` |
| TokenValidation.StoredTime | packages/ui/src/services/TokenValidationService.ts:110-115 | an absent cache key reads as no validation time |
| TokenValidation.ServerVerdict | packages/ui/src/services/TokenValidationService.ts:30-50 | valid iff no logout is demanded; an answer is valid iff it reports `result.valid`; an exception is valid in the cached variant only; a user is returned only from a valid answer's `result.user` |
| TokenValidation.CacheAfter | packages/ui/src/services/TokenValidationService.ts:32-45 | asking the server touches no key but the cache key |
| TokenValidation.TokenValidationService.constructor | packages/ui/src/services/TokenValidationService.ts:9-12 | the service works on the given origin storage |
| TokenValidation.TokenValidationService.LastValidationTime | packages/ui/src/services/TokenValidationService.ts:110-115 | without a window there is no validation time |
| TokenValidation.TokenValidationService.SetLastValidationTime | packages/ui/src/services/TokenValidationService.ts:120-124 | the time is stored as decimal text and reads back as the same time |
| TokenValidation.TokenValidationService.ClearValidationCache | packages/ui/src/services/TokenValidationService.ts:129-133 | only the cache key is removed, and no validation time remains |
| TokenValidation.TokenValidationService.ValidateTokenWithCache | packages/ui/src/services/TokenValidationService.ts:17-51 | the server is asked iff `needsValidation` held; a fresh cache answers valid without asking; otherwise the result and the cache follow the server's answer, and an exception fails open |
| TokenValidation.TokenValidationService.ForceValidateToken | packages/ui/src/services/TokenValidationService.ts:56-85 | the server is always asked, whatever is cached; an exception fails closed |
| TokenValidation.TokenValidationService.LogoutOnServer | packages/ui/src/services/TokenValidationService.ts:90-105 | success iff the answer has data or status 200; the cache is cleared on success and on an exception, and kept on a plain failure |
| TokenValidation.ValidAnswerCachedForFiveMinutes | packages/ui/src/services/TokenValidationService.ts:12-33 | after a valid answer at time `now`, a later check asks the server iff at least 300000 ms have passed |
| TokenValidation.InvalidAnswerForgetsCache | packages/ui/src/services/TokenValidationService.ts:39-45 | after a "not valid" answer the next check always asks the server |
| TokenValidation.ExceptionVerdicts | packages/ui/src/services/TokenValidationService.ts:46-50 | an exception keeps the cache, fails open in the cached variant and demands a logout in the forced one |
| TokenValidation.GarbageNeedsValidation | packages/ui/src/services/TokenValidationService.ts:138-143 | stored text that is not a number counts as no validation at all |
| ApiAuth.OrText | apps/home/src/hooks/useApiAuth.ts:72-74 | `v \|\| fallback`: a truthy value is kept, anything else becomes the fallback text |
| ApiAuth.ElementZero | apps/home/src/hooks/useApiAuth.ts:74 | indexing throws exactly on `null`/`undefined` |
| ApiAuth.AccountIdOf | apps/home/src/hooks/useApiAuth.ts:74 | a missing user record gives no account id instead of throwing |
| ApiAuth.StoredUser | apps/home/src/hooks/useApiAuth.ts:71-75 | the stored user's name, e-mail and account id are the lookup's fields or the three "não encontrado" fallbacks |
| ApiAuth.LoginEffectOf | apps/home/src/hooks/useApiAuth.ts:59-92 | a user is stored only after a token has been stored |
| ApiAuth.ApiAuthHook.constructor | apps/home/src/hooks/useApiAuth.ts:24-26 | `isLoading` starts false and both services share the page's storage |
| ApiAuth.ApiAuthHook.Register | apps/home/src/hooks/useApiAuth.ts:44-57 | the answer is passed on, a thrown call rejects, and `isLoading` ends false |
| ApiAuth.ApiAuthHook.Login | apps/home/src/hooks/useApiAuth.ts:59-94 | storage gains exactly the token and the user the login effect names, the result is the effect's, and `isLoading` ends false |
| ApiAuth.ApiAuthHook.Logout | apps/home/src/hooks/useApiAuth.ts:96-123 | whatever the server answers, the session keys are removed, nobody is authenticated, the result is `true` and `isLoading` ends false |
| ApiAuth.ApiAuthHook.HandleTokenExpired | apps/home/src/hooks/useApiAuth.ts:28-32 | the session keys are removed, then the callback is called when there is one |
| ApiAuth.ApiAuthHook.GetUserAccount | apps/home/src/hooks/useApiAuth.ts:137-147 | the answer is passed on, a thrown call rejects, and `isLoading` ends false |
| ApiAuth.ApiAuthHook.NavigateToInvestments | apps/home/src/hooks/useApiAuth.ts:149-167 | with a token and a user the page goes to the investments URL carrying them, otherwise to the home URL |
| ApiAuth.TokenValidationAfterLogout | packages/ui/src/services/TokenValidationService.ts:90-105 | a thrown server logout clears the validation cache |
| ApiAuth.LoginStoresTokenWhenPresent | apps/home/src/hooks/useApiAuth.ts:65-66 | a token is stored iff the login answer carries a truthy one, and it is that token |
| ApiAuth.LoginStoresUserWithFallbacks | apps/home/src/hooks/useApiAuth.ts:68-79 | after a token, the user is stored iff the lookup returned a record with an `account` member, with the fallbacks for missing fields |
| ApiAuth.LoginFallbacksAllMissing | apps/home/src/hooks/useApiAuth.ts:71-75 | a record with no user info and an empty account list is stored with all three fallbacks |
| ApiAuth.LoginExceptionIs401 | apps/home/src/hooks/useApiAuth.ts:83-89 | a thrown login resolves with status 401 and stores nothing |
| ApiAuth.AccountFailureKeepsToken | apps/home/src/hooks/useApiAuth.ts:66-89 | a failing account lookup resolves with the 401 failure but the stored token stays |
| ApiAuth.LogoutClearsSessionWhateverTheServer | apps/home/src/hooks/useApiAuth.ts:100-117 | after logout no session key remains, and every other key but the validation cache is kept |
| CrossAppNavigation.AppTarget | packages/ui/src/hooks/useCrossAppNavigation.ts:13-22 | without a truthy token and user the target URL is left as it is |
| CrossAppNavigation.InvestmentsTarget | packages/ui/src/hooks/useCrossAppNavigation.ts:33-48 | without a truthy token and user the page goes to the home URL instead |
| CrossAppNavigation.LogoutTarget | packages/ui/src/hooks/useCrossAppNavigation.ts:52-58 | the logout URL is the home URL, then `/home#logout=true` |
| CrossAppNavigation.NavigateToApp | packages/ui/src/hooks/useCrossAppNavigation.ts:11-25 | the page is sent to the target, with the stored session in its fragment when there is one; the location is otherwise unchanged |
| CrossAppNavigation.NavigateToHome | packages/ui/src/hooks/useCrossAppNavigation.ts:27-30 | `navigateToApp` on the configured or default home URL |
| CrossAppNavigation.NavigateToInvestments | packages/ui/src/hooks/useCrossAppNavigation.ts:32-49 | the page goes to the investments URL with the session, or home without one |
| CrossAppNavigation.LogoutAndNavigateToHome | packages/ui/src/hooks/useCrossAppNavigation.ts:51-59 | the session keys are removed, nobody is authenticated, and the page goes to the home logout URL |
| CrossAppNavigation.NavigationCarriesSession | packages/ui/src/hooks/useCrossAppNavigation.ts:16-18 | the target application reads back exactly the token and user this page sent |
| CrossAppNavigation.NavigationWithoutSession | packages/ui/src/hooks/useCrossAppNavigation.ts:19-21 | without a session the target URL has no fragment, so the target picks up no session |
| CrossAppNavigation.InvestmentsNavigation | packages/ui/src/hooks/useCrossAppNavigation.ts:36-48 | with a session the investments page reads it back; without one the page goes home |
| CrossAppNavigation.LogoutTargetDetected | packages/ui/src/hooks/useCrossAppNavigation.ts:52-58 | the home page reached after logout detects the logout marker; by default the URL is `http://localhost:3000/home#logout=true` |
| Urls.OrElse | packages/ui/src/utils/urls.ts:3 | `v \|\| fallback` on strings: a non-empty value wins, an empty one gives the fallback |
| Urls.HomeUrl | packages/ui/src/utils/urls.ts:2-4 | the configured home URL, else `http://localhost:3000`; never empty |
| Urls.InvestmentsUrl | packages/ui/src/hooks/useCrossAppNavigation.ts:37-38 | the configured investments URL, else `http://localhost:3001`; never empty |
| Urls.CardsUrl | packages/ui/src/utils/urls.ts:6-8 | the configured cards URL, else `http://localhost:3001`; never empty |
| Urls.AppUrl | packages/ui/src/utils/urls.ts:10-19 | `"cards"` selects the cards URL and every other name the home URL |
| Urls.CurrentAppUrl | packages/ui/src/utils/urls.ts:25-28 | the page's origin, or `""` when there is no window |
| Transactions.TypeOfName | apps/home/src/models/Transaction.ts:1 | the kind whose string value is `s`, and none exactly when no kind has that value |
| Transactions.Transaction.constructor | apps/home/src/models/Transaction.ts:37-49 | the id is the given one when it is non-empty and a generated one otherwise; kind, amount, date and description are the arguments |
| Transactions.IdSource.Next | apps/home/src/models/Transaction.ts:44 | each generated id is the next one of the stream |
| Transactions.SelectOptionsFollowTypes | apps/home/src/models/Transaction.ts:3-14 | the three select options follow the three kinds in order, each captioned with the kind's display name |
| Transactions.OptionLabelsAreDisplayNames | apps/home/src/models/Transaction.ts:10-14 | every option's value names a kind and its label is that kind's display name |
| Accounts.Kept | apps/home/src/models/Account.ts:41-43 | a record is kept iff it was listed and its id is not being deleted |
| Accounts.Removed | apps/home/src/models/Account.ts:37-39 | a record is reverted iff it was listed and its id is being deleted |
| Accounts.FindIndex | apps/home/src/models/Account.ts:52-54 | the position of the first record with the id, or none when no record has it |
| Accounts.KeptObjects | apps/home/src/models/Account.ts:41-43 | the kept objects hold exactly the kept records, are all from the list, and stay distinct |
| Accounts.Account.constructor | apps/home/src/models/Account.ts:11-17 | the balance and list are the given ones |
| Accounts.Account.AddTransaction | apps/home/src/models/Account.ts:19-28 | a new transaction with a generated id is appended, the old ones stay, and the balance moves by its amount |
| Accounts.Account.DeleteTransactions | apps/home/src/models/Account.ts:30-46 | no list or an empty list changes nothing; otherwise the listed ids leave, the rest keep their order, and the balance drops by the removed amounts |
| Accounts.Account.UpdateTransaction | apps/home/src/models/Account.ts:48-71 | the first transaction with the id takes the new kind, amount and date and the balance moves by the change; an unknown id changes nothing |
| Accounts.SumPartition | apps/home/src/models/Account.ts:37-45 | the kept amounts plus the removed amounts make up the whole, so `balance - Σ amounts` is kept by deletion |
| Accounts.SumAppend | apps/home/src/models/Account.ts:26-27 | appending a transaction adds its amount to the sum |
| Accounts.SumUpdate | apps/home/src/models/Account.ts:64-70 | replacing one transaction changes the sum by the difference of the amounts |
| Accounts.DeleteUnknownIdsKeepsAll | apps/home/src/models/Account.ts:35-45 | deleting ids no transaction has keeps every record and reverts nothing |
| Accounts.UpdateTouchesOnlyFirstMatch | apps/home/src/models/Account.ts:52-68 | an update leaves every other record alone and the match keeps its id and description |
| AccountStore.AccountKey | apps/home/src/services/AccountService.ts:25-27 | the key is `@bytebank/account-data:` followed by the user's e-mail |
| AccountStore.InsertByDateBehind | apps/home/src/services/AccountService.ts:89-91 | a newer head stays in front when a record is inserted |
| AccountStore.InsertByDatePermutes | apps/home/src/services/AccountService.ts:89-91 | inserting adds exactly that record to the multiset |
| AccountStore.InsertByDateElements | apps/home/src/services/AccountService.ts:89-91 | inserting brings in no record but the inserted one |
| AccountStore.SortedCons | apps/home/src/services/AccountService.ts:43-45 | a record no older than the newest of a sorted list heads a sorted list |
| AccountStore.InsertByDateSorted | apps/home/src/services/AccountService.ts:89-91 | inserting into a list sorted newest first keeps it sorted |
| AccountStore.SortPermutes | apps/home/src/services/AccountService.ts:43-45 | sorting by date is a permutation of the transactions |
| AccountStore.SortIsSorted | apps/home/src/services/AccountService.ts:43-45 | sorting by date gives the transactions newest first |
| AccountStore.InsertByDateSum | apps/home/src/services/AccountService.ts:89-91 | inserting adds the record's amount to the sum |
| AccountStore.SortKeepsSum | apps/home/src/services/AccountService.ts:89-91 | sorting keeps the sum of the amounts |
| AccountStore.SortSortedIsIdentity | apps/home/src/services/AccountService.ts:122-124 | a list already newest first is left as it is |
| AccountStore.SortIsStable | apps/home/src/services/AccountService.ts:43-45 | the sort is stable: the transactions of any one date come out in the order they went in |
| AccountStore.InsertObject | apps/home/src/services/AccountService.ts:89-91 | the objects are rearranged exactly as their records are, adding only the inserted one |
| AccountStore.InsertObjectAfter | apps/home/src/services/AccountService.ts:89-91 | as `InsertObject`, once the head is known to stay in front |
| AccountStore.SortObjects | apps/home/src/services/AccountService.ts:43-45 | the objects are rearranged as their records are sorted, none added or lost |
| AccountStore.KeptStaysSorted | apps/home/src/services/AccountService.ts:106 | deleting from a list sorted newest first leaves it sorted |
| AccountStore.TransactionJson | apps/home/src/models/Transaction.ts:16-22 | a saved transaction is an object with its id, type name and amount, its date as the `Date`'s JSON text, and a `description` member exactly when it has one |
| AccountStore.TransactionsJson | apps/home/src/services/AccountService.ts:30 | the saved `transactions` array holds one entry per transaction, in order, each written as `TransactionJson` writes it |
| AccountStore.TransactionOf | apps/home/src/services/AccountService.ts:58-66 | a `null` entry fails (`t.type` throws); a record read has the entry's type and amount, the time `new Date` makes of its date, an id to generate exactly when the stored id is falsy, and a description exactly when the entry holds text there |
| AccountStore.TransactionsOf | apps/home/src/services/AccountService.ts:57-67 | a stored list reads as one record per entry, each read by `TransactionOf`, in order; a `null` entry fails the whole list |
| AccountStore.AccountOf | apps/home/src/services/AccountService.ts:56-70 | without a `transactions` array the load fails (`.map` throws); an account read has the entries' records and the stored balance, 0 when the balance is missing or `null` |
| AccountStore.TransactionsRoundTrip | apps/home/src/services/AccountService.ts:51-67 | saved transactions read back as themselves |
| AccountStore.TransactionRoundTrip | apps/home/src/services/AccountService.ts:58-66 | one saved transaction reads back as itself, its date through the `Date`'s JSON text, with or without a description |
| AccountStore.AccountRoundTrip | apps/home/src/services/AccountService.ts:29-57 | a saved account reads back as the same balance and transactions |
| AccountStore.FillIds | apps/home/src/services/AccountService.ts:60-65 | the transactions keep their number; those without an id take generated ones in order |
| AccountStore.FillIdsWhenNoneMissing | apps/home/src/services/AccountService.ts:65 | transactions that all have ids keep them |
| AccountStore.NewTransactions | apps/home/src/services/AccountService.ts:57-67 | one new, distinct object per record, holding exactly that record |
| AccountStore.OverwriteAfterLoad | apps/home/src/services/AccountService.ts:85-93 | the save after a load overwrites whatever the load wrote |
| AccountStore.SortTransactions | apps/home/src/services/AccountService.ts:89-91 | the account's transactions become sorted newest first and its balance stays |
| AccountStore.AccountService.constructor | apps/home/src/services/AccountService.ts:15-23 | the service keeps the storage and the e-mail |
| AccountStore.AccountService.SaveAccountData | apps/home/src/services/AccountService.ts:29-31 | the account's JSON is written under its key and nothing else changes |
| AccountStore.AccountService.CreateInitialAccount | apps/home/src/services/AccountService.ts:33-48 | balance 2500 and the five opening transactions with five generated ids, newest first |
| AccountStore.AccountService.OpeningRecords | apps/home/src/services/AccountService.ts:35-41 | the five opening transactions, each taking the next generated id |
| AccountStore.AccountService.FillMissingIds | apps/home/src/services/AccountService.ts:57-67 | the stored transactions with a generated id for each that has none, in order |
| AccountStore.AccountService.MakeTransactions | apps/home/src/services/AccountService.ts:57-67 | distinct new objects holding the stored transactions with their missing ids filled |
| AccountStore.AccountService.RestoreAccount | apps/home/src/services/AccountService.ts:56-71 | the stored balance with the stored transactions, ids filled, newest first |
| AccountStore.AccountService.GetAccountData | apps/home/src/services/AccountService.ts:50-77 | a falsy stored value gives the opening account, which is then saved; otherwise the stored account as `AccountOf` reads it, ids filled and newest first, or a failure that changes nothing where that read fails |
| AccountStore.AccountService.AddTransaction | apps/home/src/services/AccountService.ts:79-96 | the loaded account with the new transaction, newest first, its amount added to the balance, and that account saved |
| AccountStore.AccountService.AddAndSave | apps/home/src/services/AccountService.ts:87-93 | add, sort newest first, save |
| AccountStore.AccountService.DeleteTransactions | apps/home/src/services/AccountService.ts:98-110 | the loaded account without the listed ids, still newest first, balance reduced by their amounts, and saved |
| AccountStore.AccountService.DeleteAndSave | apps/home/src/services/AccountService.ts:106-107 | delete, keeping the order newest first, then save |
| AccountStore.AccountService.UpdateAndSave | apps/home/src/services/AccountService.ts:120-126 | update the first match, sort newest first, save |
| AccountStore.AccountService.UpdateTransaction | apps/home/src/services/AccountService.ts:112-128 | the loaded account with the first matching transaction updated, newest first, balance moved by the change, and saved; an unknown id only re-saves |
| AccountStore.NewAccountService | apps/home/src/services/AccountService.ts:15-23 | an empty e-mail throws the documented error; otherwise a service for that e-mail |
| AccountStore.InitialAccountOrder | apps/home/src/services/AccountService.ts:36-45 | the opening transactions newest first: the 22nd, then the three of the 21st in written order, then the 20th |
| AccountStore.InitialAccountBalanced | apps/home/src/services/AccountService.ts:34-41 | the opening balance 2500 equals the sum of the opening transactions |
| AccountStore.SaveThenLoad | apps/home/src/services/AccountService.ts:29-71 | an account saved with ids and newest first is loaded back unchanged |
| AccountStore.LoadedIsSorted | apps/home/src/services/AccountService.ts:57-68 | every account the service loads lists its transactions newest first |
| AccountStore.AddKeepsBalanceGap | apps/home/src/services/AccountService.ts:87-91 | adding keeps `balance - Σ amounts` of the loaded account |
| HomeStorage.StorageService.constructor | apps/home/src/services/StorageService.ts:1-3 | the service keeps the origin's storage (none without a window) |
| HomeStorage.StorageService.SetItem | apps/home/src/services/StorageService.ts:5-15 | the key holds the serialised value and nothing else changes; without a window nothing happens; a later read gives the value back |
| HomeStorage.StorageService.GetItem | apps/home/src/services/StorageService.ts:17-31 | the parsed value, or `null` without a window, for a missing key or for text that does not parse |
| HomeStorage.StorageService.RemoveItem | apps/home/src/services/StorageService.ts:33-38 | the key is removed and nothing else changes; afterwards it reads as `null` |
| HomeAuth.UserValue | apps/home/src/services/AuthService.ts:18-22 | the stored user object is truthy and carries the user's name and e-mail |
| HomeAuth.AuthService.constructor | apps/home/src/services/AuthService.ts:11-16 | the current user is what is stored under `bytebank_auth_user`; with no window or nothing stored, nobody is logged in |
| HomeAuth.AuthService.Login | apps/home/src/services/AuthService.ts:18-22 | the user is held, stored under the key and handed to the setter; a later read gives it back |
| HomeAuth.AuthService.Logout | apps/home/src/services/AuthService.ts:24-28 | the user is dropped, the key removed and `null` handed to the setter |
| HomeAuth.ReloadSeesLastLogin | apps/home/src/services/AuthService.ts:11-28 | a rebuilt service finds the last logged-in user, or nobody after a logout |
| HomeAuth.StoredObjectMeansLoggedIn | apps/home/src/services/AuthService.ts:13-16 | a stored user object makes the rebuilt service logged in |
| Investments.SummaryOf | apps/investments/src/data/investmentMockData.ts:69-87 | fixed income is the sum of the fixed items, variable income that of the variable ones, and the total the sum of every item |
| Investments.AtLeast1000 | apps/investments/src/data/investmentMockData.ts:115 | `Math.max(1000, v)`: at least 1000 and at least `v`, and one of the two |
| Investments.Simulated | apps/investments/src/data/investmentMockData.ts:103-122 | one item per item, each keeping id, name, colour and kind, its value the rounded proposal when that is at least 1000 and never below 1000 |
| Investments.InvestmentDataManager.constructor | apps/investments/src/data/investmentMockData.ts:40-41 | the list starts as the four initial items |
| Investments.InvestmentDataManager.UpdateData | apps/investments/src/data/investmentMockData.ts:47-49 | the held list becomes the new data, which `getData` then returns |
| Investments.InvestmentDataManager.ResetData | apps/investments/src/data/investmentMockData.ts:51-53 | the held list is the initial one again, summing to 18000 fixed, 32000 variable and 50000 in all |
| Investments.InvestmentDataManager.SimulateUpdate | apps/investments/src/data/investmentMockData.ts:103-122 | the proposed list leaves the held one alone and totals at least 1000 per item |
| Investments.KindsPartitionSum | apps/investments/src/data/investmentMockData.ts:72-80 | the fixed and variable sums make up the sum of all items |
| Investments.InitialSummary | apps/investments/src/data/investmentMockData.ts:9-38 | the initial portfolio holds 18000 fixed, 32000 variable and 50000 in all |
| Investments.SumAllAtLeast | apps/investments/src/data/investmentMockData.ts:115 | with every value at least 1000 the total is at least 1000 per item |
| Autocomplete.Filtered | packages/ui/src/Autocomplete.tsx:43-45 | exactly the options whose label contains the text ignoring case, never more than there are |
| Autocomplete.FirstLabelMatch | packages/ui/src/Autocomplete.tsx:84-86 | the first option whose label equals the text ignoring case, none when no label does |
| Autocomplete.SelectedIndex | packages/ui/src/Autocomplete.tsx:47 | the first option whose value is the `value` prop, none when no option has it |
| Autocomplete.NextIndex | packages/ui/src/Autocomplete.tsx:135-137 | `ArrowDown` from a highlight or none lands on a listed option |
| Autocomplete.PrevIndex | packages/ui/src/Autocomplete.tsx:141-143 | `ArrowUp` lands on a listed option, or on none when nothing is listed |
| Autocomplete.AutocompleteState.constructor | packages/ui/src/Autocomplete.tsx:37-39 | the first render is closed, empty and highlights nothing |
| Autocomplete.AutocompleteState.SyncValue | packages/ui/src/Autocomplete.tsx:49-55 | the text becomes the selected option's label, or empty for an empty value, and stays otherwise |
| Autocomplete.AutocompleteState.ClickOutside | packages/ui/src/Autocomplete.tsx:58-66 | a click outside closes the list and drops the highlight |
| Autocomplete.AutocompleteState.InputChange | packages/ui/src/Autocomplete.tsx:73-93 | the text is the typed one and the list opens unhighlighted; `onChange` gets "" for empty text, else the first exact label match's value, else "" |
| Autocomplete.AutocompleteState.OptionClick | packages/ui/src/Autocomplete.tsx:95-100 | the clicked option's label is shown, its value handed on, and the list closes |
| Autocomplete.AutocompleteState.Focus | packages/ui/src/Autocomplete.tsx:102-104 | focusing opens the list and changes nothing else |
| Autocomplete.AutocompleteState.MouseEnter | packages/ui/src/Autocomplete.tsx:208 | the pointer highlights the option under it |
| Autocomplete.AutocompleteState.Blur | packages/ui/src/Autocomplete.tsx:106-122 | matching text becomes the label and hands on its value; other text without a selection is cleared and "" handed on; a selection's label comes back; `onBlur` is called and the box never keeps free text |
| Autocomplete.AutocompleteState.KeyDown | packages/ui/src/Autocomplete.tsx:124-156 | closed, the arrows only open the list; open, the arrows move the highlight round, Enter picks the highlighted option, Escape closes |
| Autocomplete.PressesAdd | packages/ui/src/Autocomplete.tsx:133-137 | `a` then `b` presses of `ArrowDown` are `a + b` presses |
| Autocomplete.PressesCount | packages/ui/src/Autocomplete.tsx:133-137 | before the end of the list each `ArrowDown` moves one place down |
| Autocomplete.FullCycle | packages/ui/src/Autocomplete.tsx:133-137 | as many presses of `ArrowDown` as there are options come back to the same option |
| Autocomplete.ArrowsUndoEachOther | packages/ui/src/Autocomplete.tsx:133-143 | `ArrowUp` undoes `ArrowDown` and the other way round |
| Autocomplete.FilterIgnoresCase | packages/ui/src/Autocomplete.tsx:43-45 | the listed options and the exact match do not depend on the case of the text |
| Autocomplete.EmptyTextListsAll | packages/ui/src/Autocomplete.tsx:43-45 | with no text every option is listed, in order |
| SharedNavigation.IsCrossAppNavigation | packages/ui/src/components/SharedNavigation.tsx:21-30 | inside the investments application the home and cards links leave it; elsewhere only the investments link does |
| SharedNavigation.NavigationUrl | packages/ui/src/components/SharedNavigation.tsx:32-44 | a link inside the application keeps its path; the investments link gets its base URL, with `/investments` outside production; others get base URL plus path |
| SharedNavigation.CrossAppMeansOtherApp | packages/ui/src/components/SharedNavigation.tsx:11-30 | a menu link is cross-application exactly when it belongs to the other application |
| SharedNavigation.MenuUrlsStayUnderHome | packages/ui/src/components/SharedNavigation.tsx:32-44 | every menu URL is the link's own path or starts with the home URL, since `getAppUrl` maps `"investments"` to the home URL |
| SharedNavigation.StartsWithOwnPrefix | packages/ui/src/components/SharedNavigation.tsx:43 | a URL built as base plus path starts with the base |
| SharedNavigation.ActiveSecondChar | packages/ui/src/components/SharedNavigation.tsx:54-57 | an active entry's path agrees with the pathname in its second character, unless the pathname is `/` and the entry is the investments one |
| SharedNavigation.AtMostOneActive | packages/ui/src/components/SharedNavigation.tsx:53-57 | no pathname makes two menu entries active |
| SharedNavigation.InvestmentsPagesHighlightInvestments | packages/ui/src/components/SharedNavigation.tsx:21-57 | throughout the investments application its own link, and only it, is active |
| StringUtils.FirstSpace | apps/home/src/lib/utils/StringUtils.ts:19 | the position of the first whitespace character, or the length when there is none |
| StringUtils.SplitOnWhitespace | apps/home/src/lib/utils/StringUtils.ts:19 | `split(/\s+/)` always gives at least one part |
| StringUtils.Capitalize | apps/home/src/lib/utils/StringUtils.ts:20 | the first character upper-cased, the rest unchanged, the length kept |
| StringUtils.CapitalizeAll | apps/home/src/lib/utils/StringUtils.ts:20 | every word capitalised, in order |
| StringUtils.PascalCaseIsTrimmed | apps/home/src/lib/utils/StringUtils.ts:11-22 | the result neither starts nor ends with whitespace |
| StringUtils.PascalCaseWords | apps/home/src/lib/utils/StringUtils.ts:11-22 | every word of a non-empty result starts with a non-lower-case character and continues in lower case |
| StringUtils.PascalCaseIdempotent | apps/home/src/lib/utils/StringUtils.ts:11-22 | converting a converted string changes nothing |
| StringUtils.InputWords | apps/home/src/lib/utils/StringUtils.ts:16-19 | the lower-cased, trimmed input splits into non-empty lower-case words without whitespace |
| StringUtils.EmptyInput | apps/home/src/lib/utils/StringUtils.ts:12-14 | an empty input gives `""` |
| StringUtils.HelloWorld | apps/home/src/lib/utils/StringUtils.ts:7 | `"hello world"` becomes `"Hello World"` |
| StringUtils.SplitWords | apps/home/src/lib/utils/StringUtils.ts:18-19 | trimmed text splits into non-empty words without whitespace |
| StringUtils.SplitJoin | apps/home/src/lib/utils/StringUtils.ts:19-21 | words joined with single spaces split back into the same words |
| StringUtils.TrimWords | apps/home/src/lib/utils/StringUtils.ts:18-21 | words joined with single spaces are already trimmed |
| StringUtils.CapitalizedWords | apps/home/src/lib/utils/StringUtils.ts:20 | capitalising keeps words non-empty and without whitespace |
| StringUtils.CapitalizedShape | apps/home/src/lib/utils/StringUtils.ts:20 | capitalising lower-case words gives capitalised words |
| ImageUpload.ValidateFile | apps/home/src/components/upload/ImageUpload.tsx:25-38 | no message exactly for a JPEG or PNG of at most 1 MiB; the type message for any other type whatever its size; the size message for an allowed type over 1 MiB |
| ImageUpload.ImageUploadState.constructor | apps/home/src/components/upload/ImageUpload.tsx:19-21 | the `value` prop is the first preview, an empty one counting as none, with no error and nothing processing |
| ImageUpload.ImageUploadState.HandleFileSelect | apps/home/src/components/upload/ImageUpload.tsx:55-81 | no file changes nothing; a rejected file leaves its message and is never shown or handed on; a failed conversion leaves the processing message; a converted file becomes the preview and is handed on; processing always ends |
| ImageUpload.ImageUploadState.HandleRemove | apps/home/src/components/upload/ImageUpload.tsx:83-90 | no preview, no error, and `null` handed to `onImageSelect` |
| ImageUpload.SizeLimitIsInclusive | apps/home/src/components/upload/ImageUpload.tsx:25-35 | an image of exactly 1 MiB passes and one byte more gets the size message |
| ImageUpload.PassingTypes | apps/home/src/components/upload/ImageUpload.tsx:26-31 | only the three image types can pass, and each of them does up to 1 MiB |
| ImageViewer.ImageSrc | apps/home/src/components/modals/ImageAttachmentViewer.tsx:27-32 | the source is always a `data:image/` URL: the stored text when it is one, otherwise the text behind the PNG base64 prefix |
| ImageViewer.ImageSrcIdempotent | apps/home/src/components/modals/ImageAttachmentViewer.tsx:27-32 | applying it to its own result changes nothing |
| ImageViewer.ImageSrcKeepsData | apps/home/src/components/modals/ImageAttachmentViewer.tsx:27-32 | the stored text can be read back from the source |
| InvestmentChart.NonEmpty | apps/investments/src/components/charts/InvestmentChart.tsx:18 | exactly the non-empty pieces survive, and none of them is empty |
| InvestmentChart.Initials | apps/investments/src/components/charts/InvestmentChart.tsx:19 | one upper-cased first character per word, in order |
| InvestmentChart.Words | apps/investments/src/components/charts/InvestmentChart.tsx:16-18 | the pieces between spaces that are not empty |
| InvestmentChart.AbbreviationShape | apps/investments/src/components/charts/InvestmentChart.tsx:15-21 | the abbreviation alternates the words' upper-cased initials with dots, one character per word and no dot at either end |
| InvestmentChart.BlankNameHasNoAbbreviation | apps/investments/src/components/charts/InvestmentChart.tsx:15-21 | a name made only of spaces has the empty abbreviation |
| InvestmentChart.TesouroDireto | apps/investments/src/components/charts/InvestmentChart.tsx:15-21 | `"Tesouro Direto"` is abbreviated `"T.D"` |
| InvestmentChart.SplitTesouroDireto | apps/investments/src/components/charts/InvestmentChart.tsx:17 | `"Tesouro Direto"` splits on the space into its two words |
| InvestmentChart.SplitTwoWords | apps/investments/src/components/charts/InvestmentChart.tsx:17 | two separator-free words joined by the separator split back into those two words |
| InvestmentChart.TesouroDiretoInitials | apps/investments/src/components/charts/InvestmentChart.tsx:18-20 | the initials of `Tesouro` and `Direto` joined with a dot are `"T.D"` |
| InvestmentChart.JoinSingles | apps/investments/src/components/charts/InvestmentChart.tsx:20 | one-character strings joined with dots sit at the even positions, dots at the odd ones |
| CardsPage.FormatIsSpaced | apps/cards/src/app/page.tsx:68 | a number without whitespace is shown as groups of four joined by single spaces, with no space at either end |
| CardsPage.SpacedPositions | apps/cards/src/app/page.tsx:68 | the `i`-th character moves `i / 4` places on and a space follows every full group but the last |
| CardsPage.UnspacedSpaced | apps/cards/src/app/page.tsx:68 | taking the spaces out of the displayed number gives the number back |
| CardsPage.SampleCard | apps/cards/src/app/page.tsx:68-79 | the sample card `1234567812345678` is shown as `1234 5678 1234 5678` |
| CardsPage.OnlyCardsIsActive | apps/cards/src/app/page.tsx:7-45 | of the three menu entries only the cards one is active, and it alone is an in-application link |
| CardsPage.GroupFoursNoSpace | apps/cards/src/app/page.tsx:68 | without line terminators every run of four gets a space after it, the last one included |
| CardsPage.ShortGroupFours | apps/cards/src/app/page.tsx:68 | fewer than four characters are left as they are |

## Left out

- The DOM is not modelled: the hidden iframe, its `load`/`error` events, `setTimeout` and `postMessage`. `CrossDomainSync` turns them into explicit events (`IframeLoaded`, `IframeFailed`, `FireTimer`) applied in the order they occur; wall-clock time and interleaving between origins are not modelled.
- `window.location` and `history.replaceState` are not modelled as browser APIs. They are the `Browser.Location` class: the URL the page is sent to is recorded, and the fragment is rewritten in place.
- `JSON.stringify`/`JSON.parse` are abstract (see above); their text format, and the exceptions a non-serialisable value would raise, are not modelled.
- `toLowerCase`/`toUpperCase` map ASCII letters only; Unicode case mapping and normalisation are not modelled.
- Console logging and `console.error` calls are dropped.
- `crypto.randomUUID()` is not modelled as a random generator. It is a stream of identifiers (`Transactions.IdSource`) or the `freshId` parameter; that two generated ids differ is not assumed.
- `Investments.InvestmentDataManager.SimulateUpdate`: the random variation and `Math.round` are not modelled. The rounded proposal for each item is the parameter `rounded`, and only the floor of 1000 is stated.
- `getInvestmentProgress` is not modelled (floating-point ratios). Neither is `getData` returning the held array by reference, so aliasing through `investmentMockData` is not captured.
- React state setters and callbacks (`setPreview`, `onChange`, `onImageSelect`, `onBlur`, the `AuthService` setter) are not modelled as calls. Each is the value handed over, recorded or returned.
- `ImageUpload.ImageUploadState.HandleFileSelect` models the handler once it has finished. The intermediate render with `isProcessing` true is not modelled. The `FileReader` conversion is the `converted` parameter, and `HandleRemove` does not clear the file input's `value`.
- `ImageAttachmentViewer.downloadImage`, the DOM link it creates and its timestamped file name are not modelled; only `getImageSrc` is.
- The HTTP layer is not modelled. Server answers are inputs: `ApiAuth` replies, `TokenValidation.ValidateReply` and `LogoutReply`. A thrown call is one of their cases.
- `ApiAuth.ApiAuthHook.Logout` always returns `true`. The source returns `false` only when something inside its `try` throws, and `logoutOnServer` and `clearAllUserData` catch everything themselves.
- `Accounts.Account.constructor` takes both arguments explicitly; the defaults `0` and `[]` are what callers pass.
- `Autocomplete` rendering is not modelled: the styling, the `forwardRef`, and the listener registration of the outside-click effect. The outside click is the `ClickOutside` event.
- `SharedNavigation` maps `app: "investments"` through `getAppUrl`, which sends every name but `"cards"` to the home URL. The model keeps this, so in production the investments link goes to the home URL.
- `InvestmentChart.AbbreviationShape` states the shape of the result (initials at even positions, dots at odd ones) rather than "no leading or trailing dot". A word that itself starts with `.` gives a leading `.` as its initial.
- The flag helpers the sync page calls (`clearExternalLogoutFlag`, `setSyncCompletedFlag`, `setExternalLogoutFlag`) are not in `packages/ui/src/services/StorageService.ts`. They are modelled from their call sites as writes and removals of the raw keys, with the value `"true"`.
- `Accounts.Account`: amounts and the balance are unbounded integers. The source holds them in JavaScript `number`s, so fractional amounts and floating-point rounding in `balance += amount` and in the sums are not modelled.
- `AccountStore`: an account's transactions are a sequence of objects. `new Account(balance, transactions)` stores the caller's array by reference (`this.transactions = initialTransactions`), so a later `push` or `filter` would be seen by whoever else holds that array; that sharing is not modelled (no caller in the service keeps the array).
- `AccountStore.TransactionsOf` reads a stored entry only when its `type` names one of the three kinds, its `amount` is a number, its date is a number, `null`, a boolean or text the date parser accepts, and a truthy `id` or `description` is text. The source keeps any other value in the new `Transaction` as it is (an unknown type name, a non-number amount that later arithmetic turns into `NaN` or concatenated text, an Invalid Date that leaves the sort order to the engine); the model, whose kinds, amounts and times cannot hold such values, fails the load there instead. A missing date is read like `null`, as the epoch, where `new Date(undefined)` is an Invalid Date.
- `AccountStore.AccountService.GetAccountData` fails where the source throws (a truthy stored value without a `transactions` array, a `null` entry) and also where `TransactionsOf` refuses an entry or the stored balance is neither a number, missing nor `null`; the source then builds an account holding those values.
- `Json.DateCodec` is abstract: the ISO text of `toJSON`, the date formats `new Date(text)` accepts, and times outside the range a `Date` can hold are not modelled.
- Time is an integer parameter `now`; `Date.now()` is not read.
- `TokenValidation.StoredTime` reads a `NaN` from `parseInt` as "no timestamp". Both uses treat it that way: a `NaN` is falsy, and `now - NaN < 300000` is false.
