# CardsGameWeb client logic in Dafny

This project models the logic of the CardsGameWeb browser client that sits
outside its React views, and proves properties of that model. The modules are:

- **Api** (`api.dfy`): the REST client `ApiService`. It covers:
  - how the base URL is chosen;
  - the `Authorization: Bearer …` header;
  - the single-flight token refresh. An `isRefreshing` flag and a `failedQueue`
    of waiting callers are settled by `processQueue`;
  - the 401 → refresh → retry-once rule of `fetchData`;
  - the ordered fallback over candidate fusion endpoints;
  - logout and registration.

  Storage, the redirect to `/login` and the requests put on the wire are fields
  of the class. Every HTTP reply is an input.
- **Realtime** (`socket.dfy`): the `SocketService`. It covers:
  - opening sockets with or without credentials;
  - the `isConnected` flag driven by lifecycle events;
  - classifying connection errors as token errors;
  - the guards on every emit and subscription.

  Sockets are numbered by creation. The caller chooses which event arrives on
  which open socket.
- **CardStyle** (`card_style.dfy`): the `rarity-…` CSS class, and tiers counted
  by thresholds.
- **Combination** (`combination.dfy`): the fusion preview. It covers:
  - the step-down rule for the result's rarity;
  - the compatibility score;
  - the colour/text tiers;
  - the top-ten list. That list is built by an imperative loop and a stable
    descending sort.
- **CardDetail** (`card_detail.dfy`): the card detail modal's power class,
  power bar, rarity bar, and the rules for which sections are shown.
- **Shop** (`shop.dfy`): the twelve-card catalogue, the filter and search, and
  the `ShopPage` wallet with its guarded purchase.
- **Collection** (`collection.dfy`): the twenty generated cards, the rarity
  filter and the A–Z sort.
- **Profile** (`profile.dfy`): the avatar initials, the stored user with its
  built-in fallback, and the change-password form (`PasswordForm`).
- **ResetPassword** (`reset_password.dfy`): token normalisation, validation,
  the `ResetForm` steps, and the red/green message style.
- **CardLibrary** (`card_library.dfy`): the rarity filter, the load state
  (`LibraryPanel`), React keys, and selection marking.
- **Base** and **Text**: the JSON value type and the JavaScript string
  operations that the modules share.

Every `Math.random()` draw is an integer parameter with its range as a
precondition. Some `async` handlers are split at their `await` into two
methods: `refreshAccessToken` (`RefreshAccessToken`, `FinishRefresh`),
`handleTokenRefresh` (a pending count, then `FinishTokenRefresh`),
`handleChangePassword` (`Submit`, `Complete`), the reset form's `handleSubmit`
(`Submit`, `Complete`) and `loadCards` (`BeginLoad`, `FinishLoad`). The first
starts the request and the second finishes it with the reply, so a flag that is
true "while the request runs" can be observed between the two. The other API
calls (`fetchData`, `register`, `logout` and the fusion lookups) take all their
replies at once and run as one step.

## Model

| member | source | states |
|---|---|---|
| Api.IsLocalHost | src/services/api.js:3-8 | The page counts as local exactly when it runs in a browser whose hostname is `localhost`, `127.0.0.1` or `0.0.0.0` |
| Api.MentionsLocalHost | src/services/api.js:15 | The case-insensitive regular expression test: the lower-cased URL contains `localhost`, `127.0.0.1` or `0.0.0.0` |
| Api.BaseUrl | src/services/api.js:1-19 | On a local host: the configured URL or `http://localhost:5000`. Elsewhere the result never mentions a local address. It is the configured URL when that avoids local addresses, otherwise the Render URL |
| Api.RenderUrlIsRemote | src/services/api.js:15-18 | The hosted fallback URL does not match `localhost`, `127.0.0.1` or `0.0.0.0` in any letter case |
| Api.IsOk | src/services/api.js:110 | `response.ok`: a response arrived and its status is in 200-299. A network failure is never ok |
| Api.BearerHeader | src/services/api.js:157-158 | The header always starts with `Bearer `. A token that already has the prefix is left unchanged. The token is always the header's suffix |
| Api.AuthorizationFor | src/services/api.js:156-159 | A header is attached exactly when the access token is a non-empty string, and it starts with `Bearer ` |
| Api.SettleAll | src/services/api.js:136-146 | One settlement per waiter, in queue order. All are rejected with the error when there is one, otherwise all are resolved with the token |
| Api.RefreshError | src/services/api.js:107-128 | The error a failed refresh rethrows: `Refresh failed: <status>` for a non-2xx reply, the network error for a rejected `fetch`, and the TypeError of reading `data.accessToken` for a `null` body |
| Api.NewAccessToken | src/services/api.js:111-177 | The token `fetchData` can retry with exists exactly when the refresh body is a non-null object whose `accessToken` member is a string, and it is that string |
| Api.StorageText | src/services/api.js:57-60 | What `localStorage.setItem` keeps: a missing member becomes "undefined", `null` becomes "null", a string is kept as it is |
| Api.ApiService.constructor | src/services/api.js:32-36 | The service starts not refreshing, with an empty queue and the base URL |
| Api.ApiService.ClearTokensAndRedirect | src/services/api.js:67-81 | Both tokens are removed and the user is sent to `/login` |
| Api.ApiService.ProcessQueue | src/services/api.js:136-146 | A loop settles every queued waiter as `SettleAll` says, then empties the queue |
| Api.ApiService.RefreshAccessToken | src/services/api.js:84-98 | While a refresh is in flight, a call only queues its caller and sends nothing. Without a refresh token the tokens are cleared, the user is redirected and `isRefreshing` stays true. Otherwise exactly one refresh request goes out |
| Api.ApiService.FinishRefresh | src/services/api.js:100-146 | A 2xx reply with a non-null body stores both members as `String(…)` (a missing one as "undefined"). It resolves every waiter with the `accessToken` member, or with `null` when that member is missing, because `processQueue`'s `token = null` default replaces `undefined`. A non-2xx status, a network error or a `null` body rejects every waiter with that error, clears the tokens and redirects. Either way `isRefreshing` is false, the queue is empty, and no request is sent |
| Api.ApiService.FetchData | src/services/api.js:149-215 | A non-401 reply changes no token. It succeeds exactly on 2xx and otherwise fails with the status or the network error. A 401 with a refresh token and no refresh in flight sends exactly one refresh, and a retry only when the refresh yields a string token. It succeeds exactly when that retry does. Any other 401 clears the tokens, redirects and fails. Every outcome is one `Explains` allows for the replies |
| Api.ApiService.RefreshAndRetry | src/services/api.js:166-193 | One refresh request. The original request is repeated once, with the new Bearer token, only when the refresh yields a string token. It succeeds exactly when the retry is 2xx, with the retry's body and the stored new tokens. Otherwise it fails with "Token refresh failed", the tokens are cleared and the user is redirected |
| Api.ApiService.RetryAfterRefresh | src/services/api.js:174-193 | Without a string token (a failed refresh, a missing or non-string `accessToken`) nothing is retried, because `newAccessToken.startsWith` throws. Otherwise exactly one retry carries `Bearer <token>`, and only a 2xx retry succeeds |
| Api.ApiService.Logout | src/services/api.js:272-290 | The server is told only when a refresh token is stored. Both tokens are cleared on every path |
| Api.ApiService.Register | src/services/api.js:244-270 | Exactly one register request goes out. It succeeds exactly on a 2xx reply whose body is not `null`, with that body. A `null` body fails with the TypeError of `data.accessToken`. Tokens are stored, as `String(…)`, only when both members are truthy; otherwise they are unchanged. Errors carry the status or the network message |
| Api.TokenField | src/services/api.js:261 | The member read from the reply body: present exactly when the body is an object holding that key, and then that member's value |
| Api.MissingRefreshTokenLeavesRefreshStuck | src/services/api.js:92-98 | From any idle state without a refresh token, the first refresh call is rejected and leaves `isRefreshing` true. The next call is queued with nobody left to settle it |
| Api.FirstSuccess | src/services/api.js:344-354 | The index of the first successful outcome; every earlier one failed |
| Api.ApiService.TryPath | src/services/api.js:344-352 | One path of a fallback loop: its Authorization is the one the stored token gives, and its outcome is one `Explains` allows. A call that ends the session leaves the tokens cleared. A non-401 reply changes nothing but the requests sent |
| Api.ApiService.TryPaths | src/services/api.js:343-354 | `fetchData` on each path in order, stopping at the first success, whose body is returned. When every path fails, all are tried and the last error is kept. Each outcome is one `Explains` allows. Once a call ends the session, every later request goes without Authorization. Without any 401, only the first request of each tried path is sent and the tokens are untouched |
| Api.ApiService.PerformFusion | src/services/api.js:329-355 | The first success among the ten fusion paths, with only the paths up to it tried. Otherwise every path is tried and the last error is thrown |
| Api.ApiService.GetFusionHistory | src/services/api.js:357-374 | The first success among the four history paths, or `[]` when all fail |
| Api.ApiService.GetFusionRecipes | src/services/api.js:376-393 | The first success among the four recipe paths, or `[]` when all fail |
| Realtime.Credential | src/services/socket.js:47-66 | The given token, or else the stored one, is used only when it is a string with a non-space character. A blank or non-string token means no credential |
| Realtime.ModeFor | src/services/socket.js:57-93 | A socket is authenticated exactly when there is a credential. Its authorization value starts with `Bearer ` |
| Realtime.IsTokenError | src/services/socket.js:118-126 | True exactly when the lower-cased message contains one of the seven keywords, or the error type is `UnauthorizedError` |
| Realtime.TokenErrorInContext | src/services/socket.js:118-126 | A message still counts as a token error when more text is added around it |
| Realtime.SilentErrorNeedsType | src/services/socket.js:118-126 | An error without a message is a token error only by its type |
| Realtime.SocketService.constructor | src/services/socket.js:5-8 | No socket, not connected |
| Realtime.SocketService.ClearTokensAndRedirect | src/services/socket.js:31-39 | Both tokens are removed and the user is sent to `/login` |
| Realtime.SocketService.Connect | src/services/socket.js:41-93 | A set socket that is connected is returned and no new one is made. Otherwise one new socket is opened, authenticated exactly when a usable credential exists. The earlier socket is left open |
| Realtime.SocketService.ConnectWithoutAuth | src/services/socket.js:172-183 | Always opens one new anonymous socket and makes it current |
| Realtime.SocketService.Disconnect | src/services/socket.js:221-227 | Afterwards there is no socket and the service is not connected. With no socket nothing changes |
| Realtime.SocketService.Emit | src/services/socket.js:260-294 | A message is sent on the current socket only when a socket exists and is connected; otherwise nothing is sent |
| Realtime.SocketService.Subscribe | src/services/socket.js:229-258 | A handler is attached to the current socket only when one exists |
| Realtime.SocketService.Deliver | src/services/socket.js:95-216 | connect and reconnect set `isConnected`; disconnect, connect_error and reconnect_failed clear it; reconnect_error keeps it. Only an authenticated socket sends `registerFE` on connect. A token error starts a refresh when a refresh token exists, otherwise it clears the tokens and redirects. Other errors change nothing else |
| Realtime.SocketService.FinishTokenRefresh | src/services/socket.js:352-366 | A usable refresh reply leaves the new token pair in storage, as `setTokens` writes it, and the current socket is closed and dropped. Any other reply clears the tokens and redirects the user |
| Realtime.ReconnectUsesFreshToken | src/services/socket.js:352-366 | After a refresh that yields a usable access token, the next `connect()` opens a socket authenticated with that new token, whatever the service held before |
| Realtime.StaleSocketStillCounts | src/services/socket.js:41-101 | From any state that is not connected, two `connect` calls with a usable credential open two sockets. The connect event of the first, replaced socket still marks the service connected and announces the frontend on the second |
| CardStyle.Hyphenate | src/components/CombinationModal.jsx:202 | The result has no white space and is no longer than the input |
| CardStyle.HyphenateKeepsPrefix | src/components/CombinationModal.jsx:202 | Text without white space passes through unchanged, whatever follows it |
| CardStyle.HyphenateJoinsWords | src/components/CombinationModal.jsx:202 | A run of white space between two words becomes exactly one `-` |
| CardStyle.RarityClass | src/components/CombinationModal.jsx:200-203 | `rarity-unknown` for a missing or empty rarity. Otherwise `rarity-` plus the lower-cased rarity with each run of white space replaced by one `-`, so the class is free of white space. The same definition appears at src/components/CardDetailModal.jsx:142-145 |
| CardStyle.RarityClassJoinsWords | src/components/CombinationModal.jsx:200-203 | A two-word rarity such as "AI Generated" gives `rarity-` plus the two lower-cased words joined by one `-` |
| CardStyle.ReachedMonotone | src/components/CardDetailModal.jsx:133-140 | A higher score reaches at least as many thresholds |
| Combination.RarityRank | src/components/CombinationModal.jsx:46-59 | The rank of a known rarity name; any other name ranks as Common |
| Combination.ResultRarity | src/components/CombinationModal.jsx:46-59 | One step below the higher of the two ranks, where a missing rarity is Common. Never Legendary |
| Combination.GenerateResult | src/components/CombinationModal.jsx:41-68 | The power is floor((p1+p2)/2) plus the roll, with a missing power taken as 0. The result also has the stepped-down rarity, the joined names, and the first image present |
| Combination.PowerBonus | src/components/CombinationModal.jsx:78-80 | The power term is one of +20, +10, −10 |
| Combination.Compatibility | src/components/CombinationModal.jsx:70-89 | The score is base 50 with the power term, +15 for equal rarity and the roll shifted to [−10, 9]. It always lies in [0, 100], and in fact in [30, 94], so the clamp never binds |
| Combination.CompatibilitySymmetric | src/components/CombinationModal.jsx:70-89 | Swapping the two cards does not change the score |
| Combination.CloserPowerScoresHigher | src/components/CombinationModal.jsx:75-80 | With the same roll and the same rarity relation, a partner closer in power never scores lower |
| Combination.CompatibilityColor | src/components/CombinationModal.jsx:91-96 | The colour of the tier: the number of the thresholds 40/60/80 that the score reaches |
| Combination.CompatibilityText | src/components/CombinationModal.jsx:98-103 | Poor/Fair/Good/Excellent, by the same tier as the colour |
| Combination.CompatibilityTierMonotone | src/components/CombinationModal.jsx:91-103 | Colour and text share one tier, and the tier never falls as the score rises |
| Combination.MakeCombination | src/components/CombinationModal.jsx:23-29 | Every pair's compatibility lies in [30, 94] |
| Combination.Candidates | src/components/CombinationModal.jsx:18-32 | A pair is listed exactly when the partner's `id` differs from the selected card's `_id` and `id` |
| Combination.InsertDesc | src/components/CombinationModal.jsx:35 | Inserting into a descending list keeps it descending and adds exactly that entry |
| Combination.InsertKeepsHead | src/components/CombinationModal.jsx:35 | Inserting a lower score after the head keeps the list descending |
| Combination.SortDesc | src/components/CombinationModal.jsx:35 | The result is descending by compatibility and a permutation of the input |
| Combination.CollectCandidates | src/components/CombinationModal.jsx:18-32 | The `forEach` loop pushes exactly the pairs that `Candidates` lists, in order |
| Combination.FindCombinations | src/components/CombinationModal.jsx:14-39 | min(10, candidates) entries, descending, drawn from the candidates. No candidate left out scores higher than one shown. Every entry pairs the selected card with an allowed partner |
| Combination.TopPrefix | src/components/CombinationModal.jsx:37 | A prefix of a descending list holds the highest scores |
| CardDetail.PowerClass | src/components/CardDetailModal.jsx:133-140 | `power-unknown` for a missing or zero power; otherwise the class of the number of thresholds 20/40/60/80 reached |
| CardDetail.PowerClassMonotone | src/components/CardDetailModal.jsx:133-140 | A stronger card never gets a lower power class |
| CardDetail.PowerText | src/components/CardDetailModal.jsx:45 | `Unknown` only for a missing power; 0 is shown as 0 |
| CardDetail.PowerBarWidth | src/components/CardDetailModal.jsx:83 | At most 100. It is 0 for a missing or zero power, and the power itself up to 100. There is no lower clamp |
| CardDetail.VisibleSections | src/components/CardDetailModal.jsx:56-103 | The id row appears exactly for a truthy `_id`, the parent list for at least one parent, and the evolution tree for at least two. The tree therefore implies the list |
| CardDetail.DescriptionText | src/components/CardDetailModal.jsx:39 | Never empty; a non-empty description is shown as it is |
| CardDetail.RarityLookupAsWritten | src/components/CardDetailModal.jsx:147-157 | The table value for the six table names. The inherited member for names of `Object.prototype` members, exactly. Otherwise 0 |
| CardDetail.InheritedRarityIsNotAPercentage | src/components/CardDetailModal.jsx:156 | The rarity `toString` yields a function, not a percentage |
| CardDetail.RarityPercentage | src/components/CardDetailModal.jsx:147-157 | The table value for a name in the table, otherwise 0. Always in [0, 100] |
| CardDetail.RarityPercentageAgrees | src/components/CardDetailModal.jsx:147-157 | Agrees with the lookup as written for every rarity that is not an inherited member name |
| Shop.ShopCardAt | src/pages/ShopGame/index.jsx:6-15 | Card i has id i+1, price 50(i+1), power 40+10i, type i mod 4, rarity i mod 3, and the numbered name and description |
| Shop.Catalogue | src/pages/ShopGame/index.jsx:6-15 | Twelve cards with strictly increasing ids |
| Shop.Filtered | src/pages/ShopGame/index.jsx:23-28 | The ordered subsequence of cards matching the type button and the case-insensitive search. Each matching card is kept as often as it occurs, and no other card is kept |
| Shop.EmptySearchKeepsAll | src/pages/ShopGame/index.jsx:23-28 | "all" with an empty search lists every card in order |
| Shop.EmptySearchKeepsType | src/pages/ShopGame/index.jsx:23-28 | With an empty search, the type buttons alone decide |
| Shop.BuyCheck | src/pages/ShopGame/index.jsx:30-38 | A purchase happens exactly when the card is not owned and affordable. Ownership is checked first |
| Shop.AlertText | src/pages/ShopGame/index.jsx:31-37 | An alert is raised exactly for a refused purchase |
| Shop.ButtonFor | src/pages/ShopGame/index.jsx:91-100 | The button is disabled exactly when the card is owned or unaffordable. Its label is Owned, then "Thiếu xu", then Buy |
| Shop.ButtonMatchesHandler | src/pages/ShopGame/index.jsx:30-100 | A button is enabled exactly when clicking it buys the card, and its label names the handler's reason for refusing |
| Shop.ShopPage.constructor | src/pages/ShopGame/index.jsx:20-21 | 1000 coins, nothing owned |
| Shop.ShopPage.HandleBuy | src/pages/ShopGame/index.jsx:30-41 | A refused purchase changes nothing. A purchase pays exactly the price and appends exactly that id. Coins stay non-negative and owned ids distinct |
| Collection.RarityLevel | src/pages/Collection/index.jsx:10-16 | The level of the k-th rarity is 2(k+1), one of 2/4/6/8/10 |
| Collection.InitialCardAt | src/pages/Collection/index.jsx:18-34 | Card i has id i+1, rarity i mod 5 with its level, variant i mod 3, and stats in [1, 10] |
| Collection.InitialCards | src/pages/Collection/index.jsx:18-34 | Twenty cards, the i-th built from the i-th rolls |
| Collection.RarityFilter | src/pages/Collection/index.jsx:61-63 | An empty filter keeps every card. Otherwise each card of that rarity is kept as often as it occurs, and no other card is kept, in order |
| Collection.NameLeTotal | src/pages/Collection/index.jsx:65-67 | Any two names are ordered one way or the other |
| Collection.InsertByName | src/pages/Collection/index.jsx:65-67 | Inserting into a name-sorted list keeps it sorted and adds exactly that card |
| Collection.SortByName | src/pages/Collection/index.jsx:64-68 | Sorted by name and a permutation of the input |
| Collection.Displayed | src/pages/Collection/index.jsx:61-68 | Always drawn from the cards. A permutation of the filtered cards, sorted when A–Z is on and the filtered list itself otherwise |
| Profile.FirstChar | src/pages/Profile/index.jsx:226 | `n[0]` of a segment: its first character, taken as one Unicode character, and nothing for an empty segment |
| Profile.Initials | src/pages/Profile/index.jsx:222-230 | "U" without a name. Otherwise the upper-cased first characters of the first two space-separated segments, at most two characters |
| Profile.InitialsTakeFirstTwoSegments | src/pages/Profile/index.jsx:222-230 | For a name `a b…` the initials are those of `a` and `b`; an empty segment contributes nothing |
| Profile.InitialsOfOneWord | src/pages/Profile/index.jsx:222-230 | A one-word name gives its upper-cased first character |
| Profile.CurrentUser | src/pages/Profile/index.jsx:246-248 | The stored user when it parses to a truthy value, otherwise the mock user |
| Profile.AvatarName | src/pages/Profile/index.jsx:311 | `displayName` when present, otherwise `username` |
| Profile.PasswordProblem | src/pages/Profile/index.jsx:252-259 | The form passes exactly when the new password has at least 6 characters and matches the confirmation. The length check comes first |
| Profile.ClientStorage | src/services/api.js:57-60 | The API client writes only `accessToken` and `refreshToken` |
| Profile.StoredTokenAsWritten | src/pages/Profile/index.jsx:263 | The page reads the key `token` |
| Profile.TokenKeyMissesClientStorage | src/pages/Profile/index.jsx:263 | With the client's storage, that read finds nothing |
| Profile.StoredToken | src/pages/Profile/index.jsx:263 | The corrected read of the access token key |
| Profile.ChangePasswordTargetAsWritten | src/pages/Profile/index.jsx:264 | The target built from the global `URL` constructor |
| Profile.TargetAsWrittenIsRelative | src/pages/Profile/index.jsx:264 | That target is not an absolute http(s) URL |
| Profile.ChangePasswordTarget | src/pages/Profile/index.jsx:264 | The corrected target: the API base URL followed by `/auth/change-password` |
| Profile.AuthorizationValue | src/pages/Profile/index.jsx:269 | `Bearer <token>` for a truthy token. Otherwise the text "undefined", which `fetch` makes of the `undefined` member of the headers record. It starts with `Bearer ` exactly when there is a token |
| Profile.RequestFor | src/pages/Profile/index.jsx:262-280 | The current password goes under all three alias fields, with `confirmPassword \|\| newPassword` and the user's email. The Authorization header is always sent: `Bearer <token>` for a truthy token, "undefined" otherwise |
| Profile.ChangeRequestAsWritten | src/pages/Profile/index.jsx:262-280 | The request as written goes to the target built from the global `URL`. It carries a Bearer credential exactly when the key `token` is stored, and the header text "undefined" otherwise |
| Profile.AsWrittenRequestLosesCredentials | src/pages/Profile/index.jsx:262-280 | After a login through the API client, the request as written carries the header text "undefined" and no Bearer credential, and its target is not an http(s) URL. The corrected one carries `Bearer <accessToken>` to the API server |
| Profile.ChangeRequest | src/pages/Profile/index.jsx:262-280 | The corrected request: sent to the API base URL, with a Bearer credential exactly when an access token is stored, and otherwise the same fields as the request as written |
| Profile.ValidatedRequestConfirmsNewPassword | src/pages/Profile/index.jsx:278 | Once validation has passed, the confirmation sent equals the new password |
| Profile.ErrorsText | src/pages/Profile/index.jsx:292 | `errors` is joined only when it is an array |
| Profile.BackendMessage | src/pages/Profile/index.jsx:292 | `message`, else `error`, else the joined `errors` |
| Profile.CompletionMessage | src/pages/Profile/index.jsx:281-296 | Never empty. Success: the server message or the success text. Failure: the backend message or the text with the status. A thrown error, including reading a null body, gives "Lỗi: " plus its message |
| Profile.PasswordForm.constructor | src/pages/Profile/index.jsx:242-244 | Empty fields, no message, not loading |
| Profile.PasswordForm.Edit | src/pages/Profile/index.jsx:401-429 | The inputs take the typed values; they are disabled while loading |
| Profile.PasswordForm.Submit | src/pages/Profile/index.jsx:250-280 | A rejected form sets the message, stays idle and sends nothing. Otherwise loading starts, the message is cleared and exactly one request goes out: the corrected request `ChangeRequest` |
| Profile.PasswordForm.Complete | src/pages/Profile/index.jsx:281-299 | Loading ends on every path with the completion message. The three fields are cleared only after a success |
| Profile.SubmitLabel | src/pages/Profile/index.jsx:444 | The caption while loading and when idle |
| ResetPassword.ResetProblem | src/pages/ResetPassword/index.jsx:21-28 | The form passes exactly when the password has at least 6 characters and matches the confirmation. The length check comes first |
| ResetPassword.NormalizeToken | src/pages/ResetPassword/index.jsx:33 | The token with every white-space character removed. The result holds no white space |
| ResetPassword.NormalizeIdempotent | src/pages/ResetPassword/index.jsx:33 | Normalising twice equals normalising once |
| ResetPassword.NormalizeIgnoresInsertedSpace | src/pages/ResetPassword/index.jsx:32-33 | White space inserted anywhere in a token (line breaks from the e-mail) does not change the result |
| ResetPassword.NormalizedEmptyIffBlank | src/pages/ResetPassword/index.jsx:33-34 | The token is refused exactly when the field holds only white space |
| ResetPassword.CompletionMessage | src/pages/ResetPassword/index.jsx:46-54 | Never empty. Success: the server message or the success text. Failure: the server message or the text with the status. A thrown error, including an unparsable or null body, gives "Lỗi: " plus its message |
| ResetPassword.FailureMessage | src/pages/ResetPassword/index.jsx:51 | The fallback text carries the HTTP status |
| ResetPassword.ThrownMessagesAreRed | src/pages/ResetPassword/index.jsx:79-80 | Every message from the `catch` is styled as an error |
| ResetPassword.IsErrorStyle | src/pages/ResetPassword/index.jsx:79-80 | A message is red exactly when its lower-cased text contains "lỗi", and green otherwise |
| ResetPassword.GreenWithoutLetter | src/pages/ResetPassword/index.jsx:79-80 | A message without the letter "ỗ" is styled as a success |
| ResetPassword.ValidationMessagesAreGreen | src/pages/ResetPassword/index.jsx:79-80 | Both validation messages are styled like a success |
| ResetPassword.InvalidTokenMessageIsGreen | src/pages/ResetPassword/index.jsx:79-80 | The refused-token message is styled like a success |
| ResetPassword.FailureFallbackIsGreen | src/pages/ResetPassword/index.jsx:79-80 | The HTTP-failure fallback and the success text are both styled as a success |
| ResetPassword.ResetForm.constructor | src/pages/ResetPassword/index.jsx:13-17 | The token comes from the query parameter or is empty. Not loading, no message |
| ResetPassword.ResetForm.EditToken | src/pages/ResetPassword/index.jsx:69 | The textarea keeps the trimmed value |
| ResetPassword.ResetForm.EditPasswords | src/pages/ResetPassword/index.jsx:90-106 | The inputs take the typed values; they are disabled while loading |
| ResetPassword.ResetForm.Submit | src/pages/ResetPassword/index.jsx:19-45 | A rejected form only sets the message. A blank token sets its message, ends loading and sends nothing. Otherwise loading starts and exactly one request goes out, carrying the normalised, non-empty, space-free token and the new password |
| ResetPassword.ResetForm.Complete | src/pages/ResetPassword/index.jsx:46-57 | Loading ends on every path with the completion message. The redirect to `/login` is scheduled only after a success |
| ResetPassword.SubmitLabel | src/pages/ResetPassword/index.jsx:112 | The caption while loading and when idle |
| CardLibrary.Filtered | src/components/CardLibrary.jsx:32-35 | The ordered subsequence of cards the filter keeps. Each kept card appears as often as it occurs, and no other card appears |
| CardLibrary.AllKeepsEverything | src/components/CardLibrary.jsx:33 | "all" keeps every card in order |
| CardLibrary.FilterDropsUnrated | src/components/CardLibrary.jsx:34 | Any other filter keeps only cards whose rarity matches up to case, and drops every card without a rarity |
| CardLibrary.HeaderCount | src/components/CardLibrary.jsx:68 | The count is the length of the filtered list: never above the cards loaded, and all of them under "all" |
| CardLibrary.FallbackText | src/components/CardLibrary.jsx:86 | The name, or `card`, then `-` and the position |
| CardLibrary.CardKey | src/components/CardLibrary.jsx:86 | The id unless it is null or undefined; otherwise the fallback text |
| CardLibrary.ShorterSuffixDiffers | src/components/CardLibrary.jsx:86 | Fallback texts whose positions differ in digit count differ |
| CardLibrary.FallbackKeysDistinct | src/components/CardLibrary.jsx:86 | Fallback keys at different positions always differ, whatever the names |
| CardLibrary.ItemClass | src/components/CardLibrary.jsx:87 | A tile is marked `selected` exactly when its id is in the selected list |
| CardLibrary.PowerLabel | src/components/CardLibrary.jsx:102 | A missing or zero power shows "?" |
| CardLibrary.LibraryPanel.constructor | src/components/CardLibrary.jsx:6-9 | No cards, loading, no error, filter "all" |
| CardLibrary.LibraryPanel.BeginLoad | src/components/CardLibrary.jsx:14-15 | Loading, error cleared |
| CardLibrary.LibraryPanel.FinishLoad | src/components/CardLibrary.jsx:16-26 | Success keeps the cards. A failure or a null body leaves no cards and the error set. Loading is false after either outcome |
| CardLibrary.LibraryPanel.SetFilter | src/components/CardLibrary.jsx:71 | The select's value becomes the filter |
| CardLibrary.Render | src/components/CardLibrary.jsx:43-68 | Loading first, then a non-empty error. Otherwise the list view of the filtered cards with their count |
| Base.Truthy | src/pages/Profile/index.jsx:247 | JavaScript truthiness of a parsed value: `null`, `false`, `0` and the empty string are falsy, and every array and object is truthy |
| Base.OrElse | src/pages/Profile/index.jsx:288 | `s \|\| fallback`: the string when it is present and non-empty, the fallback otherwise |
| Base.StringField | src/services/api.js:261 | A member is read only when it is a string member of an object |
| Base.Member | src/services/api.js:114-122 | Member access `data.key`: present exactly when the value is an object holding the key, and then that member |
| Base.JsonText | src/pages/Profile/index.jsx:292 | `String(x)` as `join` renders an element: a string as itself, `null` as nothing, an object as `[object Object]` |
| Base.Filter | src/components/CardLibrary.jsx:32 | `Array.prototype.filter`: each accepted element as often as it occurs, no other element, in order |
| Text.IsSpace | src/pages/ResetPassword/index.jsx:33 | The characters of the regular-expression class `\s`, which are also the ones `trim` removes |
| Text.Lower | src/services/socket.js:118 | `toLowerCase`: same length, and each character lower-cased on its own |
| Text.Upper | src/pages/Profile/index.jsx:229 | `toUpperCase`: same length, and each character upper-cased on its own |
| Text.Trim | src/pages/ResetPassword/index.jsx:33 | `trim`: the result starts and ends without white space, is empty exactly for blank text, and leaves text without white space unchanged |
| Text.TrimCutsSpace | src/pages/ResetPassword/index.jsx:33 | `trim` keeps a contiguous slice of the text, and everything it cuts from either end is white space |
| Text.IntToString | src/components/CardLibrary.jsx:86 | `String(n)` in a template string: at least one character, the decimal digits for a natural number, and a leading minus sign otherwise |
| Text.Split | src/pages/Profile/index.jsx:225 | `split` on a one-character separator: at least one part, and no part contains the separator |
| Text.Join | src/pages/Profile/index.jsx:228 | `join`: nothing for no parts. `Text.JoinSplit` shows that it undoes `Split` |
| Text.RemoveSpaces | src/pages/ResetPassword/index.jsx:33 | No white space is left; text without white space is unchanged |
| Text.RemoveSpacesAppend | src/pages/ResetPassword/index.jsx:33 | Removing white space distributes over concatenation |
| Text.RemoveSpacesEmpty | src/pages/ResetPassword/index.jsx:33-34 | Nothing is left exactly when the text was blank |
| Text.NatToStringInjective | src/components/CardLibrary.jsx:86 | Different numbers are written differently |
| Text.JoinSplit | src/pages/Profile/index.jsx:225-228 | Joining the parts of a split with the separator gives back the text |
| Text.SplitAtSeparator | src/pages/Profile/index.jsx:225 | Splitting at the first separator gives the text before it, then the split of the rest |
| Text.Contains | src/services/socket.js:118-126 | `includes`: the pattern occurs at some position of the text |
| Text.StartsWith | src/services/api.js:157 | `startsWith`: the text is at least as long as the prefix and begins with it |
| Text.ContainsWithin | src/services/socket.js:118-126 | Text around a contained string keeps it contained |
| Text.ContainsOnlyOwnChars | src/services/api.js:15 | A string with a character missing from the text is not contained in it |
| Text.Endpoint | src/pages/ResetPassword/index.jsx:40 | A request target is the base URL followed by exactly the path |

## Left out

- Transport is left out. HTTP (`fetch`), Socket.IO (`io(...)`) and the Express relay are replies and events passed in. The model does not decide which event a socket delivers or when.
- `localStorage` is left out. In the API client and the socket service it is the pair of token fields. In the profile page it is a map. The `try`/`catch` around storage access that can throw is not modelled.
- The redirect `window.location.href = '/login'` is a flag, and the page that loads afterwards is not modelled.
- Timers are left out. These are the delayed `connect()` after a token refresh, `forceReconnect`, and the 1.2-second redirect after a reset. The delayed call is the caller's next step.
- The dynamic `import('./api.js')` in `handleTokenRefresh` is left out: `FinishTokenRefresh` takes the refresh outcome as an input.
- `getConnectionStatus`, `debugStatus`, `getSocket`, `isSocketConnected` and logging only read state or print it, so they are not modelled.
- `Math.random()` is left out. Each draw is an integer parameter in its range.
- Floating point is left out. The power bar's `power / 100 * 100` is modelled as the integer power. The Collection scroll effect is not modelled.
- Lower, Upper: only ASCII letters change case. `toLowerCase`/`toUpperCase` also map other scripts, e.g. "LỖI" → "lỗi". So these are exact only for ASCII capitals: `ResetPassword.IsErrorStyle`, the `Initials` of non-ASCII names, `Realtime.IsTokenError` (in JavaScript "CHƯA ĐĂNG NHẬP" lower-cases to the keyword "chưa đăng nhập", in the model it does not), and `CardLibrary.Keeps` (a rarity such as "ÉPIC" matching the filter "épic").
- Collection.NameLe: `localeCompare` is modelled as code-point order. Locale collation is not modelled.
- Profile.FirstChar, Profile.Initials: a segment whose first character lies outside the Basic Multilingual Plane contributes that whole character in the model. In JavaScript `n[0]` is only its high surrogate, so "😀 Bob" gives "😀B" in the model and a lone surrogate followed by "B" in the browser.
- Password lengths are counted in characters. JavaScript counts UTF-16 code units, which differ only outside the Basic Multilingual Plane.
- JSON fields the source reads as strings, such as a message, count only when they are JSON strings. Token members are the exception: they are kept as any JSON value and stored as `String(value)`.
- Api.ApiService.FetchData: the refresh inside `fetchData` runs as one step with its replies, so nothing else can happen while `isRefreshing` is raised there. A caller queueing during a refresh is modelled only through `RefreshAccessToken` and `FinishRefresh`. The same holds for `Register`, `Logout`, `TryPath`, `TryPaths` and the three fusion methods.
- A reply body that is not valid JSON, where `response.json()` throws, is not modelled. Every reply carries a parsed body.
- `login`, `getAllCards`, `getCardById`, `createCard`, `updateCard`, `deleteCard`, `mergeCards`, `getUserCards` and `getUserFusionHistory` are one-line calls of `fetchData` and are not modelled separately.
- Api.ApiService.TryPaths: every path's request is the one `fetchData` sends for it. The request body of `performFusion` (the fusion data) is not modelled.
- Profile.PasswordForm.Submit sends the corrected request `ChangeRequest`. The request as written is `ChangeRequestAsWritten`, and `AsWrittenRequestLosesCredentials` shows how the two differ.
- Combination.FindCombinations: the combination `id` string (used only as a React key) is not modelled. The `loading` flag, which is set and cleared within one synchronous call, is not modelled. The sort is proved to be a descending permutation. That it is stable is not proved.
- CardLibrary.LibraryPanel.FinishLoad: a body that is neither an array nor `null` is not modelled.
- Realtime.SocketService.Deliver: the Socket.IO reconnection schedule (three attempts, delays) is not modelled. The guard on which events may follow which is not modelled either: any event may arrive on any open socket.
- The browser's `required`/`minLength` form validation is not modelled. The handlers' own checks are.
- Shop.ShopPage.HandleBuy: React's state batching is not modelled. The handler reads the state of the last render, and each call is modelled as seeing the result of the previous one.
- Views, layout and styling outside the rules above are not modelled. These are the page components, the Login/Register/ForgotPassword forms, the FusionGuide static tree and the `useSocket` hook.

## Findings

| source | as written | input that shows it | evidently intended | confidence | as-written member | corrected member |
|---|---|---|---|---|---|---|
| src/components/CardDetailModal.jsx:147-157 | `rarityMap[rarity] \|\| 0` looks the rarity up on a plain object literal, which also finds the members inherited from `Object.prototype` | rarity `"toString"`: the lookup yields a function, which is truthy, so it becomes the bar width | the table percentage for the six names, and 0 for anything else | not executed | CardDetail.RarityLookupAsWritten | CardDetail.RarityPercentage |
| src/pages/Profile/index.jsx:264 | `${URL}` in a module that does not import the API's `URL`, so it is the global `URL` constructor | any submission: the target is `function URL() { [native code] }/auth/change-password`, a path relative to the page | the API base URL followed by `/auth/change-password`, as in src/pages/ResetPassword/index.jsx:40 | not executed | Profile.ChangePasswordTargetAsWritten | Profile.ChangePasswordTarget |
| src/pages/Profile/index.jsx:263 | the token is read from the storage key `token`, which the API client never writes (it writes `accessToken` and `refreshToken`) | storage after a login `{accessToken: "a", refreshToken: "r"}`: the header `Authorization: undefined` is sent instead of a Bearer credential | the access token under `accessToken` | not executed; a file outside this model could write `token` | Profile.StoredTokenAsWritten | Profile.StoredToken |

The lemmas `CardDetail.InheritedRarityIsNotAPercentage`,
`Profile.TargetAsWrittenIsRelative` and `Profile.TokenKeyMissesClientStorage`
show each discrepancy on the inputs named above.

The reset-password page colours a message red only when its lower-cased text
contains "lỗi". `ResetPassword.ValidationMessagesAreGreen`,
`InvalidTokenMessageIsGreen` and `FailureFallbackIsGreen` show that its
validation, refused-token and HTTP-failure messages are all shown in the success
colour. The profile page tests for "lỗi" or "không" instead
(src/pages/Profile/index.jsx:394). The model states the reset page's test as
it is written and lists no finding for it.
