# E-Place client core in Dafny

E-Place is a browser client for a shared pixel canvas. Users sign in with
Forge ID, an OpenID-style provider. The client keeps the token pair in
`localStorage` and talks to the API through a request executor that
refreshes tokens. It holds one socket.io socket, subscribes to a room's
canvas and chat streams, and decodes the packed canvas the API returns.
This project models the logic of those pieces and proves what they promise.

- `Wrappers.dfy` holds the `Option` type.
- `Canvas.dfy` models `src/pages/index.js`:
  - `RoomSlug` reads the room slug from the path.
  - `ReadGroups`/`DecodePixels` decode a packed canvas string into color indices. This is a `while` loop with invariants, proved against the function `Decoded`.
  - `OnPixelUpdate`/`DrawTrace` filter live pixel updates by room.
- `Auth.dfy` models `src/utils/auth.js`:
  - the token store is a `map<string, string>`;
  - expiry is checked over abstract claims;
  - the pure transitions `Refresh`, `Exchange` and `ApiRequest` give the new store, the effects the outside world sees (requests sent, navigations, alerts) and the returned value;
  - the class `Browser` holds `storage` and `effects`, updates them in place as the JavaScript does, and its methods are proved equal to the transitions.
- `Streams.dfy` models `src/utils/streams.js`. The class `Transport` holds:
  - the module-level `socket` variable;
  - a counter of sockets created;
  - a log of transport events (open, disconnect, emit, listen, stop listening).

  Its invariant `Valid` says that the only live socket is the one `socket` holds. `InitSocket`, the `connect_error` handler and `SubscribeToRoom` preserve that invariant. Incoming subscription messages are an input trace, and `FirstAck` says where the wait for the acknowledgment ends.

What is not modelled and becomes a parameter:

| not modelled | becomes |
|---|---|
| every `fetch` outcome | an argument (`Reply`, `TokenReply`) |
| the clock | the argument `now` |
| `uuidv4` | the ids `canvasId`/`chatId` |
| the location path | the argument `pathname` |
| deployment URLs and client id | `Env` |

The model keeps these behaviours of the code, some of which a reader might not expect:
- `isTokenExpired` treats `exp * 1000 == now` as not expired.
- A non-ok refresh response returns `undefined` and does not clear the store.
- A non-ok token exchange clears the store and redirects to login itself.
- A token exchange whose request throws, or whose body cannot be read, alerts and leaves the stored tokens as they were.
- `authedAPIRequest` neither redirects nor reauthenticates on a non-401 error status. It resolves to `undefined`.
- A failed retry is not caught: `return fetch(...)` inside the `try` of `authedAPIRequest` is not awaited, so the promise rejects.
- `initSocket` goes on with an empty stored token, because it tests `token === null`. The socket then gets no `Authorization` header, since `""` is falsy.
- On the `connect_error` path with a new token and no socket, `socket.disconnect()` throws and the `catch` redirects to login.

## Model

| member | source | states |
|---|---|---|
| Canvas.Binary | src/pages/index.js:93 | `toString(2)` has at least one digit, denotes `n`, is `[0]` for zero and starts with 1 otherwise |
| Canvas.BinaryLength | src/pages/index.js:93 | the binary digits of `n` fit in `k` digits exactly when `n < 2^k` |
| Canvas.ValueBound | src/pages/index.js:100 | `parseInt(s, 2)` of `k` digits is below `2^k` |
| Canvas.ValueLeadingZeros | src/pages/index.js:93 | leading zeros do not change the value of a digit string |
| Canvas.PadStart | src/pages/index.js:93 | `padStart(width, "0")` keeps the string as its suffix, fills only zeros in front, never truncates, and keeps the value |
| Canvas.CharBitsShape | src/pages/index.js:93 | a character's bits denote its code unit; they are 8 long exactly when the code unit is below 256, and longer otherwise |
| Canvas.BitsLength | src/pages/index.js:91-94 | the joined bit string has at least `8·n` bits, and exactly `8·n` iff every code unit is below 256 |
| Canvas.FixedWidthSlice | src/pages/index.js:91-94 | with code units below 256, character `j` owns bits `8j..8j+8` |
| Canvas.FixedWidthChar | src/pages/index.js:91-94 | with code units below 256, bits `8j..8j+8` denote code unit `j` |
| Canvas.Groups | src/pages/index.js:99-100 | there are `floor(|bits|/5)` complete groups; group `k` is the value of bits `5k..5k+5` and lies below 32 |
| Canvas.ReadGroups | src/pages/index.js:97-101 | the loop yields exactly the first `min(maxPx, floor(|bits|/5))` groups, in order; a trailing partial group is dropped |
| Canvas.DecodePixels | src/pages/index.js:91-101 | the decoder is total; its output length is `min(canvasDimensions², floor(|bits|/5))`; every value is below 32 and is the value of bits `5k..5k+5` |
| Canvas.DecodedShape | src/pages/index.js:96-101 | the decoded length and the value of each pixel, stated on the specification function |
| Canvas.DecodedMonotone | src/pages/index.js:99-101 | a larger canvas gives a longer or equal output that extends the smaller one |
| Canvas.DecodedFixedWidth | src/pages/index.js:91-101 | with code units below 256 the output length is `min(canvasDimensions², floor(8n/5))`, and pixel `k` is the value of bits `5k..5k+5`, all within the `8n` bits |
| Canvas.DecodeExample | src/pages/index.js:91-101 | code units [5, 3] decode to [0, 20, 1] on any canvas of side at least 2, and the trailing bit is dropped |
| Canvas.Split | src/pages/index.js:26-27 | `split("/")` yields at least one piece, and no piece contains `/` |
| Canvas.SplitJoin | src/pages/index.js:26-27 | joining the pieces with `/` gives the path back |
| Canvas.NonEmpty | src/pages/index.js:28 | survivors and non-empty pieces coincide as members; the first survivor is the first non-empty piece, and none survives iff every piece is empty |
| Canvas.NonEmptyConcat | src/pages/index.js:28 | filtering a concatenation is the concatenation of the filtered parts |
| Canvas.NonEmptyAppend | src/pages/index.js:28 | the filter distributes over concatenation and keeps a single piece exactly when it is non-empty, so order and multiplicity are those of the input |
| Canvas.RoomSlug | src/pages/index.js:24-31 | the slug is never empty and never contains `/` |
| Canvas.RoomSlugIsFirstSegment | src/pages/index.js:24-31 | the slug is the first non-empty segment, or `epi-place` exactly when the path is only slashes or that segment is `epi-place` |
| Canvas.OnPixelUpdate | src/pages/index.js:105-111 | an update is drawn iff its room is the subscribed room, and then with its own color and position |
| Canvas.DrawTraceAppend | src/pages/index.js:105-111 | the draw calls for two streams of updates, one after the other, are the calls of each in order |
| Canvas.OtherRoomIgnored | src/pages/index.js:108-110 | removing an update for another room from anywhere in the stream leaves the draw calls unchanged |
| Canvas.DrawTraceSound | src/pages/index.js:105-111 | every draw call comes from an update for the subscribed room; when all updates are for that room, draw call `i` is update `i`'s color and position, and there are no others |
| Auth.IsAuthenticated | src/utils/auth.js:116-118 | the user is authenticated exactly when a token is stored and it is not empty |
| Auth.SaveClearKeys | src/utils/auth.js:10-18 | saving sets both keys to the given values, clearing removes both, and no other key changes |
| Auth.SaveClearEffect | src/utils/auth.js:10-18 | both keep the keys paired; after a save the user is authenticated iff the token is non-empty; after a clear never; clearing is idempotent and undoes a save |
| Auth.IsTokenExpired | src/utils/auth.js:141-149 | unparsable claims, a missing `exp` and a zero `exp` are expired |
| Auth.ExpiryExact | src/utils/auth.js:141-149 | a token is live iff its claims parse, `exp` is present and non-zero, and `now <= exp*1000` |
| Auth.ExpiryMonotone | src/utils/auth.js:148 | an expired token stays expired as the clock advances |
| Auth.NormalizeEndpoint | src/utils/auth.js:154-156 | the path starts with `/api/`; one already under `/api/` is kept; otherwise it is the endpoint with one leading `/` removed, after `/api/` |
| Auth.NormalizeIdempotent | src/utils/auth.js:154-156 | normalising twice is normalising once |
| Auth.HeaderRules | src/utils/auth.js:158-161 | `Authorization: Bearer <token>` is added only for a truthy token and overrides the caller's; the retry always carries the new token; other caller headers are kept |
| Auth.RefreshEffects | src/utils/auth.js:78-98 | one token request is sent exactly when a non-empty refresh token is stored |
| Auth.RefreshOutcomes | src/utils/auth.js:76-114 | no refresh token: null and the store unchanged; an exception from the request or from reading the body: the store cleared and null; non-ok: undefined and the store unchanged; success: the new pair saved and the new `id_token` returned |
| Auth.RefreshStoresReturnedToken | src/utils/auth.js:104-108 | a usable token returned by the refresh is the stored token, so the user is authenticated |
| Auth.RefreshAsksNoApi | src/utils/auth.js:84-98 | a refresh asks only the token endpoint |
| Auth.RefreshKeepsPairs | src/utils/auth.js:76-114 | a refresh never leaves one token key without the other |
| Auth.ExchangeOutcomes | src/utils/auth.js:36-74 | one code request comes first; on success the returned data is the saved pair and nothing else is done; a thrown request or an unreadable body alerts and leaves the store untouched; a non-ok status clears the store and redirects to login |
| Auth.ExchangeKeepsPairs | src/utils/auth.js:36-74 | the exchange never leaves one token key without the other |
| Auth.ApiPolicy | src/utils/auth.js:165-211 | a failed first request alerts `API request failed: <message>` unless the message is `Authentication required`, returns nothing and leaves the store as it was; ok is returned as is; another non-401 status returns nothing without a redirect; a 401 without the marker redirects; with it, exactly one refresh and either one retry with `Bearer <new token>` whose outcome is returned while the refreshed pair stays stored, or a redirect with both keys removed |
| Auth.UnauthorizedPolicy | src/utils/auth.js:175-197 | the 401 branch of the policy, case by case: the redirect without the marker; with it, the single refresh request and then either the retry, with the refreshed pair stored, or the redirect with both keys removed |
| Auth.UnauthorizedAsksOnce | src/utils/auth.js:180-197 | after a 401 the API is asked at most once more |
| Auth.AtMostOneRetry | src/utils/auth.js:165-199 | the first attempt is the first effect, and the API (every request without a form body) is asked at most twice |
| Auth.ApiRequestKeepsPairs | src/utils/auth.js:151-211 | a request never leaves one token key without the other |
| Auth.Browser.GetToken | src/utils/auth.js:2-4 | the stored token, and nothing exactly when none is stored |
| Auth.Browser.GetRefreshToken | src/utils/auth.js:6-8 | the stored refresh token, and nothing exactly when none is stored |
| Auth.Browser.SaveTokens | src/utils/auth.js:10-13 | the two writes, one after the other, give the saved store |
| Auth.Browser.ClearTokens | src/utils/auth.js:15-18 | the two removals give the cleared store, and the user is no longer authenticated |
| Auth.Browser.RedirectToLogin | src/utils/auth.js:20-34 | the store is cleared first, then the login navigation is recorded |
| Auth.Browser.RefreshToken | src/utils/auth.js:76-114 | the new store, the recorded effects and the result are those of `Refresh` |
| Auth.Browser.ExchangeCodeForTokens | src/utils/auth.js:36-74 | the new store, the recorded effects and the result are those of `Exchange` |
| Auth.Browser.AuthedApiRequest | src/utils/auth.js:151-211 | the new store, the recorded effects and the result are those of `ApiRequest` |
| Auth.Browser.HandleUnauthorized | src/utils/auth.js:175-197 | the 401 branch performs exactly the `Unauthorized` transition |
| Streams.FirstAck | src/utils/streams.js:119-133 | the wait ends at an acknowledging message with none before it; with no acknowledgment it never ends |
| Streams.FirstAckPrefix | src/utils/streams.js:119-133 | messages after the acknowledgment change nothing |
| Streams.FirstAckSkipsUnrelated | src/utils/streams.js:122-129 | inserting a message that does not acknowledge leaves the outcome and the acknowledging message unchanged |
| Streams.ConnectHeaders | src/utils/streams.js:16-22 | the socket carries `Authorization: Bearer <token>` exactly when the token is truthy, and no other header |
| Streams.LiveTraffic | src/utils/streams.js:117-150 | emitting and listening neither open nor close sockets |
| Streams.Transport.constructor | src/utils/streams.js:6 | there is no socket at first |
| Streams.Transport.InitSocket | src/utils/streams.js:13-32 | no token or an existing socket: nothing changes and nothing is returned; otherwise one socket with the token's headers becomes the singleton and is returned; the singleton invariant is kept |
| Streams.Transport.OnConnectError | src/utils/streams.js:42-70 | a non-auth error only alerts; an auth error refreshes, and with a new token disconnects the old socket and opens one with the new token, or otherwise redirects to login |
| Streams.Transport.SubscribeToRoom | src/utils/streams.js:92-153 | the canvas request is emitted and the listener added; on the first acknowledgment the listener is removed and then the chat request emitted; no socket rejects |

## Left out

- `parseJWT` (base64url, `atob`, `decodeURIComponent`, `JSON.parse`): foreign library code. Its result is the argument `Option<Claims>`, and `exp` is an integer.
- `fetch`, `localStorage` durability, `URL`/`URLSearchParams` encoding and `window.location` navigation: these are I/O. Requests are recorded as `Fetch`, navigations as `Navigate` with the query pairs, and `createAlert` as `Alert` with the message only.
- `Date.now`: the argument `now`.
- socket.io connection, reconnection and event delivery: outside the model. The `connect` and `disconnect` handlers only log and alert, and they are not modelled. An exception from `io()` inside `initSocket` is not modelled either.
- `uuidv4`: the ids are arguments.
- console logging: left out.
- Concurrency: the interleaving of promises is not modelled, and neither is the race between a refresh from the request executor and one from the socket handler. Every operation runs to completion on the state it starts from.
- The DOM work in `fetchRoomConfig`, `initCanvas`, `renderCanvasUpdate`, `calculateLayout` and `./debug`: UI code. The orchestration in `init` beyond the decoder and the update filter only sequences these calls.
- src/pages/complete/epita/index.js: not part of this model. It reads the `code` query parameter, returns when there is none, calls `exchangeCodeForTokens` and then navigates to `/`. On a thrown error it alerts `Authentication failed: <message>` and calls `redirectToLogin` after three seconds. Its navigation and timer are page I/O.
- Auth.Browser.AuthedApiRequest: does not model `response.text()` throwing. Only the method and headers of the options are modelled.
- Canvas.DecodePixels: `canvasDimensions` is a natural number. A fractional or non-numeric configuration value is not modelled.
- Streams.Transport.SubscribeToRoom: models only messages that parse into an `Incoming` record. A `null` message makes the JavaScript handler throw, and that case is not modelled.
