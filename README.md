# Fasal Mitra — a verified model of its stateful core

Fasal Mitra is a farming assistant. It has a React client and an Express/Mongoose server. This project models, in Dafny, the parts of it that hold logic rather than layout:

- **Crop chat room** (`useChat`, the socket singleton, the chat page):
  - room join and leave;
  - the append-only message list;
  - the single typing indicator and the `typing` / `stop_typing` debounce;
  - the send guards;
  - the identity defaults.
- **Saved crops and search history**, on both sides:
  - server: registration and login outcomes, the `$pull`/`$addToSet` toggle, the ten-entry history window;
  - client: the auth context that mirrors the saved list.
- **Orders**: the order amount in rupees and paise, the payment-signature check with its `pending` → `paid`/`failed` transition, and a user's order list newest first.
- **Price comparison** on the product page: the stable sort by price, the auto-selection of the cheapest listing, the badges and the buy guard.
- **Small rules and widgets**:
  - the crop season tabs;
  - the route guard;
  - the humidity alerts;
  - the image-diagnosis widget's state machine and confidence bands.

Form of the model:
- Code that updates state step by step is modelled as classes whose methods state the entire new state:
  - the socket and its slot;
  - the chat session and page;
  - the user and order stores;
  - the auth context;
  - the product page;
  - the diagnosis widget.
- Each outbound socket event is appended to the socket's `outbox`.
- Time is an explicit clock in milliseconds.
- Server responses, the payment gateway, bcrypt's compare and HMAC-SHA256 (RFC 2104) are parameters of the methods.

Pure expressions are modelled as functions with lemmas. JavaScript semantics the code relies on are written out:
- `String.prototype.trim` strips the white space and line terminator code points of sections 12.2 and 12.3 of ECMA-262.
- `replace` with a string pattern removes only the first occurrence.
- `x || d` treats an absent value and `""` alike.
- An empty array is truthy.

Modules: `Options`, `Seqs` (order-preserving filter), `Text` (trim, first-occurrence search), `Schemas` (the Mongoose enumerations and defaults), `ChatEvents`, then one module per modelled source file.

## Model

| member | source | states |
|---|---|---|
| Text.Trim | client/src/pages/Chat.tsx:38-39 | The result is the slice of the input left after cutting a white-space prefix and a white-space suffix. It is empty exactly when the input is all white space; otherwise it starts and ends with a non-space. |
| Text.TrimIdempotent | client/src/pages/Chat.tsx:38-39 | Trimming an already trimmed text changes nothing. |
| Text.FindFrom | client/src/services/socketService.ts:5 | Returns the first index at or after `from` where the pattern occurs, or none exactly when it occurs nowhere there. |
| Text.RemoveFirst | client/src/services/socketService.ts:5 | Without an occurrence the text is unchanged. Otherwise only the first occurrence of the pattern is cut out. |
| Seqs.Filter | client/src/context/AuthContext.tsx:80 | Keeps exactly the elements satisfying the predicate, each as often as in the input. |
| Schemas.ParseRole | server/src/models/User.ts:25 | Accepts exactly `farmer` and `expert`, and inverts `RoleName`. |
| Schemas.ParseLanguage | server/src/models/User.ts:26 | Accepts exactly `en` and `hi`. |
| SocketService.Socket.constructor | client/src/services/socketService.ts:9-15 | A new socket has credentials, both transports and reconnection on, 5 attempts and a 1000 ms delay. It starts unconnected with an empty outbox. |
| SocketService.Socket.Emit | client/src/hooks/useChat.ts:26 | An emitted event is appended to the outbox; nothing else changes. |
| SocketService.Socket.Disconnect | client/src/services/socketService.ts:32 | The socket ends unconnected and inactive; its outbox is kept. |
| SocketService.SocketUrlAsWritten | client/src/services/socketService.ts:5 | The socket URL as the source derives it: the first `/api` is removed, falling back to `http://localhost:8000` when the API URL is absent or the result is empty. |
| SocketService.SocketUrl | client/src/services/socketService.ts:5 | The corrected derivation: a trailing `/api` is stripped, with the same fallback. Any other URL is kept as is. |
| SocketService.SocketUrlOfApiBase | client/src/services/socketService.ts:5 | For every non-empty server base, the corrected URL of `base + "/api"` is `base`. |
| SocketService.SocketUrlAsWrittenOfPlainBase | client/src/services/socketService.ts:5 | The source's derivation gives `base` back whenever `/api` does not already occur inside `base`. |
| SocketService.SocketUrlAsWrittenMangles | client/src/services/socketService.ts:5 | `https://api.in/api` becomes `https:/.in/api` as written, but `https://api.in` when corrected. |
| SocketService.SocketSlot.constructor | client/src/services/socketService.ts:3 | The module-level slot starts empty. |
| SocketService.SocketSlot.Connect | client/src/services/socketService.ts:7-26 | Returns the socket already in the slot without creating one. Only an empty slot gets a fresh socket, with the reconnection options. Its URL is the corrected `SocketUrl`, not the source's replace-first URL. |
| SocketService.SocketSlot.Get | client/src/services/socketService.ts:28 | Returns the slot as it is. |
| SocketService.SocketSlot.Disconnect | client/src/services/socketService.ts:30-35 | Disconnects the socket in the slot, if any, and empties the slot; an empty slot stays empty. |
| SocketService.ConnectDisconnectConnect | client/src/services/socketService.ts:7-35 | Two connects give the same socket; a connect after a disconnect gives a different one. |
| UseChat.Advance | client/src/hooks/useChat.ts:67-70 | Moving the clock emits exactly one `stop_typing`, for the room the timer was armed in, iff the pending deadline is due. The fired timer is cleared and a pending deadline stays in the future. |
| UseChat.Arm | client/src/hooks/useChat.ts:67-70 | The clock is kept, and any earlier pending stop is replaced by one for `room` due 1500 ms from now. The timer stays valid. |
| UseChat.Burst | client/src/hooks/useChat.ts:64-71 | After a run of keystrokes the clock stands at the last keystroke; an empty run changes nothing. |
| UseChat.BurstEmitsOnlyTyping | client/src/hooks/useChat.ts:64-71 | Keystrokes less than 1500 ms apart emit one `typing` each and no `stop_typing`. They leave the stop armed for 1500 ms after the last keystroke. |
| UseChat.TypingDebounce | client/src/hooks/useChat.ts:67-70 | k such keystrokes followed by time passing emit k `typing` events and then exactly one `stop_typing`, once 1500 ms have passed since the last keystroke. |
| UseChat.QuietPeriodEndsWithStop | client/src/hooks/useChat.ts:67-70 | A pause of 1500 ms or more between two keystrokes puts a `stop_typing` between their `typing` events. |
| UseChat.ChatSession.constructor | client/src/hooks/useChat.ts:16-42 | Mounting reuses the tab's socket or creates it, and emits `join_room` for the room. It copies the socket's connected flag and starts with no messages, no typist and no timer. |
| UseChat.ChatSession.Render | client/src/hooks/useChat.ts:44-52 | On a room change, `leave_room` for the old room is emitted and then `join_room` for the new one. The same room emits nothing. Messages, typist and timer are kept. |
| UseChat.ChatSession.Unmount | client/src/hooks/useChat.ts:44-51 | Cleanup emits `leave_room` and detaches the listeners; the pending stop timer is left armed. |
| UseChat.ChatSession.TransportConnected | client/src/hooks/useChat.ts:22 | A connect or reconnect only sets the flag; nothing is emitted. |
| UseChat.ChatSession.TransportDisconnected | client/src/hooks/useChat.ts:23 | A disconnect only clears the flag; nothing is emitted. |
| UseChat.ChatSession.ReceiveMessage | client/src/hooks/useChat.ts:29-31 | A received message is appended at the end, with no dedup and no cap. Nothing else changes. |
| UseChat.ChatSession.UserTyping | client/src/hooks/useChat.ts:34-36 | The single typist slot takes the latest name. |
| UseChat.ChatSession.UserStopTyping | client/src/hooks/useChat.ts:38-40 | The typist slot is cleared. |
| UseChat.ChatSession.SendMessage | client/src/hooks/useChat.ts:54-62 | Exactly one `send_message` is emitted, with the current room, name and role and the text verbatim. Messages are not touched. |
| UseChat.ChatSession.EmitTyping | client/src/hooks/useChat.ts:64-71 | `typing` is emitted at once, and the pending stop is replaced by one due 1500 ms later. |
| UseChat.ChatSession.Tick | client/src/hooks/useChat.ts:68-70 | Time passing emits whatever `Advance` fires, mounted or not. |
| UseChat.SwitchRooms | client/src/hooks/useChat.ts:44-52 | Mounting on r and re-rendering on s emits join r, leave r, join s, in that order. |
| UseChat.ReconnectDoesNotRejoin | client/src/hooks/useChat.ts:22-26 | A drop and a reconnection leave `connected` true and the outbox at the single `join_room`. |
| UseChat.StopTypingAfterLeave | client/src/hooks/useChat.ts:44-70 | Typing and then leaving emits `stop_typing` after `leave_room`. |
| UseChat.ReceiveOrder | client/src/hooks/useChat.ts:29-31 | Messages are shown in arrival order, duplicates included; nothing is received after unmount. |
| ChatPage.RoomOrDefault | client/src/pages/Chat.tsx:27 | The room is the route parameter, or `general` when it is absent or empty. |
| ChatPage.NameOrDefault | client/src/pages/Chat.tsx:28 | The name is the user's, or `Anonymous` when logged out. |
| ChatPage.RoleOrDefault | client/src/pages/Chat.tsx:29 | The role is always a valid role spelling: the user's own, or `farmer` when logged out. |
| ChatPage.IsMyMessage | client/src/pages/Chat.tsx:57 | A message is "mine" exactly when its author equals the logged-in user's name, and never when logged out. |
| ChatPage.SendDisabled | client/src/pages/Chat.tsx:229 | The button is disabled exactly when the input is all white space or the socket is disconnected. |
| ChatPage.ChatView.constructor | client/src/pages/Chat.tsx:26-30 | The page calls the hook with the defaulted room, name and role, and starts with an empty input. |
| ChatPage.ChatView.ChangeInput | client/src/pages/Chat.tsx:203-221 | Only for a logged-in user, every change stores the text and calls `emitTyping` exactly once. Messages, typist, subscription and connection are unchanged. |
| ChatPage.ChatView.HandleSend | client/src/pages/Chat.tsx:37-41 | Only for a logged-in user. Blank input sends nothing and is kept. Otherwise the trimmed text is sent exactly once and the input is cleared. |
| ChatPage.ChatView.KeyDown | client/src/pages/Chat.tsx:43-48 | Only for a logged-in user. Enter without Shift takes the send path, whether or not connected; any other key sends nothing. |
| ChatPage.ChatView.ClickSend | client/src/pages/Chat.tsx:227-229 | Only for a logged-in user. A click on a disabled button does nothing; otherwise it is the send path. |
| ChatPage.TrimPadded | client/src/pages/Chat.tsx:38-39 | `" hi "` trims to `"hi"`. |
| ChatPage.EnterSendsWhileDisconnected | client/src/pages/Chat.tsx:43-48 | With the socket still unconnected, typing `" hi "` and pressing Enter sends the trimmed `"hi"` while the button is disabled. |
| AuthController.NewUser | server/src/controllers/authController.ts:22-29 | A created user has the trimmed name, the given email and hash, and role `farmer` / language `en` when those fields are absent; a given role or language is the one spelled. It starts with no saved crops and no history. |
| AuthController.ResolveRole | server/src/controllers/authController.ts:27 | An absent role resolves to `farmer`. A given role resolves exactly when it is `farmer` or `expert`, and then to that role. |
| AuthController.ResolveLanguage | server/src/controllers/authController.ts:28 | An absent language or `en` resolves to `en` and `hi` to `hi`; any other value is rejected. |
| AuthController.Creatable | server/src/models/User.ts:21-26 | `User.create` succeeds exactly when the name is not all white space, email and phone are present, and role and language are absent or enumerated. |
| AuthController.Pull | server/src/controllers/authController.ts:132-134 | `$pull` removes every occurrence of the id; other ids keep their multiplicity. |
| AuthController.AddToSet | server/src/controllers/authController.ts:137-139 | `$addToSet` appends the id only if it is absent. |
| AuthController.Toggle | server/src/controllers/authController.ts:126-142 | Membership of the id flips, and the id is never left duplicated. Every other id keeps its multiplicity. |
| AuthController.ToggleTwiceRestores | server/src/controllers/authController.ts:126-142 | Saving an unsaved id and then unsaving it restores the list exactly. |
| AuthController.KeepLast | server/src/controllers/authController.ts:164 | Keeps the newest ten entries, as a suffix. |
| AuthController.PushCapped | server/src/controllers/authController.ts:158-168 | The query becomes the newest entry, and the history is the suffix of the old one plus the query, at most ten long. |
| AuthController.KeepLastAbsorbs | server/src/controllers/authController.ts:161-165 | Capping earlier does not change what a later cap keeps. |
| AuthController.PushAllKeepsNewestTen | server/src/controllers/authController.ts:158-168 | After any run of searches, the history is the newest ten of all queries ever pushed, oldest first. |
| AuthController.UserStore.Register | server/src/controllers/authController.ts:8-43 | A taken email gives 400 and no change. A request the schema rejects gives 500. Otherwise a new record is stored under a fresh id and the hash-free account is returned with 201. Ids and emails stay unique. |
| AuthController.UserStore.Login | server/src/controllers/authController.ts:45-69 | An unknown email and a wrong password give the identical 401 reply; a matching password returns the account. |
| AuthController.UserStore.SaveCrop | server/src/controllers/authController.ts:113-147 | A missing id gives 400 and an unknown user 404, both with no change. Otherwise only that user's list is toggled, and `saved` equals the new membership. |
| AuthController.UserStore.AddToSearchHistory | server/src/controllers/authController.ts:149-175 | An empty query gives 400 and no change. Otherwise the reply is 200 and an existing user's history gets the query pushed and capped. |
| AuthContext.Ids | client/src/context/AuthContext.tsx:46 | The saved-crop ids, in response order. |
| AuthContext.ClientToggle | client/src/context/AuthContext.tsx:77-81 | When the server reports saved, the id is appended at the end with no dedup. Otherwise every occurrence is removed and the rest keep their order. |
| AuthContext.ClientMirrorsServer | client/src/context/AuthContext.tsx:74-82 | Starting from the server's list, the client's update equals the server's toggle. |
| AuthContext.AuthProvider.constructor | client/src/context/AuthContext.tsx:35-37 | The provider starts with no user, loading, no saved crops and no requests. |
| AuthContext.AuthProvider.FetchMe | client/src/context/AuthContext.tsx:39-54 | Any failure of either request leaves no user. Success sets the user and exactly the fetched ids. `loading` ends false either way. |
| AuthContext.AuthProvider.Login | client/src/context/AuthContext.tsx:56-61 | A rejected login changes nothing. Otherwise the user is set. The saved list becomes exactly the fetched ids in order, and is kept if that fetch fails. |
| AuthContext.AuthProvider.Register | client/src/context/AuthContext.tsx:63-66 | Registration sets the user and leaves the saved list unchanged. |
| AuthContext.AuthProvider.Logout | client/src/context/AuthContext.tsx:68-72 | Once the post resolves, there is no user and no saved crops. |
| AuthContext.AuthProvider.ToggleSaveCrop | client/src/context/AuthContext.tsx:74-82 | No user means no request and no change. Otherwise one post is sent and the list follows the server's answer. |
| AuthContext.AuthProvider.AddToSearchHistory | client/src/context/AuthContext.tsx:84-87 | One post when logged in, nothing otherwise; no state changes. |
| AuthContext.LoggedOutSendsNothing | client/src/context/AuthContext.tsx:74-87 | After a failed `/auth/me`, save and search actions send no requests. |
| AuthContext.DoubleSaveDuplicates | client/src/context/AuthContext.tsx:77-78 | Two "saved" answers leave the id twice on the client. |
| OrderController.TotalAmount | server/src/controllers/orderController.ts:19 | The total is price times quantity: the price itself for one unit, and not negative for non-negative inputs. |
| OrderController.GatewayAmount | server/src/controllers/orderController.ts:22-24 | The gateway amount is a whole multiple of 100 paise equal to the total in rupees. |
| OrderController.SignedPayload | server/src/controllers/orderController.ts:63 | The signed text is the order id, a bar at its end, then the payment id. |
| OrderController.SplitAtBar | server/src/controllers/orderController.ts:63 | Splits at the first bar; none exactly when there is no bar. |
| OrderController.SplitSignedPayload | server/src/controllers/orderController.ts:63 | A bar-free order id and the payment id are recovered from the signed text. |
| OrderController.VerifiedStatus | server/src/controllers/orderController.ts:70-79 | The result is `paid` exactly for a valid signature, otherwise `failed`. |
| OrderController.SignatureValid | server/src/controllers/orderController.ts:63-70 | For a bar-free order id, the signature is valid exactly when it is the HMAC, under the secret, of a payload that splits back into this order id and payment id. |
| OrderController.InsertNewestFirst | server/src/controllers/orderController.ts:96 | Inserts an order keeping the list newest first, with distinct ids. |
| OrderController.OrderStore.CreateOrder | server/src/controllers/orderController.ts:8-50 | An unknown listing gives 404 with no gateway call and no order. A gateway failure gives 500 with no order. Otherwise it stores a `pending` order of price × quantity and asks the gateway for that total × 100 paise in INR. |
| OrderController.OrderStore.VerifyPayment | server/src/controllers/orderController.ts:53-85 | The HMAC of the payload under the secret is compared with the signature. Only the order named by `dbOrderId` changes, to `paid` (200) or `failed` (400), whatever its prior status. |
| OrderController.OrderStore.GetUserOrders | server/src/controllers/orderController.ts:88-102 | Returns exactly the caller's orders, each once, newest `createdAt` first. |
| OrderController.ReplayFailsPaidOrder | server/src/controllers/orderController.ts:72-79 | A paid order verified again with a bad signature becomes failed. |
| ProductDetail.Insert | client/src/pages/ProductDetail.tsx:114 | Insertion in front of the first listing that costs no less keeps the list sorted and adds exactly that listing. |
| ProductDetail.SortByPrice | client/src/pages/ProductDetail.tsx:114 | The sorted copy is ascending by price and a permutation of the listings. |
| ProductDetail.SortStable | client/src/pages/ProductDetail.tsx:114 | At every price, listings keep their original relative order (the sort is stable). |
| ProductDetail.InsertStable | client/src/pages/ProductDetail.tsx:114 | Inserting a listing into a sorted list puts it, among the listings at its price, before them, and keeps theirs in order. |
| ProductDetail.SortedHeadIsCheapest | client/src/pages/ProductDetail.tsx:58-61 | The first sorted listing costs no more than any listing. |
| ProductDetail.CheapestIsEarliestMinimum | client/src/pages/ProductDetail.tsx:58-62 | The auto-selected listing has the minimum price and is the earliest listing at that price. |
| ProductDetail.Rows | client/src/pages/ProductDetail.tsx:222-280 | Row i shows listing i with rank i+1. Only row 0 gets the lowest badge, and rows are marked selected exactly when their id is the selection's. |
| ProductDetail.BestPriceBadge | client/src/pages/ProductDetail.tsx:166 | The badge needs a selection and listings, and shows exactly when the table's first row is highlighted. |
| ProductDetail.ClickMarksRow | client/src/pages/ProductDetail.tsx:225-227 | Clicking row k marks exactly the rows with its id. Best price shows exactly when row 0 is then marked. |
| ProductDetail.ProductPage.constructor | client/src/pages/ProductDetail.tsx:43-48 | The page starts loading with nothing fetched, selected or bought. |
| ProductDetail.ProductPage.Sorted | client/src/pages/ProductDetail.tsx:114 | The shown order is sorted and a permutation of the product's listings. |
| ProductDetail.ProductPage.FetchSucceeded | client/src/pages/ProductDetail.tsx:55-63 | While loading, the product is shown, and with listings the first of the sorted copy is selected. |
| ProductDetail.ProductPage.FetchFailed | client/src/pages/ProductDetail.tsx:64-68 | While loading, a failed fetch shows the error view and changes nothing else. |
| ProductDetail.ProductPage.SelectRow | client/src/pages/ProductDetail.tsx:225 | A click makes that listing the selection. |
| ProductDetail.ProductPage.BuyNow | client/src/pages/ProductDetail.tsx:73-85 | Nothing happens without a selection, a user or a product; otherwise one payment of quantity 1 for the selected listing is requested. |
| ProductDetail.MountShowsBestPrice | client/src/pages/ProductDetail.tsx:160-171 | After a fetch with listings, the best-price badge shows and row 0 is marked selected. |
| Crops.OfType | client/src/pages/Crops.tsx:51 | Exactly the crops of a season, each as often as in the list. |
| Crops.OfTypeAppend | client/src/pages/Crops.tsx:51 | Filtering a concatenation filters each part and keeps them in that order. With `OfTypeSingle`, this fixes the result, in the list's order. |
| Crops.OfTypeSingle | client/src/pages/Crops.tsx:51 | A single crop is kept exactly when it has the season. |
| Crops.Filtered | client/src/pages/Crops.tsx:49-51 | `All` shows the list unchanged; a season tab shows exactly that season's crops. |
| Crops.TabCount | client/src/pages/Crops.tsx:108-110 | Each tab's number is the length of the list that tab would show. |
| Crops.ShowsEmptyState | client/src/pages/Crops.tsx:150 | Under `All`, the empty state shows exactly for an empty list. A season tab shows it exactly when no crop has that season. |
| Crops.SeasonCountsSum | client/src/pages/Crops.tsx:96-110 | The Kharif, Rabi and Zaid counts add up to the All count. |
| ProtectedRoute.Decide | client/src/components/common/ProtectedRoute.tsx:10-36 | The guard renders: a spinner while loading, `/login` without a user, and `/` for a role outside a given list. The children render exactly when not loading, logged in, and the roles are absent or include the user's. |
| ProtectedRoute.AnyRoleWithoutList | client/src/components/common/ProtectedRoute.tsx:31-35 | Without a role list, any logged-in user sees the children. |
| ProtectedRoute.ExpertOnly | client/src/components/common/ProtectedRoute.tsx:31-33 | An expert-only route admits experts and sends farmers to `/`. |
| WeatherWidget.Render | client/src/components/common/WeatherWidget.tsx:26-47 | The widget shows the skeleton while loading, the unavailable notice on an error or no data, and otherwise the report. The low alert shows iff humidity < 40 and the high alert iff humidity > 80. |
| WeatherWidget.NeedsIrrigation | client/src/components/common/WeatherWidget.tsx:46 | The irrigation alert holds exactly for whole-number humidity up to 39, which is never above the humid threshold. |
| WeatherWidget.HighHumidity | client/src/components/common/WeatherWidget.tsx:47 | The humidity alert holds exactly from 81 up, which is never below the dry threshold. |
| WeatherWidget.AlertsExclusive | client/src/components/common/WeatherWidget.tsx:46-47 | The alerts never show together, and humidity from 40 to 80 raises neither. |
| ImageDiagnosis.ConfidenceBand | client/src/components/common/ImageDiagnosis.tsx:74-78 | Success iff confidence ≥ 70, warning iff 40–69, error iff < 40. |
| ImageDiagnosis.IsImage | client/src/components/common/ImageDiagnosis.tsx:31 | A file counts as an image exactly when its MIME type is `image/` followed by anything. |
| ImageDiagnosis.DiagnosisWidget.constructor | client/src/components/common/ImageDiagnosis.tsx:20-25 | The widget starts with no photo, not busy, no results, no notice and not warming up. |
| ImageDiagnosis.DiagnosisWidget.RetryVisible | client/src/components/common/ImageDiagnosis.tsx:147 | The retry link shows only while the model warms up. Under the widget invariant, it shows exactly then. |
| ImageDiagnosis.DiagnosisWidget.Upload | client/src/components/common/ImageDiagnosis.tsx:27-42 | No file does nothing. A non-image only sets the invalid-image notice. An image sets photo and preview and clears results, notice and warming. |
| ImageDiagnosis.DiagnosisWidget.BeginDiagnose | client/src/components/common/ImageDiagnosis.tsx:44-50 | Without a photo nothing happens; otherwise the widget is busy with notice and warming cleared. |
| ImageDiagnosis.DiagnosisWidget.FinishDiagnose | client/src/components/common/ImageDiagnosis.tsx:51-62 | The widget is no longer busy. Results replace the old ones, while a failure keeps them. `model_loading` sets warming and its notice; any other failure sets the error notice. |
| ImageDiagnosis.DiagnosisWidget.Reset | client/src/components/common/ImageDiagnosis.tsx:65-71 | Photo, preview, results, notice and warming return to their initial values. `diagnosing` is not touched, as in the source. |
| ImageDiagnosis.WarmUpOffersRetry | client/src/components/common/ImageDiagnosis.tsx:54-58 | From a fresh upload, a failed diagnosis offers retry exactly for `model_loading`. |
| ImageDiagnosis.InvalidUploadKeepsRetry | client/src/components/common/ImageDiagnosis.tsx:31-34 | A non-image chosen after a warm-up failure shows the invalid-image notice with the retry link still beside it. |

## Left out

- The server-side chat broker: no socket server exists in the server's entry point (`server/src/index.ts`), so inbound events are methods the environment calls.
- socket.io internals (buffering while disconnected, the library's own reconnection timing, `connect_error` logging), `console` output and the `socket.off` bookkeeping beyond a "subscribed" flag.
- `client/src/services/api.ts` (request wrapper and token refresh) and the thin HTTP service wrappers: `api.ts` is not part of this model. The callers in `AuthContext.tsx` use it as an axios-style client (`api.get` / `api.post` resolving to a response whose `data` is read), and the model takes those responses, already decoded, as parameters.
- Token issuing, cookies, `refreshToken`, `logout` and `getMe` on the server: jsonwebtoken, bcrypt hashing and cookie APIs. bcrypt's compare and HMAC-SHA256 are uninterpreted function parameters.
- The node-cache wrapper, route files, server start-up and seeding.
- Presentational pages and components, date formatting and the chat auto-scroll effect.
- The page-level fetch effects of Crops and WeatherWidget: their outcomes are parameters of the pure views.
- Real timers: `setTimeout` is a deadline on an explicit clock, and the environment decides when time passes.
- `ISO` timestamps: a `send_message` carries the session clock in milliseconds.
- AuthController.UserStore.Register: emails are compared verbatim; the schema's lowercase setter on `email` is not modelled.
- AuthController.UserStore.Register: database and bcrypt exceptions other than schema validation are not modelled. Schema rejections are collapsed into one "request not creatable" predicate.
- AuthController.UserStore.Login: a known user's request without a password makes `bcrypt.compare` throw, which the source answers with 500 "Server error". The model reads an absent password as `""` and replies 401 or 200 through the `matches` parameter.
- AuthController.UserStore.Login: the lookup compares emails verbatim. The schema's lowercase setter also applies to the `findOne({ email })` query, so a mixed-case login that the source accepts gets 401 in the model.
- AuthController.UserStore.SaveCrop: user ids are naturals, so ObjectId cast errors (500) are not modelled.
- AuthController.UserStore.SaveCrop: each request runs alone, from its `findById` read to its `findByIdAndUpdate` write. In the source, other requests can run between those two awaits. Two overlapping saves of the same unsaved crop both read "not saved" and both answer `saved: true`, so the second one does not flip membership. The flip and `ToggleTwiceRestores` hold for requests that do not overlap. `AuthContext.DoubleSaveDuplicates` shows what the client keeps after two such "saved" answers.
- AuthController.UserStore.SaveCrop: crop ids are compared as strings. A `cropId` that is not an ObjectId makes the `$addToSet`/`$pull` cast throw, which the source answers with 500 and no change. The model toggles such an id and replies 200.
- OrderController.OrderStore.CreateOrder: prices and quantities are whole numbers (`int` rupees), not JavaScript floating-point numbers. The gateway receipt string built from `Date.now()` is left out.
- OrderController.OrderStore.CreateOrder: a `listingId` that is not an ObjectId makes `Listing.findById` throw, which the source answers with 500 "Could not create order". The model treats every id as a lookup key and replies 404 "Listing not found" for an unknown one.
- OrderController.OrderStore.CreateOrder: the checkout reply echoes the computed gateway amount and `INR`, where the source echoes the `amount` and `currency` of the gateway's order object; the gateway is assumed to return what it was asked for. A failing `Order.create` after a successful gateway call (500 "Could not create order") is not modelled: storing the order always succeeds.
- OrderController.OrderStore.VerifyPayment: order ids are naturals, so a `dbOrderId` that is not an ObjectId (500 "Verification error" in the source) cannot be expressed.
- OrderController.OrderStore.GetUserOrders: the `populate` of listing and product and the database's tie order between equal `createdAt` values are not modelled; any newest-first order is accepted.
- SocketService.SocketSlot.Connect: connects to the corrected URL (`SocketUrl`, the trailing `/api` stripped), not the source's replace-first URL (`SocketUrlAsWritten`). The two differ only when `/api` occurs in the API URL before its end (see Findings). Nothing else in the model depends on the URL.
- WeatherWidget.Render: humidity is a whole number (`int`). The API delivers a JavaScript number, and a fractional reading such as 39.5 is not modelled.
- ProductDetail.BestPriceBadge: guarded by a non-empty sorted list. The source would read `sortedListings[0]` of an empty list only when a selection survives a change of product id without a remount; that navigation path is not modelled.
- ProductDetail.ProductPage.BuyNow: the `useRazorpay` hook is not part of this model. Its `processing` flag, which disables the Buy button, is not modelled. Neither is the `onSuccess` callback that sets `paymentSuccess` and swaps the button for a confirmation. Repeated `BuyNow` calls are therefore not gated: each one records another payment request.
- ProductDetail.ProductPage: one mount fetches once; re-running the fetch effect on an id change without a remount is not modelled. Seller, stock and delivery days are not read by the modelled logic. The fetch outcomes therefore require `loading`.
- ProductDetail.SortByPrice: prices are whole numbers (`int` rupees), not JavaScript floating-point numbers; the comparator `a.price - b.price` is modelled as a comparison of those integers.
- ImageDiagnosis: the object URL, the hidden file input's DOM value and the classifier call are parameters or left out; notices are their translation keys.

## Findings

| source | as written | input that shows it | evidently intended | confidence | as-written member | corrected member |
|---|---|---|---|---|---|---|
| client/src/services/socketService.ts:5 | `VITE_API_URL?.replace('/api', '')` removes the FIRST `/api` anywhere in the URL | `https://api.in/api` gives `https:/.in/api` | strip the trailing `/api` path, giving `https://api.in` | not executed | SocketService.SocketUrlAsWrittenMangles | SocketService.SocketUrlOfApiBase |
