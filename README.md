# Chat client state and session store

This project models the two pieces of the chit-chat browser client that hold state logic:

- **The chat screen's event handling** (`src/pages/Chat.jsx`). Each inbound frame changes a small client state:
  - the presence set (`onlineUsers`);
  - the typing indicator (`isTyping`);
  - the group message history;
  - the unread-count map (`unreadMessages`);
  - the registry of private-message handlers, one per conversation partner.

  Module `ChatUpdates` holds the copy-then-modify updaters as pure functions, plus lemmas about runs of events. Class `ChatSession.ChatClient` holds the screen's state and has one method per inbound event kind: group event, typing expiry, private message, connect step, bulk online-user merge, and handler register/unregister.
- **The session store** (`src/services/authService.js`). Browser `localStorage` is a `map<string, string>`. HTTP answers, `JSON.stringify` and `JSON.parse` are parameters; parsing is partial and returns `None` on failure. Module `AuthService` holds:
  - the read-only queries `GetCurrentUser` and `IsAuthenticated`;
  - the storage transition of each operation, as a pure function;
  - lemmas that connect the two;
  - class `SessionStore`, whose methods change the stored map in place.

A stored value of `""` is treated as absent, because the source tests `getItem` results for truthiness. Event `timestamp` and `id` values are modelled as optional strings, where only a missing value or `""` counts as falsy; see "## Left out" for numeric ids.

## Where the model follows the evident intent rather than the code

The source has slips that would make it fail at run time. The model implements what was evidently meant. A comment at the modelled member marks each one.

- `Chat.jsx:73-96`:
  - the presence updater never returns its new set;
  - it calls the history updater on the input-text setter `setMessage`, not on `setMessages`.

  The model returns the new presence set and appends to the history.
- `Chat.jsx:116`: the unread updater returns the old count, not the new map. The model returns the map.
- `Chat.jsx:99` parses `msg.bodu`, not `msg.body`. The model takes an already parsed message.
- `authService.js:14` registers the interceptor with `api.interceptors.use`, not `api.interceptors.response.use`. Its error branch returns `undefined` instead of rejecting. The model treats the interceptor as its own storage step that runs before the caller's `catch` branch, and has that branch see the original error. Every request goes through the shared client (`authService.js:5-11`). So a login answered with 401, which is the bad-credentials answer, first runs the interceptor's logout and then `login`'s failure branch; `Failed401LoginLogsOut` states the combined effect.
- `authService.js:97-98`: logout calls `localStorage.remove`, which does not exist in the browser storage API. The model removes the keys, as `removeItem` would.
- `authService.js:67,86` run `throw new errorMessage` on a string. The model returns the message as `Failure(message)`.

These are kept as written:
- JOIN and LEAVE events are appended to history as well. Only TYPING returns early.
- `isAuthenticated` reads the misspelt key `currentUSer`. A store holding only `currentUser` is therefore not authenticated, although `getCurrentUser` finds a user there.

Typing events sent by self also set the indicator: the handler (`Chat.jsx:82-83`) does not filter by sender, and neither does `OnGroupMessage`.

## Model

| member | source | states |
|---|---|---|
| ChatUpdates.UpdatePresence | src/pages/Chat.jsx:73-80 | JOIN puts the sender in the set, LEAVE takes it out, any other kind leaves the set unchanged, and no other user's membership changes |
| ChatUpdates.PresenceFollowsLastEvent | src/pages/Chat.jsx:73-80 | after any run of group events, a user is online exactly when their last JOIN/LEAVE was a JOIN; with no such event, membership is what it was before |
| ChatUpdates.JoinSelf | src/pages/Chat.jsx:52-59 | the connect step yields a superset of the old presence set that contains self; with an empty username nothing changes |
| ChatUpdates.OrDefault | src/pages/Chat.jsx:93-94 | a present, non-empty field is kept; an absent or empty one takes the fallback |
| ChatUpdates.Stamp | src/pages/Chat.jsx:91-95 | the appended entry keeps the event's kind, sender and content, and the server's timestamp/id when present and non-empty; only missing or empty fields get the supplied defaults |
| ChatUpdates.AppendHistory | src/pages/Chat.jsx:91-95 | the stamped event goes at the end; all earlier entries stay, in order |
| ChatUpdates.AppendKeepsKeyed | src/pages/Chat.jsx:93-94 | if the defaults are non-empty, every history entry keeps a non-empty id and timestamp after an append |
| ChatUpdates.Partner | src/pages/Chat.jsx:100 | the partner is the recipient when self sent the message, and the sender otherwise; the partner is self only for a message self sent to itself |
| ChatUpdates.RoutePrivate | src/pages/Chat.jsx:102-118 | a message goes to the partner's registered handler if there is one; else it is marked unread when self is the recipient, and dropped otherwise |
| ChatUpdates.IncrementUnread | src/pages/Chat.jsx:112-117 | the partner's count becomes its old value (0 when absent) plus one; every other entry is unchanged |
| ChatUpdates.UnreadAfter | src/pages/Chat.jsx:111-117 | only a message marked unread changes the unread map; delivered and dropped messages leave it unchanged |
| ChatUpdates.UnreadCountsEachMessage | src/pages/Chat.jsx:111-117 | over a run of private messages, a partner's unread count rises by exactly the number of messages counted for it |
| ChatUpdates.HandledPartnerNeverCounted | src/pages/Chat.jsx:102-110 | while a handler is registered for a partner, none of that partner's messages are counted |
| ChatUpdates.UnhandledPartnerCountsAll | src/pages/Chat.jsx:111-117 | while no handler is registered for a partner, each message the partner sends to self adds one, self included when it writes to itself |
| ChatUpdates.UnhandledPartnerCountsAddressed | src/pages/Chat.jsx:100-117 | while no handler is registered for a partner, in any interleaving of conversations, the partner's count rises by exactly the number of messages addressed to self in that conversation |
| ChatSession.MergeOnlineUsers | src/pages/Chat.jsx:127-133 | the loop's merged set contains the old set, every fetched key and self, and nothing else |
| ChatSession.ChatClient.constructor | src/pages/Chat.jsx:19-27 | the screen starts with no one online, no one typing, an empty history, no unread counts and no handlers; the history state starts as the string `''`, and spreading it (`[...'']`) gives the empty list, so it is modelled as the empty sequence |
| ChatSession.ChatClient.RegisterPrivateMessageHandler | src/pages/Chat.jsx:40-42 | the partner's handler replaces any earlier one; other entries are unchanged |
| ChatSession.ChatClient.UnregisterPrivateMessageHandler | src/pages/Chat.jsx:44-46 | only that partner's entry is removed |
| ChatSession.ChatClient.OnConnect | src/pages/Chat.jsx:52-59 | the presence set becomes the connect-step superset; nothing else changes |
| ChatSession.ChatClient.OnGroupMessage | src/pages/Chat.jsx:70-96 | presence follows the event; TYPING sets the indicator and leaves history alone; any other event is appended with defaults filled; all entries stay keyed |
| ChatSession.ChatClient.OnTypingTimeout | src/pages/Chat.jsx:85-87 | the typing indicator is cleared |
| ChatSession.ChatClient.OnPrivateMessage | src/pages/Chat.jsx:98-119 | returns the routing decision for the current registry; only the unread map changes, as that decision dictates |
| ChatSession.ChatClient.OnOnlineUsersFetched | src/pages/Chat.jsx:125-134 | the bulk fetch never removes a user; afterwards self and every fetched key are online, and no one else is added |
| AuthService.GetCurrentUser | src/services/authService.js:116-136 | the parsed `currentUser` value whenever that key is present, whatever `user` holds; else the parsed `user` value; null when neither is present or parsing fails |
| AuthService.IsAuthenticated | src/services/authService.js:137-140 | true exactly when `user` or the misspelt `currentUSer` is present |
| AuthService.LoggedOut | src/services/authService.js:96-99 | `currentUser` and `user` are gone; every other key keeps its value |
| AuthService.WithLoginTime | src/services/authService.js:51-54 | the login record is the response data with `loginTime` set to the supplied time, all other fields kept |
| AuthService.LoggedIn | src/services/authService.js:56-57 | `currentUser` holds the stamped record, `user` holds the raw response data, no other key changes |
| AuthService.ErrorMessage | src/services/authService.js:66 | the response's own non-empty `message` field (`error.response?.message`) if there is one, else the fixed fallback text |
| AuthService.ErrorMessageIsAlwaysFallback | src/services/authService.js:66 | when the response carries no `message`, as with every axios response, the result is the fixed fallback text |
| AuthService.AfterFetchCurrentUser | src/services/authService.js:101-115 | a success overwrites only `user`; a 401 logs out; any other failure leaves the store unchanged |
| AuthService.AfterInterceptedError | src/services/authService.js:16-40 | a 401 logs out; 403, 404, 500, other statuses and a missing response leave the store unchanged |
| AuthService.LoginThenCurrentUser | src/services/authService.js:51-57 | after a login, `getCurrentUser` returns the stamped record, provided parsing inverts serialisation on it |
| AuthService.LoginAuthenticates | src/services/authService.js:57 | a login leaves the store authenticated |
| AuthService.LogoutForgetsUser | src/services/authService.js:96-99 | after logout no user is found; the store stays authenticated only if it holds the misspelt key, which logout does not remove |
| AuthService.LogoutIdempotent | src/services/authService.js:89-100 | logging out twice equals logging out once |
| AuthService.FetchKeepsLoginRecord | src/services/authService.js:105 | while `currentUser` is present, a successful fetch does not change what `getCurrentUser` returns |
| AuthService.CurrentUserAloneIsNotAuthenticated | src/services/authService.js:137-140 | a store holding only `currentUser` yields a user but is not authenticated |
| AuthService.Double401ClearsOnce | src/services/authService.js:18-22 | a 401 handled by both the interceptor and `fetchCurrentUser` clears the session exactly as one logout does |
| AuthService.AfterLogin | src/services/authService.js:51-67 | `login`'s own code writes both session keys on success and nothing on failure |
| AuthService.Failed401LoginLogsOut | src/services/authService.js:18-21 | a login answered with 401 passes through the interceptor first, so it ends with both session keys removed and every other key kept; a signup answered with 401 writes nothing after the interceptor, so it ends in the logged-out store too |
| AuthService.FailedLoginOtherwiseKeepsStore | src/services/authService.js:16-40 | a failed login with any status other than 401, or with no response, leaves the store exactly as it was, interceptor included |
| AuthService.SessionStore.Login | src/services/authService.js:44-69 | `login`'s own code: on success the store becomes the logged-in store and the stamped record is returned; on failure this code writes nothing and returns the error message (the interceptor's step before it is covered by Failed401LoginLogsOut) |
| AuthService.SessionStore.Signup | src/services/authService.js:70-88 | returns the created user or the error message; its own code writes no storage (a 401 on signup still runs the interceptor's logout first, as Failed401LoginLogsOut says) |
| AuthService.SessionStore.Logout | src/services/authService.js:89-100 | both session keys are removed whether or not the remote call failed; other keys are untouched |
| AuthService.SessionStore.FetchCurrentUser | src/services/authService.js:101-115 | the store changes as AfterFetchCurrentUser says; the data is returned on success and nothing on failure |
| AuthService.SessionStore.InterceptError | src/services/authService.js:14-41 | the store changes as AfterInterceptedError says |

## Left out

- SockJS/STOMP connection, subscriptions, `send` calls and the 5-second reconnect interval (`Chat.jsx:61-69, 120-123, 138-155`): network transport and timers. The model starts from already-parsed frames.
- The `setTimeout`/`clearTimeout` typing expiry (`Chat.jsx:84-87`): modelled only as the explicit event `OnTypingTimeout`. Timers are not modelled, so neither is the claim that at most one expiry timer is live.
- `Date.now()`/`Math.random()` message ids and `new Date().toISOString()` timestamps are supplied parameters. Id uniqueness does not follow from these generators, so the model proves only that every entry carries a non-empty id and timestamp.
- Opening a conversation: `openPrivateChat` is referenced in the JSX (`Chat.jsx:168`) but not defined, and nothing closes a conversation. So the model has no clearing of an unread entry.
- ChatUpdates.Stamp: ids and timestamps are modelled as optional strings, with `""` the only falsy value. In the source, ids are numbers (`Date.now() + Math.random()` at `Chat.jsx:94`, or whatever the server sends). JavaScript `||` also replaces `0` and `NaN`, so a server id of `0` is replaced there but kept by the model.
- AuthService.ErrorMessage: `responseMessage` stands for `error.response.message` (`authService.js:66, 85`). axios never sets that field; the server's text would be at `error.response.data.message`. So the program always reports `LoginFailedMessage`/`SignupFailedMessage`, as `ErrorMessageIsAlwaysFallback` states. The model, given a non-empty field, returns it.
- JSX rendering, the emoji list, `scrollToButton` and the redirect when there is no current user: UI.
- axios requests, the redirect via `window.location`, console logging and the `fetchPrivateMessages`/`getOnlineUsers` wrappers: foreign calls and I/O with no storage effect. `fetchPrivateMessages` does not await its request (`authService.js:143`), so it returns the `data` of a pending promise.
- `JSON.stringify` and `JSON.parse` are function parameters; parsed values are field maps.
- AuthService.GetCurrentUser: does not model the `{...userData}` copy at `authService.js:126-128` on a non-object. Take a stored `user` text of `"null"`, which `authService.js:57` and `:105` write when the server sends null data. The source spreads `null` into `{}` and returns that truthy empty user. The model's `parse` yields None for `null`, so `GetCurrentUser` returns None. `IsAuthenticated` is true for that store in both.
- The interceptor running for the logout request itself is not modelled. If the server answered that POST with a 401, the source would log out again for each such answer.
- Ordering of the unawaited `logout()` in the interceptor relative to caller code: execution is modelled as sequential.
- AuthService.SessionStore.Login: the username and password are not parameters, because they only go into the request body. The model starts from the server's answer.
