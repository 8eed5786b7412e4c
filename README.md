# A model of the 4xc market-data and account relay

The relay (`server.js`) sits between browser clients and the Deriv trading
API. It does two things:

* It shares one upstream market-data socket per instrument symbol among all
  clients in that symbol's room. On every tick, that socket broadcasts the tick
  and asks for a CALL and a PUT quote.
* It opens a disposable, authorized socket for each balance, top-up, purchase
  or history request.

This project models the decision logic inside that plumbing.

* `js.dfy` (module `Js`) covers the JavaScript values the handlers work on.
  These are JSON data plus `undefined`, with truthiness, property access,
  `a || b` and `const { k, ...rest } = o`. Reading a property of `undefined`
  or `null` gives the `Thrown` completion, because in a socket listener that
  TypeError is uncaught. The login `message` listener is `async`
  (server.js:229), so there the TypeError becomes a rejected promise, which
  ends the process only under Node's default handling of unhandled
  rejections.
* `relay.dfy` (module `Relay`) defines a handler's two effects:
  `Send(request)`, which writes to the upstream socket, and
  `Emit(topic, event, payload)`, which broadcasts to a room.
* `market_data.dfy` (module `MarketData`) holds `createProposalData` and the
  market-data session's `message` handler.
* `registry.dfy` (module `Registry`) models the `assetConnections` table.
  * `AssetRegistry` is a class with fields for the table, for the symbol each
    session was opened for, for the ended sessions, for a fresh-handle counter,
    for an output log and for whether a handler has thrown (`crashed`).
  * Each method is proved to perform one pure step on `Registry.State`:
    `Subscribed`, `Unsubscribed`, `SessionEnded` or `Delivered`.
  * `Step` and `Run` replay a sequential stream of join, leave, message,
    close and error events. The invariant proved over any such stream says
    that every registered session was opened for its key and has not ended.
* `account.dfy` (module `Account`) holds the `open`, `message` and `error`
  handlers of the four authenticated flows, as functions of the caller's
  payload and one message. `Session` runs a flow over a stream of socket
  events.
* `login.dfy` (module `Login`) maps the login endpoint's first upstream
  message to the HTTP answer.

The source is followed as written, including these behaviours:

* `fetchAssetData` is check-then-act, so joining an already-registered symbol
  does nothing.
* `unsubscribeAssetData` ignores how many clients are still in the room. One
  leave tears the shared session down (`Registry.OneLeaveEndsSharedSession`).
* The `close` and `error` handlers delete the entry by symbol. A late `close`
  from a replaced session therefore deletes its replacement's entry. That
  replacement stays open but unregistered, so the next join opens a second
  live session for the same symbol (`Registry.LateCloseOrphansReplacement`).
* The history flow ignores an authorize error and installs no `error`
  listener.

Two more facts about the code shape the model:

* `fetchAssetData` is synchronous from its test at line 34 to its insertion
  at line 57, and Node runs each `joinAssetRoom` handler to completion on one
  thread. Two joins therefore cannot interleave: the event loop is the single
  writer of `assetConnections`, and a sequential event stream is exactly how
  the registry runs. A session is live when it has been neither closed by a
  leave nor reported `close` or `error`. The only route to two live sessions
  for one symbol is a late `close` or `error`, as above. Without those events
  there is at most one live session per symbol
  (`Registry.SequentialJoinsOpenOneSession`). A session closed by a leave
  still handles messages that arrive while it is closing, and the model
  delivers them too.
* The action flows never close their sockets, and the model closes none.

## Model

| member | source | states |
|---|---|---|
| `Js.Field` | server.js:42 | `o.key` on an object is its own property when present, otherwise `undefined` |
| `Js.Prop` | server.js:48 | `v.key` on a readable value is the object's field, and `undefined` on a primitive or an array |
| `Js.Or` | server.js:30 | `a || b` is the left operand when it is truthy, otherwise the right one; a truthy right operand makes the result truthy |
| `Js.Omit` | server.js:110 | the rest of `const { token, ...rest } = o` has every key of `o` except `token`, with the same values |
| `Js.Get` | server.js:48 | reading a property throws exactly when the object is `undefined` or `null` (as `response.echo_req.contract_type` and `response.proposal.id` can) |
| `Relay.Notice` | server.js:51 | every status event is an object whose `message` is the given text and whose other field (`data` or `error`, as at lines 69, 77, 89, 98, 109, 118, 120 and 125) is the given value, and which has no key besides those two |
| `MarketData.QuoteSymbol` | server.js:30 | the quoted symbol is always truthy: the tick's symbol when that is truthy, else "RDBEAR" |
| `MarketData.CreateProposalData` | server.js:21-31 | the quote request has exactly the nine fields, with proposal 1, amount 100, barrier "+0.1", basis "stake", the given contract type, currency "USD", duration 60, unit "s"; a tick carrying a non-empty symbol string is quoted on that symbol |
| `MarketData.QuotesDifferOnlyInDirection` | server.js:44-45 | the CALL and PUT requests from one tick agree on every field but `contract_type`, and differ when the directions differ |
| `MarketData.OnMessage` | server.js:40-53 | every broadcast goes to the asset's room; only a tick makes it send; a tick yields `assetData`, then a CALL quote request, then a PUT one; a quote yields one `proposal` broadcast typed by `echo_req.contract_type`; a transaction yields `transactionUpdate`; the handler throws exactly for a quote with no `echo_req`; anything else does nothing |
| `Registry.TicksRequest` | server.js:38 | a new session's subscription is `{ticks: asset}` and nothing else |
| `Registry.Subscribed` | server.js:33-38 | a registered symbol leaves the state unchanged and opens nothing; an absent one gets a fresh handle registered under it, logs the opening and the `{ticks: asset}` request, and leaves every other key as it was |
| `Registry.Unsubscribed` | server.js:145-151 | a registered symbol's session is closed, logged and removed; an absent symbol changes nothing; no other key changes |
| `Registry.SessionEnded` | server.js:55-56 | a session's close or error removes its symbol's entry whatever session that entry holds, and marks the session ended |
| `Registry.Delivered` | server.js:40-53 | a market-data message logs what the handler did for the session's own symbol and leaves the table unchanged; the relay becomes crashed exactly when it was already or the message is a quote without `echo_req` |
| `Registry.Record` | server.js:40-53 | a handler's actions are logged in order under the session; a handler that throws is logged as a crash |
| `Registry.InitialInv` | server.js:14 | the empty table satisfies the registry invariant |
| `Registry.RegisteredSessionsDistinct` | server.js:57 | two symbols never share a session |
| `Registry.SubscribedKeepsInv` | server.js:33-58 | subscribing keeps every registered session opened for its key and live |
| `Registry.UnsubscribedKeepsInv` | server.js:145-151 | unsubscribing keeps the invariant |
| `Registry.SessionEndedKeepsInv` | server.js:55-56 | a close or error event keeps the invariant |
| `Registry.DeliveredKeepsInv` | server.js:40-53 | a market-data message keeps the invariant |
| `Registry.SubscribeIdempotent` | server.js:34 | joining twice is the same as joining once |
| `Registry.SubscribeOpensFreshSession` | server.js:36 | a new session's handle belongs to no earlier session |
| `Registry.OneLeaveEndsSharedSession` | server.js:160-164 | after two joins of one symbol, one leave unregisters it and closes the shared session |
| `Registry.LateCloseOrphansReplacement` | server.js:55 | leave, rejoin, then the old session's close: the replacement is unregistered while still live, and the next join leaves two live sessions for the symbol |
| `Registry.Step` | server.js:153-164 | once crashed, no event changes anything; otherwise a join subscribes, a leave unsubscribes, and a message, close or error acts for its session; events of sessions never opened change nothing; the log only grows, handles only increase and no session is forgotten |
| `Registry.Run` | server.js:153-164 | over any event stream the log only grows, handles only increase, no session is forgotten, and a crashed relay stays exactly as it was |
| `Registry.RunKeepsInv` | server.js:153-164 | over any event stream the invariant holds |
| `Registry.RegisteredOnlyByJoin` | server.js:154-158 | a symbol is registered after a stream only if it was before or the stream joined it |
| `Registry.LiveRegisteredAtMostOne` | server.js:34 | when every live session is the one registered for its symbol, no symbol has two live sessions |
| `Registry.StepKeepsLiveRegistered` | server.js:153-164 | a join, a leave or a message keeps every live session registered under its symbol |
| `Registry.WithoutLateCloseOneSessionPerSymbol` | server.js:153-164 | over any stream with no `close` or `error` event, every live session stays registered and each symbol has at most one live session |
| `Registry.SequentialJoinsOpenOneSession` | server.js:33-58 | from an empty table, joins, leaves and messages never leave two live sessions for one symbol |
| `Registry.JoinThenTickScenario` | server.js:33-46 | joining "R_100" and receiving its first tick logs the opening, the tick subscription, the `assetData` broadcast, and CALL then PUT quotes for "R_100" |
| `Registry.CrashEndsRegistry` | server.js:47-48 | a quote with no `echo_req` logs `Crashed` for its session, and a later join of another symbol opens nothing |
| `Registry.AssetRegistry.constructor` | server.js:14 | a new table is empty and valid |
| `Registry.AssetRegistry.FetchAssetData` | server.js:33-58 | performs exactly `Subscribed` and keeps the invariant |
| `Registry.AssetRegistry.UnsubscribeAssetData` | server.js:145-151 | performs exactly `Unsubscribed` and keeps the invariant |
| `Registry.AssetRegistry.OnSessionEnd` | server.js:55-56 | performs exactly `SessionEnded` and keeps the invariant |
| `Registry.AssetRegistry.OnMessage` | server.js:40-53 | performs exactly `Delivered` and keeps the invariant |
| `Registry.AssetRegistry.Process` | server.js:153-164 | handling a stream of events one at a time, stopping at a crash, ends in `Run` of the stream |
| `Account.AuthorizeRequest` | server.js:65 | the authorize request is `{authorize: token}` and nothing else |
| `Account.BalanceSubscription` | server.js:70 | the balance request is `{balance: 1, subscribe: 1, loginid}` |
| `Account.TopUpRequest` | server.js:90 | the top-up request is `{topup_virtual: 1, loginid}` |
| `Account.BuyRequest` | server.js:114 | the buy request names the quote id, the price and the login id, and nothing else |
| `Account.Stripped` | server.js:110 | the forwarded payload is the caller's without `token`, every other field unchanged |
| `Account.OnOpen` | server.js:65 | every flow's first request is a single authorize request carrying the caller's token |
| `Account.OnBalanceMessage` | server.js:66-75 | broadcasts only to the user's room; sends exactly when authorization is accepted, and then only the balance subscription; a rejected authorization yields one "Authorization failed" broadcast; a balance update is relayed as `walletUpdate` |
| `Account.OnTopUpMessage` | server.js:86-96 | as the balance flow, but an accepted authorization sends the top-up request and then the balance subscription |
| `Account.OnPurchaseMessage` | server.js:106-123 | a rejected authorization yields one "Authorization failed" broadcast and no send; an accepted one sends the trade without `token`; a quote yields a buy with `buy = proposal.id` and `price = data.amount`; a truthy `buy` yields "Purchase successful", otherwise "Purchase failed" with the response's error; it throws exactly on a `proposal` message without a quote body |
| `Account.OnHistoryMessage` | server.js:134-142 | any authorize response, rejected or not, sends the history request without `token`; it broadcasts exactly on `profit_table`, to the user's room |
| `Account.OnError` | server.js:77-125 | a socket error (lines 77, 98 and 125) broadcasts "Balance fetch error", "Top-up error" or "Purchase error" with the error to the user's room; the history flow, having no listener, throws |
| `Account.OnMessage` | server.js:66-142 | the `message` listener of each flow broadcasts only to the user's room; it sends only on an authorize response or a purchase flow's quote; it throws exactly on a purchase flow's `proposal` message without a quote body |
| `Account.Handle` | server.js:65-134 | `open` sends exactly the authorize request; a socket error throws exactly in the history flow (lines 77, 98 and 125 install the others' listeners); a message throws exactly as `OnMessage` does; every broadcast goes to the user's room |
| `Account.Session` | server.js:63-143 | a flow's session over an event stream is crashed exactly when some event's handler throws; a stream that starts with `open` writes the authorize request first; an empty stream does nothing |
| `Account.HandleKeepsCredential` | server.js:60-142 | for one event of any flow, every request other than the authorize request has no `token` field, and every broadcast goes to the user's room |
| `Account.SessionKeepsCredential` | server.js:60-142 | over any event stream of any flow, every request but the authorize request lacks a `token` field, and every broadcast goes to the user's room |
| `Account.UnauthorizedSessionOnlyAuthorizes` | server.js:68-71 | in the balance, top-up and purchase flows, unless the peer accepts the authorization (or, in a purchase, sends a quote), the session writes nothing but the authorize request |
| `Account.HistoryIgnoresRejection` | server.js:136-138 | a history session whose authorization is rejected still sends the history request after the authorize request |
| `Login.UserData` | server.js:237-249 | the profile has exactly the ten fields copied from `authorize`, plus `deriv_token` set to the credential |
| `Login.OnOpen` | server.js:228 | the login session's first request is `{authorize: token}` |
| `Login.OnFirstMessage` | server.js:229-251 | an error answers status 0 with the error's message; an authorize response answers status 1 with `data.loginid = authorize.loginid`, `data.deriv_token = token` and the token; status is 0 exactly when there was an error; any other first message leaves the request unanswered; it throws exactly on an authorize response with no `authorize` body |

## Left out

- The sockets themselves (`ws`, socket.io, express), `JSON.parse` and `JSON.stringify`, are not modelled. Inbound messages and client payloads are taken as already-parsed objects. Outbound effects are the abstract `Send` and `Emit` actions.
- HTTP status codes are not modelled. A login answer keeps only its JSON body, whose `status` field tells success (1) from failure (0).
- The socket `open` event is not a separate step. The `{ticks: asset}` request is logged together with the opening, since no message can reach a session before it is open. The send is therefore also logged for sessions that never open: one whose connection fails, and one left by `leaveAssetRoom` while still connecting, whose `close()` aborts the handshake so `open` never fires. Each flow's `open` handler is `Account.OnOpen`.
- `fetchAssetsFromDeriv` and the assets endpoint are not modelled. They poll `readyState` every 100 ms on a timer and resolve on `active_symbols`, which is timing and I/O.
- The account flows and the login endpoint run as separate sessions, each over its own event stream. How their events interleave with each other and with the registry's is not modelled. The order in which clients receive broadcasts from different sessions is lost. So is the fact that they share one process: a throw in any session (a history socket error, a purchase quote without a body, a market quote without `echo_req`) ends every other session and the registry as well, while the model stops only the session or registry run that threw.
- `socket.join` and `socket.leave` are not modelled, and neither is `console` logging. Only the room an emit targets is kept.
- Object keys that `assetConnections` inherits from `Object.prototype` (such as `toString`) are not modelled. For such keys the source's `if (assetConnections[asset])` test sees an inherited function. The model treats every symbol as an ordinary key.
- Number values are mathematical reals. NaN, infinities and the built-in properties of primitives and arrays (such as `length` and array indices) are not represented. The relay reads none of them.
- The `joinAssetRoom` and `leaveAssetRoom` argument is taken to be a string. The source accepts any client value, converts it to a string key for `assetConnections`, and uses the raw value in `{ticks: asset}` and `io.to(asset)`.
- Client payloads are taken to be objects. Other payloads are not modelled. In the source, only an `undefined` or `null` payload makes the flows' destructuring throw, and since the flows are `async` functions (server.js:60, 80, 101, 128) that throw is a rejected promise. A string, number or boolean payload destructures to `undefined` fields, and the history flow's `...historyRequest` would copy a string payload's index characters into the request.
- A thrown handler ends the run. The registry logs `Crashed`, sets `crashed` and ignores every later event; a flow's `Session` stops with `crashed` set. Process exit itself, and the sockets left open at that point, are not modelled.
- The login endpoint's outer `try`/`catch` is not modelled. It only guards the synchronous socket construction. The login socket's missing `error` listener is also not modelled.
