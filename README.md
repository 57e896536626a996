# Per-user flow control of a Telegram–Gemini relay bot

This project models, in Dafny, the bookkeeping core of a Telegram bot (`index.js`) that relays
each user's messages to a Gemini chat model and stores the conversation. The model covers:

- **The throttle** (`isRateLimited`). A map from user to the time of their last accepted message.
  A message is accepted when the user has no timestamp or when at least 5000 ms have passed.
  Acceptance restamps the user. Otherwise the remaining wait is returned and nothing changes.
- **The pending slot** (`userPendingMessage`). A throttled message goes into the user's slot if
  the slot is empty, and a one-shot timer is set for the wait. If the slot is full, the message
  is dropped with a "Do not spam" notice. When the timer fires, it empties the slot and then
  re-enters the whole handler with the parked message.
- **The two histories**. Each user has a mirror cached in `tempai` and a stored copy under the
  key `history-<id>` in the kubitdb store. The commands are `/newchat` (reset),
  `/removelastmsg` (drop the last pair) and `/resent` (drop the last pair and resubmit its user
  text). A model answer appends a (user, model) pair to the stored copy.
- **Reply delivery** (`safeReply`). A reply is sent as slices of at most 2000 characters.

The source has two forms, and the model follows them:

- **Pure functions on a snapshot of the state.** `Flow.Handle`, `Flow.Accepted`, `Flow.Ask` and
  `Flow.Fire` describe the handler. The properties are proved about these functions as lemmas.
- **A class that updates the four maps in place.** `BotHandler.Bot` has the fields `lastTime`,
  `pending`, `sessions` and `store`, and methods mirroring the program's steps. Each method is
  proved to leave exactly the snapshot the matching function gives. Every method requires and
  ensures the invariant `Flow.Valid` (as `Bot.Invariant`), and the constructor establishes it:
  - every stored history is made of whole (user, model) pairs;
  - every cached mirror is made of whole pairs and is a prefix of its user's stored history;
  - every pending slot holds a message of its own user that has a text.

The loops of the source stay loops: `popLastMessages` (`History.PopLastMessages`) and the
sending loop of `safeReply` (`Chunking.SafeReply`).

External inputs are parameters:

- The current time `now` stands for `Date.now()`.
- The model's answer is a `ModelOutcome`: `Responded(text)` or `Failed` (the call threw).
- A timer firing is an explicit `FireTimer(u, now, model)` call.
- Replies are returned: the text given to `msg.reply`, and the slices `safeReply` would send.

Three behaviours of the code are worth knowing, and the model keeps them:

- A model failure after `/resent` leaves the history one pair shorter. `/resent` pops the last
  pair from both histories and saves the store before it calls the model (index.js:148-150),
  and the catch block restores nothing. `Flow.ResendEffect` states this.
- A model answer is pushed only to the stored copy (index.js:157-164); the handler's own code
  never appends to the cached mirror. So the model proves that the mirror is a prefix of the
  stored copy, not that the two are equal. `initChat` hands the very array it caches to
  `startChat` (index.js:81-86), and the model assumes the Gemini SDK never appends to it (see
  "Left out"). Under that assumption the commands that read the mirror see a shorter history
  than the store holds. If the SDK does append its turns, the mirror does not lag, and these
  two consequences do not arise:
  - With the mirror `[U1, M1, U2, M2]` and the store `[U1, M1, U2, M2, U3, M3]`, `/resent`
    resubmits U2's text, drops U3 and M3 from the store, and on an answer `x` stores
    `[U1, M1, U2, M2, U2, x]` (`Flow.StaleMirrorResend`; `Flow.ResendAnswered` states the
    general case).
  - For a new user, one answered prompt caches an empty mirror and stores one pair, so a
    `/removelastmsg` right after it replies "No messages to remove." and removes nothing
    (`Flow.RemoveAfterFirstAnswer`).
- JavaScript truthiness is kept. A stored timestamp of 0 counts as no timestamp
  (index.js:45). A message whose text is empty or missing is ignored before the throttle
  (index.js:94).

## Model

| member | source | states |
|---|---|---|
| `Keys.Decimal` | index.js:37-39 | the rendering of a user id (below 2^53, as JavaScript renders it) is non-empty, all decimal digits, with no leading zero, and one digit exactly for ids below 10 |
| `Keys.DecimalInjective` | index.js:37-39 | two ids with the same decimal rendering are equal |
| `Keys.HistoryKeyParts` | index.js:37-39 | the key of a user is `history-` followed by the decimal rendering of the id, which can be read back from it |
| `Keys.HistoryKeyInjective` | index.js:37-39 | `history-<id>` keys of two users coincide exactly when the users are the same |
| `RateLimit.Wait` | index.js:42-52 | the wait is never negative; it is 0 exactly when there is no (truthy) timestamp or at least 5000 ms have elapsed, so exactly 5000 is accepted; a positive wait ends exactly 5000 ms after the stored time and lies in 1..5000 when the clock has not gone back |
| `RateLimit.WaitElapses` | index.js:100-110 | once the returned delay has passed, the same stored stamp no longer throttles |
| `BotHandler.Bot.IsRateLimited` | index.js:42-52 | returns the wait; restamps the user with `now` exactly when the wait is 0; leaves the other maps alone and keeps the invariant |
| `Chunking.Chunks` | index.js:69-76 | there are no slices exactly for an empty text, and ceil(len/2000) of them otherwise |
| `Chunking.ChunksCoverText` | index.js:65-78 | the slices join back to the text in order; each is non-empty and at most 2000 long; all but the last are exactly 2000 long |
| `Chunking.SafeReply` | index.js:65-78 | the sending loop sends exactly the slices of `Chunks`, in order |
| `History.PopLastMessages` | index.js:89-91 | the result has length max(0, len − count) and is a prefix of the input |
| `History.AppendPair` | index.js:157-164 | appending (input, answer) adds two entries and keeps the earlier ones; the result is made of whole pairs exactly when the history was |
| `History.DropPairKeepsPaired` | index.js:132-136 | dropping the last pair of a paired history leaves a paired history; the last two entries were a user turn and then a model turn |
| `History.DropPairKeepsPrefix` | index.js:132-136 | dropping a pair from a prefix and from the sequence it prefixes keeps the prefix relation |
| `Flow.Classify` | index.js:119-143 | a text selects a command exactly when it equals `/newchat`, `/removelastmsg` or `/resent`; every other text is a prompt for the model |
| `Flow.Stored` | index.js:81 | a user without a stored key reads as the empty history; a user with one reads exactly the stored value |
| `Flow.NewChat` | index.js:119-123 | `/newchat` leaves the user's stored history empty and their session evicted, and touches neither the timestamps nor the slots |
| `Flow.Resolve` | index.js:125-127 | after the `initChat` guard the user has a session whose mirror is the cached one or, failing that, the stored history; no other user's session changes, and the timestamps, slots and store are untouched |
| `Flow.RemoveLastMsg` | index.js:132-141 | `/removelastmsg` touches neither the timestamps nor the slots |
| `Flow.Resent` | index.js:143-153 | `/resent` touches neither the timestamps nor the slots |
| `Flow.ResentIsRetry` | index.js:143-153 | once both copies hold two entries, `/resent` is the retry of the entry at length−2 on the state with the last pair popped from both |
| `Flow.Retry` | index.js:151-153 | the guards after the pop and the model call touch neither the timestamps nor the slots |
| `Flow.Ask` | index.js:155-169 | on a model error, the state is unchanged and the reply is the generic error; on an answer, the reply is the answer and the stored history gains exactly the input and then the answer at its end; the throttle, the slots and the sessions are untouched |
| `Flow.Accepted` | index.js:118-170 | the command part of the handler never touches the timestamps or the pending slots, and it always replies |
| `Flow.Handle` | index.js:93-116 | an empty text changes nothing and gets no reply; a full slot is never overwritten; the slot changes only by parking this message, with the "too fast" notice; a throttled message changes neither the timestamps nor the histories or sessions; an accepted one restamps the user and leaves the slots alone |
| `Flow.Fire` | index.js:104-110 | firing for an empty slot changes nothing and replies nothing |
| `Flow.StoredOfOther` | index.js:37-39 | writing one user's history leaves every other user's stored history unchanged |
| `Flow.CommitKeepsValid` | index.js:133-136 | writing a paired mirror that is a prefix of a paired history keeps the invariant |
| `Flow.LoadKeepsValid` | index.js:80-87 | `initChat` keeps the invariant even when it replaces a cached mirror |
| `Flow.ResolveKeepsValid` | index.js:125-130 | `initChat` keeps the invariant: the mirror it loads is paired and is a prefix of the stored history |
| `Flow.AskKeepsValid` | index.js:155-164 | storing a model answer keeps the invariant |
| `Flow.NewChatKeepsValid` | index.js:119-123 | resetting a user's history and evicting their session keeps the invariant |
| `Flow.PopPairKeepsValid` | index.js:132-153 | popping the last pair from both histories keeps the invariant |
| `Flow.RemoveLastMsgKeepsValid` | index.js:132-141 | `/removelastmsg` keeps the invariant |
| `Flow.RetryKeepsValid` | index.js:151-166 | the guards after the pop and the model call keep the invariant |
| `Flow.ResentKeepsValid` | index.js:143-166 | `/resent` keeps the invariant |
| `Flow.AcceptedKeepsValid` | index.js:118-170 | every command keeps the invariant |
| `Flow.HandleKeepsValid` | index.js:93-170 | every incoming message keeps the invariant |
| `Flow.FireKeepsValid` | index.js:104-110 | every timer firing keeps the invariant |
| `Flow.InitialIsValid` | index.js:33-35 | the empty initial maps satisfy the invariant |
| `Flow.RestartIsValid` | index.js:25-35 | empty in-memory maps over a saved store of paired histories satisfy the invariant |
| `Flow.AcceptedIsolatesUsers` | index.js:118-170 | a command never changes another user's session or stored history |
| `Flow.HandleIsolatesUsers` | index.js:93-170 | a message never changes another user's timestamp, slot, session or stored history |
| `Flow.NewChatIdempotent` | index.js:119-123 | `/newchat` replies "Chat reset.", empties the stored history, evicts the session and leaves the timestamps and slots alone; a second `/newchat` gives the same state and reply |
| `Flow.RemoveLastMsgEffect` | index.js:132-141 | "Last message removed." is the reply exactly when both histories hold at least two entries; then each loses exactly its last two entries and keeps its prefix; otherwise the reply is "No messages to remove." and neither changes |
| `Flow.ResendEffect` | index.js:143-153 | with fewer than two entries in either history, nothing changes and the reply is "No messages to resend."; otherwise both lose the last pair first. With exactly two entries the reply is "No messages to resend."; an empty user text gives "No valid message to resend."; otherwise the entry at length−2 is submitted to the model, and a failure leaves the pair removed |
| `Flow.ResendAnswered` | index.js:143-164 | when the mirror holds more than one pair and its entry at length−2 has a text, `/resent` answered `x` replies `x`, the mirror loses its last pair, and the store loses its own last pair and gains (that text, `x`), whether or not the mirror lags behind the store |
| `Flow.ResendRoundTrip` | index.js:143-166 | on a history `[.., U2, M2]` held by both copies, `/resent` resubmits U2's text (a user turn); an answer `x` is the reply, the stored history becomes `[.., U2, x]`, and it stays paired |
| `Flow.TurnAppendsPair` | index.js:155-169 | a free-text message answered `x` appends exactly (text, x) to the stored history and replies `x`; a failed model call stores nothing and replies with the generic error; the mirror is unchanged |
| `Flow.StaleMirrorResend` | index.js:143-164 | with a mirror `[U1, M1, U2, M2]` behind a store `[U1, M1, U2, M2, U3, M3]`, `/resent` answered `x` replies `x`, leaves the mirror `[U1, M1]` and stores `[U1, M1, U2, M2, U2, x]` |
| `Flow.RemoveAfterFirstAnswer` | index.js:125-141 | for a user with no session and no stored history, an answered prompt stores one pair and caches an empty mirror, so `/removelastmsg` then replies "No messages to remove." and changes nothing |
| `Flow.ReplayAfterDelayIsAccepted` | index.js:100-110 | a throttled message meets an empty slot: it is parked with the "too fast" notice and nothing else changes; when the timer fires after the returned delay, the handler accepts it, exactly as a fresh message, and the slot stays empty |
| `Flow.FireReplaysOnce` | index.js:104-110 | firing removes the message from the slot before replaying it. If accepted, the slot stays empty; if throttled again, it goes back into the emptied slot. A second firing with the slot empty does nothing |
| `Flow.SlotHoldsOne` | index.js:101-115 | a throttled message that meets a full slot is dropped; only the "Do not spam" reply results |
| `Flow.HelloScenario` | index.js:93-170 | "hello" answered "hi" stores one pair; a message 2 s later is parked with no model call; its replay 3 s later stores a second pair |
| `BotHandler.Bot.constructor` | index.js:25-35 | the bot starts with the three in-memory maps empty and the store holding the saved histories, and the invariant holds |
| `BotHandler.Bot.InitChat` | index.js:80-87 | caches a session whose mirror is the stored history, or empty when there is none, and keeps the invariant |
| `BotHandler.Bot.PopPair` | index.js:132-136 | the mirror and the stored copy each lose their last two entries and the stored copy is written back; keeps the invariant |
| `BotHandler.Bot.NewChat` | index.js:119-123 | leaves exactly the state and reply of `Flow.NewChat`, and keeps the invariant |
| `BotHandler.Bot.RemoveLastMsg` | index.js:132-141 | leaves exactly the state and reply of `Flow.RemoveLastMsg`, and keeps the invariant |
| `BotHandler.Bot.Ask` | index.js:155-169 | the two `db.push` calls leave exactly the state and reply of `Flow.Ask`: the stored history gains the user's input and then the model's answer; keeps the invariant |
| `BotHandler.Bot.Resent` | index.js:143-153 | leaves exactly the state and reply of `Flow.Resent`, and keeps the invariant |
| `BotHandler.Bot.HandleAccepted` | index.js:118-170 | leaves exactly the state and reply of `Flow.Accepted`, and keeps the invariant |
| `BotHandler.Bot.OnMessage` | index.js:93-116 | leaves exactly the state and reply of `Flow.Handle`, sends `Chunks` of the reply, and keeps the invariant |
| `BotHandler.Bot.FireTimer` | index.js:104-110 | leaves exactly the state and reply of `Flow.Fire`, sends `Chunks` of the reply, and keeps the invariant |

## Left out

- Telegram transport: polling, `sendMessage`, `setMyCommands` and the `bot.on` wiring are network I/O. Replies are returned as strings, and the slices are returned unsent. A failed `sendMessage` is only logged by the source, so it changes nothing modelled.
- `markdownToHtml` is left out. It is formatting built on JavaScript regular expressions. The slices are returned before that conversion.
- The Gemini SDK (`getGenerativeModel`, `startChat`, `sendMessage`) is a foreign call. Its result is a parameter. The remote chat handle in a session is not modelled. Whether the SDK appends to the mirror array it was given is library behaviour, so the mirror changes only where `index.js` changes it.
- The kubitdb store is modelled as a map from key to history. Whether `db.get` returns an array aliased with the cached mirror is unknown, so the two are independent values.
- Timers and the clock are left out: `setTimeout` is an explicit `FireTimer` step, and `Date.now()` is the `now` parameter. Interleaving of the handler's `await` points between messages is left out: each message is handled atomically.
- Errors thrown by `initChat` or by the store are left out. Only the model call is modelled as failing. Any of these failures would land in the same catch block and the same generic reply.
- String lengths are counted in Dafny characters. JavaScript counts UTF-16 code units, so a slice boundary can fall elsewhere for text outside the Basic Multilingual Plane.
- BotHandler.Bot.constructor: requires every saved history to be made of whole pairs. The handler only ever writes such histories, except when the process stops between the two `db.push` calls (index.js:157-164); a store left unpaired that way is not covered.
- Keys.Decimal: is the rendering of `${userId}` only for ids below 2^53. Larger numbers are not exact in JavaScript, and from 10^21 on the template gives exponent notation. Telegram ids are far below 2^53.
- Process bootstrap is left out: environment variables, `Ai_Settings.json` and the start-up errors.
