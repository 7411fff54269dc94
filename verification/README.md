# Chat synchronization model

A Dafny model of the synchronization core of a polling chat application. The core has three parts:

- The chat endpoint (`app/api/chat/route.ts`). It keeps a process-wide state: an append-only message log, a presence table (username → joinedAt, lastSeen, isTyping) and a typing set. It has four transitions: a pull (`GET`), a typing push and a message push (`POST`), and the presence reaper's periodic sweep.
- The client sync engine (`lib/websocket.ts`, class `WebSocketManager`). It polls every second and moves its cursor (`lastTimestamp`) to the server's instant from each reply. A reply that arrives late, or a server clock behind the client's, moves it back. It tracks whether it is connected, retries with a linear backoff capped at five attempts, and debounces typing state with a three-second idle timer.
- The typing indicator's text (`components/typing-indicator.tsx`).

The model is functional:

- Every state is an immutable datatype and every transition is a pure function.
- Clocks become an explicit `now` parameter in integer milliseconds. Random ids become explicit `freshId` / `ids` parameters.
- Timers, network completions and user actions become client `Event`s.
- Callbacks, HTTP requests and timer arming become an `Output` trace.
- JavaScript's `Map` and `Set` keep insertion order. The model therefore holds the presence table and the typing set as sequences. `Lookup` plays `Map.get`, `AddName` plays `Set.add` and `RemoveName` plays `Set.delete`.

Modules:

- `ChatTypes` (chat_types.dfy): `Option`, order-preserving `Filter` and its lemmas, `Message`, `Presence`.
- `ServerStore` (server_store.dfy): the store, `Pull`, `Post` and `Reap`, and the well-formedness invariant.
- `ClientEngine` (client_engine.dfy): the `WebSocketManager` state machine, with one function per method and `Step` / `Run`.
- `ClientRuns` (client_runs.dfy): properties of whole event runs.
- `TypingIndicator` (typing_indicator.dfy): the filter and the text.
- `Sync` (sync.dfy): server and client together, including the conditions under which consecutive polls miss nothing.

In the following places the code does something other than what a chat client evidently intends. The model follows the code:

- A typing push adds an unknown sender to the typing set (route.ts:82). The reaper clears only the names of entries it evicts (route.ts:13), so no sweep removes such a name while it has no presence entry (`Sync.OrphanTypingSurvivesSweep`). Only a typing=false push from that name (route.ts:84), or a later pull that creates its entry followed by an eviction, takes it out. "Every typing name has a presence entry" is therefore not an invariant.
- A message push validates nothing (route.ts:97-105). `data.id || randomUUID()` and `data.type || "message"` treat an empty string as absent (`ChatTypes.OrElse`).
- A poll failure never disarms the poll interval (websocket.ts:101-110). Reaching the reconnect cap is therefore not terminal: the client keeps polling every tick (`ClientRuns.PollingSurvivesFailures`).
- `disconnect` clears `isConnected` without calling `onConnectionChange(false)` (websocket.ts:194). Connection notifications therefore alternate only in runs without `disconnect` (`ClientRuns.NotificationsAlternate`). A later reconnect notifies `true` twice in a row (`ClientRuns.DisconnectRepeatsConnected`).
- `disconnect` does not cancel a pending reconnect timeout. When it fires, polling restarts (`ClientRuns.RestartAfterDisconnectResumesPolling`).
- `disconnect` does not stop a poll already in flight. If it succeeds, the disconnected client is marked connected again and notifies `true` (`ClientRuns.LatePollAfterDisconnect`).
- The pull cursor is the handler's own instant and the delta filter is a strict `>` (route.ts:65, 71). A message posted in the same millisecond as that instant is not delivered by the next pull that uses that cursor (`Sync.SameMillisecondPostIsMissed`). Only a pull with an older cursor, such as a second poll sent while an earlier one was still in flight, can still return it. The evidently intended behaviour is that consecutive polls together deliver every message exactly once. That holds only under the condition stated in `Sync.ConsecutiveDeltas`.
- The client adopts `data.timestamp` only when it is truthy (websocket.ts:98), so a reply timestamp of 0 leaves the cursor unchanged.
- The `since` parameter has three cases. Absent or empty counts as `"0"` (route.ts:31). A number within the range of a `Date` (at most 8.64e15 ms from the epoch, ECMAScript's TimeClip) is used as is. A value that does not parse, or a number outside that range, gives an Invalid Date (NaN). The delta is then empty, because no comparison with NaN holds.

## Model

| member | source | states |
|---|---|---|
| ChatTypes.Filter | app/api/chat/route.ts:65 | the filtered sequence holds exactly the elements of the input that satisfy the predicate, and is never longer than the input |
| ChatTypes.FilterConcat | app/api/chat/route.ts:65 | filtering a concatenation is the concatenation of the filtered parts, so the filter keeps the input order |
| ChatTypes.FilterKeepsDistinct | app/api/chat/route.ts:2-3 | filtering a sequence whose keys are unique leaves the keys unique, so the sweep keeps one entry per user and one typing name per user |
| ChatTypes.OrElse | app/api/chat/route.ts:98-102 | a present non-empty string wins; an absent or empty one yields the fallback |
| ServerStore.Lookup | app/api/chat/route.ts:38 | a found entry belongs to the table under that name; nothing is found exactly when no entry has that name |
| ServerStore.LookupSnoc | app/api/chat/route.ts:47 | adding an entry for a new name makes it findable and leaves every other name's entry as it was |
| ServerStore.Touch | app/api/chat/route.ts:58-61 | refreshing one user's entry sets its lastSeen (and typing flag, if given), keeps table order and length, and leaves every other user's entry unchanged |
| ServerStore.AddName | app/api/chat/route.ts:82 | like `Set.add`: a name already present leaves the set as it is, and a new name goes last after the old names in their order; no repeats arise |
| ServerStore.RemoveName | app/api/chat/route.ts:84 | like `Set.delete`: the set afterwards holds exactly the old names other than the removed one, is unchanged when the name was absent, and has no repeats |
| ServerStore.RemoveNameAt | app/api/chat/route.ts:84 | deleting the name at position i of a repeat-free set leaves the names before and after it in their order, with the gap closed |
| ServerStore.After | app/api/chat/route.ts:64-65 | the delta holds exactly the log entries stamped strictly after the cursor; an entry stamped at the cursor is never returned |
| ServerStore.Delta | app/api/chat/route.ts:31-65 | an absent `since` selects entries after 0, and a number within ±8.64e15 selects entries after it. An unparsable one, or a number outside that range (an Invalid Date), selects nothing |
| ServerStore.AfterConcat | app/api/chat/route.ts:57-65 | the delta of a grown log is the old log's delta followed by the delta of the appended entries |
| ServerStore.Pull | app/api/chat/route.ts:28-73 | a missing or empty username gets 400 and nothing changes. A new user gets the entry (u, now, now, false) at the end of the table and one join message at the end of the log, and nothing else changes. A known user only has lastSeen set to now, in place, with the table's order unchanged. The reply carries the delta, the full table, the typing set and `now` |
| ServerStore.OwnJoinDelivered | app/api/chat/route.ts:57-65 | when the cursor is a valid `Date` instant before `now`, a user's first pull returns their own join message as the last entry of the delta |
| ServerStore.Post | app/api/chat/route.ts:75-114 | type "typing" updates only the typing set, by `Set.add` or `Set.delete` of the sender so that the set keeps its order (the sender is in it exactly when isTyping), and, for a known sender only, isTyping and lastSeen, refreshed in place so that the table keeps its order and length. Any other body appends one message (the given id or a fresh one, the given type or "message", stamped now) at the end of the log, with no validation, and refreshes lastSeen in place only for a known sender |
| ServerStore.Evicted | app/api/chat/route.ts:10-11 | the entries evicted are exactly those idle for more than 60000 ms |
| ServerStore.Kept | app/api/chat/route.ts:10-11 | the entries kept are exactly those idle for at most 60000 ms |
| ServerStore.KeptConcat | app/api/chat/route.ts:10-12 | the kept entries of a table are the kept entries of each part, so a sweep keeps the surviving users in table order |
| ServerStore.EvictedPlusKept | app/api/chat/route.ts:10-12 | every entry is either evicted or kept: the two counts add up to the table size |
| ServerStore.ReapLog | app/api/chat/route.ts:15-23 | every entry the sweep appends is a "<u> left the chat" leave message stamped now for an evicted user, and every evicted user gets one |
| ServerStore.Reap | app/api/chat/route.ts:6-26 | the sweep keeps exactly the entries idle for at most 60000 ms, unchanged and in table order. It drops evicted names from the typing set and no others, keeping the remaining names in order. It keeps the old log and appends one leave message per evicted entry, in table order, the i-th carrying ids[i] |
| ServerStore.TouchKeepsWf | app/api/chat/route.ts:58-61 | refreshing an entry keeps names unique and joinedAt ≤ lastSeen ≤ now |
| ServerStore.PullKeepsWf | app/api/chat/route.ts:38-61 | a pull keeps one entry per user, no repeated typing names, joinedAt ≤ lastSeen, and nothing stamped after now |
| ServerStore.PostKeepsWf | app/api/chat/route.ts:79-111 | a push keeps the same invariant |
| ServerStore.ReapKeepsWf | app/api/chat/route.ts:10-25 | a sweep keeps the same invariant |
| ClientEngine.Deliveries | lib/websocket.ts:82-86 | one onMessage call per message, in the order given, and no other callback |
| ClientEngine.StartPolling | lib/websocket.ts:48-60 | arms the poll interval and emits exactly one poll with the current cursor, and nothing else |
| ClientEngine.ConnectAt | lib/websocket.ts:38-46 | records the username, sets the cursor to now, arms polling and polls once with that cursor; connection and typing state are untouched |
| ClientEngine.OnTick | lib/websocket.ts:54-56 | an armed interval emits exactly one poll with the current cursor and nothing else; an unarmed one emits nothing |
| ClientEngine.PollTraceViews | lib/websocket.ts:74-95 | a successful poll's trace notifies at most one `true`, delivers exactly the given messages in order, and pushes, schedules and polls nothing |
| ClientEngine.OnPollSuccess | lib/websocket.ts:72-100 | after a successful poll the client is connected. The attempt counter resets, and `onConnectionChange(true)` fires, only if it was disconnected. Every delta message reaches onMessage in received order. The cursor moves to a present non-zero reply timestamp and otherwise stays |
| ClientEngine.PollSuccessSnapshots | lib/websocket.ts:74-95 | a successful poll calls onUsersChange with the body's user table and onTypingChange with its typing set, once each and only when present. The trace holds only these callbacks, with no push, timer or poll, and they come in the order connection change, messages, users, typing, so the `true` notification precedes every delivered message |
| ClientEngine.AttemptReconnect | lib/websocket.ts:113-122 | below 5 attempts it counts one more and emits exactly one restart, after 1000 × the new count ms; at the cap it changes and emits nothing |
| ClientEngine.OnPollFailure | lib/websocket.ts:101-110 | after a failure the client is disconnected. The trace is exactly `onConnectionChange(false)` if it was connected, followed by one restart after 1000 × the new count ms if below the cap, and nothing else. The poll interval stays armed |
| ClientEngine.SendMessage | lib/websocket.ts:124-142 | pushes one message carrying the fresh id and returns that id when delivery is tracked, true otherwise; the client state is unchanged |
| ClientEngine.OnStartTyping | lib/websocket.ts:144-159 | afterwards the flag is set and exactly one idle timer is pending. The trace is a typing=true push if the flag was clear, then the timer arming, and nothing else |
| ClientEngine.OnStopTyping | lib/websocket.ts:161-171 | afterwards the flag is clear and no timer is pending. The trace is a typing=false push if the flag was set, and nothing else |
| ClientEngine.OnIdleTimer | lib/websocket.ts:156-158 | the idle timer stops typing for the user it was armed for; with no timer pending nothing happens |
| ClientEngine.OnDisconnect | lib/websocket.ts:189-196 | with an armed interval it stops typing, disarms polling and clears isConnected, keeping username, cursor and attempt count; its trace is a typing=false push if the flag was set and nothing else, with no connection notification. Otherwise it changes nothing and emits nothing |
| ClientEngine.Step | lib/websocket.ts:21-201 | every event keeps the invariant (attempts ≤ 5, connected ⇒ attempts = 0, typing flag ⇔ idle timer pending). A typing push happens exactly when the flag flips and carries the new value. Apart from disconnect, a connection notification happens exactly when isConnected flips. Only disconnect disarms polling |
| ClientRuns.RunKeepsInv | lib/websocket.ts:74-195 | every run from an invariant state ends in one |
| ClientRuns.TypingPushesAlternate | lib/websocket.ts:144-171 | over any run the pushed typing flags strictly alternate, starting opposite to the local flag, and the local flag ends equal to the last pushed value |
| ClientRuns.FirstTypingPushIsTrue | lib/websocket.ts:144-148 | from a fresh manager the typing pushes alternate starting with true |
| ClientRuns.NotificationsAlternate | lib/websocket.ts:74-107 | over any run without disconnect, connection notifications strictly alternate, starting opposite to isConnected, which ends equal to the last notification |
| ClientRuns.DisconnectRepeatsConnected | lib/websocket.ts:189-195 | connect, succeed, disconnect, connect, succeed notifies `true, true`: disconnect breaks the alternation |
| ClientRuns.LatePollAfterDisconnect | lib/websocket.ts:74-79 | a poll that succeeds after disconnect marks the client connected again, resets the attempt count and notifies `true`, while the poll interval stays off |
| ClientRuns.PollingSurvivesFailures | lib/websocket.ts:101-110 | in any run without disconnect the poll interval stays armed, even at the reconnect cap, and the next tick polls |
| ClientRuns.BackoffsCons | lib/websocket.ts:118-120 | the backoff schedule from attempt a is 1000 × (a+1) followed by the schedule from attempt a+1 |
| ClientRuns.RepeatedFailures | lib/websocket.ts:113-122 | n consecutive failures raise the counter by min(n, 5 − attempts) and schedule restarts after 1000 × (a+1), 1000 × (a+2), … ms, one per counted attempt |
| ClientRuns.FiveRetriesAtMost | lib/websocket.ts:114 | from a zero counter, five or more failures schedule exactly the restarts 1000, 2000, 3000, 4000, 5000 ms and no sixth |
| ClientRuns.TypingBurst | lib/websocket.ts:144-170 | two startTyping calls inside the idle window push true once; the idle timer then pushes false once |
| ClientRuns.RestartAfterDisconnectResumesPolling | lib/websocket.ts:113-195 | a reconnect timeout firing after disconnect re-arms polling and issues a poll |
| TypingIndicator.OtherTypingUsers | components/typing-indicator.tsx:9 | the current user is never among the others, and a name is among them exactly when it is typing and is not the current user |
| TypingIndicator.OtherTypingUsersConcat | components/typing-indicator.tsx:9 | the others of a concatenation are the others of each part, so the original order is kept |
| TypingIndicator.OtherTypingUsersSingle | components/typing-indicator.tsx:9 | a single name is kept exactly when it is not the current user |
| TypingIndicator.DecimalString | components/typing-indicator.tsx:21 | the count is rendered as a non-empty run of decimal digits without a leading zero |
| TypingIndicator.ParseDecimalString | components/typing-indicator.tsx:21 | reading the rendered count back yields the count |
| TypingIndicator.TypingText | components/typing-indicator.tsx:9-23 | nothing is rendered exactly when no one but the current user is typing. One other user gives "<u> is typing...", two give "<a> and <b> are typing..." in filtered order. Three or more give "<n> people are typing...", where the prefix is a canonical decimal (digits only, no leading zero) that reads back as the number of others |
| TypingIndicator.TwoOthersText | components/typing-indicator.tsx:18-19 | two other users typing read "<a> and <b> are typing..." in the order the server listed them |
| Sync.AsPollData | app/api/chat/route.ts:67-72 | a pull reply arrives at the client with its messages, users, typing set and timestamp all present |
| Sync.AsPostBody | lib/websocket.ts:126-136 | the pushed body carries the message's id, type, sender and content |
| Sync.PollDeliversDelta | lib/websocket.ts:64-100 | one poll hands onMessage exactly the log entries stamped after the client's cursor, in log order (nothing when the cursor lies outside the range of a `Date`), hands onUsersChange and onTypingChange the server's user table and typing set once each, and moves the cursor to the server's instant when it is non-zero |
| Sync.NamelessPullRejected | app/api/chat/route.ts:33-35 | a pull with an empty username is rejected with 400 and changes nothing |
| Sync.TrackedIdIsStoredId | lib/websocket.ts:124-141 | the id sendMessage returns under delivery tracking is the id the server stores the message under |
| Sync.PullCursorCoversLog | app/api/chat/route.ts:64-71 | after a pull, nothing in the log is stamped later than the cursor it returns |
| Sync.AfterKeepsNewer | app/api/chat/route.ts:65 | when every entry is newer than the cursor, the delta is the whole sequence |
| Sync.AfterDropsOlder | app/api/chat/route.ts:65 | when no entry is newer than the cursor, the delta is empty |
| Sync.ConsecutiveDeltas | app/api/chat/route.ts:64-71 | the conditional no-gap property. Take a pull whose log is stamped at or before its cursor, and entries appended afterwards stamped strictly after it. The first delta followed by the next pull's delta is then the log after the original `since`, in order, each entry once |
| Sync.SameMillisecondPostIsMissed | app/api/chat/route.ts:64-105 | a message posted in the same millisecond as a pull's cursor is in neither that pull's delta nor the delta of the next pull, which uses that cursor |
| Sync.TwoUserScenario | app/api/chat/route.ts:28-113 | ann's first pull returns ann's join and entry. The "hi" ann posts is echoed with type "message". bob's first pull from 0 returns ann's join, "hi" and bob's own join, in that order |
| Sync.NewcomerSeesHistory | app/api/chat/route.ts:38-65 | a new user's first pull from 0 returns the whole log followed by that user's join message, when every logged entry is stamped after 0 |
| Sync.FirstPullOnEmpty | app/api/chat/route.ts:38-72 | the first pull an empty server serves stores exactly the user's join and entry, and replies with just that join, that entry, no typing names and `now` |
| Sync.TypingStartsKeepOrder | app/api/chat/route.ts:79-82 | two users who start typing, neither of them already in the set, are appended in the order they started |
| Sync.TypingOrderReachesIndicator | app/api/chat/route.ts:79-82 | with nobody typing, a starts, then b, and a third user's next pull returns the typing set [a, b], which the indicator shows as "<a> and <b> are typing..." |
| Sync.OrphanTypingSurvivesSweep | app/api/chat/route.ts:79-92 | a typing push from an unknown name adds it to the typing set without a presence entry, and a sweep leaves it there |

## Left out

- HTTP plumbing: `fetch`, `Request`/`Response`, JSON encoding, URL and query parsing and status codes. Requests are parsed datatypes and replies are values. `parseInt`'s partial parses ("12abc" → 12) are not modelled; a `since` is a number, absent, or unparsable.
- The 500 path of `POST` (route.ts:115-118) and a body whose `sender` or `content` field is missing altogether. The model's fields are always strings, and an empty string covers the falsy cases the code tests.
- `setInterval`, `setTimeout`, `clearTimeout` and real time. The reaper's 60-second period, the one-second poll interval and the three-second idle timer are events fired by the environment. Events are handled one at a time, and any event can come next. So a poll's reply may arrive after `disconnect` or after a later poll, and the model covers those orders (see ClientRuns.LatePollAfterDisconnect). Two handlers running interleaved within one event are not modelled.
- Within one handler, every clock read (`Date.now()`, `new Date()`) is the same instant `now`. The source reads the clock several times, possibly across a millisecond boundary.
- `crypto.randomUUID`: ids are parameters. The reaper takes a sequence `ids`, and the i-th evicted user's leave message gets `ids[i]`.
- ISO-string and `Date` conversions: instants are integer milliseconds.
- `console.log` / `console.error`, and the unused `status` field of `ChatMessage`.
- The `isConnected()` method shares its name with the field (websocket.ts:198-200). The field is modelled.
- React rendering: the page, the sidebar, the input, the message bubbles, the join form, the message list, the system message and the connection badge.
- ClientRuns.NotificationsAlternate: stated only for runs without `disconnect`, because `disconnect` clears `isConnected` silently and the unrestricted alternation is false (see ClientRuns.DisconnectRepeatsConnected).
- Sync.ConsecutiveDeltas: "no gaps" is stated only under the hypothesis that later messages are stamped strictly after the cursor, because the code can miss a same-millisecond message (see Sync.SameMillisecondPostIsMissed).
