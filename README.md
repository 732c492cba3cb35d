# deepleela-server core, modelled in Dafny

deepleela-server is the back end of a Go-playing and game-review web
application. Browsers talk to it over WebSockets. The server does four
things:

- It hands out Leela / Leela Zero engine processes from a bounded pool
  (`AIManager`). It relays GTP commands to them (`LeelaGoServer`).
- It relays live games from the CGOS game server to observers
  (`CGOSViewer`).
- It runs shared review rooms whose state, chat and membership live in a
  Redis store (`ReviewServer`).
- It has a few text utilities: line framing of engine output
  (`LineReadable`, `LineReader`), logging of the framed lines
  (`ReadableLogger`), and GTP-to-SGF vertex conversion (`coord2point`).

The Dafny project has one module per source file of that core. Two small
support modules back them: `Wrappers` (an `Option`) and `JsText`. `JsText`
holds the JavaScript string builtins the source relies on: `split`,
`startsWith`, `includes`, `replace`, `lastIndexOf`, `Number.parseInt`,
`String(n)`, ASCII case mapping, truthiness and `${…}` of `undefined`.

| module | source | form |
|---|---|---|
| `CoordHelper` | `src/lib/CoordHelper.ts` | functions and lemmas |
| `LineSplitting` | `src/lib/LineReadable.ts`, `src/lib/LineReader.ts` | specification functions plus a `LineReadable` class with a loop-carrying `OnData` |
| `Logging` | `src/lib/ReadableLogger.ts` | class |
| `Engines` | `src/common/AIManager.ts` | admission decision as a function, pool as a class |
| `Gateway` | `src/common/LeelaGoServer.ts` | class |
| `Review` | `src/common/ReviewServer.ts` | class over a `Store` class standing for Redis |
| `Cgos` | `src/common/CGOSViewer.ts` | class; line handling specified by folds over the chunk's lines |

Session objects are classes. Their fields are what the source mutates:

- the engine held;
- the keep-alive timer;
- the store connections;
- the entered room;
- the frames sent to each client;
- the observed games;
- the retained `match` lines.

Each method states its whole new state. The state-changing parts are
specified by pure functions: line framing, `gameover` / `update` / `setup`
fan-out, and departure of a closing client. The lemmas prove what those
functions mean.

## Model

| member | source | states |
|---|---|---|
| `CoordHelper.GtpColumnIndex` | src/lib/CoordHelper.ts:1-7 | column `i` of the GTP alphabet is found at index `i`: `A`–`H`, then `J`–`Z`, with no `I` |
| `CoordHelper.SgfLetterIndex` | src/lib/CoordHelper.ts:2 | SGF letter `i` (`a`–`z`, then `A`–`Z`) is found at index `i` |
| `CoordHelper.Coord2Point` | src/lib/CoordHelper.ts:4-13 | the result is empty or exactly two SGF letters |
| `CoordHelper.Coord2PointCharacterised` | src/lib/CoordHelper.ts:4-13 | a point is produced if and only if the vertex is not `pass`, its column is known and `size - row` is an SGF index; the point is then those two letters |
| `CoordHelper.PassHasNoPoint` | src/lib/CoordHelper.ts:5 | `pass` maps to the empty string on every board size |
| `CoordHelper.ColumnCaseInsensitive` | src/lib/CoordHelper.ts:7 | a lower-case column letter gives the same point as its upper-case form |
| `CoordHelper.UnknownColumnHasNoPoint` | src/lib/CoordHelper.ts:7-11 | `I`, `i` or any non-column character gives no point |
| `CoordHelper.RowAboveBoardHasNoPoint` | src/lib/CoordHelper.ts:8-11 | a row above the board size gives no point |
| `CoordHelper.PointDeterminesVertex` | src/lib/CoordHelper.ts:7-13 | inverse direction: a produced point determines the upper-cased column letter and the row |
| `CoordHelper.PointFromIndices` | src/lib/CoordHelper.ts:7-13 | an on-board vertex's point is the SGF letters at its column index and `size - row` |
| `CoordHelper.Board19Corners` | src/lib/CoordHelper.ts:4-13 | on 19×19, `A19` is `aa` and `T1` is `ss` |
| `CoordHelper.Board19StarPoint` | src/lib/CoordHelper.ts:4-13 | on 19×19, `Q16` and `q16` are both `pd` |
| `LineSplitting.LineReadable.OnData` | src/lib/LineReadable.ts:17-27 | the chunk, without carriage returns, is appended to the buffer; the emitted lines are the buffer's complete lines, each ending in the newline; the buffer becomes the text after the last newline |
| `LineSplitting.LinesReassemble` | src/lib/LineReader.ts:18-26 | the emitted lines joined, followed by the new buffer, are exactly the buffered text: nothing is lost or duplicated |
| `LineSplitting.LinesWellFormed` | src/lib/LineReader.ts:23-24 | every emitted line ends in the newline and contains no other |
| `LineSplitting.LineCount` | src/lib/LineReader.ts:23-24 | as many lines are emitted as the text has newlines |
| `LineSplitting.LineEndsAtFirstNewline` | src/lib/LineReader.ts:23-24 | the first emitted line runs up to and including the first newline |
| `LineSplitting.NewlineInLines` | src/lib/LineReader.ts:20-21 | text that begins with at least one emitted line holds a newline |
| `LineSplitting.DecompositionUnique` | src/lib/LineReader.ts:20-26 | any split into newline-terminated lines plus a newline-free rest is the one the handler computes |
| `LineSplitting.CompleteLinesCharacterised` | src/lib/LineReader.ts:20-26 | well-formed lines and a newline-free rest reassemble the text if and only if they are exactly the emitted lines and the new buffer |
| `LineSplitting.AllLinesAppend` | src/lib/LineReader.ts:23-24 | concatenating two runs of well-formed lines gives well-formed lines |
| `LineSplitting.Glue` | src/lib/LineReader.ts:18-26 | the lines of a first text, then the lines of its leftover plus more text, are well-formed lines of the whole |
| `LineSplitting.ChunkingInvariant` | src/lib/LineReader.ts:18-26 | framing a text, then its leftover plus more text, emits the same lines and leaves the same buffer as framing the whole text at once |
| `LineSplitting.OnDataChunking` | src/lib/LineReader.ts:17-27 | two chunks delivered one after the other emit the same lines and leave the same buffer as their concatenation delivered at once |
| `Logging.ReadableLogger.OnData` | src/lib/ReadableLogger.ts:15-18 | when enabled, the chunk is appended without carriage returns; when disabled, nothing changes; the log remains the captured chunks without carriage returns |
| `Logging.ReadableLogger.Start` | src/lib/ReadableLogger.ts:21-24 | enables recording with an empty log |
| `Logging.ReadableLogger.Stop` | src/lib/ReadableLogger.ts:26-28 | disables recording and keeps the log |
| `Logging.LogOfFramedText` | src/lib/ReadableLogger.ts:15-18 | logging framed lines records the received text, without carriage returns, up to its last newline, unaltered |
| `Engines.ProfileName` | src/common/AIManager.ts:18-20 | no name or an empty name selects `leela`; any other name is selected lower-cased, letter by letter, at its own length |
| `Engines.ProfileNameCaseInsensitive` | src/common/AIManager.ts:20 | names that differ only in letter case select the same profile |
| `Engines.PlayoutArgsRead` | src/common/AIManager.ts:26-27 | `--playouts` is passed exactly when a non-zero count is configured, and the engine parses back that count |
| `Engines.LeelaArgsRead` | src/common/AIManager.ts:24-28 | the `leela` command line starts `--gtp --noponder`, has no weights and carries the configured playouts |
| `Engines.LeelazeroArgsRead` | src/common/AIManager.ts:30-34 | the `leelazero` command line starts `--gtp --noponder`, passes the weights with `-w` and carries the configured playouts |
| `Engines.Decide` | src/common/AIManager.ts:18-38 | refused if and only if the pool is full or the profile is unknown; admitted if and only if there is room, the profile is known and has a value, and `leelazero` is configured; an admitted request carries the profile's executable and its command line |
| `Engines.AdmittedArgs` | src/common/AIManager.ts:36-38 | an admitted `leela` gets the `leela` command line, `leelazero` the `leelazero` one (whose `-w` reads back as the configured weights), and any other profile an empty command line |
| `Engines.AIManager.CreateController` | src/common/AIManager.ts:18-41 | returns `null`, throws or creates as `Decide` says; a created controller is new, not started, and the only one added to the pool |
| `Engines.AIManager.ReleaseController` | src/common/AIManager.ts:44-46 | nothing for `null`; otherwise the controller is asked to stop |
| `Engines.AIManager.ControllerStopped` | src/common/AIManager.ts:46-47 | once stopped, the controller leaves the pool and no other controller does |
| `Engines.Controller.Start` | src/common/LeelaGoServer.ts:111 | the engine runs exactly when a process was spawned |
| `Gateway.Pending` | src/common/LeelaGoServer.ts:105 | the number of waiting clients is the excess of online users over the pool size, and never negative |
| `Gateway.LeelaGoServer.Close` | src/common/LeelaGoServer.ts:65-75 | the keep-alive stops, one `close` event is emitted, the socket is terminated, and a held engine is released and forgotten |
| `Gateway.LeelaGoServer.HandleGtpMessages` | src/common/LeelaGoServer.ts:119-125 | without an engine nothing happens; with one, the command is forwarded and exactly the engine's reply is sent back |
| `Gateway.LeelaGoServer.HandleRequestAI` | src/common/LeelaGoServer.ts:93-117 | a repeat request for the running engine is granted and changes nothing; any other request releases the held engine and is then refused with the pending count, fails, or holds a new running engine for the profile, as the pool decides |
| `Gateway.LeelaGoServer.Acquire` | src/common/LeelaGoServer.ts:102-116 | with no engine held: a refusal answers `[false, pending]`; a pool exception or an engine without a process escapes; otherwise the new engine is held and `[true, 0]` is sent |
| `Gateway.LeelaGoServer.HandleMessage` | src/common/LeelaGoServer.ts:28-51 | malformed, untyped or command-less frames close the session and hand a held engine back to the pool; `gtp` frames are relayed and leave the session, its engine and the engine's flags unchanged; unknown types and commands change nothing, not even the held engine's flags; an engine request is answered as `handleRequestAI` decides (a repeat is granted with the engine left running and not asked to stop; otherwise the held engine is handed back, then a refusal with the pending count or a freshly spawned, running engine with the admitted command line held), and when it throws the session is closed with no reply and the profile kept; the pool's online-user count never changes |
| `Gateway.LeelaGoServer.OnEngineStopped` | src/common/LeelaGoServer.ts:110 | an engine that stops on its own is asked to stop through the pool |
| `Review.RoomChannelsAreFour` | src/common/ReviewServer.ts:184-191 | entering subscribes to four distinct channels |
| `Review.RoomKeysSeparate` | src/common/ReviewServer.ts:184-189 | different rooms never share a people counter, a leave channel or a state snapshot |
| `Review.RoomHashFields` | src/common/ReviewServer.ts:137-139 | a stored room reads back with each field it was created with |
| `Review.RoomInfoOf` | src/common/ReviewServer.ts:167 | the entering session is the owner if and only if its uuid is the stored one; the room id is the requested one |
| `Review.OwnerIsCreator` | src/common/ReviewServer.ts:137-167 | whoever enters with the creator's uuid, and only they, is owner, and sees the creator's sgf and nickname |
| `Review.EncodeState` | src/common/ReviewServer.ts:241-248 | each stored field is the state's field, numbers in decimal, undefined fields absent |
| `Review.ParseNum` | src/common/ReviewServer.ts:175 | `parseInt` of a stored field is never `undefined`, and is `NaN` for a missing field |
| `Review.DecodeSnapshot` | src/common/ReviewServer.ts:174-179 | missing fields read as `NaN` for cursor, `undefined` for branch cursor, `[]` for histories and -1 for history cursor |
| `Review.SnapshotRoundTrip` | src/common/ReviewServer.ts:171-181 | an owner's update, stored as `hmset` writes it (lines 241-248) then replayed to an entering session, gives back every defined field and the default for every undefined one |
| `Review.SnapshotKeepsOlderField` | src/common/ReviewServer.ts:241-248 | updates merge: every field a newer update leaves undefined keeps the earlier stored value and every defined one takes the newer value, so each snapshot field the update leaves out (room id, cursor, branch cursor, history, history cursor, history snapshots) decodes as before |
| `Review.NotificationsBounded` | src/common/ReviewServer.ts:193-212 | each listener pushes at most one frame per message, and none for another room's channel |
| `Review.Replay` | src/common/ReviewServer.ts:171-181 | an entering session is sent one state frame if and only if the room has a stored snapshot |
| `Review.Store.SetCount` | src/common/ReviewServer.ts:138 | `SET` writes the counter and nothing else |
| `Review.Store.Incr` | src/common/ReviewServer.ts:189 | `INCR` adds one, from 0 for a missing key |
| `Review.Store.Decr` | src/common/ReviewServer.ts:259 | `DECR` subtracts one, from 0 for a missing key |
| `Review.Store.HMSet` | src/common/ReviewServer.ts:139 | `HMSET` merges the fields into the hash, newer values winning |
| `Review.Store.Publish` | src/common/ReviewServer.ts:253 | `PUBLISH` appends exactly one publication |
| `Review.ReviewServer.HandleCreateReviewRoom` | src/common/ReviewServer.ts:112-145 | a missing uuid or sgf is answered `paramaters bad` and changes nothing; otherwise fresh connections, the room stored under the derived id (unless the store errs), its counter at 0, and the room or `null` sent back |
| `Review.ReviewServer.StoreRoom` | src/common/ReviewServer.ts:135-140 | the `ready` part of creating: the counter set to 0, the room merged into its hash unless the store errs, the room or `null` sent back, nothing else changed |
| `Review.ReviewServer.HandleEnterReviewRoom` | src/common/ReviewServer.ts:147-228 | an absent room is answered `null` and drops the connection; a found room is recorded with ownership, answered, replayed, its counter incremented, the join published and four channels subscribed |
| `Review.ReviewServer.JoinRoom` | src/common/ReviewServer.ts:167-212 | the found-room part of entering, with the full new state |
| `Review.ReviewServer.HandleReviewRoomUpdate` | src/common/ReviewServer.ts:230-249 | only the owner with a state and a connection publishes it and merges it into the snapshot keyed by the state's own room id; the store is otherwise unchanged |
| `Review.ReviewServer.HandleReviewRoomMessage` | src/common/ReviewServer.ts:251-254 | in a room with a connection, exactly one message publication on its channel |
| `Review.ReviewServer.HandleLeaveReviewRoom` | src/common/ReviewServer.ts:256-260 | in a room with a connection, the leave is published and the counter decremented; subscriptions are kept |
| `Review.ReviewServer.CloseAsWritten` | src/common/ReviewServer.ts:76-98 | as written: throws if and only if there is a store connection but no room; otherwise announces the leave, decrements and schedules the disconnect |
| `Review.ReviewServer.Close` | src/common/ReviewServer.ts:76-98 | as intended: the leave and decrement only for an entered room, and the disconnect scheduled whenever connected |
| `Review.ReviewServer.Teardown` | src/common/ReviewServer.ts:86-96 | the delayed disconnect ends both connections and all subscriptions, and leaves the room, the socket, the sent frames, the keep-alive and the close count as they were |
| `Review.ReviewServer.Deliver` | src/common/ReviewServer.ts:193-212 | a message on a subscribed channel is pushed by every listener in order, only while the socket is open |
| `Review.ReviewServer.HandleMessage` | src/common/ReviewServer.ts:43-66 | malformed, untyped or command-less frames close the session, with the full effect of the intended `close`; each of the five command names has the effect of its own handler (create, enter, update, message, leave); unknown command names and other frame types change nothing |
| `Review.CreateThenCloseCrashes` | src/common/ReviewServer.ts:83-85 | creating a room, then disconnecting, makes the written `close` throw |
| `Review.CreateThenCloseIntended` | src/common/ReviewServer.ts:83-85 | the same sequence under the intended `close` publishes nothing and leaves the counter at 0 |
| `Cgos.Select` | src/common/CGOSViewer.ts:73 | a line is selected if and only if it is one of the lines and has the prefix; there are no more of them than lines |
| `Cgos.SelectAppend` | src/common/CGOSViewer.ts:73 | a line appended to the input is appended to the selection exactly when it has the prefix |
| `Cgos.SelectConcat` | src/common/CGOSViewer.ts:73 | filtering a concatenation is the concatenation of the filtered parts, so the order of the input is kept |
| `Cgos.Newest` | src/common/CGOSViewer.ts:74-76 | the last `n` entries, in order |
| `Cgos.SendTo` | src/common/CGOSViewer.ts:63 | each target is sent the frames in order, and nobody else is sent anything |
| `Cgos.GameoverStep` | src/common/CGOSViewer.ts:78-89 | a `gameover` line reaches every recipient unchanged when a retained match mentions its game, and is dropped otherwise |
| `Cgos.GameoversSent` | src/common/CGOSViewer.ts:78-89 | each recipient receives exactly the announced `gameover` lines, in order, and everyone else nothing |
| `Cgos.UpdateStep` | src/common/CGOSViewer.ts:91-101 | an `update` line goes to exactly its game's observers and is appended to a tracked game; other games are unchanged |
| `Cgos.UpdatesAccumulate` | src/common/CGOSViewer.ts:91-101 | after a chunk, a tracked game has gained exactly its own update lines in order, and untracked games stay untracked |
| `Cgos.SetupStep` | src/common/CGOSViewer.ts:103-115 | a `setup` line becomes its game's setup and keeps updates and count (a new record has none), and the observers get the setup, then every update |
| `Cgos.SetupsKeepOthers` | src/common/CGOSViewer.ts:103-115 | setup lines never drop a game and leave every game they do not name as it was |
| `Cgos.Depart` | src/common/CGOSViewer.ts:161-166 | a departing observer's game counts one fewer and is removed once its count is not positive; other games are unchanged |
| `Cgos.DepartedEffect` | src/common/CGOSViewer.ts:155-167 | when a client with a duplicate-free list closes, each listed game counts exactly one fewer or is removed, and unlisted games are untouched |
| `Cgos.CGOSViewer.Reconnect` | src/common/CGOSViewer.ts:36-38 | every client is closed and forgotten along with who observes what; games, matches, buffer and ready flag survive |
| `Cgos.CGOSViewer.RetainMatches` | src/common/CGOSViewer.ts:73-76 | the retained matches are the newest 100 of the old ones followed by the chunk's |
| `Cgos.CGOSViewer.AnnounceGameovers` | src/common/CGOSViewer.ts:78-89 | the frames sent are the `gameover` fold over the open clients |
| `Cgos.CGOSViewer.ApplyUpdates` | src/common/CGOSViewer.ts:91-101 | the games and frames are the `update` fold |
| `Cgos.CGOSViewer.ApplySetups` | src/common/CGOSViewer.ts:103-115 | the games and frames are the `setup` fold |
| `Cgos.CGOSViewer.HandleTelnetData` | src/common/CGOSViewer.ts:59-118 | a greeting on a writable link is answered with the ident, sets ready and notifies every client; other data is buffered until it ends in CRLF, then dispatched by kind (`match`, `gameover`, `update`, `setup`) and the buffer emptied |
| `Cgos.CGOSViewer.Dispatch` | src/common/CGOSViewer.ts:71-115 | a complete chunk's lines by kind, in source order |
| `Cgos.CGOSViewer.AddClient` | src/common/CGOSViewer.ts:120-131 | the client is registered and sent the ready notice if ready, then every retained match |
| `Cgos.CGOSViewer.HandleMessage` | src/common/CGOSViewer.ts:133-153 | a non-observe message changes nothing; a valid `observe gid` counts one more request on a tracked game and replays it, or requests an untracked one upstream once with count 1; the gid joins the client's list once |
| `Cgos.CGOSViewer.Observe` | src/common/CGOSViewer.ts:138-152 | the valid-request part of `handleMessage` |
| `Cgos.CGOSViewer.HandleClientCloseAsWritten` | src/common/CGOSViewer.ts:155-167 | as written: throws if and only if the client has no list; otherwise the listed games depart |
| `Cgos.CGOSViewer.HandleClientClose` | src/common/CGOSViewer.ts:155-167 | as intended: a client without a list observed nothing; otherwise the listed games depart |
| `Cgos.CGOSViewer.DropObserved` | src/common/CGOSViewer.ts:161-167 | the games are the departure fold over the list |
| `Cgos.ObserveRequest` | src/common/CGOSViewer.ts:134-136 | a message is an observe request if and only if it is non-empty, starts `observe`, and its second space-separated word (after removing the first CRLF) parses to a non-zero number; the gid is exactly that word |
| `Cgos.ObserveNumber` | src/common/CGOSViewer.ts:134-136 | `observe n`, for every positive decimal `n`, is a request for game `n` |
| `Cgos.ObserveTwiceThenClose` | src/common/CGOSViewer.ts:138-167 | a client that observes a game twice and disconnects leaves it tracked with count 1 and no observer |
| `Cgos.ConnectThenDisconnectCrashes` | src/common/CGOSViewer.ts:158-161 | a client that disconnects without observing makes the written handler throw |
| `Cgos.ReconnectThenCloseCrashes` | src/common/CGOSViewer.ts:158-161 | after a reconnect (which clears the observers, lines 36-38), every former client's close makes the written handler throw |

## Left out

- Sockets, timers and Redis replies: these are taken to happen in order, with no interleaving.
  - Redis `ready` callbacks run synchronously.
  - The engine's GTP reply is a parameter (`response`).
  - Whether an engine process spawned is a parameter (`spawned`).
  - Whether a store write failed is a parameter (`storeError`).
  - The socket's open state is a field or a parameter.
- `JSON.parse` / `JSON.stringify` of frames are abstracted into the `Frame`, `Payload` and `ReplyArgs` datatypes. The actual JSON texts are not modelled.
- The md5 room id is an opaque function `deriveRoomId` given to the session.
- `@sabaki/gtp` `Controller`, `Command.fromString` and `Response.toString` are foreign. A controller is an object with `running` / `stopRequested` flags.
- The `Protocol.sys.*` names come from the `deepleela-common` package, which is not part of this model. They are written as constants with their literal names.
- `AIManager.onlineUsers` is maintained by `src/index.ts`, which is not part of this model. It is a field read by `Pending`.
- `Engines.Decide`: `maxInstances` is an integer, not a floating-point number.
- `Gateway.LeelaGoServer.HandleRequestAI`: a request's `args` is a string or absent. A JSON `null`, a number or an array is not modelled. The repeat test `cmd.args === this.engine` (src/common/LeelaGoServer.ts:94) tells `null` from absent, so a request with `args: null` after one with no `args` is a new request in the source: it releases the engine and asks for another. The model grants it as a repeat. For a number or an array the source releases the held engine (src/common/LeelaGoServer.ts:99-100), `toLowerCase` then throws for any truthy non-string (src/common/AIManager.ts:20), and the catch closes the session.
- `Engines.PlayoutArgs`: the `|| 1000` and `|| 2000` fallbacks are dead code, since they only run when playouts is non-zero. Playouts are integers.
- `JsText`: case mapping is ASCII only.
- `LineSplitting.LineReadable.OnData`: chunks are already-decoded text. The source decodes each `Buffer` chunk on its own (`chunk + ''`), so a multi-byte UTF-8 character split across two chunks becomes replacement characters. On such a byte stream `OnDataChunking` and `LinesReassemble` do not hold for the bytes.
- `LineSplitting`: the newline is a single character. The source's default is `\n`, and no caller passes anything longer.
- `CoordHelper.Coord2Point` requires a well-formed vertex: `pass`, or a character followed by plain decimal digits. The source reads `coord[0]` of an empty string. It reads the row with unary `+` (src/lib/CoordHelper.ts:8), which the model does not reproduce. That operator turns a signed, space-padded, hexadecimal or exponent row into an integer: `-1`, ` 5`, `0x10` and `1e1` give -1, 5, 16 and 10, so `A-1` on 19x19 gives `au`. The requires excludes those integer-valued rows too. `1.5` gives a fractional index. Only a non-numeric row gives `NaN`, which every comparison in the guard at line 10 lets through, so the source returns a letter followed by `undefined`.
- `Review.Store`: node_redis's serialisation of an `undefined` hash field is modelled as the field being omitted.
- `Review.ReviewServer.HandleCreateReviewRoom`: `args` that are not an array are treated as a rejected async handler with no effect. A string destructured character by character is not modelled.
- `Review.ReviewServer.HandleEnterReviewRoom`: the same simplification as for create.
  - The subscriber connection orphaned when a later enter opens a new one is not tracked beyond the `messenger` flag.
- `Review.ReviewServer.HandleReviewRoomUpdate`: a truthy `args` that is not a state object is dropped.
- `Review.ReviewServer.Deliver`: the people count for a join notice is read from the shared store at delivery time, even if the session's own store connection has gone. The source reads it through `this.redis.get` (src/common/ReviewServer.ts:201). When `redis` is undefined, for example after an enter for an absent room (line 163) while the subscriber still listens to an earlier room, that call throws an uncaught `TypeError` inside the listener and nothing is pushed. The model pushes the notice instead.
- `Review.ReviewServer.HandleMessage`: an exception raised inside an async handler becomes an unhandled rejection, not a `close`, so it is not modelled as closing the session.
  - The dispatcher closes through the corrected `Close`, not `CloseAsWritten`. As written, a closing frame on a session that created a room but entered none makes `close` throw at line 84. The catch at lines 63-64 then calls `close` a second time, which emits a second `close` event and throws again out of the listener. That double close is not modelled; `CloseAsWritten` and `CreateThenCloseCrashes` show the first throw.
- `Cgos.CGOSViewer.HandleTelnetData`: the match line rebuilt with the current date (src/common/CGOSViewer.ts:82-86) is computed and discarded by the source. It is left out.
  - A `gameover` line whose game no retained match mentions is dropped, as the code does.
- `Cgos.CGOSViewer.Reconnect`: the telnet connect/reconnect loop and its listeners are left out. Only the state it clears is modelled.
- `Cgos.SendTo`: sends to a socket that is no longer open are recorded like any other, except for `gameover`, where the source checks `readyState`.
- Console logging everywhere.

## Findings

| source | as written | input that shows it | evidently intended | confidence | as-written member | corrected member |
|---|---|---|---|---|---|---|
| src/common/ReviewServer.ts:83-85 | `close` reads `this.roomInfo.roomId` whenever a store connection exists | a session sends a valid `createReviewRoom`, then its socket closes before any `enterReviewRoom`: `roomInfo` is `undefined` and `close` throws a `TypeError` | announce the leave and decrement only for an entered room; still schedule the disconnect | high (not executed) | `Review.ReviewServer.CloseAsWritten`, `Review.CreateThenCloseCrashes` | `Review.ReviewServer.Close`, `Review.CreateThenCloseIntended` |
| src/common/CGOSViewer.ts:158-161 | `handleClientClose` calls `forEach` on `observers.get(client)` | a client connects and disconnects without ever sending `observe`, or any client closes after `reconnectCGOS` cleared `observers`: the list is `undefined` and the handler throws | a client without a list observed nothing, so only its registration goes | high (not executed) | `Cgos.CGOSViewer.HandleClientCloseAsWritten`, `Cgos.ConnectThenDisconnectCrashes`, `Cgos.ReconnectThenCloseCrashes` | `Cgos.CGOSViewer.HandleClientClose` |
