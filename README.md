# warserver relay: a verified model

warserver sits between browser clients and a game backend. A client connects over a websocket.
It first talks to the **hub**, which has three commands:

- `clientInfo` swaps a login token for a user id;
- `newGame` queues a request for a match of a given size;
- `killClient` is synthesised when the stream ends. In every forming match it removes the first
  slot whose session carries the player's id. Sessions that never identified all carry id 0, so
  the slot removed may belong to another unidentified session.

A single **matchmaking worker** takes the queued requests in order. It keeps one *forming* game
per size (`uncommittedGames`) and slots each requesting session into it. When the count reaches
the size, it *commits* the game: it opens a backend connection, hands every slot session over to
the game's **proxy**, and sends the backend the roster of user ids.

From then on the proxy multiplexes:

- client frames `command:data` go to the backend as `command:id:data`, except the local `chat`
  command, which is broadcast to the match;
- backend frames `command:id:data` go stripped to the slot whose identity is the target, and the
  `review:now` sentinel goes to every other slot;
- backend frames without a numeric second piece go unchanged to every slot.

The model has five modules:

- `GoStrings` (`go_strings.dfy`): the parts of Go's `strings.SplitN`, `strings.IndexByte`,
  `strconv.Itoa` and `strconv.Atoi` (64-bit `int`) the relay relies on.
- `Protocol` (`protocol.dfy`): the identity-tag frame protocol as pure functions:
  `CommandMarshal`, `appendClientInfo`, `filterClientInfo`, the per-slot broadcast rule and
  command routing.
- `Proxy` (`proxy.dfy`): the `clientConnection` and `proxy` classes of proxy.go. The slot list
  is a Go slice, modelled as a backing array plus a mutable length. Outbound channels and the
  handoff channel are sequences the methods append to.
- `Matchmaking` (`matchmaking.dfy`): the rules of the worker and of disconnection as pure
  functions over the forming registry, with their properties.
- `GameHub` (`gamehub.dfy`): the `game_hub` class. Its methods are proved to keep the hub
  invariant `Valid()`:
  - every forming game is well formed under its own size;
  - no forming game shares its proxy or slot array with another forming game or with a
    committed game (committed games are not compared with each other).

  The forming registry and the committed list after each method follow the `Matchmaking`
  functions. The request queue follows the methods' own ensures (`HandleNewGame`,
  `ProcessNewGameRequest`). Nothing is stated about the state after a panic. The worker's methods also state each session's handoff
  queue: a commit appends to every slot session the handlers of its own slots, and otherwise no
  queue changes. A `clientInfo` command leaves every forming game's proxy and slot array
  untouched. Because the session's id may change, the command's effect on the registry's ids is
  not stated.

Two behaviours of the code are proved rather than assumed:

- **Slot overflow after a disconnect.** Removing a slot shortens the proxy's slice, but the game
  keeps its size. A request to a forming game panics with an index out of range exactly when
  its slice is shorter than its size and all the slice's cells are taken, or when it asks for a
  new game of size 0. A game that lost one player panics on the request that would have filled
  it. `RequestOverflowsIffShrunk` states the condition, and `RejoinAfterDisconnectOverflows`
  walks through one case.
- **Token comparison in targeted delivery.** `broadcast` compares the whole identity, token
  included, while `filterClientInfo` always reports an empty token. A session that identified
  with a non-empty token never receives a frame addressed to its id when that id is non-zero
  (`TokenHolderMissesTaggedFrames`). A frame addressed to id 0 goes to every slot: `0` with an
  empty token is the broadcast identity (`TaggedFrameDelivery`). Such a session can have id 0:
  `getClientIdFromToken` returns 0 without an error when no row matches, and the opaque
  `lookup` may likewise return `Some(0)`.

Four behaviours of the code worth knowing:

- a disconnect changes the registry from the session's own read pump (the `killClient`
  handler), not from the matchmaking worker;
- `handleDisconnection` ignores its payload and uses the id of the session that sent it;
- `chatHandler` broadcasts its reply even when the chat payload does not decode;
- a proxy's slot list is a Go slice of `numPlayers` cells next to a separate count
  `currentPlayers`, so the count and the slice length can differ after a disconnect.

Opaque collaborators are parameters:

- JSON encoding is an `Encoder` function returning `None` on failure; the JSON decoders are
  functions returning `Option`;
- the token lookup is a function returning `Option`;
- the outcome of `connectToServer` is a boolean `connectOk`;
- the chat decoder is a function.

## Model

| member | source | states |
|---|---|---|
| GoStrings.IndexByte | src/warserver/proxy.go:108 | the result is the first position of the byte, and is absent exactly when the byte does not occur |
| GoStrings.SplitN | src/warserver/proxy.go:158 | at most `n` pieces; no piece but the last holds the separator, and the last holds none either when fewer than `n` pieces come out |
| GoStrings.SplitNJoin | src/warserver/gamehub.go:50 | gluing the pieces back with the separator gives the input: splitting loses nothing |
| GoStrings.AtoiItoa | src/warserver/proxy.go:164 | `Atoi` parses what `Itoa` prints back to the same number, for every 64-bit int |
| GoStrings.ItoaChars | src/warserver/proxy.go:126 | a printed id is non-empty and holds only digits, with at most a leading minus (hence no colon) |
| Protocol.CommandMarshalSplits | src/warserver/gamehub.go:40-47 | a marshalled command is nil exactly when encoding fails, and otherwise splits at its first colon into the command and the encoded body |
| GoStrings.Itoa | src/warserver/proxy.go:126 | definition of `strconv.Itoa`: decimal digits with a leading `-` for a negative value; `AtoiItoa` proves `Atoi` reads it back |
| GoStrings.Atoi | src/warserver/proxy.go:164 | `strconv.Atoi` on 64-bit `int`: an optional sign, at least one digit, nothing else and a value in range, else the error (`None`); a result needs a non-empty input |
| Protocol.CommandMarshal | src/warserver/gamehub.go:40-47 | definition: the command, a colon and the encoded payload, or nil when encoding fails; `CommandMarshalSplits` proves it splits back at the first colon |
| Protocol.ChatReply | src/warserver/proxy.go:76-77 | definition: the `chat` command around status 0 and the decoded chat packet, the empty frame when encoding fails |
| Protocol.ClientInfoReply | src/warserver/gamehub.go:76-81 | definition: the `clientInfo` command around the given status and a nil payload |
| Protocol.KillClientFrame | src/warserver/proxy.go:193-194 | definition: the `killClient` command around the session's id; `KillClientFrameRoute` proves how the hub routes it |
| Protocol.RosterFrame | src/warserver/proxy.go:178-179 | definition: the `new` command around the slot ids with debug 0 |
| Protocol.AppendClientInfo | src/warserver/proxy.go:124-128 | definition: `command:<decimal id>:data`; `AppendClientInfoFields` and `FilterAppendRoundTrip` prove what it means |
| Protocol.Tagged | src/warserver/proxy.go:158-167 | definition: a third piece exists and the second piece parses as an int, the case in which `filterClientInfo` strips an id |
| Protocol.SlotFrame | src/warserver/proxy.go:148-153 | definition: the filtered frame when the target is everyone or equals the slot's whole identity, else `review:now`; `TaggedFrameDelivery` states the outcome per slot |
| Protocol.RouteFrame | src/warserver/gamehub.go:50-52 | definition: no route without a colon, else the handler registered for the text before the first colon, or unregistered; `NoDelimiterIffNoColon` and `RouteCommand` prove both cases |
| Protocol.FilterClientInfo | src/warserver/proxy.go:157-170 | a frame with fewer than three pieces, or without an integer second piece, comes back byte for byte with the broadcast identity; the reported target never has a token |
| Protocol.AppendClientInfoFields | src/warserver/proxy.go:124-128 | for a command without a colon, the injected frame splits into exactly the command, the decimal id and the data, whatever colons the data holds |
| Protocol.FilterAppendRoundTrip | src/warserver/proxy.go:124-170 | stripping an injected id gives back that id with an empty token, and exactly `command:data` |
| Protocol.FilterAltersExactlyTagged | src/warserver/proxy.go:157-170 | `filterClientInfo` changes the frame if and only if it carries an integer second piece among three |
| Protocol.ForwardedFrameRecoversMessage | src/warserver/proxy.go:107-128 | for a client frame with a colon, the frame the proxy forwards lets `filterClientInfo` recover the sender's id and the original frame |
| Protocol.BroadcastFrames | src/warserver/proxy.go:145-155 | one frame per slot, in slot order |
| Protocol.UntaggedFrameReachesEverySlot | src/warserver/proxy.go:145-155 | an untagged backend frame reaches every slot unchanged |
| Protocol.TaggedFrameDelivery | src/warserver/proxy.go:145-169 | a frame tagged with an id reaches as `command:data` the slot whose identity is that id with an empty token, and every slot when the id is 0; all others get `review:now` |
| Protocol.TokenHolderMissesTaggedFrames | src/warserver/proxy.go:148 | a slot whose identity has a non-empty token gets `review:now` for every frame tagged with a non-zero id |
| Protocol.HelloIsUntagged | src/warserver/proxy.go:158-162 | `cmd:hello` has no id piece |
| Protocol.TargetedBroadcastToTwoSlots | src/warserver/proxy.go:145-155 | slots with ids a and b: a frame tagged a gives the stripped frame to the first slot and `review:now` to the second |
| Protocol.UntaggedBroadcastToTwoSlots | src/warserver/proxy.go:145-155 | slots with ids 7 and 9 both receive `cmd:hello` unchanged |
| Protocol.NoDelimiterIffNoColon | src/warserver/gamehub.go:50-51 | a frame splits into fewer than two pieces exactly when it has no colon |
| Protocol.RouteCommand | src/warserver/gamehub.go:49-61 | `command:data` is routed to the handler registered for `command` with `data` untouched, or is unregistered |
| Protocol.KillClientFrameRoute | src/warserver/proxy.go:191-195 | the synthesised `killClient` frame routes to the `killClient` handler with the encoded id, and is empty (no route) when encoding fails |
| Proxy.DeliveriesToAbsent | src/warserver/proxy.go:147-154 | a session in no slot receives nothing from a fan-out |
| Proxy.DeliveriesToSoleSlot | src/warserver/proxy.go:147-154 | a session in exactly one slot receives exactly that slot's frame |
| Proxy.RemovalShape | src/warserver/proxy.go:100-104 | after the shift and the clearing loop, the array is the slice without `pos`, a nil cell and the untouched tail |
| Proxy.ClientConnection.constructor | src/warserver/gamehub.go:150-152 | a new session is owned by the hub, with empty queues and no identity |
| Proxy.ClientConnection.ReadPumpStep | src/warserver/proxy.go:184-209 | a received frame lets at most one pending handler take over and then goes to the current handler; at end of stream the `killClient` frame goes to the current handler without a handoff and the pump stops; other errors dispatch nothing and stop |
| Proxy.Proxy.constructor | src/warserver/proxy.go:81-88 | `numPlayers` empty slots, the `chat` command, no backend |
| Proxy.Proxy.SlotClientConnection | src/warserver/proxy.go:94-96 | exactly slot `slot` changes, and it must lie inside the slice |
| Proxy.Proxy.RemoveClientConnection | src/warserver/proxy.go:98-105 | the slice is one shorter; the slots before `pos` stay and those after it move down by one, in order; the backing array gets a nil where the slice ended |
| Proxy.Proxy.Broadcast | src/warserver/proxy.go:145-155 | each slot session's queue grows by exactly the frames `BroadcastFrames` gives its slots, in slot order; nothing else changes |
| Proxy.Proxy.ChatHandler | src/warserver/proxy.go:70-79 | the chat reply (status 0, decoded message) is broadcast to every slot, also when decoding fails |
| Proxy.Proxy.HandleWebsocket | src/warserver/proxy.go:107-122 | a local command broadcasts the chat reply and writes nothing to the backend; any other command writes exactly one frame, `appendClientInfo(command, data, sender)`, and sends nothing to clients |
| Proxy.Proxy.InitialGameUids | src/warserver/proxy.go:174-177 | one uid per slot, in slot order |
| Proxy.Proxy.SendInitialGameInfo | src/warserver/proxy.go:172-182 | exactly one backend write: the `new` roster of the slot ids in slot order with debug 0 |
| Matchmaking.FindOrMake | src/warserver/gamehub.go:188-193 | definition: the registered forming game of the size, or `makeGame`'s fresh one; `RequestFound` proves the fresh proxy does not matter when one is registered |
| Matchmaking.Joined | src/warserver/gamehub.go:196-197 | definition: the session in slot `currentPlayers`, its id appended, the count one higher |
| Matchmaking.JoinForming | src/warserver/gamehub.go:196-200 | definition: a panic when the count is outside the slot list, a commit or failed commit (the game leaves the registry either way) when the count reaches the size, else the game with the session added |
| Matchmaking.Request | src/warserver/gamehub.go:188-200 | definition: `JoinForming` on the registry with `FindOrMake`'s game under the size; `RequestKeepsRegistry`, `RequestTouchesOwnSize`, `RequestOverflowsIffShrunk` and `RequestCommitsIffFull` are its properties |
| Matchmaking.RemoveAt | src/warserver/gamehub.go:136-137 | definition: slot `i` and its id removed, the later ones one down, the count one lower |
| Matchmaking.DisconnectView | src/warserver/gamehub.go:134-143 | definition: the first taken slot with the id removed, the game dropped when that was its last player, the game unchanged without such a slot; `DisconnectRemovesFirstMatch` and `DisconnectSkipsOtherGames` are its properties |
| Matchmaking.Disconnect | src/warserver/gamehub.go:130-146 | definition: `DisconnectView` on every forming game independently; `DisconnectKeepsRegistry` and `DisconnectOneStep` are its properties |
| GameHub.HandedOff | src/warserver/gamehub.go:177 | definition: the committed game's proxy once per slot of that game the session holds, nothing without a commit |
| GameHub.HandedOffTo | src/warserver/gamehub.go:176-177 | definition: every watched session's handoff queue is its old queue followed by exactly `HandedOff` of the step's commit; the worker's methods state their effect on the queues with it |
| Matchmaking.IndexOf | src/warserver/gamehub.go:134-135 | the first position of the id among the taken slots, absent exactly when no taken slot holds it |
| Matchmaking.RequestKeepsRegistry | src/warserver/gamehub.go:185-202 | a request that does not panic keeps at most one well-formed forming game per size, with a registry key equal to its size |
| Matchmaking.RequestTouchesOwnSize | src/warserver/gamehub.go:185-202 | a request leaves the forming games of every other size as they were |
| Matchmaking.RequestOverflowsIffShrunk | src/warserver/gamehub.go:196 | slotting panics exactly when the game has lost a player and all its remaining cells are taken, or when the size is 0 |
| Matchmaking.RequestCommitsIffFull | src/warserver/gamehub.go:196-200 | a request commits exactly when it fills the game; the game then leaves the registry whether or not the backend connects; a committed game has all slots taken and its ids in arrival order |
| Matchmaking.RequestFound | src/warserver/gamehub.go:204-207 | a request for a registered size goes to that game, whatever proxy `makeGame` would have made |
| Matchmaking.DisconnectKeepsRegistry | src/warserver/gamehub.go:130-146 | a disconnection keeps the registry well formed and never adds a game |
| Matchmaking.DisconnectSkipsOtherGames | src/warserver/gamehub.go:133-145 | a game with no slot holding the id is unchanged |
| Matchmaking.DisconnectRemovesFirstMatch | src/warserver/gamehub.go:134-143 | a game with such a slot loses exactly the first one while the other slots keep their order; the count drops by one and the id loses one occurrence among the ids; the game is dropped exactly when that was its last player, and what remains has a slot list shorter than its size |
| Matchmaking.DisconnectOneStep | src/warserver/gamehub.go:133-145 | visiting the forming games one at a time, in any order, adds up to the disconnection of the whole registry |
| Matchmaking.TwoRequestsCommitInArrivalOrder | src/warserver/gamehub.go:185-202 | two requests for size 2: the first forms a game with one player, the second commits it with the ids in arrival order |
| Matchmaking.RejoinAfterDisconnectOverflows | src/warserver/gamehub.go:130-202 | size 3: two join, one leaves, one joins; the game has two taken cells in a slice of two, and the next request panics |
| GameHub.ChannelInHandler | src/warserver/gamehub.go:177 | each slot session's handoff queue receives the proxy once per slot it holds, in slot order |
| GameHub.ConnectGame | src/warserver/gamehub.go:176-179 | the proxy is connected, every slot session is handed the proxy, and the backend receives exactly the roster of the slot ids |
| GameHub.LeaveGame | src/warserver/gamehub.go:136-137 | removing the first slot holding the id and lowering the count gives the forming game `DisconnectView` describes, or a count of 0 exactly when `DisconnectView` drops the game |
| GameHub.ViewAfterLeave | src/warserver/proxy.go:98-105 | the proxy after the removal is the proxy of the game `RemoveAt` describes |
| GameHub.JoinGame | src/warserver/gamehub.go:196-197 | the session takes slot `currentPlayers` and the count rises by one; the game is `Joined`'s view while not full, and when full every slot is taken and the slot ids are the old ids plus the newcomer's; the slotted sessions are the old ones plus the newcomer, and no handoff queue changes |
| GameHub.SlotClientsAfterJoin | src/warserver/proxy.go:94-96 | writing a session into the first free slot makes the slotted sessions exactly the old ones plus the newcomer |
| GameHub.ViewAfterJoin | src/warserver/gamehub.go:196-197 | the proxy after slotting is the proxy of `Joined`'s view, or is filled when the count reaches the size |
| GameHub.FreshViewOf | src/warserver/gamehub.go:158-165 | a game over a fresh proxy with no taken slot is the forming game `FreshView` describes |
| GameHub.GameHub.constructor | src/warserver/gamehub.go:209-227 | no requests and no games; the table holds `clientInfo`, `newGame` and `killClient` |
| GameHub.GameHub.HandleWebsocket | src/warserver/gamehub.go:49-61 | a frame without a colon changes nothing; an unregistered command sends exactly `unrecognized:` to the sender and changes nothing else; a registered command has exactly its handler's effect on the text after the first colon, and `clientInfo` leaves every forming game's proxy and slot array untouched |
| GameHub.GameHub.RunHandler | src/warserver/gamehub.go:52-53 | each of the three commands has exactly the effect of its handler and leaves the state of the other two alone; `clientInfo` leaves every forming game's proxy and slot array untouched |
| GameHub.GameHub.HandleClientInfo | src/warserver/gamehub.go:63-82 | decode failure: no reply and no identity change; lookup failure: a status -1 reply and no identity change; success: the identity becomes the looked-up id with the token, and a status 0 reply |
| GameHub.GameHub.HandleNewGame | src/warserver/gamehub.go:118-128 | a payload that decodes adds exactly one request at the back of the queue; one that does not adds nothing |
| GameHub.GameHub.FindGame | src/warserver/gamehub.go:204-207 | definition: the registry's entry for the requested size, if any; `Matchmaking.RequestFound` proves a request for a registered size joins that game, and `ServeNewGame` states that the proxy used is then the registered one |
| GameHub.GameHub.MakeGame | src/warserver/gamehub.go:158-165 | a fresh proxy with `numPlayers` empty slots, registered under its size; for a positive size the hub stays valid and the registry gains `FreshView`; no session's identity or handoff queue changes |
| GameHub.GameHub.FindSlot | src/warserver/gamehub.go:134-135 | the scan finds the first taken slot holding the id (`IndexOf` on the game's ids) |
| GameHub.GameHub.RemoveSlot | src/warserver/gamehub.go:136-141 | the game under `np` becomes `DisconnectView`'s result or leaves the registry; no other game changes; the hub stays valid |
| GameHub.GameHub.DropForming | src/warserver/gamehub.go:140 | `delete` removes exactly the key `np` and restores the invariant |
| GameHub.GameHub.ReplaceForming | src/warserver/gamehub.go:137 | the count written through the registry's pointer: exactly the entry `np` changes and the invariant holds again |
| GameHub.GameHub.DisconnectGame | src/warserver/gamehub.go:134-144 | the registry becomes `DisconnectOne` of the old one at size `np` |
| GameHub.GameHub.DisconnectFound | src/warserver/gamehub.go:135-142 | the same, once the slot holding the id is known |
| GameHub.GameHub.HandleDisconnection | src/warserver/gamehub.go:130-146 | the registry becomes `Disconnect` of the old one for the sender's id; committed games are untouched and the hub stays valid |
| GameHub.GameHub.CommitGame | src/warserver/gamehub.go:167-183 | the game leaves the registry first; on a failed connection nothing else changes; on success the proxy is connected and hands off to every slot, the roster goes out, and the game is appended to the committed list |
| GameHub.GameHub.SlotPlayer | src/warserver/gamehub.go:196-200 | the session is slotted; the game stays forming as `Joined`'s view exactly while not full, and otherwise is committed, or dropped when the connection fails; on a commit every session of the game has its own slots' handoffs appended (`HandedOff`), and otherwise its queue is unchanged |
| GameHub.GameHub.SettleJoined | src/warserver/gamehub.go:198-200 | once the session is in its slot: a full game is committed (handing the proxy to every slot session) or dropped, and any other game keeps its new count under its size |
| GameHub.GameHub.AdmitPlayer | src/warserver/gamehub.go:196-200 | the registry becomes what `JoinForming` computes, and a commit records the game `JoinForming` reports; every session of the game and the newcomer get exactly `HandedOff` of that commit on their handoff queues |
| GameHub.GameHub.ServeRequest | src/warserver/gamehub.go:196-200 | the worker's step on a registered game: the outcome is `JoinForming`'s, including the out-of-range panic; every watched session's handoff queue grows by exactly `HandedOff` of the commit, so sessions outside the game get nothing |
| GameHub.GameHub.ProcessNewGameRequest | src/warserver/gamehub.go:185-202 | the oldest request leaves the queue; `make` panics for an unregistered negative size, and the model has no other `make` failure (see Left out); otherwise the outcome, the registry and the committed list are those of `Request` with the proxy that was used (the registered one, or a fresh one); each session in a forming game, and the requester, has `HandedOff` of the commit appended to its handoff queue, and no queue changes when `make` panics |
| GameHub.GameHub.ServeNewGame | src/warserver/gamehub.go:188-201 | the same as `ProcessNewGameRequest` once the request is off the queue, handoff queues included |
| GameHub.GameHub.ServeFresh | src/warserver/gamehub.go:190-192 | the step when no game of that size is forming: `makeGame` with a fresh proxy, then `Request`; the requester's queue, and those of the forming sessions, grow by exactly `HandedOff` of the commit |
| GameHub.HandOffOutside | src/warserver/gamehub.go:177 | a session in no taken slot of a forming game, other than the newcomer, is handed nothing when that game commits |

## Left out

- websock.go is not part of this model. It is a thin wrapper over the websocket library.
- `serveWs`, `socketListen` and `connectToServer`: HTTP upgrade and TCP listening or dialling are I/O. The dial result is the `connectOk` parameter.
- `getClientIdFromToken`: a database query and delete. It is the opaque `lookup` function.
- JSON marshalling and unmarshalling: these are the opaque `encode`, `decodeToken`, `decodeNumPlayers` and chat decoder functions.
- Goroutines, channels and scheduling:
  - `handleConnections`, `serverReadPump` and `wsWritePump` are not modelled;
  - the `go` statements that start them are not modelled;
  - channels are sequences;
  - each loop iteration is one sequential step (`ReadPumpStep`, `ProcessNewGameRequest`), and interleavings are not modelled.
- `serverReadPump`: its loop body is `Broadcast` on each backend frame, so only `Broadcast` is modelled.
- Logging, the global `gamehub` value and failed backend writes: these have no effect on the modelled state.
- game.go is not part of this model:
  - the `game` struct is a datatype value (a forming game is reachable only through the registry, and the count is written back through it);
  - `channelInHandler` is modelled as pushing the proxy onto every slot session's handoff queue.
- `handleDisconnection` iterates over a Go map in unspecified order. The model visits the sizes in an arbitrary order (`:|`), and `DisconnectOneStep` shows the result does not depend on it.
- GameHub.GameHub.ProcessNewGameRequest: requires a non-empty queue, because the Go `range` over the channel blocks when it is empty. After a panic outcome it states nothing about the state, because the process dies.
- GameHub.GameHub.ServeRequest: states nothing about the state after the out-of-range panic, for the same reason.
- GameHub.GameHub.ProcessNewGameRequest: the `make` of a new game's slot slice (proxy.go:83) also fails in Go for sizes a client may request but memory cannot hold: beyond the runtime's allocation limit it panics with "len out of range", and below it a huge size can end in an out-of-memory fatal error. The model allocates any non-negative size, so its "panics exactly for a negative size" holds only up to that limit. `NumPlayers` is taken from the client's JSON unchecked (gamehub.go:120-127).
- GameHub.GameHub.ServeNewGame: the same allocation-limit and out-of-memory failures of `make` are not modelled.
- GameHub.GameHub.ServeFresh: the same; `makeGame` always succeeds for a non-negative size.
- GameHub.GameHub.MakeGame: the same; a huge size is registered rather than crashing the server.
- Proxy.Proxy.constructor: the same; `new` always allocates `numPlayers` cells.
- Proxy.Proxy.HandleWebsocket: requires a colon in the frame. Without one, Go indexes past the result of `SplitN` and panics, and the model does not represent that panic.
- Proxy.ClientConnection.ReadPumpStep: returns the dispatch instead of performing it. Running the hub or proxy handler on it is a separate call (`GameHub.GameHub.HandleWebsocket`, `Proxy.Proxy.HandleWebsocket`).
