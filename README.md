# kivy-online-game, modelled in Dafny

A small multiplayer tile game. A Python 2 server keeps a registry of
connected clients and relays their moves to one another. Each Kivy client
moves a character over a tile map, sends its position to the server, and
draws the other players from the frames the server relays.

The project models three pieces of that logic:

- **Wire protocol** (`json.dfy`, `wire.dfy`).
  - The JSON that both sides print and read: flat arrays of integers and
    of strings of printable ASCII characters other than the quote and the
    backslash, which `json.dumps` writes without escapes. Elements are
    separated by ", ", as `json.dumps` separates them.
  - The two payload shapes. A client sends `[x, y, direction]`. The server
    sends `[id, x, y, direction]`, or the empty array `[]` as a liveness
    probe.
  - The `'|'` delimiter after every payload, and Python's `split("|")`.
- **Server** (`server.dfy`, class `Server.Server`).
  - The state is the registry from address to (connection, Player) and
    the `id_client` counter. Each connection also has an outbox: the
    frames sent to it, in order.
  - `Accept` is the accept step.
  - `RelayStep` is one turn of a client's relay loop. `Run` is that loop
    over a sequence of receive results.
- **Client** (`client.dfy`).
  - The table of remote players and the camera (class `World`).
  - The listener thread, which splits each chunk it receives and applies
    the frames in it (class `Listener`).
  - The local player (class `Player`):
    - the turn-or-step key rule;
    - `valid_move`;
    - the per-axis choice between moving the sprite and moving the camera;
    - the `_animate` frame step;
    - the frames it sends.

Every imperative method except `Server.Run` and `Listener.Listen` is proved against a pure function. For example,
`Listener.Receive` is proved against `AfterPieces`, `Player.StepBy`
against `Stepped`, and `Server.BroadcastExcept` against `Broadcast`. The
properties of those functions are proved as lemmas: the printing and
parsing round trip, split after join, in-order delivery, and the anchoring
of screen position, tile and camera.

Sockets are not modelled. Sends are appends to a per-connection outbox on
the server and to `Listener.sent` on the client. The bytes a sender writes
are `Wire.Framed` of the encoded payloads. Receives are parameters.

Two details the model follows from the code:

- `on_stop` always sends `(99, 99, "down")`, whatever the player's
  direction.
- `valid_move` accepts `x == width` and `y == height`.

## Model

| member | source | states |
|---|---|---|
| Json.ShowNat | server.py:109 | an integer is printed as a non-empty run of digits, with no leading zero, whose decimal value is the integer |
| Json.ParseShow | client.py:399 | reading an array back with `json.loads` gives exactly the values `json.dumps` printed |
| Json.ParseItemsShow | client.py:399 | the elements printed with ", " between them and followed by `]` are read back, and the text after them is returned untouched |
| Json.ShowItemsFreeOf | server.py:109 | a printed array contains a character that is neither a digit nor punctuation only where one of its strings contains it |
| Wire.Named | client.py:413 | a direction name is read back exactly when it is the name of a direction, and then it is that direction |
| Wire.DecodeEncodeMove | client.py:245 | the frame `(x, y, direction)` a client sends decodes back to that move |
| Wire.DecodeEncodeFrame | server.py:109 | a server frame (probe or `[id, x, y, direction]`) decodes back to itself |
| Wire.EncodedMove | client.py:333 | an encoded move is non-empty and contains no delimiter |
| Wire.EncodedFrame | server.py:39 | an encoded server frame is non-empty and contains no delimiter |
| Wire.Split | client.py:397 | the split on the delimiter gives at least one piece, no piece contains the delimiter, and joining the pieces with the delimiter gives back the text |
| Wire.SplitJoin | client.py:397 | splitting pieces that do not contain the delimiter, after joining them, gives back those pieces |
| Wire.SplitFramed | client.py:397 | a run of delimiter-free payloads, each followed by the delimiter, splits into those payloads plus one empty trailing piece |
| Wire.PayloadsInOrder | client.py:397-398 | splitting framed non-empty payloads and dropping the empty pieces returns the payloads in the order they were sent |
| Wire.AsWrittenRejectsEveryFrame | server.py:75-76 | the relay, reading the whole chunk with its trailing delimiter as JSON, decodes no client frame at all |
| Wire.DecodeChunkOfFrame | server.py:75-76 | reading the text before the first delimiter decodes every client frame to the move it carries |
| Server.NewPlayer | server.py:101-106 | a new Player has the given id, x = 0, y = 0 and direction "down" |
| Server.Text | server.py:108-109 | `str(player)` is a payload that decodes to `[id, x, y, direction]` and carries no delimiter |
| Server.Update | server.py:112-115 | `update` takes x, y and direction from the message's positions 0, 1 and 2 and keeps the id |
| Server.SenderNotPeer | server.py:89-91 | the sender's own connection is never among the connections a broadcast reaches |
| Server.PeerReached | server.py:93-97 | every registered client other than the sender is among the connections a broadcast reaches |
| Server.NewcomerNotAmongPeers | server.py:37-40 | the newcomer's own state is never among the states it is sent |
| Server.RegistryRemove | server.py:87 | deleting an entry keeps every connection registered, every id below the counter, and connections and ids unique |
| Server.RegistryReplace | server.py:77 | updating one entry's Player without changing its id keeps the registry invariant |
| Server.Server.constructor | server.py:16-21 | a new server has an empty registry and a counter at 0 |
| Server.Server.Accept | server.py:31-40 | the newcomer is registered with the current counter as its id, and the counter grows by one. Every earlier client is sent the newcomer's state once. The newcomer is sent each earlier client's state once and never its own. Ids stay unique |
| Server.Server.Introduce | server.py:37-40 | the exchange of states between the newcomer and every peer, proved through an invariant of its loop |
| Server.Server.BroadcastExcept | server.py:90-97 | every registered client except the sender is sent the frame once, and no other outbox changes |
| Server.Server.RelayStep | server.py:60-97 | the probe `[]` goes first. A failed probe or a missing entry removes the entry and stops the worker. A failed receive stops it and leaves its entry. Otherwise the sentinel tells the peers `[id, 99, 99, "down"]` and removes the sender, and any other message updates the sender and is relayed to the peers with the id in front |
| Server.Server.Deliver | server.py:77-97 | the sentinel (99, 99) makes every other client receive `[id, 99, 99, "down"]`, whatever the direction, and removes the sender. Any other message updates the sender's Player and makes every other client receive it with the sender's id in front. No other entry changes |
| Server.Server.Run | server.py:56-97 | the worker loop keeps the registry invariant and the counter. It consumes inputs until it stops. It stops as closed only when the entry is gone, and as crashed only after a probe that was sent successfully, with the entry left in place |
| Client.NewCharacter | client.py:174-184 | a new character stands on tile (5, 5) facing down |
| Client.Place | client.py:186-191 | `update_position` draws a character at its tile shifted by the camera, and keeps the tile and the direction |
| Client.AfterFrame | client.py:400-415 | the probe changes nothing. The sentinel removes the id, whether or not it was there. Any other frame sets that id's entry, new or not, to the frame's tile and direction, drawn under the camera |
| Client.AfterPieces | client.py:397-415 | reading the pieces of a chunk leaves the listener alive exactly when every non-empty piece decodes to a server frame |
| Client.FrameTouchesOnlyItsId | client.py:402-415 | a frame changes no entry but its own id's |
| Client.FrameKeepsOnCamera | client.py:411-415 | after a frame, every remote character is still drawn where its tile falls under the camera |
| Client.PiecesKeepOnCamera | client.py:397-415 | reading any chunk keeps every remote character drawn under the camera |
| Client.FailureIsFinal | client.py:397-399 | once a piece fails to decode, the rest of the chunk is not read |
| Client.FramesApplyInOrder | client.py:397-415 | reading the text the server writes for a run of frames applies exactly those frames, in order, and the listener keeps running |
| Client.Repositioned | client.py:307-310 | after the camera moves, every remote character keeps its tile and direction and is drawn under the new camera |
| Client.ValidMove | client.py:134-143 | a move is valid exactly when 0 <= x <= width, 0 <= y <= height and the tile does not collide, so the far edges x == width and y == height are accepted |
| Client.KeyRule | client.py:255-282 | an arrow other than the current direction turns without moving. The current direction steps one tile (up dy = -1, down dy = +1, left dx = -1, right dx = +1). The new direction is always the key's |
| Client.HalfView | client.py:286 | `(pixels / 32 + 1) / 2` on integers is half the window's extent in tiles, rounded up |
| Client.Stepped | client.py:284-305 | a step moves the tile by (dx, dy). Along each axis either the sprite moves and the camera stays, or the camera moves and the sprite stays. Screen position, tile and camera stay anchored |
| Client.AnimStep | client.py:194-202 | each call lowers the frame counter by one. It shows the next of the four images and schedules another call exactly while the counter stays positive and the sprite belongs to the direction. Otherwise it stops on the direction's first image |
| Client.AnimationEnds | client.py:194-202 | an animation started with a positive counter stops within that many calls, on the direction's first image. If the sprite belongs to the direction, the counter ends at 0 |
| Client.World.constructor | client.py:420-421 | the table of remote players starts empty and the camera at (0, 0) |
| Client.World.Apply | client.py:400-415 | the table after one frame is `AfterFrame` of the table before; the camera does not change |
| Client.World.RepositionAll | client.py:307-310 | every remote character is redrawn under the current camera; the camera does not change |
| Client.Listener.constructor | client.py:351-377 | a listener records whether it is online and starts with its thread running and nothing sent |
| Client.Listener.Receive | client.py:397-415 | the table after a chunk, and whether the thread survives it, are those of `AfterPieces` over `Split(chunk)` |
| Client.Listener.Poll | client.py:380-415 | a stopped loop ends the thread. A would-block retries. Any other receive error ends the thread. A chunk is read as `Receive` says. Camera and sent frames do not change |
| Client.Listener.Listen | client.py:382-415 | the listener thread over a run of receives keeps every remote character drawn under the camera, and reads every receive unless the thread ends |
| Client.Listener.Stop | client.py:438-444 | an online client sends (99, 99, "down") and stops the thread. An offline one does nothing |
| Client.Player.constructor | client.py:232-239 | the local player starts on tile (5, 5), drawn at (5, 5), facing down, online, without a listener |
| Client.Player.InitListener | client.py:241-245 | the player takes the listener and its online flag. When online it sends its tile and direction, and otherwise sends nothing. The pose, direction, animation, view sizes and the listener's thread state are unchanged |
| Client.Player.StepBy | client.py:284-305 | the pose after a step is `Stepped` of the pose before. The result says whether the camera rule was taken on either axis |
| Client.Player.OnKeyDown | client.py:250-333 | a key that is not an arrow, or a target `valid_move` rejects, changes nothing. Otherwise the tile, sprite and camera move as `Stepped` says. The remote players are redrawn if the camera rule was taken. A step starts a four-frame animation and a turn shows the new direction's first image. The direction becomes the key's, and an online player sends its new tile and direction while an offline one sends nothing. The anchoring invariant is kept |
| Client.Player.Animate | client.py:194-202 | one scheduled `_animate` call changes the animation state as `AnimStep` says, and nothing else: pose, direction, online flag, listener and view sizes are unchanged, so the player's invariant is kept |

## Left out

- Sockets are not modelled: `bind`, `listen`, `accept`, `recv`, `send`, `close`, `setblocking` and `connect`. Sends are appends to outboxes. Receive results and the online flag are parameters. A fresh connection handle is a parameter of `Accept`.
- Threads and the shared `clients` and `players` dictionaries are not modelled. Each operation is one atomic step, because the source has no locking and the model does not interleave.
- A failed send to a peer is not modelled. In the source, a peer's broken socket raises inside the accept loop or the relay loop. In the model, every peer send succeeds; only the relay's own probe can fail.
- The relay's 2048-byte `recv` can carry several frames or part of one. The model reads the text before the first delimiter of each chunk (see Findings) and does not reassemble frames split across chunks, on either side.
- JSON is modelled only for the arrays the program writes. A message outside the two payload shapes counts as undecodable, and so does a direction other than the four names. On the server, a message of three or more elements is stored and relayed whatever its element types, and the model does not follow that path. A shorter one makes `update` raise (server.py:113-115), which ends the worker with its entry in place, as in the model.
- Client.AfterPieces: an undecodable piece ends the thread and leaves the table as it was before that piece. The source changes the table part way first, and some such pieces do not raise at all. For `[7]` with 7 unseen, it creates 7's Character before `player[1]` raises (client.py:407). For `[7, 1, 2, "north"]`, it sets 7's tile, direction and screen position before `update_position` raises at client.py:191. `[7, 99, 99]` removes 7 without raising, and a longer array is read by its first four elements.
- Strings are modelled only as the printer writes them without escapes: printable ASCII other than the quote and the backslash. `json.dumps` escapes control characters and non-ASCII characters, and `json.loads` reads escapes; neither is modelled. The direction names are the only strings on the wire.
- `Player.position` (server.py:105) is not modelled: it is set once and never read.
- Remote characters' image and their `map_width` and `map_height` are not modelled. Only tile, direction and screen position are kept.
- pytmx map loading and `tile_has_property` are not modelled. Collision is the abstract set `TileMap.blocked`.
- Kivy rendering is not modelled: widgets, the camera's slide `Animation`, `Camera.__mul__` (which only computes that animation's target), `Camera.__str__` and logging. Window sizes are parameters of the methods that read them.
- `Clock.schedule_once` and the float delay `0.3 / _animframe` are not modelled. `Player.Animate` is one scheduled call, and its result says whether it scheduled another.
- `ClientApp.build`, keyboard binding, `on_touch_down` and `on_keyboard_closed` are wiring around I/O and are not modelled.
- Server.Server.Run: states the registry invariant and how the loop ended. What each turn does is `RelayStep`'s contract.
- Client.Listener.Listen: states the invariant it keeps and how far it read. What each receive does is `Poll`'s contract.
- Server.Server.Deliver: updates the sender's Player after the broadcast, while the source updates it before. The broadcast reads only the sender's id, which the update keeps, so the outcome is the same.

## Findings

| source | as written | input that shows it | evidently intended | confidence | as-written member | corrected member |
|---|---|---|---|---|---|---|
| server.py:75-76 | `json.loads(message)` is applied to the whole received chunk, delimiter included | the first frame any client sends, `[5, 5, "down"]` followed by the delimiter: the trailing delimiter is extra data, so the load raises and the relay worker ends on its first message | read the payload before the delimiter, as the client does when it splits on the delimiter | not executed | Wire.AsWrittenRejectsEveryFrame | Wire.DecodeChunkOfFrame |
