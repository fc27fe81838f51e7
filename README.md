# Voice-chat signalling relay: room registry and router

This project models the server side of a small browser voice-chat
application, `render_app.py`. Browsers find each other by joining a *room*.
Each browser then exchanges WebRTC negotiation messages (`offer`, `answer`,
`ice-candidate`) with a named peer through the server, which only relays them.
The model covers:

- the process-wide registry of the `VoiceChat` object. `rooms` maps a room
  id to the room's name and its `users` dictionary, which maps a
  participant id to that participant's channel. `connections` maps a
  channel to the participant id and room id of its last join.
- the writes to the registry made by the `create-room` endpoint and the
  room page;
- the per-channel handler: `join`, routing of negotiation messages, and
  cleanup when the channel closes;
- `broadcast_to_room`, the best-effort fan-out to a room.

The modules are:

- `Messages`: the messages as values.
- `Rooms`: one room. Python dictionaries keep insertion order, so the
  `users` dictionary is an id sequence `order` beside a map `users`.
- `Fanout`: best-effort delivery. A write that raises is skipped and the
  rest are still written. The channels whose writes raise are a parameter,
  `failing`.
- `Relay`: the `VoiceChat` class, with the two tables as fields, plus the
  functions that specify its methods.
- `Scenarios`: concrete runs of the class, stated through the methods'
  contracts.

Three behaviours of the code are easy to miss:

- **`user_joined` also reaches the joiner.** The code binds the joiner
  first (`render_app.py:186`) and then broadcasts to the whole room
  (`render_app.py:189`). `Relay.JoinOutboxReachesAll` and
  `Scenarios.TwoPeers` state this.
- **Cleanup removes the recorded id.** On close, the code removes whatever
  id the channel's `connections` record names (`render_app.py:208-214`).
  That goes wrong in two ways:
  - If a second channel has since joined with the same id, that channel's
    binding is removed, although it is still open
    (`Scenarios.TakeoverThenStaleClose`).
  - If a channel joined two rooms in turn, only the last room is cleaned
    (`Scenarios.RejoinLeavesStaleEntry`).
- **A channel can hold several ids.** A channel that joins one room under
  two ids is bound to both. `users.values()` (`render_app.py:222`) then
  lists it twice, so it gets every broadcast to that room twice
  (`Fanout.SendsCount`, `Scenarios.SharedChannelHearsTwice`).

An empty room id is accepted by `join`. However, the routing guard tests
the truthiness of `room_id` (`render_app.py:200`), so none of its
negotiation messages is ever forwarded (`Scenarios.EmptyRoomIdNeverRoutes`).

## Model

| member | source | states |
|---|---|---|
| Rooms.DefaultName | render_app.py:52 | the name a room gets when created on reference: the 8-character prefix "Комната " followed by the room id |
| Rooms.NewRoom | render_app.py:46 | a new room has the given name, an empty users dictionary and an empty roster, and is well formed |
| Rooms.Put | render_app.py:186 | `users[u] = c`: afterwards u is bound to c and every other binding is unchanged; an existing u keeps its place in the roster and a new u is appended at the end; the room stays well formed |
| Rooms.Without | render_app.py:214 | the roster with u removed holds exactly the other ids, keeps them distinct and is no longer |
| Rooms.WithoutSplit | render_app.py:214 | deleting the id at position i of a duplicate-free roster closes the gap: the result is the ids before i followed by the ids after it |
| Rooms.WithoutAbsent | render_app.py:213-214 | deleting an id that is not in the roster changes nothing |
| Rooms.Remove | render_app.py:214 | `del users[u]`: u is gone, every other binding is unchanged, the roster loses exactly u and keeps its order, and the room stays well formed |
| Rooms.FirstOccurrences | render_app.py:186 | the order a dictionary gives its keys: each id of the series once, with no repetitions and nothing else |
| Rooms.PutAll | render_app.py:186 | a series of bindings keeps the room well formed and keeps its name |
| Rooms.FirstOccurrencesPrefix | render_app.py:186 | later ids never reorder earlier ones: the first occurrences of a series start the first occurrences of any extension of it |
| Rooms.PutAllRoster | render_app.py:186 | after a series of bindings the roster is the old roster followed by each newly bound id, once, in order of its first binding |
| Rooms.PutAllLastWriterWins | render_app.py:186 | after a series of bindings each id is bound to the channel of its last binding |
| Rooms.Channels | render_app.py:222 | the channels of the given keys, position by position |
| Rooms.Values | render_app.py:222 | `users.values()`: one channel per roster entry, each the channel bound to that entry, in roster order |
| Rooms.ValuesAreRegistered | render_app.py:222 | `users.values()` lists exactly the channels registered in the room |
| Fanout.Sends | render_app.py:222-226 | writing a message to a list of channels delivers at most one message per listed entry, and exactly one per entry when no write fails |
| Fanout.SendsCount | render_app.py:222-226 | a channel listed k times gets the message exactly k times if its writes work, and never if they fail |
| Fanout.SendsSound | render_app.py:222-226 | every delivery carries the message to one of the listed channels whose write does not fail |
| Fanout.SendsComplete | render_app.py:222-226 | a failing write does not stop the loop: every listed channel whose write does not fail gets the message |
| Fanout.SendsAppend | render_app.py:222-226 | writing to two lists in turn delivers what each list delivers, in that order |
| Fanout.Deliver | render_app.py:222-226 | the delivery loop delivers exactly what `Sends` specifies |
| Messages.UserValue | render_app.py:202 | the value `from` gets: the sender's `user_id` as a string when one is bound, and not a string (`null`) before any join |
| Relay.Opened | render_app.py:171-172 | a freshly accepted channel has neither local bound, so it is coherent and its `room_id` is not truthy |
| Relay.Truthy | render_app.py:200 | the guard's test of `room_id`: bound and not the empty string |
| Relay.RouteHits | render_app.py:200 | the routing guard: `room_id` is truthy, names a registered room, and that room holds the target |
| Relay.JoinOutbox | render_app.py:189-196 | what a join sends, given the room after the join: `user_joined` to each registered channel in roster order, then the roster to each, then the roster to the joiner; at most two messages per roster entry plus one, exactly that many when no write fails |
| Relay.WithRoom | render_app.py:183-184 | a reference to a room creates it, with the default name and no participants, if it is absent; every existing room is unchanged and no room disappears |
| Relay.JoinRooms | render_app.py:183-186 | after u joins r on channel c the room exists and u is bound to c; the roster is [u] for a new room, unchanged when u was already in it, and otherwise the old roster plus u; no other room or participant changes |
| Relay.JoinAll | render_app.py:183-186 | a series of joins keeps every room well formed |
| Relay.JoinExisting | render_app.py:186 | a join to a room that exists is the binding `users[u] = c` in that room and nothing else |
| Relay.JoinAllBindsInOrder | render_app.py:183-186 | a series of joins to one room creates the room if absent and leaves in it exactly what the same bindings, made in turn, leave in its dictionary; other rooms are unchanged |
| Relay.JoinOutboxSound | render_app.py:189-196 | every delivery of a join goes to a channel registered in the room whose write does not fail, and is `user_joined(u)` or the room's current roster |
| Relay.JoinOutboxPhases | render_app.py:189-196 | in a join's deliveries every `user_joined` comes before every roster |
| Relay.JoinOutboxReachesAll | render_app.py:189-193 | every registered channel whose write does not fail, the joiner's included, gets `user_joined(u)` and later the current roster |
| Relay.JoinerGetsRosterTwice | render_app.py:192-196 | a joiner whose channel works gets the roster twice: once in the broadcast and once as the join's last delivery |
| Relay.RouteOutbox | render_app.py:198-203 | a negotiation message is delivered once exactly when the sender's room id is truthy, the room is registered, it holds the target and the target's write does not fail; otherwise nothing is delivered; the delivery goes to the target's channel with the same type and target, `from` set to the sender's `user_id` (overwriting any forged one), and every other field unchanged |
| Relay.Evict | render_app.py:208-214 | on close, the recorded id leaves the recorded room, whichever channel it is bound to now; the rest of that roster keeps its order; every other room is untouched and no room disappears |
| Relay.ClosedIsRoutingMiss | render_app.py:200-214 | after a participant's channel closes, a message for its id from its room is a routing miss and delivers nothing |
| Relay.VoiceChat.constructor | render_app.py:8-10 | the registry starts with no rooms and no connection records |
| Relay.VoiceChat.CreateRoom | render_app.py:43-47 | the fresh room id is bound to an empty room named by the request, or named "Комната" when the request has no name; an existing room with that id is replaced |
| Relay.VoiceChat.VisitRoom | render_app.py:49-52 | visiting a room page creates the room, if absent, with the default name; nothing else changes |
| Relay.VoiceChat.Broadcast | render_app.py:220-226 | nothing is sent for an unknown room; otherwise the room's channels get the message in roster order, skipping channels whose write fails; every delivery goes to a registered channel of the room, and every registered channel whose write works gets the message |
| Relay.VoiceChat.JoinRoom | render_app.py:179-196 | the registry becomes `JoinRooms` of the old one, the channel is recorded with (u, r), and what is sent is `user_joined`, then the roster to the room, then the roster to the joiner |
| Relay.VoiceChat.HandleFrame | render_app.py:174-206 | a full join rebinds both locals and joins as `JoinRooms` and `JoinOutbox` say; a join with `user_id` and no `room_id` rebinds `user_id` only and sends nothing; a negotiation message with a target is routed as `RouteOutbox` says; non-text frames, malformed messages, and joins or negotiation messages missing `user_id` or `target` change nothing and send nothing; only a full join changes the registry and no room disappears |
| Relay.VoiceChat.Close | render_app.py:208-216 | an unrecorded channel changes no room; a recorded one is evicted as `Evict` says; the channel's record is deleted |
| Relay.VoiceChat.Serve | render_app.py:167-218 | after a channel's frames are handled in turn and the channel closes, the channel has no record and every earlier room still exists |
| Scenarios.TwoPeers | render_app.py:179-203 | two peers join "r1" in turn and one sends a forged offer: the exact deliveries of each join, and the offer reaching the peer alone with `from` replaced |
| Scenarios.ForgedFromIsReplaced | render_app.py:198-203 | an offer carrying its own `from` reaches the target with `from` set to the sender and its payload intact |
| Scenarios.FirstJoin | render_app.py:183-187 | the first join to a room creates it with the joiner alone in it |
| Scenarios.FirstJoinSends | render_app.py:189-196 | the first joiner gets `user_joined` for itself and then the roster twice |
| Scenarios.SecondJoin | render_app.py:186 | a second participant is appended to the roster and bound to its channel |
| Scenarios.ChannelsOfTwo | render_app.py:222 | a room of two yields its channels in join order |
| Scenarios.SecondJoinSends | render_app.py:189-196 | the exact deliveries of a second join when every write works |
| Scenarios.SecondJoinSendsFailing | render_app.py:189-196 | the exact deliveries of a second join when the joiner's own channel fails: the first member still gets both messages |
| Scenarios.SharedChannelJoin | render_app.py:186 | a channel already in a room under one id that joins again under a second id is bound to both |
| Scenarios.SharedChannelHearsTwice | render_app.py:222-226 | a broadcast to that room writes to the channel twice |
| Scenarios.TakeoverThenStaleClose | render_app.py:186-214 | a second channel that joins with an id already in the room receives that id's messages; once the first channel closes, the id is no longer reachable |
| Scenarios.StaleClose | render_app.py:198-216 | from the taken-over room, an answer for the id reaches the new channel before the first channel closes and nothing after |
| Scenarios.JoinAs | render_app.py:179-187 | a full join on a fresh channel updates both tables as `JoinRooms` says |
| Scenarios.Negotiation | render_app.py:198-203 | a negotiation message leaves both tables unchanged and delivers what `RouteOutbox` says |
| Scenarios.FirstOfTakeover | render_app.py:183-186 | the first join of the takeover run creates the room |
| Scenarios.SecondOfTakeover | render_app.py:186 | re-joining with the same id rebinds it to the new channel and keeps the roster |
| Scenarios.ThirdOfTakeover | render_app.py:186 | a third join appends its id |
| Scenarios.TakeoverRoutes | render_app.py:200-203 | in the taken-over room, an answer for the id goes to the new channel |
| Scenarios.TakeoverEvicts | render_app.py:208-214 | closing the first channel removes the id even though the new channel holds it |
| Scenarios.RejoinLeavesStaleEntry | render_app.py:187-214 | a channel that joins two rooms in turn is removed on close only from the second; the first keeps its stale entry |
| Scenarios.JoinSecondRoom | render_app.py:183-186 | joining a second room leaves the first as it was |
| Scenarios.EmptyRoomIdNeverRoutes | render_app.py:200 | two peers can join room "" but an offer between them is never delivered |
| Scenarios.FailingPeerDuringJoin | render_app.py:186-196 | when the joiner's channel fails, the other member still gets `user_joined` and the roster, and the joiner is still registered |

## Left out

- The HTML pages (`index` and the body of `room`), the aiohttp application wiring, the port and the environment variables: they are presentation and process setup, not registry or routing logic.
- Relay.VoiceChat.CreateRoom: the room id from `uuid.uuid4()` is a parameter, and the JSON response is not modelled. A request body that is not a JSON object makes the handler fail before any write; that path is not modelled.
- JSON parsing and printing: an inbound frame arrives classified as an `Inbound` value, and everything the parser or the `type` dispatch rejects is `Malformed`.
- Non-string ids and names. JSON numbers, `null`, lists and objects as `user_id`, `room_id`, `target` or `name` are not modelled; an unhashable `room_id` makes a join fail after its locals are rebound, and this is not captured.
- Concurrency. Each handler runs as its own task. Handlers interleave wherever one suspends: at each read of the next frame (`render_app.py:174`) and at each channel write. The model runs each frame's handling whole, so the only interleavings it covers are those between whole frames. This hides one failure. Another channel's join of a new id, or a close, can change the size of `users` while `broadcast_to_room` iterates `users.values()` (`render_app.py:222`). The iterator then raises outside the per-recipient `try`, and the `except` at `render_app.py:205` drops the rest of that join's deliveries.
- Channels are identified by a number, and a write to a channel either delivers or fails. Which writes fail is the parameter `failing`; Relay.VoiceChat.Serve uses one such set for the channel's whole life.
- Relay.VoiceChat.Serve: its contract does not state its deliveries in closed form, only that the channel's record is gone and no room disappears. The deliveries of each frame are stated by Relay.VoiceChat.HandleFrame.
- Relay.VoiceChat.Serve: the frame loop is assumed to end normally, when the channel closes. The loop header at `render_app.py:174-175` is outside the `try` and no `finally` guards the cleanup. So anything raised while the handler waits for the next frame, such as the task being cancelled, skips `render_app.py:208-216`: both the `connections` record and the `users` binding stay. The model always runs the cleanup, so its `c !in connections` does not hold for the code on that path.
- The two tables are not kept consistent with each other, so the model does not claim they are: only each room's own shape (the roster lists each key of `users` exactly once) is an invariant of the class.
- No roster is re-broadcast after a close. `render_app.py` sends none, so the model sends none.
