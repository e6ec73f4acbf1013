# ws-waiting-room: room registry and message dispatcher

ws-waiting-room is a WebSocket server that manages waiting rooms. Clients
create rooms of a fixed size, join them, leave them, and list them. When a
room's last place is taken, the server announces the room as ready. This
project models two layers of that server and proves properties of the model.

- **The room registry** (`lib/roomHandler.js`) is module `Rooms`.
  - Class `Registry` holds the `rooms` dictionary, from room id to room, as a
    `map` field.
  - `newRoom`, `joinRoom` and `exitRoom` are methods that update that field.
  - `checkRoomExist`, `getARoom`, `getRoomRemainingSize`, `getRoomClients` and
    `getRoomWsClients` are functions that read it.
  - `getRooms` is a loop that builds the connection-free copy of every room.
  - Each method keeps the invariant that every room lives under its own id,
    has a positive size, and never holds more clients than its size.
- **The per-connection dispatcher** (`lib/WebSocket/messageHandler.js`) is
  module `Dispatch`.
  - Class `Session` holds the fields the server stores on each connection:
    `ws.uuid`, `ws.roomId` and `ws.clientName`.
  - Class `Dispatcher` drives one `Registry`.
  - Every `ws.send` is appended to `outbox`. Every event emission is appended
    to `events`.
  - Errors that the source throws are returned as `Outcome` values.
  - The four actions (`LIST_ROOMS`, `CREATE_ROOM`, `JOIN_ROOM`, `EXIT_ROOM`)
    and the top-level handler are methods. The handler is the `switch` plus
    the `catch` that turns any thrown error into one `WS_ERROR` reply.
- **Module `Scenarios`** states and proves the outcome of a complete
  walkthrough on both exit rules: one room filled, one join refused, then both
  members leaving.

### Exit rule and the flag

The exit rule at `lib/roomHandler.js:126` deletes a room once at most one
client is left. The comment above it says the room is deleted when it is
empty. The registry has a `deleteOnlyWhenEmpty` flag to cover both:

- `false` is the rule as written.
- `true` is the rule the comment describes.

The pure functions `ExitAsWritten` and `ExitIntended` state the two rules
separately. Lemmas compare them.

### EXIT_ROOM ordering

`EXIT_ROOM` re-reads the room with `getARoom` after `exitRoom`, and only then
clears the session. When `exitRoom` has just deleted the room, that read
fails. The registry has already changed, but the session still names the
deleted room. `Dispatch.Dispatcher.ExitRoom` states this outcome.

The scenarios show what it means in practice:

- On the rule as written, the first of two members leaving deletes the room.
  Both members are left with stale sessions.
- On the intended rule, only the last member to leave is left with a stale
  session.

### The registry module

The dispatcher imports its registry functions from `./queueHandler`
(lib/WebSocket/messageHandler.js:4), a file that is not part of this model.
Its function names match `lib/roomHandler.js`, so the model uses that file.

## Model

| member | source | states |
|---|---|---|
| Rooms.FindIndex | lib/roomHandler.js:122 | the index of the first client with the id, or -1 when no client has it; no earlier client has the id |
| Rooms.WithoutFirst | lib/roomHandler.js:122-123 | without a matching client the list is unchanged; otherwise exactly one client is gone (the first match), the others keep their join order (those before it in place, those after it one place earlier), and as a multiset the rest is the original minus that one |
| Rooms.WithoutFirstKeeps | lib/roomHandler.js:122-123 | the splice never removes a client whose id differs from the one leaving |
| Rooms.WithoutFirstOfAppended | lib/roomHandler.js:109-123 | splicing out a client that `push` just appended, and whose id nobody else has, gives back the earlier clients |
| Rooms.RoomError.Message | lib/roomHandler.js:22-107 | the message each registry error is thrown with (lines 22, 90 and 107); none is empty |
| Rooms.RoomMessagesDistinct | lib/roomHandler.js:22-107 | different registry errors carry different messages |
| Rooms.ExitAsWritten | lib/roomHandler.js:122-126 | as written, an exit deletes the room exactly when it had at most one client, or two of whom one is leaving, so a room is deleted with nobody removed and a room is deleted with one member still in it; a surviving room holds the spliced clients, at least two |
| Rooms.ExitIntended | lib/roomHandler.js:122-125 | under the rule the comment states, an exit deletes the room exactly when it was empty or held only the leaver; a surviving room holds the spliced clients, at least one |
| Rooms.AfterExit | lib/roomHandler.js:122-126 | whichever rule applies, a surviving room keeps its id, name and size and holds the spliced clients; the rule as written deletes whenever the intended one does |
| Rooms.ExitAsWrittenStrandsMember | lib/roomHandler.js:118-126 | when the first of two members leaves, the rule as written deletes the room under the second, and the intended rule keeps the room holding just the second |
| Rooms.ExitIntendedKeepsMembers | lib/roomHandler.js:125 | the intended rule deletes a room exactly when no client is left, and every member other than the one leaving stays in the room |
| Rooms.JoinThenExit | lib/roomHandler.js:105-126 | a join followed by the same client's exit gives back the room; as written the room is deleted instead when it had at most one client, and under the intended rule only when it was empty |
| Rooms.ExitThenJoin | lib/roomHandler.js:105-126 | under either exit rule, when the room survives the exit, a member who leaves and joins again leaves the room with the same clients as a multiset, the returning one now last; when the exit deletes the room (as written, already for two members, see Rooms.ExitAsWrittenStrandsMember) the join fails instead |
| Rooms.AfterExitKeepsInvariant | lib/roomHandler.js:118-126 | whichever rule applies, a room that survives an exit keeps its id, name and size and still holds at most `size` clients |
| Rooms.ReplacedKeepsValid | lib/roomHandler.js:123-126 | writing back a room that keeps the invariant, or deleting the entry, keeps every room valid and under its own id |
| Rooms.Connections | lib/roomHandler.js:79 | one connection per client, in join order |
| Rooms.ClientViews | lib/roomHandler.js:34-36 | the id and name of every client, in order, without its connection |
| Rooms.ViewOf | lib/roomHandler.js:30-36 | the copy of a room keeps its id, name, size and the id/name of each client in order, without connections |
| Rooms.Snapshot | lib/roomHandler.js:29-39 | the copy of the dictionary has the same room ids, each mapped to the copy of that room |
| Rooms.StripClients | lib/roomHandler.js:34-36 | the loop deleting `wsClient` from each client yields the id/name of every client in order |
| Rooms.Registry.constructor | lib/roomHandler.js:13 | the dictionary starts empty |
| Rooms.Registry.CheckRoomExist | lib/roomHandler.js:21-23 | fails with "Could not find the room" exactly when the id has no entry; it reads and never writes |
| Rooms.Registry.GetARoom | lib/roomHandler.js:47-50 | returns the entry for the id, or fails with not-found when there is none; in a valid registry the room carries that id and respects its size |
| Rooms.Registry.GetRoomRemainingSize | lib/roomHandler.js:57-60 | fails for a missing room; otherwise size minus clients, which lies between 0 and size in a valid registry and is 0 exactly when the room is full |
| Rooms.Registry.GetRoomClients | lib/roomHandler.js:67-70 | the room's clients, never more than its size; a missing room fails with exactly the not-found error |
| Rooms.Registry.GetRoomWsClients | lib/roomHandler.js:77-80 | the connections of the room's clients, one per client in join order; a missing room fails with exactly the not-found error |
| Rooms.Registry.GetRooms | lib/roomHandler.js:29-39 | the loop yields exactly the connection-free copy of every room, and the dictionary is not modified |
| Rooms.Registry.NewRoom | lib/roomHandler.js:89-94 | a size of at most 0 fails and changes nothing; otherwise exactly one entry is added under the fresh id, with the given name or "No name", the size and no clients, and every other entry is unchanged |
| Rooms.Registry.JoinRoom | lib/roomHandler.js:105-110 | a missing room or a full room fails and changes nothing; otherwise exactly one client {id, name, connection} is appended to that room and every other room is unchanged |
| Rooms.Registry.ExitRoom | lib/roomHandler.js:118-127 | a missing room fails and changes nothing; otherwise only that room's entry changes, to the room minus its first matching client, or is deleted by the registry's exit rule; every room stays valid |
| Dispatch.ChosenName | lib/WebSocket/messageHandler.js:41 | a truthy client name is kept; otherwise the name is the first 5 characters of a freshly drawn uuid |
| Dispatch.ActionError.Message | lib/WebSocket/messageHandler.js:25-63 | the message each action error is thrown with (lines 25, 44 and 63), the registry's own for a registry error; none is empty except a decoder's reason |
| Dispatch.ActionMessagesDistinct | lib/WebSocket/messageHandler.js:25-63 | different action errors carry different messages, so the `WS_ERROR` reply tells them apart |
| Dispatch.SerializeError | lib/WebSocket/messageHandler.js:8 | the error payload carries the thrown error's message, which is non-empty for every error an action throws |
| Dispatch.OpenClients | lib/WebSocket/messageHandler.js:12 | keeps only connections in state OPEN, each as often as it was given |
| Dispatch.OpenClientsAppend | lib/WebSocket/messageHandler.js:12 | the OPEN filter keeps order: filtering two lists one after the other is filtering their concatenation |
| Dispatch.Fanout | lib/WebSocket/messageHandler.js:13 | one message per target, to that target, in target order |
| Dispatch.ErrorsAppend | lib/WebSocket/messageHandler.js:106 | `WS_ERROR` replies in two logs add up |
| Dispatch.ReadyFiresOnce | lib/WebSocket/messageHandler.js:56-58 | successive joins fill a room in request order up to its size, and `ROOM_READY` is emitted once, on the join that takes the last place, never before and never after |
| Dispatch.Session.constructor | lib/WebSocket/index.js:31-33 | a new connection has its uuid and is in no room |
| Dispatch.Dispatcher.Send | lib/WebSocket/messageHandler.js:9 | appends exactly one envelope to the outbox, counting as a `WS_ERROR` reply exactly when its id is `WS_ERROR` |
| Dispatch.Dispatcher.Emit | lib/eventHandler.js:11-14 | appends exactly one event to the log |
| Dispatch.Dispatcher.Broadcast | lib/WebSocket/messageHandler.js:11-14 | the loop sends the message to exactly the given OPEN clients, in the given order, and to no other |
| Dispatch.Dispatcher.RoomBroadcast | lib/roomHandler.js:136-139 | fails for a missing room with nothing sent; otherwise broadcasts to the OPEN connections of the room's clients in join order |
| Dispatch.Dispatcher.ListRooms | lib/WebSocket/messageHandler.js:17-21 | one `LIST_ROOMS` reply to the caller carrying the connection-free copy of every room |
| Dispatch.Dispatcher.JoinRoom | lib/WebSocket/messageHandler.js:39-59 | refused with nothing changed when the session names a room, the room is missing or the room is full; otherwise the client is appended under its chosen name, the session names the room, one `ROOM_JOINED` reply is sent, and `ROOM_JOINED` is emitted, followed by `ROOM_READY` exactly when no place is left |
| Dispatch.Dispatcher.CreateRoom | lib/WebSocket/messageHandler.js:23-37 | refused with nothing changed when the session names a room or the size is at most 0; otherwise the new room holds exactly the creator, the session names it, `ROOM_CREATED` and `ROOM_JOINED` replies are sent, and the created, joined and (for size 1) ready events are emitted |
| Dispatch.Dispatcher.ExitRoom | lib/WebSocket/messageHandler.js:61-74 | refused with nothing changed when the session names no room or a missing room; otherwise the member leaves the registry; if that deleted the room, the call fails with not-found and the session keeps the stale room id, else the session is cleared, `ROOM_EXITED` is sent and emitted with the room left behind |
| Dispatch.Dispatcher.OnClose | lib/WebSocket/index.js:45-49 | a closing connection in no room changes nothing; one that names a room has the full effect of `EXIT_ROOM` (the same effect predicate `ExitRoom` ensures), so one whose room survives its exit leaves it |
| Dispatch.Dispatcher.Route | lib/WebSocket/messageHandler.js:85-101 | each recognised message id has the full effect of its action (the same effect predicate the action itself ensures); an unrecognised id does nothing; `LIST_ROOMS` adds one reply with the rooms and changes neither the registry, the session nor the events; no action sends a `WS_ERROR` reply itself |
| Dispatch.Dispatcher.Handle | lib/WebSocket/messageHandler.js:78-109 | every failure, and only a failure, adds exactly one `WS_ERROR` reply to the sender carrying the error's message, followed by a `WS_ERROR` event; undecodable data changes nothing else; an unknown message id changes nothing but the inbound event; `LIST_ROOMS` adds only the inbound event and its reply, with the registry and the session unchanged; sends and events are only ever appended |
| Scenarios.AlphaEvents | lib/WebSocket/messageHandler.js:33-58 | filling a two-place room emits created, joined, joined, then `ROOM_READY`, the only ready event |
| Scenarios.CreateAlpha | lib/WebSocket/messageHandler.js:23-58 | creating a two-place room without a client name leaves the creator as its only member under the first 5 characters of its drawn uuid, with the created and joined events and no ready event |
| Scenarios.JoinFullRoom | lib/WebSocket/messageHandler.js:44-47 | a connection in no room asking to join a full room is refused as full, with the registry, the events and the session unchanged |
| Scenarios.FillTwoSeatRoom | lib/WebSocket/messageHandler.js:23-59 | creating a two-place room and joining it once fills it with both members in order; a third join is refused as full; `ROOM_READY` is emitted once |
| Scenarios.LeaveCreatorAsWritten | lib/WebSocket/messageHandler.js:61-71 | as written, the creator of a two-member room leaving deletes the room, fails with not-found and keeps the stale session |
| Scenarios.LeaveCreatorIntended | lib/WebSocket/messageHandler.js:61-73 | under the intended rule the creator leaves cleanly and the other member stays alone in the room |
| Scenarios.LeaveLastMember | lib/WebSocket/messageHandler.js:61-71 | even under the intended rule, the last member's exit deletes the room and then fails reading it back, keeping the stale session |
| Scenarios.LeaveAlphaAsWritten | lib/roomHandler.js:126 | as written, both exits from the full room fail and both sessions keep naming the deleted room |
| Scenarios.LeaveAlphaIntended | lib/roomHandler.js:125 | under the intended rule the first exit succeeds and only the last one leaves a stale session |
| Scenarios.TwoSeatRoomAsWritten | lib/WebSocket/messageHandler.js:23-74 | the whole walkthrough as written ends with no room and two stale sessions |
| Scenarios.TwoSeatRoomIntended | lib/WebSocket/messageHandler.js:23-74 | the whole walkthrough under the intended rule ends with no room and one stale session |

## Left out

- The connection object becomes a `nat` handle. Its `readyState` is a set of OPEN handles passed to `Broadcast`. The WebSocket transport, `ws.send` and the server in lib/WebSocket/index.js are not modelled, except its close callback (`OnClose`).
- `uuid()` is not modelled. Each call takes the value it would draw as a parameter: `freshId` for a new room id, which must not already be a key, and `nameSeed` for the generated client name.
- `JSON.parse` of inbound data is not modelled. Inbound data arrives already decoded as `Inbound`, and undecodable data is `Unparseable`. A `CREATE_ROOM` or `JOIN_ROOM` whose `msg` is missing throws while destructuring; the decoder is taken to report such a message as `Unparseable`.
- The deep clone `JSON.parse(JSON.stringify(rooms))` in `getRooms` is not modelled; the copy is built as a value.
- The message-id constants are not modelled: `msgId.config` is not part of this model, so message ids are the enums `Request` and `ReplyId`. The handler compares against `MSG_ID.room.*` while the actions reply with `MSG_ID.*`; the model assumes these name the same ids.
- The console and logger calls carry no logic and are not modelled.
- The `EventEmitter` in lib/eventHandler.js is not modelled: each emission is one entry appended to `events`. Two defects there are not reproduced:
  - `ROOM_JOINED` emits under the `ROOM_EXITED` name (lib/eventHandler.js:20).
  - The default export lacks `ws`, `ROOM_JOINED` and `ROOM_EXITED` (lib/eventHandler.js:30-35). As written, the calls at lib/WebSocket/messageHandler.js:82, 54 and 69 would throw `TypeError`, and so would the one at :107 inside the `catch`, after the `WS_ERROR` reply was sent, so that error escapes the handler. The model emits those events as their names intend.
- `ROOM_READY` exists only as an event. `roomBroadcast` is never called by the dispatcher, so no ready message is sent to clients. `RoomBroadcast` is modelled on its own.
- Events carry copies of the room at the moment of emission. The source passes the live room object, which later mutations change.
- JavaScript coercions are not modelled: a non-numeric `roomSize`, an object key such as `"__proto__"`, a `roomId` that is not a string, or a JSON `null` where a string is expected. Sizes are `int`, ids are `string`, and truthiness of `ws.roomId` and `clientName` is `Truthy` (absent or empty means falsy).
- Errors in the close callback: the source runs `EXIT_ROOM` outside any `try`, so an error escapes the callback. `Dispatch.Dispatcher.OnClose` returns it instead of throwing it.
- Rooms.Registry.NewRoom: a JSON `null` room name arrives as `None` and is named "No name"; the source's default parameter replaces only `undefined`, so it would store a room named `null`. For a client name the two agree, since `null` is falsy and gets a generated name.
- Dispatch.Dispatcher.Handle: for `CREATE_ROOM`, `JOIN_ROOM` and `EXIT_ROOM` it states only the error reply, the inbound event and the append-only logs. The action's full effect is stated on `Dispatch.Dispatcher.Route` and on the action's own method; after the inbound event and the possible `WS_ERROR` reply it is not restated on `Handle`.

## Findings

| source | as written | input that shows it | evidently intended | confidence | as-written member | corrected member |
|---|---|---|---|---|---|---|
| lib/roomHandler.js:126 | after the splice the room is deleted when `clients.length - 1 <= 0`, that is when at most one client is left | a room holding two clients, the first of whom exits: the second is still in it, but the room is deleted, and that member's own later `EXIT_ROOM` fails with "Could not find the room" | delete the room only once it is empty, as the comment on line 125 says | not executed | Rooms.ExitAsWrittenStrandsMember | Rooms.ExitIntendedKeepsMembers |
