/**
 * The per-connection message dispatcher of lib/WebSocket/messageHandler.js.
 * Each connection carries a session (`ws.roomId`, `ws.clientName`); the four
 * actions check it, call the registry, update it, send a reply and emit an
 * event, and the handler turns whatever an action throws into one `WS_ERROR`
 * reply. Sends are appended to `outbox`, event emissions to `events`.
 */
module Dispatch {
  import opened Wrappers
  import opened Rooms

  /** What an action throws. */
  datatype ActionError =
    | RegistryError(cause: RoomError)
    | AlreadyInRoomOnCreate
    | AlreadyInRoomOnJoin
    | NotInARoom
    | Malformed(reason: string)
  {
    /** The `message` of the thrown error. */
    function Message(): (msg: string)
      ensures !Malformed? ==> msg != ""
    {
      match this
      case RegistryError(e) => e.Message()
      case AlreadyInRoomOnCreate => "You can not create a room when you already are in one"
      case AlreadyInRoomOnJoin => "You can not join a room when you already are in one"
      case NotInARoom => "You can not exit a room when you are not already in one"
      case Malformed(reason) => reason
    }
  }

  /** A client reading the `WS_ERROR` reply can tell which action error was thrown. */
  lemma ActionMessagesDistinct(a: ActionError, b: ActionError)
    requires !a.Malformed? && !b.Malformed? && a != b
    ensures a.Message() != b.Message()
  {
    if a.RegistryError? && b.RegistryError? {
      RoomMessagesDistinct(a.cause, b.cause);
    }
  }

  /** An inbound message once decoded, by its `msgId`; any other `msgId` is `UnknownRequest`. */
  datatype Request =
    | ListRoomsRequest
    | CreateRoomRequest(roomSize: int, roomName: Option<string>, clientName: Option<string>)
    | JoinRoomRequest(roomId: string, clientName: Option<string>)
    | ExitRoomRequest
    | UnknownRequest(msgId: string)

  /** The raw data of a message: either it does not decode, or it is a request. */
  datatype Inbound = Unparseable(reason: string) | Parsed(request: Request)

  /** The `msgId` of an outbound message. */
  datatype ReplyId = ListRoomsId | RoomCreatedId | RoomJoinedId | RoomExitedId | RoomReadyId | WsErrorId

  /** The `msg` of an outbound message. */
  datatype Payload =
    | RoomsPayload(rooms: map<string, RoomView>)
    | RoomIdPayload(roomId: string)
    | EmptyPayload
    | ErrorPayload(msg: string)

  /** One `ws.send` of an envelope `{msgId, msg}` to connection `to`. */
  datatype Reply = Reply(to: Conn, msgId: ReplyId, msg: Payload)

  /** One event emission, with its arguments. */
  datatype Event =
    | RoomCreatedEvent(room: Room, authorId: string, authorName: Option<string>)
    | RoomJoinedEvent(room: Room, clientId: string, joinedName: string)
    | RoomExitedEvent(room: Room, clientId: string, clientName: Option<string>)
    | RoomReadyEvent(room: Room)
    | InboundEvent(request: Request)
    | WsErrorEvent(error: ActionError)

  /** JavaScript truthiness of an optional string: `null`, `undefined` and `""` are falsy. */
  predicate Truthy(s: Option<string>) {
    s.Some? && s.value != ""
  }

  /** Length of the name generated for a client that gives none. */
  const GeneratedNameLength := 5

  /**
   * The name a joining client gets: its own when truthy, otherwise
   * `uuid().substring(0, 5)`, with `nameSeed` standing for the drawn uuid.
   */
  function ChosenName(clientName: Option<string>, nameSeed: string): (name: string)
    ensures Truthy(clientName) ==> name == clientName.value
    ensures !Truthy(clientName) ==> name <= nameSeed
    ensures !Truthy(clientName) && GeneratedNameLength <= |nameSeed| ==> |name| == GeneratedNameLength
    ensures !Truthy(clientName) && |nameSeed| < GeneratedNameLength ==> name == nameSeed
    ensures nameSeed != "" ==> name != ""
  {
    if Truthy(clientName) then clientName.value
    else if |nameSeed| < GeneratedNameLength then nameSeed
    else nameSeed[..GeneratedNameLength]
  }

  /** `serializeError`: the payload of an error reply. */
  function SerializeError(err: ActionError): (p: Payload)
    ensures p.ErrorPayload? && p.msg == err.Message()
    ensures !err.Malformed? ==> p.msg != ""
  {
    ErrorPayload(err.Message())
  }

  /** The `ROOM_READY` emission after a join: present exactly when no place is left. */
  function ReadyEvents(room: Room): seq<Event> {
    if Remaining(room) <= 0 then [RoomReadyEvent(room)] else []
  }

  /** Number of `WS_ERROR` replies in `replies`. */
  function Errors(replies: seq<Reply>): nat {
    if replies == [] then 0
    else (if replies[0].msgId == WsErrorId then 1 else 0) + Errors(replies[1..])
  }

  /** Counting error replies distributes over appending. */
  lemma {:induction false} ErrorsAppend(a: seq<Reply>, b: seq<Reply>)
    ensures Errors(a + b) == Errors(a) + Errors(b)
  {
    if a == [] {
      assert a + b == b;
    } else {
      assert (a + b)[0] == a[0] && (a + b)[1..] == a[1..] + b;
      ErrorsAppend(a[1..], b);
    }
  }

  /** `wsClients.filter(client => client.readyState === WebSocket.OPEN)`, `open` being the connections in state OPEN. */
  function OpenClients(clients: seq<Conn>, open: set<Conn>): (targets: seq<Conn>)
    ensures forall c :: c in targets ==> c in open
    ensures forall c :: multiset(targets)[c] == if c in open then multiset(clients)[c] else 0
  {
    if clients == [] then []
    else
      assert clients == [clients[0]] + clients[1..];
      (if clients[0] in open then [clients[0]] else []) + OpenClients(clients[1..], open)
  }

  /** The filter keeps order: filtering a concatenation concatenates the filtered parts. */
  lemma {:induction false} OpenClientsAppend(a: seq<Conn>, b: seq<Conn>, open: set<Conn>)
    ensures OpenClients(a + b, open) == OpenClients(a, open) + OpenClients(b, open)
  {
    if a == [] {
      assert a + b == b;
    } else {
      assert (a + b)[0] == a[0] && (a + b)[1..] == a[1..] + b;
      OpenClientsAppend(a[1..], b, open);
    }
  }

  /** The replies sending `payload` under `msgId` to each target in turn. */
  function Fanout(targets: seq<Conn>, msgId: ReplyId, payload: Payload): (replies: seq<Reply>)
    ensures |replies| == |targets|
    ensures forall i :: 0 <= i < |targets| ==> replies[i] == Reply(targets[i], msgId, payload)
  {
    seq(|targets|, i requires 0 <= i < |targets| => Reply(targets[i], msgId, payload))
  }

  /** Sending to one more target appends one reply. */
  lemma FanoutSnoc(targets: seq<Conn>, i: nat, msgId: ReplyId, payload: Payload)
    requires i < |targets|
    ensures Fanout(targets[..i + 1], msgId, payload) == Fanout(targets[..i], msgId, payload) + [Reply(targets[i], msgId, payload)]
  {
  }

  function Min(a: int, b: int): int {
    if a <= b then a else b
  }

  /**
   * The room and the number of `ROOM_READY` emissions after `JOIN_ROOM`
   * requests for one room, in order, from connections in no room: a request
   * that finds the room full is refused and changes nothing.
   */
  function JoinAll(room: Room, joiners: seq<RoomClient>): (Room, nat)
    decreases |joiners|
  {
    if joiners == [] then (room, 0)
    else if IsFull(room) then JoinAll(room, joiners[1..])
    else
      var joined := Joined(room, joiners[0]);
      var rest := JoinAll(joined, joiners[1..]);
      (rest.0, |ReadyEvents(joined)| + rest.1)
  }

  /**
   * Joins fill a room in request order up to its size, and `ROOM_READY` is
   * emitted once, on the join that takes the last place, and never again.
   */
  lemma {:induction false} ReadyFiresOnce(room: Room, joiners: seq<RoomClient>)
    requires RoomInvariant(room)
    ensures JoinAll(room, joiners).0 == room.(clients := room.clients + joiners[..Min(|joiners|, Remaining(room))])
    ensures JoinAll(room, joiners).1
      == if !IsFull(room) && room.size <= |room.clients| + |joiners| then 1 else 0
    decreases |joiners|
  {
    if joiners == [] {
      assert room.clients + joiners[..0] == room.clients;
    } else if IsFull(room) {
      ReadyFiresOnce(room, joiners[1..]);
      assert joiners[..0] == [] && joiners[1..][..0] == [];
    } else {
      var joined := Joined(room, joiners[0]);
      ReadyFiresOnce(joined, joiners[1..]);
      var k := Min(|joiners[1..]|, Remaining(joined));
      assert joiners[..k + 1] == [joiners[0]] + joiners[1..][..k];
      assert room.clients + joiners[..k + 1] == joined.clients + joiners[1..][..k];
    }
  }

  /** The session state the source stores on each connection object. */
  class Session {
    /** `ws.uuid`, drawn at connection time. */
    const uuid: string
    /** The connection itself, as the registry refers to it. */
    const conn: Conn
    /** `ws.roomId`. */
    var roomId: Option<string>
    /** `ws.clientName`. */
    var clientName: Option<string>

    /** A fresh connection, in no room. */
    constructor (uuid: string, conn: Conn)
      ensures this.uuid == uuid && this.conn == conn
      ensures roomId == None && clientName == None
    {
      this.uuid := uuid;
      this.conn := conn;
      roomId := None;
      clientName := None;
    }
  }

  /** The message handler together with the registry it drives, the sends it made and the events it emitted. */
  class Dispatcher {
    /** The room registry. */
    const registry: Registry
    /** Every message sent, in order. */
    var outbox: seq<Reply>
    /** Every event emitted, in order. */
    var events: seq<Event>

    ghost predicate Valid()
      reads this, registry
    {
      registry.Valid()
    }

    /** Nothing observable changed: registry, session, sends and events. */
    twostate predicate Untouched(ws: Session)
      reads this, registry, ws
    {
      && registry.rooms == old(registry.rooms)
      && ws.roomId == old(ws.roomId) && ws.clientName == old(ws.clientName)
      && outbox == old(outbox) && events == old(events)
    }

    /** What `JOIN_ROOM` does, by case: the refusals change nothing, a join enters the room. */
    twostate predicate JoinEffect(ws: Session, roomId: string, clientName: Option<string>, nameSeed: string,
                                  new r: Outcome<ActionError>)
      reads this, registry, ws
    {
      && (Truthy(old(ws.roomId)) ==> r == Fail(AlreadyInRoomOnJoin) && Untouched(ws))
      && (!Truthy(old(ws.roomId)) && roomId !in old(registry.rooms) ==>
            r == Fail(RegistryError(NotFound)) && Untouched(ws))
      && (!Truthy(old(ws.roomId)) && roomId in old(registry.rooms) && IsFull(old(registry.rooms)[roomId]) ==>
            r == Fail(RegistryError(RoomIsFull)) && Untouched(ws))
      && (!Truthy(old(ws.roomId)) && roomId in old(registry.rooms) && !IsFull(old(registry.rooms)[roomId]) ==>
            var name := ChosenName(clientName, nameSeed);
            var joined := Joined(old(registry.rooms)[roomId], RoomClient(ws.uuid, name, ws.conn));
            && r == Pass
            && registry.rooms == old(registry.rooms)[roomId := joined]
            && ws.roomId == Some(roomId) && ws.clientName == Some(name)
            && outbox == old(outbox) + [Reply(ws.conn, RoomJoinedId, RoomIdPayload(roomId))]
            && events == old(events) + [RoomJoinedEvent(joined, ws.uuid, name)] + ReadyEvents(joined))
    }

    /** What `CREATE_ROOM` does, by case: the refusals change nothing, a creation is followed by the creator's join. */
    twostate predicate CreateEffect(ws: Session, roomSize: int, roomName: Option<string>, clientName: Option<string>,
                                    freshId: string, nameSeed: string, new r: Outcome<ActionError>)
      reads this, registry, ws
    {
      && (Truthy(old(ws.roomId)) ==> r == Fail(AlreadyInRoomOnCreate) && Untouched(ws))
      && (!Truthy(old(ws.roomId)) && roomSize <= 0 ==> r == Fail(RegistryError(InvalidSize)) && Untouched(ws))
      && (!Truthy(old(ws.roomId)) && 0 < roomSize ==>
            var name := ChosenName(clientName, nameSeed);
            var empty := Room(freshId, roomName.GetOr(DefaultRoomName), roomSize, []);
            var joined := Joined(empty, RoomClient(ws.uuid, name, ws.conn));
            && r == Pass
            && registry.rooms == old(registry.rooms)[freshId := joined]
            && ws.roomId == Some(freshId) && ws.clientName == Some(name)
            && outbox == old(outbox) + [Reply(ws.conn, RoomCreatedId, RoomIdPayload(freshId)),
                                        Reply(ws.conn, RoomJoinedId, RoomIdPayload(freshId))]
            && events == old(events) + [RoomCreatedEvent(empty, ws.uuid, clientName),
                                        RoomJoinedEvent(joined, ws.uuid, name)] + ReadyEvents(joined))
    }

    /**
     * What `EXIT_ROOM` does, by case: the refusals change nothing; a member
     * whose exit deleted the room is left with a stale session; otherwise the
     * session is cleared and the exit announced.
     */
    twostate predicate ExitEffect(ws: Session, new r: Outcome<ActionError>)
      reads this, registry, ws
    {
      && (!Truthy(old(ws.roomId)) ==> r == Fail(NotInARoom) && Untouched(ws))
      && (Truthy(old(ws.roomId)) && old(ws.roomId).value !in old(registry.rooms) ==>
            r == Fail(RegistryError(NotFound)) && Untouched(ws))
      && (Truthy(old(ws.roomId)) && old(ws.roomId).value in old(registry.rooms) ==>
            var roomId := old(ws.roomId).value;
            var left := AfterExit(old(registry.rooms)[roomId], ws.uuid, registry.deleteOnlyWhenEmpty);
            && registry.rooms == Replaced(old(registry.rooms), roomId, left)
            && (left.None? ==>
                  && r == Fail(RegistryError(NotFound))
                  && ws.roomId == old(ws.roomId) && ws.clientName == old(ws.clientName)
                  && outbox == old(outbox) && events == old(events))
            && (left.Some? ==>
                  && r == Pass
                  && ws.roomId == None && ws.clientName == None
                  && outbox == old(outbox) + [Reply(ws.conn, RoomExitedId, EmptyPayload)]
                  && events == old(events) + [RoomExitedEvent(left.value, ws.uuid, old(ws.clientName))]))
    }

    constructor (registry: Registry)
      ensures this.registry == registry && outbox == [] && events == []
    {
      this.registry := registry;
      outbox := [];
      events := [];
    }

    /** `sendMsg`. */
    method Send(to: Conn, msgId: ReplyId, payload: Payload)
      modifies this`outbox
      ensures outbox == old(outbox) + [Reply(to, msgId, payload)]
      ensures Errors(outbox) == Errors(old(outbox)) + (if msgId == WsErrorId then 1 else 0)
    {
      ErrorsAppend(outbox, [Reply(to, msgId, payload)]);
      outbox := outbox + [Reply(to, msgId, payload)];
    }

    /** One event emission. */
    method Emit(e: Event)
      modifies this`events
      ensures events == old(events) + [e]
    {
      events := events + [e];
    }

    /** `broadcast`: sends to every given client in state OPEN, in the given order, and to no other. */
    method Broadcast(clients: seq<Conn>, msgId: ReplyId, payload: Payload, open: set<Conn>)
      modifies this`outbox
      ensures outbox == old(outbox) + Fanout(OpenClients(clients, open), msgId, payload)
    {
      var targets := OpenClients(clients, open);
      var i := 0;
      while i < |targets|
        invariant 0 <= i <= |targets|
        invariant outbox == old(outbox) + Fanout(targets[..i], msgId, payload)
      {
        Send(targets[i], msgId, payload);
        FanoutSnoc(targets, i, msgId, payload);
        i := i + 1;
      }
      assert targets[..i] == targets;
    }

    /** `roomBroadcast`: broadcast to the connections of a room's clients. */
    method RoomBroadcast(roomId: string, msgId: ReplyId, payload: Payload, open: set<Conn>) returns (r: Outcome<RoomError>)
      modifies this`outbox
      ensures roomId !in registry.rooms ==> r == Fail(NotFound) && outbox == old(outbox)
      ensures roomId in registry.rooms ==>
        && r == Pass
        && outbox == old(outbox) + Fanout(OpenClients(Connections(registry.rooms[roomId].clients), open), msgId, payload)
    {
      var clients := registry.GetRoomWsClients(roomId);
      if clients.Failure? {
        return Fail(clients.error);
      }
      assert clients.value == Connections(registry.rooms[roomId].clients);
      Broadcast(clients.value, msgId, payload, open);
      r := Pass;
    }

    /** `LIST_ROOMS`: replies with the registry's snapshot. */
    method ListRooms(ws: Session)
      modifies this`outbox
      ensures outbox == old(outbox) + [Reply(ws.conn, ListRoomsId, RoomsPayload(Snapshot(registry.rooms)))]
      ensures Errors(outbox) == Errors(old(outbox))
    {
      var rooms := registry.GetRooms();
      Send(ws.conn, ListRoomsId, RoomsPayload(rooms));
    }

    /**
     * `JOIN_ROOM`: refused while the session names a room, or when the
     * registry refuses; otherwise the session enters the room, is told so, and
     * `ROOM_READY` follows when the join took the last place.
     */
    method JoinRoom(ws: Session, roomId: string, clientName: Option<string>, nameSeed: string) returns (r: Outcome<ActionError>)
      requires Valid()
      modifies this, registry, ws
      ensures Valid()
      ensures old(outbox) <= outbox && old(events) <= events
      ensures Errors(outbox) == Errors(old(outbox))
      ensures JoinEffect(ws, roomId, clientName, nameSeed, r)
    {
      var name := ChosenName(clientName, nameSeed);
      if Truthy(ws.roomId) {
        return Fail(AlreadyInRoomOnJoin);
      }
      var joinedOrNot := registry.JoinRoom(roomId, ws.uuid, ws.conn, name);
      if joinedOrNot.Fail? {
        return Fail(RegistryError(joinedOrNot.error));
      }
      ws.roomId := Some(roomId);
      ws.clientName := Some(name);
      Send(ws.conn, RoomJoinedId, RoomIdPayload(roomId));
      Emit(RoomJoinedEvent(registry.GetARoom(roomId).value, ws.uuid, name));
      if registry.GetRoomRemainingSize(roomId).value <= 0 {
        Emit(RoomReadyEvent(registry.GetARoom(roomId).value));
      }
      r := Pass;
    }

    /**
     * `CREATE_ROOM`: refused while the session names a room or for a size
     * below one; otherwise the new room is announced and the creator joins it
     * at once, as its only client.
     */
    method CreateRoom(ws: Session, roomSize: int, roomName: Option<string>, clientName: Option<string>,
                      freshId: string, nameSeed: string) returns (r: Outcome<ActionError>)
      requires Valid() && freshId !in registry.rooms
      modifies this, registry, ws
      ensures Valid()
      ensures old(outbox) <= outbox && old(events) <= events
      ensures Errors(outbox) == Errors(old(outbox))
      ensures CreateEffect(ws, roomSize, roomName, clientName, freshId, nameSeed, r)
    {
      if Truthy(ws.roomId) {
        return Fail(AlreadyInRoomOnCreate);
      }
      var created := registry.NewRoom(roomSize, roomName, freshId);
      if created.Failure? {
        return Fail(RegistryError(created.error));
      }
      var roomId := created.value;
      Send(ws.conn, RoomCreatedId, RoomIdPayload(roomId));
      Emit(RoomCreatedEvent(registry.GetARoom(roomId).value, ws.uuid, clientName));
      r := JoinRoom(ws, roomId, clientName, nameSeed);
    }

    /**
     * `EXIT_ROOM`: refused when the session names no room or a missing one.
     * Otherwise the member leaves the registry; if that deleted the room, the
     * `getARoom` that follows throws before the session is cleared, so the
     * session keeps naming the deleted room and nothing is sent or emitted.
     */
    method ExitRoom(ws: Session) returns (r: Outcome<ActionError>)
      requires Valid()
      modifies this, registry, ws
      ensures Valid()
      ensures old(outbox) <= outbox && old(events) <= events
      ensures Errors(outbox) == Errors(old(outbox))
      ensures ExitEffect(ws, r)
    {
      if !Truthy(ws.roomId) {
        return Fail(NotInARoom);
      }
      var exited := registry.ExitRoom(ws.roomId.value, ws.uuid);
      if exited.Fail? {
        return Fail(RegistryError(exited.error));
      }
      var room := registry.GetARoom(ws.roomId.value);
      if room.Failure? {
        return Fail(RegistryError(room.error));
      }
      Emit(RoomExitedEvent(room.value, ws.uuid, ws.clientName));
      ws.roomId := None;
      ws.clientName := None;
      Send(ws.conn, RoomExitedId, EmptyPayload);
      r := Pass;
    }

    /** The connection's close callback: `EXIT_ROOM` when the session names a room, outside any catch. */
    method OnClose(ws: Session) returns (r: Outcome<ActionError>)
      requires Valid()
      modifies this, registry, ws
      ensures Valid()
      ensures !Truthy(old(ws.roomId)) ==> r == Pass && Untouched(ws)
      ensures (&& Truthy(old(ws.roomId)) && old(ws.roomId).value in old(registry.rooms)
               && AfterExit(old(registry.rooms)[old(ws.roomId).value], ws.uuid, registry.deleteOnlyWhenEmpty).Some?)
        ==> r == Pass && ws.roomId == None
      ensures Truthy(old(ws.roomId)) ==> ExitEffect(ws, r)
    {
      r := Pass;
      if Truthy(ws.roomId) {
        r := ExitRoom(ws);
      }
    }

    /** The `switch` on `msgId`: runs the action a parsed request names, with its effect; an unknown id does nothing. */
    method Route(ws: Session, request: Request, freshId: string, nameSeed: string) returns (r: Outcome<ActionError>)
      requires Valid() && freshId !in registry.rooms
      modifies this, registry, ws
      ensures Valid()
      ensures old(outbox) <= outbox && old(events) <= events
      ensures Errors(outbox) == Errors(old(outbox))
      ensures request.CreateRoomRequest? ==>
        CreateEffect(ws, request.roomSize, request.roomName, request.clientName, freshId, nameSeed, r)
      ensures request.JoinRoomRequest? ==> JoinEffect(ws, request.roomId, request.clientName, nameSeed, r)
      ensures request.ExitRoomRequest? ==> ExitEffect(ws, r)
      ensures request.UnknownRequest? ==>
        && r == Pass
        && registry.rooms == old(registry.rooms)
        && ws.roomId == old(ws.roomId) && ws.clientName == old(ws.clientName)
        && outbox == old(outbox) && events == old(events)
      ensures request.ListRoomsRequest? ==>
        && r == Pass
        && registry.rooms == old(registry.rooms)
        && ws.roomId == old(ws.roomId) && ws.clientName == old(ws.clientName)
        && outbox == old(outbox) + [Reply(ws.conn, ListRoomsId, RoomsPayload(Snapshot(registry.rooms)))]
        && events == old(events)
    {
      match request {
        case ListRoomsRequest =>
          ListRooms(ws);
          r := Pass;
        case CreateRoomRequest(roomSize, roomName, clientName) =>
          r := CreateRoom(ws, roomSize, roomName, clientName, freshId, nameSeed);
        case ExitRoomRequest =>
          r := ExitRoom(ws);
        case JoinRoomRequest(roomId, clientName) =>
          r := JoinRoom(ws, roomId, clientName, nameSeed);
        case UnknownRequest(_) =>
          r := Pass;
      }
    }

    /**
     * The message handler: decodes, dispatches on the request, and turns any
     * error into exactly one `WS_ERROR` reply to the sender, carrying the
     * error's message, followed by a `WS_ERROR` event.
     */
    method Handle(ws: Session, data: Inbound, freshId: string, nameSeed: string) returns (r: Outcome<ActionError>)
      requires Valid() && freshId !in registry.rooms
      modifies this, registry, ws
      ensures Valid()
      ensures old(outbox) <= outbox && old(events) <= events
      ensures Errors(outbox) == Errors(old(outbox)) + (if r.Fail? then 1 else 0)
      ensures r.Fail? ==>
        && 0 < |outbox| && 0 < |events|
        && outbox[|outbox| - 1] == Reply(ws.conn, WsErrorId, SerializeError(r.error))
        && events[|events| - 1] == WsErrorEvent(r.error)
      ensures data.Unparseable? ==>
        && r == Fail(Malformed(data.reason))
        && registry.rooms == old(registry.rooms)
        && ws.roomId == old(ws.roomId) && ws.clientName == old(ws.clientName)
        && outbox == old(outbox) + [Reply(ws.conn, WsErrorId, ErrorPayload(data.reason))]
        && events == old(events) + [WsErrorEvent(Malformed(data.reason))]
      ensures data.Parsed? ==> |old(events)| < |events| && events[|old(events)|] == InboundEvent(data.request)
      ensures data.Parsed? && data.request.UnknownRequest? ==>
        && r == Pass
        && registry.rooms == old(registry.rooms)
        && ws.roomId == old(ws.roomId) && ws.clientName == old(ws.clientName)
        && outbox == old(outbox) && events == old(events) + [InboundEvent(data.request)]
      ensures data == Parsed(ListRoomsRequest) ==>
        && r == Pass
        && registry.rooms == old(registry.rooms)
        && ws.roomId == old(ws.roomId) && ws.clientName == old(ws.clientName)
        && outbox == old(outbox) + [Reply(ws.conn, ListRoomsId, RoomsPayload(Snapshot(registry.rooms)))]
        && events == old(events) + [InboundEvent(ListRoomsRequest)]
    {
      match data {
        case Unparseable(reason) =>
          r := Fail(Malformed(reason));
        case Parsed(request) =>
          Emit(InboundEvent(request));
          r := Route(ws, request, freshId, nameSeed);
      }
      if r.Fail? {
        Send(ws.conn, WsErrorId, SerializeError(r.error));
        Emit(WsErrorEvent(r.error));
      }
    }
  }
}
