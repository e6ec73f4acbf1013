/**
 * The room registry of lib/roomHandler.js: a dictionary from room id to room,
 * mutated in place by `newRoom`, `joinRoom` and `exitRoom` and read by the
 * `check`/`get` functions.
 */
module Rooms {
  import opened Wrappers

  /** Handle of a live connection: the `wsClient` reference a room keeps for each client. */
  type Conn = nat

  /** The errors the registry throws. */
  datatype RoomError = NotFound | InvalidSize | RoomIsFull
  {
    /** The `message` of the thrown error. */
    function Message(): (msg: string)
      ensures msg != ""
    {
      match this
      case NotFound => "Could not find the room"
      case InvalidSize => "Can not create a room with an invalid size"
      case RoomIsFull => "The selected room is full"
    }
  }

  /** A client reading the `WS_ERROR` reply can tell which registry error was thrown. */
  lemma RoomMessagesDistinct(a: RoomError, b: RoomError)
    requires a != b
    ensures a.Message() != b.Message()
  {
  }

  /** One member of a room. */
  datatype RoomClient = RoomClient(id: string, name: string, wsClient: Conn)

  /** A room; `clients` is in join order. */
  datatype Room = Room(id: string, name: string, size: int, clients: seq<RoomClient>)

  /** A member as `getRooms` reports it: without its connection. */
  datatype ClientView = ClientView(id: string, name: string)

  /** A room as `getRooms` reports it. */
  datatype RoomView = RoomView(id: string, name: string, size: int, clients: seq<ClientView>)

  /** Name given to a room created without one. */
  const DefaultRoomName := "No name"

  /** Capacity is positive and never exceeded. */
  predicate RoomInvariant(room: Room) {
    0 < room.size && |room.clients| <= room.size
  }

  /** The guard that makes `joinRoom` throw "The selected room is full". */
  predicate IsFull(room: Room) {
    room.size <= |room.clients|
  }

  /** Places left in a room. */
  function Remaining(room: Room): int {
    room.size - |room.clients|
  }

  /** The room after `clients.push(client)`. */
  function Joined(room: Room, client: RoomClient): Room {
    room.(clients := room.clients + [client])
  }

  /** True when some member has id `clientId`. */
  predicate HasMember(clients: seq<RoomClient>, clientId: string) {
    exists c :: c in clients && c.id == clientId
  }

  /** `clients.findIndex(client => client.id === clientId)`. */
  function FindIndex(clients: seq<RoomClient>, clientId: string): (i: int)
    ensures -1 <= i < |clients|
    ensures 0 <= i ==> clients[i].id == clientId
    ensures forall j :: 0 <= j < |clients| && (i == -1 || j < i) ==> clients[j].id != clientId
  {
    if clients == [] then -1
    else if clients[0].id == clientId then 0
    else
      var k := FindIndex(clients[1..], clientId);
      if k == -1 then -1 else k + 1
  }

  /** The clients after splicing out the first one with id `clientId`, if any. */
  function WithoutFirst(clients: seq<RoomClient>, clientId: string): (rest: seq<RoomClient>)
    ensures !HasMember(clients, clientId) ==> rest == clients
    ensures HasMember(clients, clientId) ==>
      && |rest| == |clients| - 1
      && 0 <= FindIndex(clients, clientId)
      && multiset(rest) + multiset{clients[FindIndex(clients, clientId)]} == multiset(clients)
    ensures HasMember(clients, clientId) ==>
      forall j :: 0 <= j < |rest| ==>
        rest[j] == if j < FindIndex(clients, clientId) then clients[j] else clients[j + 1]
  {
    var i := FindIndex(clients, clientId);
    if i == -1 then
      assert !HasMember(clients, clientId) by {
        forall c | c in clients ensures c.id != clientId {
          var j :| 0 <= j < |clients| && clients[j] == c;
        }
      }
      clients
    else
      var before, after := clients[..i], clients[i + 1..];
      assert clients[i] in clients;
      assert clients == before + [clients[i]] + after;
      assert multiset(clients) == multiset(before) + multiset{clients[i]} + multiset(after);
      before + after
  }

  /** Splicing out a member that joined last and whose id nobody else has gives back the earlier clients. */
  lemma {:induction false} WithoutFirstOfAppended(clients: seq<RoomClient>, client: RoomClient)
    requires !HasMember(clients, client.id)
    ensures WithoutFirst(clients + [client], client.id) == clients
  {
    if clients != [] {
      assert (clients + [client])[1..] == clients[1..] + [client];
      assert !HasMember(clients[1..], client.id) by {
        forall c | c in clients[1..] ensures c.id != client.id { assert c in clients; }
      }
      WithoutFirstOfAppended(clients[1..], client);
      assert clients[0] in clients;
    }
  }

  /**
   * What is left of a room after `exitRoom` as written: `None` when line 126
   * deletes it, which happens when at most one client was there, or two of
   * whom one leaves, so a room is deleted with nobody removed and with a
   * member still in it.
   */
  function ExitAsWritten(room: Room, clientId: string): (left: Option<Room>)
    ensures left.None? <==> |room.clients| <= 1 || (|room.clients| == 2 && HasMember(room.clients, clientId))
    ensures left.Some? ==> left.value.clients == WithoutFirst(room.clients, clientId) && 2 <= |left.value.clients|
  {
    var rest := WithoutFirst(room.clients, clientId);
    if |rest| - 1 <= 0 then None else Some(room.(clients := rest))
  }

  /**
   * What is left of a room after an exit that deletes the room only once it
   * is empty: it goes exactly when it was empty, or held only the leaver.
   */
  function ExitIntended(room: Room, clientId: string): (left: Option<Room>)
    ensures left.None? <==> |room.clients| == 0 || (|room.clients| == 1 && HasMember(room.clients, clientId))
    ensures left.Some? ==> left.value.clients == WithoutFirst(room.clients, clientId) && 1 <= |left.value.clients|
  {
    var rest := WithoutFirst(room.clients, clientId);
    if |rest| == 0 then None else Some(room.(clients := rest))
  }

  /** The exit rule a registry applies: a surviving room keeps id, name and size and loses at most the leaver. */
  function AfterExit(room: Room, clientId: string, deleteOnlyWhenEmpty: bool): (left: Option<Room>)
    ensures left.Some? ==>
      && left.value.id == room.id && left.value.name == room.name && left.value.size == room.size
      && left.value.clients == WithoutFirst(room.clients, clientId)
    ensures !deleteOnlyWhenEmpty && ExitIntended(room, clientId).None? ==> left.None?
  {
    if deleteOnlyWhenEmpty then ExitIntended(room, clientId) else ExitAsWritten(room, clientId)
  }

  /** The dictionary with entry `roomId` replaced by `left`, or deleted when `left` is `None`. */
  function Replaced(rooms: map<string, Room>, roomId: string, left: Option<Room>): map<string, Room> {
    match left
    case None => rooms - {roomId}
    case Some(room) => rooms[roomId := room]
  }

  /**
   * As written, the first of two members leaving deletes the room under the
   * second, who never exited; the intended rule keeps the room for the second.
   */
  lemma ExitAsWrittenStrandsMember(room: Room, leaver: RoomClient, stayer: RoomClient)
    requires room.clients == [leaver, stayer] && leaver.id != stayer.id
    ensures ExitAsWritten(room, leaver.id) == None
    ensures ExitIntended(room, leaver.id) == Some(room.(clients := [stayer]))
  {
    assert HasMember(room.clients, leaver.id) by { assert room.clients[0] == leaver; }
    assert FindIndex(room.clients, leaver.id) == 0;
    assert room.clients[1..] == [stayer];
    assert WithoutFirst(room.clients, leaver.id) == [stayer];
  }

  /** Splicing out the first client with one id keeps every client with another id. */
  lemma WithoutFirstKeeps(clients: seq<RoomClient>, clientId: string, c: RoomClient)
    requires c in clients && c.id != clientId
    ensures c in WithoutFirst(clients, clientId)
  {
    if HasMember(clients, clientId) {
      var rest := WithoutFirst(clients, clientId);
      var spliced := clients[FindIndex(clients, clientId)];
      assert spliced != c;
      assert multiset(rest)[c] + multiset{spliced}[c] == multiset(clients)[c];
    }
  }

  /**
   * The intended rule deletes a room exactly when nobody is left, and every
   * member other than the one leaving stays in it.
   */
  lemma ExitIntendedKeepsMembers(room: Room, clientId: string)
    ensures ExitIntended(room, clientId).None? <==> WithoutFirst(room.clients, clientId) == []
    ensures forall c :: c in room.clients && c.id != clientId ==>
      ExitIntended(room, clientId).Some? && c in ExitIntended(room, clientId).value.clients
  {
    forall c | c in room.clients && c.id != clientId
      ensures ExitIntended(room, clientId).Some? && c in ExitIntended(room, clientId).value.clients
    {
      WithoutFirstKeeps(room.clients, clientId, c);
    }
  }

  /**
   * Joining a room and leaving it again gives back the room, unless the exit
   * rule deletes it: as written when at most one client was there before, under
   * the intended rule only when the room was empty.
   */
  lemma JoinThenExit(room: Room, client: RoomClient)
    requires !HasMember(room.clients, client.id)
    ensures ExitAsWritten(Joined(room, client), client.id)
      == if |room.clients| <= 1 then None else Some(room)
    ensures ExitIntended(Joined(room, client), client.id)
      == if room.clients == [] then None else Some(room)
  {
    WithoutFirstOfAppended(room.clients, client);
  }

  /**
   * A member leaving a room that survives the exit, under either rule, and
   * joining again gives a room with the same members, the returning one now
   * last (member ids are connection ids, so no other member shares the
   * returning one's id).
   */
  lemma ExitThenJoin(room: Room, member: RoomClient, deleteOnlyWhenEmpty: bool)
    requires member in room.clients
    requires forall c :: c in room.clients && c.id == member.id ==> c == member
    requires AfterExit(room, member.id, deleteOnlyWhenEmpty).Some?
    ensures var back := Joined(AfterExit(room, member.id, deleteOnlyWhenEmpty).value, member);
      |back.clients| == |room.clients| && multiset(back.clients) == multiset(room.clients)
  {
    var clients := room.clients;
    assert HasMember(clients, member.id);
    assert clients[FindIndex(clients, member.id)] == member;
  }

  /** Every exit rule keeps capacity positive and never exceeded. */
  lemma AfterExitKeepsInvariant(room: Room, clientId: string, deleteOnlyWhenEmpty: bool)
    requires RoomInvariant(room)
    ensures AfterExit(room, clientId, deleteOnlyWhenEmpty).Some? ==>
      var left := AfterExit(room, clientId, deleteOnlyWhenEmpty).value;
      RoomInvariant(left) && left.id == room.id && left.size == room.size && left.name == room.name
  {
  }

  /** Every room sits under its own id and respects its capacity. */
  predicate ValidRooms(rooms: map<string, Room>) {
    forall id :: id in rooms ==> rooms[id].id == id && RoomInvariant(rooms[id])
  }

  /** Replacing or deleting one entry by a room that keeps the invariant keeps the dictionary valid. */
  lemma ReplacedKeepsValid(rooms: map<string, Room>, roomId: string, left: Option<Room>)
    requires ValidRooms(rooms)
    requires left.Some? ==> left.value.id == roomId && RoomInvariant(left.value)
    ensures ValidRooms(Replaced(rooms, roomId, left))
  {
  }

  /** `clients.map(x => x.wsClient)`. */
  function Connections(clients: seq<RoomClient>): (conns: seq<Conn>)
    ensures |conns| == |clients|
    ensures forall i :: 0 <= i < |clients| ==> conns[i] == clients[i].wsClient
  {
    seq(|clients|, i requires 0 <= i < |clients| => clients[i].wsClient)
  }

  /** `view` is `room` with the connection of every client dropped. */
  predicate Strips(room: Room, view: RoomView) {
    && view.id == room.id && view.name == room.name && view.size == room.size
    && view.clients == ClientViews(room.clients)
  }

  /** The clients of a room with their connections dropped, in order. */
  function ClientViews(clients: seq<RoomClient>): (views: seq<ClientView>)
    ensures |views| == |clients|
    ensures forall i :: 0 <= i < |clients| ==> views[i] == ClientView(clients[i].id, clients[i].name)
  {
    seq(|clients|, i requires 0 <= i < |clients| => ClientView(clients[i].id, clients[i].name))
  }

  /** The copy of a room that `getRooms` returns. */
  function ViewOf(room: Room): (view: RoomView)
    ensures Strips(room, view)
  {
    RoomView(room.id, room.name, room.size, ClientViews(room.clients))
  }

  /** The copy of the whole dictionary that `getRooms` returns. */
  function Snapshot(rooms: map<string, Room>): (snapshot: map<string, RoomView>)
    ensures snapshot.Keys == rooms.Keys
    ensures forall id :: id in rooms ==> Strips(rooms[id], snapshot[id])
  {
    map id | id in rooms :: ViewOf(rooms[id])
  }

  /** Removing the connection from each client of one room, in place on a copy. */
  method StripClients(clients: seq<RoomClient>) returns (views: seq<ClientView>)
    ensures views == ClientViews(clients)
  {
    views := [];
    var i := 0;
    while i < |clients|
      invariant 0 <= i <= |clients|
      invariant |views| == i
      invariant forall j :: 0 <= j < i ==> views[j] == ClientView(clients[j].id, clients[j].name)
    {
      views := views + [ClientView(clients[i].id, clients[i].name)];
      i := i + 1;
    }
  }

  /** The module-level `rooms` dictionary and the functions over it. */
  class Registry {
    /** Room id to room. */
    var rooms: map<string, Room>
    /** false: `exitRoom` deletes as line 126 does; true: only once the room is empty. */
    const deleteOnlyWhenEmpty: bool

    /** Every room sits under its own id and respects its capacity. */
    ghost predicate Valid()
      reads this
    {
      ValidRooms(rooms)
    }

    /** An empty registry. */
    constructor (deleteOnlyWhenEmpty: bool)
      ensures Valid() && rooms == map[]
      ensures this.deleteOnlyWhenEmpty == deleteOnlyWhenEmpty
    {
      rooms := map[];
      this.deleteOnlyWhenEmpty := deleteOnlyWhenEmpty;
    }

    /** `checkRoomExist`: fails exactly when there is no room `roomId`. */
    function CheckRoomExist(roomId: string): (r: Outcome<RoomError>)
      reads this
      ensures r.Pass? <==> roomId in rooms
      ensures r.Fail? ==> r.error == NotFound
    {
      if roomId !in rooms then Fail(NotFound) else Pass
    }

    /** `getARoom`. */
    function GetARoom(roomId: string): (r: Result<Room, RoomError>)
      reads this
      ensures r.Success? <==> roomId in rooms
      ensures r.Success? ==> r.value == rooms[roomId]
      ensures r.Failure? ==> r.error == NotFound
      ensures Valid() && r.Success? ==> r.value.id == roomId && RoomInvariant(r.value)
    {
      match CheckRoomExist(roomId)
      case Fail(e) => Failure(e)
      case Pass => Success(rooms[roomId])
    }

    /** `getRoomRemainingSize`: capacity minus occupancy, never negative in a valid registry. */
    function GetRoomRemainingSize(roomId: string): (r: Result<int, RoomError>)
      reads this
      ensures r.Success? <==> roomId in rooms
      ensures r.Failure? ==> r.error == NotFound
      ensures r.Success? ==> r.value + |rooms[roomId].clients| == rooms[roomId].size
      ensures Valid() && r.Success? ==> 0 <= r.value < rooms[roomId].size + 1
      ensures Valid() && r.Success? ==> (r.value == 0 <==> IsFull(rooms[roomId]))
    {
      match CheckRoomExist(roomId)
      case Fail(e) => Failure(e)
      case Pass => Success(rooms[roomId].size - |rooms[roomId].clients|)
    }

    /** `getRoomClients`. */
    function GetRoomClients(roomId: string): (r: Result<seq<RoomClient>, RoomError>)
      reads this
      ensures r.Success? <==> roomId in rooms
      ensures r.Failure? ==> r.error == NotFound
      ensures r.Success? ==> r.value == rooms[roomId].clients
      ensures Valid() && r.Success? ==> |r.value| <= rooms[roomId].size
    {
      match CheckRoomExist(roomId)
      case Fail(e) => Failure(e)
      case Pass => Success(rooms[roomId].clients)
    }

    /** `getRoomWsClients`: one connection per client, in join order. */
    function GetRoomWsClients(roomId: string): (r: Result<seq<Conn>, RoomError>)
      reads this
      ensures r.Success? <==> roomId in rooms
      ensures r.Failure? ==> r.error == NotFound
      ensures r.Success? ==> |r.value| == |rooms[roomId].clients|
      ensures r.Success? ==> forall i :: 0 <= i < |r.value| ==> r.value[i] == rooms[roomId].clients[i].wsClient
    {
      match CheckRoomExist(roomId)
      case Fail(e) => Failure(e)
      case Pass => Success(Connections(rooms[roomId].clients))
    }

    /** `getRooms`: a copy of every room with the connections removed; `rooms` is left alone. */
    method GetRooms() returns (snapshot: map<string, RoomView>)
      ensures snapshot == Snapshot(rooms)
    {
      snapshot := map[];
      var pending := rooms.Keys;
      while pending != {}
        invariant pending <= rooms.Keys
        invariant snapshot.Keys == rooms.Keys - pending
        invariant forall id :: id in snapshot ==> snapshot[id] == ViewOf(rooms[id])
        decreases pending
      {
        var id :| id in pending;
        var room := rooms[id];
        var views := StripClients(room.clients);
        snapshot := snapshot[id := RoomView(room.id, room.name, room.size, views)];
        pending := pending - {id};
      }
    }

    /** `newRoom`: `freshId` stands for the `uuid()` the source draws. */
    method NewRoom(roomSize: int, roomName: Option<string>, freshId: string) returns (r: Result<string, RoomError>)
      requires Valid() && freshId !in rooms
      modifies this
      ensures Valid()
      ensures roomSize <= 0 ==> r == Failure(InvalidSize) && rooms == old(rooms)
      ensures 0 < roomSize ==>
        && r == Success(freshId)
        && rooms == old(rooms)[freshId := Room(freshId, roomName.GetOr(DefaultRoomName), roomSize, [])]
    {
      if roomSize <= 0 {
        return Failure(InvalidSize);
      }
      rooms := rooms[freshId := Room(freshId, roomName.GetOr(DefaultRoomName), roomSize, [])];
      r := Success(freshId);
    }

    /** `joinRoom`: appends the client at the end unless the room is missing or full. */
    method JoinRoom(roomId: string, clientId: string, wsClient: Conn, clientName: string) returns (r: Outcome<RoomError>)
      requires Valid()
      modifies this
      ensures Valid()
      ensures roomId !in old(rooms) ==> r == Fail(NotFound) && rooms == old(rooms)
      ensures roomId in old(rooms) && IsFull(old(rooms)[roomId]) ==> r == Fail(RoomIsFull) && rooms == old(rooms)
      ensures roomId in old(rooms) && !IsFull(old(rooms)[roomId]) ==>
        && r == Pass
        && rooms == old(rooms)[roomId := Joined(old(rooms)[roomId], RoomClient(clientId, clientName, wsClient))]
    {
      var found := CheckRoomExist(roomId);
      if found.Fail? {
        return found;
      }
      if rooms[roomId].size <= |rooms[roomId].clients| {
        return Fail(RoomIsFull);
      }
      rooms := rooms[roomId := Joined(rooms[roomId], RoomClient(clientId, clientName, wsClient))];
      r := Pass;
    }

    /**
     * `exitRoom`: splices out the first client with id `clientId`, then
     * deletes the room by the registry's exit rule.
     */
    method ExitRoom(roomId: string, clientId: string) returns (r: Outcome<RoomError>)
      requires Valid()
      modifies this
      ensures Valid()
      ensures roomId !in old(rooms) ==> r == Fail(NotFound) && rooms == old(rooms)
      ensures roomId in old(rooms) ==>
        && r == Pass
        && rooms == Replaced(old(rooms), roomId, AfterExit(old(rooms)[roomId], clientId, deleteOnlyWhenEmpty))
    {
      var found := CheckRoomExist(roomId);
      if found.Fail? {
        return found;
      }
      var room := rooms[roomId];
      AfterExitKeepsInvariant(room, clientId, deleteOnlyWhenEmpty);
      var clients := room.clients;
      var index := FindIndex(clients, clientId);
      if index != -1 {
        clients := clients[..index] + clients[index + 1..];
      }
      assert clients == WithoutFirst(room.clients, clientId);
      var emptied := if deleteOnlyWhenEmpty then |clients| == 0 else |clients| - 1 <= 0;
      assert emptied <==> AfterExit(room, clientId, deleteOnlyWhenEmpty).None?;
      assert !emptied ==> AfterExit(room, clientId, deleteOnlyWhenEmpty) == Some(room.(clients := clients));
      ReplacedKeepsValid(rooms, roomId, AfterExit(room, clientId, deleteOnlyWhenEmpty));
      if emptied {
        rooms := rooms - {roomId};
      } else {
        rooms := rooms[roomId := room.(clients := clients)];
      }
      r := Pass;
    }
  }
}
