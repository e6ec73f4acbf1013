/**
 * A client of the dispatcher: one room of size 2 created by a first
 * connection, joined by a second, refused to a third, then left by the first
 * and the second, under either exit rule of the registry.
 */
module Scenarios {
  import opened Wrappers
  import opened Rooms
  import opened Dispatch

  /** The room both walkthroughs start from: "Alpha", size 2, with its creator and one joiner. */
  function AlphaFull(): Room {
    Room("room-1", "Alpha", 2, [RoomClient("client-1", "a1b2c", 1), RoomClient("client-2", "Bob", 2)])
  }

  /**
   * The events of filling "Alpha": created, creator joined, second joined,
   * ready. `ROOM_READY` is the last and the only one of its kind.
   */
  function AlphaEvents(): (log: seq<Event>)
    ensures |log| == 4 && log[3] == RoomReadyEvent(AlphaFull())
    ensures forall i :: 0 <= i < 3 ==> !log[i].RoomReadyEvent?
  {
    [ RoomCreatedEvent(Room("room-1", "Alpha", 2, []), "client-1", None),
      RoomJoinedEvent(AlphaOpen(), "client-1", "a1b2c"),
      RoomJoinedEvent(AlphaFull(), "client-2", "Bob"),
      RoomReadyEvent(AlphaFull()) ]
  }

  /** "Alpha" right after its creator joined it. */
  function AlphaOpen(): Room {
    Room("room-1", "Alpha", 2, [RoomClient("client-1", "a1b2c", 1)])
  }

  /**
   * The first connection creates "Alpha" of size 2 without giving a name: it
   * becomes the only member under a name cut from its drawn uuid, and the
   * room is not ready yet.
   */
  method CreateAlpha(deleteOnlyWhenEmpty: bool) returns (dispatcher: Dispatcher, first: Session, created: Outcome<ActionError>)
    ensures fresh(dispatcher) && fresh(dispatcher.registry) && fresh(first)
    ensures dispatcher.Valid() && dispatcher.registry.deleteOnlyWhenEmpty == deleteOnlyWhenEmpty
    ensures dispatcher.registry.rooms == map["room-1" := AlphaOpen()]
    ensures first.uuid == "client-1" && first.roomId == Some("room-1")
    ensures created == Pass
    ensures dispatcher.events == AlphaEvents()[..2]
  {
    var registry := new Registry(deleteOnlyWhenEmpty);
    dispatcher := new Dispatcher(registry);
    first := new Session("client-1", 1);
    var alpha := Room("room-1", "Alpha", 2, []);
    assert ChosenName(None, "a1b2c3d4") == "a1b2c";
    assert Joined(alpha, RoomClient("client-1", "a1b2c", 1)) == AlphaOpen();
    assert ReadyEvents(AlphaOpen()) == [];
    created := dispatcher.CreateRoom(first, 2, Some("Alpha"), None, "room-1", "a1b2c3d4");
  }

  /**
   * The first connection creates "Alpha" of size 2 without giving a name, the
   * second joins as "Bob", the third is refused because the room is full. The
   * second join is the one that emits `ROOM_READY`, and it is emitted once.
   */
  method FillTwoSeatRoom(deleteOnlyWhenEmpty: bool)
    returns (dispatcher: Dispatcher, first: Session, second: Session,
             created: Outcome<ActionError>, joined: Outcome<ActionError>, refused: Outcome<ActionError>)
    ensures fresh(dispatcher) && fresh(dispatcher.registry) && fresh(first) && fresh(second) && first != second
    ensures dispatcher.Valid() && dispatcher.registry.deleteOnlyWhenEmpty == deleteOnlyWhenEmpty
    ensures dispatcher.registry.rooms == map["room-1" := AlphaFull()]
    ensures first.uuid == "client-1" && first.roomId == Some("room-1")
    ensures second.uuid == "client-2" && second.roomId == Some("room-1")
    ensures created == Pass && joined == Pass && refused == Fail(RegistryError(RoomIsFull))
    ensures dispatcher.events == AlphaEvents()
  {
    dispatcher, first, created := CreateAlpha(deleteOnlyWhenEmpty);
    second := new Session("client-2", 2);
    var third := new Session("client-3", 3);
    assert Joined(AlphaOpen(), RoomClient("client-2", "Bob", 2)) == AlphaFull();
    assert ReadyEvents(AlphaFull()) == [RoomReadyEvent(AlphaFull())];
    joined := dispatcher.JoinRoom(second, "room-1", Some("Bob"), "e5f6a7b8");
    assert dispatcher.registry.rooms == map["room-1" := AlphaFull()];
    refused := JoinFullRoom(dispatcher, third, "room-1", "c9d0e1f2");
  }

  /** A connection in no room asking to join a full room is refused, and nothing changes. */
  method JoinFullRoom(dispatcher: Dispatcher, ws: Session, roomId: string, nameSeed: string) returns (r: Outcome<ActionError>)
    requires dispatcher.Valid() && ws.roomId == None
    requires roomId in dispatcher.registry.rooms && IsFull(dispatcher.registry.rooms[roomId])
    modifies dispatcher, dispatcher.registry, ws
    ensures dispatcher.Valid()
    ensures r == Fail(RegistryError(RoomIsFull))
    ensures dispatcher.registry.rooms == old(dispatcher.registry.rooms)
    ensures dispatcher.outbox == old(dispatcher.outbox) && dispatcher.events == old(dispatcher.events)
    ensures ws.roomId == None && ws.clientName == old(ws.clientName)
  {
    r := dispatcher.JoinRoom(ws, roomId, None, nameSeed);
  }

  /**
   * The creator of a two-member room leaves the registry as written: line 126
   * deletes the room although the other member is still in it, so reading it
   * back fails and the session keeps naming the room.
   */
  method LeaveCreatorAsWritten(dispatcher: Dispatcher, ws: Session, room: Room, creator: RoomClient, stayer: RoomClient)
    returns (r: Outcome<ActionError>)
    requires dispatcher.Valid() && !dispatcher.registry.deleteOnlyWhenEmpty
    requires room.clients == [creator, stayer] && creator.id != stayer.id
    requires dispatcher.registry.rooms == map[room.id := room]
    requires ws.uuid == creator.id && ws.roomId == Some(room.id) && room.id != ""
    modifies dispatcher, dispatcher.registry, ws
    ensures dispatcher.Valid()
    ensures dispatcher.registry.rooms == map[]
    ensures r == Fail(RegistryError(NotFound)) && ws.roomId == Some(room.id)
  {
    ExitAsWrittenStrandsMember(room, creator, stayer);
    r := dispatcher.ExitRoom(ws);
  }

  /**
   * The creator of a two-member room leaves a registry that deletes only
   * empty rooms: the exit succeeds, the session forgets the room, and the
   * other member stays in it alone.
   */
  method LeaveCreatorIntended(dispatcher: Dispatcher, ws: Session, room: Room, creator: RoomClient, stayer: RoomClient)
    returns (r: Outcome<ActionError>)
    requires dispatcher.Valid() && dispatcher.registry.deleteOnlyWhenEmpty
    requires room.clients == [creator, stayer] && creator.id != stayer.id
    requires dispatcher.registry.rooms == map[room.id := room]
    requires ws.uuid == creator.id && ws.roomId == Some(room.id) && room.id != ""
    modifies dispatcher, dispatcher.registry, ws
    ensures dispatcher.Valid()
    ensures dispatcher.registry.rooms == map[room.id := room.(clients := [stayer])]
    ensures r == Pass && ws.roomId == None
  {
    ExitAsWrittenStrandsMember(room, creator, stayer);
    r := dispatcher.ExitRoom(ws);
  }

  /**
   * The last member of a room leaves a registry that deletes only empty
   * rooms: the room is deleted, and reading it back for `ROOM_EXITED` fails.
   */
  method LeaveLastMember(dispatcher: Dispatcher, ws: Session, room: Room, member: RoomClient)
    returns (r: Outcome<ActionError>)
    requires dispatcher.Valid() && dispatcher.registry.deleteOnlyWhenEmpty
    requires room.clients == [member]
    requires dispatcher.registry.rooms == map[room.id := room]
    requires ws.uuid == member.id && ws.roomId == Some(room.id) && room.id != ""
    modifies dispatcher, dispatcher.registry, ws
    ensures dispatcher.registry.rooms == map[]
    ensures r == Fail(RegistryError(NotFound)) && ws.roomId == Some(room.id)
  {
    JoinThenExit(room.(clients := []), member);
    assert Joined(room.(clients := []), member) == room;
    r := dispatcher.ExitRoom(ws);
  }

  /**
   * "Alpha"'s creator leaves, then "Bob", on the registry as written: the
   * first exit already deletes the room under "Bob", so both `EXIT_ROOM`s
   * fail and both sessions keep naming it.
   */
  method LeaveAlphaAsWritten(dispatcher: Dispatcher, first: Session, second: Session)
    returns (firstExit: Outcome<ActionError>, secondExit: Outcome<ActionError>)
    requires dispatcher.Valid() && !dispatcher.registry.deleteOnlyWhenEmpty
    requires dispatcher.registry.rooms == map["room-1" := AlphaFull()]
    requires first != second
    requires first.uuid == "client-1" && first.roomId == Some("room-1")
    requires second.uuid == "client-2" && second.roomId == Some("room-1")
    modifies dispatcher, dispatcher.registry, first, second
    ensures dispatcher.registry.rooms == map[]
    ensures firstExit == Fail(RegistryError(NotFound)) && secondExit == Fail(RegistryError(NotFound))
    ensures first.roomId == Some("room-1") && second.roomId == Some("room-1")
  {
    firstExit := LeaveCreatorAsWritten(dispatcher, first, AlphaFull(), AlphaFull().clients[0], AlphaFull().clients[1]);
    secondExit := dispatcher.ExitRoom(second);
  }

  /**
   * The same two exits on a registry that deletes only empty rooms: the first
   * succeeds and the room stays for "Bob"; his exit deletes it and then fails
   * reading it back, so the second session keeps naming it.
   */
  method LeaveAlphaIntended(dispatcher: Dispatcher, first: Session, second: Session)
    returns (firstExit: Outcome<ActionError>, secondExit: Outcome<ActionError>)
    requires dispatcher.Valid() && dispatcher.registry.deleteOnlyWhenEmpty
    requires dispatcher.registry.rooms == map["room-1" := AlphaFull()]
    requires first != second
    requires first.uuid == "client-1" && first.roomId == Some("room-1")
    requires second.uuid == "client-2" && second.roomId == Some("room-1")
    modifies dispatcher, dispatcher.registry, first, second
    ensures dispatcher.registry.rooms == map[]
    ensures firstExit == Pass && secondExit == Fail(RegistryError(NotFound))
    ensures first.roomId == None && second.roomId == Some("room-1")
  {
    var bob := AlphaFull().clients[1];
    firstExit := LeaveCreatorIntended(dispatcher, first, AlphaFull(), AlphaFull().clients[0], bob);
    secondExit := LeaveLastMember(dispatcher, second, AlphaFull().(clients := [bob]), bob);
  }

  /** The whole walkthrough on the registry as written. */
  method TwoSeatRoomAsWritten()
    returns (firstExit: Outcome<ActionError>, secondExit: Outcome<ActionError>,
             firstRoom: Option<string>, secondRoom: Option<string>, roomsLeft: map<string, Room>)
    ensures firstExit == Fail(RegistryError(NotFound)) && secondExit == Fail(RegistryError(NotFound))
    ensures firstRoom == Some("room-1") && secondRoom == Some("room-1")
    ensures roomsLeft == map[]
  {
    var dispatcher, first, second, _, _, _ := FillTwoSeatRoom(false);
    firstExit, secondExit := LeaveAlphaAsWritten(dispatcher, first, second);
    firstRoom, secondRoom := first.roomId, second.roomId;
    roomsLeft := dispatcher.registry.rooms;
  }

  /** The whole walkthrough on a registry that deletes only empty rooms. */
  method TwoSeatRoomIntended()
    returns (firstExit: Outcome<ActionError>, secondExit: Outcome<ActionError>,
             firstRoom: Option<string>, secondRoom: Option<string>, roomsLeft: map<string, Room>)
    ensures firstExit == Pass && secondExit == Fail(RegistryError(NotFound))
    ensures firstRoom == None && secondRoom == Some("room-1")
    ensures roomsLeft == map[]
  {
    var dispatcher, first, second, _, _, _ := FillTwoSeatRoom(true);
    firstExit, secondExit := LeaveAlphaIntended(dispatcher, first, second);
    firstRoom, secondRoom := first.roomId, second.roomId;
    roomsLeft := dispatcher.registry.rooms;
  }
}
