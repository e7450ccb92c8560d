/** Runs of the handlers from a fresh server, proved from their contracts
    alone. They show what the code does where the intended design differs. */
module Scenarios {
  import opened Basics
  import opened Groups
  import opened Session
  import opened Gateway

  /** U1 connects and creates room R1, U2 connects and joins it: both
      users' sockets are in group R1. Destroying R1 unregisters it, but
      since the room's listener set is empty neither user's current room is
      cleared and both sockets stay in the group. */
  method DestroyKeepsMembers(c1: SocketId, c2: SocketId)
    returns (bothInGroup: bool, registered: bool, u1Kept: bool, u2Kept: bool, stillInGroup: bool)
    ensures bothInGroup && !registered && u1Kept && u2Kept && stillInGroup
  {
    var server := new Server();
    var gw := new EventsGateway(server);
    var a := gw.OnDesktopConnection(c1, Some("U1"));
    var u1 := server.usersMap[Some("U1")];
    var b := gw.OnDesktopConnection(c2, Some("U2"));
    var u2 := server.usersMap[Some("U2")];
    assert u1.currentRoom == null && u2.currentRoom == null && u1.sockets == {c1};
    var created := gw.OnCreateRoom(c1, Some("U1"), Some("R1"));
    var room := server.roomsMap["R1"];
    assert u1.currentRoom == room && c1 in Members(server.groups, "R1");
    ghost var before := server.groups;
    var joined := gw.OnJoinRoom(c2, Some("U2"), Some("R1"), None);
    JoinAllMembers(before, u2.sockets, "R1", "R1");
    bothInGroup := c1 in Members(server.groups, "R1") && c2 in Members(server.groups, "R1");
    assert u1.currentRoom == room && u2.currentRoom == room;
    var destroyed := gw.OnDestroyRoom(c1, Some("R1"));
    registered := "R1" in server.roomsMap;
    u1Kept := u1.currentRoom == room;
    u2Kept := u2.currentRoom == room;
    stillInGroup := c1 in Members(server.groups, "R1") && c2 in Members(server.groups, "R1");
  }

  /** Reconnecting with the same id twice keeps only the latest socket, and
      a user in a destroyed room makes the next reconnect throw (the rejoin
      finds no room under that id) after its current room became undefined. */
  method ReconnectAfterDestroy(c1: SocketId, c2: SocketId)
    returns (latestOnly: bool, reply: Reply, roomCleared: bool)
    ensures latestOnly && reply == Thrown("roomId") && roomCleared
  {
    var server := new Server();
    var gw := new EventsGateway(server);
    var a := gw.OnDesktopConnection(c1, Some("U1"));
    var created := gw.OnCreateRoom(c1, Some("U1"), Some("R1"));
    var destroyed := gw.OnDestroyRoom(c1, Some("R1"));
    reply := gw.OnDesktopConnection(c2, Some("U1"));
    var u1 := server.usersMap[Some("U1")];
    latestOnly := u1.sockets == {c2};
    roomCleared := u1.currentRoom == null;
  }

  /** Creating a room under an id that is taken replaces the registered
      room: the first host keeps a current room that is no longer
      registered. */
  method CreateOverwrites(c1: SocketId, c2: SocketId)
    returns (replaced: bool, firstHostKept: bool)
    ensures replaced && firstHostKept
  {
    var server := new Server();
    var gw := new EventsGateway(server);
    var a := gw.OnDesktopConnection(c1, Some("U1"));
    var b := gw.OnDesktopConnection(c2, Some("U2"));
    var u1 := server.usersMap[Some("U1")];
    var first := gw.OnCreateRoom(c1, Some("U1"), Some("R1"));
    var room1 := server.roomsMap["R1"];
    var second := gw.OnCreateRoom(c2, Some("U2"), Some("R1"));
    replaced := server.roomsMap["R1"] != room1 && server.roomsMap["R1"].host == server.usersMap[Some("U2")];
    firstHostKept := u1.currentRoom == room1;
  }

  /** A user with a room and a controller: the first unpair succeeds and
      disconnects the controller's socket, an immediate second one returns
      false. */
  method UnpairTwice(desk: SocketId, phone: SocketId)
    returns (first: bool, second: bool, closed: bool)
    ensures first && !second && closed
  {
    var server := new Server();
    var user := new User(server, Some("U1"), desk);
    var room := new Room(server, "R1", user);
    var c := user.PairController(server, "C1", phone, Some("R1"));
    first := user.UnpairController(server);
    closed := phone in server.disconnected;
    second := user.UnpairController(server);
  }

  /** The host of a new room plays the sound at `t1` and again at `t2`:
      the first play starts the clock and reports 0, the second does not
      restart it and reports `t2 - t1`. */
  method PlayTwiceResyncs(c1: SocketId, t1: int, t2: int) returns (first: Emit, second: Emit)
    requires t1 <= t2
    ensures first == Emit(Some("R1"), "start sound", Tick(0))
    ensures second == Emit(Some("R1"), "start sound", Tick(t2 - t1))
  {
    var server := new Server();
    var gw := new EventsGateway(server);
    var a := gw.OnDesktopConnection(c1, Some("U1"));
    var created := gw.OnCreateRoom(c1, Some("U1"), Some("R1"));
    var p1 := gw.OnPlaySound(c1, Some("U1"), t1);
    first := server.outbox[|server.outbox| - 1];
    var p2 := gw.OnPlaySound(c1, Some("U1"), t2);
    second := server.outbox[|server.outbox| - 1];
  }

  /** `joinRoom` twice with the same id ends in the same memberships and
      current room as once. */
  method JoinRoomTwice(server: Server, user: User, id: string)
    requires id in server.roomsMap
    modifies user`currentRoom, server`groups
    ensures server.groups == JoinAll(old(server.groups), user.sockets, id)
    ensures user.currentRoom == server.roomsMap[id]
  {
    var t1 := user.JoinRoom(server, Some(id));
    var t2 := user.JoinRoom(server, Some(id));
    JoinAllIdempotent(old(server.groups), user.sockets, id);
  }
}
