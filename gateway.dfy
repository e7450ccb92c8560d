/** The stateful handlers of the event gateway
    (src/events/events.gateway.ts). Each handler takes the connection it
    was called on, the `userid` header of that connection where it reads
    one, and its message body; it returns what the handler hands back. */
module Gateway {
  import opened Basics
  import opened Groups
  import opened Clocks
  import opened Session
  import opened GatewayChecks

  /** What a handler returns. */
  datatype Reply =
    | Ack(text: string)                          // a bare string
    | Status(status: string, message: string)    // `{status, message}`
    | PairedTo(message: string, roomId: string)  // `{status: "ok", message, context: {roomId}}`
    | NoReply                                    // `undefined`
    | Thrown(reading: string)                    // a TypeError reading `reading` of null or undefined

  /** All sockets of the given users. */
  ghost function SocketsOf(users: set<User>): set<SocketId>
    reads users`sockets
  {
    set u, s | u in users && s in u.sockets :: s
  }

  lemma SocketsOfAdd(done: set<User>, u: User)
    ensures SocketsOf(done + {u}) == SocketsOf(done) + u.sockets
  {
  }

  class EventsGateway {
    const server: Server
    var controllerMobile: map<SocketId, bool>
    var availableMobile: set<SocketId>

    constructor (server: Server)
      ensures this.server == server && controllerMobile == map[] && availableMobile == {}
    {
      this.server := server;
      controllerMobile := map[];
      availableMobile := {};
    }

    /** "mobile connection": a socket seen before changes nothing; a new one
        is recorded as unpaired and available, and two broadcasts go out.
        Registering is idempotent: afterwards the socket is recorded, so a
        repeat changes nothing. */
    method OnMobileConnection(socket: SocketId)
      modifies this`controllerMobile, this`availableMobile, server`outbox
      ensures socket in controllerMobile
      ensures socket in old(controllerMobile) ==>
        controllerMobile == old(controllerMobile) && availableMobile == old(availableMobile)
        && server.outbox == old(server.outbox)
      ensures socket !in old(controllerMobile) ==>
        controllerMobile == old(controllerMobile)[socket := false]
        && availableMobile == old(availableMobile) + {socket}
        && server.outbox == old(server.outbox)
             + [Emit(None, "new mobile connection", NoArg), Emit(None, "phone paired to desktop", Text(socket))]
      ensures old(server.Valid()) ==> server.Valid()
    {
      if socket in controllerMobile {
        return;
      }
      controllerMobile := controllerMobile[socket := false];
      availableMobile := availableMobile + {socket};
      server.outbox := server.outbox
        + [Emit(None, "new mobile connection", NoArg), Emit(None, "phone paired to desktop", Text(socket))];
    }

    /** "desktop connection". An unseen id creates and registers a user
        owning exactly this socket. A known user's socket set becomes
        exactly this socket (older sockets are dropped, not kept); if it has
        a current room, it rejoins that room by id and then unpairs a paired
        controller; without a current room its controller is left alone.
        The rejoin throws when no room is registered under that id any
        more. Otherwise the reply is "ok". */
    method OnDesktopConnection(socket: SocketId, userid: Option<string>) returns (r: Reply)
      modifies server`usersMap, server`groups, server`disconnected
      modifies server.UserSet(userid)`sockets, server.UserSet(userid)`currentRoom
      modifies server.UserSet(userid)`controller
      ensures userid in server.usersMap && server.usersMap[userid].sockets == {socket}
      ensures userid !in old(server.usersMap) ==>
        var u := server.usersMap[userid];
        fresh(u) && u.id == userid && u.currentRoom == null && u.controller == null
        && server.usersMap == old(server.usersMap)[userid := u]
        && server.groups == old(server.groups) && server.disconnected == old(server.disconnected)
        && r == Ack("ok")
      ensures userid in old(server.usersMap) ==> server.usersMap == old(server.usersMap)
      ensures userid in old(server.usersMap) && old(server.usersMap[userid].currentRoom) == null ==>
        var u := server.usersMap[userid];
        u.currentRoom == null && u.controller == old(u.controller)
        && server.groups == old(server.groups) && server.disconnected == old(server.disconnected)
        && r == Ack("ok")
      ensures userid in old(server.usersMap) && old(server.usersMap[userid].currentRoom) != null ==>
        var u := server.usersMap[userid];
        var g := old(u.currentRoom.roomId);
        var joined := JoinAll(old(server.groups), {socket}, g);
        (g !in server.roomsMap ==>
          u.currentRoom == null && u.controller == old(u.controller)
          && server.groups == joined && server.disconnected == old(server.disconnected)
          && r == Thrown("roomId"))
        && (g in server.roomsMap && old(u.controller) == null ==>
          u.currentRoom == server.roomsMap[g] && u.controller == null
          && server.groups == joined && server.disconnected == old(server.disconnected)
          && r == Ack("ok"))
        && (g in server.roomsMap && old(u.controller) != null ==>
          u.currentRoom == server.roomsMap[g] && u.controller == null
          && server.groups == LeaveAll(joined, {old(u.controller).socket}, server.roomsMap[g].roomId)
          && server.disconnected == old(server.disconnected) + {old(u.controller).socket}
          && r == Ack("ok"))
      ensures old(server.Valid()) ==> server.Valid()
      ensures old(server.Valid()) ==> server.disconnected == old(server.disconnected)
    {
      if userid !in server.usersMap {
        var created := new User(server, userid, socket);
        return Ack("ok");
      }
      var user := server.usersMap[userid];
      user.sockets := {socket};
      if user.currentRoom != null {
        var thrown := user.JoinRoom(server, Some(user.currentRoom.roomId));
        if thrown {
          return Thrown("roomId");
        }
        if user.controller != null {
          var unpaired := user.UnpairController(server);
        }
      }
      return Ack("ok");
    }

    /** "create room". The guards of `CreateRoomCheck` fail with their
        message and change nothing. Otherwise a new room hosted by the user
        is registered under the room id, replacing any room with that id;
        the user's current room is that room, all its sockets are in the
        room's group, and the reply is ok. */
    method OnCreateRoom(socket: SocketId, userid: Option<string>, roomId: Option<string>) returns (r: Reply)
      modifies server`roomsMap, server`groups, server.UserSet(userid)`currentRoom
      ensures server.usersMap == old(server.usersMap)
      ensures var err := CreateRoomCheck(userid, roomId, userid in old(server.usersMap),
                                         userid in old(server.usersMap) && old(server.usersMap[userid].currentRoom) != null);
        err.Some? ==>
          r == Status("error", err.value)
          && server.roomsMap == old(server.roomsMap) && server.groups == old(server.groups)
          && (userid in server.usersMap ==> server.usersMap[userid].currentRoom == old(server.usersMap[userid].currentRoom))
      ensures var err := CreateRoomCheck(userid, roomId, userid in old(server.usersMap),
                                         userid in old(server.usersMap) && old(server.usersMap[userid].currentRoom) != null);
        err.None? ==>
          roomId.value in server.roomsMap &&
          var u := server.usersMap[userid];
          var room := server.roomsMap[roomId.value];
          fresh(room) && room.host == u && room.roomId == roomId.value
          && room.listeners == {} && !room.isPlaying && room.clock == Idle
          && server.roomsMap == old(server.roomsMap)[roomId.value := room]
          && u.currentRoom == room
          && server.groups == JoinAll(old(server.groups), u.sockets, roomId.value)
          && r == Status("ok", "room created: " + roomId.value)
      ensures old(server.Valid()) ==> server.Valid()
    {
      var user: User? := if userid in server.usersMap then server.usersMap[userid] else null;
      var err := CreateRoomCheck(userid, roomId, user != null, user != null && user.currentRoom != null);
      if err.Some? {
        return Status("error", err.value);
      }
      var room := new Room(server, roomId.value, user);
      var thrown := user.JoinRoom(server, Some(user.currentRoom.roomId));
      JoinAllIdempotent(old(server.groups), user.sockets, roomId.value);
      return Status("ok", "room created: " + room.roomId);
    }

    /** "leave room". A missing id or an unknown user fails with its
        message. A user in a room has every socket leave that room's group,
        loses its current room, and gets "left room". A user in no room
        makes the handler read `roomId` of null, so the "no room to leave"
        message is never sent. Failures change nothing. */
    method OnLeaveRoom(socket: SocketId, userid: Option<string>) returns (r: Reply)
      modifies server`groups, server.UserSet(userid)`currentRoom
      ensures !Truthy(userid) ==> r == Status("error", "userid not provided or found")
      ensures Truthy(userid) && userid !in server.usersMap ==> r == Status("error", "user not found")
      ensures Truthy(userid) && userid in server.usersMap && old(server.usersMap[userid].currentRoom) == null ==>
        r == Thrown("roomId")
      ensures r != Status("ok", "left room") ==>
        server.groups == old(server.groups)
        && (userid in server.usersMap ==> server.usersMap[userid].currentRoom == old(server.usersMap[userid].currentRoom))
      ensures Truthy(userid) && userid in server.usersMap && old(server.usersMap[userid].currentRoom) != null ==>
        var u := server.usersMap[userid];
        u.currentRoom == null
        && server.groups == LeaveAll(old(server.groups), u.sockets, old(u.currentRoom.roomId))
        && r == Status("ok", "left room")
      ensures old(server.Valid()) ==> server.Valid()
    {
      if !Truthy(userid) {
        return Status("error", "userid not provided or found");
      }
      if userid !in server.usersMap {
        return Status("error", "user not found");
      }
      var user := server.usersMap[userid];
      if user.currentRoom != null {
        server.LeaveEach(user.sockets, user.currentRoom.roomId);
        user.currentRoom := null;
        return Status("ok", "left room");
      }
      return Thrown("roomId");
    }

    /** "join room". The user comes from the `userid` header; the user id
        in the body is overwritten and never used. An unknown or missing room
        id changes nothing. For a registered room, an unknown user makes the
        handler call `joinRoom` on undefined; a known user's sockets join the
        room's group and its current room becomes that room. */
    method OnJoinRoom(socket: SocketId, userid: Option<string>, roomId: Option<string>, bodyUserId: Option<string>)
      returns (r: Reply)
      modifies server`groups, server.UserSet(userid)`currentRoom
      ensures roomId.None? || roomId.value !in server.roomsMap ==>
        r == NoReply && server.groups == old(server.groups)
        && (userid in server.usersMap ==> server.usersMap[userid].currentRoom == old(server.usersMap[userid].currentRoom))
      ensures roomId.Some? && roomId.value in server.roomsMap && userid !in server.usersMap ==>
        r == Thrown("joinRoom") && server.groups == old(server.groups)
      ensures roomId.Some? && roomId.value in server.roomsMap && userid in server.usersMap ==>
        var u := server.usersMap[userid];
        u.currentRoom == server.roomsMap[roomId.value]
        && server.groups == JoinAll(old(server.groups), u.sockets, roomId.value)
        && r == NoReply
      ensures old(server.Valid()) ==> server.Valid()
    {
      if roomId.None? || roomId.value !in server.roomsMap {
        return NoReply;
      }
      if userid !in server.usersMap {
        return Thrown("joinRoom");
      }
      var user := server.usersMap[userid];
      var thrown := user.JoinRoom(server, roomId);
      return NoReply;
    }

    /** "destroy room". An unknown or missing room id makes the handler read
        `listeners` of undefined. Otherwise every listener of the room loses
        its current room and has its sockets leave the group, and the room is
        removed from the registry. Because no room ever has a listener, in
        every reachable state no user's current room and no group change. */
    method OnDestroyRoom(socket: SocketId, roomId: Option<string>) returns (r: Reply)
      modifies server`roomsMap, server`groups, server.ListenersOf(roomId)`currentRoom
      ensures roomId.None? || roomId.value !in old(server.roomsMap) ==>
        r == Thrown("listeners") && server.roomsMap == old(server.roomsMap) && server.groups == old(server.groups)
      ensures roomId.Some? && roomId.value in old(server.roomsMap) ==>
        var room := old(server.roomsMap[roomId.value]);
        r == NoReply
        && server.roomsMap == old(server.roomsMap) - {roomId.value}
        && (forall u :: u in room.listeners ==> u.currentRoom == null)
        && server.groups == LeaveAll(old(server.groups), SocketsOf(room.listeners), roomId.value)
      ensures old(server.Valid()) ==> server.Valid() && server.groups == old(server.groups)
      ensures old(server.Valid()) ==>
        forall k :: k in server.usersMap ==> server.usersMap[k].currentRoom == old(server.usersMap[k].currentRoom)
    {
      if roomId.None? || roomId.value !in server.roomsMap {
        return Thrown("listeners");
      }
      var g := roomId.value;
      var room := server.roomsMap[g];
      var pending := room.listeners;
      while pending != {}
        invariant pending <= room.listeners
        invariant forall u :: u in room.listeners - pending ==> u.currentRoom == null
        invariant server.groups == LeaveAll(old(server.groups), SocketsOf(room.listeners - pending), g)
        invariant server.roomsMap == old(server.roomsMap)
        decreases pending
      {
        var listener :| listener in pending;
        ghost var done := room.listeners - pending;
        listener.currentRoom := null;
        server.LeaveEach(listener.sockets, g);
        pending := pending - {listener};
        assert room.listeners - pending == done + {listener};
        SocketsOfAdd(done, listener);
        LeaveAllUnion(old(server.groups), SocketsOf(done), listener.sockets, g);
      }
      assert room.listeners - pending == room.listeners;
      server.roomsMap := server.roomsMap - {g};
      if old(server.Valid()) {
        assert room.listeners == {};
        assert forall k :: k in server.usersMap ==> server.usersMap[k].currentRoom == old(server.usersMap[k].currentRoom);
      }
      return NoReply;
    }

    /** "pair controller to room". The guards of `PairCheck` fail with their
        message and change nothing. Otherwise only the calling socket joins
        the room's group, "controller paired" goes to that group, and the
        reply is ok with the room's id; no Controller is created. */
    method OnPairControllerToRoom(socket: SocketId, controllerId: Option<string>, roomId: Option<string>)
      returns (r: Reply)
      modifies server`groups, server`outbox
      ensures var known := Truthy(roomId) && roomId.value in server.roomsMap;
        var err := PairCheck(controllerId, roomId, known, known && server.roomsMap[roomId.value].host != null);
        (err.Some? ==>
          r == Status("error", err.value) && server.groups == old(server.groups) && server.outbox == old(server.outbox))
        && (err.None? ==>
          var id := server.roomsMap[roomId.value].roomId;
          server.groups == JoinAll(old(server.groups), {socket}, roomId.value)
          && server.outbox == old(server.outbox) + [Emit(roomId, "controller paired", Text(roomId.value))]
          && r == PairedTo("controller paired successfully to " + id, id))
      ensures server.controllerMap == old(server.controllerMap)
      ensures old(server.Valid()) ==> server.Valid()
      ensures old(server.Valid()) ==> r != Status("error", "room does not have a host")
      ensures old(server.Valid()) && r.PairedTo? ==> r.roomId == roomId.value
    {
      var known := Truthy(roomId) && roomId.value in server.roomsMap;
      var err := PairCheck(controllerId, roomId, known, known && server.roomsMap[roomId.value].host != null);
      if err.Some? {
        return Status("error", err.value);
      }
      var room := server.roomsMap[roomId.value];
      server.JoinEach({socket}, roomId.value);
      server.outbox := server.outbox + [Emit(roomId, "controller paired", Text(roomId.value))];
      return PairedTo("controller paired successfully to " + room.roomId, room.roomId);
    }

    /** "play sound". The user is looked up by the id in the body. An
        unknown user or a user in no room fails with its message. A room
        that is playing is left alone; otherwise the room's `start` runs:
        it reports the resync time of a running clock, or starts a stopped
        one and reports 0. In every reachable state no room is playing, so
        a user in a room always gets that `start`. */
    method OnPlaySound(socket: SocketId, userId: Option<string>, now: int) returns (r: Reply)
      modifies server`outbox, server.CurrentRoomOf(userId)`clock
      ensures userId !in server.usersMap ==>
        r == Status("error", "user not found") && server.outbox == old(server.outbox)
      ensures userId in server.usersMap && server.usersMap[userId].currentRoom == null ==>
        r == Status("error", "room not found") && server.outbox == old(server.outbox)
      ensures userId in server.usersMap && server.usersMap[userId].currentRoom != null ==>
        var room := server.usersMap[userId].currentRoom;
        r == NoReply
        && (room.isPlaying ==> room.clock == old(room.clock) && server.outbox == old(server.outbox))
        && (!room.isPlaying ==>
              var (c, reported) := Clocks.Start(old(room.clock), now);
              room.clock == c
              && server.outbox == old(server.outbox) + [Emit(Some(room.roomId), "start sound", Tick(reported))])
      ensures old(server.Valid()) ==> server.Valid()
      ensures old(server.Valid()) && userId in server.usersMap && server.usersMap[userId].currentRoom != null ==>
        var room := server.usersMap[userId].currentRoom;
        var (c, reported) := Clocks.Start(old(room.clock), now);
        !room.isPlaying && room.clock == c && room.clock.running
        && server.outbox == old(server.outbox) + [Emit(Some(room.roomId), "start sound", Tick(reported))]
    {
      if userId !in server.usersMap {
        return Status("error", "user not found");
      }
      var room := server.usersMap[userId].currentRoom;
      if room == null {
        return Status("error", "room not found");
      }
      if room.isPlaying {
        return NoReply;
      }
      var reported := room.Start(server, now);
      return NoReply;
    }
  }
}
