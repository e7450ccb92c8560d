/** The session state of the server: users, rooms and controllers, and the
    process-wide state they live in. User, Room and Controller refer to one
    another, so they share this module. */
module Session {
  import opened Basics
  import opened Groups
  import opened Clocks

  /** Key of `usersMap`: the `userid` header, which may be absent. */
  type UserKey = Option<string>

  /** The argument of an emitted event. */
  datatype Arg = NoArg | Text(text: string) | Tick(tick: int)

  /** One emitted event: to one group (`server.to(g).emit`) or, when `group`
      is `None`, to every connection (`server.emit`). */
  datatype Emit = Emit(group: Option<string>, event: string, arg: Arg)

  /** Everything that outlives a single handler call: the module-level
      registries `usersMap`, `roomsMap` and `controllerMap`, the socket.io
      group membership, the sockets the server disconnected, and the events
      emitted so far. */
  class Server {
    var usersMap: map<UserKey, User>
    var roomsMap: map<string, Room>
    var controllerMap: map<string, Controller>
    var groups: Membership
    var disconnected: set<SocketId>
    var outbox: seq<Emit>

    constructor ()
      ensures usersMap == map[] && roomsMap == map[] && controllerMap == map[]
      ensures groups == map[] && disconnected == {} && outbox == []
      ensures Valid()
    {
      usersMap, roomsMap, controllerMap := map[], map[], map[];
      groups, disconnected, outbox := map[], {}, [];
    }

    /** The current rooms of the registered users. */
    ghost function CurrentRooms(): set<Room>
      reads this, usersMap.Values
    {
      set k | k in usersMap && usersMap[k].currentRoom != null :: usersMap[k].currentRoom
    }

    /** What holds in every state the gateway's handlers reach from a fresh
        server: each room is registered under its own id and has a host,
        nobody is ever added to a room's listeners, no controller is ever
        created, and no room a user can reach is ever playing (nothing sets
        `isPlaying` to true). */
    ghost predicate Valid()
      reads this, usersMap.Values, roomsMap.Values, CurrentRooms()
    {
      && (forall k :: k in roomsMap ==>
            roomsMap[k].roomId == k && roomsMap[k].host != null && roomsMap[k].listeners == {}
            && !roomsMap[k].isPlaying)
      && (forall k :: k in usersMap ==> usersMap[k].controller == null)
      && (forall k :: k in usersMap && usersMap[k].currentRoom != null ==> !usersMap[k].currentRoom.isPlaying)
      && controllerMap == map[]
    }

    /** The user registered under `k`, as a set (empty when there is none). */
    function UserSet(k: UserKey): set<User>
      reads this
    {
      if k in usersMap then {usersMap[k]} else {}
    }

    /** The listeners of the room registered under `id`. */
    function ListenersOf(id: Option<string>): set<User>
      reads this
    {
      if id.Some? && id.value in roomsMap then roomsMap[id.value].listeners else {}
    }

    /** The current room of the user registered under `k`, as a set. */
    function CurrentRoomOf(k: UserKey): set<Room>
      reads this, usersMap.Values
    {
      if k in usersMap && usersMap[k].currentRoom != null then {usersMap[k].currentRoom} else {}
    }

    /** `ss.forEach(s => s.join(g))` */
    method JoinEach(ss: set<SocketId>, g: string)
      modifies this`groups
      ensures groups == JoinAll(old(groups), ss, g)
    {
      var pending := ss;
      while pending != {}
        invariant pending <= ss
        invariant groups == JoinAll(old(groups), ss - pending, g)
        decreases pending
      {
        var s :| s in pending;
        JoinAllStep(old(groups), ss - pending, s, g);
        assert ss - (pending - {s}) == (ss - pending) + {s};
        groups := JoinAll(groups, {s}, g);
        pending := pending - {s};
      }
      assert ss - pending == ss;
    }

    /** `ss.forEach(s => s.leave(g))` */
    method LeaveEach(ss: set<SocketId>, g: string)
      modifies this`groups
      ensures groups == LeaveAll(old(groups), ss, g)
    {
      var pending := ss;
      while pending != {}
        invariant pending <= ss
        invariant groups == LeaveAll(old(groups), ss - pending, g)
        decreases pending
      {
        var s :| s in pending;
        LeaveAllUnion(old(groups), ss - pending, {s}, g);
        assert ss - (pending - {s}) == (ss - pending) + {s};
        groups := LeaveAll(groups, {s}, g);
        pending := pending - {s};
      }
      assert ss - pending == ss;
    }
  }

  /** A desktop user (src/lib/User.ts). `id` is the `userid` header it
      registered with; `sockets` is its `socket` set. */
  class User {
    const id: UserKey
    var sockets: set<SocketId>
    var currentRoom: Room?
    var controller: Controller?

    /** A new user owns exactly the given socket, is in no room, has no
        controller, and is registered under its id, replacing any earlier
        user with that id. */
    constructor (server: Server, id: UserKey, socket: SocketId)
      modifies server`usersMap
      ensures this.id == id && sockets == {socket}
      ensures currentRoom == null && controller == null
      ensures server.usersMap == old(server.usersMap)[id := this]
    {
      this.id := id;
      sockets := {socket};
      currentRoom := null;
      controller := null;
      new;
      server.usersMap := server.usersMap[id := this];
    }

    /** `joinRoom({id})`. An undefined id changes nothing. Otherwise every
        socket of the user joins group `id` (memberships are only added) and
        `currentRoom` becomes `roomsMap.get(id)`; when there is no such room
        the log line that follows reads `roomId` of `undefined` and the call
        throws, after those changes, so `thrown` is true. */
    method JoinRoom(server: Server, id: Option<string>) returns (thrown: bool)
      modifies this`currentRoom, server`groups
      ensures id.None? ==> !thrown && currentRoom == old(currentRoom) && server.groups == old(server.groups)
      ensures id.Some? ==> server.groups == JoinAll(old(server.groups), sockets, id.value)
      ensures id.Some? && id.value in server.roomsMap ==> !thrown && currentRoom == server.roomsMap[id.value]
      ensures id.Some? && id.value !in server.roomsMap ==> thrown && currentRoom == null
    {
      if id.None? {
        return false;
      }
      server.JoinEach(sockets, id.value);
      currentRoom := if id.value in server.roomsMap then server.roomsMap[id.value] else null;
      thrown := currentRoom == null;
    }

    /** `pairController({controllerId, socket, roomId})`. An undefined room
        id returns `undefined` and changes nothing; otherwise a new
        Controller owned by this user replaces `controller` and is returned. */
    method PairController(server: Server, controllerId: string, socket: SocketId, roomId: Option<string>)
      returns (c: Controller?)
      modifies this`controller, server`controllerMap
      ensures roomId.None? ==> c == null && controller == old(controller)
      ensures roomId.None? ==> server.controllerMap == old(server.controllerMap)
      ensures roomId.Some? ==> c != null && fresh(c) && controller == c
      ensures roomId.Some? ==> c.controllerId == controllerId && c.belongsTo == this && c.socket == socket
      ensures roomId.Some? ==> server.controllerMap == old(server.controllerMap)[controllerId := c]
    {
      if roomId.None? {
        return null;
      }
      c := new Controller(server, controllerId, this, socket);
      controller := c;
    }

    /** `unpairController()`. Unless the user has both a controller and a
        current room it returns false and changes nothing. Otherwise the
        controller's socket leaves the room's group and is disconnected,
        `controller` becomes null, and it returns true. */
    method UnpairController(server: Server) returns (ok: bool)
      modifies this`controller, server`groups, server`disconnected
      ensures ok <==> old(controller) != null && currentRoom != null
      ensures !ok ==> controller == old(controller)
      ensures !ok ==> server.groups == old(server.groups) && server.disconnected == old(server.disconnected)
      ensures ok ==> controller == null
      ensures ok ==> server.groups == LeaveAll(old(server.groups), {old(controller).socket}, currentRoom.roomId)
      ensures ok ==> server.disconnected == old(server.disconnected) + {old(controller).socket}
    {
      if controller != null && currentRoom != null {
        server.LeaveEach({controller.socket}, currentRoom.roomId);
        server.disconnected := server.disconnected + {controller.socket};
        controller := null;
        return true;
      }
      return false;
    }
  }

  /** A room (src/lib/Room.ts): a host, a playback clock and a listener set
      that nothing ever adds to. */
  class Room {
    const roomId: string
    const host: User?
    const listeners: set<User>
    var isPlaying: bool
    var clock: Clock

    /** `new Room({roomId, host})`: the room is registered under `roomId`,
        replacing any room with that id, and the host joins it: the host's
        current room is the new room and all host sockets are in group
        `roomId`. Playback is stopped and the listener set is empty. */
    constructor (server: Server, roomId: string, host: User)
      modifies server`roomsMap, server`groups, host`currentRoom
      ensures this.roomId == roomId && this.host == host
      ensures listeners == {} && !isPlaying && clock == Idle
      ensures server.roomsMap == old(server.roomsMap)[roomId := this]
      ensures host.currentRoom == this
      ensures server.groups == JoinAll(old(server.groups), host.sockets, roomId)
    {
      this.roomId := roomId;
      this.host := host;
      listeners := {};
      isPlaying := false;
      clock := Idle;
      new;
      server.roomsMap := server.roomsMap[roomId := this];
      var thrown := host.JoinRoom(server, Some(roomId));
    }

    /** `start()`: reports to group `roomId` the playback time of a running
        clock without restarting it (reading it stores it as the elapsed
        time), or 0 after starting a stopped clock.
        `isPlaying` is left as it was. */
    method Start(server: Server, now: int) returns (reported: int)
      modifies this`clock, server`outbox
      ensures (clock, reported) == Clocks.Start(old(clock), now)
      ensures server.outbox == old(server.outbox) + [Emit(Some(roomId), "start sound", Tick(reported))]
    {
      if clock.running {
        reported := GetCurrentPlaybackTime(now);
        clock := Clock(true, clock.startTime, reported);
      } else {
        reported := 0;
        clock := Clock(true, now, 0);
      }
      server.outbox := server.outbox + [Emit(Some(roomId), "start sound", Tick(reported))];
    }

    /** `stop()`: the clock stops and its elapsed and start times are 0. */
    method Stop()
      modifies this`clock
      ensures clock == Clocks.Stop(old(clock))
      ensures !clock.running && clock.elapsedTime == 0 && clock.startTime == 0
    {
      clock := Clock(false, 0, 0);
    }

    /** `getCurrentPlaybackTime()`: 0 whenever the clock is not running. */
    function GetCurrentPlaybackTime(now: int): (t: int)
      reads this
      ensures !clock.running ==> t == 0
      ensures clock.running && clock.startTime <= now ==> 0 <= t
    {
      PlaybackTime(clock, now)
    }

    /** The body of the "sound ended" listener: stop the clock, clear
        `isPlaying` and broadcast "destroy room" with the room id. */
    method SoundEnded(server: Server)
      modifies this`clock, this`isPlaying, server`outbox
      ensures clock == Idle && !isPlaying
      ensures server.outbox == old(server.outbox) + [Emit(None, "destroy room", Text(roomId))]
    {
      Stop();
      isPlaying := false;
      server.outbox := server.outbox + [Emit(None, "destroy room", Text(roomId))];
    }
  }

  /** A paired controller device (src/lib/Controller.ts). */
  class Controller {
    const controllerId: string
    const belongsTo: User
    const socket: SocketId

    /** Stores exactly the given id, owner and socket and registers itself
        as `controllerMap[controllerId]`, replacing an earlier controller
        with that id and leaving every other entry as it was. */
    constructor (server: Server, controllerId: string, user: User, socket: SocketId)
      modifies server`controllerMap
      ensures this.controllerId == controllerId && belongsTo == user && this.socket == socket
      ensures server.controllerMap == old(server.controllerMap)[controllerId := this]
    {
      this.controllerId := controllerId;
      belongsTo := user;
      this.socket := socket;
      new;
      server.controllerMap := server.controllerMap[controllerId := this];
    }
  }
}
