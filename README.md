# dax-server session state, in Dafny

This project models the session layer of dax-server, a NestJS and socket.io
server that pairs a desktop client (an audio/XR scene) with mobile
controllers inside named rooms. It covers:

- the three module-level registries `usersMap`, `roomsMap` and `controllerMap`;
- socket.io group membership, which `socket.join` and `socket.leave` change;
- the `User`, `Room` and `Controller` classes;
- the gateway handlers that drive them: desktop and mobile connection,
  create, join, leave and destroy room, pair controller, and play sound;
- the `userFromSocket` lookup and the `usingXRViewer` user-agent test.

The model follows the code as written. Where the code throws, the handler
returns `Thrown(p)`, meaning "TypeError reading `p` of null or undefined".
That reply comes after whatever state the code had already changed.

Layout:

- `basics.dfy`: `Option`, which stands for `undefined`, and JavaScript
  truthiness of a header or body string.
- `groups.dfy`: group membership as a map from group id to a set of socket
  ids. It has batch join and leave, and lemmas about them.
- `clocks.dfy`: the room clock as `running`, an integer start tick and the
  elapsed time it last reported, read against an explicit `now`.
- `session.dfy`: the `Server` object plus the `User`, `Room` and
  `Controller` classes. `Server` holds the registries, the groups, the set
  of sockets the server disconnected, and the log of emitted events.
- `user_lookup.dfy`: `userFromSocket`.
- `gateway_checks.dfy`: the pure guard chains and `usingXRViewer`.
- `gateway.dfy`: the `EventsGateway` handlers.
- `scenarios.dfy`: handler runs from a fresh server. They are proved from
  the contracts alone.

`Server.Valid()` states what holds in every state the handlers reach from a
fresh server:

- every room is registered under its own id;
- every room has a host;
- no room has a listener;
- no user has a controller, and `controllerMap` is empty;
- no registered room and no user's current room is playing, since nothing
  sets `isPlaying` to true. So the `isPlaying` early return of
  `onPlaySound` is never taken.

Handlers do not require `Valid()`. Each one ensures
`old(Valid()) ==> Valid()`, and each consequence of `Valid()` is stated
under that same guard.

Behaviour of the code that the model keeps:

- `Room.listeners` is never added to. So `onDestroyRoom` unregisters the
  room but clears no user's `currentRoom` and removes no socket from the
  group.
- `onCreateRoom` never checks whether the room id is taken. It replaces the
  registered room.
- No handler creates a `Controller`, because the call in
  `onPairControllerToRoom` is commented out. Pairing only joins the calling
  socket to the room's group.
- `isPlaying` is never set to true. Only the sound-ended listener writes it,
  and it writes false.
- The create-and-retry branch of `onJoinRoom` cannot be reached. A value
  fetched from `roomsMap` is never falsy, so the handler has no such branch
  here.
- `onLeaveRoom` without a room reads `roomId` of null. The "user has no room
  to leave" reply is never sent.
- `joinRoom` with an unregistered id throws only after its sockets have
  joined the group and `currentRoom` has become undefined. The reconnect
  path in `onDesktopConnection` reaches this after the user's room is
  destroyed.
- The error object of `userFromSocket` for a missing id stores its text
  under the key `nessage`.

## Model

| member | source | states |
|---|---|---|
| Groups.JoinAllMembers | src/lib/User.ts:35-38 | joining a batch of sockets to a group adds exactly that batch to it and leaves every other group as it was |
| Groups.JoinAllOnlyAdds | src/lib/User.ts:35-38 | joining never removes a membership: groups of a previous room stay joined |
| Groups.JoinAllIdempotent | src/lib/User.ts:35-40 | joining the same sockets to the same group twice gives the same memberships as once |
| Groups.LeaveAllMembers | src/events/events.gateway.ts:440-442 | leaving removes exactly the batch from that group and no other |
| Groups.LeaveAllAfterJoinAll | src/events/events.gateway.ts:440-442 | after a join, a leave of the same sockets leaves none of them in the group |
| Clocks.PlaybackTime | src/lib/Room.ts:64-67 | 0 whenever the clock is not running; otherwise the time since the start, which is non-negative and at most `now - startTime` |
| Clocks.Start | src/lib/Room.ts:45-58 | a running clock keeps its start time and its playback time is reported; a stopped clock is started at `now` and 0 is reported; either way the clock runs and its stored elapsed time is the reported time |
| Clocks.Stop | src/lib/Room.ts:59-63 | afterwards the clock is not running and its elapsed time and start time are both 0 |
| Clocks.StartTwiceResyncs | src/lib/Room.ts:47-55 | a second start without a stop between never restarts the clock; it reports the time since the first start, never less than the first report, and stores it as the elapsed time |
| Clocks.StopThenReadIsZero | src/lib/Room.ts:59-67 | playback time right after stop is 0 |
| Clocks.PlaybackTimeMonotone | src/lib/Room.ts:64-66 | playback time does not decrease as `now` grows |
| Session.Server.constructor | src/lib/User.ts:5 | registries, groups, disconnected sockets and emitted events all start empty, and the state is valid |
| Session.Server.JoinEach | src/lib/User.ts:35-38 | the loop over a socket set calling `join(g)` ends with exactly `JoinAll` of the old membership |
| Session.Server.LeaveEach | src/events/events.gateway.ts:440-442 | the loop over a socket set calling `leave(g)` ends with exactly `LeaveAll` of the old membership |
| Session.User.constructor | src/lib/User.ts:16-31 | the new user owns exactly the given socket, has no room and no controller, and is `usersMap[id]`, replacing any earlier entry |
| Session.User.JoinRoom | src/lib/User.ts:33-44 | an undefined id changes nothing; otherwise every socket joins group `id` and `currentRoom` is `roomsMap.get(id)`; an unregistered id throws after those changes |
| Session.User.PairController | src/lib/User.ts:46-70 | an undefined room id returns nothing and changes nothing; otherwise a fresh Controller owned by this user, with the given id and socket, becomes `controller`, is registered in `controllerMap` and is returned |
| Session.User.UnpairController | src/lib/User.ts:72-83 | returns true exactly when there was a controller and a current room; then the controller's socket leaves the room's group and is disconnected, and `controller` becomes null; otherwise nothing changes |
| Session.Room.constructor | src/lib/Room.ts:18-35 | the room is `roomsMap[roomId]`, replacing any earlier room; the host's current room is the new room and all host sockets are in group `roomId`; listeners empty, not playing, clock idle |
| Session.Room.Start | src/lib/Room.ts:45-58 | the clock and the reported time are `Clocks.Start` of the old clock; "start sound" with that time goes to the room's group; `isPlaying` is not touched |
| Session.Room.Stop | src/lib/Room.ts:59-63 | the clock is stopped with elapsed and start time 0 |
| Session.Room.GetCurrentPlaybackTime | src/lib/Room.ts:64-67 | 0 when the clock is not running, non-negative when it runs and `now` is not before its start |
| Session.Room.SoundEnded | src/lib/Room.ts:36-42 | the clock is idle, `isPlaying` is false and "destroy room" with the room id is broadcast |
| Session.Controller.constructor | src/lib/Controller.ts:11-25 | stores exactly the given id, owner and socket; `controllerMap` gains this entry, replacing one with the same id, and every other entry is unchanged |
| UserLookup.UserFromSocket | src/lib/util/userFromSocket.ts:4-22 | a missing or empty id gives the error object with key `nessage`; an unregistered id gives "user does not exist"; a registered id gives exactly its `usersMap` entry; it is found iff the id is truthy and registered |
| UserLookup.MissingIdIgnoresRegistry | src/lib/util/userFromSocket.ts:5-11 | for a missing id the answer does not depend on the registry |
| GatewayChecks.CreateRoomCheck | src/events/events.gateway.ts:370-397 | passes iff userid and roomId are truthy, the user is registered and has no room; otherwise the first failing guard, in the order userid, roomId, user, room, gives its message |
| GatewayChecks.PairCheck | src/events/events.gateway.ts:599-638 | passes iff controllerId and roomId are truthy, the room is registered and has a host; otherwise the first failing guard gives its message |
| GatewayChecks.CheckMessagesDistinct | src/events/events.gateway.ts:370-397 | the create-room error message identifies which guard failed |
| GatewayChecks.PairMessagesDistinct | src/events/events.gateway.ts:599-638 | the pair-controller error message identifies which guard failed |
| GatewayChecks.IncludesIffOccurs | src/events/events.gateway.ts:76 | the left-to-right scan `includes` finds `t` exactly when `t` occurs at some index of `s` |
| GatewayChecks.SomeIncluded | src/events/events.gateway.ts:75-77 | true exactly when some marker occurs in the user agent |
| GatewayChecks.UsingXRViewer | src/events/events.gateway.ts:70-78 | true exactly when "WebXRViewer" occurs in the user agent |
| Gateway.EventsGateway.constructor | src/events/events.gateway.ts:95-98 | the mobile-controller map and the available set start empty |
| Gateway.EventsGateway.OnMobileConnection | src/events/events.gateway.ts:125-140 | a known socket changes nothing; a new one is recorded as unpaired and available and two broadcasts go out; afterwards the socket is recorded, so a repeat is a no-op |
| Gateway.EventsGateway.OnDesktopConnection | src/events/events.gateway.ts:142-200 | an unseen id creates and registers a user with socket set exactly `{socket}`; a known user's set becomes exactly `{socket}`; with a current room it rejoins the room by id and then unpairs a controller, and with no room the controller is untouched; the reply is "ok" unless the rejoin throws; in valid states nothing is disconnected |
| Gateway.EventsGateway.OnCreateRoom | src/events/events.gateway.ts:356-417 | on a failed guard it returns that error and changes nothing; otherwise a fresh room hosted by the user replaces `roomsMap[roomId]`, the user's current room is that room, all its sockets are in the group, and "room created" is returned |
| Gateway.EventsGateway.OnLeaveRoom | src/events/events.gateway.ts:419-463 | distinct errors for a missing id and an unknown user; a user in a room has all sockets leave its group and `currentRoom` null with "left room"; a user in no room throws; failures change nothing |
| Gateway.EventsGateway.OnJoinRoom | src/events/events.gateway.ts:465-539 | the user comes from the header, not the body; an unknown room id changes nothing; a known room with an unknown user throws; otherwise the user's sockets join the group and its current room is that room |
| Gateway.EventsGateway.OnDestroyRoom | src/events/events.gateway.ts:569-583 | an unknown id throws and changes nothing; otherwise the room is unregistered and each listener loses its room and leaves the group; in valid states no user's room and no group changes |
| Gateway.EventsGateway.OnPairControllerToRoom | src/events/events.gateway.ts:594-658 | on a failed guard it returns that error and changes nothing; otherwise only the calling socket joins the group, "controller paired" goes to it, and ok with the room id is returned; `controllerMap` never changes; in valid states "no host" is never returned |
| Gateway.EventsGateway.OnPlaySound | src/events/events.gateway.ts:810-836 | distinct errors for an unknown user and a user with no room; a playing room is left alone; otherwise the room's clock and the "start sound" report follow `Clocks.Start`; in valid states no room is playing, so a user in a room always gets `Clocks.Start` and the clock runs afterwards |
| Scenarios.DestroyKeepsMembers | src/events/events.gateway.ts:569-583 | after create, join and destroy, the room is unregistered but both users keep it as their current room and stay in its group |
| Scenarios.ReconnectAfterDestroy | src/events/events.gateway.ts:161-170 | a reconnect keeps only the new socket; after the user's room is destroyed, the rejoin throws and leaves `currentRoom` undefined |
| Scenarios.CreateOverwrites | src/lib/Room.ts:27 | a second create under a taken id replaces the registered room; the first host keeps an unregistered current room |
| Scenarios.PlayTwiceResyncs | src/events/events.gateway.ts:810-836 | the host of a new room playing at `t1` and then at `t2` gets "start sound" with 0, then with `t2 - t1`: the second play does not restart the clock |
| Scenarios.UnpairTwice | src/lib/User.ts:72-83 | the first unpair returns true and disconnects the controller socket; an immediate second unpair returns false |
| Scenarios.JoinRoomTwice | src/lib/User.ts:33-44 | `joinRoom` twice ends with the same memberships and current room as once |

## Left out

- socket.io transport is not modelled: emitting is an appended log entry, `removeAllListeners` has no effect, and `disconnect` only records the socket. socket.io's own cleanup on disconnect, which removes the socket from every group, is not modelled. Neither are the sockets' automatic per-socket rooms or the deletion of empty groups.
- THREE.Clock runs on floating-point seconds. Here it is an integer tick, and the caller passes `now`. The clock's internal `oldTime` bookkeeping is abstracted away, so the playback time of a running clock is `now - startTime`. `getCurrentPlaybackTime` is a function here. Only `Room.start` uses it, and `Room.start` stores the time it reads as the clock's elapsed time.
- The "sound ended" listener registration (`server.on`) is event wiring. Its effect is the plain method `Session.Room.SoundEnded`.
- `Room.start` takes a socket argument it never uses, so the model drops it. The never-read fields `Room.isActive` and `Room.controller` are not modelled.
- Handlers whose message body is itself undefined are not modelled. For example, reading `payload.roomId` at events.gateway.ts:367 would throw. Bodies are modelled as present, and their fields as optional strings.
- `usingXRViewer` with an undefined user agent would throw. The model takes a string.
- The relay handlers are not modelled. They only re-broadcast payloads: device motion and orientation (including `Math.round` on floats), finger tap, xr active/inactive, sound placement, moving and selection, debug, and screen tap. `onRoomsOfUser`, `onControllerConnection`, "add MOBILE_CONTROLLER to pairing pool" and "PAIR MOBILE_CONTROLLER WITH" only log or answer without changing the session state. "add DESKTOP_CONTROLLER to pairing pool" adds the socket to `available_desktop`, a set nothing reads, so it is left out with that set.
- `onGetElapsedTime` is not modelled. It keys `usersMap` by the x-forwarded-for header, which never matches how users are registered.
- `estimateSpace`, the commented-out code, and the unused sets and maps (`desktopConnections`, `sessions`, `activeRooms`, `paired`, `controller_desktop`, `available_desktop`, `activeDesktopConnections`) are not modelled.
- The `setTimeout` join retry is not modelled: it sits in the unreachable branch of `onJoinRoom`.
- src/main.ts (NestJS bootstrap, session middleware, port) is not part of this model.
- Concurrency is not modelled: handlers run one at a time. Logging is not modelled either.
