/** The pure checks of the event gateway (src/events/events.gateway.ts):
    the guard chains of "create room" and "pair controller to room", and
    the user-agent test `usingXRViewer`. */
module GatewayChecks {
  import opened Basics

  /** The guards of `onCreateRoom`, in the order the handler tests them;
      `None` means every guard passed. `known` says the user is registered,
      `inRoom` that it already has a current room. Each guard is consulted
      only when all earlier ones passed, and each has its own message. */
  function CreateRoomCheck(userid: Option<string>, roomId: Option<string>, known: bool, inRoom: bool)
    : (err: Option<string>)
    ensures err.None? <==> Truthy(userid) && Truthy(roomId) && known && !inRoom
    ensures !Truthy(userid) ==> err == Some("userId is null or was not provided.")
    ensures Truthy(userid) && !Truthy(roomId) ==> err == Some("roomId not provided.")
    ensures Truthy(userid) && Truthy(roomId) && !known ==> err == Some("user not found")
    ensures Truthy(userid) && Truthy(roomId) && known && inRoom ==> err == Some("user already has a room")
  {
    if !Truthy(userid) then Some("userId is null or was not provided.")
    else if !Truthy(roomId) then Some("roomId not provided.")
    else if !known then Some("user not found")
    else if inRoom then Some("user already has a room")
    else None
  }

  /** The guards of `onPairControllerToRoom`, in order: the controller id
      header, the room id, the room being registered (`known`), the room
      having a host (`hasHost`). */
  function PairCheck(controllerId: Option<string>, roomId: Option<string>, known: bool, hasHost: bool)
    : (err: Option<string>)
    ensures err.None? <==> Truthy(controllerId) && Truthy(roomId) && known && hasHost
    ensures !Truthy(controllerId) ==> err == Some("controllerid not found or provided")
    ensures Truthy(controllerId) && !Truthy(roomId) ==> err == Some("roomId not found or provided")
    ensures Truthy(controllerId) && Truthy(roomId) && !known ==> err == Some("room not found or does not exist")
    ensures Truthy(controllerId) && Truthy(roomId) && known && !hasHost ==> err == Some("room does not have a host")
  {
    if !Truthy(controllerId) then Some("controllerid not found or provided")
    else if !Truthy(roomId) then Some("roomId not found or provided")
    else if !known then Some("room not found or does not exist")
    else if !hasHost then Some("room does not have a host")
    else None
  }

  /** The create-room error message alone tells which guard failed: the
      messages of different guards differ. */
  lemma CheckMessagesDistinct(u1: Option<string>, r1: Option<string>, k1: bool, h1: bool,
                              u2: Option<string>, r2: Option<string>, k2: bool, h2: bool)
    requires CreateRoomCheck(u1, r1, k1, h1).Some? && CreateRoomCheck(u1, r1, k1, h1) == CreateRoomCheck(u2, r2, k2, h2)
    ensures Truthy(u1) == Truthy(u2)
    ensures Truthy(u1) ==> Truthy(r1) == Truthy(r2)
    ensures Truthy(u1) && Truthy(r1) ==> k1 == k2
  {
  }

  /** The pair-controller error message alone tells which guard failed. */
  lemma PairMessagesDistinct(c1: Option<string>, r1: Option<string>, k1: bool, h1: bool,
                             c2: Option<string>, r2: Option<string>, k2: bool, h2: bool)
    requires PairCheck(c1, r1, k1, h1).Some? && PairCheck(c1, r1, k1, h1) == PairCheck(c2, r2, k2, h2)
    ensures Truthy(c1) == Truthy(c2)
    ensures Truthy(c1) ==> Truthy(r1) == Truthy(r2)
    ensures Truthy(c1) && Truthy(r1) ==> k1 == k2
  {
  }

  /** `t` occurs in `s` starting at index `i`. */
  predicate OccursAt(s: string, t: string, i: int)
  {
    0 <= i && i + |t| <= |s| && s[i..i + |t|] == t
  }

  /** JavaScript's `s.includes(t)`, scanning from the left. */
  function Includes(s: string, t: string): bool
    decreases |s|
  {
    if |t| > |s| then false
    else if s[..|t|] == t then true
    else Includes(s[1..], t)
  }

  /** The scan finds `t` exactly when `t` occurs somewhere in `s`. */
  lemma {:induction false} IncludesIffOccurs(s: string, t: string)
    ensures Includes(s, t) <==> exists i :: OccursAt(s, t, i)
    decreases |s|
  {
    if |t| > |s| {
    } else if s[..|t|] == t {
      assert OccursAt(s, t, 0);
    } else {
      IncludesIffOccurs(s[1..], t);
      if i :| OccursAt(s, t, i) {
        assert i != 0;
        assert s[1..][i - 1..i - 1 + |t|] == s[i..i + |t|];
        assert OccursAt(s[1..], t, i - 1);
      }
      if j :| OccursAt(s[1..], t, j) {
        assert s[j + 1..j + 1 + |t|] == s[1..][j..j + |t|];
        assert OccursAt(s, t, j + 1);
      }
    }
  }

  /** `markers.some(el => ua.includes(el))`. */
  function SomeIncluded(ua: string, markers: seq<string>): (b: bool)
    ensures b <==> exists k, i :: 0 <= k < |markers| && OccursAt(ua, markers[k], i)
    decreases |markers|
  {
    if markers == [] then false
    else
      IncludesIffOccurs(ua, markers[0]);
      var rest := SomeIncluded(ua, markers[1..]);
      assert forall k, i :: 1 <= k < |markers| ==> (OccursAt(ua, markers[k], i) <==> OccursAt(ua, markers[1..][k - 1], i));
      Includes(ua, markers[0]) || rest
  }

  /** The user agents `usingXRViewer` looks for. */
  const XRViewerMarkers: seq<string> := ["WebXRViewer"]

  /** `usingXRViewer(userAgent)`: the user agent contains "WebXRViewer". */
  function UsingXRViewer(userAgent: string): (b: bool)
    ensures b <==> exists i :: OccursAt(userAgent, "WebXRViewer", i)
  {
    var b := SomeIncluded(userAgent, XRViewerMarkers);
    assert forall k, i :: 0 <= k < |XRViewerMarkers| ==> (OccursAt(userAgent, XRViewerMarkers[k], i) <==> OccursAt(userAgent, "WebXRViewer", i));
    b
  }
}
