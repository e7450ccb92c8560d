/** socket.io "rooms" (here: groups), as a map from group id to the set of
    sockets that joined it. `socket.join(g)` and `socket.leave(g)` are the
    only operations the core uses. */
module Groups {
  import opened Basics

  type Membership = map<string, set<SocketId>>

  /** The sockets in group `g`; a group nobody joined is empty. */
  function Members(m: Membership, g: string): set<SocketId>
  {
    if g in m then m[g] else {}
  }

  /** Every socket of `ss` has called `join(g)`; no sockets, no change. */
  function JoinAll(m: Membership, ss: set<SocketId>, g: string): Membership
  {
    if ss == {} then m else m[g := Members(m, g) + ss]
  }

  /** Every socket of `ss` has called `leave(g)`; no sockets, no change. */
  function LeaveAll(m: Membership, ss: set<SocketId>, g: string): Membership
  {
    if ss == {} then m else m[g := Members(m, g) - ss]
  }

  /** Joining adds exactly `ss` to group `g` and touches no other group. */
  lemma JoinAllMembers(m: Membership, ss: set<SocketId>, g: string, h: string)
    ensures Members(JoinAll(m, ss, g), h) == if h == g then Members(m, g) + ss else Members(m, h)
  {
  }

  /** Joining only ever adds memberships: no group loses a socket. */
  lemma JoinAllOnlyAdds(m: Membership, ss: set<SocketId>, g: string)
    ensures forall h :: Members(m, h) <= Members(JoinAll(m, ss, g), h)
  {
    forall h ensures Members(m, h) <= Members(JoinAll(m, ss, g), h) {
      JoinAllMembers(m, ss, g, h);
    }
  }

  /** Joining the same sockets to the same group twice is joining once. */
  lemma JoinAllIdempotent(m: Membership, ss: set<SocketId>, g: string)
    ensures JoinAll(JoinAll(m, ss, g), ss, g) == JoinAll(m, ss, g)
  {
    assert Members(JoinAll(m, ss, g), g) + ss == Members(m, g) + ss;
  }

  /** Leaving removes exactly `ss` from group `g` and touches no other group. */
  lemma LeaveAllMembers(m: Membership, ss: set<SocketId>, g: string, h: string)
    ensures Members(LeaveAll(m, ss, g), h) == if h == g then Members(m, g) - ss else Members(m, h)
  {
  }

  /** Leaving after joining the same sockets leaves none of them in the group. */
  lemma LeaveAllAfterJoinAll(m: Membership, ss: set<SocketId>, g: string)
    ensures Members(LeaveAll(JoinAll(m, ss, g), ss, g), g) == Members(m, g) - ss
  {
  }

  /** One more socket joining extends a batch join. */
  lemma JoinAllStep(m: Membership, ss: set<SocketId>, s: SocketId, g: string)
    ensures JoinAll(JoinAll(m, ss, g), {s}, g) == JoinAll(m, ss + {s}, g)
  {
    assert Members(JoinAll(m, ss, g), g) + {s} == Members(m, g) + (ss + {s});
  }

  /** Two batches leaving one after the other is one batch of their union. */
  lemma LeaveAllUnion(m: Membership, a: set<SocketId>, b: set<SocketId>, g: string)
    ensures LeaveAll(LeaveAll(m, a, g), b, g) == LeaveAll(m, a + b, g)
  {
    if a != {} && b != {} {
      var once := m[g := Members(m, g) - a];
      assert Members(once, g) - b == Members(m, g) - (a + b);
      assert once[g := Members(m, g) - (a + b)] == m[g := Members(m, g) - (a + b)];
    } else if a == {} {
      assert a + b == b;
    } else {
      assert a + b == a;
    }
  }
}
