/** The connection registry (`ConnectionManager`): for each routine id, the list of
    sockets watching it, in registration order. */
module Connections {
  import opened Environment

  /** The list registered under `routineId`, empty when the id has none. */
  function Registered(active: map<int, seq<ConnId>>, routineId: int): seq<ConnId> {
    if routineId in active then active[routineId] else []
  }

  /** `list.remove(c)` guarded by `c in list`: the first occurrence goes, the rest keeps
      its order; a list without `c` is returned as it is. */
  function RemoveFirst(s: seq<ConnId>, c: ConnId): (r: seq<ConnId>)
    ensures c !in s ==> r == s
  {
    if s == [] then []
    else if s[0] == c then s[1..]
    else [s[0]] + RemoveFirst(s[1..], c)
  }

  /** `remove` takes out one occurrence of `c` when there is one, and nothing else. */
  lemma {:induction false} RemoveFirstCount(s: seq<ConnId>, c: ConnId)
    ensures multiset(RemoveFirst(s, c)) == multiset(s) - multiset{c}
  {
    if s != [] {
      assert s == [s[0]] + s[1..];
      RemoveFirstCount(s[1..], c);
    }
  }

  /** What `remove` takes out is the first occurrence, at `i`: the list before it and the
      list after it are kept. */
  lemma {:induction false} RemoveFirstAt(s: seq<ConnId>, c: ConnId, i: nat)
    requires i < |s| && s[i] == c && c !in s[..i]
    ensures RemoveFirst(s, c) == s[..i] + s[i + 1..]
  {
    if i == 0 {
      assert s[..0] + s[1..] == s[1..];
    } else {
      assert s[0] != c by { assert s[..i][0] == s[0]; }
      assert s[1..][..i - 1] == s[..i][1..];
      RemoveFirstAt(s[1..], c, i - 1);
      assert s[..i] == [s[0]] + s[1..][..i - 1];
      assert s[i + 1..] == s[1..][i..];
    }
  }

  /** The sockets a broadcast reaches: the registered ones up to the first whose send
      raises, which ends the loop. */
  function Reached(conns: seq<ConnId>, broken: set<ConnId>): (r: seq<ConnId>)
    ensures r <= conns
    ensures forall k :: 0 <= k < |r| ==> r[k] !in broken
    ensures |r| < |conns| ==> conns[|r|] in broken
  {
    if conns == [] || conns[0] in broken then []
    else [conns[0]] + Reached(conns[1..], broken)
  }

  /** Every registered socket takes the message. */
  predicate AllHealthy(conns: seq<ConnId>, broken: set<ConnId>) {
    forall k :: 0 <= k < |conns| ==> conns[k] !in broken
  }

  /** A broadcast reaches every registered socket exactly when none of them is broken. */
  lemma ReachedAllIffHealthy(conns: seq<ConnId>, broken: set<ConnId>)
    ensures Reached(conns, broken) == conns <==> AllHealthy(conns, broken)
  {
  }

  /** The sends of one message to each socket of `conns`, in order. */
  function SendsTo(conns: seq<ConnId>, message: Outgoing): (r: seq<Event>)
    ensures |r| == |conns|
    ensures forall k :: 0 <= k < |r| ==> r[k] == Sent(conns[k], message)
  {
    seq(|conns|, k requires 0 <= k < |conns| => Sent(conns[k], message))
  }

  /** Registering and then unregistering a socket that was not yet registered leaves every
      list as it was; only an id that had no list keeps an empty one. */
  lemma ConnectThenDisconnect(active: map<int, seq<ConnId>>, routineId: int, c: ConnId)
    requires c !in Registered(active, routineId)
    ensures var connected := active[routineId := Registered(active, routineId) + [c]];
      connected[routineId := RemoveFirst(connected[routineId], c)] == active[routineId := Registered(active, routineId)]
  {
    RemoveAppended(Registered(active, routineId), c);
  }

  /** Removing a socket just appended to a list that lacked it gives the list back. */
  lemma RemoveAppended(l: seq<ConnId>, c: ConnId)
    requires c !in l
    ensures RemoveFirst(l + [c], c) == l
  {
    assert (l + [c])[..|l|] == l;
    RemoveFirstAt(l + [c], c, |l|);
    assert (l + [c])[|l| + 1..] == [];
  }

  class ConnectionManager {
    var active: map<int, seq<ConnId>>

    constructor ()
      ensures active == map[]
    {
      active := map[];
    }

    /** `connect`: accept the socket, then append it to its routine's list, creating the
        list when absent. A socket whose accept raises is not registered. */
    method Connect(world: World, c: ConnId, routineId: int) returns (ok: bool)
      modifies this, world
      ensures ok == (c !in world.refused)
      ensures world.trace == old(world.trace) + (if ok then [Accepted(c)] else [])
      ensures world.broken == old(world.broken) && world.routines == old(world.routines) && world.faults == old(world.faults)
      ensures active == if ok then old(active)[routineId := Registered(old(active), routineId) + [c]] else old(active)
    {
      ok := world.Accept(c);
      if ok {
        active := active[routineId := Registered(active, routineId) + [c]];
      }
    }

    /** `disconnect`: drop the first registration of the socket under its routine; the
        id keeps its (possibly empty) list. */
    method Disconnect(c: ConnId, routineId: int)
      modifies this
      ensures active == if routineId in old(active) then old(active)[routineId := RemoveFirst(old(active)[routineId], c)] else old(active)
    {
      if routineId in active {
        if c in active[routineId] {
          active := active[routineId := RemoveFirst(active[routineId], c)];
        }
      }
    }

    /** `broadcast`: send the message to each socket of the routine in registration order.
        A send that raises ends the loop and the error reaches the caller. */
    method Broadcast(world: World, routineId: int, message: Outgoing) returns (ok: bool)
      modifies world
      ensures ok == AllHealthy(Registered(active, routineId), old(world.broken))
      ensures world.trace == old(world.trace) + SendsTo(Reached(Registered(active, routineId), old(world.broken)), message)
      ensures world.broken == old(world.broken) && world.routines == old(world.routines) && world.faults == old(world.faults)
    {
      var conns := Registered(active, routineId);
      var i := 0;
      while i < |conns|
        invariant 0 <= i <= |conns|
        invariant forall k :: 0 <= k < i ==> conns[k] !in world.broken
        invariant world.trace == old(world.trace) + SendsTo(conns[..i], message)
        invariant world.broken == old(world.broken) && world.routines == old(world.routines) && world.faults == old(world.faults)
      {
        var sent := world.Send(conns[i], message);
        if !sent {
          ReachedStopsAt(conns, world.broken, i);
          return false;
        }
        assert conns[..i + 1] == conns[..i] + [conns[i]];
        i := i + 1;
      }
      assert conns[..i] == conns;
      ReachedAllIffHealthy(conns, world.broken);
      ok := true;
    }
  }

  /** A broadcast reaches exactly the sockets before the first broken one. */
  lemma {:induction false} ReachedStopsAt(conns: seq<ConnId>, broken: set<ConnId>, i: nat)
    requires i < |conns| && conns[i] in broken
    requires forall k :: 0 <= k < i ==> conns[k] !in broken
    ensures Reached(conns, broken) == conns[..i]
  {
    if i > 0 {
      ReachedStopsAt(conns[1..], broken, i - 1);
      assert conns[..i] == [conns[0]] + conns[1..][..i - 1];
    }
  }
}
