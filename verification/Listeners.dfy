/**
 Convergence of the public TCP listeners to the desired ports (pkg/controller/listeners.go).
 */
module Listeners {
  ghost predicate Ascending(s: seq<nat>) {
    forall i, j | 0 <= i < j < |s| :: s[i] <= s[j]
  }

  /** The ports bound after a round: what could not be closed stays, what could not be bound is missing. */
  ghost function Converged(active: set<nat>, desired: set<nat>, closeFails: set<nat>, bindFails: set<nat>): set<nat> {
    active * (desired + closeFails) + (desired - active - bindFails - {0})
  }

  /** With no failure the bound ports are exactly the desired ones. */
  lemma ConvergedExactly(active: set<nat>, desired: set<nat>, closeFails: set<nat>, bindFails: set<nat>)
    requires 0 !in active
    ensures Converged(active, desired, closeFails, bindFails) == desired
       <==> 0 !in desired && (active - desired) !! closeFails && (desired - active) !! bindFails
  {
  }

  /** A later round over the same desired ports repairs what failed before. */
  lemma RoundRepairs(active: set<nat>, desired: set<nat>, closeFails: set<nat>, bindFails: set<nat>)
    requires 0 !in active && 0 !in desired
    ensures Converged(Converged(active, desired, closeFails, bindFails), desired, {}, {}) == desired
  {
  }

  ghost predicate Bindable(p: nat, bindFails: set<nat>) {
    p != 0 && p !in bindFails
  }

  /** The wanted ports without a listener that a round cannot bind. */
  ghost function Refused(desired: set<nat>, active: set<nat>, bindFails: set<nat>): set<nat> {
    set p | p in desired && p !in active && !Bindable(p, bindFails)
  }

  lemma ElementsAt(s: seq<nat>, i: nat, x: nat)
    requires i <= |s|
    ensures multiset(s[..i] + [x] + s[i..]) == multiset(s) + multiset{x}
  {
    var a, b := s[..i], s[i..];
    assert s == a + b;
    assert multiset(a + [x]) == multiset(a) + multiset{x};
    assert multiset((a + [x]) + b) == multiset(a + [x]) + multiset(b);
  }

  method InsertPort(s: seq<nat>, x: nat) returns (r: seq<nat>)
    requires Ascending(s)
    ensures Ascending(r) && multiset(r) == multiset(s) + multiset{x}
  {
    var i := 0;
    while i < |s| && s[i] <= x
      invariant 0 <= i <= |s|
      invariant forall j | 0 <= j < i :: s[j] <= x
    {
      i := i + 1;
    }
    ElementsAt(s, i, x);
    r := s[..i] + [x] + s[i..];
  }

  method SortedPorts(ports: seq<nat>) returns (r: seq<nat>)
    ensures Ascending(r) && multiset(r) == multiset(ports)
  {
    r := [];
    var i := 0;
    while i < |ports|
      invariant 0 <= i <= |ports|
      invariant Ascending(r) && multiset(r) == multiset(ports[..i])
    {
      r := InsertPort(r, ports[i]);
      assert ports[..i + 1] == ports[..i] + [ports[i]];
      i := i + 1;
    }
    assert ports[..i] == ports;
  }

  /** The keys of a map, each once, in ascending order. */
  method SortedKeys<V>(m: map<nat, V>) returns (r: seq<nat>)
    ensures Ascending(r) && multiset(r) == multiset(m.Keys)
  {
    var ports: seq<nat>, rest := [], m.Keys;
    while rest != {}
      invariant rest <= m.Keys && multiset(ports) == multiset(m.Keys - rest)
      decreases rest
    {
      var p :| p in rest;
      assert m.Keys - (rest - {p}) == m.Keys - rest + {p};
      ports := ports + [p];
      rest := rest - {p};
    }
    r := SortedPorts(ports);
  }

  class Listener {
    var closed: bool

    constructor ()
      ensures !closed
    {
      closed := false;
    }
  }

  class ListenerManager {
    var active: map<nat, Listener>
    var cancelled: bool

    /** Port 0 is never bound, and no listener serves two ports. */
    ghost predicate Valid()
      reads this
    {
      && 0 !in active
      && forall p, q | p in active && q in active && p != q :: active[p] != active[q]
    }

    ghost function Running(): set<Listener>
      reads this
    {
      set p | p in active :: active[p]
    }

    constructor ()
      ensures Valid() && active == map[] && !cancelled
    {
      active, cancelled := map[], false;
    }

    /** Closes the listeners of ports no longer wanted; one whose close fails stays. */
    method CloseUnwanted(desired: set<nat>, closeFails: set<nat>)
      requires Valid()
      modifies this`active, Running()
      ensures Valid()
      ensures active.Keys == old(active.Keys) * (desired + closeFails)
      ensures forall p | p in active :: active[p] == old(active[p])
      ensures forall p | p in active :: active[p].closed == old(active[p].closed)
      ensures forall p | p in old(active) && p !in active :: old(active)[p].closed
    {
      var rest := active.Keys;
      while rest != {}
        invariant rest <= active.Keys <= old(active.Keys)
        invariant forall p | p in active :: active[p] == old(active[p]) && active[p].closed == old(active[p].closed)
        invariant forall p | p in old(active) && p !in active :: old(active)[p].closed
        invariant forall p | p in old(active) && p !in rest :: p in active <==> p in desired || p in closeFails
        decreases rest
      {
        var port :| port in rest;
        rest := rest - {port};
        if port !in desired {
          if port !in closeFails {
            active[port].closed := true;
            active := active - {port};
          }
        }
      }
    }

    /** Binds a listener for one port that has none. */
    method Bind(port: nat)
      requires Valid() && port != 0 && port !in active
      modifies this`active
      ensures Valid()
      ensures port in active && fresh(active[port]) && !active[port].closed
      ensures active == old(active)[port := active[port]]
    {
      var listener := new Listener();
      assert forall p | p in active :: active[p] != listener;
      active := active[port := listener];
    }

    /** Binds a listener for every wanted port that has none; a failure does not stop the others. */
    method BindMissing(desired: set<nat>, bindFails: set<nat>) returns (failed: seq<nat>)
      requires Valid()
      modifies this`active
      ensures Valid()
      ensures forall p :: p in active <==> p in old(active) || (p in desired && Bindable(p, bindFails))
      ensures forall p | p in old(active) :: active[p] == old(active[p])
      ensures forall p | p in active && p !in old(active) :: fresh(active[p]) && !active[p].closed
      ensures multiset(failed) == multiset(Refused(desired, old(active.Keys), bindFails))
    {
      failed := [];
      var rest := desired;
      ghost var tried: set<nat> := {};
      while rest != {}
        invariant Valid()
        invariant forall p :: p in desired <==> p in rest || p in tried
        invariant rest !! tried
        invariant forall p :: p in active <==> p in old(active) || (p in tried && Bindable(p, bindFails))
        invariant forall p | p in old(active) :: active[p] == old(active[p])
        invariant forall p | p in active && p !in old(active) :: fresh(active[p]) && !active[p].closed
        invariant multiset(failed) == multiset(Refused(tried, old(active.Keys), bindFails))
        decreases rest
      {
        var port :| port in rest;
        rest := rest - {port};
        tried := tried + {port};
        if port !in active {
          if port == 0 || port in bindFails {
            failed := failed + [port];
          } else {
            Bind(port);
          }
        }
      }
      assert tried == desired;
    }

    /**
     One round. The listeners of ports that stay wanted are the same objects as before, untouched; both
     lists are in ascending order without repetition.
     */
    method Reconcile(desired: set<nat>, closeFails: set<nat>, bindFails: set<nat>)
      returns (bound: seq<nat>, failed: seq<nat>)
      requires Valid()
      modifies this`active, Running()
      ensures Valid()
      ensures cancelled ==> bound == [] && failed == [] && active == old(active)
      ensures !cancelled ==> active.Keys == Converged(old(active.Keys), desired, closeFails, bindFails)
      ensures forall p | p in old(active) && p in active :: active[p] == old(active[p]) && active[p].closed == old(active[p].closed)
      ensures forall p | p in old(active) && p !in active :: old(active)[p].closed
      ensures forall p | p in active && p !in old(active) :: fresh(active[p]) && !active[p].closed
      ensures !cancelled ==> Ascending(bound) && multiset(bound) == multiset(active.Keys)
      ensures !cancelled ==> Ascending(failed) && multiset(failed) == multiset(Refused(desired, old(active.Keys), bindFails))
    {
      if cancelled {
        return [], [];
      }
      CloseUnwanted(desired, closeFails);
      ghost var kept := active.Keys;
      failed := BindMissing(desired, bindFails);
      bound := SortedKeys(active);
      failed := SortedPorts(failed);
    }

    /** Closes everything; no later round changes anything. */
    method Close(closeFails: set<nat>)
      requires Valid()
      modifies this, Running()
      ensures Valid() && cancelled && active == map[]
      ensures forall p | p in old(active) && p !in closeFails :: old(active)[p].closed
    {
      cancelled := true;
      while active.Keys != {}
        invariant active.Keys <= old(active.Keys) && cancelled
        invariant forall p | p in active :: active[p] == old(active[p])
        invariant forall p | p in old(active) && p !in active && p !in closeFails :: old(active)[p].closed
        decreases active.Keys
      {
        var port :| port in active.Keys;
        if port !in closeFails {
          active[port].closed := true;
        }
        active := active - {port};
      }
    }
  }
}
