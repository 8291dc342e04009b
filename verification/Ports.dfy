/**
 Port allocation in one pod (pkg/controller/ports.go:104-244): the in-memory store and the change watchers
 it signals.
 */
module Ports {
  import opened Frames
  import PortKeys

  newtype uint32 = x: int | 0 <= x < 0x1_0000_0000

  datatype Mapping = Mapping(agent: string, target: string, container: string, suspended: bool)

  type Table = map<nat, Mapping>

  datatype Allocation = Allocated(port: nat) | InvalidRange | Exhausted | Failed

  ghost predicate InRange(lo: nat, hi: nat, p: nat) {
    lo <= p <= hi
  }

  /** The least port of the range the table does not hold. */
  ghost predicate LeastFree(t: Table, lo: nat, hi: nat, p: nat) {
    InRange(lo, hi, p) && p !in t && forall q | lo <= q < p :: q in t
  }

  /** What the simple allocator answers: the least free port, or exhausted when there is none. */
  ghost predicate Answers(t: Table, lo: nat, hi: nat, a: Allocation) {
    match a
    case Allocated(p) => PortKeys.ValidRange(lo, hi) && LeastFree(t, lo, hi, p)
    case InvalidRange => !PortKeys.ValidRange(lo, hi)
    case Exhausted => PortKeys.ValidRange(lo, hi) && forall q | lo <= q <= hi :: q in t
    case Failed => false
  }

  /** The answer is determined: there is exactly one for every table and range. */
  lemma AnswerUnique(t: Table, lo: nat, hi: nat, a: Allocation, b: Allocation)
    requires Answers(t, lo, hi, a) && Answers(t, lo, hi, b)
    ensures a == b
  {
  }

  /** A call that may write the table, and the table it leaves. An allocation names the port it gets. */
  datatype Write =
    | Allocate(lo: nat, hi: nat, port: nat, mapping: Mapping)
    | Release(port: nat)
    | Update(port: nat, mapping: Mapping)
    | ReleaseByAgent(agent: string)

  ghost function Written(t: Table, w: Write): Table {
    match w
    case Allocate(lo, hi, port, m) => if Answers(t, lo, hi, Allocated(port)) then t[port := m] else t
    case Release(port) => t - {port}
    case Update(port, m) => if port in t then t[port := m] else t
    case ReleaseByAgent(agent) => map p | p in t && t[p].agent != agent :: t[p]
  }

  // The change signal.

  /** `portWatchers`: every subscriber has a channel of capacity one, here whether it holds a token. */
  class PortWatchers {
    var next: nat
    var closed: bool
    var subs: map<nat, bool>

    ghost predicate Valid()
      reads this
    {
      (forall id | id in subs :: id < next) && (closed ==> subs == map[])
    }

    constructor ()
      ensures Valid() && !closed && subs == map[]
    {
      next, closed, subs := 0, false, map[];
    }

    /** A closed set of watchers hands out a channel nobody writes to. */
    method Watch() returns (id: Option<nat>)
      requires Valid()
      modifies this
      ensures Valid() && closed == old(closed)
      ensures closed ==> id == None && subs == old(subs)
      ensures !closed ==> id.Some? && id.value !in old(subs) && subs == old(subs)[id.value := false]
    {
      if closed {
        return None;
      }
      id := Some(next);
      subs := subs[next := false];
      next := next + 1;
    }

    method Remove(id: nat)
      requires Valid()
      modifies this
      ensures Valid() && closed == old(closed) && subs == old(subs) - {id}
    {
      subs := subs - {id};
    }

    /** A full channel already holds its token, so nothing is lost by not sending a second one. */
    method Notify()
      requires Valid()
      modifies this
      ensures Valid() && closed == old(closed)
      ensures subs.Keys == old(subs).Keys && forall id | id in subs :: subs[id]
    {
      var rest := subs.Keys;
      while rest != {}
        invariant subs.Keys == old(subs).Keys && rest <= subs.Keys
        invariant forall id | id in subs && id !in rest :: subs[id]
        invariant next == old(next) && closed == old(closed)
        decreases rest
      {
        var id :| id in rest;
        if !subs[id] {
          subs := subs[id := true];
        }
        rest := rest - {id};
      }
    }

    method Close()
      requires Valid()
      modifies this
      ensures Valid() && closed && subs == map[]
    {
      closed, subs := true, map[];
    }
  }

  // The in-memory store.

  class MemPortStore {
    var mappings: Table
    const watchers: PortWatchers

    /** Every subscriber has a token if the set of ports has changed; otherwise the tokens are as before. */
    twostate predicate Signalled()
      reads this, watchers
    {
      && watchers.Valid() && watchers.subs.Keys == old(watchers.subs).Keys
      && if mappings.Keys != old(mappings).Keys then forall id | id in watchers.subs :: watchers.subs[id] else watchers.subs == old(watchers.subs)
    }

    constructor ()
      ensures mappings == map[] && fresh(watchers) && watchers.Valid()
    {
      mappings := map[];
      watchers := new PortWatchers();
    }

    method Allocate(lo: uint32, hi: uint32, mapping: Mapping) returns (a: Allocation)
      requires watchers.Valid()
      modifies this, watchers
      ensures Answers(old(mappings), lo as nat, hi as nat, a)
      ensures a.Allocated? ==> mappings == Written(old(mappings), Write.Allocate(lo as nat, hi as nat, a.port, mapping))
      ensures !a.Allocated? ==> mappings == old(mappings)
      ensures Signalled()
    {
      if !PortKeys.ValidRange(lo as nat, hi as nat) {
        return InvalidRange;
      }
      var port := lo;
      while true
        invariant lo <= port <= hi && mappings == old(mappings)
        invariant forall q: nat | lo as nat <= q < port as nat :: q in mappings
        decreases hi as int - port as int
      {
        if port as nat !in mappings {
          mappings := mappings[port as nat := mapping];
          watchers.Notify();
          return Allocated(port as nat);
        }
        if port == hi {
          return Exhausted;
        }
        port := port + 1;
      }
    }

    /** Releasing a port nobody holds is no error and no change. */
    method Release(port: nat)
      requires watchers.Valid()
      modifies this, watchers
      ensures mappings == Written(old(mappings), Write.Release(port))
      ensures Signalled()
    {
      var found := port in mappings;
      mappings := mappings - {port};
      if found {
        watchers.Notify();
      }
    }

    /** An update changes a mapping but not the set of ports, so it signals nothing. */
    method Update(port: nat, mapping: Mapping) returns (found: bool)
      requires watchers.Valid()
      modifies this
      ensures Signalled()
      ensures found == (port in old(mappings))
      ensures mappings == Written(old(mappings), Write.Update(port, mapping))
    {
      found := port in mappings;
      if found {
        mappings := mappings[port := mapping];
      }
    }

    method ReleaseByAgent(agent: string) returns (ports: seq<nat>)
      requires watchers.Valid()
      modifies this, watchers
      ensures forall p :: p in ports <==> p in old(mappings) && old(mappings)[p].agent == agent
      ensures mappings == Written(old(mappings), Write.ReleaseByAgent(agent))
      ensures Signalled()
    {
      ports := [];
      var rest := mappings.Keys;
      while rest != {}
        modifies this
        invariant rest <= old(mappings).Keys && rest <= mappings.Keys
        invariant forall p :: p in ports <==> p in old(mappings) && p !in rest && old(mappings)[p].agent == agent
        invariant mappings == old(mappings) - (set p | p in ports)
        decreases rest
      {
        var p :| p in rest;
        if mappings[p].agent == agent {
          mappings := mappings - {p};
          ports := ports + [p];
        }
        rest := rest - {p};
      }
      assert forall p | p in ports :: p in old(mappings) && p !in mappings;
      if |ports| != 0 {
        assert ports[0] in old(mappings).Keys && ports[0] !in mappings.Keys;
        watchers.Notify();
      }
    }
  }
}
