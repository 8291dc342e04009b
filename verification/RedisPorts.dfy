/**
 The batched optimistic port allocator over Redis (pkg/controller/ports.go:267-307). Other clients may
 change the store in any way between two of its commands, and a command's reply may be lost after the
 command has taken effect.
 */
module RedisPorts {
  import opened Frames
  import opened Ports
  import PortKeys

  const BATCH: uint32 := 100

  /** Redis as an atomic map from keys to mappings. */
  type Store = map<string, Mapping>

  /** Whether the client heard back from a command; a lost command may or may not have been executed. */
  datatype Reply = Heard | Lost(executed: bool)

  predicate Held(s: Store, port: nat) {
    PortKeys.PortKey(port) in s
  }

  ghost function TableOf(s: Store): Table {
    map p | 1 <= p <= PortKeys.MAX_PORT && Held(s, p) :: s[PortKeys.PortKey(p)]
  }

  /** Setting one port's key changes that port's mapping and no other port's. */
  lemma SetOnePort(s: Store, port: nat, m: Mapping, q: nat)
    ensures Held(s[PortKeys.PortKey(port) := m], q) <==> q == port || Held(s, q)
    ensures q != port && Held(s, q) ==> s[PortKeys.PortKey(port) := m][PortKeys.PortKey(q)] == s[PortKeys.PortKey(q)]
  {
    if PortKeys.PortKey(q) == PortKeys.PortKey(port) {
      PortKeys.PortKeyInjective(q, port);
    }
  }

  /** Some command of the call found the port taken. */
  ghost predicate SeenHeld(world: nat -> Store, n: nat, port: nat) {
    exists k: nat :: k < n && Held(world(k), port)
  }

  /** What was seen stays seen as the call goes on. */
  lemma Widen(world: nat -> Store, n: nat, n': nat, lo: nat, hi: nat)
    requires n <= n' && forall q: nat | lo <= q < hi :: SeenHeld(world, n, q)
    ensures forall q: nat | lo <= q < hi :: SeenHeld(world, n', q)
  {
    forall q: nat | lo <= q < hi
      ensures SeenHeld(world, n', q)
    {
      assert SeenHeld(world, n, q);
      var k: nat :| k < n && Held(world(k), q);
    }
  }

  /**
   What one call does, whatever the other clients do: `world(k)` is the store as its command `k` finds
   it, `n` the number of commands it sends, `wrote` the port its last command set, if any.
   */
  ghost predicate Allocates(lo: nat, hi: nat, world: nat -> Store, reply: nat -> Reply,
                            a: Allocation, n: nat, wrote: Option<nat>)
  {
    && (a.InvalidRange? <==> !PortKeys.ValidRange(lo, hi))
    && (a.InvalidRange? ==> n == 0 && wrote == None)
    && (wrote.Some? ==> n > 0 && InRange(lo, hi, wrote.value) && !Held(world(n - 1), wrote.value))
    && (a.Allocated? ==> wrote == Some(a.port) && forall q | lo <= q < a.port :: SeenHeld(world, n, q))
    && (a.Exhausted? ==> wrote == None && forall q | lo <= q <= hi :: SeenHeld(world, n, q))
    && (a.Failed? ==> n > 0 && reply(n - 1).Lost? && (wrote.Some? ==> reply(n - 1).executed))
    && (forall k: nat | k < n && reply(k).Lost? :: k == n - 1 && a.Failed?)
  }

  /** MGET over the keys of ports `start` to `end`. */
  method ReadBatch(s: Store, start: uint32, end: uint32) returns (free: seq<bool>)
    requires 1 <= start <= end <= 65535
    ensures |free| == end as int - start as int + 1
    ensures forall i | 0 <= i < |free| :: free[i] == !Held(s, start as int + i)
  {
    free := [];
    var port := start;
    while port <= end
      invariant start <= port && port as int <= end as int + 1
      invariant |free| == port as int - start as int
      invariant forall i | 0 <= i < |free| :: free[i] == !Held(s, start as int + i)
      decreases end as int - port as int
    {
      free := free + [!Held(s, port as nat)];
      port := port + 1;
    }
  }

  method Allocate(lo: uint32, hi: uint32, world: nat -> Store, reply: nat -> Reply)
    returns (a: Allocation, n: nat, wrote: Option<nat>)
    ensures Allocates(lo as nat, hi as nat, world, reply, a, n, wrote)
  {
    n, wrote := 0, None;
    if !PortKeys.ValidRange(lo as nat, hi as nat) {
      return InvalidRange, n, wrote;
    }
    var start := lo;
    while start <= hi
      invariant lo <= start <= hi
      invariant forall q: nat | lo as nat <= q < start as nat :: SeenHeld(world, n, q)
      invariant forall k: nat | k < n :: reply(k).Heard?
      decreases hi as int - start as int
    {
      var end := if start + BATCH - 1 < hi then start + BATCH - 1 else hi;
      if reply(n).Lost? {
        return Failed, n + 1, wrote;
      }
      ghost var read := n;
      var free := ReadBatch(world(n), start, end);
      n := n + 1;
      Widen(world, read, n, lo as nat, start as nat);
      var index: uint32 := 0;
      while index as int < |free|
        invariant index as int <= |free| && read < n
        invariant forall q: nat | lo as nat <= q < start as nat + index as nat :: SeenHeld(world, n, q)
        invariant forall k: nat | k < n :: reply(k).Heard?
      {
        var port := start as nat + index as nat;
        if !free[index] {
          assert Held(world(read), port);
        } else {
          var taken := Held(world(n), port);
          var heard := reply(n);
          n := n + 1;
          if heard.Lost? {
            return Failed, n, if heard.executed && !taken then Some(port) else None;
          }
          Widen(world, n - 1, n, lo as nat, port);
          if !taken {
            return Allocated(port), n, Some(port);
          }
          assert SeenHeld(world, n, port);
        }
        index := index + 1;
      }
      if end == hi {
        break;
      }
      start := end + 1;
    }
    a := Exhausted;
  }

  /** The store as seen by a call whose range nobody else touches. */
  ghost predicate Undisturbed(lo: nat, hi: nat, world: nat -> Store, reply: nat -> Reply, n: nat, s: Store) {
    forall k: nat | k < n :: reply(k).Heard? && forall q | lo <= q <= hi :: Held(world(k), q) <==> Held(s, q)
  }

  /** Without interference in its range the call answers what the in-memory store answers. */
  lemma RefinesMemory(lo: nat, hi: nat, world: nat -> Store, reply: nat -> Reply,
                      a: Allocation, n: nat, wrote: Option<nat>, s: Store)
    requires Allocates(lo, hi, world, reply, a, n, wrote)
    requires Undisturbed(lo, hi, world, reply, n, s)
    ensures Answers(TableOf(s), lo, hi, a)
  {
    forall q | lo <= q <= hi && SeenHeld(world, n, q)
      ensures Held(s, q)
    {
      var k: nat :| k < n && Held(world(k), q);
      assert reply(k).Heard?;
    }
    if a.Allocated? {
      assert reply(n - 1).Heard?;
      assert !Held(s, a.port);
    }
  }

  // Histories of commands by any number of clients.

  datatype Command = SetNX(key: string, value: Mapping) | SetXX(key: string, value: Mapping) | Del(key: string) | Read

  ghost function Execute(s: Store, c: Command): Store {
    match c
    case SetNX(k, v) => if k in s then s else s[k := v]
    case SetXX(k, v) => if k in s then s[k := v] else s
    case Del(k) => s - {k}
    case Read => s
  }

  ghost function After(h: seq<Command>): Store {
    if h == [] then map[] else Execute(After(h[..|h| - 1]), h[|h| - 1])
  }

  /** The `i`th command is a claim of the port and succeeds. */
  ghost predicate Claims(h: seq<Command>, i: nat, port: nat)
    requires i < |h|
  {
    h[i].SetNX? && h[i].key == PortKeys.PortKey(port) && !Held(After(h[..i]), port)
  }

  lemma {:induction false} HeldUntilReleased(h: seq<Command>, i: nat, j: nat, port: nat)
    requires i < j <= |h| && Claims(h, i, port)
    requires forall k | i < k < j :: h[k] != Del(PortKeys.PortKey(port))
    ensures Held(After(h[..j]), port)
  {
    assert h[..j][..j - 1] == h[..j - 1];
    if j > i + 1 {
      HeldUntilReleased(h, i, j - 1, port);
    }
  }

  /** Two live allocations never share a port: whoever claims it again does so after a release. */
  lemma ClaimsSeparated(h: seq<Command>, i: nat, j: nat, port: nat)
    requires i < j < |h| && Claims(h, i, port) && Claims(h, j, port)
    ensures exists k :: i < k < j && h[k] == Del(PortKeys.PortKey(port))
  {
    if forall k | i < k < j :: h[k] != Del(PortKeys.PortKey(port)) {
      HeldUntilReleased(h, i, j, port);
    }
  }

  /** One call's commands, at increasing places of a history of everybody's commands. */
  ghost predicate PlacedIn(h: seq<Command>, at: nat -> nat, world: nat -> Store, n: nat, wrote: Option<nat>, m: Mapping) {
    && (forall k: nat | k < n :: at(k) < |h| && world(k) == After(h[..at(k)]))
    && (wrote.Some? ==> n > 0 && h[at(n - 1)] == SetNX(PortKeys.PortKey(wrote.value), m))
  }

  /** Two calls that allocate the same port, in any interleaving, have a release of it between their claims. */
  lemma LiveAllocationsDiffer(h: seq<Command>, port: nat,
                              lo: nat, hi: nat, at: nat -> nat, world: nat -> Store, reply: nat -> Reply, n: nat, m: Mapping,
                              lo': nat, hi': nat, at': nat -> nat, world': nat -> Store, reply': nat -> Reply, n': nat, m': Mapping)
    requires Allocates(lo, hi, world, reply, Allocated(port), n, Some(port))
    requires PlacedIn(h, at, world, n, Some(port), m)
    requires Allocates(lo', hi', world', reply', Allocated(port), n', Some(port))
    requires PlacedIn(h, at', world', n', Some(port), m')
    requires at(n - 1) < at'(n' - 1)
    ensures exists k :: at(n - 1) < k < at'(n' - 1) && h[k] == Del(PortKeys.PortKey(port))
  {
    ClaimsSeparated(h, at(n - 1), at'(n' - 1), port);
  }
}
