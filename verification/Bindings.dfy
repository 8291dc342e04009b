/**
 The activation verdict (pkg/controller/bindings.go:85-195): a port may be published once every live
 controller pod has reported it bound. The bound keys are fetched in batches; the store may change
 between two batches.
 */
module Bindings {
  import opened Frames
  import opened Ports
  import PortKeys

  const BATCH := 100

  datatype PortState = Pending | Active | Suspended

  /** The keys present in Redis. */
  type Keys = set<string>

  /** The tracker: absent, deciding from the local listeners, or deciding from Redis. */
  datatype Tracker =
    | Absent
    | Local(bound: seq<nat>)
    | Redis(pods: Option<seq<string>>, world: nat -> Keys, fails: nat -> bool)

  /** Some batch found the bound key, or found it missing. */
  ghost predicate Seen(world: nat -> Keys, n: nat, key: string, present: bool) {
    exists k: nat :: k < n && (key in world(k)) == present
  }

  /** What a call that sends `n` batches says about one port that is not suspended. */
  ghost predicate Judged(world: nat -> Keys, n: nat, pods: seq<string>, port: nat, state: PortState) {
    match state
    case Active => pods != [] && forall pod | pod in pods :: Seen(world, n, PortKeys.BoundKey(port, pod), true)
    case Pending => pods == [] || exists pod :: pod in pods && Seen(world, n, PortKeys.BoundKey(port, pod), false)
    case Suspended => false
  }

  /** The direct definition: there is a live pod, and every live pod's bound key is present. */
  ghost predicate EveryPodBound(keys: Keys, pods: seq<string>, port: nat) {
    pods != [] && forall pod | pod in pods :: PortKeys.BoundKey(port, pod) in keys
  }

  ghost predicate Stable(world: nat -> Keys, n: nat, keys: Keys) {
    forall k: nat | k < n :: world(k) == keys
  }

  /** Which pod reported which port is readable from the keys, since no two reports share a key. */
  lemma KeysFaithful(reports: set<(nat, string)>, port: nat, pod: string)
    ensures PortKeys.BoundKey(port, pod) in (set r | r in reports :: PortKeys.BoundKey(r.0, r.1)) <==> (port, pod) in reports
  {
    var keys := set r | r in reports :: PortKeys.BoundKey(r.0, r.1);
    if PortKeys.BoundKey(port, pod) in keys {
      var r :| r in reports && PortKeys.BoundKey(r.0, r.1) == PortKeys.BoundKey(port, pod);
      PortKeys.BoundKeyInjective(r.0, r.1, port, pod);
      assert r == (port, pod);
    }
    if (port, pod) in reports {
      var r := (port, pod);
      assert r in reports && PortKeys.BoundKey(r.0, r.1) in keys;
    }
  }

  method AllKeys(ports: seq<nat>, pods: seq<string>) returns (keys: seq<string>)
    ensures forall i, j | 0 <= i < |ports| && 0 <= j < |pods| :: PortKeys.BoundKey(ports[i], pods[j]) in keys
  {
    keys := [];
    var i := 0;
    while i < |ports|
      invariant 0 <= i <= |ports|
      invariant forall i', j | 0 <= i' < i && 0 <= j < |pods| :: PortKeys.BoundKey(ports[i'], pods[j]) in keys
    {
      var j := 0;
      while j < |pods|
        invariant 0 <= j <= |pods|
        invariant forall i', j' | 0 <= i' < i && 0 <= j' < |pods| :: PortKeys.BoundKey(ports[i'], pods[j']) in keys
        invariant forall j' | 0 <= j' < j :: PortKeys.BoundKey(ports[i], pods[j']) in keys
      {
        keys := keys + [PortKeys.BoundKey(ports[i], pods[j])];
        j := j + 1;
      }
      i := i + 1;
    }
  }

  ghost predicate Reflects(bound: map<string, bool>, world: nat -> Keys, n: nat) {
    forall key | key in bound :: Seen(world, n, key, bound[key])
  }

  /** One MGET, folded into what is known so far. */
  method Fetch(bound: map<string, bool>, keys: seq<string>, found: Keys) returns (r: map<string, bool>)
    ensures forall key | key in r :: if key in keys then r[key] == (key in found) else key in bound && r[key] == bound[key]
    ensures forall key | key in bound || key in keys :: key in r
  {
    r := bound;
    var i := 0;
    while i < |keys|
      invariant 0 <= i <= |keys|
      invariant forall key | key in r ::
        if key in keys[..i] then r[key] == (key in found) else key in bound && r[key] == bound[key]
      invariant forall key | key in bound || key in keys[..i] :: key in r
    {
      r := r[keys[i] := keys[i] in found];
      assert keys[..i + 1] == keys[..i] + [keys[i]];
      i := i + 1;
    }
    assert keys[..i] == keys;
  }

  method BoundSet(keys: seq<string>, world: nat -> Keys, fails: nat -> bool)
    returns (bound: Option<map<string, bool>>, n: nat)
    ensures bound.None? <==> exists k: nat :: k < n && fails(k)
    ensures bound.Some? ==> (forall key | key in keys :: key in bound.value) && Reflects(bound.value, world, n)
  {
    var known: map<string, bool>, start := map[], 0;
    n := 0;
    while start < |keys|
      invariant 0 <= start <= |keys|
      invariant forall k: nat | k < n :: !fails(k)
      invariant forall key | key in keys[..start] :: key in known
      invariant Reflects(known, world, n)
    {
      var end := if start + BATCH < |keys| then start + BATCH else |keys|;
      if fails(n) {
        n := n + 1;
        assert fails(n - 1);
        return None, n;
      }
      var batch := keys[start..end];
      var more := Fetch(known, batch, world(n));
      assert keys[..end] == keys[..start] + batch;
      known, n, start := more, n + 1, end;
    }
    assert keys[..start] == keys;
    bound := Some(known);
  }

  /** The verdict on one port from the fetched keys. */
  method EveryPod(bound: map<string, bool>, pods: seq<string>, port: nat) returns (active: bool)
    requires forall j | 0 <= j < |pods| :: PortKeys.BoundKey(port, pods[j]) in bound
    ensures active <==> forall j | 0 <= j < |pods| :: bound[PortKeys.BoundKey(port, pods[j])]
  {
    active := true;
    var j := 0;
    while j < |pods|
      invariant 0 <= j <= |pods| && active
      invariant forall j' | 0 <= j' < j :: bound[PortKeys.BoundKey(port, pods[j'])]
    {
      if !bound[PortKeys.BoundKey(port, pods[j])] {
        return false;
      }
      j := j + 1;
    }
  }

  method JudgeAll(undecided: seq<nat>, before: map<nat, PortState>, pods: seq<string>, bound: map<string, bool>,
                  ghost world: nat -> Keys, ghost n: nat)
    returns (r: map<nat, PortState>)
    requires pods != [] && Reflects(bound, world, n)
    requires forall i, j | 0 <= i < |undecided| && 0 <= j < |pods| :: PortKeys.BoundKey(undecided[i], pods[j]) in bound
    requires forall p | p in undecided :: p in before && before[p] == Pending
    ensures r.Keys == before.Keys
    ensures forall p | p in before && p !in undecided :: r[p] == before[p]
    ensures forall p | p in undecided :: Judged(world, n, pods, p, r[p])
  {
    r := before;
    var i := 0;
    while i < |undecided|
      invariant 0 <= i <= |undecided| && r.Keys == before.Keys
      invariant forall p | p in before && p !in undecided[..i] :: r[p] == before[p]
      invariant forall p | p in undecided[..i] :: Judged(world, n, pods, p, r[p])
    {
      var port := undecided[i];
      var active := EveryPod(bound, pods, port);
      assert undecided[..i + 1] == undecided[..i] + [port];
      if active {
        r := r[port := Active];
      }
      i := i + 1;
    }
    assert undecided[..i] == undecided;
  }

  /** Marks active the undecided ports that every pod has bound; with no live pod nothing changes. */
  method ResolveRedis(undecided: seq<nat>, before: map<nat, PortState>, pods: Option<seq<string>>,
                      world: nat -> Keys, fails: nat -> bool)
    returns (result: Option<map<nat, PortState>>, n: nat)
    requires forall p | p in undecided :: p in before && before[p] == Pending
    ensures result.None? <==> pods.None? || exists k: nat :: k < n && fails(k)
    ensures result.Some? ==> result.value.Keys == before.Keys
    ensures result.Some? ==> forall p | p in before && p !in undecided :: result.value[p] == before[p]
    ensures result.Some? ==> forall p | p in undecided :: Judged(world, n, pods.value, p, result.value[p])
  {
    n := 0;
    if pods.None? {
      return None, n;
    }
    if |pods.value| == 0 {
      return Some(before), n;
    }
    var keys := AllKeys(undecided, pods.value);
    var bound;
    bound, n := BoundSet(keys, world, fails);
    if bound.None? {
      return None, n;
    }
    var r := JudgeAll(undecided, before, pods.value, bound.value, world, n);
    result := Some(r);
  }

  method ResolveLocal(undecided: seq<nat>, before: map<nat, PortState>, bound: seq<nat>)
    returns (result: map<nat, PortState>)
    requires forall p | p in undecided :: p in before
    ensures result.Keys == before.Keys
    ensures forall p | p in before :: result[p] == if p in undecided && p in bound then Active else before[p]
  {
    result := before;
    var i := 0;
    while i < |undecided|
      invariant 0 <= i <= |undecided| && result.Keys == before.Keys
      invariant forall p | p in before :: result[p] == if p in undecided[..i] && p in bound then Active else before[p]
    {
      assert undecided[..i + 1] == undecided[..i] + [undecided[i]];
      if undecided[i] in bound {
        result := result[undecided[i] := Active];
      }
      i := i + 1;
    }
    assert undecided[..i] == undecided;
  }

  /** What the tracker says about a port that is not suspended. */
  ghost predicate Decided(t: Tracker, n: nat, port: nat, state: PortState) {
    match t
    case Absent => state == Pending
    case Local(bound) => state == if port in bound then Active else Pending
    case Redis(pods, world, fails) => pods.Some? && Judged(world, n, pods.value, port, state)
  }

  ghost predicate Verdicts(mappings: Table, t: Tracker, n: nat, states: map<nat, PortState>) {
    && states.Keys == mappings.Keys
    && (forall p | p in mappings :: mappings[p].suspended <==> states[p] == Suspended)
    && (forall p | p in mappings && !mappings[p].suspended :: Decided(t, n, p, states[p]))
  }

  /** Splits the mappings into the suspended ones and those still to be decided. */
  method Classify(mappings: Table) returns (states: map<nat, PortState>, undecided: seq<nat>)
    ensures states.Keys == mappings.Keys
    ensures forall p | p in mappings :: states[p] == if mappings[p].suspended then Suspended else Pending
    ensures forall p :: p in undecided <==> p in mappings && !mappings[p].suspended
  {
    states, undecided := map[], [];
    var rest := mappings.Keys;
    while rest != {}
      invariant rest <= mappings.Keys
      invariant states.Keys == mappings.Keys - rest
      invariant forall p | p in states :: states[p] == if mappings[p].suspended then Suspended else Pending
      invariant forall p :: p in undecided <==> p in mappings && p !in rest && !mappings[p].suspended
      decreases rest
    {
      var p :| p in rest;
      if mappings[p].suspended {
        states := states[p := Suspended];
      } else {
        states := states[p := Pending];
        undecided := undecided + [p];
      }
      rest := rest - {p};
    }
  }

  /** Every mapping gets a verdict, or the call fails because Redis did. */
  method States(mappings: Table, t: Tracker) returns (states: Option<map<nat, PortState>>, n: nat)
    ensures states.Some? ==> Verdicts(mappings, t, n, states.value)
    ensures states.None? ==> t.Redis? && (t.pods.None? || exists k: nat :: k < n && t.fails(k))
    ensures states.None? ==> exists p :: p in mappings && !mappings[p].suspended
  {
    n := 0;
    var before, undecided := Classify(mappings);
    if t.Absent? || |undecided| == 0 {
      return Some(before), n;
    }
    assert undecided[0] in undecided;
    if t.Local? {
      var r := ResolveLocal(undecided, before, t.bound);
      return Some(r), n;
    }
    states, n := ResolveRedis(undecided, before, t.pods, t.world, t.fails);
    if states.Some? {
      assert forall p | p in mappings && !mappings[p].suspended :: p in undecided;
    }
  }

  /** On a store that holds still, a port is active exactly when it is not suspended and every live pod has bound it. */
  lemma ActiveExactly(mappings: Table, pods: seq<string>, world: nat -> Keys, fails: nat -> bool, n: nat,
                      states: map<nat, PortState>, keys: Keys, port: nat)
    requires Verdicts(mappings, Redis(Some(pods), world, fails), n, states)
    requires Stable(world, n, keys) && port in mappings
    ensures states[port] == Active <==> !mappings[port].suspended && EveryPodBound(keys, pods, port)
  {
  }
}
