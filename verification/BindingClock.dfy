/**
 Timed runs of reportBound (pkg/controller/bindings.go:63-83). Every pod reads its bound ports and pipes
 one SET for its liveness key and then one per port; the pipeline may be cut off anywhere, and all of it
 that is executed is executed within `window` milliseconds. Times are in milliseconds.
 */
module BindingClock {
  import opened Frames
  import Bindings
  import Ports
  import PortKeys

  const BOUND_TTL := 30_000
  const CONTROLLER_TTL := 45_000
  const REDIS_OP_TIMEOUT := 3_000   // the code's window, well within the difference of the two lifetimes

  /** A bound key: when it was set, and when its pod had read the ports it reported. */
  datatype Mark = Mark(done: nat, read: nat)

  /** A report under way: when it began, whether the liveness key is set, and the ports still to set. */
  datatype Pipe = Idle | Sending(began: nat, alive: bool, todo: seq<nat>)

  /** One pod: its bound listeners, its report, the expiry of its liveness key and its bound keys. */
  datatype Pod = Pod(local: set<nat>, pipe: Pipe, liveUntil: nat, bound: map<nat, Mark>)

  datatype Act =
    | Rebind(listening: set<nat>)
    | Begin(ports: seq<nat>)
    | Execute
    | CutOff

  datatype Step = Advance(ms: nat) | At(pod: string, act: Act)

  datatype State = State(now: nat, pods: map<string, Pod>)

  const NEW_POD := Pod({}, Idle, 0, map[])

  ghost predicate Lists(ports: seq<nat>, local: set<nat>) {
    forall p :: p in ports <==> p in local
  }

  ghost function PodNext(now: nat, p: Pod, act: Act): Pod {
    match act
    case Rebind(ports) => p.(local := ports)
    case Begin(ports) => if p.pipe.Idle? && Lists(ports, p.local) then p.(pipe := Sending(now, false, ports)) else p
    case Execute =>
      if p.pipe.Idle? then p
      else if !p.pipe.alive then p.(liveUntil := now + CONTROLLER_TTL, pipe := p.pipe.(alive := true))
      else if p.pipe.todo == [] then p.(pipe := Idle)
      else p.(bound := p.bound[p.pipe.todo[0] := Mark(now, p.pipe.began)], pipe := p.pipe.(todo := p.pipe.todo[1..]))
    case CutOff => p.(pipe := Idle)
  }

  /** No report under way would outlive its window. */
  ghost predicate MayAdvance(window: nat, s: State, ms: nat) {
    forall pod | pod in s.pods && s.pods[pod].pipe.Sending? :: s.now + ms <= s.pods[pod].pipe.began + window
  }

  ghost function PodOf(s: State, pod: string): Pod {
    if pod in s.pods then s.pods[pod] else NEW_POD
  }

  ghost function Next(window: nat, s: State, step: Step): State {
    match step
    case Advance(ms) => if MayAdvance(window, s, ms) then s.(now := s.now + ms) else s
    case At(pod, act) => s.(pods := s.pods[pod := PodNext(s.now, PodOf(s, pod), act)])
  }

  ghost function Run(window: nat, steps: seq<Step>): State {
    if steps == [] then State(0, map[]) else Next(window, Run(window, steps[..|steps| - 1]), steps[|steps| - 1])
  }

  // What one pod keeps.

  ghost predicate MarkInv(window: nat, now: nat, p: Pod, m: Mark) {
    m.read <= m.done <= now && m.done <= m.read + window && m.read + CONTROLLER_TTL <= p.liveUntil
  }

  ghost predicate PodInv(window: nat, now: nat, p: Pod) {
    && p.liveUntil <= now + CONTROLLER_TTL
    && (p.pipe.Sending? ==> p.pipe.began <= now <= p.pipe.began + window)
    && (p.pipe.Sending? && p.pipe.alive ==> p.pipe.began + CONTROLLER_TTL <= p.liveUntil)
    && forall port | port in p.bound :: MarkInv(window, now, p, p.bound[port])
  }

  lemma PodKeeps(window: nat, now: nat, p: Pod, act: Act)
    requires PodInv(window, now, p)
    ensures PodInv(window, now, PodNext(now, p, act))
  {
  }

  ghost predicate Inv(window: nat, s: State) {
    forall pod | pod in s.pods :: PodInv(window, s.now, s.pods[pod])
  }

  lemma {:induction false} RunKeeps(window: nat, steps: seq<Step>)
    ensures Inv(window, Run(window, steps))
  {
    if steps != [] {
      var s := Run(window, steps[..|steps| - 1]);
      RunKeeps(window, steps[..|steps| - 1]);
      match steps[|steps| - 1]
      case Advance(ms) =>
        if MayAdvance(window, s, ms) {
          forall pod | pod in s.pods
            ensures PodInv(window, s.now + ms, s.pods[pod])
          {
          }
        }
      case At(pod, act) => PodKeeps(window, s.now, PodOf(s, pod), act);
    }
  }

  // What a report says was true when its pod read its listeners.

  /** At some moment of the run at time `t` the pod was listening on the port. */
  ghost predicate Listened(window: nat, steps: seq<Step>, pod: string, port: nat, t: nat) {
    exists i :: 0 <= i <= |steps| && ListenedAt(window, steps[..i], pod, port, t)
  }

  ghost predicate ListenedAt(window: nat, steps: seq<Step>, pod: string, port: nat, t: nat) {
    var s := Run(window, steps);
    s.now == t && port in PodOf(s, pod).local
  }

  lemma ListenedLater(window: nat, steps: seq<Step>, step: Step, pod: string, port: nat, t: nat)
    requires Listened(window, steps, pod, port, t)
    ensures Listened(window, steps + [step], pod, port, t)
  {
    var i :| 0 <= i <= |steps| && ListenedAt(window, steps[..i], pod, port, t);
    assert (steps + [step])[..i] == steps[..i];
  }

  ghost predicate AllListened(window: nat, steps: seq<Step>, pod: string, ports: set<nat>, t: nat) {
    forall port | port in ports :: Listened(window, steps, pod, port, t)
  }

  /** Everything a pod has reported or is about to report was so when it read its listeners. */
  ghost predicate Truthful(window: nat, steps: seq<Step>, pod: string, p: Pod) {
    && (forall port | port in p.bound :: Listened(window, steps, pod, port, p.bound[port].read))
    && (p.pipe.Sending? ==> forall port | port in p.pipe.todo :: Listened(window, steps, pod, port, p.pipe.began))
  }

  lemma TruthfulLater(window: nat, steps: seq<Step>, step: Step, pod: string, p: Pod)
    requires Truthful(window, steps, pod, p)
    ensures Truthful(window, steps + [step], pod, p)
  {
    forall port, t | Listened(window, steps, pod, port, t)
      ensures Listened(window, steps + [step], pod, port, t)
    {
      ListenedLater(window, steps, step, pod, port, t);
    }
  }

  lemma TruthfulAct(window: nat, steps: seq<Step>, pod: string, p: Pod, now: nat, act: Act)
    requires Truthful(window, steps, pod, p)
    requires AllListened(window, steps, pod, p.local, now)
    ensures Truthful(window, steps, pod, PodNext(now, p, act))
  {
  }

  lemma LocalListened(window: nat, before: seq<Step>, step: Step, pod: string)
    ensures AllListened(window, before + [step], pod, PodOf(Run(window, before), pod).local, Run(window, before).now)
  {
    var s := Run(window, before);
    forall port | port in PodOf(s, pod).local
      ensures Listened(window, before + [step], pod, port, s.now)
    {
      assert (before + [step])[..|before|] == before;
      assert ListenedAt(window, (before + [step])[..|before|], pod, port, s.now);
    }
  }

  lemma TruthfulNext(window: nat, before: seq<Step>, step: Step, pod: string)
    requires Truthful(window, before, pod, PodOf(Run(window, before), pod))
    ensures Truthful(window, before + [step], pod, PodOf(Next(window, Run(window, before), step), pod))
  {
    var s := Run(window, before);
    TruthfulLater(window, before, step, pod, PodOf(s, pod));
    if step.At? && step.pod == pod {
      LocalListened(window, before, step, pod);
      TruthfulAct(window, before + [step], pod, PodOf(s, pod), s.now, step.act);
    }
  }

  lemma {:induction false} RunTruthful(window: nat, steps: seq<Step>, pod: string)
    ensures Truthful(window, steps, pod, PodOf(Run(window, steps), pod))
  {
    if steps != [] {
      RunTruthful(window, steps[..|steps| - 1], pod);
      TruthfulNext(window, steps[..|steps| - 1], steps[|steps| - 1], pod);
      assert steps == steps[..|steps| - 1] + [steps[|steps| - 1]];
    }
  }

  // The barrier.

  ghost predicate Fresh(s: State, pod: string, port: nat) {
    pod in s.pods && port in s.pods[pod].bound && s.now < s.pods[pod].bound[port].done + BOUND_TTL
  }

  ghost predicate Alive(s: State, pod: string) {
    s.now < PodOf(s, pod).liveUntil
  }

  ghost predicate Recent(window: nat, now: nat, done: nat, read: nat) {
    read <= done <= now < done + BOUND_TTL && done <= read + window
  }

  /** The pod reported the port within the last 30 seconds, from a reading at most `window` older. */
  ghost predicate Reported(window: nat, steps: seq<Step>, pod: string, port: nat) {
    var s := Run(window, steps);
    exists done: nat, read: nat :: Recent(window, s.now, done, read) && Listened(window, steps, pod, port, read)
  }

  /**
   An unexpired bound key means that its pod reported the port within 30 seconds; and its pod's liveness
   key is unexpired too, as long as a pipeline takes no longer than the two lifetimes differ.
   */
  lemma BoundMeansReported(window: nat, steps: seq<Step>, pod: string, port: nat)
    requires Fresh(Run(window, steps), pod, port)
    ensures Reported(window, steps, pod, port)
    ensures window <= CONTROLLER_TTL - BOUND_TTL ==> Alive(Run(window, steps), pod)
  {
    RunKeeps(window, steps);
    RunTruthful(window, steps, pod);
    var s := Run(window, steps);
    var m := s.pods[pod].bound[port];
    assert MarkInv(window, s.now, s.pods[pod], m);
    assert Recent(window, s.now, m.done, m.read);
  }

  /** The keys a reader of Redis finds. */
  ghost function KeysOf(s: State): Bindings.Keys {
    set pod, port | pod in s.pods && port in s.pods[pod].bound && Fresh(s, pod, port) :: PortKeys.BoundKey(port, pod)
  }

  lemma KeyMeansFresh(s: State, pod: string, port: nat)
    requires PortKeys.BoundKey(port, pod) in KeysOf(s)
    ensures Fresh(s, pod, port)
  {
    var pod', port' :| pod' in s.pods && port' in s.pods[pod'].bound && Fresh(s, pod', port')
                       && PortKeys.BoundKey(port', pod') == PortKeys.BoundKey(port, pod);
    PortKeys.BoundKeyInjective(port', pod', port, pod);
  }

  /** Batch `k` of a verdict reads Redis as it is after the first `at(k)` steps of a run. */
  ghost predicate ReadFrom(window: nat, steps: seq<Step>, at: nat -> nat, world: nat -> Bindings.Keys, n: nat) {
    forall k: nat | k < n :: at(k) <= |steps| && world(k) == KeysOf(Run(window, steps[..at(k)]))
  }

  /** At that moment the pod had reported the port within 30 seconds and was counted as alive. */
  ghost predicate BoundAt(window: nat, steps: seq<Step>, pod: string, port: nat) {
    Reported(window, steps, pod, port) && Alive(Run(window, steps), pod)
  }

  /**
   The activation barrier, for every verdict on every run: when a port comes out active, then for every
   pod that was listed there is a moment of the call, that of the batch that asked for it, at which the
   pod had reported the port within 30 seconds, from a reading at most one pipeline older, and was counted
   as alive. Keys may expire, be set and be refreshed between any two batches.
   */
  lemma ActiveMeansListening(window: nat, steps: seq<Step>, at: nat -> nat, mappings: Ports.Table, pods: seq<string>,
                             world: nat -> Bindings.Keys, fails: nat -> bool, n: nat,
                             states: map<nat, Bindings.PortState>, port: nat, pod: string)
    returns (k: nat)
    requires window <= CONTROLLER_TTL - BOUND_TTL && ReadFrom(window, steps, at, world, n)
    requires Bindings.Verdicts(mappings, Bindings.Redis(Some(pods), world, fails), n, states)
    requires port in mappings && states[port] == Bindings.Active && pod in pods
    ensures k < n && at(k) <= |steps| && BoundAt(window, steps[..at(k)], pod, port)
  {
    assert Bindings.Seen(world, n, PortKeys.BoundKey(port, pod), true);
    k :| k < n && (PortKeys.BoundKey(port, pod) in world(k)) == true;
    KeyMeansFresh(Run(window, steps[..at(k)]), pod, port);
    BoundMeansReported(window, steps[..at(k)], pod, port);
  }

  /** What SCAN promises: a pod that is alive from its first step to its last is listed. */
  ghost predicate Scanned(window: nat, steps: seq<Step>, first: nat, last: nat, pods: seq<string>)
    requires first <= last <= |steps|
  {
    forall pod | AliveThroughout(window, steps, first, last, pod) :: pod in pods
  }

  ghost predicate AliveThroughout(window: nat, steps: seq<Step>, first: nat, last: nat, pod: string)
    requires first <= last <= |steps|
  {
    forall t | first <= t <= last :: Alive(Run(window, steps[..t]), pod)
  }

  /** No live pod is missed: every pod alive throughout the scan had the port bound when its key was read. */
  lemma ActiveCoversLivePods(window: nat, steps: seq<Step>, first: nat, last: nat, at: nat -> nat, mappings: Ports.Table,
                             pods: seq<string>, world: nat -> Bindings.Keys, fails: nat -> bool, n: nat,
                             states: map<nat, Bindings.PortState>, port: nat, pod: string)
    returns (k: nat)
    requires first <= last <= |steps| && Scanned(window, steps, first, last, pods)
    requires window <= CONTROLLER_TTL - BOUND_TTL && ReadFrom(window, steps, at, world, n)
    requires Bindings.Verdicts(mappings, Bindings.Redis(Some(pods), world, fails), n, states)
    requires port in mappings && states[port] == Bindings.Active
    requires AliveThroughout(window, steps, first, last, pod)
    ensures k < n && at(k) <= |steps| && BoundAt(window, steps[..at(k)], pod, port)
  {
    k := ActiveMeansListening(window, steps, at, mappings, pods, world, fails, n, states, port, pod);
  }
}
