/**
 Which connection holds an agent (pkg/controller/registry.go:81-111,182-203 and
 pkg/controller/service.go:38-82): Control streams on any number of pods connect, replace one another and
 tear down in any interleaving, and the pods share a directory from agents to pods.
 */
module Holders {
  import opened Frames

  type Pod = string
  type Agent = string

  /**
   One Control stream, from its opening to its end. A stream that has said hello owns one connection,
   which is named by the stream's own number.
   */
  datatype Phase =
    | Silent
    | Publishing(replaced: Option<nat>)
    | Replacing(replaced: Option<nat>)
    | Running
    | Dropping
    | Closing
    | Done

  datatype Stream = Stream(pod: Pod, agent: Agent, phase: Phase)

  /** The streams, every pod's registry, and the connections on which closeAll has run. */
  datatype Core = Core(streams: map<nat, Stream>, agents: map<(Pod, Agent), nat>, closed: set<nat>)

  datatype State = State(core: Core, directory: map<Agent, Pod>)

  datatype Step =
    | Open(id: nat, pod: Pod)
    | Hello(id: nat, agent: Agent)
    | Publish(id: nat, ok: bool)
    | CloseReplaced(id: nat)
    | Heartbeat(id: nat, ok: bool)
    | Remove(id: nat)
    | Drop(id: nat, ok: bool)
    | CloseOwn(id: nat)
    | Expire(agent: Agent)

  const START := State(Core(map[], map[], {}), map[])

  ghost function Get(s: Core, pod: Pod, agent: Agent): Option<nat> {
    if (pod, agent) in s.agents then Some(s.agents[(pod, agent)]) else None
  }

  ghost function Put(s: Core, id: nat, x: Stream): Core {
    s.(streams := s.streams[id := x])
  }

  ghost function CloseConn(s: Core, c: Option<nat>): Core {
    if c.Some? then s.(closed := s.closed + {c.value}) else s
  }

  /** What a step of stream `id` does; a stream steps only from the phase it is in. */
  ghost function StreamNext(s: Core, id: nat, x: Stream, step: Step): Core {
    match step
    case Hello(_, agent) =>
      if !x.phase.Silent? then s
      else Put(s, id, Stream(x.pod, agent, Publishing(Get(s, x.pod, agent)))).(agents := s.agents[(x.pod, agent) := id])
    case Publish(_, _) => if x.phase.Publishing? then Put(s, id, x.(phase := Replacing(x.phase.replaced))) else s
    case CloseReplaced(_) =>
      if x.phase.Replacing? then Put(CloseConn(s, x.phase.replaced), id, x.(phase := Running)) else s
    case Remove(_) =>
      if x.phase.Silent? then Put(s, id, x.(phase := Done))
      else if !x.phase.Running? then s
      else if Get(s, x.pod, x.agent) == Some(id)
      then Put(s, id, x.(phase := Dropping)).(agents := s.agents - {(x.pod, x.agent)})
      else Put(s, id, x.(phase := Closing))
    case Drop(_, _) => if x.phase.Dropping? then Put(s, id, x.(phase := Closing)) else s
    case CloseOwn(_) => if x.phase.Closing? then Put(CloseConn(s, Some(id)), id, x.(phase := Done)) else s
    case _ => s
  }

  ghost function CoreNext(s: Core, step: Step): Core {
    match step
    case Expire(_) => s
    case Open(id, pod) => if id in s.streams then s else Put(s, id, Stream(pod, "", Silent))
    case _ => if step.id in s.streams then StreamNext(s, step.id, s.streams[step.id], step) else s
  }

  /**
   The shared directory. Publishing and heartbeats write this pod's address, best effort; a teardown's
   script deletes the entry only while it points at this pod.
   */
  ghost function DirectoryNext(s: Core, directory: map<Agent, Pod>, step: Step): map<Agent, Pod> {
    match step
    case Expire(agent) => directory - {agent}
    case Publish(id, ok) =>
      if ok && id in s.streams && s.streams[id].phase.Publishing? then directory[s.streams[id].agent := s.streams[id].pod]
      else directory
    case Heartbeat(id, ok) =>
      if ok && id in s.streams && s.streams[id].phase.Running? then directory[s.streams[id].agent := s.streams[id].pod]
      else directory
    case Drop(id, ok) =>
      if ok && id in s.streams && s.streams[id].phase.Dropping?
         && s.streams[id].agent in directory && directory[s.streams[id].agent] == s.streams[id].pod
      then directory - {s.streams[id].agent}
      else directory
    case _ => directory
  }

  ghost function Next(s: State, step: Step): State {
    State(CoreNext(s.core, step), DirectoryNext(s.core, s.directory, step))
  }

  ghost function Run(steps: seq<Step>): State {
    if steps == [] then START else Next(Run(steps[..|steps| - 1]), steps[|steps| - 1])
  }

  // Every state of every run.

  /** The stream has said hello and has not taken its connection out of the registry. */
  ghost predicate Holding(x: Stream) {
    x.phase.Publishing? || x.phase.Replacing? || x.phase.Running?
  }

  ghost predicate HeldRight(s: Core, key: (Pod, Agent)) {
    key in s.agents ==>
      var c := s.agents[key];
      c in s.streams && Holding(s.streams[c]) && s.streams[c].pod == key.0 && s.streams[c].agent == key.1
  }

  /** The connection a stream displaced is no longer in the registry. */
  ghost predicate ReplacedGone(s: Core, id: nat) {
    var x := s.streams;
    id in x && (x[id].phase.Publishing? || x[id].phase.Replacing?) && x[id].phase.replaced.Some? ==>
      var r := x[id].phase.replaced.value;
      r in x && !x[r].phase.Silent? && x[r].pod == x[id].pod && x[r].agent == x[id].agent && r != id
      && Get(s, x[r].pod, x[r].agent) != Some(r)
  }

  /** A closed connection belongs to a stream that has said hello, and is not in the registry. */
  ghost predicate ClosedGone(s: Core, c: nat) {
    c in s.closed ==>
      c in s.streams && !s.streams[c].phase.Silent? && Get(s, s.streams[c].pod, s.streams[c].agent) != Some(c)
  }

  ghost predicate Inv(s: Core) {
    && (forall key | key in s.agents :: HeldRight(s, key))
    && (forall id | id in s.streams :: ReplacedGone(s, id))
    && (forall c | c in s.closed :: ClosedGone(s, c))
  }

  lemma KeepsHeld(s: Core, step: Step, key: (Pod, Agent))
    requires Inv(s)
    ensures HeldRight(CoreNext(s, step), key)
  {
    if key in s.agents {
      assert HeldRight(s, key);
      var c := s.agents[key];
      assert !step.Expire? && !step.Open? && step.id != c ==> CoreNext(s, step).streams[c] == s.streams[c];
    }
  }

  lemma KeepsReplaced(s: Core, step: Step, id: nat)
    requires Inv(s)
    ensures ReplacedGone(CoreNext(s, step), id)
  {
    if id in s.streams {
      assert ReplacedGone(s, id);
      if step.Hello? && step.id == id && Get(s, s.streams[id].pod, step.agent).Some? {
        assert HeldRight(s, (s.streams[id].pod, step.agent));
      }
    }
  }

  lemma KeepsClosed(s: Core, step: Step, c: nat)
    requires Inv(s)
    ensures ClosedGone(CoreNext(s, step), c)
  {
  }

  /** The latest connection added for an agent on a pod, read off the steps of a run. */
  ghost function LatestAdd(steps: seq<Step>, pod: Pod, agent: Agent): Option<nat> {
    if steps == [] then None
    else
      var before, step := steps[..|steps| - 1], steps[|steps| - 1];
      if Adds(Run(before).core, step, pod, agent) then Some(step.id) else LatestAdd(before, pod, agent)
  }

  ghost predicate Adds(s: Core, step: Step, pod: Pod, agent: Agent) {
    step.Hello? && step.agent == agent && step.id in s.streams && s.streams[step.id].phase.Silent? && s.streams[step.id].pod == pod
  }

  /** The answer of `get` when `latest` was the last connection added. */
  ghost predicate Answers(s: Core, pod: Pod, agent: Agent, latest: Option<nat>) {
    match latest
    case None => Get(s, pod, agent) == None
    case Some(c) =>
      && c in s.streams && !s.streams[c].phase.Silent? && s.streams[c].pod == pod && s.streams[c].agent == agent
      && Get(s, pod, agent) == if Holding(s.streams[c]) then Some(c) else None
  }

  lemma KeepsAnswer(s: Core, step: Step, pod: Pod, agent: Agent, latest: Option<nat>)
    requires Inv(s) && Answers(s, pod, agent, latest)
    ensures Answers(CoreNext(s, step), pod, agent, if Adds(s, step, pod, agent) then Some(step.id) else latest)
  {
  }

  lemma {:induction false} RunKeeps(steps: seq<Step>)
    ensures Inv(Run(steps).core)
  {
    if steps != [] {
      RunKeeps(steps[..|steps| - 1]);
      var s, step := Run(steps[..|steps| - 1]).core, steps[|steps| - 1];
      forall key {
        KeepsHeld(s, step, key);
      }
      forall id {
        KeepsReplaced(s, step, id);
      }
      forall c {
        KeepsClosed(s, step, c);
      }
    }
  }

  /**
   Holder identity: in every run, `get` returns the connection added last for the agent on the pod,
   unless that connection's own stream has removed it; then it returns nothing.
   */
  lemma {:induction false} HolderIsLatest(steps: seq<Step>, pod: Pod, agent: Agent)
    ensures Answers(Run(steps).core, pod, agent, LatestAdd(steps, pod, agent))
  {
    if steps != [] {
      var before := steps[..|steps| - 1];
      HolderIsLatest(before, pod, agent);
      RunKeeps(before);
      KeepsAnswer(Run(before).core, steps[|steps| - 1], pod, agent, LatestAdd(before, pod, agent));
    }
  }

  /** No registry ever hands out a connection on which closeAll has run. */
  lemma NeverClosed(steps: seq<Step>, pod: Pod, agent: Agent)
    ensures var s := Run(steps).core; Get(s, pod, agent).Some? ==> Get(s, pod, agent).value !in s.closed
  {
    RunKeeps(steps);
    var s := Run(steps).core;
    assert forall c | c in s.closed :: ClosedGone(s, c);
    assert (pod, agent) in s.agents ==> HeldRight(s, (pod, agent));
  }

  // The directory.

  datatype Entry = Entry(agent: Agent, pod: Pod)

  ghost function EntryFor(x: Stream): Entry {
    Entry(x.agent, x.pod)
  }

  /** The entry a step writes, if it does: a best-effort write of a stream that is publishing or running. */
  ghost function Writes(s: Core, step: Step): Option<Entry> {
    if (step.Publish? || step.Heartbeat?) && step.ok && step.id in s.streams
       && (if step.Publish? then s.streams[step.id].phase.Publishing? else s.streams[step.id].phase.Running?)
    then Some(EntryFor(s.streams[step.id])) else None
  }

  /** The entry a teardown tries to delete. */
  ghost function Drops(s: Core, step: Step): Option<Entry> {
    if step.Drop? && step.ok && step.id in s.streams && s.streams[step.id].phase.Dropping?
    then Some(EntryFor(s.streams[step.id])) else None
  }

  ghost predicate Listed(directory: map<Agent, Pod>, e: Entry) {
    e.agent in directory && directory[e.agent] == e.pod
  }

  /** The step leaves this entry alone, whatever it does to others. */
  ghost predicate Spares(s: Core, step: Step, e: Entry) {
    && step != Expire(e.agent)
    && (Writes(s, step).Some? ==> Writes(s, step).value.agent != e.agent)
    && Drops(s, step) != Some(e)
  }

  lemma ListedNext(s: Core, directory: map<Agent, Pod>, step: Step, e: Entry)
    ensures Listed(DirectoryNext(s, directory, step), e)
       <==> Writes(s, step) == Some(e) || (Listed(directory, e) && Spares(s, step, e))
  {
  }

  ghost predicate WrittenAt(steps: seq<Step>, i: nat, e: Entry)
    requires i < |steps|
  {
    Writes(Run(steps[..i]).core, steps[i]) == Some(e)
  }

  ghost predicate SparedAt(steps: seq<Step>, i: nat, e: Entry)
    requires i < |steps|
  {
    Spares(Run(steps[..i]).core, steps[i], e)
  }

  /** Written at step `i`, and spared by every step since. */
  ghost predicate StandsSince(steps: seq<Step>, i: nat, e: Entry) {
    i < |steps| && WrittenAt(steps, i, e) && forall j: nat | i < j < |steps| :: SparedAt(steps, j, e)
  }

  ghost predicate Stands(steps: seq<Step>, e: Entry) {
    exists i: nat :: StandsSince(steps, i, e)
  }

  lemma StandsNext(steps: seq<Step>, step: Step, e: Entry)
    ensures Stands(steps + [step], e)
       <==> Writes(Run(steps).core, step) == Some(e) || (Stands(steps, e) && Spares(Run(steps).core, step, e))
  {
    var more, n := steps + [step], |steps|;
    assert more[..n] == steps;
    forall i: nat | i < n
      ensures WrittenAt(more, i, e) <==> WrittenAt(steps, i, e)
      ensures SparedAt(more, i, e) <==> SparedAt(steps, i, e)
    {
      assert more[..i] == steps[..i];
    }
    assert SparedAt(more, n, e) <==> Spares(Run(steps).core, step, e);
    if Writes(Run(steps).core, step) == Some(e) {
      assert StandsSince(more, n, e);
    } else if Stands(steps, e) && Spares(Run(steps).core, step, e) {
      var i: nat :| StandsSince(steps, i, e);
      assert StandsSince(more, i, e);
    }
    if Stands(more, e) && Writes(Run(steps).core, step) != Some(e) {
      var i: nat :| StandsSince(more, i, e);
      assert i != n by {
        assert WrittenAt(more, n, e) ==> Writes(Run(steps).core, step) == Some(e);
      }
      assert SparedAt(more, n, e);
      assert StandsSince(steps, i, e);
    }
  }

  /**
   The directory, exactly, in every run: it names a pod for an agent if and only if a stream of that agent
   on that pod wrote the entry and since then it has not expired, no stream of the agent has written
   another, and no stream of the agent on that very pod has been torn down. Teardowns on other pods do not
   appear.
   */
  lemma {:induction false} EntryExactly(steps: seq<Step>, e: Entry)
    ensures Listed(Run(steps).directory, e) <==> Stands(steps, e)
  {
    if steps != [] {
      var before, step := steps[..|steps| - 1], steps[|steps| - 1];
      EntryExactly(before, e);
      ListedNext(Run(before).core, Run(before).directory, step, e);
      StandsNext(before, step, e);
      assert steps == before + [step];
    }
  }

  /** An entry outlives any number of teardowns on other pods, in any interleaving. */
  lemma {:induction false} EntrySurvives(steps: seq<Step>, i: nat, e: Entry)
    requires i <= |steps| && Listed(Run(steps[..i]).directory, e)
    requires forall j: nat | i <= j < |steps| :: SparedAt(steps, j, e)
    ensures Listed(Run(steps).directory, e)
    decreases |steps| - i
  {
    if i == |steps| {
      assert steps[..i] == steps;
    } else {
      assert SparedAt(steps, i, e);
      ListedNext(Run(steps[..i]).core, Run(steps[..i]).directory, steps[i], e);
      assert steps[..i + 1][..i] == steps[..i];
      EntrySurvives(steps, i + 1, e);
    }
  }

  ghost predicate Registered(s: Core, pod: Pod, agent: Agent) {
    exists id :: id in s.streams && !s.streams[id].phase.Silent? && s.streams[id].pod == pod && s.streams[id].agent == agent
  }

  /** A stream that has said hello keeps its pod and agent. */
  lemma StaysRegistered(s: Core, step: Step, pod: Pod, agent: Agent)
    requires Registered(s, pod, agent)
    ensures Registered(CoreNext(s, step), pod, agent)
  {
    var id :| id in s.streams && !s.streams[id].phase.Silent? && s.streams[id].pod == pod && s.streams[id].agent == agent;
    assert id in CoreNext(s, step).streams;
  }

  /** The directory never names a pod on which the agent has not registered. */
  lemma {:induction false} DirectoryNamesHolders(steps: seq<Step>, agent: Agent)
    requires agent in Run(steps).directory
    ensures Registered(Run(steps).core, Run(steps).directory[agent], agent)
  {
    var before, step := steps[..|steps| - 1], steps[|steps| - 1];
    var s := Run(before);
    if agent in s.directory {
      DirectoryNamesHolders(before, agent);
      StaysRegistered(s.core, step, s.directory[agent], agent);
    }
    if (step.Publish? || step.Heartbeat?) && step.id in s.core.streams && Holding(s.core.streams[step.id]) {
      var x := s.core.streams[step.id];
      assert Registered(s.core, x.pod, x.agent);
      StaysRegistered(s.core, step, x.pod, x.agent);
    }
  }
}
