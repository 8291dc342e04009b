/**
 The request plane over one Control session: every dispatch of one agentConn
 (pkg/controller/registry.go), its receive loop, its `closeAll` calls, the FIFO of commands to the
 agent, and the agent's cancel bookkeeping (pkg/agent/agent.go). Request IDs are unique within a
 session, so a request and its registration share one name.
 */
module RequestPlane {
  import opened Frames
  import S = Streams
  import W = Waiters

  datatype Command = Request(id: nat, cancellable: bool) | Cancel(id: nat)

  /** A streaming handler on the agent: its context is cancelled, `run` has returned, `cancels` still lists it. */
  datatype Handler = Handler(cancelled: bool, finished: bool, listed: bool)

  datatype State = State(
    closed: bool,                   // agentConn.closed
    down: bool,                     // a send on the Control stream has failed; every later one fails too
    streams: map<nat, S.Stream>,
    waiters: map<nat, W.Waiter>,
    busy: Option<nat>,              // the request the receive loop is delivering to
    wire: seq<Command>,             // commands the Control stream accepted
    taken: nat,                     // commands the agent has processed
    handlers: map<nat, Handler>)

  const Start := State(false, false, map[], map[], None, [], 0, map[])

  datatype Step =
    | NewStream(id: nat, reliable: bool)
    | NewWaiter(id: nat, upload: bool)
    | OnStream(id: nat, streamAct: S.Act)
    | OnWaiter(id: nat, waiterAct: W.Act)
    | CloseAll
    | AgentTake
    | AgentFinish(id: nat)
    | AgentUnlist(id: nat)

  predicate StreamActEnabled(s: State, id: nat, act: S.Act) {
    && id in s.streams
    && act != S.CloseAllLock
    && (act.CancelLock? ==> act.connClosed == s.closed)
    && (act.SendOpen? ==> s.streams[id].ctl.phase == S.Opening && (act.ok ==> !s.down))
    && (act.SendCancel? ==> s.streams[id].ctl.cancel == S.SendingCancel && (act.ok ==> !s.down))
    && (act.Offer? ==> s.busy.None?)
  }

  predicate WaiterActEnabled(s: State, id: nat, act: W.Act) {
    && id in s.waiters
    && act != W.CloseAllLock
    && (act.SendRequest? ==> s.waiters[id].phase == W.Sending && (act.ok ==> !s.down))
    && (act.Answer? ==> s.busy.None?)
  }

  function Busy(busy: Option<nat>, id: nat, holding: bool): Option<nat> {
    if holding then Some(id) else if busy == Some(id) then None else busy
  }

  function StreamNext(s: State, id: nat, act: S.Act): State
    requires id in s.streams
  {
    var stream := S.Next(s.streams[id], act);
    s.(streams := s.streams[id := stream],
       busy := Busy(s.busy, id, stream.dlv.inflight.Some?),
       down := s.down || (act.SendOpen? && !act.ok) || (act.SendCancel? && !act.ok),
       wire := if act.SendOpen? && act.ok then s.wire + [Request(id, true)]
               else if act.SendCancel? && act.ok then s.wire + [Cancel(id)]
               else s.wire)
  }

  function WaiterNext(s: State, id: nat, act: W.Act): State
    requires id in s.waiters
  {
    var waiter := W.Next(s.waiters[id], act);
    s.(waiters := s.waiters[id := waiter],
       busy := Busy(s.busy, id, waiter.inflight.Some?),
       down := s.down || (act.SendRequest? && !act.ok),
       wire := if act.SendRequest? && act.ok then s.wire + [Request(id, false)] else s.wire)
  }

  /** The receive loop of the agent: a streaming request is listed before the next command is read. */
  function Process(handlers: map<nat, Handler>, cmd: Command): map<nat, Handler> {
    match cmd
    case Request(id, cancellable) => if cancellable then handlers[id := Handler(false, false, true)] else handlers
    case Cancel(id) =>
      if id in handlers && handlers[id].listed then handlers[id := handlers[id].(cancelled := true)] else handlers
  }

  /** A step that is not enabled leaves the session unchanged. */
  function Next(s: State, step: Step): State {
    match step
    case NewStream(id, reliable) =>
      if s.closed || id in s.streams || id in s.waiters then s else s.(streams := s.streams[id := S.Fresh(reliable)])
    case NewWaiter(id, upload) =>
      if s.closed || id in s.streams || id in s.waiters then s else s.(waiters := s.waiters[id := W.Fresh(upload)])
    case OnStream(id, act) => if StreamActEnabled(s, id, act) then StreamNext(s, id, act) else s
    case OnWaiter(id, act) => if WaiterActEnabled(s, id, act) then WaiterNext(s, id, act) else s
    case CloseAll =>
      s.(closed := true,
         streams := map id <- s.streams :: S.Next(s.streams[id], S.CloseAllLock),
         waiters := map id <- s.waiters :: W.Next(s.waiters[id], W.CloseAllLock))
    case AgentTake =>
      if s.taken < |s.wire| then s.(taken := s.taken + 1, handlers := Process(s.handlers, s.wire[s.taken])) else s
    case AgentFinish(id) =>
      if id in s.handlers then s.(handlers := s.handlers[id := s.handlers[id].(finished := true)]) else s
    case AgentUnlist(id) =>
      if id in s.handlers && s.handlers[id].finished
      then s.(handlers := s.handlers[id := s.handlers[id].(listed := false)]) else s
  }

  ghost function Run(steps: seq<Step>): State {
    if steps == [] then Start else Next(Run(steps[..|steps| - 1]), steps[|steps| - 1])
  }

  // Registrations.

  ghost predicate StreamOk(s: State, id: nat)
    requires id in s.streams
  {
    && S.Reached(s.streams[id])
    && (s.closed ==> !s.streams[id].ctl.registered)
    && id !in s.waiters
  }

  ghost predicate WaiterOk(s: State, id: nat)
    requires id in s.waiters
  {
    && W.Reached(s.waiters[id])
    && (s.closed ==> !s.waiters[id].registered)
  }

  ghost predicate PlaneInv(s: State) {
    && (forall id | id in s.streams :: StreamOk(s, id))
    && (forall id | id in s.waiters :: WaiterOk(s, id))
  }

  lemma StreamStepOk(s: State, id: nat, act: S.Act)
    requires id in s.streams && StreamOk(s, id)
    ensures StreamOk(StreamNext(s, id, act), id)
  {
    S.ReachedNext(s.streams[id], act);
    S.StepEffect(s.streams[id], act);
  }

  lemma CloseAllOk(s: State, id: nat)
    ensures id in s.streams && StreamOk(s, id) ==> StreamOk(Next(s, CloseAll), id)
    ensures id in s.waiters && WaiterOk(s, id) ==> WaiterOk(Next(s, CloseAll), id)
  {
    if id in s.streams && StreamOk(s, id) {
      S.ReachedNext(s.streams[id], S.CloseAllLock);
      S.StepEffect(s.streams[id], S.CloseAllLock);
    }
    if id in s.waiters && WaiterOk(s, id) {
      W.ReachedNext(s.waiters[id], W.CloseAllLock);
    }
  }

  lemma StreamsKeep(s: State, step: Step, id: nat)
    requires PlaneInv(s) && id in Next(s, step).streams
    ensures StreamOk(Next(s, step), id)
  {
    assert id in s.streams ==> StreamOk(s, id);
    match step
    case NewStream(_, reliable) => S.ReachedFresh(reliable);
    case OnStream(id', act) => if StreamActEnabled(s, id', act) { StreamStepOk(s, id', act); }
    case CloseAll => CloseAllOk(s, id);
    case _ =>
  }

  lemma WaitersKeep(s: State, step: Step, id: nat)
    requires PlaneInv(s) && id in Next(s, step).waiters
    ensures WaiterOk(Next(s, step), id)
  {
    assert id in s.waiters ==> WaiterOk(s, id);
    match step
    case NewWaiter(_, upload) => W.ReachedFresh(upload);
    case OnWaiter(id', act) => if WaiterActEnabled(s, id', act) { W.ReachedNext(s.waiters[id'], act); }
    case CloseAll => CloseAllOk(s, id);
    case _ =>
  }

  lemma PlaneKeeps(s: State, step: Step)
    requires PlaneInv(s)
    ensures PlaneInv(Next(s, step))
  {
    forall id | id in Next(s, step).streams ensures StreamOk(Next(s, step), id) {
      StreamsKeep(s, step, id);
    }
    forall id | id in Next(s, step).waiters ensures WaiterOk(Next(s, step), id) {
      WaitersKeep(s, step, id);
    }
  }

  // The command stream, as one request sees it.

  /** How often it was asked for and cancelled, and whether no cancel came before the request. */
  datatype Seen = Seen(requests: nat, cancels: nat, ordered: bool)

  function See(t: Seen, cmd: Command, id: nat): Seen {
    if cmd.id != id then t
    else if cmd.Request? then (if cmd.cancellable then t.(requests := t.requests + 1) else t)
    else Seen(t.requests, t.cancels + 1, t.ordered && t.requests > 0)
  }

  ghost function SeenBy(wire: seq<Command>, id: nat): Seen {
    if wire == [] then Seen(0, 0, true) else See(SeenBy(wire[..|wire| - 1], id), wire[|wire| - 1], id)
  }

  lemma SeenAppend(wire: seq<Command>, cmd: Command, id: nat)
    ensures SeenBy(wire + [cmd], id) == See(SeenBy(wire, id), cmd, id)
  {
  }

  /** The opening request is on the wire exactly when its send worked; cancels are counted and come after it. */
  ghost predicate SeenOk(t: Seen, known: bool, ctl: S.Control, down: bool) {
    && t.ordered
    && (!known ==> t.requests == 0 && t.cancels == 0)
    && (known ==> t.cancels == ctl.cancelsSent && t.requests == if ctl.phase == S.Open then 1 else 0)
    && (known && ctl.phase == S.OpenFailed ==> down)
  }

  ghost predicate WireOk(s: State, id: nat) {
    SeenOk(SeenBy(s.wire, id), id in s.streams,
           if id in s.streams then s.streams[id].ctl else S.Fresh(true).ctl, s.down)
  }

  ghost predicate WireInv(s: State) {
    forall id: nat :: WireOk(s, id)
  }

  function Appended(t: Seen, act: S.Act, id': nat, id: nat): Seen {
    if act.SendOpen? && act.ok then See(t, Request(id', true), id)
    else if act.SendCancel? && act.ok then See(t, Cancel(id'), id)
    else t
  }

  /** What a step of one stream adds to another request's view of the wire, or its own. */
  lemma WireSeen(s: State, id': nat, act: S.Act, id: nat)
    requires id' in s.streams
    ensures SeenBy(StreamNext(s, id', act).wire, id) == Appended(SeenBy(s.wire, id), act, id', id)
  {
    SeenAppend(s.wire, Request(id', true), id);
    SeenAppend(s.wire, Cancel(id'), id);
  }

  /** What a step of the stream itself does to its view of the wire. */
  lemma OwnWire(t: Seen, stream: S.Stream, act: S.Act, id: nat, down: bool)
    requires SeenOk(t, true, stream.ctl, down) && S.Reached(stream)
    requires act.SendOpen? ==> stream.ctl.phase == S.Opening && (act.ok ==> !down)
    requires act.SendCancel? ==> stream.ctl.cancel == S.SendingCancel && (act.ok ==> !down)
    ensures SeenOk(Appended(t, act, id, id), true, S.Next(stream, act).ctl,
                   down || (act.SendOpen? && !act.ok) || (act.SendCancel? && !act.ok))
  {
    S.StepEffect(stream, act);
    S.CancelsOnce(stream);
  }

  lemma StreamStepWire(s: State, id': nat, act: S.Act, id: nat)
    requires StreamActEnabled(s, id', act) && WireOk(s, id) && StreamOk(s, id')
    ensures WireOk(StreamNext(s, id', act), id)
  {
    WireSeen(s, id', act, id);
    if id == id' {
      OwnWire(SeenBy(s.wire, id), s.streams[id], act, id, s.down);
    }
  }

  lemma WireKeeps(s: State, step: Step)
    requires PlaneInv(s) && WireInv(s)
    ensures WireInv(Next(s, step))
  {
    forall id: nat ensures WireOk(Next(s, step), id) {
      assert WireOk(s, id);
      WireStep(s, step, id);
    }
  }

  lemma WireStep(s: State, step: Step, id: nat)
    requires PlaneInv(s) && WireOk(s, id)
    ensures WireOk(Next(s, step), id)
  {
    match step
    case OnStream(id', act) => if StreamActEnabled(s, id', act) { StreamStepWire(s, id', act, id); }
    case OnWaiter(id', act) => if WaiterActEnabled(s, id', act) { WaiterUnseen(s, id', act, id); }
    case CloseAll => CloseAllWire(s, id);
    case _ =>
  }

  /** A unary request or an upload shows in no stream's view of the wire. */
  lemma WaiterUnseen(s: State, id': nat, act: W.Act, id: nat)
    requires id' in s.waiters
    ensures SeenBy(WaiterNext(s, id', act).wire, id) == SeenBy(s.wire, id)
  {
    SeenAppend(s.wire, Request(id', false), id);
  }

  lemma CloseAllWire(s: State, id: nat)
    requires WireOk(s, id)
    ensures WireOk(Next(s, CloseAll), id)
  {
    if id in s.streams {
      S.StepEffect(s.streams[id], S.CloseAllLock);
    }
  }

  // The agent.

  ghost predicate HandlerOk(t: Seen, known: bool, h: Handler) {
    && (known <==> t.requests > 0)
    && (known && !h.finished ==> h.listed)
    && (t.cancels > 0 ==> known && (h.finished || h.cancelled))
  }

  ghost predicate Listed(handlers: map<nat, Handler>, t: Seen, id: nat) {
    HandlerOk(t, id in handlers, if id in handlers then handlers[id] else Handler(false, false, false))
  }

  ghost predicate AgentOk(s: State, id: nat)
    requires s.taken <= |s.wire|
  {
    Listed(s.handlers, SeenBy(s.wire[..s.taken], id), id)
  }

  ghost predicate AgentInv(s: State) {
    s.taken <= |s.wire| && forall id: nat :: AgentOk(s, id)
  }

  lemma {:induction false} SeenPrefix(wire: seq<Command>, n: nat, id: nat)
    requires n <= |wire|
    ensures SeenBy(wire[..n], id).requests <= SeenBy(wire, id).requests
    ensures SeenBy(wire, id).ordered ==> SeenBy(wire[..n], id).ordered
    decreases |wire| - n
  {
    if n == |wire| {
      assert wire[..n] == wire;
    } else {
      assert wire[..n + 1] == wire[..n] + [wire[n]];
      SeenAppend(wire[..n], wire[n], id);
      SeenPrefix(wire, n + 1, id);
    }
  }

  lemma ProcessKeeps(handlers: map<nat, Handler>, t: Seen, cmd: Command, id: nat)
    requires Listed(handlers, t, id)
    requires See(t, cmd, id).requests <= 1 && See(t, cmd, id).ordered && t.ordered
    requires t.requests == 0 ==> t.cancels == 0
    ensures Listed(Process(handlers, cmd), See(t, cmd, id), id)
  {
  }

  lemma TakeKeeps(s: State, id: nat)
    requires WireInv(s) && s.taken < |s.wire| && AgentOk(s, id)
    ensures AgentOk(Next(s, AgentTake), id)
  {
    var cmd, before := s.wire[s.taken], s.wire[..s.taken];
    assert s.wire[..s.taken + 1] == before + [cmd];
    SeenAppend(before, cmd, id);
    SeenPrefix(s.wire, s.taken + 1, id);
    SeenPrefix(s.wire, s.taken, id);
    assert WireOk(s, id);
    ProcessKeeps(s.handlers, SeenBy(before, id), cmd, id);
  }

  lemma AgentKeeps(s: State, step: Step)
    requires WireInv(s) && AgentInv(s)
    ensures AgentInv(Next(s, step))
  {
    var s' := Next(s, step);
    forall id: nat ensures AgentOk(s', id) {
      assert AgentOk(s, id);
      if step.AgentTake? && s.taken < |s.wire| {
        TakeKeeps(s, id);
      } else {
        assert s'.wire[..s'.taken] == s.wire[..s.taken];
      }
    }
  }

  ghost predicate Inv(s: State) {
    PlaneInv(s) && WireInv(s) && AgentInv(s)
  }

  lemma {:induction false} RunKeeps(steps: seq<Step>)
    ensures Inv(Run(steps))
  {
    if steps != [] {
      var s, step := Run(steps[..|steps| - 1]), steps[|steps| - 1];
      RunKeeps(steps[..|steps| - 1]);
      PlaneKeeps(s, step);
      WireKeeps(s, step);
      AgentKeeps(s, step);
    }
  }

  /** Every stream of every run delivers as its class promises, and no consumer is stranded. */
  lemma StreamDelivery(steps: seq<Step>, id: nat)
    requires id in Run(steps).streams
    ensures S.Delivered(Run(steps).streams[id]) && S.Watched(Run(steps).streams[id])
  {
    RunKeeps(steps);
    assert StreamOk(Run(steps), id);
    S.Delivers(Run(steps).streams[id]);
  }

  /** Every unary or upload waiter of every run is safe. */
  lemma WaiterSafety(steps: seq<Step>, id: nat)
    requires id in Run(steps).waiters
    ensures W.Safe(Run(steps).waiters[id])
  {
    RunKeeps(steps);
    assert WaiterOk(Run(steps), id);
    W.StaysSafe(Run(steps).waiters[id]);
  }

  /** Once closed, nothing is registered, now or later. */
  lemma ClosedIsEmpty(steps: seq<Step>, id: nat)
    requires Run(steps).closed
    ensures id in Run(steps).streams ==> !Run(steps).streams[id].ctl.registered
    ensures id in Run(steps).waiters ==> !Run(steps).waiters[id].registered
  {
    RunKeeps(steps);
    var s := Run(steps);
    assert id in s.streams ==> StreamOk(s, id);
    assert id in s.waiters ==> WaiterOk(s, id);
  }

  /**
   A stream sends at most one request.cancel, never together with a claimed terminal result, and always
   after its opening request; and a request.cancel the agent has processed found the handler finished
   or has cancelled its context.
   */
  ghost predicate CancelSafe(s: State, id: nat)
    requires id in s.streams && s.taken <= |s.wire|
  {
    && SeenBy(s.wire, id).cancels <= 1
    && SeenBy(s.wire, id).ordered
    && (SeenBy(s.wire, id).cancels > 0 ==> !s.streams[id].ctl.claimed)
    && (SeenBy(s.wire[..s.taken], id).cancels > 0 ==>
          id in s.handlers && (s.handlers[id].finished || s.handlers[id].cancelled))
  }

  lemma CancelSafeIn(s: State, id: nat)
    requires Inv(s) && id in s.streams
    ensures CancelSafe(s, id)
  {
    assert StreamOk(s, id) && WireOk(s, id) && AgentOk(s, id);
    S.CancelsOnce(s.streams[id]);
  }

  /** The cancel protocol holds in every run. */
  lemma CancelProtocol(steps: seq<Step>, id: nat)
    requires id in Run(steps).streams
    ensures Run(steps).taken <= |Run(steps).wire| && CancelSafe(Run(steps), id)
  {
    RunKeeps(steps);
    CancelSafeIn(Run(steps), id);
  }
}
