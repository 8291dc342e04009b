/**
 A streaming dispatch relayed from the pod that holds the agent to the pod that serves the request
 (pkg/controller/peer.go:69-124 and 230-276, pkg/controller/api.go:193-221): the holding pod's channel and
 relay loop, the gRPC stream between the pods, the receiving goroutine, and the consumer. Any
 interleaving, any failure.
 */
module PeerStreams {
  import Streams
  import opened Taps

  /** The goroutine that moves frames from the gRPC stream into the requesting pod's channel. */
  datatype Pump = Receiving | Pushing(frame: Frame) | Leaving | Gone

  /**
   `holder` is the holding pod's channel with the relay loop as its reader, `sent` everything the loop put
   on the wire, `user` the requesting pod's channel with consumeStream as its reader. `broken` says that
   a send, a receive or a context failed.
   */
  datatype State = State(holder: Tap, sent: seq<Frame>, wire: seq<Frame>, pump: Pump, user: Tap, broken: bool)

  const START := State(EMPTY, [], [], Receiving, EMPTY, false)

  datatype Step =
    | Queue(frame: Frame)
    | AgentGone
    | Relay(ok: bool)
    | RelaySeesDone
    | RelayGivesUp
    | RelayCancelled
    | Recv
    | RecvEnd
    | RecvFails
    | Push
    | PushCancelled
    | PumpCloses
    | Use(act: Taps.Act)

  /** The steps of the consumer itself. */
  predicate Consumes(act: Taps.Act) {
    act.Take? || act.SeeDone? || act.GiveUp? || act.Leave?
  }

  function RelayNext(s: State, ok: bool): State {
    if !(Reading(s.holder) && s.holder.buffer != []) then s
    else
      var f := s.holder.buffer[0];
      if ok then s.(holder := Taps.Next(s.holder, Take(false)), sent := s.sent + [f], wire := s.wire + [f])
      else s.(holder := Taps.Next(s.holder, Take(true)), broken := true)
  }

  function PumpNext(s: State, step: Step): State {
    match step
    case Recv => if s.pump.Receiving? && s.wire != [] then s.(pump := Pushing(s.wire[0]), wire := s.wire[1..]) else s
    case RecvEnd => if s.pump.Receiving? && s.wire == [] && !Reading(s.holder) then s.(pump := Leaving) else s
    case RecvFails => if s.pump.Receiving? then s.(pump := Leaving, broken := true) else s
    case Push =>
      if s.pump.Pushing? && |s.user.buffer| < Streams.CAPACITY
      then s.(user := Taps.Next(s.user, Put(s.pump.frame)), pump := if s.pump.frame.final then Leaving else Receiving)
      else s
    case PushCancelled => if s.pump.Pushing? then s.(pump := Leaving, broken := true) else s
    case PumpCloses => if s.pump.Leaving? then s.(pump := Gone, user := Taps.Next(s.user, CloseDone)) else s
    case _ => s
  }

  function Next(s: State, step: Step): State {
    match step
    case Queue(f) => s.(holder := Taps.Next(s.holder, Put(f)))
    case AgentGone => s.(holder := Taps.Next(s.holder, CloseDone))
    case Relay(ok) => RelayNext(s, ok)
    case RelaySeesDone => s.(holder := Taps.Next(s.holder, SeeDone))
    case RelayGivesUp => s.(holder := Taps.Next(s.holder, GiveUp))
    case RelayCancelled => if s.holder.mode.Picking? then s.(holder := Taps.Next(s.holder, Leave), broken := true) else s
    case Use(act) => if Consumes(act) then s.(user := Taps.Next(s.user, act)) else s
    case _ => PumpNext(s, step)
  }

  ghost function Run(steps: seq<Step>): State {
    if steps == [] then START else Next(Run(steps[..|steps| - 1]), steps[|steps| - 1])
  }

  function Held(p: Pump): seq<Frame> {
    if p.Pushing? then [p.frame] else []
  }

  /** The frames on their way are in order and none is missing in between. */
  ghost predicate Flow(sent: seq<Frame>, wire: seq<Frame>, pump: Pump, put: seq<Frame>) {
    && put <= sent
    && (pump.Receiving? || pump.Pushing? ==> put + Held(pump) + wire == sent)
  }

  /** What the relay loop has taken is on the wire, but for the frame whose send failed. */
  ghost predicate Linked(s: State) {
    && s.sent <= s.holder.taken
    && (!s.holder.mode.Left? ==> s.sent == s.holder.taken)
    && (!s.broken ==> !s.holder.mode.Left?)
  }

  /** A pump that left without a failure had everything, or had the terminal frame. */
  ghost predicate Complete(s: State) {
    (s.pump.Leaving? || s.pump.Gone?) && !s.broken ==>
      (s.user.put == s.sent && !Reading(s.holder)) || EndsFinal(s.user.put)
  }

  /** The requesting pod's done closes after the last frame was put. */
  ghost predicate DoneLast(s: State) {
    (s.user.done <==> s.pump.Gone?) && (s.pump.Gone? ==> s.user.early == s.user.put)
  }

  ghost predicate Inv(s: State) {
    && Taps.Reached(s.holder) && Taps.Reached(s.user)
    && Flow(s.sent, s.wire, s.pump, s.user.put)
    && Linked(s) && Complete(s) && DoneLast(s)
  }

  lemma FlowKeeps(s: State, step: Step)
    requires Flow(s.sent, s.wire, s.pump, s.user.put)
    ensures var t := Next(s, step); Flow(t.sent, t.wire, t.pump, t.user.put)
  {
  }

  lemma LinkedKeeps(s: State, step: Step)
    requires Linked(s)
    ensures Linked(Next(s, step))
  {
  }

  lemma CompleteKeeps(s: State, step: Step)
    requires Flow(s.sent, s.wire, s.pump, s.user.put) && Linked(s) && Complete(s)
    ensures Complete(Next(s, step))
  {
  }

  lemma DoneKeeps(s: State, step: Step)
    requires DoneLast(s)
    ensures DoneLast(Next(s, step))
  {
  }

  lemma ReachedKeeps(s: State, step: Step)
    requires Taps.Reached(s.holder) && Taps.Reached(s.user)
    ensures Taps.Reached(Next(s, step).holder) && Taps.Reached(Next(s, step).user)
  {
    forall tap, act | tap == s.holder || tap == s.user
      ensures Taps.Reached(Taps.Next(tap, act))
    {
      ReachedNext(tap, act);
    }
  }

  lemma Keeps(s: State, step: Step)
    requires Inv(s)
    ensures Inv(Next(s, step))
  {
    ReachedKeeps(s, step);
    FlowKeeps(s, step);
    LinkedKeeps(s, step);
    CompleteKeeps(s, step);
    DoneKeeps(s, step);
  }

  lemma StartInv()
    ensures Inv(START)
  {
    assert Play([]) == EMPTY;
  }

  lemma {:induction false} RunKeeps(steps: seq<Step>)
    ensures Inv(Run(steps))
  {
    if steps == [] {
      StartInv();
    } else {
      RunKeeps(steps[..|steps| - 1]);
      Keeps(Run(steps[..|steps| - 1]), steps[|steps| - 1]);
    }
  }

  /** What the invariant says about the frames handed to onFrame on the requesting pod. */
  lemma PrefixIn(s: State)
    requires Inv(s)
    ensures s.user.taken <= s.holder.taken <= s.holder.put
    ensures Streams.NoFinal(ButLast(s.user.taken)) && (s.user.mode.Finished? ==> EndsFinal(s.user.taken))
  {
    ReadsInOrder(s.holder);
    ReadsInOrder(s.user);
  }

  /**
   In every run the frames handed to onFrame on the requesting pod are a prefix of those the holding pod
   queued, with nothing after the first terminal frame; the consumer finishes only on that frame.
   */
  lemma RelayedPrefix(steps: seq<Step>)
    ensures var s := Run(steps);
            && s.user.taken <= s.holder.put
            && Streams.NoFinal(ButLast(s.user.taken))
            && (s.user.mode.Finished? ==> EndsFinal(s.user.taken))
  {
    RunKeeps(steps);
    PrefixIn(Run(steps));
  }

  /**
   An abort is never false: when nothing between the pods failed, an abort on the requesting pod means
   that the agent disconnected and that no terminal frame had been queued by then, and every frame that
   had been was handed on.
   */
  lemma AbortIsTrue(steps: seq<Step>)
    requires Run(steps).user.mode.Aborted? && !Run(steps).broken
    ensures var s := Run(steps); s.holder.done && Streams.NoFinal(s.holder.early) && s.holder.early <= s.user.taken
  {
    RunKeeps(steps);
    AbortIn(Run(steps));
  }

  lemma AbortIn(s: State)
    requires Inv(s) && s.user.mode.Aborted? && !s.broken
    ensures s.holder.done && Streams.NoFinal(s.holder.early) && s.holder.early <= s.user.taken
  {
    ReadsInOrder(s.holder);
    ReadsInOrder(s.user);
    assert s.user.taken == s.user.put;
    assert s.user.put == s.holder.taken;
  }

  /** Nor does a failure between the pods hide a terminal frame that has arrived: it is handed on before any abort. */
  lemma ArrivedFinalWins(steps: seq<Step>)
    ensures Run(steps).user.mode.Aborted? ==> Streams.NoFinal(Run(steps).user.put)
  {
    RunKeeps(steps);
    ReadsInOrder(Run(steps).user);
  }
}
