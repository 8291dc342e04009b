/**
 A streaming request from the agent's frames to onFrame: one dispatch (module Streams) whose channel is read
 on the holding pod, by consumeStream itself or by the relay loop that serves another pod (modules Taps and
 PeerStreams). The channel is one object: a frame the receive loop puts into it is a frame its reader finds,
 and the done it selects on is the registration's.
 */
module Deliveries {
  import opened Frames
  import S = Streams
  import T = Taps
  import P = PeerStreams

  datatype State = State(stream: S.Stream, peer: P.State)

  /** A step of the dispatch, or of the readers. */
  datatype Step = Dispatch(act: S.Act) | Read(step: P.Step)

  function Start(reliable: bool): State {
    State(S.Fresh(reliable), P.START)
  }

  /** What a step of the dispatch does to the channel as its reader sees it. */
  function Seen(s: State, act: S.Act): P.State {
    var d := s.stream.dlv;
    if act.Enter? && d.inflight.Some? && |d.buffer| < S.CAPACITY then P.Next(s.peer, P.Queue(d.inflight.value))
    else if S.Next(s.stream, act).ctl.done then P.Next(s.peer, P.AgentGone)
    else s.peer
  }

  predicate Takes(s: State, step: P.Step) {
    step.Relay? && T.Reading(s.peer.holder) && s.peer.holder.buffer != []
  }

  function Next(s: State, step: Step): State {
    match step
    case Dispatch(act) => if act.Consume? then s else State(S.Next(s.stream, act), Seen(s, act))
    case Read(step) =>
      if step.Queue? || step.AgentGone? then s
      else State(if Takes(s, step) then S.Next(s.stream, S.Consume) else s.stream, P.Next(s.peer, step))
  }

  ghost function Run(reliable: bool, steps: seq<Step>): State {
    if steps == [] then Start(reliable) else Next(Run(reliable, steps[..|steps| - 1]), steps[|steps| - 1])
  }

  /** The dispatch and the reader see one channel. */
  ghost predicate Same(d: S.Delivery, done: bool, t: T.Tap) {
    t.put == d.entered && t.buffer == d.buffer && t.done == done
  }

  ghost predicate Inv(s: State) {
    S.Reached(s.stream) && P.Inv(s.peer) && Same(s.stream.dlv, s.stream.ctl.done, s.peer.holder)
  }

  lemma DispatchSame(s: State, act: S.Act)
    requires Same(s.stream.dlv, s.stream.ctl.done, s.peer.holder) && !act.Consume?
    ensures var t := Next(s, Dispatch(act)); Same(t.stream.dlv, t.stream.ctl.done, t.peer.holder)
  {
  }

  lemma ReadSame(s: State, step: P.Step)
    requires Same(s.stream.dlv, s.stream.ctl.done, s.peer.holder) && !step.Queue? && !step.AgentGone?
    ensures var t := Next(s, Read(step)); Same(t.stream.dlv, t.stream.ctl.done, t.peer.holder)
  {
    HolderNext(s.peer, step);
  }

  /** Only a relay step takes from the holding pod's channel, and none but the dispatch puts into it. */
  lemma HolderNext(p: P.State, step: P.Step)
    requires !step.Queue? && !step.AgentGone?
    ensures var h := P.Next(p, step).holder;
      && h.put == p.holder.put && h.done == p.holder.done
      && h.buffer == if step.Relay? && T.Reading(p.holder) && p.holder.buffer != [] then p.holder.buffer[1..] else p.holder.buffer
  {
  }

  lemma Keeps(s: State, step: Step)
    requires Inv(s)
    ensures Inv(Next(s, step))
  {
    match step
    case Dispatch(act) =>
      if !act.Consume? {
        S.ReachedNext(s.stream, act);
        P.Keeps(s.peer, P.AgentGone);
        if s.stream.dlv.inflight.Some? {
          P.Keeps(s.peer, P.Queue(s.stream.dlv.inflight.value));
        }
        DispatchSame(s, act);
      }
    case Read(step) =>
      if !step.Queue? && !step.AgentGone? {
        S.ReachedNext(s.stream, S.Consume);
        P.Keeps(s.peer, step);
        ReadSame(s, step);
      }
  }

  lemma StaysReliable(s: State, step: Step)
    ensures Next(s, step).stream.dlv.reliable == s.stream.dlv.reliable
  {
  }

  lemma StartInv(reliable: bool)
    ensures Inv(Start(reliable))
  {
    S.ReachedFresh(reliable);
    P.StartInv();
  }

  lemma {:induction false} RunKeeps(reliable: bool, steps: seq<Step>)
    ensures Inv(Run(reliable, steps)) && Run(reliable, steps).stream.dlv.reliable == reliable
  {
    if steps == [] {
      StartInv(reliable);
    } else {
      var s, step := Run(reliable, steps[..|steps| - 1]), steps[|steps| - 1];
      RunKeeps(reliable, steps[..|steps| - 1]);
      Keeps(s, step);
      StaysReliable(s, step);
    }
  }

  /** Dropping the end of a subsequence leaves a subsequence. */
  lemma {:induction false} SubsequencePrefix(a: seq<S.StreamFrame>, b: seq<S.StreamFrame>, n: nat)
    requires S.Subsequence(a, b) && n <= |a|
    ensures S.Subsequence(a[..n], b)
    decreases |b|
  {
    if n == |a| {
      assert a[..n] == a;
    } else if n > 0 {
      var b' := b[..|b| - 1];
      if S.Subsequence(a, b') {
        SubsequencePrefix(a, b', n);
      } else {
        SubsequencePrefix(a[..|a| - 1], b', n);
        assert a[..|a| - 1][..n] == a[..n];
      }
    }
  }

  /** What has been handed on, to a local consumer or across the peer hop, of what the agent sent. */
  ghost predicate HandedOn(reliable: bool, handed: seq<S.StreamFrame>, offered: seq<S.StreamFrame>) {
    && (reliable ==> handed <= offered)
    && S.Subsequence(handed, offered)
    && S.NoFinal(T.ButLast(handed))
  }

  /**
   From the agent to onFrame, in every run: what is handed on, by a reader on the holding pod and by
   consumeStream on the requesting pod, is a prefix of the agent's frames for a reliable method and a
   subsequence for an advisory one, with nothing after the first terminal frame.
   */
  lemma AgentToConsumer(reliable: bool, steps: seq<Step>)
    ensures var s := Run(reliable, steps);
      && HandedOn(reliable, s.peer.holder.taken, s.stream.dlv.offered)
      && HandedOn(reliable, s.peer.user.taken, s.stream.dlv.offered)
      && s.peer.user.taken <= s.peer.holder.taken
  {
    RunKeeps(reliable, steps);
    var s := Run(reliable, steps);
    S.Delivers(s.stream);
    P.PrefixIn(s.peer);
    T.ReadsInOrder(s.peer.holder);
    var entered, local, remote := s.stream.dlv.entered, s.peer.holder.taken, s.peer.user.taken;
    assert local == entered[..|local|] && remote == entered[..|remote|];
    SubsequencePrefix(entered, s.stream.dlv.offered, |local|);
    SubsequencePrefix(entered, s.stream.dlv.offered, |remote|);
  }

  /**
   An abort is never false: without a failure between the pods, an abort on the requesting pod means that
   the registration's done was closed, by a cancel or by the loss of the Control stream, before a terminal
   frame had entered the channel.
   */
  lemma AbortMeansClosed(reliable: bool, steps: seq<Step>)
    requires var s := Run(reliable, steps); s.peer.user.mode.Aborted? && !s.peer.broken
    ensures var s := Run(reliable, steps); s.stream.ctl.done && S.NoFinal(s.peer.holder.early)
  {
    RunKeeps(reliable, steps);
    P.AbortIn(Run(reliable, steps).peer);
  }
}
