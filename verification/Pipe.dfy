/**
 The whole byte pipe: two splice endpoints joined by any number of relay hops. Every stream is a
 FIFO queue whose receiver may at any moment get an error instead of the next frame; every send,
 socket read, socket write and close may fail. A run is any sequence of steps of the workers.
 */
module Pipes {
  import opened Frames
  import R = Relays
  import E = Endpoints

  /** `forth` lists the relays' near-to-far directions in order, `back` the far-to-near ones. */
  datatype Pipe = Pipe(near: E.Endpoint, far: E.Endpoint, forth: seq<R.Relay>, back: seq<R.Relay>)

  datatype Step =
    | Near(act: E.Act)
    | Far(act: E.Act)
    | Forth(hop: nat, relayAct: R.RelayAct)
    | Back(hop: nat, relayAct: R.RelayAct)

  function Start(hops: nat): Pipe {
    Pipe(E.Fresh, E.Fresh, seq(hops, _ => R.IdleRelay), seq(hops, _ => R.IdleRelay))
  }

  /** Everything sent on the stream that hop number `hop` of a lane receives from. */
  function Upstream(source: seq<Frame>, lane: seq<R.Relay>, hop: nat): seq<Frame>
    requires hop <= |lane|
  {
    if hop == 0 then source else lane[hop - 1].sent
  }

  /** A receive takes the next frame of the stream; everything else is always possible. */
  predicate InOrder(act: E.Act, e: E.Endpoint, wire: seq<Frame>) {
    act.Receive? ==> |e.down.received| < |wire| && act.frame == wire[|e.down.received|]
  }

  predicate RelayInOrder(act: R.RelayAct, r: R.Relay, wire: seq<Frame>) {
    act.Take? ==> |r.received| < |wire| && act.frame == wire[|r.received|]
  }

  function LaneNext(source: seq<Frame>, lane: seq<R.Relay>, hop: nat, act: R.RelayAct): seq<R.Relay> {
    if hop < |lane| && RelayInOrder(act, lane[hop], Upstream(source, lane, hop))
    then lane[hop := R.RelayNext(lane[hop], act)] else lane
  }

  function EndNext(e: E.Endpoint, act: E.Act, source: seq<Frame>, lane: seq<R.Relay>): E.Endpoint {
    if InOrder(act, e, Upstream(source, lane, |lane|)) then E.Next(e, act) else e
  }

  function Next(p: Pipe, step: Step): Pipe {
    match step
    case Near(act) => p.(near := EndNext(p.near, act, p.far.sent, p.back))
    case Far(act) => p.(far := EndNext(p.far, act, p.near.sent, p.forth))
    case Forth(hop, act) => p.(forth := LaneNext(p.near.sent, p.forth, hop, act))
    case Back(hop, act) => p.(back := LaneNext(p.far.sent, p.back, hop, act))
  }

  ghost function Run(hops: nat, steps: seq<Step>): Pipe {
    if steps == [] then Start(hops) else Next(Run(hops, steps[..|steps| - 1]), steps[|steps| - 1])
  }

  // Every receiver holds a prefix of what its stream was sent.

  ghost predicate HopWired(source: seq<Frame>, lane: seq<R.Relay>, hop: nat)
    requires hop < |lane|
  {
    lane[hop].received <= Upstream(source, lane, hop)
  }

  ghost predicate Wired(source: seq<Frame>, lane: seq<R.Relay>, taken: seq<Frame>) {
    && (forall i: nat | i < |lane| :: HopWired(source, lane, i))
    && taken <= Upstream(source, lane, |lane|)
  }

  ghost predicate LaneInv(source: seq<Frame>, lane: seq<R.Relay>, taken: seq<Frame>) {
    Wired(source, lane, taken) && forall i | 0 <= i < |lane| :: R.RelayInv(lane[i])
  }

  ghost predicate Inv(p: Pipe) {
    && E.Inv(p.near) && E.Inv(p.far)
    && LaneInv(p.near.sent, p.forth, p.far.down.received)
    && LaneInv(p.far.sent, p.back, p.near.down.received)
  }

  /** A relay that took only what its stream had, and sent only more than before, leaves the lane wired. */
  lemma StillWired(source: seq<Frame>, lane: seq<R.Relay>, taken: seq<Frame>, hop: nat, r: R.Relay)
    requires Wired(source, lane, taken) && hop < |lane|
    requires r.received <= Upstream(source, lane, hop) && lane[hop].sent <= r.sent
    ensures Wired(source, lane[hop := r], taken)
  {
    var lane' := lane[hop := r];
    assert forall i: nat | i <= |lane| :: Upstream(source, lane, i) <= Upstream(source, lane', i);
    forall i: nat | i < |lane| ensures HopWired(source, lane', i) {
      assert HopWired(source, lane, i);
    }
  }

  lemma RelayTakesInOrder(r: R.Relay, act: R.RelayAct, wire: seq<Frame>)
    requires r.received <= wire && RelayInOrder(act, r, wire)
    ensures R.RelayNext(r, act).received <= wire && r.sent <= R.RelayNext(r, act).sent
  {
  }

  lemma EndTakesInOrder(e: E.Endpoint, act: E.Act, wire: seq<Frame>)
    requires e.down.received <= wire && InOrder(act, e, wire)
    ensures E.Next(e, act).down.received <= wire && e.sent <= E.Next(e, act).sent
  {
  }

  lemma LaneKeeps(source: seq<Frame>, lane: seq<R.Relay>, taken: seq<Frame>, hop: nat, act: R.RelayAct)
    requires LaneInv(source, lane, taken)
    ensures LaneInv(source, LaneNext(source, lane, hop, act), taken)
  {
    if hop < |lane| && RelayInOrder(act, lane[hop], Upstream(source, lane, hop)) {
      var r := R.RelayNext(lane[hop], act);
      assert HopWired(source, lane, hop);
      RelayTakesInOrder(lane[hop], act, Upstream(source, lane, hop));
      StillWired(source, lane, taken, hop, r);
      R.RelayKeeps(lane[hop], act);
    }
  }

  lemma SourceGrows(source: seq<Frame>, source': seq<Frame>, lane: seq<R.Relay>, taken: seq<Frame>)
    requires Wired(source, lane, taken) && source <= source'
    ensures Wired(source', lane, taken)
  {
    forall i: nat | i < |lane| ensures HopWired(source', lane, i) {
      assert HopWired(source, lane, i);
    }
  }

  lemma EndKeeps(e: E.Endpoint, act: E.Act, source: seq<Frame>, lane: seq<R.Relay>)
    requires E.Inv(e) && Wired(source, lane, e.down.received)
    ensures E.Inv(EndNext(e, act, source, lane))
    ensures Wired(source, lane, EndNext(e, act, source, lane).down.received)
    ensures e.sent <= EndNext(e, act, source, lane).sent
  {
    var wire := Upstream(source, lane, |lane|);
    if InOrder(act, e, wire) {
      E.Keeps(e, act);
      EndTakesInOrder(e, act, wire);
    }
  }

  lemma Keeps(p: Pipe, step: Step)
    requires Inv(p)
    ensures Inv(Next(p, step))
  {
    match step
    case Near(act) =>
      EndKeeps(p.near, act, p.far.sent, p.back);
      SourceGrows(p.near.sent, EndNext(p.near, act, p.far.sent, p.back).sent, p.forth, p.far.down.received);
    case Far(act) =>
      EndKeeps(p.far, act, p.near.sent, p.forth);
      SourceGrows(p.far.sent, EndNext(p.far, act, p.near.sent, p.forth).sent, p.back, p.near.down.received);
    case Forth(hop, act) => LaneKeeps(p.near.sent, p.forth, p.far.down.received, hop, act);
    case Back(hop, act) => LaneKeeps(p.far.sent, p.back, p.near.down.received, hop, act);
  }

  lemma {:induction false} RunKeeps(hops: nat, steps: seq<Step>)
    ensures Inv(Run(hops, steps))
  {
    if steps != [] {
      RunKeeps(hops, steps[..|steps| - 1]);
      Keeps(Run(hops, steps[..|steps| - 1]), steps[|steps| - 1]);
    }
  }

  ghost predicate HopCarries(source: seq<Frame>, lane: seq<R.Relay>, hop: nat)
    requires hop < |lane|
  {
    Carries(Of(Upstream(source, lane, hop)), Of(Upstream(source, lane, hop + 1)))
  }

  lemma EveryHopCarries(source: seq<Frame>, lane: seq<R.Relay>, taken: seq<Frame>, hop: nat)
    requires LaneInv(source, lane, taken) && hop < |lane|
    ensures HopCarries(source, lane, hop)
  {
    var wire, relay := Upstream(source, lane, hop), lane[hop];
    assert HopWired(source, lane, hop);
    assert wire[..|relay.received|] == relay.received;
    PrefixCarries(wire, |relay.received|);
    R.RelayCarries(relay);
    CarriesTransitive(Of(wire), Of(relay.received), Of(relay.sent));
  }

  /** Along a lane, what every stream was sent carries what the source sent. */
  lemma {:induction false} LaneCarries(source: seq<Frame>, lane: seq<R.Relay>, hop: nat)
    requires hop <= |lane|
    requires forall i: nat | i < |lane| :: HopCarries(source, lane, i)
    ensures Carries(Of(source), Of(Upstream(source, lane, hop)))
  {
    if hop > 0 {
      LaneCarries(source, lane, hop - 1);
      assert HopCarries(source, lane, hop - 1);
      CarriesTransitive(Of(source), Of(Upstream(source, lane, hop - 1)), Of(Upstream(source, lane, hop)));
    }
  }

  /** What the reading end has read and the writing end has written, in one direction. */
  ghost predicate ByteExact(from: E.Endpoint, to: E.Endpoint) {
    && to.down.written <= from.up.read
    && (to.down.writeClosed ==> from.up.eof && to.down.written == from.up.read)
  }

  lemma DirectionExact(from: E.Endpoint, to: E.Endpoint, lane: seq<R.Relay>)
    requires E.Inv(from) && E.Inv(to) && LaneInv(from.sent, lane, to.down.received)
    ensures ByteExact(from, to)
  {
    var wire, taken := Upstream(from.sent, lane, |lane|), to.down.received;
    forall hop: nat | hop < |lane| ensures HopCarries(from.sent, lane, hop) {
      EveryHopCarries(from.sent, lane, taken, hop);
    }
    LaneCarries(from.sent, lane, |lane|);
    assert wire[..|taken|] == taken;
    PrefixCarries(wire, |taken|);
    CarriesTransitive(Of(from.sent), Of(wire), Of(taken));
  }

  /**
   End to end, for every number of relay hops, every interleaving and every failure: the bytes
   written to one socket are a prefix of the bytes read from the other, and once the write side is
   closed they are all the bytes the other end read before its EOF. Each socket is still closed at
   most once, and aborted exactly when a worker of its endpoint failed.
   */
  lemma EndToEnd(hops: nat, steps: seq<Step>)
    ensures ByteExact(Run(hops, steps).near, Run(hops, steps).far)
    ensures ByteExact(Run(hops, steps).far, Run(hops, steps).near)
    ensures E.CloseInv(Run(hops, steps).near) && E.CloseInv(Run(hops, steps).far)
  {
    RunKeeps(hops, steps);
    var p := Run(hops, steps);
    DirectionExact(p.near, p.far, p.forth);
    DirectionExact(p.far, p.near, p.back);
  }
}
