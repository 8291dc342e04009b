/**
 The relay hop (`SpliceStream` in pkg/tunnel/splice.go). Each direction is one goroutine running
 `spliceStreamDirection`; the two directions share nothing but the send locks, so a direction is
 modelled on its own, once as the loop it is and once as the step machine the whole pipe is built of.
 */
module Relays {
  import opened Frames
  import opened Scripts

  /** What the relay passes on for one frame of a flowing direction. */
  function Pass(f: Frame): seq<Frame> {
    if f.kind == DATA then [DataFrame(f.data)] else if f.kind == HALF_CLOSE then [Bare(HALF_CLOSE)] else []
  }

  /** What the relay passes on of a direction, before any RESET of its own. */
  ghost function Trunk(frames: seq<Frame>): seq<Frame> {
    if frames == [] then []
    else
      var init := frames[..|frames| - 1];
      Trunk(init) + if Of(init).live then Pass(frames[|frames| - 1]) else []
  }

  /** DATA, OPEN and READY frames followed by a single HALF_CLOSE: the one well-formed direction. */
  ghost predicate Clean(frames: seq<Frame>) {
    frames != [] && Of(frames[..|frames| - 1]).live && frames[|frames| - 1].kind == HALF_CLOSE
  }

  /** What a direction sends when no send fails: the reference definition of the relay. */
  ghost function Relayed(source: seq<Frame>, eof: bool): seq<Frame> {
    Trunk(source) + if Clean(source) && eof then [] else [Bare(RESET)]
  }

  ghost predicate AllData(frames: seq<Frame>) {
    forall i | 0 <= i < |frames| :: frames[i] == DataFrame(frames[i].data)
  }

  ghost predicate EndsWith(frames: seq<Frame>, f: Frame) {
    frames != [] && frames[|frames| - 1] == f
  }

  ghost predicate DataThenClose(frames: seq<Frame>) {
    AllData(frames) || (EndsWith(frames, Bare(HALF_CLOSE)) && AllData(frames[..|frames| - 1]))
  }

  /** DATA* followed by an optional HALF_CLOSE and then an optional RESET. */
  ghost predicate NormalForm(out: seq<Frame>) {
    DataThenClose(out) || (EndsWith(out, Bare(RESET)) && DataThenClose(out[..|out| - 1]))
  }

  lemma TrunkAppend(frames: seq<Frame>, f: Frame)
    ensures Trunk(frames + [f]) == Trunk(frames) + if Of(frames).live then Pass(f) else []
    ensures Clean(frames + [f]) <==> Of(frames).live && f.kind == HALF_CLOSE
    ensures Of(frames + [f]) == Carry(Of(frames), f)
    ensures Clean(frames) ==> Of(frames).closed
  {
  }

  lemma {:induction false} TrunkGrows(source: seq<Frame>, n: nat)
    requires n <= |source|
    ensures Trunk(source[..n]) <= Trunk(source)
    ensures !Of(source[..n]).live ==> Trunk(source[..n]) == Trunk(source)
    ensures !Of(source[..n]).live && (n < |source| || !Clean(source[..n])) ==> !Clean(source)
    decreases |source| - n
  {
    if n == |source| {
      assert source[..n] == source;
    } else {
      assert source[..n + 1] == source[..n] + [source[n]];
      TrunkAppend(source[..n], source[n]);
      TrunkGrows(source, n + 1);
    }
  }

  /** A direction that has ended without being clean is answered with a RESET, whatever follows. */
  lemma Stopped(source: seq<Frame>, n: nat, eof: bool, out: seq<Frame>, budget: nat)
    requires n <= |source| && Broken(source[..n], out) && |out| <= budget
    ensures First(Relayed(source, eof), budget) == SendReset(out, budget)
    ensures !Clean(source)
  {
    TrunkGrows(source, n);
    ResetLast(Trunk(source), budget);
  }

  lemma ResetLast(trunk: seq<Frame>, budget: nat)
    requires |trunk| <= budget
    ensures First(trunk + [Bare(RESET)], budget) == SendReset(trunk, budget)
  {
  }

  /** A send that fails leaves a proper prefix of what should have been sent. */
  lemma CutShort(source: seq<Frame>, n: nat, eof: bool, out: seq<Frame>)
    requires n <= |source| && out < Trunk(source[..n])
    ensures First(Relayed(source, eof), |out|) == out && |out| < |Relayed(source, eof)|
  {
    TrunkGrows(source, n);
  }

  /** The trunk carries exactly what its source carries, is in normal form, and is its own trunk. */
  ghost predicate Faithful(frames: seq<Frame>, trunk: seq<Frame>) {
    && Of(trunk) == Of(frames).(live := !Of(frames).closed)
    && Trunk(trunk) == trunk
    && (if Of(frames).closed then Clean(trunk) && DataThenClose(trunk) else AllData(trunk))
  }

  lemma FaithfulStep(frames: seq<Frame>, f: Frame, trunk: seq<Frame>)
    requires Faithful(frames, trunk) && Of(frames).live
    ensures Pass(f) != [] ==> Faithful(frames + [f], trunk + Pass(f))
    ensures Pass(f) == [] ==> Faithful(frames + [f], trunk)
  {
    OfAppend(frames, f);
    if f.kind == DATA {
      FaithfulData(frames, f, trunk);
    } else if f.kind == HALF_CLOSE {
      FaithfulClose(frames, f, trunk);
    }
  }

  lemma FaithfulData(frames: seq<Frame>, f: Frame, trunk: seq<Frame>)
    requires Faithful(frames, trunk) && Of(frames).live && f.kind == DATA
    ensures Faithful(frames + [f], trunk + [DataFrame(f.data)])
  {
    OfAppend(frames, f);
    TrunkAppend(trunk, DataFrame(f.data));
    assert AllData(trunk + [DataFrame(f.data)]);
  }

  lemma FaithfulClose(frames: seq<Frame>, f: Frame, trunk: seq<Frame>)
    requires Faithful(frames, trunk) && Of(frames).live && f.kind == HALF_CLOSE
    ensures Faithful(frames + [f], trunk + [Bare(HALF_CLOSE)])
  {
    OfAppend(frames, f);
    TrunkAppend(trunk, Bare(HALF_CLOSE));
    assert (trunk + [Bare(HALF_CLOSE)])[..|trunk|] == trunk;
  }

  lemma {:induction false} TrunkFaithful(frames: seq<Frame>)
    ensures Faithful(frames, Trunk(frames))
  {
    if frames != [] {
      var init, last := frames[..|frames| - 1], frames[|frames| - 1];
      assert frames == init + [last];
      TrunkFaithful(init);
      if Of(init).live {
        FaithfulStep(init, last, Trunk(init));
      } else {
        OfAppend(init, last);
      }
      assert Trunk(init) + [] == Trunk(init);
    }
  }

  /** Whatever the source and however many of the sends succeed, the output is in normal form. */
  lemma SendsNormalForm(source: seq<Frame>, eof: bool, n: nat)
    requires n <= |Relayed(source, eof)|
    ensures NormalForm(Relayed(source, eof)[..n])
  {
    TrunkFaithful(source);
    var trunk := Trunk(source);
    assert Relayed(source, eof) == trunk || Relayed(source, eof)[..|trunk|] == trunk;
    NormalFormPrefix(Relayed(source, eof), n);
  }

  lemma NormalFormPrefix(out: seq<Frame>, n: nat)
    requires NormalForm(out) && n <= |out|
    ensures NormalForm(out[..n])
  {
    if n == |out| {
      assert out[..n] == out;
    } else if n == |out| - 1 && !DataThenClose(out) {
      assert DataThenClose(out[..n]);
    } else {
      assert AllData(out[..n]);
    }
  }

  /** A relay carries exactly the bytes and the clean end of its source. */
  lemma RelayedTranscript(source: seq<Frame>, eof: bool)
    ensures Of(Relayed(source, eof)).bytes == Of(source).bytes
    ensures Of(Relayed(source, eof)).closed == Of(source).closed
  {
    TrunkFaithful(source);
    OfAppend(Trunk(source), Bare(RESET));
    assert Trunk(source) + [] == Trunk(source);
  }

  /**
   Relaying a relayed direction again changes nothing, except that a cleanly closed direction
   must also end its second stream with io.EOF: otherwise the second relay adds a RESET.
   */
  lemma RelayTwice(source: seq<Frame>, eof: bool, eof2: bool)
    ensures Relayed(Relayed(source, eof), eof2) == Relayed(source, eof) <==> eof2 || !(Clean(source) && eof)
  {
    var trunk := Trunk(source);
    TrunkFaithful(source);
    TrunkAppend(source, Bare(RESET));
    if Clean(source) && eof {
      assert Relayed(source, eof) == trunk;
      assert Trunk(trunk) == trunk && Clean(trunk);
      assert |Relayed(trunk, eof2)| == |trunk| + if eof2 then 0 else 1;
    } else {
      assert Relayed(source, eof) == trunk + [Bare(RESET)];
      TrunkAppend(trunk, Bare(RESET));
      assert Trunk(trunk + [Bare(RESET)]) == trunk;
    }
  }

  /** Where the loop stands after the frames received so far: it has passed on all it should. */
  ghost predicate Flowing(received: seq<Frame>, halfClosed: bool, out: seq<Frame>) {
    (halfClosed <==> Clean(received)) && (halfClosed || Of(received).live) && out == Trunk(received)
  }

  /** The frames received call for a RESET. */
  ghost predicate Broken(received: seq<Frame>, out: seq<Frame>) {
    !Of(received).live && !Clean(received) && out == Trunk(received)
  }

  lemma FlowingNext(received: seq<Frame>, halfClosed: bool, out: seq<Frame>, f: Frame)
    requires Flowing(received, halfClosed, out)
    ensures halfClosed || f.kind == RESET || f.kind.OTHER? ==> Broken(received + [f], out)
    ensures !halfClosed && (f.kind == OPEN || f.kind == READY) ==> Flowing(received + [f], false, out)
    ensures !halfClosed && f.kind == DATA ==> Flowing(received + [f], false, out + [DataFrame(f.data)])
    ensures !halfClosed && f.kind == HALF_CLOSE ==> Flowing(received + [f], true, out + [Bare(HALF_CLOSE)])
  {
    TrunkAppend(received, f);
    assert out + [] == out;
  }

  /**
   `spliceStreamDirection` with `sendReset`. The source stream yields `source` and then fails with
   io.EOF (`eof`) or with another error; the first `budget` sends succeed and the next one fails,
   which determines the run because every failed send ends it.
   */
  method SpliceStreamDirection(source: seq<Frame>, eof: bool, budget: nat) returns (out: seq<Frame>, ok: bool)
    ensures out == First(Relayed(source, eof), budget)
    ensures ok <==> Clean(source) && eof && |Relayed(source, eof)| <= budget
  {
    out, ok := [], false;
    var halfClosed, i := false, 0;
    while i < |source|
      invariant i <= |source|
      invariant Flowing(source[..i], halfClosed, out)
      invariant |out| <= budget
    {
      var frame := source[i];
      assert source[..i + 1] == source[..i] + [frame];
      FlowingNext(source[..i], halfClosed, out, frame);
      i := i + 1;
      if halfClosed && frame.kind != RESET {
        Stopped(source, i, eof, out, budget);
        out := SendReset(out, budget);
        return;
      }
      match frame.kind {
        case DATA =>
          if |out| == budget { CutShort(source, i, eof, out); return; }
          out := out + [DataFrame(frame.data)];
        case HALF_CLOSE =>
          if |out| == budget { CutShort(source, i, eof, out); return; }
          out := out + [Bare(HALF_CLOSE)];
          halfClosed := true;
        case RESET =>
          Stopped(source, i, eof, out, budget);
          out := SendReset(out, budget);
          return;
        case OPEN =>
        case READY =>
        case OTHER(_) =>
          Stopped(source, i, eof, out, budget);
          out := SendReset(out, budget);
          return;
      }
    }
    assert source[..i] == source;
    if halfClosed && eof {
      assert Relayed(source, eof) == out;
      ok := true;
    } else {
      ResetLast(out, budget);
      out := SendReset(out, budget);
    }
  }

  function SendReset(out: seq<Frame>, budget: nat): seq<Frame> {
    if |out| < budget then out + [Bare(RESET)] else out
  }

  // The same direction as a step machine: one step per stream receive or send.

  datatype RelayPc = Receiving(halfClosed: bool) | Forwarding(frame: Frame) | Ended(ok: bool)

  datatype Relay = Relay(pc: RelayPc, received: seq<Frame>, sent: seq<Frame>)

  datatype RelayAct = Take(frame: Frame) | TakeError(eof: bool) | Put(ok: bool)

  const IdleRelay := Relay(Receiving(false), [], [])

  function OnTake(halfClosed: bool, f: Frame): RelayPc {
    if halfClosed then Forwarding(Bare(RESET))
    else match f.kind
      case DATA => Forwarding(DataFrame(f.data))
      case HALF_CLOSE => Forwarding(Bare(HALF_CLOSE))
      case RESET => Forwarding(Bare(RESET))
      case OPEN => Receiving(false)
      case READY => Receiving(false)
      case OTHER(_) => Forwarding(Bare(RESET))
  }

  function OnPut(f: Frame): RelayPc {
    if f.kind == DATA then Receiving(false) else if f.kind == HALF_CLOSE then Receiving(true) else Ended(false)
  }

  /** A step that is not enabled leaves the relay unchanged. */
  function RelayNext(r: Relay, act: RelayAct): Relay {
    match (act, r.pc)
    case (Take(f), Receiving(halfClosed)) => r.(received := r.received + [f], pc := OnTake(halfClosed, f))
    case (TakeError(eof), Receiving(halfClosed)) =>
      r.(pc := if halfClosed && eof then Ended(true) else Forwarding(Bare(RESET)))
    case (Put(ok), Forwarding(f)) =>
      if ok then r.(sent := r.sent + [f], pc := OnPut(f)) else r.(pc := Ended(false))
    case _ => r
  }

  /** At every moment the relay has sent what the reference definition sends for the frames taken so far. */
  ghost predicate RelayInv(r: Relay) {
    match r.pc
    case Receiving(halfClosed) => Flowing(r.received, halfClosed, r.sent)
    case Forwarding(f) =>
      if f == Bare(RESET) then r.sent == Trunk(r.received)
      else (f.kind == DATA || f.kind == HALF_CLOSE) && Flowing(r.received, f.kind == HALF_CLOSE, r.sent + [f])
    case Ended(ok) => r.sent <= Relayed(r.received, false) && (ok ==> Clean(r.received) && r.sent == Trunk(r.received))
  }

  lemma TakeKeeps(r: Relay, f: Frame)
    requires RelayInv(r) && r.pc.Receiving?
    ensures RelayInv(RelayNext(r, Take(f)))
  {
    FlowingNext(r.received, r.pc.halfClosed, r.sent, f);
  }

  lemma PutKeeps(r: Relay, ok: bool)
    requires RelayInv(r) && r.pc.Forwarding?
    ensures RelayInv(RelayNext(r, Put(ok)))
  {
    assert r.sent <= r.sent + [r.pc.frame];
  }

  lemma RelayKeeps(r: Relay, act: RelayAct)
    requires RelayInv(r)
    ensures RelayInv(RelayNext(r, act))
    ensures r.received <= RelayNext(r, act).received && r.sent <= RelayNext(r, act).sent
  {
    match (act, r.pc)
    case (Take(f), Receiving(_)) => TakeKeeps(r, f);
    case (Put(ok), Forwarding(_)) => PutKeeps(r, ok);
    case _ =>
  }

  /** The hop theorem: whatever a relay has sent carries what it has taken, and is in normal form. */
  lemma RelayCarries(r: Relay)
    requires RelayInv(r)
    ensures Carries(Of(r.received), Of(r.sent))
    ensures NormalForm(r.sent)
  {
    var all := Relayed(r.received, false);
    assert r.sent <= all;
    RelayedTranscript(r.received, false);
    SendsNormalForm(r.received, false, |r.sent|);
    assert all[..|r.sent|] == r.sent;
    PrefixCarries(all, |r.sent|);
  }
}
