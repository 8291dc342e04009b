/**
 The two workers of `SpliceConn` (pkg/tunnel/splice.go) as the loops they are, each against a
 scripted socket and stream, with exact results. `ReaderRuns` and `WriterRuns` show that what each
 worker does is a run of the endpoint machine that the interleaved theorems are about.
 */
module Workers {
  import opened Frames
  import opened Scripts
  import opened Endpoints

  function DataFrames(data: seq<Byte>): seq<Frame> {
    if data == [] then [] else [DataFrame(data)]
  }

  /** The frames a sequence of reads becomes; a reader whose script runs out gets a read error. */
  function Framed(script: seq<ReadAnswer>): seq<Frame> {
    if script == [] then [Bare(RESET)]
    else DataFrames(script[0].data)
         + match script[0].end
           case More => Framed(script[1..])
           case Eof => [Bare(HALF_CLOSE)]
           case ReadError => [Bare(RESET)]
  }

  ghost function Rest(answer: ReadAnswer, script: seq<ReadAnswer>): seq<Frame> {
    match answer.end
    case More => Framed(script)
    case Eof => [Bare(HALF_CLOSE)]
    case ReadError => [Bare(RESET)]
  }

  /**
   `spliceConnToStream`. The first `budget` sends succeed and the next one fails; every failed send
   ends the worker, so this covers every behaviour of the stream.
   */
  method SpliceConnToStream(script: seq<ReadAnswer>, budget: nat) returns (sent: seq<Frame>, failed: bool)
    ensures sent == First(Framed(script), budget)
    ensures failed <==> !(ReachesEof(script) && |Framed(script)| <= budget)
  {
    ghost var all := Framed(script);
    sent, failed := [], true;
    var i := 0;
    while i < |script|
      invariant 0 <= i <= |script|
      invariant Left(all, sent, Framed(script[i..])) && |sent| <= budget
      invariant ReachesEof(script) <==> ReachesEof(script[i..])
    {
      var answer := script[i];
      ghost var rest := Rest(answer, script[i + 1..]);
      assert script[i..][1..] == script[i + 1..];
      LeftAfter(all, sent, DataFrames(answer.data), rest);
      if answer.data != [] {
        if |sent| == budget {
          LeftOver(all, sent, [DataFrame(answer.data)] + rest, budget);
          return;
        }
        sent := sent + [DataFrame(answer.data)];
      } else {
        assert sent + [] == sent;
      }
      i := i + 1;
      match answer.end {
        case More =>
        case Eof =>
          if |sent| < budget {
            sent, failed := sent + [Bare(HALF_CLOSE)], false;
            LeftOver(all, sent, [], budget);
          } else {
            LeftOver(all, sent, rest, budget);
          }
          return;
        case ReadError =>
          if |sent| < budget {
            sent := sent + [Bare(RESET)];
            LeftOver(all, sent, [], budget);
          } else {
            LeftOver(all, sent, rest, budget);
          }
          return;
      }
    }
    if |sent| < budget {
      sent := sent + [Bare(RESET)];
      LeftOver(all, sent, [], budget);
    } else {
      LeftOver(all, sent, [Bare(RESET)], budget);
    }
  }

  // The writing worker.

  /** What the socket answers to its n-th write: how many of the offered bytes it takes, and whether it fails. */
  datatype WriteAnswer = WriteAnswer(takes: nat, ok: bool)

  ghost predicate Healthy(answers: nat -> WriteAnswer) {
    forall n: nat :: answers(n).takes > 0 && answers(n).ok
  }

  datatype WriteResult = WriteResult(took: nat, ok: bool, next: nat)

  /** Writing until nothing is left, a write fails, or one takes nothing; from the socket's n-th write on. */
  function WriteAll(data: seq<Byte>, answers: nat -> WriteAnswer, n: nat): (r: WriteResult)
    ensures r.took <= |data| && n <= r.next && (r.ok ==> r.took == |data|)
    decreases |data|
  {
    if data == [] then WriteResult(0, true, n)
    else
      var m := Min(answers(n).takes, |data|);
      if !answers(n).ok || m == 0 then WriteResult(m, false, n + 1)
      else
        var r := WriteAll(data[m..], answers, n + 1);
        WriteResult(m + r.took, r.ok, r.next)
  }

  lemma {:induction false} WriteAllHealthy(data: seq<Byte>, answers: nat -> WriteAnswer, n: nat)
    requires Healthy(answers)
    ensures WriteAll(data, answers, n).ok
    decreases |data|
  {
    if data != [] {
      WriteAllHealthy(data[Min(answers(n).takes, |data|)..], answers, n + 1);
    }
  }

  /** `writeFrameData`, starting at the socket's n-th write. */
  method WriteFrameData(data: seq<Byte>, answers: nat -> WriteAnswer, n: nat) returns (took: nat, ok: bool, n': nat)
    ensures WriteResult(took, ok, n') == WriteAll(data, answers, n)
    ensures ok <==> forall k | n <= k < n' :: answers(k).takes > 0 && answers(k).ok
  {
    took, ok, n' := 0, true, n;
    while took < |data|
      invariant took <= |data| && n <= n' && ok
      invariant forall k | n <= k < n' :: answers(k).takes > 0 && answers(k).ok
      invariant var r := WriteAll(data[took..], answers, n');
        WriteAll(data, answers, n) == WriteResult(took + r.took, r.ok, r.next)
      decreases |data| - took
    {
      var answer := answers(n');
      var m := Min(answer.takes, |data| - took);
      assert data[took..][m..] == data[took + m..];
      took, n' := took + m, n' + 1;
      if !answer.ok || m == 0 {
        ok := false;
        return;
      }
    }
  }

  /** How the writing worker ends: the write side closed, a RESET of its own, or only a failure. */
  datatype Ending = HalfClosed | SendsReset | OnlyFails

  datatype Outcome = Outcome(written: seq<Byte>, ending: Ending)

  function After(written: seq<Byte>, o: Outcome): Outcome {
    Outcome(written + o.written, o.ending)
  }

  /** What becomes of the frames: a failed write or close, an unknown frame and the end of the stream are answered with RESET. */
  function Delivered(frames: seq<Frame>, answers: nat -> WriteAnswer, n: nat, closeOk: bool): Outcome
    decreases |frames|
  {
    if frames == [] then Outcome([], SendsReset)
    else match frames[0].kind
      case DATA =>
        var r := WriteAll(frames[0].data, answers, n);
        if r.ok then After(frames[0].data, Delivered(frames[1..], answers, r.next, closeOk))
        else Outcome(frames[0].data[..r.took], SendsReset)
      case HALF_CLOSE => Outcome([], if closeOk then HalfClosed else SendsReset)
      case RESET => Outcome([], OnlyFails)
      case OPEN => Delivered(frames[1..], answers, n, closeOk)
      case READY => Delivered(frames[1..], answers, n, closeOk)
      case OTHER(_) => Outcome([], SendsReset)
  }

  lemma AfterAfter(a: seq<Byte>, b: seq<Byte>, o: Outcome)
    ensures After(a, After(b, o)) == After(a + b, o) && After([], o) == o
  {
  }

  /** `spliceStreamToConn`: the stream yields `frames` and then an error. */
  method SpliceStreamToConn(frames: seq<Frame>, answers: nat -> WriteAnswer, closeOk: bool)
    returns (written: seq<Byte>, ending: Ending)
    ensures Outcome(written, ending) == Delivered(frames, answers, 0, closeOk)
  {
    ghost var all := Delivered(frames, answers, 0, closeOk);
    written, ending := [], SendsReset;
    var i, n := 0, 0;
    AfterAfter([], [], all);
    assert frames[0..] == frames;
    while i < |frames|
      invariant 0 <= i <= |frames| && ending == SendsReset
      invariant all == After(written, Delivered(frames[i..], answers, n, closeOk))
    {
      var frame := frames[i];
      assert frames[i..][0] == frame && frames[i..][1..] == frames[i + 1..];
      i := i + 1;
      match frame.kind {
        case DATA =>
          var took, ok;
          took, ok, n := WriteFrameData(frame.data, answers, n);
          if !ok {
            written := written + frame.data[..took];
            return;
          }
          AfterAfter(written, frame.data, Delivered(frames[i..], answers, n, closeOk));
          assert frame.data[..took] == frame.data;
          written := written + frame.data[..took];
        case HALF_CLOSE =>
          AfterAfter(written, [], Outcome([], HalfClosed));
          ending := if closeOk then HalfClosed else SendsReset;
          return;
        case RESET =>
          ending := OnlyFails;
          return;
        case OPEN =>
        case READY =>
        case OTHER(_) =>
          return;
      }
    }
  }

  /** What the worker writes carries what the frames carry; on a healthy socket it is all of it. */
  lemma {:induction false} DeliveredCarries(frames: seq<Frame>, answers: nat -> WriteAnswer, n: nat, closeOk: bool)
    ensures var o := Delivered(frames, answers, n, closeOk);
      && o.written <= OfFront(frames).bytes
      && (o.ending == HalfClosed ==> OfFront(frames).closed && o.written == OfFront(frames).bytes)
      && (Healthy(answers) ==> o.written == OfFront(frames).bytes
                               && (o.ending == HalfClosed <==> OfFront(frames).closed && closeOk))
    decreases |frames|
  {
    if frames != [] {
      if frames[0].kind == DATA {
        var r := WriteAll(frames[0].data, answers, n);
        DeliveredCarries(frames[1..], answers, r.next, closeOk);
        if Healthy(answers) {
          WriteAllHealthy(frames[0].data, answers, n);
        }
      } else if frames[0].kind == OPEN || frames[0].kind == READY {
        DeliveredCarries(frames[1..], answers, n, closeOk);
      }
    }
  }

  /** The transcript of a stream, read from its first frame. */
  ghost function OfFront(frames: seq<Frame>): Transcript {
    if frames == [] then Transcript([], true, false)
    else match frames[0].kind
      case DATA => var t := OfFront(frames[1..]); t.(bytes := frames[0].data + t.bytes)
      case OPEN => OfFront(frames[1..])
      case READY => OfFront(frames[1..])
      case HALF_CLOSE => Transcript([], false, true)
      case _ => Transcript([], false, false)
  }

  lemma {:induction false} OfFrontSnoc(frames: seq<Frame>, f: Frame)
    ensures OfFront(frames + [f]) == Carry(OfFront(frames), f)
  {
    if frames == [] {
      assert [] + [f] == [f];
      assert [f][1..] == [];
      assert f.data + [] == f.data && [] + f.data == f.data;
    } else {
      assert (frames + [f])[0] == frames[0] && (frames + [f])[1..] == frames[1..] + [f];
      OfFrontSnoc(frames[1..], f);
      if frames[0].kind == DATA && f.kind == DATA {
        assert frames[0].data + (OfFront(frames[1..]).bytes + f.data) == (frames[0].data + OfFront(frames[1..]).bytes) + f.data;
      }
    }
  }

  /** Reading a stream from either end says the same. */
  lemma {:induction false} OfFrontIsOf(frames: seq<Frame>)
    ensures OfFront(frames) == Of(frames)
  {
    if frames != [] {
      var init, last := frames[..|frames| - 1], frames[|frames| - 1];
      OfFrontIsOf(init);
      OfFrontSnoc(init, last);
      assert frames == init + [last];
    }
  }

  /** `spliceStreamToConn` in terms of what the stream carries. */
  lemma WritesWhatIsCarried(frames: seq<Frame>, answers: nat -> WriteAnswer, closeOk: bool)
    ensures var o := Delivered(frames, answers, 0, closeOk);
      && Carries(Of(frames), Transcript(o.written, false, o.ending == HalfClosed))
      && (Healthy(answers) ==> o.written == Of(frames).bytes && (o.ending == HalfClosed <==> Of(frames).closed && closeOk))
  {
    DeliveredCarries(frames, answers, 0, closeOk);
    OfFrontIsOf(frames);
  }

  // The workers as runs of the endpoint machine.

  /** The bytes the reading worker reads before it ends. */
  function BytesRead(script: seq<ReadAnswer>, budget: nat): seq<Byte> {
    if script == [] then []
    else
      var head := |DataFrames(script[0].data)|;
      script[0].data + if script[0].end.More? && head <= budget then BytesRead(script[1..], budget - head) else []
  }

  /** The reading worker alone leads from e to e', having read `bytes` and sent `more`. */
  ghost predicate ReaderReaches(e: Endpoint, bytes: seq<Byte>, more: seq<Frame>, pc: Reader, e': Endpoint) {
    && Leads(e, e') && e'.up.pc == pc && e'.down == e.down
    && e'.up.read == e.up.read + bytes && e'.sent == e.sent + more
  }

  lemma ReachesOn(e: Endpoint, b1: seq<Byte>, head: seq<Frame>, e1: Endpoint, b2: seq<Byte>, more: seq<Frame>, e2: Endpoint)
    requires ReaderReaches(e, b1, head, e1.up.pc, e1) && ReaderReaches(e1, b2, more, e2.up.pc, e2)
    ensures ReaderReaches(e, b1 + b2, head + more, e2.up.pc, e2)
  {
    assert e.sent + (head + more) == (e.sent + head) + more;
    assert e.up.read + (b1 + b2) == (e.up.read + b1) + b2;
    LeadsTransitive(e, e1, e2);
  }

  lemma SendOrFail(e: Endpoint, ok: bool) returns (e': Endpoint)
    requires Pending(e.up.pc).Some?
    ensures ok ==> ReaderReaches(e, [], [Pending(e.up.pc).value],
                     if e.up.pc == ReaderSendingReset then ReaderDone(false) else UpNext(e.up, ReaderSend(true)).pc, e')
    ensures !ok ==> ReaderReaches(e, [], [], ReaderDone(false), e')
  {
    LeadsOne(e, ReaderSend(ok));
    e' := Next(e, ReaderSend(ok));
    assert e.sent + [] == e.sent && e.up.read + [] == e.up.read;
    if e'.up.pc == ReaderFailing {
      LeadsNext(e, e', ReaderFail);
      e' := Next(e', ReaderFail);
    }
  }

  lemma ReadAndSend(e: Endpoint, answer: ReadAnswer, ok: bool) returns (e': Endpoint)
    requires e.up.pc == Reading
    ensures ok || answer.data == [] ==> ReaderReaches(e, answer.data, DataFrames(answer.data), AfterRead(answer.end), e')
    ensures !ok && answer.data != [] ==> ReaderReaches(e, answer.data, [], ReaderDone(false), e')
  {
    LeadsOne(e, Read(answer.data, answer.end));
    var e1 := Next(e, Read(answer.data, answer.end));
    e' := e1;
    assert e.sent + [] == e.sent;
    if answer.data != [] {
      e' := SendOrFail(e1, ok);
      ReachesOn(e, answer.data, [], e1, [], if ok then DataFrames(answer.data) else [], e');
      assert [] + DataFrames(answer.data) == DataFrames(answer.data) && answer.data + [] == answer.data;
    }
  }

  /** The answer the reader gets next. */
  function Answer(script: seq<ReadAnswer>): ReadAnswer {
    if script == [] then ReadAnswer([], ReadError) else script[0]
  }

  lemma FirstCons(head: seq<Frame>, tail: seq<Frame>, budget: nat)
    requires |head| <= budget
    ensures First(head + tail, budget) == head + First(tail, budget - |head|)
  {
  }

  /** The reading loop, from any endpoint about to read, is a run of the machine: what it reads, sends and ends in. */
  lemma {:induction false} ReaderRuns(script: seq<ReadAnswer>, budget: nat, e: Endpoint) returns (e': Endpoint)
    requires e.up.pc == Reading
    ensures ReaderReaches(e, BytesRead(script, budget), First(Framed(script), budget),
                          ReaderDone(ReachesEof(script) && |Framed(script)| <= budget), e')
  {
    var answer := Answer(script);
    var head, tail := DataFrames(answer.data), Rest(answer, if script == [] then [] else script[1..]);
    assert Framed(script) == head + tail;
    var e1 := ReadAndSend(e, answer, budget > 0);
    if |head| > budget {
      assert answer.data + [] == answer.data;
      return e1;
    }
    var more := First(tail, budget - |head|);
    var bytes := if answer.end == More then BytesRead(script[1..], budget - |head|) else [];
    FirstCons(head, tail, budget);
    if answer.end == More {
      e' := ReaderRuns(script[1..], budget - |head|, e1);
    } else {
      e' := SendOrFail(e1, |head| < budget);
      assert more == if |head| < budget then tail else [];
    }
    ReachesOn(e, answer.data, head, e1, bytes, more, e');
    assert BytesRead(script, budget) == answer.data + bytes;
  }

  /** The writing worker alone leads from e to e', having written `bytes` and sent `more`. */
  ghost predicate WriterReaches(e: Endpoint, bytes: seq<Byte>, more: seq<Frame>, pc: Writer, e': Endpoint) {
    && Leads(e, e') && e'.down.pc == pc && e'.up == e.up
    && e'.down.written == e.down.written + bytes && e'.sent == e.sent + more
  }

  lemma WritesOn(e: Endpoint, b1: seq<Byte>, e1: Endpoint, b2: seq<Byte>, more: seq<Frame>, e2: Endpoint)
    requires WriterReaches(e, b1, [], e1.down.pc, e1) && WriterReaches(e1, b2, more, e2.down.pc, e2)
    ensures WriterReaches(e, b1 + b2, more, e2.down.pc, e2)
  {
    assert e.sent + [] == e.sent;
    assert e.down.written + (b1 + b2) == (e.down.written + b1) + b2;
    LeadsTransitive(e, e1, e2);
  }

  /** The RESET of a worker whose send works or not. */
  function Reset(ok: bool): seq<Frame> {
    if ok then [Bare(RESET)] else []
  }

  lemma ResetAndFail(e: Endpoint, ok: bool) returns (e': Endpoint)
    requires e.down.pc == WriterSendingReset
    ensures WriterReaches(e, [], Reset(ok), WriterDone(false), e')
  {
    LeadsOne(e, WriterSend(ok));
    var e1 := Next(e, WriterSend(ok));
    LeadsNext(e, e1, WriterFail);
    e' := Next(e1, WriterFail);
    assert e.down.written + [] == e.down.written && e.sent + [] == e.sent;
  }

  /** `writeFrameData` as steps of the machine. */
  lemma {:induction false} WriteRuns(answers: nat -> WriteAnswer, n: nat, e: Endpoint) returns (e': Endpoint)
    requires e.down.pc.Writing? && e.down.pc.rest != []
    ensures var data := e.down.pc.rest;
      var r := WriteAll(data, answers, n);
      WriterReaches(e, data[..r.took], [], if r.ok then Waiting else WriterSendingReset, e')
    decreases |e.down.pc.rest|
  {
    var data := e.down.pc.rest;
    var m, ok := Min(answers(n).takes, |data|), answers(n).ok;
    LeadsOne(e, Write(m, ok));
    var e1 := Next(e, Write(m, ok));
    assert e.sent + [] == e.sent;
    if !ok || m == 0 || m == |data| {
      assert m == |data| ==> data[..m] == data && data[m..] == [];
      return e1;
    }
    e' := WriteRuns(answers, n + 1, e1);
    var r := WriteAll(data[m..], answers, n + 1);
    WritesOn(e, data[..m], e1, data[m..][..r.took], [], e');
    assert data[..m] + data[m..][..r.took] == data[..m + r.took];
  }

  lemma TakeFrame(e: Endpoint, act: Act) returns (e': Endpoint)
    requires e.down.pc == Waiting && (act.Receive? || act.ReceiveError?)
    ensures WriterReaches(e, [], [], if act.Receive? then OnFrame(act.frame) else WriterSendingReset, e')
  {
    LeadsOne(e, act);
    e' := Next(e, act);
    assert e.down.written + [] == e.down.written && e.sent + [] == e.sent;
  }

  lemma ResetAfter(e: Endpoint, bytes: seq<Byte>, e1: Endpoint, ok: bool) returns (e': Endpoint)
    requires WriterReaches(e, bytes, [], WriterSendingReset, e1)
    ensures WriterReaches(e, bytes, Reset(ok), WriterDone(false), e')
  {
    e' := ResetAndFail(e1, ok);
    WritesOn(e, bytes, e1, [], Reset(ok), e');
    assert bytes + [] == bytes;
  }

  lemma CloseAfter(e: Endpoint, e1: Endpoint, closeOk: bool, ok: bool) returns (e': Endpoint)
    requires WriterReaches(e, [], [], ClosingWrite, e1)
    ensures WriterReaches(e, [], if closeOk then [] else Reset(ok), WriterDone(closeOk), e')
  {
    LeadsNext(e, e1, CloseWrite(closeOk));
    e' := Next(e1, CloseWrite(closeOk));
    if !closeOk {
      e' := ResetAfter(e, [], e', ok);
    }
  }

  lemma FailAfter(e: Endpoint, e1: Endpoint) returns (e': Endpoint)
    requires WriterReaches(e, [], [], WriterFailing, e1)
    ensures WriterReaches(e, [], [], WriterDone(false), e')
  {
    LeadsNext(e, e1, WriterFail);
    e' := Next(e1, WriterFail);
  }

  /** The data of a frame that has been taken, written or not. */
  lemma DataRuns(data: seq<Byte>, answers: nat -> WriteAnswer, n: nat, e: Endpoint, e1: Endpoint) returns (e': Endpoint)
    requires WriterReaches(e, [], [], WriteRest(data), e1)
    ensures var r := WriteAll(data, answers, n);
      WriterReaches(e, data[..r.took], [], if r.ok then Waiting else WriterSendingReset, e')
  {
    if data == [] {
      e' := e1;
    } else {
      e' := WriteRuns(answers, n, e1);
      var took := data[..WriteAll(data, answers, n).took];
      WritesOn(e, [], e1, took, [], e');
      assert [] + took == took;
    }
  }

  /** What the writing worker sends at its end. */
  function LastWord(ending: Ending, resetOk: bool): seq<Frame> {
    if ending == SendsReset then Reset(resetOk) else []
  }

  /** The writing loop, from any endpoint that waits for a frame, is a run of the machine: what it writes, sends and ends in. */
  lemma {:induction false} WriterRuns(frames: seq<Frame>, answers: nat -> WriteAnswer, n: nat, closeOk: bool, resetOk: bool, e: Endpoint)
    returns (e': Endpoint)
    requires e.down.pc == Waiting
    ensures var o := Delivered(frames, answers, n, closeOk);
      WriterReaches(e, o.written, LastWord(o.ending, resetOk), WriterDone(o.ending == HalfClosed), e')
    decreases |frames|
  {
    if frames == [] {
      var e1 := TakeFrame(e, ReceiveError);
      e' := ResetAfter(e, [], e1, resetOk);
      return;
    }
    var frame, rest := frames[0], frames[1..];
    var e1 := TakeFrame(e, Receive(frame));
    match frame.kind
    case DATA =>
      var r := WriteAll(frame.data, answers, n);
      var e2 := DataRuns(frame.data, answers, n, e, e1);
      if r.ok {
        assert frame.data[..r.took] == frame.data;
        e' := WriterRuns(rest, answers, r.next, closeOk, resetOk, e2);
        var o := Delivered(rest, answers, r.next, closeOk);
        WritesOn(e, frame.data, e2, o.written, LastWord(o.ending, resetOk), e');
      } else {
        e' := ResetAfter(e, frame.data[..r.took], e2, resetOk);
      }
    case HALF_CLOSE => e' := CloseAfter(e, e1, closeOk, resetOk);
    case RESET => e' := FailAfter(e, e1);
    case OTHER(_) => e' := ResetAfter(e, [], e1, resetOk);
    case _ =>
      e' := WriterRuns(rest, answers, n, closeOk, resetOk, e1);
      var o := Delivered(rest, answers, n, closeOk);
      WritesOn(e, [], e1, o.written, LastWord(o.ending, resetOk), e');
      assert [] + o.written == o.written;
  }
}
