/**
 One end of the pipe (`SpliceConn` in pkg/tunnel/splice.go): two workers over a socket and a frame
 stream. A step is one socket call, one stream call, one `fail`, or the final close, so a sequence of
 steps is one interleaving of the workers with one behaviour of the socket and of the stream.
 */
module Endpoints {
  import opened Frames
  import opened Scripts

  /** `spliceConnToStream`. */
  datatype Reader =
    | Reading
    | SendingData(data: seq<Byte>, after: ReadEnd)
    | SendingHalfClose
    | ReaderSendingReset
    | ReaderFailing
    | ReaderDone(halfClosed: bool)

  /** `spliceStreamToConn` with `writeFrameData`. */
  datatype Writer =
    | Waiting
    | Writing(rest: seq<Byte>)
    | ClosingWrite
    | WriterSendingReset
    | WriterFailing
    | WriterDone(halfClosed: bool)

  /** The state of `spliceConnToStream`, with what it has read from the socket. */
  datatype Uplink = Uplink(pc: Reader, read: seq<Byte>, eof: bool)

  /** The state of `spliceStreamToConn`, with the frames it took and what it did to the socket. */
  datatype Downlink = Downlink(pc: Writer, received: seq<Frame>, written: seq<Byte>, writeClosed: bool)

  /** The outcome of the call: still running, nil, or an error. */
  datatype Outcome = Running | Nil | Error

  datatype Endpoint = Endpoint(
    up: Uplink,
    down: Downlink,
    sent: seq<Frame>,       // frames the stream accepted, from either worker
    failed: bool,           // firstErr != nil
    closes: seq<bool>,      // every conn.Close, with its abort flag
    outcome: Outcome)

  const Fresh := Endpoint(Uplink(Reading, [], false), Downlink(Waiting, [], [], false), [], false, [], Running)

  /** A step of either worker, with what the socket or the stream answered. */
  datatype Act =
    | Read(data: seq<Byte>, end: ReadEnd)
    | ReaderSend(ok: bool)
    | ReaderFail
    | Receive(frame: Frame)
    | ReceiveError
    | Write(n: nat, ok: bool)
    | CloseWrite(ok: bool)
    | WriterSend(ok: bool)
    | WriterFail
    | Finish(ok: bool)

  function AfterRead(end: ReadEnd): Reader {
    match end
    case More => Reading
    case Eof => SendingHalfClose
    case ReadError => ReaderSendingReset
  }

  function UpNext(u: Uplink, act: Act): Uplink {
    match (act, u.pc)
    case (Read(data, end), Reading) =>
      Uplink(if data == [] then AfterRead(end) else SendingData(data, end), u.read + data, end.Eof?)
    case (ReaderSend(ok), SendingData(_, end)) => u.(pc := if ok then AfterRead(end) else ReaderFailing)
    case (ReaderSend(ok), SendingHalfClose) => u.(pc := if ok then ReaderDone(true) else ReaderFailing)
    case (ReaderSend(ok), ReaderSendingReset) => u.(pc := ReaderFailing)
    case (ReaderFail, ReaderFailing) => u.(pc := ReaderDone(false))
    case _ => u
  }

  /** The frame the reader is about to send, if it is sending. */
  function Pending(pc: Reader): Option<Frame> {
    match pc
    case SendingData(data, _) => Some(DataFrame(data))
    case SendingHalfClose => Some(Bare(HALF_CLOSE))
    case ReaderSendingReset => Some(Bare(RESET))
    case _ => None
  }

  /** `writeFrameData` returns to the receive loop once nothing is left. */
  function WriteRest(rest: seq<Byte>): Writer {
    if rest == [] then Waiting else Writing(rest)
  }

  function OnFrame(f: Frame): Writer {
    match f.kind
    case DATA => WriteRest(f.data)
    case HALF_CLOSE => ClosingWrite
    case RESET => WriterFailing
    case OPEN => Waiting
    case READY => Waiting
    case OTHER(_) => WriterSendingReset
  }

  /** A write may fail after the socket took some bytes; taking none is io.ErrShortWrite. */
  function DownNext(d: Downlink, act: Act): Downlink {
    match (act, d.pc)
    case (Receive(frame), Waiting) => d.(received := d.received + [frame], pc := OnFrame(frame))
    case (ReceiveError, Waiting) => d.(pc := WriterSendingReset)
    case (Write(n, ok), Writing(rest)) =>
      if n > |rest| then d
      else d.(written := d.written + rest[..n], pc := if !ok || n == 0 then WriterSendingReset else WriteRest(rest[n..]))
    case (CloseWrite(ok), ClosingWrite) =>
      if ok then d.(writeClosed := true, pc := WriterDone(true)) else d.(pc := WriterSendingReset)
    case (WriterSend(_), WriterSendingReset) => d.(pc := WriterFailing)
    case (WriterFail, WriterFailing) => d.(pc := WriterDone(false))
    case _ => d
  }

  function Emits(e: Endpoint, act: Act): Option<Frame> {
    match act
    case ReaderSend(true) => Pending(e.up.pc)
    case WriterSend(true) => if e.down.pc == WriterSendingReset then Some(Bare(RESET)) else None
    case _ => None
  }

  function Append(sent: seq<Frame>, f: Option<Frame>): seq<Frame> {
    if f.Some? then sent + [f.value] else sent
  }

  predicate Fails(e: Endpoint, act: Act) {
    (act.ReaderFail? && e.up.pc == ReaderFailing) || (act.WriterFail? && e.down.pc == WriterFailing)
  }

  /** `connCloser.close`: the sync.Once lets one close through. */
  function CloseOnce(closes: seq<bool>, abort: bool): seq<bool> {
    if closes == [] then [abort] else closes
  }

  /**
   One step. `fail` is `errOnce.Do` around `closer.close(true)`, so only the first failure closes;
   Finish is what `SpliceConn` does once both workers are done. A step that is not enabled leaves
   the endpoint unchanged.
   */
  function Next(e: Endpoint, act: Act): Endpoint {
    if act.Finish? then
      if !(e.up.pc.ReaderDone? && e.down.pc.WriterDone? && e.outcome == Running) then e
      else if e.failed then e.(outcome := Error)
      else e.(closes := CloseOnce(e.closes, false), outcome := if act.ok then Nil else Error)
    else
      Endpoint(UpNext(e.up, act), DownNext(e.down, act), Append(e.sent, Emits(e, act)),
               e.failed || Fails(e, act),
               if Fails(e, act) && !e.failed then CloseOnce(e.closes, true) else e.closes,
               e.outcome)
  }

  ghost function RunFrom(e: Endpoint, acts: seq<Act>): Endpoint {
    if acts == [] then e else Next(RunFrom(e, acts[..|acts| - 1]), acts[|acts| - 1])
  }

  ghost function Run(acts: seq<Act>): Endpoint {
    RunFrom(Fresh, acts)
  }

  /** Some steps lead from e to e'. */
  ghost predicate Leads(e: Endpoint, e': Endpoint) {
    exists acts :: RunFrom(e, acts) == e'
  }

  lemma LeadsNext(e: Endpoint, e': Endpoint, act: Act)
    requires Leads(e, e')
    ensures Leads(e, Next(e', act))
  {
    var acts :| RunFrom(e, acts) == e';
    assert (acts + [act])[..|acts|] == acts;
    assert RunFrom(e, acts + [act]) == Next(e', act);
  }

  lemma LeadsOne(e: Endpoint, act: Act)
    ensures Leads(e, Next(e, act)) && Leads(e, e)
  {
    assert RunFrom(e, []) == e;
    LeadsNext(e, e, act);
  }

  lemma {:induction false} LeadsOn(e: Endpoint, e1: Endpoint, acts: seq<Act>)
    requires Leads(e, e1)
    ensures Leads(e, RunFrom(e1, acts))
  {
    if acts != [] {
      LeadsOn(e, e1, acts[..|acts| - 1]);
      LeadsNext(e, RunFrom(e1, acts[..|acts| - 1]), acts[|acts| - 1]);
    }
  }

  lemma LeadsTransitive(e: Endpoint, e1: Endpoint, e2: Endpoint)
    requires Leads(e, e1) && Leads(e1, e2)
    ensures Leads(e, e2)
  {
    var acts :| RunFrom(e1, acts) == e2;
    LeadsOn(e, e1, acts);
  }

  // What the endpoint sends carries what it reads.

  ghost predicate SendInv(u: Uplink, t: Transcript) {
    && t.bytes <= u.read
    && (t.live && u.pc.SendingData? ==> t.bytes + u.pc.data == u.read)
    && (t.live && (u.pc == Reading || u.pc == SendingHalfClose || u.pc == ReaderSendingReset) ==> t.bytes == u.read)
    && (u.pc.SendingData? ==> (u.eof <==> u.pc.after.Eof?))
    && (u.pc == SendingHalfClose ==> u.eof)
    && (t.closed ==> !t.live && u.pc == ReaderDone(true) && u.eof && t.bytes == u.read)
  }

  // What the endpoint writes carries what it receives.

  ghost predicate WriteInv(d: Downlink, t: Transcript) {
    && d.written <= t.bytes
    && (d.pc == Waiting ==> t.live && !t.closed && d.written == t.bytes)
    && (d.pc.Writing? ==> t.live && !t.closed && d.written + d.pc.rest == t.bytes)
    && (d.pc == ClosingWrite ==> t.closed && d.written == t.bytes)
    && (d.writeClosed ==> t.closed && d.written == t.bytes)
    && (d.writeClosed <==> d.pc == WriterDone(true))
  }

  // Teardown.

  ghost predicate CloseInv(e: Endpoint) {
    && e.closes == (if e.failed then [true] else if e.outcome == Running then [] else [false])
    && (e.failed <==> e.up.pc == ReaderDone(false) || e.down.pc == WriterDone(false))
    && (e.outcome != Running ==> e.up.pc.ReaderDone? && e.down.pc.WriterDone?)
    && (e.outcome == Nil ==> !e.failed)
  }

  lemma CloseKeeps(e: Endpoint, act: Act)
    requires CloseInv(e)
    ensures CloseInv(Next(e, act))
  {
  }

  /** What the frames sent so far add up to: was HALF_CLOSE sent, was anything but RESET sent after it, how many RESETs. */
  datatype Tally = Tally(halfClosed: bool, ordered: bool, resets: nat)

  function Count(t: Tally, f: Frame): Tally {
    Tally(t.halfClosed || f.kind == HALF_CLOSE,
          t.ordered && (t.halfClosed ==> f.kind == RESET),
          t.resets + if f.kind == RESET then 1 else 0)
  }

  ghost function TallyOf(frames: seq<Frame>): Tally {
    if frames == [] then Tally(false, true, 0) else Count(TallyOf(frames[..|frames| - 1]), frames[|frames| - 1])
  }

  function Spent(failing: bool): nat {
    if failing then 1 else 0
  }

  /** Each worker sends at most one RESET, and is past it when it has. */
  ghost predicate SentInv(r: Reader, w: Writer, t: Tally) {
    && t.ordered
    && (t.halfClosed <==> r == ReaderDone(true))
    && t.resets <= Spent(r == ReaderFailing || r == ReaderDone(false)) + Spent(w == WriterFailing || w == WriterDone(false))
  }

  ghost predicate Inv(e: Endpoint) {
    && SendInv(e.up, Of(e.sent))
    && WriteInv(e.down, Of(e.down.received))
    && CloseInv(e)
    && SentInv(e.up.pc, e.down.pc, TallyOf(e.sent))
  }

  lemma TallyAppend(frames: seq<Frame>, f: Frame)
    ensures TallyOf(frames + [f]) == Count(TallyOf(frames), f)
  {
  }

  // Folding in the frame a step sends or takes, if any.

  function CarrySome(t: Transcript, f: Option<Frame>): Transcript {
    if f.Some? then Carry(t, f.value) else t
  }

  function CountSome(t: Tally, f: Option<Frame>): Tally {
    if f.Some? then Count(t, f.value) else t
  }

  function Takes(e: Endpoint, act: Act): Option<Frame> {
    if act.Receive? && e.down.pc == Waiting then Some(act.frame) else None
  }

  lemma SendKeeps(e: Endpoint, t: Transcript, act: Act)
    requires SendInv(e.up, t)
    ensures SendInv(Next(e, act).up, CarrySome(t, Emits(e, act)))
  {
  }

  lemma WriteKeeps(e: Endpoint, t: Transcript, act: Act)
    requires WriteInv(e.down, t)
    ensures WriteInv(Next(e, act).down, CarrySome(t, Takes(e, act)))
  {
  }

  lemma SentKeeps(e: Endpoint, t: Tally, act: Act)
    requires SentInv(e.up.pc, e.down.pc, t)
    ensures SentInv(Next(e, act).up.pc, Next(e, act).down.pc, CountSome(t, Emits(e, act)))
  {
  }

  lemma Folds(e: Endpoint, act: Act)
    ensures Of(Next(e, act).sent) == CarrySome(Of(e.sent), Emits(e, act))
    ensures TallyOf(Next(e, act).sent) == CountSome(TallyOf(e.sent), Emits(e, act))
    ensures Of(Next(e, act).down.received) == CarrySome(Of(e.down.received), Takes(e, act))
  {
    if Emits(e, act).Some? {
      OfAppend(e.sent, Emits(e, act).value);
      TallyAppend(e.sent, Emits(e, act).value);
    }
    if Takes(e, act).Some? {
      OfAppend(e.down.received, act.frame);
    }
  }

  lemma Keeps(e: Endpoint, act: Act)
    requires Inv(e)
    ensures Inv(Next(e, act))
  {
    Folds(e, act);
    SendKeeps(e, Of(e.sent), act);
    WriteKeeps(e, Of(e.down.received), act);
    CloseKeeps(e, act);
    SentKeeps(e, TallyOf(e.sent), act);
  }

  lemma {:induction false} RunKeeps(acts: seq<Act>)
    ensures Inv(Run(acts))
  {
    if acts != [] {
      RunKeeps(acts[..|acts| - 1]);
      Keeps(Run(acts[..|acts| - 1]), acts[|acts| - 1]);
    }
  }

  lemma {:induction false} TallyOrder(frames: seq<Frame>, i: nat, j: nat)
    requires TallyOf(frames).ordered && i < j < |frames| && frames[i].kind == HALF_CLOSE
    ensures frames[j].kind == RESET
  {
    if j < |frames| - 1 {
      TallyOrder(frames[..|frames| - 1], i, j);
    } else {
      TallySees(frames[..|frames| - 1], i);
    }
  }

  lemma {:induction false} TallySees(frames: seq<Frame>, i: nat)
    requires i < |frames| && frames[i].kind == HALF_CLOSE
    ensures TallyOf(frames).halfClosed
  {
    if i < |frames| - 1 {
      TallySees(frames[..|frames| - 1], i);
    }
  }

  /**
   Teardown, for every interleaving: the socket is closed at most once, exactly once when the call
   returns, and with abort exactly when a worker failed; nil means both directions were half-closed;
   after HALF_CLOSE nothing but RESET is sent, and at most two RESETs are.
   */
  lemma Teardown(acts: seq<Act>)
    ensures var e := Run(acts);
      && |e.closes| <= 1
      && (e.outcome != Running ==> e.closes == [e.up.pc == ReaderDone(false) || e.down.pc == WriterDone(false)])
      && (e.outcome == Nil ==> e.closes == [false] && TallyOf(e.sent).halfClosed && e.down.writeClosed)
      && (forall i, j | 0 <= i < j < |e.sent| :: e.sent[i].kind == HALF_CLOSE ==> e.sent[j].kind == RESET)
      && TallyOf(e.sent).resets <= 2
  {
    RunKeeps(acts);
    var sent := Run(acts).sent;
    forall i, j | 0 <= i < j < |sent| && sent[i].kind == HALF_CLOSE ensures sent[j].kind == RESET {
      TallyOrder(sent, i, j);
    }
  }

  /** The call returns nil exactly when both directions were half-closed and the socket closed without an error. */
  lemma NilExactly(acts: seq<Act>, ok: bool)
    requires Run(acts).outcome == Running && Next(Run(acts), Finish(ok)).outcome != Running
    ensures Next(Run(acts), Finish(ok)).outcome == Nil
            <==> ok && TallyOf(Run(acts).sent).halfClosed && Run(acts).down.writeClosed
  {
    RunKeeps(acts);
  }
}
