/**
 One streaming upload, from the HTTP body to the file: `streamUploadBody` (pkg/controller/api.go), the
 optional peer hop (`upload` and `Upload` in pkg/controller/peer.go), the chunks on the Control stream,
 and the agent's `routeChunk`, `consumeUpload` and `writeFile` (pkg/agent/fs.go).
 */
module Uploads {
  import opened Frames
  import opened Scripts

  datatype Chunk = Chunk(data: seq<Byte>, last: bool)

  /** What a sequence of chunks says: the bytes before the end, and whether the end was marked. */
  datatype Body = Body(bytes: seq<Byte>, ended: bool)

  function Add(b: Body, c: Chunk): Body {
    if b.ended then b else Body(b.bytes + c.data, c.last)
  }

  ghost function BodyOf(chunks: seq<Chunk>): Body {
    if chunks == [] then Body([], false) else Add(BodyOf(chunks[..|chunks| - 1]), chunks[|chunks| - 1])
  }

  lemma BodyAppend(chunks: seq<Chunk>, c: Chunk)
    ensures BodyOf(chunks + [c]) == Add(BodyOf(chunks), c)
  {
  }

  /** A prefix that contains the end says everything the whole does. */
  lemma {:induction false} BodyPrefix(chunks: seq<Chunk>, n: nat)
    requires n <= |chunks| && BodyOf(chunks[..n]).ended
    ensures BodyOf(chunks) == BodyOf(chunks[..n])
    decreases |chunks| - n
  {
    if n == |chunks| {
      assert chunks[..n] == chunks;
    } else {
      assert chunks[..n + 1] == chunks[..n] + [chunks[n]];
      BodyAppend(chunks[..n], chunks[n]);
      BodyPrefix(chunks, n + 1);
    }
  }

  // The body as a loop over reads.

  /** The chunks a sequence of reads becomes: an empty last chunk marks io.EOF; a script that runs out is a read error. */
  function Chunked(script: seq<ReadAnswer>): seq<Chunk> {
    if script == [] then []
    else DataChunks(script[0].data)
         + match script[0].end
           case More => Chunked(script[1..])
           case Eof => [Chunk([], true)]
           case ReadError => []
  }

  function DataChunks(data: seq<Byte>): seq<Chunk> {
    if data == [] then [] else [Chunk(data, false)]
  }

  ghost function Rest(answer: ReadAnswer, script: seq<ReadAnswer>): seq<Chunk> {
    match answer.end
    case More => Chunked(script)
    case Eof => [Chunk([], true)]
    case ReadError => []
  }

  /** `streamUploadBody`; the first `budget` sends succeed and the next one fails, which ends the upload. */
  method StreamUploadBody(script: seq<ReadAnswer>, budget: nat) returns (sent: seq<Chunk>, ok: bool)
    ensures sent == First(Chunked(script), budget)
    ensures ok <==> ReachesEof(script) && |Chunked(script)| <= budget
  {
    ghost var all := Chunked(script);
    sent, ok := [], false;
    var i := 0;
    while i < |script|
      invariant 0 <= i <= |script|
      invariant Left(all, sent, Chunked(script[i..])) && |sent| <= budget
      invariant ReachesEof(script) <==> ReachesEof(script[i..])
    {
      var answer := script[i];
      ghost var rest := Rest(answer, script[i + 1..]);
      assert script[i..][1..] == script[i + 1..];
      LeftAfter(all, sent, DataChunks(answer.data), rest);
      if answer.data != [] {
        if |sent| == budget {
          LeftOver(all, sent, [Chunk(answer.data, false)] + rest, budget);
          return;
        }
        sent := sent + [Chunk(answer.data, false)];
      } else {
        assert sent + [] == sent;
      }
      i := i + 1;
      match answer.end {
        case More =>
        case Eof =>
          if |sent| < budget {
            sent, ok := sent + [Chunk([], true)], true;
            LeftOver(all, sent, [], budget);
          } else {
            LeftOver(all, sent, rest, budget);
          }
          return;
        case ReadError =>
          LeftOver(all, sent, [], budget);
          return;
      }
    }
    LeftOver(all, sent, [], budget);
  }

  // The agent's end as a loop over what its select yields.

  /** A chunk, with how its write and sync go; or the context or the idle timer ending the wait. */
  datatype Select = Got(chunk: Chunk, wrote: nat, writeOk: bool, syncOk: bool) | ContextDone | IdleFired

  /** The body told by the chunks received before the first select that yields no chunk. */
  datatype Tale = Tale(body: Body, open: bool)

  function Hear(t: Tale, sel: Select): Tale {
    if t.open && sel.Got? then Tale(Add(t.body, sel.chunk), true) else t.(open := false)
  }

  ghost function Told(script: seq<Select>): Tale {
    if script == [] then Tale(Body([], false), true) else Hear(Told(script[..|script| - 1]), script[|script| - 1])
  }

  lemma {:induction false} ToldStops(script: seq<Select>, n: nat)
    requires n <= |script| && (Told(script[..n]).body.ended || !Told(script[..n]).open)
    ensures Told(script).body == Told(script[..n]).body
    decreases |script| - n
  {
    if n == |script| {
      assert script[..n] == script;
    } else {
      assert script[..n + 1][..n] == script[..n];
      ToldStops(script, n + 1);
    }
  }

  ghost predicate Healthy(script: seq<Select>) {
    forall i | 0 <= i < |script| && script[i].Got? :: script[i].writeOk && script[i].syncOk
  }

  /** `consumeUpload`; a script that runs out is a select that never returns, here the context ending. */
  method ConsumeUpload(script: seq<Select>) returns (file: seq<Byte>, committed: bool, code: nat)
    ensures code == 201 <==> committed
    ensures committed ==> Told(script).body == Body(file, true)
    ensures Healthy(script) ==> Told(script).body == Body(file, committed)
  {
    file, committed, code := [], false, 500;
    var i := 0;
    while i < |script|
      invariant 0 <= i <= |script|
      invariant Told(script[..i]) == Tale(Body(file, false), true) && !committed && code == 500
    {
      assert script[..i + 1][..i] == script[..i];
      match script[i] {
        case ContextDone =>
          ToldStops(script, i + 1);
          return;
        case IdleFired =>
          ToldStops(script, i + 1);
          code := 408;
          return;
        case Got(chunk, wrote, writeOk, syncOk) =>
          if chunk.data != [] {
            if !writeOk {
              file := file + chunk.data[..Min(wrote, |chunk.data|)];
              return;
            }
            file := file + chunk.data;
          } else {
            assert file + chunk.data == file;
          }
          i := i + 1;
          if chunk.last {
            ToldStops(script, i);
            if !syncOk {
              return;
            }
            committed, code := true, 201;
            return;
          }
      }
    }
    assert script[..i] == script;
  }

  // The upload as a step machine.

  /** The bound of the agent's chunk channel. */
  const CAPACITY := 8

  datatype SourcePc = Reading | Sending(data: seq<Byte>, after: ReadEnd) | SendingLast | Stopped(ok: bool)

  /** `streamUploadBody`, with what it has read and the chunks its first hop accepted. */
  datatype Source = Source(pc: SourcePc, read: seq<Byte>, eof: bool, out: seq<Chunk>)

  datatype Status = NotOpen | Registered | Removed

  /** The agent's registration and chunk channel. */
  datatype Inbound = Inbound(
    status: Status,
    done: bool,
    inflight: Option<Chunk>,    // the chunk routeChunk is trying to put into the channel
    entered: seq<Chunk>,
    taken: seq<Chunk>,          // chunks the handler has read
    queue: seq<Chunk>)

  datatype WriterPc = NotStarted | Consuming | Syncing | Failing | Finished

  /**
   `writeFile`: what its path held before and holds now, whether the file was opened, whether the upload
   committed, whether removing a partial file failed, and the HTTP code it will report.
   */
  datatype Writer = Writer(pc: WriterPc, held: Option<seq<Byte>>, file: Option<seq<Byte>>,
                           opens: bool, committed: bool, stuck: bool, code: nat)

  datatype Upload = Upload(
    relayed: bool,
    src: Source,
    openSent: bool,         // the opening request is on the Control stream
    body: seq<Chunk>,       // chunks on the Control stream
    openRouted: bool,
    routed: nat,            // chunks the agent's receive loop has taken
    inb: Inbound,
    wr: Writer)

  /** `held` is what the path holds before the upload. */
  function Fresh(relayed: bool, held: Option<seq<Byte>>): Upload {
    Upload(relayed, Source(Reading, [], false, []), false, [], false, 0,
           Inbound(NotOpen, false, None, [], [], []), Writer(NotStarted, held, held, false, false, false, 0))
  }

  datatype Act =
    | ReadBody(data: seq<Byte>, end: ReadEnd)
    | SendChunk(ok: bool)
    | SendOpen
    | Relay                               // the holding pod forwards the next chunk it received
    | RouteOpen
    | RouteChunk
    | Enter
    | Drop
    | OpenFile(code: nat)                 // 0 opens (and truncates) the file; anything else is the error reported
    | TakeChunk(wrote: nat, ok: bool, code: nat)
    | Sync(ok: bool, code: nat)
    | Abort(code: nat)                    // the context ended or the idle timer fired
    | Cleanup(removed: bool)
    | Deregister
    | CloseDone

  function AfterRead(end: ReadEnd): SourcePc {
    match end
    case More => Reading
    case Eof => SendingLast
    case ReadError => Stopped(false)
  }

  /** The chunk `streamUploadBody` is about to send. */
  function Pending(pc: SourcePc): Option<Chunk> {
    match pc
    case Sending(data, _) => Some(Chunk(data, false))
    case SendingLast => Some(Chunk([], true))
    case _ => None
  }

  function SourceNext(s: Source, act: Act): Source {
    match (act, s.pc)
    case (ReadBody(data, end), Reading) =>
      s.(read := s.read + data, eof := end.Eof?, pc := if data == [] then AfterRead(end) else Sending(data, end))
    case (SendChunk(ok), Sending(data, after)) =>
      if ok then s.(out := s.out + [Chunk(data, false)], pc := AfterRead(after)) else s.(pc := Stopped(false))
    case (SendChunk(ok), SendingLast) =>
      if ok then s.(out := s.out + [Chunk([], true)], pc := Stopped(true)) else s.(pc := Stopped(false))
    case _ => s
  }

  function InboundNext(i: Inbound, next: Option<Chunk>, act: Act): Inbound {
    match act
    case RouteOpen => if i.status == NotOpen then i.(status := Registered) else i
    case RouteChunk => if next.Some? && i.status == Registered then i.(inflight := next) else i
    case Enter =>
      if i.inflight.None? || |i.queue| >= CAPACITY then i
      else i.(inflight := None, entered := i.entered + [i.inflight.value], queue := i.queue + [i.inflight.value])
    case Drop => if i.inflight.Some? && i.done then i.(inflight := None) else i
    case TakeChunk(_, _, _) => if i.queue == [] then i else i.(taken := i.taken + [i.queue[0]], queue := i.queue[1..])
    case Deregister => if i.status == Registered then i.(status := Removed) else i
    case CloseDone => if i.status == Removed then i.(done := true) else i
    case _ => i
  }

  function WriterNext(w: Writer, chunk: Option<Chunk>, act: Act): Writer {
    match (act, w.pc)
    case (OpenFile(code), NotStarted) =>
      if code == 0 then w.(pc := Consuming, opens := true, file := Some([])) else w.(pc := Finished, code := code)
    case (TakeChunk(wrote, ok, code), Consuming) =>
      if chunk.None? || w.file.None? then w
      else if chunk.value.data != [] && !ok then
        w.(pc := Failing, file := Some(w.file.value + chunk.value.data[..Min(wrote, |chunk.value.data|)]), code := code)
      else w.(file := Some(w.file.value + chunk.value.data), pc := if chunk.value.last then Syncing else Consuming)
    case (Sync(ok, code), Syncing) =>
      if ok then w.(pc := Finished, committed := true, code := 201) else w.(pc := Failing, code := code)
    case (Abort(code), Consuming) => w.(pc := Failing, code := code)
    case (Cleanup(removed), Failing) =>
      w.(pc := Finished, file := if removed then None else w.file, stuck := !removed)
    case _ => w
  }

  /** The codes `fsErrorCode` and the payload check report. */
  predicate FsError(code: nat) {
    code == 400 || code == 404 || code == 409 || code == 500 || code == 501
  }

  predicate Enabled(u: Upload, act: Act) {
    match act
    case SendChunk(ok) => Pending(u.src.pc).Some? && (!u.relayed ==> u.openSent)
    case Relay => u.relayed && u.openSent && |u.body| < |u.src.out| && (u.body != [] ==> !u.body[|u.body| - 1].last)
    case RouteOpen => u.openSent && !u.openRouted
    case RouteChunk => u.openRouted && u.routed < |u.body| && u.inb.inflight.None?
    case OpenFile(code) => u.inb.status == Registered && (code == 0 || FsError(code))
    case TakeChunk(_, _, code) => u.inb.queue != [] && u.wr.pc == Consuming && FsError(code)
    case Sync(_, code) => FsError(code)
    case Abort(code) => code == 500 || code == 408
    case Deregister => u.wr.pc == Finished
    case _ => true
  }

  function Do(u: Upload, act: Act): Upload
    requires Enabled(u, act)
  {
    Upload(u.relayed, SourceNext(u.src, act), u.openSent || act.SendOpen?,
           if act.SendChunk? && act.ok && !u.relayed then u.body + [Pending(u.src.pc).value]
           else if act.Relay? then u.body + [u.src.out[|u.body|]]
           else u.body,
           u.openRouted || act.RouteOpen?,
           if act.RouteChunk? then u.routed + 1 else u.routed,
           InboundNext(u.inb, if act.RouteChunk? then Some(u.body[u.routed]) else None, act),
           WriterNext(u.wr, if act.TakeChunk? then Some(u.inb.queue[0]) else None, act))
  }

  /** A step that is not enabled leaves the upload unchanged. */
  function Next(u: Upload, act: Act): Upload {
    if Enabled(u, act) then Do(u, act) else u
  }

  // The source sends what it reads.

  ghost predicate SourceInv(s: Source, b: Body) {
    && (!b.ended ==> b.bytes + (if s.pc.Sending? then s.pc.data else []) == s.read || s.pc == Stopped(false))
    && (s.pc.Sending? ==> (s.eof <==> s.pc.after.Eof?))
    && (s.pc == SendingLast ==> s.eof)
    && (b.ended <==> s.pc == Stopped(true))
    && (b.ended ==> s.eof && b.bytes == s.read)
  }

  lemma SourceKeeps(s: Source, b: Body, act: Act)
    requires SourceInv(s, b)
    ensures SourceInv(SourceNext(s, act), if act == SendChunk(true) && Pending(s.pc).Some? then Add(b, Pending(s.pc).value) else b)
  {
  }

  // The agent's channel passes on what it is routed.

  ghost predicate EnteredInv(i: Inbound, routed: seq<Chunk>) {
    && (i.inflight.Some? ==> i.entered + [i.inflight.value] == routed)
    && (i.status == Registered && i.inflight.None? ==> i.entered == routed)
    && i.entered <= routed
    && (i.done ==> i.status == Removed)
    && (i.status == NotOpen ==> i.inflight.None? && routed == [])
  }

  ghost predicate QueueInv(i: Inbound) {
    i.taken + i.queue == i.entered && |i.queue| <= CAPACITY
  }

  lemma QueueKeeps(i: Inbound, next: Option<Chunk>, act: Act)
    requires QueueInv(i)
    ensures QueueInv(InboundNext(i, next, act))
  {
  }

  // The file holds what the handler has taken.

  ghost predicate WriterInv(w: Writer, b: Body) {
    && (w.pc == NotStarted ==> b == Body([], false) && !w.opens)
    && (w.pc == Consuming ==> !b.ended && w.file == Some(b.bytes))
    && (w.pc == Syncing ==> b.ended && w.file == Some(b.bytes))
    && (w.committed ==> w.pc == Finished && b.ended && w.file == Some(b.bytes))
    && (w.pc == Failing ==> w.code != 201)
    && (w.pc == Finished ==> (w.code == 201 <==> w.committed))
    && (w.pc == Consuming || w.pc == Syncing || w.pc == Failing ==> w.opens)
    && (!w.opens ==> w.file == w.held && !w.committed)
    && (w.pc == Finished && w.opens && !w.committed && !w.stuck ==> w.file == None)
  }

  lemma WriterKeeps(w: Writer, b: Body, chunk: Option<Chunk>, act: Act)
    requires WriterInv(w, b) && (chunk.Some? <==> act.TakeChunk?)
    requires act.TakeChunk? ==> w.pc == Consuming
    requires act.OpenFile? || act.Abort? || act.TakeChunk? || act.Sync? ==> act.code != 201
    ensures WriterInv(WriterNext(w, chunk, act), if chunk.Some? then Add(b, chunk.value) else b)
  {
  }

  /** The Control stream carries what the source sent, in order, and the agent takes it in order. */
  ghost predicate WireInv(u: Upload) {
    && u.body <= u.src.out && (!u.relayed ==> u.body == u.src.out)
    && u.routed <= |u.body|
    && (u.openRouted <==> u.inb.status != NotOpen)
  }

  ghost predicate Inv(u: Upload) {
    && WireInv(u)
    && SourceInv(u.src, BodyOf(u.src.out))
    && EnteredInv(u.inb, u.body[..u.routed]) && QueueInv(u.inb)
    && WriterInv(u.wr, BodyOf(u.inb.taken))
  }

  lemma WireKeeps(u: Upload, act: Act)
    requires WireInv(u) && Enabled(u, act)
    ensures WireInv(Do(u, act)) && u.body <= Do(u, act).body
  {
  }

  lemma SourceStep(u: Upload, act: Act)
    requires SourceInv(u.src, BodyOf(u.src.out)) && Enabled(u, act)
    ensures SourceInv(Do(u, act).src, BodyOf(Do(u, act).src.out))
  {
    SourceKeeps(u.src, BodyOf(u.src.out), act);
    SourceOut(u.src, act);
    if Pending(u.src.pc).Some? {
      BodyAppend(u.src.out, Pending(u.src.pc).value);
    }
  }

  lemma SourceOut(s: Source, act: Act)
    ensures SourceNext(s, act).out
         == if act == SendChunk(true) && Pending(s.pc).Some? then s.out + [Pending(s.pc).value] else s.out
  {
  }

  lemma RouteStep(u: Upload, act: Act)
    requires WireInv(u) && EnteredInv(u.inb, u.body[..u.routed]) && Enabled(u, act)
    ensures Do(u, act).routed <= |Do(u, act).body|
    ensures EnteredInv(Do(u, act).inb, Do(u, act).body[..Do(u, act).routed])
  {
  }

  lemma WriterStep(u: Upload, act: Act)
    requires WriterInv(u.wr, BodyOf(u.inb.taken)) && Enabled(u, act)
    ensures WriterInv(Do(u, act).wr, BodyOf(Do(u, act).inb.taken))
  {
    WriterKeeps(u.wr, BodyOf(u.inb.taken), if act.TakeChunk? then Some(u.inb.queue[0]) else None, act);
    if act.TakeChunk? {
      BodyAppend(u.inb.taken, u.inb.queue[0]);
    }
  }

  lemma Keeps(u: Upload, act: Act)
    requires Inv(u)
    ensures Inv(Next(u, act))
  {
    if Enabled(u, act) {
      WireKeeps(u, act);
      SourceStep(u, act);
      RouteStep(u, act);
      QueueKeeps(u.inb, if act.RouteChunk? then Some(u.body[u.routed]) else None, act);
      WriterStep(u, act);
    }
  }

  ghost function Play(relayed: bool, held: Option<seq<Byte>>, acts: seq<Act>): Upload {
    if acts == [] then Fresh(relayed, held) else Next(Play(relayed, held, acts[..|acts| - 1]), acts[|acts| - 1])
  }

  lemma {:induction false} PlayKeeps(relayed: bool, held: Option<seq<Byte>>, acts: seq<Act>)
    ensures Inv(Play(relayed, held, acts))
  {
    if acts != [] {
      PlayKeeps(relayed, held, acts[..|acts| - 1]);
      Keeps(Play(relayed, held, acts[..|acts| - 1]), acts[|acts| - 1]);
    }
  }

  /**
   An upload commits only if its body was read to EOF, and the file then holds exactly the body; 201 is
   reported exactly for a commit; a partial file is gone afterwards unless removing it failed; and a path
   that could not be opened is left as it was.
   */
  ghost predicate RoundTrip(u: Upload) {
    && (u.wr.committed ==> u.src.eof && u.src.pc == Stopped(true) && u.wr.file == Some(u.src.read))
    && (u.wr.pc == Finished ==> (u.wr.code == 201 <==> u.wr.committed))
    && (u.wr.pc == Finished && !u.wr.committed && u.wr.opens && !u.wr.stuck ==> u.wr.file == None)
    && (!u.wr.opens ==> u.wr.file == u.wr.held)
  }

  lemma InvRoundTrip(u: Upload)
    requires Inv(u)
    ensures RoundTrip(u)
  {
    if u.wr.committed {
      var taken, out := u.inb.taken, u.src.out;
      assert taken <= u.inb.entered <= u.body <= out;
      assert out[..|taken|] == taken;
      BodyPrefix(out, |taken|);
    }
  }

  /** Some run of one upload reaches u. */
  ghost predicate Reached(u: Upload) {
    exists relayed, held, acts :: Play(relayed, held, acts) == u
  }

  lemma ReachedFresh(relayed: bool, held: Option<seq<Byte>>)
    ensures Reached(Fresh(relayed, held))
  {
    assert Play(relayed, held, []) == Fresh(relayed, held);
  }

  lemma ReachedNext(u: Upload, act: Act)
    requires Reached(u)
    ensures Reached(Next(u, act))
  {
    var relayed, held, acts :| Play(relayed, held, acts) == u;
    assert (acts + [act])[..|acts|] == acts;
    assert Play(relayed, held, acts + [act]) == Next(u, act);
  }

  /** The round trip holds in every run, direct or relayed, whatever fails. */
  lemma UploadRoundTrip(relayed: bool, held: Option<seq<Byte>>, acts: seq<Act>)
    ensures RoundTrip(Play(relayed, held, acts))
  {
    PlayKeeps(relayed, held, acts);
    InvRoundTrip(Play(relayed, held, acts));
  }
}
