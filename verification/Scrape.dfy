/**
 Reassembling one agent's streamed scrape (pkg/controller/metrics.go:119-204): chunks of several exporters
 share a stream, and each exporter's body is folded when its Done frame arrives.
 */
module Scrapes {
  import opened Frames
  import Streams

  type Bytes = seq<Byte>

  datatype MetricsFrame = MetricsFrame(exporter: string, chunk: Bytes, done: bool, error: string)

  /** What a Done frame leads to: the body handed to the parser, if any, and the exporter's up gauge. */
  datatype Fold = Fold(exporter: string, body: Option<Bytes>, up: bool)

  /** The outcome of a Done frame when these are the bytes received since the exporter's last one. */
  function Outcome(f: MetricsFrame, pending: Bytes, parses: Bytes -> bool): Fold {
    if f.error != "" then Fold(f.exporter, None, false)
    else if pending == [] then Fold(f.exporter, None, true)
    else Fold(f.exporter, Some(pending), parses(pending))
  }

  // The accumulator on values.

  datatype Acc = Acc(buffers: map<string, Bytes>, folds: seq<Fold>)

  function Pending(buffers: map<string, Bytes>, exporter: string): Bytes {
    if exporter in buffers then buffers[exporter] else []
  }

  function Ingested(a: Acc, f: MetricsFrame, parses: Bytes -> bool): Acc {
    if f.done then
      Acc(a.buffers - {f.exporter}, a.folds + [Outcome(f, Pending(a.buffers, f.exporter), parses)])
    else if f.chunk == [] then a
    else a.(buffers := a.buffers[f.exporter := Pending(a.buffers, f.exporter) + f.chunk])
  }

  function IngestAll(frames: seq<MetricsFrame>, parses: Bytes -> bool): Acc {
    if frames == [] then Acc(map[], []) else Ingested(IngestAll(frames[..|frames| - 1], parses), frames[|frames| - 1], parses)
  }

  // One exporter alone.

  datatype One = One(pending: Bytes, folds: seq<Fold>)

  /** The exporter's own frames, in order: every Done frame folds what has come since the one before it. */
  function Alone(frames: seq<MetricsFrame>, exporter: string, parses: Bytes -> bool): One {
    if frames == [] then One([], [])
    else
      var one, f := Alone(frames[..|frames| - 1], exporter, parses), frames[|frames| - 1];
      if f.exporter != exporter then one
      else if f.done then One([], one.folds + [Outcome(f, one.pending, parses)])
      else One(one.pending + f.chunk, one.folds)
  }

  function Of(folds: seq<Fold>, exporter: string): seq<Fold> {
    if folds == [] then []
    else
      var before, last := Of(folds[..|folds| - 1], exporter), folds[|folds| - 1];
      if last.exporter == exporter then before + [last] else before
  }

  lemma OfAppend(folds: seq<Fold>, fold: Fold, exporter: string)
    ensures Of(folds + [fold], exporter) == if fold.exporter == exporter then Of(folds, exporter) + [fold] else Of(folds, exporter)
  {
  }

  /** What the accumulator shows of one exporter is what that exporter's frames alone would give. */
  ghost predicate Shows(a: Acc, exporter: string, one: One) {
    && Pending(a.buffers, exporter) == one.pending
    && (exporter in a.buffers ==> a.buffers[exporter] != [])
    && Of(a.folds, exporter) == one.folds
  }

  /**
   Demultiplexing: however the exporters' chunks are interleaved, the bodies folded for an exporter, their
   order and its up gauges are those of its own frames, and nothing of another exporter gets in.
   */
  lemma {:induction false} Demultiplexes(frames: seq<MetricsFrame>, exporter: string, parses: Bytes -> bool)
    ensures Shows(IngestAll(frames, parses), exporter, Alone(frames, exporter, parses))
  {
    if frames != [] {
      var before, f := frames[..|frames| - 1], frames[|frames| - 1];
      Demultiplexes(before, exporter, parses);
      var a := IngestAll(before, parses);
      OfAppend(a.folds, Outcome(f, Pending(a.buffers, f.exporter), parses), exporter);
    }
  }

  function Own(frames: seq<MetricsFrame>, exporter: string): seq<MetricsFrame> {
    if frames == [] then []
    else
      var before, f := Own(frames[..|frames| - 1], exporter), frames[|frames| - 1];
      if f.exporter == exporter then before + [f] else before
  }

  lemma {:induction false} OwnFramesSuffice(frames: seq<MetricsFrame>, exporter: string, parses: Bytes -> bool)
    ensures Alone(Own(frames, exporter), exporter, parses) == Alone(frames, exporter, parses)
  {
    if frames != [] {
      var before, f := frames[..|frames| - 1], frames[|frames| - 1];
      OwnFramesSuffice(before, exporter, parses);
      if f.exporter == exporter {
        assert Own(frames, exporter)[..|Own(before, exporter)|] == Own(before, exporter);
      }
    }
  }

  function Chunks(frames: seq<MetricsFrame>): Bytes {
    if frames == [] then [] else Chunks(frames[..|frames| - 1]) + frames[|frames| - 1].chunk
  }

  lemma {:induction false} PendingChunks(frames: seq<MetricsFrame>, chunks: seq<MetricsFrame>, exporter: string, parses: Bytes -> bool)
    requires frames == [] || frames[|frames| - 1].done
    requires forall f | f in frames + chunks :: f.exporter == exporter
    requires forall f | f in chunks :: !f.done
    ensures Alone(frames + chunks, exporter, parses) == One(Chunks(chunks), Alone(frames, exporter, parses).folds)
  {
    var all := frames + chunks;
    if chunks == [] {
      assert all == frames;
      assert frames != [] ==> frames[|frames| - 1] in all;
    } else {
      var chunks', f := chunks[..|chunks| - 1], chunks[|chunks| - 1];
      assert all[..|all| - 1] == frames + chunks' && all[|all| - 1] == f;
      assert forall g | g in frames + chunks' :: g in all;
      assert f in chunks && f in all;
      PendingChunks(frames, chunks', exporter, parses);
    }
  }

  /** A body split into any chunks is folded whole, byte for byte, and marks the exporter up if it parses. */
  lemma {:induction false} BodyRoundTrip(before: seq<MetricsFrame>, chunks: seq<MetricsFrame>, last: MetricsFrame, exporter: string, parses: Bytes -> bool)
    requires before == [] || before[|before| - 1].done
    requires forall f | f in before + chunks :: f.exporter == exporter
    requires forall f | f in chunks :: !f.done
    requires last.exporter == exporter && last.done && last.error == "" && Chunks(chunks) != []
    ensures Alone(before + chunks + [last], exporter, parses).folds
         == Alone(before, exporter, parses).folds + [Fold(exporter, Some(Chunks(chunks)), parses(Chunks(chunks)))]
  {
    PendingChunks(before, chunks, exporter, parses);
    var all := before + chunks + [last];
    assert all[..|all| - 1] == before + chunks;
  }

  // The accumulator, as it is.

  class ScrapeAccumulator {
    var buffers: map<string, Bytes>
    var folds: seq<Fold>
    var completed: bool

    ghost function Value(): Acc
      reads this
    {
      Acc(buffers, folds)
    }

    constructor ()
      ensures Value() == Acc(map[], []) && !completed
    {
      buffers, folds, completed := map[], [], false;
    }

    method Ingest(mf: MetricsFrame, parses: Bytes -> bool)
      requires forall e | e in buffers :: buffers[e] != []
      modifies this
      ensures Value() == Ingested(old(Value()), mf, parses) && completed == old(completed)
      ensures forall e | e in buffers :: buffers[e] != []
    {
      if !mf.done {
        if |mf.chunk| == 0 {
          return;
        }
        var buf := if mf.exporter in buffers then buffers[mf.exporter] else [];
        buffers := buffers[mf.exporter := buf + mf.chunk];
        return;
      }
      var buf := if mf.exporter in buffers then Some(buffers[mf.exporter]) else None;
      buffers := buffers - {mf.exporter};
      if mf.error != "" {
        folds := folds + [Fold(mf.exporter, None, false)];
      } else if buf.None? {
        folds := folds + [Fold(mf.exporter, None, true)];
      } else {
        folds := folds + [Fold(mf.exporter, buf, parses(buf.value))];
      }
    }

    /** The terminal frame ends the stream and, on a 200, marks the agent as scraped; a frame that cannot be decoded is skipped. */
    method OnFrame(frame: Streams.StreamFrame, decoded: Option<MetricsFrame>, parses: Bytes -> bool) returns (finished: bool)
      requires forall e | e in buffers :: buffers[e] != []
      modifies this
      ensures finished == frame.final
      ensures completed == (old(completed) || (frame.final && frame.code == 200))
      ensures Value() == if !frame.final && decoded.Some? then Ingested(old(Value()), decoded.value, parses) else old(Value())
      ensures forall e | e in buffers :: buffers[e] != []
    {
      if frame.final {
        if frame.code == 200 {
          completed := true;
        }
        return true;
      }
      if decoded.Some? {
        Ingest(decoded.value, parses);
      }
      return false;
    }
  }
}
