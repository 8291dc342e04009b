/**
 Splitting a log stream into lines (pkg/agent/containers.go:22-25 and 422-461): bytes come in pieces of
 any size, a line is emitted when its newline arrives, and a line that grows too long is cut.
 */
module Logs {
  import opened Frames

  const MAX := 65536
  const LF: Byte := 10
  const CR: Byte := 13

  type Line = seq<Byte>

  /** A text cut at its newlines: the lines they end, and what follows the last one. */
  datatype Parts = Parts(lines: seq<Line>, tail: Line)

  function Extend(p: Parts, c: Byte): Parts {
    if c == LF then Parts(p.lines + [p.tail], []) else Parts(p.lines, p.tail + [c])
  }

  function Scan(s: seq<Byte>): Parts {
    if s == [] then Parts([], []) else Extend(Scan(s[..|s| - 1]), s[|s| - 1])
  }

  function Strip(line: Line): Line {
    if line != [] && line[|line| - 1] == CR then line[..|line| - 1] else line
  }

  function StripAll(lines: seq<Line>): (r: seq<Line>) {
    seq(|lines|, i requires 0 <= i < |lines| => Strip(lines[i]))
  }

  lemma StripAllAppend(a: seq<Line>, b: seq<Line>)
    ensures StripAll(a + b) == StripAll(a) + StripAll(b)
  {
  }

  /** The last line, if the text does not end in a newline. */
  function Rest(tail: Line): seq<Line> {
    if tail == [] then [] else [Strip(tail)]
  }

  /** What a reader of the whole text would see. */
  function Whole(s: seq<Byte>): seq<Line> {
    StripAll(Scan(s).lines) + Rest(Scan(s).tail)
  }

  // Facts about scanning.

  lemma {:induction false} TailHasNoNewline(s: seq<Byte>)
    ensures LF !in Scan(s).tail
  {
    if s != [] {
      TailHasNoNewline(s[..|s| - 1]);
    }
  }

  lemma ScanSnoc(s: seq<Byte>, c: Byte)
    ensures Scan(s + [c]) == Extend(Scan(s), c)
  {
    assert (s + [c])[..|s|] == s;
  }

  ghost predicate IsPlain(s: seq<Byte>) {
    Scan(s) == Parts([], s)
  }

  lemma PlainNext(s: seq<Byte>, c: Byte)
    requires IsPlain(s) && c != LF
    ensures IsPlain(s + [c])
  {
    ScanSnoc(s, c);
  }

  lemma ScanPlain(s: seq<Byte>)
    requires LF !in s
    ensures Scan(s) == Parts([], s)
  {
    var i := 0;
    while i < |s|
      invariant 0 <= i <= |s| && IsPlain(s[..i])
    {
      PlainNext(s[..i], s[i]);
      assert s[..i] + [s[i]] == s[..i + 1];
      i := i + 1;
    }
    assert s[..i] == s;
  }

  /** Scanning can stop anywhere and go on from the tail. */
  lemma {:induction false} ScanAppend(a: seq<Byte>, b: seq<Byte>)
    ensures Scan(a + b) == Parts(Scan(a).lines + Scan(Scan(a).tail + b).lines, Scan(Scan(a).tail + b).tail)
  {
    var t := Scan(a).tail;
    if b == [] {
      TailHasNoNewline(a);
      ScanPlain(t);
      assert a + b == a && t + b == t;
    } else {
      var b', c := b[..|b| - 1], b[|b| - 1];
      ScanAppend(a, b');
      assert (a + b)[..|a + b| - 1] == a + b';
      assert (t + b)[..|t + b| - 1] == t + b';
      assert (a + b)[|a + b| - 1] == c == (t + b)[|t + b| - 1];
      var p := Scan(t + b');
      assert Scan(a).lines + (p.lines + [p.tail]) == (Scan(a).lines + p.lines) + [p.tail];
    }
  }

  /** The first line of a text that has one. */
  lemma ScanFirst(line: Line, rest: seq<Byte>)
    requires LF !in line
    ensures Scan(line + [LF] + rest) == Parts([line] + Scan(rest).lines, Scan(rest).tail)
  {
    ScanPlain(line);
    assert (line + [LF])[..|line|] == line;
    assert Scan(line + [LF]) == Parts([line], []);
    ScanAppend(line + [LF], rest);
    assert [] + rest == rest;
  }

  // The writer, on values.

  datatype Writer = Writer(buf: seq<Byte>, emitted: seq<Line>)

  const NEW := Writer([], [])

  function Written(w: Writer, p: seq<Byte>): Writer {
    var parts := Scan(w.buf + p);
    if |parts.tail| >= MAX then Writer([], w.emitted + StripAll(parts.lines) + [Strip(parts.tail)])
    else Writer(parts.tail, w.emitted + StripAll(parts.lines))
  }

  function Flushed(w: Writer): Writer {
    Writer([], w.emitted + Rest(w.buf))
  }

  function WriteAll(chunks: seq<seq<Byte>>): Writer {
    if chunks == [] then NEW else Written(WriteAll(chunks[..|chunks| - 1]), chunks[|chunks| - 1])
  }

  function Concat(chunks: seq<seq<Byte>>): seq<Byte> {
    if chunks == [] then [] else Concat(chunks[..|chunks| - 1]) + chunks[|chunks| - 1]
  }

  /** Everything emitted for a text that arrives in these chunks. */
  function Emitted(chunks: seq<seq<Byte>>): seq<Line> {
    Flushed(WriteAll(chunks)).emitted
  }

  // The writer, as it is.

  /** The lines done so far and those still in the buffer are the lines of the whole. */
  ghost predicate Progress(all: Parts, done: seq<Line>, buf: seq<Byte>) {
    all == Parts(done + Scan(buf).lines, Scan(buf).tail)
  }

  lemma ProgressMade(all: Parts, done: seq<Line>, buf: seq<Byte>, i: nat)
    requires Progress(all, done, buf) && i < |buf| && LF !in buf[..i] && buf[i] == LF
    ensures Progress(all, done + [buf[..i]], buf[i + 1..])
    ensures StripAll(done + [buf[..i]]) == StripAll(done) + [Strip(buf[..i])]
  {
    assert buf == buf[..i] + [LF] + buf[i + 1..];
    ScanFirst(buf[..i], buf[i + 1..]);
    assert (done + [buf[..i]]) + Scan(buf[i + 1..]).lines == done + ([buf[..i]] + Scan(buf[i + 1..]).lines);
  }

  lemma AllScanned(all: Parts, done: seq<Line>, buf: seq<Byte>)
    requires Progress(all, done, buf) && LF !in buf
    ensures all == Parts(done, buf)
  {
    ScanPlain(buf);
    assert done + [] == done;
  }

  class LogLineWriter {
    var buf: seq<Byte>
    var emitted: seq<Line>

    ghost function Value(): Writer
      reads this
    {
      Writer(buf, emitted)
    }

    constructor ()
      ensures Value() == NEW
    {
      buf, emitted := [], [];
    }

    method EmitLine(line: Line)
      modifies this`emitted
      ensures emitted == old(emitted) + [Strip(line)]
    {
      emitted := emitted + [Strip(line)];
    }

    method Write(p: seq<Byte>) returns (n: nat)
      modifies this
      ensures n == |p| && Value() == Written(old(Value()), p)
    {
      n := |p|;
      buf := buf + p;
      ghost var all := Scan(buf);
      ghost var done: seq<Line> := [];
      while true
        invariant Progress(all, done, buf)
        invariant emitted == old(emitted) + StripAll(done)
        invariant all == Scan(old(buf) + p) && n == |p|
        decreases |buf|
      {
        var i := IndexByte(buf, LF);
        if i == |buf| {
          assert buf[..i] == buf;
          break;
        }
        var line := buf[..i];
        ProgressMade(all, done, buf, i);
        done := done + [line];
        EmitLine(line);
        buf := buf[i + 1..];
      }
      AllScanned(all, done, buf);
      if |buf| >= MAX {
        EmitLine(buf);
        buf := [];
      }
    }

    method Flush()
      modifies this
      ensures Value() == Flushed(old(Value()))
    {
      if |buf| > 0 {
        EmitLine(buf);
        buf := [];
      }
    }
  }

  method IndexByte(s: seq<Byte>, b: Byte) returns (i: nat)
    ensures i <= |s| && b !in s[..i] && (i < |s| ==> s[i] == b)
  {
    i := 0;
    while i < |s| && s[i] != b
      invariant i <= |s| && b !in s[..i]
    {
      i := i + 1;
    }
  }

  // Chunking does not matter, exactly when no line is too long.

  /** Every line a newline ends is under the limit, and the last one does not exceed it. */
  ghost predicate Short(s: seq<Byte>) {
    (forall line | line in Scan(s).lines :: |line| < MAX) && |Scan(s).tail| <= MAX
  }

  /** Shortness, seen from every proper prefix. */
  lemma {:induction false} ShortPrefix(a: seq<Byte>, b: seq<Byte>)
    requires b != []
    ensures Short(a + b) ==> |Scan(a).tail| < MAX && Short(a)
    decreases |b|
  {
    var s := a + b;
    if |b| == 1 {
      assert s[..|s| - 1] == a && s[|s| - 1] == b[0];
      if b[0] == LF {
        assert Scan(s).lines[|Scan(a).lines|] == Scan(a).tail;
      }
      assert forall line | line in Scan(a).lines :: line in Scan(s).lines;
    } else {
      var b' := b[..|b| - 1];
      assert s == (a + b') + [b[|b| - 1]];
      ShortPrefix(a + b', [b[|b| - 1]]);
      ShortPrefix(a, b');
    }
  }

  /** Where the writer stands after a text whose proper prefixes all have short tails. */
  function Settled(s: seq<Byte>): Writer {
    var p := Scan(s);
    if |p.tail| < MAX then Writer(p.tail, StripAll(p.lines)) else Writer([], StripAll(p.lines) + [Strip(p.tail)])
  }

  lemma WriteSettled(s: seq<Byte>, p: seq<Byte>)
    requires Short(s + p)
    ensures Written(Settled(s), p) == Settled(s + p)
  {
    if p == [] {
      assert s + p == s;
      TailHasNoNewline(s);
      ScanPlain(Settled(s).buf);
      assert Settled(s).buf + p == Settled(s).buf;
    } else {
      ShortPrefix(s, p);
      ScanAppend(s, p);
      StripAllAppend(Scan(s).lines, Scan(Scan(s).tail + p).lines);
    }
  }

  lemma {:induction false} WriteAllSettled(chunks: seq<seq<Byte>>)
    requires Short(Concat(chunks))
    ensures WriteAll(chunks) == Settled(Concat(chunks))
  {
    if chunks != [] {
      var before, p := Concat(chunks[..|chunks| - 1]), chunks[|chunks| - 1];
      if p == [] {
        assert before + p == before;
      } else {
        ShortPrefix(before, p);
      }
      WriteAllSettled(chunks[..|chunks| - 1]);
      WriteSettled(before, p);
    }
  }

  /** A text without long lines is split the same way however it arrives. */
  lemma ChunkingIrrelevant(chunks: seq<seq<Byte>>)
    requires Short(Concat(chunks))
    ensures Emitted(chunks) == Whole(Concat(chunks))
  {
    WriteAllSettled(chunks);
  }

  /** A text is short unless some proper prefix ends in a long tail. */
  lemma {:induction false} LongPrefix(s: seq<Byte>) returns (a: seq<Byte>, b: seq<Byte>)
    requires !Short(s)
    ensures s == a + b && b != [] && |Scan(a).tail| >= MAX
  {
    if s != [] {
      var s', c := s[..|s| - 1], s[|s| - 1];
      assert s == s' + [c];
      assert forall line | line in Scan(s).lines :: line in Scan(s').lines || line == Scan(s').tail;
      if |Scan(s').tail| >= MAX {
        a, b := s', [c];
      } else if !Short(s') {
        a, b := LongPrefix(s');
        b := b + [c];
        assert s == a + b;
      }
    }
  }

  lemma TwoChunks(a: seq<Byte>, b: seq<Byte>)
    ensures WriteAll([a, b]) == Written(Written(NEW, a), b) && Concat([a, b]) == a + b
  {
    assert [a, b][..1] == [a] && [a][..0] == [];
    assert WriteAll([a]) == Written(NEW, a);
    assert Concat([a]) == [] + a == a;
  }

  /** Text before the first newline joins the first line and adds none. */
  ghost predicate Joined(t: Line, whole: Parts, part: Parts) {
    && |whole.lines| == |part.lines|
    && whole.tail == if part.lines == [] then t + part.tail else part.tail
  }

  lemma JoinedNext(t: Line, whole: Parts, part: Parts, c: Byte)
    requires Joined(t, whole, part)
    ensures Joined(t, Extend(whole, c), Extend(part, c))
  {
  }

  lemma {:induction false} ScanJoins(t: Line, b: seq<Byte>)
    requires LF !in t
    ensures Joined(t, Scan(t + b), Scan(b))
  {
    if b == [] {
      ScanPlain(t);
      assert t + b == t;
    } else {
      var b', c := b[..|b| - 1], b[|b| - 1];
      ScanJoins(t, b');
      JoinedNext(t, Scan(t + b'), Scan(b'), c);
      assert t + b == (t + b') + [c] && b == b' + [c];
      ScanSnoc(t + b', c);
      ScanSnoc(b', c);
    }
  }

  function Count(tail: Line): nat {
    if tail == [] then 0 else 1
  }

  lemma WholeCount(a: seq<Byte>, b: seq<Byte>)
    requires b != [] && Scan(a).tail != []
    ensures |Whole(a + b)| == |Scan(a).lines| + |Scan(b).lines| + Count(Scan(b).tail)
  {
    ScanAppend(a, b);
    TailHasNoNewline(a);
    ScanJoins(Scan(a).tail, b);
  }

  lemma EmittedCount(w: Writer, b: seq<Byte>)
    requires w.buf == []
    ensures |Flushed(Written(w, b)).emitted| == |w.emitted| + |Scan(b).lines| + Count(Scan(b).tail)
  {
    assert w.buf + b == b;
    assert |StripAll(Scan(b).lines)| == |Scan(b).lines|;
    assert |Scan(b).tail| >= MAX ==> Written(w, b).buf == [];
  }

  lemma CutFirst(a: seq<Byte>)
    requires |Scan(a).tail| >= MAX
    ensures Written(NEW, a).buf == [] && |Written(NEW, a).emitted| == |Scan(a).lines| + 1
  {
    assert [] + a == a;
  }

  /** A write that ends inside a long line makes two lines of it. */
  lemma CutTwice(a: seq<Byte>, b: seq<Byte>)
    requires b != [] && |Scan(a).tail| >= MAX
    ensures |Emitted([a, b])| == |Whole(a + b)| + 1
  {
    TwoChunks(a, b);
    CutFirst(a);
    EmittedCount(Written(NEW, a), b);
    WholeCount(a, b);
  }

  /** Every way of cutting the text gives the same lines. */
  ghost predicate SplitsAlike(s: seq<Byte>) {
    forall chunks | Concat(chunks) == s :: Emitted(chunks) == Whole(s)
  }

  /** Exactly: the split does not depend on the chunking if and only if no line is too long. */
  lemma SplitsAlikeExactly(s: seq<Byte>)
    ensures SplitsAlike(s) <==> Short(s)
  {
    if Short(s) {
      forall chunks | Concat(chunks) == s
        ensures Emitted(chunks) == Whole(s)
      {
        ChunkingIrrelevant(chunks);
      }
    } else {
      var a, b := LongPrefix(s);
      CutTwice(a, b);
      TwoChunks(a, b);
    }
  }

  // For every input.

  lemma {:induction false} ScanLengths(s: seq<Byte>)
    ensures |Scan(s).tail| <= |s| && forall line | line in Scan(s).lines :: |line| <= |s|
  {
    if s != [] {
      ScanLengths(s[..|s| - 1]);
    }
  }

  /** The lines one write adds to what was emitted before it. */
  ghost function Added(w: Writer, p: seq<Byte>): seq<Line> {
    Written(w, p).emitted[|w.emitted|..]
  }

  lemma AddedLengths(w: Writer, p: seq<Byte>)
    ensures forall line | line in Added(w, p) :: |line| <= |w.buf| + |p|
  {
    ScanLengths(w.buf + p);
    var parts := Scan(w.buf + p);
    assert Added(w, p) == StripAll(parts.lines) + if |parts.tail| >= MAX then [Strip(parts.tail)] else [];
  }

  /**
   Memory and message size: after every write the buffer is under the limit, and every line a write emits
   is shorter than the limit plus that write's length.
   */
  lemma Bounded(chunks: seq<seq<Byte>>, p: seq<Byte>)
    ensures |WriteAll(chunks).buf| < MAX
    ensures forall line | line in Added(WriteAll(chunks), p) :: |line| < MAX + |p|
  {
    AddedLengths(WriteAll(chunks), p);
  }

  // What becomes of every byte.

  /** A stretch of text that was emitted as one line, and whether a newline ended it. */
  datatype Piece = Piece(line: Line, ended: bool)

  ghost function Ended(lines: seq<Line>): seq<Piece> {
    seq(|lines|, i requires 0 <= i < |lines| => Piece(lines[i], true))
  }

  ghost function Lines(pieces: seq<Piece>): seq<Line> {
    seq(|pieces|, i requires 0 <= i < |pieces| => pieces[i].line)
  }

  /** The piece cut off by a write that leaves too long a tail, if it does. */
  ghost function CutOff(tail: Line): seq<Piece> {
    if |tail| >= MAX then [Piece(tail, false)] else []
  }

  /** The writer that keeps its pieces as they were. */
  datatype Cutter = Cutter(buf: seq<Byte>, pieces: seq<Piece>)

  ghost function Cut(w: Cutter, p: seq<Byte>): Cutter {
    var parts := Scan(w.buf + p);
    Cutter(if |parts.tail| >= MAX then [] else parts.tail, w.pieces + Ended(parts.lines) + CutOff(parts.tail))
  }

  ghost function CutAll(chunks: seq<seq<Byte>>): Cutter {
    if chunks == [] then Cutter([], []) else Cut(CutAll(chunks[..|chunks| - 1]), chunks[|chunks| - 1])
  }

  /** The pieces a text is emitted in when it arrives in these chunks. */
  ghost function PiecesOf(chunks: seq<seq<Byte>>): seq<Piece> {
    var w := CutAll(chunks);
    w.pieces + if w.buf == [] then [] else [Piece(w.buf, false)]
  }

  /** The text of one piece, with the newline that ended it. */
  ghost function TextOf(p: Piece): seq<Byte> {
    p.line + if p.ended then [LF] else []
  }

  ghost function Text(pieces: seq<Piece>): seq<Byte> {
    if pieces == [] then [] else Text(pieces[..|pieces| - 1]) + TextOf(pieces[|pieces| - 1])
  }

  lemma StripLines(pieces: seq<Piece>, lines: seq<Line>, tail: Line)
    ensures StripAll(Lines(pieces + Ended(lines) + CutOff(tail)))
         == StripAll(Lines(pieces)) + StripAll(lines) + if |tail| >= MAX then [Strip(tail)] else []
  {
  }

  /** The writer emits its pieces, each without a trailing CR. */
  lemma {:induction false} EmitsPieces(chunks: seq<seq<Byte>>)
    ensures WriteAll(chunks) == Writer(CutAll(chunks).buf, StripAll(Lines(CutAll(chunks).pieces)))
  {
    if chunks != [] {
      var before, p := chunks[..|chunks| - 1], chunks[|chunks| - 1];
      EmitsPieces(before);
      var parts := Scan(CutAll(before).buf + p);
      StripLines(CutAll(before).pieces, parts.lines, parts.tail);
      assert StripAll(Lines(CutAll(before).pieces)) + StripAll(parts.lines) + []
          == StripAll(Lines(CutAll(before).pieces)) + StripAll(parts.lines);
    }
  }

  lemma Associative(a: seq<Byte>, b: seq<Byte>, c: seq<Byte>)
    ensures (a + b) + c == a + (b + c)
  {
  }

  lemma TextSnoc(pieces: seq<Piece>, p: Piece)
    ensures Text(pieces + [p]) == Text(pieces) + TextOf(p)
  {
    assert (pieces + [p])[..|pieces|] == pieces;
  }

  lemma {:induction false} TextAppend(a: seq<Piece>, b: seq<Piece>)
    ensures Text(a + b) == Text(a) + Text(b)
  {
    if b == [] {
      assert a + b == a;
    } else {
      var b', p := b[..|b| - 1], b[|b| - 1];
      TextAppend(a, b');
      assert a + b == (a + b') + [p];
      TextSnoc(a + b', p);
      Associative(Text(a), Text(b'), TextOf(p));
    }
  }

  /** A text is its ended lines, each with its newline, and its tail. */
  lemma {:induction false} ScanText(s: seq<Byte>)
    ensures Text(Ended(Scan(s).lines)) + Scan(s).tail == s
  {
    if s != [] {
      var init, c := s[..|s| - 1], s[|s| - 1];
      ScanText(init);
      var p := Scan(init);
      assert s == init + [c];
      if c == LF {
        assert Ended(p.lines + [p.tail]) == Ended(p.lines) + [Piece(p.tail, true)];
        TextSnoc(Ended(p.lines), Piece(p.tail, true));
      }
      Associative(Text(Ended(p.lines)), p.tail, [c]);
    }
  }

  lemma TextCutOff(tail: Line)
    ensures Text(CutOff(tail)) + (if |tail| >= MAX then [] else tail) == tail
  {
    if |tail| >= MAX {
      assert CutOff(tail) == [] + [Piece(tail, false)];
      TextSnoc([], Piece(tail, false));
      assert Text([]) + TextOf(Piece(tail, false)) + [] == tail;
    }
  }

  lemma CutText(w: Cutter, p: seq<Byte>)
    ensures Text(Cut(w, p).pieces) + Cut(w, p).buf == Text(w.pieces) + (w.buf + p)
  {
    var parts := Scan(w.buf + p);
    ScanText(w.buf + p);
    TextCutOff(parts.tail);
    TextAppend(w.pieces + Ended(parts.lines), CutOff(parts.tail));
    TextAppend(w.pieces, Ended(parts.lines));
    Associative(Text(w.pieces + Ended(parts.lines)), Text(CutOff(parts.tail)), Cut(w, p).buf);
    Associative(Text(w.pieces), Text(Ended(parts.lines)), parts.tail);
  }

  lemma {:induction false} CutAllText(chunks: seq<seq<Byte>>)
    ensures Text(CutAll(chunks).pieces) + CutAll(chunks).buf == Concat(chunks)
  {
    if chunks != [] {
      var before, p := chunks[..|chunks| - 1], chunks[|chunks| - 1];
      CutAllText(before);
      CutText(CutAll(before), p);
      Associative(Text(CutAll(before).pieces), CutAll(before).buf, p);
    }
  }

  /** A piece that no newline ended was cut for its length; no piece holds a newline. */
  ghost predicate CutForLength(pieces: seq<Piece>) {
    forall p | p in pieces :: LF !in p.line && (p.ended || |p.line| >= MAX)
  }

  lemma {:induction false} ScanLines(s: seq<Byte>)
    ensures forall line | line in Scan(s).lines :: LF !in line
  {
    if s != [] {
      ScanLines(s[..|s| - 1]);
      TailHasNoNewline(s[..|s| - 1]);
    }
  }

  lemma {:induction false} CutAllForLength(chunks: seq<seq<Byte>>)
    ensures CutForLength(CutAll(chunks).pieces) && LF !in CutAll(chunks).buf
  {
    if chunks != [] {
      var w, p := CutAll(chunks[..|chunks| - 1]), chunks[|chunks| - 1];
      CutAllForLength(chunks[..|chunks| - 1]);
      ScanLines(w.buf + p);
      TailHasNoNewline(w.buf + p);
      assert CutForLength(Ended(Scan(w.buf + p).lines));
      assert CutForLength(CutOff(Scan(w.buf + p).tail));
    }
  }

  /** Only the last piece may be unended without having been cut for its length, and then it is not empty. */
  ghost predicate WellCut(pieces: seq<Piece>) {
    && (forall p | p in pieces :: LF !in p.line && (p.ended || p.line != []))
    && (forall i | 0 <= i < |pieces| - 1 :: pieces[i].ended || |pieces[i].line| >= MAX)
  }

  lemma StripLast(pieces: seq<Piece>, tail: Line)
    ensures StripAll(Lines(pieces + [Piece(tail, false)])) == StripAll(Lines(pieces)) + [Strip(tail)]
  {
  }

  lemma WellCutLast(pieces: seq<Piece>, tail: Line)
    requires CutForLength(pieces) && LF !in tail && tail != []
    ensures WellCut(pieces + [Piece(tail, false)])
  {
    var all := pieces + [Piece(tail, false)];
    assert forall i | 0 <= i < |pieces| :: all[i] in pieces;
  }

  /**
   For every text and every chunking: the text is a sequence of pieces, each with the newline that ended
   it, and what is emitted is these pieces in order, each without one trailing CR. Nothing else is
   dropped. A piece that no newline ended and that is not the last has at least MAX bytes.
   */
  lemma NothingLost(chunks: seq<seq<Byte>>)
    ensures Emitted(chunks) == StripAll(Lines(PiecesOf(chunks)))
    ensures Text(PiecesOf(chunks)) == Concat(chunks)
    ensures WellCut(PiecesOf(chunks))
  {
    var w := CutAll(chunks);
    EmitsPieces(chunks);
    CutAllText(chunks);
    CutAllForLength(chunks);
    if w.buf == [] {
      assert w.pieces + [] == w.pieces;
    } else {
      TextSnoc(w.pieces, Piece(w.buf, false));
      StripLast(w.pieces, w.buf);
      WellCutLast(w.pieces, w.buf);
    }
  }

  // A CR is dropped at the end of a piece, which need not be the end of a line.

  predicate EndsInReturn(line: Line) {
    line != [] && line[|line| - 1] == CR
  }

  /** Some cut falls right after a CR with more of the line to come. */
  ghost predicate ReturnLost(pieces: seq<Piece>) {
    exists i :: 0 <= i < |pieces| - 1 && ReturnLostAt(pieces[i], pieces[i + 1])
  }

  predicate ReturnLostAt(p: Piece, next: Piece) {
    !p.ended && EndsInReturn(p.line) && next.line != []
  }

  /** The emitted pieces of every line put together again. */
  datatype Join = Join(lines: seq<Line>, tail: Line, begun: bool)

  ghost function JoinNext(j: Join, p: Piece): Join {
    var tail := j.tail + Strip(p.line);
    if p.ended then Join(j.lines + [tail], [], false) else Join(j.lines, tail, true)
  }

  ghost function JoinAll(pieces: seq<Piece>): Join {
    if pieces == [] then Join([], [], false) else JoinNext(JoinAll(pieces[..|pieces| - 1]), pieces[|pieces| - 1])
  }

  ghost function Rejoined(pieces: seq<Piece>): seq<Line> {
    var j := JoinAll(pieces);
    j.lines + if j.begun then [j.tail] else []
  }

  /** How many CRs were lost inside lines: in an earlier line, in this one; and whether the last cut dropped one. */
  datatype Loss = Loss(before: bool, here: nat, pending: bool)

  ghost function LossNext(l: Loss, p: Piece): Loss {
    var here := l.here + if l.pending && p.line != [] then 1 else 0;
    if p.ended then Loss(l.before || here > 0, 0, false) else Loss(l.before, here, EndsInReturn(p.line))
  }

  ghost function LossOf(pieces: seq<Piece>): Loss {
    if pieces == [] then Loss(false, 0, false) else LossNext(LossOf(pieces[..|pieces| - 1]), pieces[|pieces| - 1])
  }

  ghost function PartsNext(parts: Parts, p: Piece): Parts {
    if p.ended then Parts(parts.lines + [parts.tail + p.line], []) else Parts(parts.lines, parts.tail + p.line)
  }

  /** What is joined differs from the line by the CRs lost in it, and by one that may still turn out to end it. */
  ghost predicate TailMatches(j: Join, parts: Parts, l: Loss) {
    && |j.tail| + l.here + (if l.pending then 1 else 0) == |parts.tail|
    && (l.here == 0 ==> j.tail == if l.pending then parts.tail[..|parts.tail| - 1] else parts.tail)
    && (l.pending <==> EndsInReturn(parts.tail))
    && (j.begun <==> parts.tail != [])
  }

  ghost predicate LinesMatch(lines: seq<Line>, whole: seq<Line>, lost: bool) {
    |lines| == |whole| && (lines == StripAll(whole) <==> !lost)
  }

  lemma TailNext(j: Join, parts: Parts, l: Loss, p: Piece)
    requires TailMatches(j, parts, l) && (p.ended || p.line != [])
    ensures TailMatches(JoinNext(j, p), PartsNext(parts, p), LossNext(l, p))
    ensures j.tail + Strip(p.line) == Strip(parts.tail + p.line) <==> l.here == 0 && !(l.pending && p.line != [])
  {
    var t, line := parts.tail, p.line;
    if line == [] {
      assert t + line == t && j.tail + Strip(line) == j.tail;
    } else {
      StripJoined(t, line);
    }
  }

  lemma StripJoined(t: Line, line: Line)
    requires line != []
    ensures Strip(t + line) == t + Strip(line) && (EndsInReturn(t + line) <==> EndsInReturn(line))
    ensures EndsInReturn(line) ==> (t + line)[..|t + line| - 1] == t + Strip(line)
  {
    assert (t + line)[|t + line| - 1] == line[|line| - 1];
    assert (t + line)[..|t + line| - 1] == t + line[..|line| - 1];
  }

  lemma LinesNext(lines: seq<Line>, whole: seq<Line>, lost: bool, line: Line, full: Line)
    requires LinesMatch(lines, whole, lost)
    ensures LinesMatch(lines + [line], whole + [full], lost || line != Strip(full))
  {
    StripAllAppend(whole, [full]);
    assert StripAll([full]) == [Strip(full)];
    var a, b := lines + [line], StripAll(whole) + [Strip(full)];
    assert a[..|lines|] == lines && b[..|lines|] == StripAll(whole);
    assert a[|lines|] == line && b[|lines|] == Strip(full);
  }

  lemma ScanPiece(pieces: seq<Piece>, p: Piece)
    requires LF !in p.line
    ensures Scan(Text(pieces + [p])) == PartsNext(Scan(Text(pieces)), p)
  {
    var parts := Scan(Text(pieces));
    TextSnoc(pieces, p);
    TailHasNoNewline(Text(pieces));
    ScanAppend(Text(pieces), p.line);
    ScanPlain(parts.tail + p.line);
    assert parts.lines + [] == parts.lines;
    if p.ended {
      ScanSnoc(Text(pieces) + p.line, LF);
      assert Text(pieces) + TextOf(p) == (Text(pieces) + p.line) + [LF];
    } else {
      assert TextOf(p) == p.line;
    }
  }

  lemma {:induction false} JoinMatches(pieces: seq<Piece>)
    requires WellCut(pieces)
    ensures TailMatches(JoinAll(pieces), Scan(Text(pieces)), LossOf(pieces))
    ensures LinesMatch(JoinAll(pieces).lines, Scan(Text(pieces)).lines, LossOf(pieces).before)
  {
    if pieces != [] {
      var before, p := pieces[..|pieces| - 1], pieces[|pieces| - 1];
      assert pieces == before + [p] && p in pieces && forall q | q in before :: q in pieces;
      JoinMatches(before);
      ScanPiece(before, p);
      var j, parts, l := JoinAll(before), Scan(Text(before)), LossOf(before);
      TailNext(j, parts, l, p);
      if p.ended {
        LinesNext(j.lines, parts.lines, l.before, j.tail + Strip(p.line), parts.tail + p.line);
      }
    }
  }

  lemma ReturnLostNext(pieces: seq<Piece>, p: Piece)
    ensures ReturnLost(pieces + [p]) <==> ReturnLost(pieces) || (pieces != [] && ReturnLostAt(pieces[|pieces| - 1], p))
  {
    var more, n := pieces + [p], |pieces|;
    assert forall i | 0 <= i < n - 1 :: ReturnLostAt(more[i], more[i + 1]) <==> ReturnLostAt(pieces[i], pieces[i + 1]);
    if n > 0 && ReturnLostAt(pieces[n - 1], p) {
      assert ReturnLostAt(more[n - 1], more[n]);
    }
  }

  lemma {:induction false} LossExactly(pieces: seq<Piece>)
    ensures ReturnLost(pieces) <==> LossOf(pieces).before || LossOf(pieces).here > 0
    ensures LossOf(pieces).pending <==> pieces != [] && !pieces[|pieces| - 1].ended && EndsInReturn(pieces[|pieces| - 1].line)
  {
    if pieces != [] {
      var n := |pieces| - 1;
      var before := pieces[..n];
      LossExactly(before);
      ReturnLostNext(before, pieces[n]);
      assert pieces == before + [pieces[n]];
    }
  }

  /**
   Exactly: putting the emitted pieces of every line together gives the lines of the whole text if and
   only if no cut falls right after a CR with more of the line to come. Otherwise that CR, which ends no
   line, is lost.
   */
  lemma ReturnsKeptExactly(chunks: seq<seq<Byte>>)
    ensures Rejoined(PiecesOf(chunks)) == Whole(Concat(chunks)) <==> !ReturnLost(PiecesOf(chunks))
  {
    var pieces := PiecesOf(chunks);
    NothingLost(chunks);
    JoinMatches(pieces);
    LossExactly(pieces);
    RejoinedExactly(JoinAll(pieces), Scan(Concat(chunks)), LossOf(pieces));
  }

  lemma RejoinedExactly(j: Join, parts: Parts, l: Loss)
    requires TailMatches(j, parts, l) && LinesMatch(j.lines, parts.lines, l.before)
    ensures j.lines + (if j.begun then [j.tail] else []) == StripAll(parts.lines) + Rest(parts.tail) <==> !l.before && l.here == 0
  {
    var a := j.lines + if j.begun then [j.tail] else [];
    var b := StripAll(parts.lines) + Rest(parts.tail);
    assert a[..|j.lines|] == j.lines && b[..|j.lines|] == StripAll(parts.lines);
    if j.begun {
      assert a[|j.lines|] == j.tail && b[|j.lines|] == Strip(parts.tail);
    }
  }
}
