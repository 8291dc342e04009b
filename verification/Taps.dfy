/**
 A channel of stream frames with its done signal and the one loop that reads it. The loop of consumeStream
 (pkg/controller/api.go:193-221) and the loop of peerServer.DispatchStream (pkg/controller/peer.go:93-123)
 have this shape: pick whatever is ready; once done is seen, drain what is already there and then give up.
 */
module Taps {
  import opened Streams

  type Frame = StreamFrame

  datatype Mode = Picking | Draining | Finished | Aborted | Left

  /** `early` is what had been put into the channel when done closed. */
  datatype Tap = Tap(put: seq<Frame>, buffer: seq<Frame>, taken: seq<Frame>, done: bool, early: seq<Frame>, mode: Mode)

  const EMPTY := Tap([], [], [], false, [], Picking)

  /** `Take(failed)`: the frame is handed on, and the reader stops if that fails or the frame is terminal. */
  datatype Act = Put(frame: Frame) | CloseDone | Take(failed: bool) | SeeDone | GiveUp | Leave

  predicate Reading(t: Tap) {
    t.mode.Picking? || t.mode.Draining?
  }

  function Next(t: Tap, act: Act): Tap {
    match act
    case Put(f) => if |t.buffer| < CAPACITY then t.(put := t.put + [f], buffer := t.buffer + [f]) else t
    case CloseDone => if t.done then t else t.(done := true, early := t.put)
    case Take(failed) =>
      if Reading(t) && t.buffer != [] then
        t.(buffer := t.buffer[1..], taken := t.taken + [t.buffer[0]],
           mode := if failed then Left else if t.buffer[0].final then Finished else t.mode)
      else t
    case SeeDone => if t.mode.Picking? && t.done then t.(mode := Draining) else t
    case GiveUp => if t.mode.Draining? && t.buffer == [] then t.(mode := Aborted) else t
    case Leave => if t.mode.Picking? then t.(mode := Left) else t
  }

  ghost function ButLast(s: seq<Frame>): seq<Frame> {
    if s == [] then s else s[..|s| - 1]
  }

  ghost predicate EndsFinal(s: seq<Frame>) {
    s != [] && s[|s| - 1].final
  }

  /** Only the frame that ends the reading may be terminal. */
  ghost predicate TakenInv(t: Tap) {
    && NoFinal(ButLast(t.taken))
    && (Reading(t) || t.mode.Aborted? ==> NoFinal(t.taken))
    && (t.mode.Finished? ==> EndsFinal(t.taken))
  }

  ghost predicate EarlyInv(t: Tap) {
    && t.put == t.taken + t.buffer
    && t.early <= t.put
    && (t.mode.Draining? || t.mode.Aborted? ==> t.done)
    && (t.mode.Aborted? ==> t.early <= t.taken)
  }

  ghost predicate Inv(t: Tap) {
    TakenInv(t) && EarlyInv(t)
  }

  lemma TakenKeeps(t: Tap, act: Act)
    requires TakenInv(t)
    ensures TakenInv(Next(t, act))
  {
    if act.Take? && Reading(t) && t.buffer != [] {
      assert ButLast(t.taken + [t.buffer[0]]) == t.taken;
    }
  }

  lemma EarlyKeeps(t: Tap, act: Act)
    requires EarlyInv(t)
    ensures EarlyInv(Next(t, act))
  {
    match act
    case Put(f) => assert t.taken + (t.buffer + [f]) == (t.taken + t.buffer) + [f];
    case Take(_) =>
      if Reading(t) && t.buffer != [] {
        assert t.taken + t.buffer == (t.taken + [t.buffer[0]]) + t.buffer[1..];
      }
    case _ =>
  }

  lemma Keeps(t: Tap, act: Act)
    requires Inv(t)
    ensures Inv(Next(t, act))
  {
    TakenKeeps(t, act);
    EarlyKeeps(t, act);
  }

  ghost function Play(acts: seq<Act>): Tap {
    if acts == [] then EMPTY else Next(Play(acts[..|acts| - 1]), acts[|acts| - 1])
  }

  ghost predicate Reached(t: Tap) {
    exists acts :: Play(acts) == t
  }

  lemma ReachedNext(t: Tap, act: Act)
    requires Reached(t)
    ensures Reached(Next(t, act))
  {
    var acts :| Play(acts) == t;
    assert (acts + [act])[..|acts|] == acts;
    assert Play(acts + [act]) == Next(t, act);
  }

  lemma {:induction false} PlayKeeps(acts: seq<Act>)
    ensures Inv(Play(acts))
  {
    if acts != [] {
      PlayKeeps(acts[..|acts| - 1]);
      Keeps(Play(acts[..|acts| - 1]), acts[|acts| - 1]);
    }
  }

  /**
   However the frames and the done signal race, the reader hands on a prefix of what was put, nothing
   after the first terminal frame, and does not report an abort when a terminal frame was put before
   done closed.
   */
  lemma ReadsInOrder(t: Tap)
    requires Reached(t)
    ensures t.taken <= t.put
    ensures NoFinal(ButLast(t.taken))
    ensures t.mode.Finished? ==> EndsFinal(t.taken)
    ensures t.mode.Aborted? ==> t.done && NoFinal(t.early) && t.early <= t.taken
  {
    var acts :| Play(acts) == t;
    PlayKeeps(acts);
  }

  // The loop over any schedule.

  /** What happens around one select: frames that arrive before it, done closing, the case it picks. */
  datatype Pick = PickContext | PickFrame(stop: bool) | PickDone
  datatype Turn = Turn(arrivals: seq<Frame>, closes: bool, pick: Pick)

  /** The channel and the frames whose sender is blocked because it is full. */
  datatype Feed = Feed(tap: Tap, waiting: seq<Frame>)

  /** Senders go on in order as long as there is room. */
  function Fill(f: Feed): Feed
    decreases |f.waiting|
  {
    if f.waiting == [] || |f.tap.buffer| >= CAPACITY then f
    else Fill(Feed(Next(f.tap, Put(f.waiting[0])), f.waiting[1..]))
  }

  function Arrive(f: Feed, turn: Turn): Feed {
    var g := Fill(f.(waiting := f.waiting + turn.arrivals));
    if turn.closes then g.(tap := Next(g.tap, CloseDone)) else g
  }

  /** What a select does: its pick while picking, if it is ready; while draining, a frame or the end. */
  function Chosen(t: Tap, pick: Pick): Act {
    if t.mode.Draining? then (if t.buffer == [] then GiveUp else Take(pick == PickFrame(true)))
    else match pick
      case PickContext => Leave
      case PickFrame(stop) => Take(stop)
      case PickDone => SeeDone
  }

  /** One turn; after the loop has ended nothing more is looked at. */
  function TurnNext(f: Feed, turn: Turn): Feed {
    if !Reading(f.tap) then f
    else
      var g := Arrive(f, turn);
      g.(tap := Next(g.tap, Chosen(g.tap, turn.pick)))
  }

  /** What reading a schedule comes to. */
  ghost function Consumed(f: Feed, turns: seq<Turn>): Feed {
    if turns == [] then f else TurnNext(Consumed(f, turns[..|turns| - 1]), turns[|turns| - 1])
  }

  lemma {:induction false} ConsumedEnds(f: Feed, turns: seq<Turn>, k: nat)
    requires k <= |turns| && !Reading(Consumed(f, turns[..k]).tap)
    ensures Consumed(f, turns) == Consumed(f, turns[..k])
    decreases |turns| - k
  {
    if k == |turns| {
      assert turns[..k] == turns;
    } else {
      assert turns[..k + 1][..k] == turns[..k];
      ConsumedEnds(f, turns, k + 1);
    }
  }

  lemma {:induction false} ConsumedFrom(f: Feed, a: seq<Turn>, b: seq<Turn>)
    ensures Consumed(f, a + b) == Consumed(Consumed(f, a), b)
  {
    var all := a + b;
    if b == [] {
      assert all == a;
    } else {
      ConsumedFrom(f, a, b[..|b| - 1]);
      assert all[..|all| - 1] == a + b[..|b| - 1] && all[|all| - 1] == b[|b| - 1];
    }
  }

  method FillChannel(f: Feed) returns (r: Feed)
    ensures r == Fill(f)
  {
    r := f;
    while r.waiting != [] && |r.tap.buffer| < CAPACITY
      invariant Fill(r) == Fill(f)
      decreases |r.waiting|
    {
      r := Feed(Next(r.tap, Put(r.waiting[0])), r.waiting[1..]);
    }
  }

  method Environment(f: Feed, turn: Turn) returns (r: Feed)
    ensures r == Arrive(f, turn)
  {
    r := FillChannel(f.(waiting := f.waiting + turn.arrivals));
    if turn.closes {
      r := r.(tap := Next(r.tap, CloseDone));
    }
  }

  lemma ConsumedNext(f: Feed, turns: seq<Turn>, i: nat, g: Feed)
    requires i < |turns| && g == Consumed(f, turns[..i]) && Reading(g.tap)
    ensures var h := Arrive(g, turns[i]);
      Consumed(f, turns[..i + 1]) == h.(tap := Next(h.tap, Chosen(h.tap, turns[i].pick)))
  {
    assert turns[..i + 1][..i] == turns[..i];
  }

  /** The select of the outer loop. */
  method Select(f: Feed, pick: Pick, taken: seq<Frame>) returns (r: Feed, handed: seq<Frame>)
    requires f.tap.mode.Picking? && taken == f.tap.taken
    ensures r == f.(tap := Next(f.tap, Chosen(f.tap, pick)))
    ensures handed == r.tap.taken && !r.tap.mode.Aborted?
  {
    r, handed := f, taken;
    match pick
    case PickContext => r := f.(tap := Next(f.tap, Leave));
    case PickFrame(stop) =>
      if f.tap.buffer != [] {
        handed := taken + [f.tap.buffer[0]];
        r := f.(tap := Next(f.tap, Take(stop)));
      }
    case PickDone =>
      if f.tap.done {
        r := f.(tap := Next(f.tap, SeeDone));
      }
  }

  /** The select of the inner loop: a frame if there is one, otherwise the end. */
  method SelectOrGiveUp(f: Feed, pick: Pick, taken: seq<Frame>) returns (r: Feed, handed: seq<Frame>, aborted: bool)
    requires f.tap.mode.Draining? && taken == f.tap.taken
    ensures r == f.(tap := Next(f.tap, Chosen(f.tap, pick)))
    ensures handed == r.tap.taken && aborted == (f.tap.buffer == []) == r.tap.mode.Aborted?
  {
    if f.tap.buffer == [] {
      return f.(tap := Next(f.tap, GiveUp)), taken, true;
    }
    r := f.(tap := Next(f.tap, Take(pick == PickFrame(true))));
    handed, aborted := taken + [f.tap.buffer[0]], false;
  }

  /**
   consumeStream over any schedule: the frames it hands to onFrame, in order, and whether it calls
   onAbort. A select whose picked case is not ready blocks until the next turn.
   */
  method ConsumeStream(turns: seq<Turn>) returns (f: Feed, handed: seq<Frame>, aborted: bool)
    ensures f == Consumed(Feed(EMPTY, []), turns)
    ensures handed == f.tap.taken && (aborted <==> f.tap.mode.Aborted?)
  {
    ghost var start := Feed(EMPTY, []);
    f, handed, aborted := Feed(EMPTY, []), [], false;
    var i := 0;
    while i < |turns|
      invariant 0 <= i <= |turns|
      invariant f == Consumed(start, turns[..i])
      invariant f.tap.mode.Picking? && handed == f.tap.taken && !aborted
    {
      ConsumedNext(start, turns, i, f);
      ArriveKeeps(f, turns[i]);
      f := Environment(f, turns[i]);
      f, handed := Select(f, turns[i].pick, handed);
      i := i + 1;
      if f.tap.mode.Draining? {
        ConsumedFrom(start, turns[..i], turns[i..]);
        assert turns == turns[..i] + turns[i..];
        f, handed, aborted := Drain(f, turns[i..]);
        return;
      }
      if !Reading(f.tap) {
        ConsumedEnds(start, turns, i);
        return;
      }
    }
    assert turns[..i] == turns;
  }

  /** The inner loop: take what is there, give up as soon as there is nothing. */
  method Drain(start: Feed, turns: seq<Turn>) returns (f: Feed, handed: seq<Frame>, aborted: bool)
    requires start.tap.mode.Draining?
    ensures f == Consumed(start, turns)
    ensures handed == f.tap.taken && (aborted <==> f.tap.mode.Aborted?)
  {
    f, handed, aborted := start, start.tap.taken, false;
    var i := 0;
    while i < |turns|
      invariant 0 <= i <= |turns|
      invariant f == Consumed(start, turns[..i])
      invariant f.tap.mode.Draining? && handed == f.tap.taken && !aborted
    {
      ConsumedNext(start, turns, i, f);
      ArriveKeeps(f, turns[i]);
      f := Environment(f, turns[i]);
      f, handed, aborted := SelectOrGiveUp(f, turns[i].pick, handed);
      i := i + 1;
      if !Reading(f.tap) {
        ConsumedEnds(start, turns, i);
        return;
      }
    }
    assert turns[..i] == turns;
  }

  // What a schedule says has arrived, and what became of it.

  ghost function Arrived(turns: seq<Turn>): seq<Frame> {
    if turns == [] then [] else Arrived(turns[..|turns| - 1]) + turns[|turns| - 1].arrivals
  }

  ghost predicate Closes(turns: seq<Turn>) {
    exists i :: 0 <= i < |turns| && turns[i].closes
  }

  /** All that came is in the channel's history or blocked, and blocked only by a full channel. */
  ghost predicate Holds(f: Feed, came: seq<Frame>) {
    f.tap.put + f.waiting == came
  }

  lemma {:induction false} FillKeeps(f: Feed)
    ensures Fill(f).tap.mode == f.tap.mode && Fill(f).tap.taken == f.tap.taken && Fill(f).tap.done == f.tap.done
    ensures Reached(f.tap) ==> Reached(Fill(f).tap)
    decreases |f.waiting|
  {
    if f.waiting != [] && |f.tap.buffer| < CAPACITY {
      if Reached(f.tap) {
        ReachedNext(f.tap, Put(f.waiting[0]));
      }
      FillKeeps(Feed(Next(f.tap, Put(f.waiting[0])), f.waiting[1..]));
    }
  }

  /** Filling moves frames and loses none; whatever still waits is blocked by a full channel. */
  lemma {:induction false} FillMoves(f: Feed)
    ensures Fill(f).tap.put + Fill(f).waiting == f.tap.put + f.waiting
    ensures Fill(f).waiting != [] ==> |Fill(f).tap.buffer| >= CAPACITY
    decreases |f.waiting|
  {
    if f.waiting != [] && |f.tap.buffer| < CAPACITY {
      FillMoves(Feed(Next(f.tap, Put(f.waiting[0])), f.waiting[1..]));
    }
  }

  lemma ArriveKeeps(f: Feed, turn: Turn)
    ensures var g := Arrive(f, turn); g.tap.mode == f.tap.mode && g.tap.taken == f.tap.taken
    ensures Arrive(f, turn).tap.done == (f.tap.done || turn.closes)
    ensures Arrive(f, turn).tap.put + Arrive(f, turn).waiting == f.tap.put + (f.waiting + turn.arrivals)
    ensures Reached(f.tap) ==> Reached(Arrive(f, turn).tap)
  {
    var g := Fill(f.(waiting := f.waiting + turn.arrivals));
    FillKeeps(f.(waiting := f.waiting + turn.arrivals));
    FillMoves(f.(waiting := f.waiting + turn.arrivals));
    if Reached(f.tap) && turn.closes {
      ReachedNext(g.tap, CloseDone);
    }
  }

  lemma TurnKeeps(f: Feed, turn: Turn, came: seq<Frame>)
    requires Reached(f.tap) && Reading(f.tap) && Holds(f, came)
    ensures Reached(TurnNext(f, turn).tap) && Holds(TurnNext(f, turn), came + turn.arrivals)
    ensures TurnNext(f, turn).tap.done == (f.tap.done || turn.closes)
  {
    ArriveKeeps(f, turn);
    assert f.tap.put + (f.waiting + turn.arrivals) == (f.tap.put + f.waiting) + turn.arrivals;
    var g := Arrive(f, turn);
    ReachedNext(g.tap, Chosen(g.tap, turn.pick));
  }

  /** The turns the loop looked at: all of them, or those up to the one that ended it. */
  ghost predicate Looked(turns: seq<Turn>, k: nat, f: Feed) {
    k <= |turns| && (k < |turns| ==> !Reading(f.tap))
  }

  lemma ClosesNext(turns: seq<Turn>, turn: Turn)
    ensures Closes(turns + [turn]) <==> Closes(turns) || turn.closes
  {
    var more := turns + [turn];
    assert forall i | 0 <= i < |turns| :: more[i] == turns[i];
    assert more[|turns|] == turn;
  }

  /**
   consumeStream's run is a run of the reader, fed with exactly what arrived in the turns it looked at, in
   order, and with done closed exactly when one of them closed it.
   */
  lemma {:induction false} ConsumedFaithfully(turns: seq<Turn>) returns (k: nat)
    ensures var f := Consumed(Feed(EMPTY, []), turns);
      && Looked(turns, k, f) && Reached(f.tap)
      && f.tap.put + f.waiting == Arrived(turns[..k])
      && (f.tap.done <==> Closes(turns[..k]))
  {
    if turns == [] {
      assert Play([]) == EMPTY;
      return 0;
    }
    var before, turn := turns[..|turns| - 1], turns[|turns| - 1];
    k := ConsumedFaithfully(before);
    var f := Consumed(Feed(EMPTY, []), before);
    assert before[..k] == turns[..k];
    if Reading(f.tap) {
      assert turns[..|turns|] == turns == before + [turn] && before[..k] == before;
      TurnKeeps(f, turn, Arrived(before));
      ClosesNext(before, turn);
      k := |turns|;
    }
  }

  /** What consumeStream hands on is a prefix of what arrived, up to the first terminal frame, whatever the schedule. */
  lemma HandsOnWhatArrived(turns: seq<Turn>)
    ensures var f := Consumed(Feed(EMPTY, []), turns);
      && f.tap.taken <= Arrived(turns)
      && NoFinal(ButLast(f.tap.taken))
      && (f.tap.mode.Finished? ==> EndsFinal(f.tap.taken))
      && (f.tap.mode.Aborted? ==> Closes(turns) && NoFinal(f.tap.taken))
  {
    var k := ConsumedFaithfully(turns);
    var f := Consumed(Feed(EMPTY, []), turns);
    ReadsInOrder(f.tap);
    ArrivedPrefix(turns, k);
    var acts :| Play(acts) == f.tap;
    PlayKeeps(acts);
  }

  lemma {:induction false} ArrivedPrefix(turns: seq<Turn>, k: nat)
    requires k <= |turns|
    ensures Arrived(turns[..k]) <= Arrived(turns)
    decreases |turns| - k
  {
    if k == |turns| {
      assert turns[..k] == turns;
    } else {
      assert turns[..k + 1][..k] == turns[..k];
      ArrivedPrefix(turns, k + 1);
    }
  }
}
