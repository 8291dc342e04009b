/**
 One streaming dispatch (`dispatchStream` and its `streamReg` in pkg/controller/registry.go) as a
 step machine: the dispatching goroutine and its cancel function, the Control receive loop
 (`deliverProgress`, `deliver`), any number of `closeAll` calls, and the consumer of the channel.
 A step is one region under the connection's lock, one channel operation, or one stream send.
 */
module Streams {
  import opened Frames

  datatype StreamFrame = StreamFrame(payload: seq<Byte>, code: nat, error: string, final: bool)

  /** The bound of `reg.ch`. */
  const CAPACITY := 64

  /** The channel between the receive loop and the consumer. */
  datatype Delivery = Delivery(
    reliable: bool,
    offered: seq<StreamFrame>,      // frames of this request the receive loop has seen
    inflight: Option<StreamFrame>,  // the frame it is trying to put into the channel
    entered: seq<StreamFrame>,      // frames put into the channel
    taken: seq<StreamFrame>,        // frames the consumer has read
    buffer: seq<StreamFrame>,       // frames in the channel
    lostFinal: bool)                // the terminal frame was dropped

  /** Where a call of the returned cancel function stands. */
  datatype CancelPc = Idle | Closing(send: bool) | SendingCancel

  datatype Phase = Opening | Open | OpenFailed

  datatype Control = Control(
    phase: Phase,
    registered: bool,   // the registration is in pendingStream
    closing: bool,      // a closeAll has collected it and not closed its done yet
    done: bool,         // reg.done is closed
    claimed: bool,      // deliver has claimed the terminal result
    cancelled: bool,    // a cancel found the stream live
    cancel: CancelPc,
    cancelsSent: nat)   // request.cancel commands put on the Control stream

  datatype Stream = Stream(ctl: Control, dlv: Delivery)

  function Fresh(reliable: bool): Stream {
    Stream(Control(Opening, true, false, false, false, false, Idle, 0),
           Delivery(reliable, [], None, [], [], [], false))
  }

  /** Every send reports whether it worked; `connClosed` is the flag the cancel function reads under the lock. */
  datatype Act =
    | SendOpen(ok: bool)
    | CancelLock(connClosed: bool)
    | CancelClose
    | SendCancel(ok: bool)
    | Offer(frame: StreamFrame)   // deliverProgress, or deliver when the frame is final
    | Enter
    | Drop
    | Consume
    | CloseAllLock
    | CloseAllClose

  function ControlNext(c: Control, act: Act): Control {
    match act
    case SendOpen(ok) =>
      if c.phase == Opening then c.(phase := if ok then Open else OpenFailed) else c
    case CancelLock(connClosed) =>
      if c.phase == Opening || c.cancel != Idle then c
      else c.(registered := false, cancelled := c.cancelled || c.registered, cancel := Closing(c.registered && !connClosed))
    case CancelClose =>
      if c.cancel.Closing? then c.(done := true, cancel := if c.cancel.send then SendingCancel else Idle) else c
    case SendCancel(ok) =>
      if c.cancel == SendingCancel then c.(cancel := Idle, cancelsSent := c.cancelsSent + if ok then 1 else 0) else c
    case Offer(f) =>
      if c.registered && f.final then c.(registered := false, claimed := true) else c
    case CloseAllLock =>
      if c.registered then c.(registered := false, closing := true) else c
    case CloseAllClose =>
      if c.closing then c.(closing := false, done := true) else c
    case _ => c
  }

  /** The select of `deliver` and `deliverProgress` may skip the frame only for these reasons. */
  predicate MayDrop(d: Delivery, done: bool)
    requires d.inflight.Some?
  {
    done || (!d.reliable && !d.inflight.value.final && |d.buffer| >= CAPACITY)
  }

  function DeliveryNext(d: Delivery, registered: bool, done: bool, act: Act): Delivery {
    match act
    case Offer(f) =>
      if d.inflight.Some? then d
      else d.(offered := d.offered + [f], inflight := if registered then Some(f) else None)
    case Enter =>
      if d.inflight.None? || |d.buffer| >= CAPACITY then d
      else d.(inflight := None, entered := d.entered + [d.inflight.value], buffer := d.buffer + [d.inflight.value])
    case Drop =>
      if d.inflight.None? || !MayDrop(d, done) then d
      else d.(inflight := None, lostFinal := d.lostFinal || d.inflight.value.final)
    case Consume =>
      if d.buffer == [] then d else d.(taken := d.taken + [d.buffer[0]], buffer := d.buffer[1..])
    case _ => d
  }

  /** The receive loop is one goroutine: it offers nothing while it is busy putting a frame. */
  predicate Enabled(s: Stream, act: Act) {
    act.Offer? ==> s.dlv.inflight.None?
  }

  function Next(s: Stream, act: Act): Stream {
    if !Enabled(s, act) then s
    else Stream(ControlNext(s.ctl, act), DeliveryNext(s.dlv, s.ctl.registered, s.ctl.done, act))
  }

  // Registration, cancel and teardown.

  ghost predicate ControlInv(c: Control) {
    && (c.registered ==> !c.closing && !c.done && !c.claimed && !c.cancelled && c.cancel == Idle)
    && !(c.claimed && c.cancelled)
    && (c.cancel.Closing? && c.cancel.send ==> c.cancelled)
    && (c.cancel == SendingCancel ==> c.cancelled && c.done)
    && c.cancelsSent <= 1
    && ((c.cancel == SendingCancel || (c.cancel.Closing? && c.cancel.send)) ==> c.cancelsSent == 0)
    && (c.cancelsSent > 0 ==> c.cancelled)
    && (c.phase == Opening ==> !c.cancelled && c.cancel == Idle)
    && (!c.registered ==> c.done || c.closing || c.claimed || c.cancel.Closing?)
  }

  // Delivery.

  /** a is what remains of b after dropping some elements. */
  ghost predicate Subsequence(a: seq<StreamFrame>, b: seq<StreamFrame>) {
    a == [] ||
    (b != [] && (Subsequence(a, b[..|b| - 1])
                 || (a[|a| - 1] == b[|b| - 1] && Subsequence(a[..|a| - 1], b[..|b| - 1]))))
  }

  ghost predicate NoFinal(frames: seq<StreamFrame>) {
    forall i | 0 <= i < |frames| :: !frames[i].final
  }

  /** At most one terminal frame, and it is the last. */
  ghost predicate FinalLast(frames: seq<StreamFrame>) {
    forall i | 0 <= i < |frames| - 1 :: !frames[i].final
  }

  /** What the loop has dealt with: everything offered but the frame it holds. */
  function Settled(d: Delivery): seq<StreamFrame> {
    if d.inflight.Some? && d.offered != [] then d.offered[..|d.offered| - 1] else d.offered
  }

  ghost predicate HeldLast(d: Delivery) {
    d.inflight.Some? ==> d.offered != [] && d.offered[|d.offered| - 1] == d.inflight.value
  }

  /** A reliable stream has passed on everything, as long as it is registered or the loop holds a frame of it. */
  ghost predicate Lossless(d: Delivery, registered: bool) {
    d.reliable ==> d.entered <= d.offered && (registered || d.inflight.Some? ==> d.entered == Settled(d))
  }

  ghost predicate Advisory(d: Delivery) {
    Subsequence(d.entered, Settled(d))
  }

  ghost predicate FinalInv(d: Delivery, registered: bool, claimed: bool, done: bool) {
    && FinalLast(d.entered)
    && (registered || d.inflight.Some? ==> NoFinal(d.entered))
    && (registered && d.inflight.Some? ==> !d.inflight.value.final)
    && (claimed ==> d.lostFinal || (d.inflight.Some? && d.inflight.value.final)
                    || (d.entered != [] && d.entered[|d.entered| - 1].final))
    && (d.lostFinal ==> done)
  }

  ghost predicate QueueInv(d: Delivery) {
    d.taken + d.buffer == d.entered && |d.buffer| <= CAPACITY
  }

  lemma LosslessKeeps(d: Delivery, registered: bool, done: bool, act: Act)
    requires HeldLast(d) && Lossless(d, registered) && (done ==> !registered) && (act.Offer? ==> d.inflight.None?)
    ensures var d' := DeliveryNext(d, registered, done, act);
      HeldLast(d') && Lossless(d', registered) && Lossless(d', false)
  {
  }

  lemma AdvisoryKeeps(d: Delivery, registered: bool, done: bool, act: Act)
    requires HeldLast(d) && Advisory(d) && (act.Offer? ==> d.inflight.None?)
    ensures Advisory(DeliveryNext(d, registered, done, act))
  {
  }

  lemma QueueKeeps(d: Delivery, registered: bool, done: bool, act: Act)
    requires QueueInv(d)
    ensures QueueInv(DeliveryNext(d, registered, done, act))
  {
  }

  ghost predicate Inv(s: Stream) {
    && ControlInv(s.ctl)
    && HeldLast(s.dlv) && Lossless(s.dlv, s.ctl.registered) && Advisory(s.dlv) && QueueInv(s.dlv)
    && FinalInv(s.dlv, s.ctl.registered, s.ctl.claimed, s.ctl.done)
  }

  lemma FinalKeeps(s: Stream, act: Act)
    requires Enabled(s, act) && ControlInv(s.ctl) && FinalInv(s.dlv, s.ctl.registered, s.ctl.claimed, s.ctl.done)
    ensures FinalInv(Next(s, act).dlv, Next(s, act).ctl.registered, Next(s, act).ctl.claimed, Next(s, act).ctl.done)
  {
  }

  lemma Keeps(s: Stream, act: Act)
    requires Inv(s)
    ensures Inv(Next(s, act))
  {
    if Enabled(s, act) {
      LosslessKeeps(s.dlv, s.ctl.registered, s.ctl.done, act);
      AdvisoryKeeps(s.dlv, s.ctl.registered, s.ctl.done, act);
      QueueKeeps(s.dlv, s.ctl.registered, s.ctl.done, act);
      FinalKeeps(s, act);
    }
  }

  ghost function Play(reliable: bool, acts: seq<Act>): Stream {
    if acts == [] then Fresh(reliable) else Next(Play(reliable, acts[..|acts| - 1]), acts[|acts| - 1])
  }

  /** Some interleaving of the goroutines around one dispatch reaches s. */
  ghost predicate Reached(s: Stream) {
    exists reliable, acts :: Play(reliable, acts) == s
  }

  lemma ReachedFresh(reliable: bool)
    ensures Reached(Fresh(reliable))
  {
    assert Play(reliable, []) == Fresh(reliable);
  }

  lemma ReachedNext(s: Stream, act: Act)
    requires Reached(s)
    ensures Reached(Next(s, act))
  {
    var reliable, acts :| Play(reliable, acts) == s;
    assert (acts + [act])[..|acts|] == acts;
    assert Play(reliable, acts + [act]) == Next(s, act);
  }

  lemma {:induction false} PlayKeeps(reliable: bool, acts: seq<Act>)
    ensures Inv(Play(reliable, acts))
  {
    if acts != [] {
      PlayKeeps(reliable, acts[..|acts| - 1]);
      Keeps(Play(reliable, acts[..|acts| - 1]), acts[|acts| - 1]);
    }
  }

  /**
   Delivery on one stream, for every interleaving: what enters the channel of a reliable stream is a
   prefix of the frames offered, and of an advisory one a subsequence; there is at most one terminal
   frame and it is last; the terminal frame is dropped only once done is closed; and the consumer
   reads what entered, in order, from a channel that never exceeds its bound.
   */
  ghost predicate Delivered(s: Stream) {
    && (s.dlv.reliable ==> s.dlv.entered <= s.dlv.offered)
    && Subsequence(s.dlv.entered, s.dlv.offered)
    && FinalLast(s.dlv.entered)
    && (s.dlv.lostFinal ==> s.ctl.done)
    && s.dlv.taken + s.dlv.buffer == s.dlv.entered && |s.dlv.buffer| <= CAPACITY
  }

  /** A consumer is never left waiting on a stream nobody will touch again. */
  ghost predicate Watched(s: Stream) {
    || s.ctl.registered || s.ctl.done || s.ctl.closing || s.ctl.cancel.Closing?
    || (s.dlv.inflight.Some? && s.dlv.inflight.value.final)
    || (s.dlv.entered != [] && s.dlv.entered[|s.dlv.entered| - 1].final)
  }

  lemma Delivers(s: Stream)
    requires Reached(s)
    ensures Delivered(s) && Watched(s)
  {
    var reliable, acts :| Play(reliable, acts) == s;
    PlayKeeps(reliable, acts);
    if s.dlv.inflight.Some? {
      assert s.dlv.offered == Settled(s.dlv) + [s.dlv.inflight.value];
    }
  }

  /** At most one request.cancel, and only for a stream whose terminal result is never claimed. */
  lemma CancelsOnce(s: Stream)
    requires Reached(s)
    ensures s.ctl.cancelsSent <= 1 && (s.ctl.cancelsSent > 0 ==> !s.ctl.claimed)
    ensures s.ctl.cancel != Idle ==> s.ctl.phase != Opening
  {
    var reliable, acts :| Play(reliable, acts) == s;
    PlayKeeps(reliable, acts);
  }

  /** What a step does to the opening send, the cancel count and the registration. */
  lemma StepEffect(s: Stream, act: Act)
    ensures !s.ctl.registered || act == CloseAllLock ==> !Next(s, act).ctl.registered
    ensures s.ctl.phase == Opening && act.SendOpen? ==> Next(s, act).ctl.phase == if act.ok then Open else OpenFailed
    ensures !act.SendOpen? ==> Next(s, act).ctl.phase == s.ctl.phase
    ensures Next(s, act).ctl.cancelsSent ==
            s.ctl.cancelsSent + if act == SendCancel(true) && s.ctl.cancel == SendingCancel then 1 else 0
  {
  }
}
