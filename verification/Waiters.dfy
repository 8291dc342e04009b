/**
 One unary dispatch or upload waiting for its AgentResult (`dispatch`, `dispatchUpload` and `await`
 in pkg/controller/registry.go) as a step machine: the waiting goroutine, the Control receive loop
 (`deliver`) and any number of `closeAll` calls around the request's channel of capacity one.
 */
module Waiters {
  import opened Frames

  datatype AgentResult = AgentResult(code: nat, payload: seq<Byte>, error: string)

  datatype Outcome = Got(result: AgentResult) | Disconnected | ContextDone | SendFailed

  /** An upload whose body could not be sent is abandoned: its handle is dropped and never awaits. */
  datatype Phase = Sending | Uploading | Waiting | Leaving(outcome: Outcome) | Done(outcome: Outcome) | Abandoned

  datatype Waiter = Waiter(
    upload: bool,
    phase: Phase,
    registered: bool,               // the channel is in pending
    answers: seq<AgentResult>,      // results for this request the receive loop has seen
    inflight: Option<AgentResult>,  // the result deliver is about to send on the channel
    channel: Option<AgentResult>,   // the channel's buffer
    closed: bool,                   // the channel is closed
    panicked: bool)                 // a send on a closed channel, or a second close

  function Fresh(upload: bool): Waiter {
    Waiter(upload, Sending, true, [], None, None, false, false)
  }

  datatype Act =
    | SendRequest(ok: bool)
    | Await
    | Abandon
    | Wake(ctxDone: bool)
    | Leave
    | Answer(result: AgentResult)   // deliver's region under the lock
    | Put                           // deliver's send
    | CloseAllLock

  function Next(w: Waiter, act: Act): Waiter {
    match act
    case SendRequest(ok) =>
      if w.phase != Sending then w
      else w.(phase := if !ok then Leaving(SendFailed) else if w.upload then Uploading else Waiting)
    case Await => if w.phase == Uploading then w.(phase := Waiting) else w
    case Abandon => if w.phase == Uploading then w.(phase := Abandoned) else w
    case Wake(ctxDone) =>
      if w.phase != Waiting then w
      else if ctxDone then w.(phase := Leaving(ContextDone))
      else if w.channel.Some? then w.(phase := Leaving(Got(w.channel.value)), channel := None)
      else if w.closed then w.(phase := Leaving(Disconnected))
      else w
    case Leave =>
      if w.phase.Leaving? then w.(registered := false, phase := Done(w.phase.outcome)) else w
    case Answer(result) =>
      if w.inflight.Some? then w
      else w.(answers := w.answers + [result], registered := false, inflight := if w.registered then Some(result) else None)
    case Put =>
      if w.inflight.None? then w
      else if w.closed then w.(panicked := true)
      else if w.channel.Some? then w    // the send would block
      else w.(inflight := None, channel := w.inflight)
    case CloseAllLock =>
      if w.registered then w.(registered := false, closed := true, panicked := w.panicked || w.closed) else w
  }

  /** The outcome a waiter has or is about to return. */
  function Result(w: Waiter): Option<Outcome> {
    match w.phase
    case Leaving(o) => Some(o)
    case Done(o) => Some(o)
    case _ => None
  }

  ghost predicate Inv(w: Waiter) {
    && !w.panicked
    && (w.registered ==> w.answers == [] && w.inflight.None? && w.channel.None? && !w.closed)
    && (w.inflight.Some? ==> w.channel.None? && !w.closed && w.answers != [] && w.inflight.value == w.answers[0])
    && (w.channel.Some? ==> !w.closed && w.answers != [] && w.channel.value == w.answers[0])
    && (Result(w).Some? && Result(w).value.Got? ==> w.answers != [] && Result(w).value.result == w.answers[0])
    && (w.phase in {Sending, Uploading, Waiting} ==> w.registered || w.inflight.Some? || w.channel.Some? || w.closed)
  }

  /** A send of `deliver` can neither block nor panic. */
  predicate CanPut(w: Waiter) {
    w.channel.None? && !w.closed
  }

  lemma Keeps(w: Waiter, act: Act)
    requires Inv(w)
    ensures Inv(Next(w, act))
  {
  }

  ghost function Play(upload: bool, acts: seq<Act>): Waiter {
    if acts == [] then Fresh(upload) else Next(Play(upload, acts[..|acts| - 1]), acts[|acts| - 1])
  }

  /** Some interleaving of the goroutines around one request reaches w. */
  ghost predicate Reached(w: Waiter) {
    exists upload, acts :: Play(upload, acts) == w
  }

  lemma ReachedFresh(upload: bool)
    ensures Reached(Fresh(upload))
  {
    assert Play(upload, []) == Fresh(upload);
  }

  lemma ReachedNext(w: Waiter, act: Act)
    requires Reached(w)
    ensures Reached(Next(w, act))
    ensures !w.registered || act == CloseAllLock ==> !Next(w, act).registered
  {
    var upload, acts :| Play(upload, acts) == w;
    assert (acts + [act])[..|acts|] == acts;
    assert Play(upload, acts + [act]) == Next(w, act);
  }

  lemma {:induction false} PlayKeeps(upload: bool, acts: seq<Act>)
    ensures Inv(Play(upload, acts))
  {
    if acts != [] {
      PlayKeeps(upload, acts[..|acts| - 1]);
      Keeps(Play(upload, acts[..|acts| - 1]), acts[|acts| - 1]);
    }
  }

  /**
   For every interleaving and any number of closeAll calls: no send on a closed channel and no
   double close; a send of deliver finds the channel empty and open; a result handed to the waiter is
   the first one the agent sent for that request; and a waiter that is blocked is still registered,
   has its wakeup, or has one in progress.
   */
  ghost predicate Safe(w: Waiter) {
    && !w.panicked
    && (w.inflight.Some? ==> CanPut(w))
    && (Result(w).Some? && Result(w).value.Got? ==> w.answers != [] && Result(w).value.result == w.answers[0])
    && (w.phase == Waiting ==> w.registered || w.inflight.Some? || w.channel.Some? || w.closed)
  }

  lemma StaysSafe(w: Waiter)
    requires Reached(w)
    ensures Safe(w)
  {
    var upload, acts :| Play(upload, acts) == w;
    PlayKeeps(upload, acts);
  }
}
