/**
 An upload as its caller sees it: the transfer of the body (module Uploads), the agent's terminal result
 (handleWrite in pkg/agent/fs.go:390-402) and the waiter that await blocks on (module Waiters).
 */
module UploadCalls {
  import opened Frames
  import U = Uploads
  import W = Waiters

  /** `reply` is the agent's result on its way to the controller; the agent sends one. */
  datatype State = State(upload: U.Upload, waiter: W.Waiter, replied: bool, reply: Option<W.AgentResult>)

  datatype Step =
    | Transfer(act: U.Act)
    | Wait(waiterAct: W.Act)
    | Reply(error: string)
    | Deliver

  function Start(relayed: bool, held: Option<seq<Byte>>): State {
    State(U.Fresh(relayed, held), W.Fresh(true), false, None)
  }

  /** The pod that holds the agent awaits once it has passed on the last chunk. */
  predicate LastSent(u: U.Upload) {
    u.body != [] && u.body[|u.body| - 1].last
  }

  predicate Enabled(s: State, step: Step) {
    match step
    case Transfer(act) => !act.SendOpen?
    case Wait(act) => !act.Answer? && (act.Await? ==> LastSent(s.upload))
    case Reply(_) => s.upload.wr.pc == U.Finished && !s.replied
    case Deliver => s.reply.Some? && s.waiter.inflight.None?
  }

  /** Sending the opening request is one step of the waiter and of the upload. */
  function Opened(s: State, act: W.Act): U.Upload {
    if act == W.SendRequest(true) && s.waiter.phase == W.Sending then U.Next(s.upload, U.SendOpen) else s.upload
  }

  function Next(s: State, step: Step): State {
    if !Enabled(s, step) then s
    else match step
      case Transfer(act) => s.(upload := U.Next(s.upload, act))
      case Wait(act) => s.(waiter := W.Next(s.waiter, act), upload := Opened(s, act))
      case Reply(error) => s.(replied := true, reply := Some(W.AgentResult(s.upload.wr.code, [], error)))
      case Deliver => s.(waiter := W.Next(s.waiter, W.Answer(s.reply.value)), reply := None)
  }

  ghost function Run(relayed: bool, held: Option<seq<Byte>>, steps: seq<Step>): State {
    if steps == [] then Start(relayed, held) else Next(Run(relayed, held, steps[..|steps| - 1]), steps[|steps| - 1])
  }

  /** The agent's result reports what the finished write came to. */
  ghost predicate Reports(u: U.Upload, r: W.AgentResult) {
    u.wr.pc == U.Finished && r.code == u.wr.code
  }

  ghost predicate Inv(s: State) {
    && U.Reached(s.upload) && W.Reached(s.waiter)
    && (s.reply.Some? ==> Reports(s.upload, s.reply.value))
    && forall r | r in s.waiter.answers :: Reports(s.upload, r)
  }

  lemma FinishedStays(u: U.Upload, act: U.Act)
    requires u.wr.pc == U.Finished
    ensures U.Next(u, act).wr == u.wr
  {
  }

  lemma AnswersNext(w: W.Waiter, act: W.Act)
    ensures W.Next(w, act).answers == if act.Answer? && w.inflight.None? then w.answers + [act.result] else w.answers
  {
  }

  lemma Keeps(s: State, step: Step)
    requires Inv(s)
    ensures Inv(Next(s, step))
  {
    if Enabled(s, step) {
      match step
      case Transfer(act) =>
        U.ReachedNext(s.upload, act);
        if s.upload.wr.pc == U.Finished {
          FinishedStays(s.upload, act);
        }
      case Wait(act) =>
        W.ReachedNext(s.waiter, act);
        AnswersNext(s.waiter, act);
        U.ReachedNext(s.upload, U.SendOpen);
        if s.upload.wr.pc == U.Finished {
          FinishedStays(s.upload, U.SendOpen);
        }
      case Reply(_) =>
      case Deliver =>
        W.ReachedNext(s.waiter, W.Answer(s.reply.value));
        AnswersNext(s.waiter, W.Answer(s.reply.value));
    }
  }

  lemma {:induction false} RunKeeps(relayed: bool, held: Option<seq<Byte>>, steps: seq<Step>)
    ensures Inv(Run(relayed, held, steps))
  {
    if steps == [] {
      U.ReachedFresh(relayed, held);
      W.ReachedFresh(true);
    } else {
      RunKeeps(relayed, held, steps[..|steps| - 1]);
      Keeps(Run(relayed, held, steps[..|steps| - 1]), steps[|steps| - 1]);
    }
  }

  /**
   In every run, a caller that gets a result knows what became of its upload: the code is 201 if and only
   if the file was committed, and then the whole body was read and the file holds exactly that body.
   */
  lemma ResultTellsTruth(relayed: bool, held: Option<seq<Byte>>, steps: seq<Step>)
    requires var w := W.Result(Run(relayed, held, steps).waiter); w.Some? && w.value.Got?
    ensures var s := Run(relayed, held, steps);
      var code := W.Result(s.waiter).value.result.code;
      && (code == 201 <==> s.upload.wr.committed)
      && (code == 201 ==> s.upload.src.eof && s.upload.wr.file == Some(s.upload.src.read))
  {
    RunKeeps(relayed, held, steps);
    var s := Run(relayed, held, steps);
    W.StaysSafe(s.waiter);
    assert s.waiter.answers[0] in s.waiter.answers;
    ReachedRoundTrip(s.upload);
  }

  lemma ReachedRoundTrip(u: U.Upload)
    requires U.Reached(u)
    ensures U.RoundTrip(u)
  {
    var relayed, held, acts :| U.Play(relayed, held, acts) == u;
    U.UploadRoundTrip(relayed, held, acts);
  }
}
