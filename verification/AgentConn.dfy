/**
 The agentConn object of pkg/controller/registry.go: the fields its mutex guards and the regions
 that run under it, as methods on those fields. Each region is proved to be the step of the
 request-plane machine it stands for.
 */
module AgentConns {
  import S = Streams
  import W = Waiters
  import opened RequestPlane

  /** What `deliver` claimed: a streaming registration, a unary one, or nothing. */
  datatype Claim = ClaimedStream | ClaimedUnary | Unclaimed

  function RegisteredWaiters(s: State): set<nat> {
    set id | id in s.waiters && s.waiters[id].registered
  }

  function RegisteredStreams(s: State): set<nat> {
    set id | id in s.streams && s.streams[id].ctl.registered
  }

  /** A terminal result for a stream takes out that stream's registration and no other. */
  lemma OfferUnregisters(s: State, id: nat, frame: S.StreamFrame)
    requires id in s.streams && s.busy.None? && s.streams[id].dlv.inflight.None? && frame.final
    ensures var s' := Next(s, OnStream(id, S.Offer(frame)));
      && s'.closed == s.closed && s'.waiters == s.waiters && s'.streams.Keys == s.streams.Keys
      && RegisteredStreams(s') == RegisteredStreams(s) - {id}
  {
  }

  /** A result for a waiter takes out that waiter's registration and no other. */
  lemma AnswerUnregisters(s: State, id: nat, result: W.AgentResult)
    requires id in s.waiters && s.busy.None? && s.waiters[id].inflight.None?
    ensures var s' := Next(s, OnWaiter(id, W.Answer(result)));
      && s'.closed == s.closed && s'.streams == s.streams && s'.waiters.Keys == s.waiters.Keys
      && RegisteredWaiters(s') == RegisteredWaiters(s) - {id}
  {
  }

  class AgentConn {
    var closed: bool
    var seqNo: nat
    var pending: set<nat>
    var pendingStream: set<nat>

    /** The object shows exactly what the session state says about its registrations. */
    ghost predicate Shows(s: State)
      reads this
    {
      && closed == s.closed
      && pending == RegisteredWaiters(s)
      && pendingStream == RegisteredStreams(s)
      && (forall id | id in s.waiters || id in s.streams :: id <= seqNo)
    }

    constructor ()
      ensures Shows(Start)
    {
      closed, seqNo, pending, pendingStream := false, 0, {}, {};
    }

    /** The start of `dispatch` and `dispatchUpload`: a fresh request ID, and the registration unless closed. */
    method RegisterUnary(upload: bool, ghost s: State) returns (id: nat, ok: bool)
      requires Shows(s)
      modifies this
      ensures ok == !old(closed) && id !in s.waiters && id !in s.streams
      ensures Shows(Next(s, NewWaiter(id, upload)))
    {
      seqNo := seqNo + 1;
      id, ok := seqNo, !closed;
      if ok {
        pending := pending + {id};
      }
    }

    /** The start of `dispatchStream`. */
    method RegisterStream(reliable: bool, ghost s: State) returns (id: nat, ok: bool)
      requires Shows(s)
      modifies this
      ensures ok == !old(closed) && id !in s.waiters && id !in s.streams
      ensures Shows(Next(s, NewStream(id, reliable)))
    {
      seqNo := seqNo + 1;
      id, ok := seqNo, !closed;
      if ok {
        pendingStream := pendingStream + {id};
      }
    }

    /** The deferred removal of `dispatch` and `await`. */
    method RemoveUnary(id: nat, ghost s: State)
      requires Shows(s) && id in s.waiters && s.waiters[id].phase.Leaving?
      modifies this
      ensures Shows(Next(s, OnWaiter(id, W.Leave)))
    {
      pending := pending - {id};
    }

    /** The region of `deliver`: a streaming registration is claimed before a unary one is looked for. */
    method ClaimResult(id: nat, result: W.AgentResult, ghost s: State) returns (claim: Claim)
      requires Shows(s) && s.busy.None?
      requires id in s.streams ==> id !in s.waiters && s.streams[id].dlv.inflight.None?
      requires id in s.waiters ==> s.waiters[id].inflight.None?
      modifies this
      ensures claim == if id in old(pendingStream) then ClaimedStream
                       else if id in old(pending) then ClaimedUnary else Unclaimed
      ensures id in s.streams ==>
                Shows(Next(s, OnStream(id, S.Offer(S.StreamFrame(result.payload, result.code, result.error, true)))))
      ensures id in s.waiters ==> Shows(Next(s, OnWaiter(id, W.Answer(result))))
      ensures id !in s.streams && id !in s.waiters ==> claim == Unclaimed && Shows(s)
    {
      if id in s.streams {
        OfferUnregisters(s, id, S.StreamFrame(result.payload, result.code, result.error, true));
      } else if id in s.waiters {
        AnswerUnregisters(s, id, result);
      }
      if id in pendingStream {
        pendingStream := pendingStream - {id};
        return ClaimedStream;
      }
      if id in pending {
        pending := pending - {id};
        return ClaimedUnary;
      }
      claim := Unclaimed;
    }

    /** The region of the cancel function returned by `dispatchStream`. */
    method CancelStream(id: nat, ghost s: State) returns (live: bool, wasClosed: bool)
      requires Shows(s) && id in s.streams && s.streams[id].ctl.phase != S.Opening && s.streams[id].ctl.cancel == S.Idle
      modifies this
      ensures live == (id in old(pendingStream)) && wasClosed == closed == old(closed)
      ensures Shows(Next(s, OnStream(id, S.CancelLock(s.closed))))
    {
      live := id in pendingStream;
      if live {
        pendingStream := pendingStream - {id};
      }
      wasClosed := closed;
    }

    /** The region of `closeAll`: every unary channel is closed under the lock, every streaming one collected. */
    method CloseAll(ghost s: State) returns (woken: set<nat>, regs: seq<nat>)
      requires Shows(s)
      modifies this
      ensures Shows(Next(s, RequestPlane.CloseAll))
      ensures woken == old(pending)
      ensures (set id | id in regs) == old(pendingStream) && |regs| == |old(pendingStream)|
    {
      closed := true;
      woken := CloseUnary();
      regs := CollectStreams();
      CloseAllClears(s);
    }

    method CloseUnary() returns (woken: set<nat>)
      modifies this`pending
      ensures pending == {} && woken == old(pending)
    {
      woken := {};
      while pending != {}
        invariant woken + pending == old(pending)
        decreases pending
      {
        var id :| id in pending;
        woken := woken + {id};
        pending := pending - {id};
      }
    }

    method CollectStreams() returns (regs: seq<nat>)
      modifies this`pendingStream
      ensures pendingStream == {} && (set id | id in regs) == old(pendingStream) && |regs| == |old(pendingStream)|
    {
      regs := [];
      while pendingStream != {}
        invariant (set id | id in regs) + pendingStream == old(pendingStream)
        invariant |regs| + |pendingStream| == |old(pendingStream)|
        decreases pendingStream
      {
        var id :| id in pendingStream;
        regs := regs + [id];
        pendingStream := pendingStream - {id};
      }
    }
  }

  lemma CloseAllClears(s: State)
    ensures RegisteredWaiters(Next(s, CloseAll)) == {} && RegisteredStreams(Next(s, CloseAll)) == {}
  {
  }
}
