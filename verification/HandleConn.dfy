/**
 One public connection from accept to close: `handleConn`, `handleLocal` and `handleRemote` in
 pkg/controller/forward_handler.go with the client half of the peer handshake in
 pkg/controller/peer_forward.go. Everything the handler asks of the world is answered by an
 environment, so a theorem about all environments is a theorem about every run; what it does to the
 public socket, to peer streams and to the failure counter is watched by an observer.
 */
module HandleConn {
  import opened Frames
  import opened Ports

  datatype Lookup = PortNotFound | LookupFailed | Found(mapping: Mapping)

  /** What ends the wait of `handleLocal`: a session whose first frame is OPEN or RESET, the timer, or the context. */
  datatype Pairing = FirstOpen | FirstReset | TimedOut | Cancelled

  datatype LocalEnv = LocalEnv(sessionOk: bool, sendOk: bool, pairing: Pairing, spliceOk: bool)

  datatype Locate = LocateFailed | Located(addr: string)

  /** How far `peerClients.forward` gets; `stale` is a FailedPrecondition status. */
  datatype PeerReply =
    | DialFailed
    | StreamFailed(stale: bool)
    | SendFailed(stale: bool)
    | RecvFailed(stale: bool)
    | Replied(kind: FrameKind)

  datatype AttemptEnv = AttemptEnv(locate: Locate, sessionOk: bool, session: string, reply: PeerReply, spliceOk: bool)

  datatype Env = Env(
    lookup: Lookup,
    held: bool,             // this pod holds the agent
    local: LocalEnv,
    peers: bool,            // cross-pod forwarding is enabled
    selfAddr: string,
    attempts: seq<AttemptEnv>)

  /** Session IDs are fresh: two attempts of one connection never share one. */
  ghost predicate Fresh(env: Env) {
    |env.attempts| == 2 && env.attempts[0].session != env.attempts[1].session
  }

  datatype Event =
    | Count(reason: string)       // recordForwardFailure
    | Abort                       // rstClose of the public socket
    | Close                       // the deferred close of the public socket
    | PushOpenForward
    | OpenPeer(session: string)   // peerClients.forward is called
    | StaleHolder                 // ... and returns errAgentNotConnected
    | StreamOpened
    | CloseSend
    | Established                 // an OPEN-first local session, or a peer's READY
    | ReadPublic                  // SpliceConn reads the public socket
    | SpliceClose                 // SpliceConn closes it, exactly once (Endpoints.Teardown)
    | SessionDone                 // close(session.done)

  // What the handler has done so far.

  datatype Effects = Effects(
    closes: nat,
    reasons: seq<string>,
    established: bool,
    wasRead: bool,
    earlyRead: bool,        // a public byte was read before the path was established, or after the socket was closed
    opens: seq<string>,
    stale: bool,            // the last peer open was rejected by a stale holder
    badRetry: bool,         // a peer open followed one that was not
    streams: int,           // peer streams opened and not close-sent
    pushes: nat,            // OpenForward commands pushed to the agent
    dones: nat)             // sessions whose done was closed

  const Clear := Effects(0, [], false, false, false, [], false, false, 0, 0, 0)

  function Observe(a: Effects, e: Event): Effects {
    match e
    case Count(reason) => a.(reasons := a.reasons + [reason])
    case Abort => a.(closes := a.closes + 1)
    case Close => a.(closes := a.closes + 1)
    case SpliceClose => a.(closes := a.closes + 1)
    case OpenPeer(session) =>
      a.(opens := a.opens + [session], badRetry := a.badRetry || (a.opens != [] && !a.stale), stale := false)
    case StaleHolder => a.(stale := true)
    case StreamOpened => a.(streams := a.streams + 1)
    case CloseSend => a.(streams := a.streams - 1)
    case Established => a.(established := true)
    case PushOpenForward => a.(pushes := a.pushes + 1)
    case SessionDone => a.(dones := a.dones + 1)
    case ReadPublic => a.(wasRead := true, earlyRead := a.earlyRead || !a.established || a.closes > 0)
  }

  // Which failure a connection is counted under, stated over the environment alone.

  function PeerStale(reply: PeerReply): bool {
    match reply
    case StreamFailed(stale) => stale
    case SendFailed(stale) => stale
    case RecvFailed(stale) => stale
    case _ => false
  }

  function Spliced(ok: bool): Option<string> {
    if ok then None else Some("splice")
  }

  function LocalReason(local: LocalEnv): Option<string> {
    if !local.sessionOk then Some("session_id")
    else if !local.sendOk then Some("send_open_forward")
    else match local.pairing
      case FirstOpen => Spliced(local.spliceOk)
      case FirstReset => Some("agent_rejected")
      case TimedOut => Some("pair_timeout")
      case Cancelled => None
  }

  /** The attempt gets as far as asking a peer. */
  predicate Asks(env: Env, a: AttemptEnv) {
    a.locate.Located? && a.locate.addr != "" && a.locate.addr != env.selfAddr && a.sessionOk
  }

  /** Why an attempt asks no peer. */
  function Unasked(env: Env, a: AttemptEnv): string {
    if a.locate.LocateFailed? then "locate_holder"
    else if a.locate.addr == "" then "holder_unavailable"
    else if a.locate.addr == env.selfAddr then "holder_self"
    else "session_id"
  }

  function AttemptReason(env: Env, i: nat): Option<string>
    requires i < |env.attempts| == 2
    decreases 2 - i
  {
    var a := env.attempts[i];
    if !Asks(env, a) then Some(Unasked(env, a))
    else if a.reply == Replied(READY) then Spliced(a.spliceOk)
    else if PeerStale(a.reply) && i == 0 then AttemptReason(env, 1)
    else Some("remote_open")
  }

  function Reason(env: Env): Option<string>
    requires |env.attempts| == 2
  {
    match env.lookup
    case PortNotFound => Some("port_not_found")
    case LookupFailed => Some("lookup_mapping")
    case Found(mapping) =>
      if mapping.suspended then Some("port_suspended")
      else if env.held then LocalReason(env.local)
      else if !env.peers then Some("cross_pod_disabled")
      else AttemptReason(env, 0)
  }

  // For which answers of the world a path opens, and which sessions are opened on peers.

  /** The mapping is found and not suspended: the handler goes on to the agent. */
  predicate Mapped(env: Env) {
    env.lookup.Found? && !env.lookup.mapping.suspended
  }

  predicate LocalOpens(local: LocalEnv) {
    local.sessionOk && local.sendOk && local.pairing == FirstOpen
  }

  /** The first attempt asks a peer that turns out to be a stale holder, and the second asks again. */
  predicate AsksTwice(env: Env)
    requires |env.attempts| == 2
  {
    Asks(env, env.attempts[0]) && PeerStale(env.attempts[0].reply) && Asks(env, env.attempts[1])
  }

  /** Some attempt that is made asks a peer and gets READY. */
  predicate RemoteOpens(env: Env)
    requires |env.attempts| == 2
  {
    env.peers && ((Asks(env, env.attempts[0]) && env.attempts[0].reply == Replied(READY))
                  || (AsksTwice(env) && env.attempts[1].reply == Replied(READY)))
  }

  predicate PathOpens(env: Env)
    requires |env.attempts| == 2
  {
    Mapped(env) && if env.held then LocalOpens(env.local) else RemoteOpens(env)
  }

  function RemoteSessions(env: Env): seq<string>
    requires |env.attempts| == 2
  {
    if !env.peers || !Asks(env, env.attempts[0]) then []
    else if AsksTwice(env) then [env.attempts[0].session, env.attempts[1].session]
    else [env.attempts[0].session]
  }

  /** The sessions opened on peers, in order. */
  function Opens(env: Env): seq<string>
    requires |env.attempts| == 2
  {
    if Mapped(env) && !env.held then RemoteSessions(env) else []
  }

  function Pushes(local: LocalEnv): nat {
    if local.sessionOk && local.sendOk then 1 else 0
  }

  /** A session that was received, to be spliced or refused, is closed once. */
  function Dones(local: LocalEnv): nat {
    if Pushes(local) == 1 && (local.pairing == FirstOpen || local.pairing == FirstReset) then 1 else 0
  }

  function Reasons(reason: Option<string>): seq<string> {
    if reason.Some? then [reason.value] else []
  }

  // The handler. Each method is given what was done before it, and returns what has been done after it.

  method Fail(fx: Effects, reason: string) returns (fx': Effects)
    ensures fx' == Observe(Observe(fx, Count(reason)), Abort)
  {
    fx' := Observe(fx, Count(reason));
    fx' := Observe(fx', Abort);
  }

  /** `SpliceConn` on the public socket, counted when it fails. */
  method Splice(fx: Effects, ok: bool) returns (fx': Effects)
    ensures var a := fx;
      fx' == a.(closes := a.closes + 1, wasRead := true,
                            earlyRead := a.earlyRead || !a.established || a.closes > 0,
                            reasons := a.reasons + Reasons(Spliced(ok)))
  {
    fx' := Observe(fx, ReadPublic);
    fx' := Observe(fx', SpliceClose);
    if !ok {
      fx' := Observe(fx', Count("splice"));
    }
  }

  /** `handleLocal`. */
  method HandleLocal(local: LocalEnv) returns (fx: Effects)
    ensures fx == Clear.(closes := 1, reasons := Reasons(LocalReason(local)),
                         established := LocalOpens(local), wasRead := LocalOpens(local),
                         pushes := Pushes(local), dones := Dones(local))
  {
    fx := Clear;
    if !local.sessionOk {
      fx := Fail(fx, "session_id");
      return;
    }
    if !local.sendOk {
      fx := Fail(fx, "send_open_forward");
      return;
    }
    fx := Observe(fx, PushOpenForward);
    match local.pairing {
      case FirstReset =>
        fx := Observe(fx, Count("agent_rejected"));
        fx := Observe(fx, SessionDone);
        fx := Observe(fx, Abort);
      case FirstOpen =>
        fx := Observe(fx, Established);
        fx := Splice(fx, local.spliceOk);
        fx := Observe(fx, SessionDone);
      case TimedOut =>
        fx := Fail(fx, "pair_timeout");
      case Cancelled =>
        fx := Observe(fx, Abort);
    }
  }

  /**
   `peerClients.forward`: ready means READY was received; otherwise the deferred function close-sends
   a stream that had been opened.
   */
  method PeerForward(fx: Effects, session: string, reply: PeerReply)
    returns (fx': Effects, ready: bool, stale: bool)
    ensures ready == (reply == Replied(READY)) && stale == PeerStale(reply)
    ensures var a := Observe(fx, OpenPeer(session));
      fx' == if ready then a.(streams := a.streams + 1, established := true) else a.(stale := stale)
  {
    ready, stale := false, false;
    fx' := Observe(fx, OpenPeer(session));
    if reply.DialFailed? {
      return;
    }
    if reply.StreamFailed? {
      stale := reply.stale;
      if stale { fx' := Observe(fx', StaleHolder); }
      return;
    }
    fx' := Observe(fx', StreamOpened);
    match reply {
      case SendFailed(failedPrecondition) =>
        stale := failedPrecondition;
      case RecvFailed(failedPrecondition) =>
        stale := failedPrecondition;
      case Replied(kind) =>
        if kind == READY {
          ready := true;
          fx' := Observe(fx', Established);
          return;
        }
    }
    fx' := Observe(fx', CloseSend);
    if stale { fx' := Observe(fx', StaleHolder); }
  }

  /** What every path through the handler owes, whatever it was answered. */
  ghost predicate Settled(a: Effects) {
    && a.closes == 1                                        // the public socket is closed exactly once
    && !a.earlyRead && (a.wasRead <==> a.established)       // and read only on an established path
    && |a.opens| <= 2 && !a.badRetry                        // a second peer open only after a stale holder
    && (|a.opens| == 2 ==> a.opens[0] != a.opens[1])        // with another session ID
    && a.streams == 0                                       // every peer stream is close-sent exactly once
    && |a.reasons| <= 1                                     // at most one failure is counted
  }

  /** The part of an attempt before the peer is asked. */
  method Resolve(env: Env, a: AttemptEnv, fx: Effects) returns (fx': Effects, asks: bool)
    ensures asks == Asks(env, a)
    ensures fx' == if asks then fx else Observe(Observe(fx, Count(Unasked(env, a))), Abort)
  {
    fx', asks := fx, false;
    if a.locate.LocateFailed? {
      fx' := Fail(fx, "locate_holder");
      return;
    }
    if a.locate.addr == "" {
      fx' := Fail(fx, "holder_unavailable");
      return;
    }
    if a.locate.addr == env.selfAddr {
      fx' := Fail(fx, "holder_self");
      return;
    }
    if !a.sessionOk {
      fx' := Fail(fx, "session_id");
      return;
    }
    asks := true;
  }

  /** `handleRemote`. */
  method HandleRemote(env: Env) returns (fx: Effects)
    requires Fresh(env)
    ensures Settled(fx)
    ensures fx.reasons == Reasons(if env.peers then AttemptReason(env, 0) else Some("cross_pod_disabled"))
    ensures fx.wasRead <==> RemoteOpens(env)
    ensures fx.opens == RemoteSessions(env)
    ensures fx.pushes == 0 && fx.dones == 0
  {
    fx := Clear;
    if !env.peers {
      fx := Fail(fx, "cross_pod_disabled");
      return;
    }
    var attempt := 0;
    while attempt < 2
      invariant 0 <= attempt <= 1
      invariant fx == if attempt == 0 then Clear else Clear.(opens := [env.attempts[0].session], stale := true)
      invariant AttemptReason(env, 0) == AttemptReason(env, attempt)
      invariant attempt == 1 ==> Asks(env, env.attempts[0]) && PeerStale(env.attempts[0].reply)
      decreases 2 - attempt
    {
      var a := env.attempts[attempt];
      var asks;
      fx, asks := Resolve(env, a, fx);
      if !asks {
        return;
      }
      var ready, stale;
      fx, ready, stale := PeerForward(fx, a.session, a.reply);
      if !ready {
        if stale && attempt == 0 {
          attempt := attempt + 1;
          continue;
        }
        fx := Fail(fx, "remote_open");
        return;
      }
      fx := Splice(fx, a.spliceOk);
      fx := Observe(fx, CloseSend);
      return;
    }
  }

  /**
   `handleConn`, for every environment: retry before read, and exactly one close. The public socket is
   read exactly when the world's answers open a path, the sessions opened on peers are exactly those the
   answers call for, and the failure counted is the one the first failing step names.
   */
  method HandleConn(env: Env) returns (fx: Effects)
    requires Fresh(env)
    ensures Settled(fx)
    ensures fx.reasons == Reasons(Reason(env))
    ensures fx.wasRead <==> PathOpens(env)
    ensures fx.opens == Opens(env)
    ensures fx.pushes == if Mapped(env) && env.held then Pushes(env.local) else 0
    ensures fx.dones == if Mapped(env) && env.held then Dones(env.local) else 0
  {
    fx := Clear;
    var closed := false;
    match env.lookup {
      case PortNotFound =>
        fx := Fail(fx, "port_not_found");
        closed := true;
      case LookupFailed =>
        fx := Fail(fx, "lookup_mapping");
        closed := true;
      case Found(mapping) =>
        if mapping.suspended {
          fx := Fail(fx, "port_suspended");
          closed := true;
        } else if !env.held {
          fx := HandleRemote(env);
          closed := true;
        } else {
          fx := HandleLocal(env.local);
          closed := true;
        }
    }
    if !closed {
      fx := Observe(fx, Close);
    }
  }
}
