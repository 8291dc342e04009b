/**
 The reverse-open handshake across pods: public connections (pkg/controller/forward_handler.go), peer
 forwards (pkg/controller/peer_forward.go), the pods' session tables (pkg/controller/sessions.go), the
 Forward RPC of the agent-facing service (pkg/controller/service.go) and the agents
 (pkg/agent/forward.go). A run is any interleaving of their steps.

 What is assumed: session IDs are fresh, a Control connection registered under an agent ID leads to
 that agent, and an agent opens a stream only for a session it was sent, after dialling the target it
 was sent with it. Nothing is assumed of the agent directory or of the registries: a handler may be
 sent to any pod, and any pod may or may not hold the agent.
 */
module Pairing {
  import opened Frames
  import opened Ports

  datatype Phase =
    | Looked                    // the mapping was found and is not suspended
    | Waiting(session: nat)     // for the stream of a session, its own or a sibling's
    | Spliced(stream: nat)
    | Dropped

  /** A public connection, with the mapping its handler looked up. */
  datatype Conn = Conn(port: nat, mapping: Mapping, phase: Phase)

  /** Where a session stands on the pod that waits for it. */
  datatype Wait =
    | Opened                    // a peer OPEN the sibling has not acted on yet
    | Listed                    // its waiter is in the pod's session table
    | Claimed(stream: nat)      // deliver took the waiter out of the table and is about to send
    | Handed                    // deliver has sent, or has found the channel full
    | Ready(stream: nat)        // a peer hop is paired and has sent READY
    | Over

  /**
   One session ID: the connection it was made for, the pod that waits for the agent's stream, whether
   that is a sibling reached over a peer stream, and the agent and target (of the OPEN frame, if so).
   `slot` is the waiter's channel of capacity one, `claims` counts the deliver calls that found the waiter,
   `refused` says that one of them found the channel full.
   */
  datatype Session = Session(conn: nat, pod: nat, peer: bool, open: PeerOpen, wait: Wait,
                             slot: Option<nat>, claims: nat, refused: bool)

  /** OpenForward on the Control stream of an agent. */
  datatype OpenForward = OpenForward(agent: string, session: nat, target: string)

  /** A Forward stream an agent opened: with OPEN once the target answered, with RESET if it did not. */
  datatype AgentStream = AgentStream(agent: string, session: nat, target: string, opens: bool)

  datatype State = State(
    store: map<nat, Mapping>,
    conns: map<nat, Conn>,
    sessions: map<nat, Session>,
    sent: set<OpenForward>,
    streams: map<nat, AgentStream>)

  const Start := State(map[], map[], map[], {}, map[])

  datatype Step =
    | SetMapping(port: nat, mapping: Mapping)
    | DropMapping(port: nat)
    | Accept(conn: nat, port: nat)
    | NewSession(conn: nat, session: nat, pod: nat, peer: bool)  // registry hit, or whatever pod the directory names
    | PeerExpect(session: nat)                                   // the sibling holds the agent
    | SendOpenForward(session: nat)
    | AgentOpens(stream: nat, cmd: OpenForward, opens: bool)
    | Deliver(stream: nat, pod: nat)                             // sessionTable.deliver under the lock
    | Put(session: nat)                                          // its send
    | Take(session: nat)                                         // the waiter reads its channel
    | GiveUp(session: nat)                                       // a timeout, or the deferred cancel
    | PeerReady(conn: nat)
    | PeerFails(conn: nat)                                       // a stale holder: resolve the directory again

  /** The agent and target a new session of this connection stands for. */
  function OpenFor(c: Conn): PeerOpen {
    PeerOpen(c.mapping.agent, c.mapping.target)
  }

  predicate Enabled(s: State, step: Step) {
    match step
    case SetMapping(_, _) => true
    case DropMapping(_) => true
    case Accept(conn, port) => conn !in s.conns && port in s.store && !s.store[port].suspended
    case NewSession(conn, session, _, _) => conn in s.conns && s.conns[conn].phase == Looked && session !in s.sessions
    case PeerExpect(session) => session in s.sessions && s.sessions[session].wait == Opened
    case SendOpenForward(session) =>
      session in s.sessions && s.sessions[session].wait != Opened && s.sessions[session].conn in s.conns
    case AgentOpens(stream, cmd, _) => stream !in s.streams && cmd in s.sent
    case Deliver(stream, pod) =>
      stream in s.streams && s.streams[stream].session in s.sessions
      && var w := s.sessions[s.streams[stream].session]; w.wait == Listed && w.pod == pod
    case Put(session) => session in s.sessions && s.sessions[session].wait.Claimed?
    case Take(session) =>
      session in s.sessions && s.sessions[session].slot.Some?
      && s.sessions[session].slot.value in s.streams && s.sessions[session].conn in s.conns
    case GiveUp(session) => session in s.sessions && s.sessions[session].conn in s.conns
    case PeerReady(conn) =>
      conn in s.conns && s.conns[conn].phase.Waiting?
      && s.conns[conn].phase.session in s.sessions && s.sessions[s.conns[conn].phase.session].wait.Ready?
    case PeerFails(conn) =>
      conn in s.conns && s.conns[conn].phase.Waiting?
      && s.conns[conn].phase.session in s.sessions && s.sessions[s.conns[conn].phase.session].peer
  }

  /** A local handler pushes what it looked up; a sibling pushes what the OPEN frame said. */
  function Command(s: State, session: nat): OpenForward
    requires session in s.sessions && s.sessions[session].conn in s.conns
  {
    var w := s.sessions[session];
    if w.peer then OpenForward(w.open.agent, session, w.open.target)
    else OpenForward(s.conns[w.conn].mapping.agent, session, s.conns[w.conn].mapping.target)
  }

  function NextStore(s: State, step: Step): map<nat, Mapping> {
    match step
    case SetMapping(port, mapping) => s.store[port := mapping]
    case DropMapping(port) => s.store - {port}
    case _ => s.store
  }

  function SetPhase(conns: map<nat, Conn>, conn: nat, phase: Phase): map<nat, Conn>
    requires conn in conns
  {
    conns[conn := conns[conn].(phase := phase)]
  }

  /** A local handler still waiting for its session is the one that acts on it. */
  predicate LocalWaits(s: State, session: nat)
    requires session in s.sessions && s.sessions[session].conn in s.conns
  {
    !s.sessions[session].peer && s.conns[s.sessions[session].conn].phase == Waiting(session)
  }

  function NextConns(s: State, step: Step): map<nat, Conn>
    requires Enabled(s, step)
  {
    match step
    case Accept(conn, port) => s.conns[conn := Conn(port, s.store[port], Looked)]
    case NewSession(conn, session, _, _) => SetPhase(s.conns, conn, Waiting(session))
    case Take(session) =>
      // An OPEN stream is spliced, a RESET one refused.
      var w := s.sessions[session];
      if !LocalWaits(s, session) then s.conns
      else SetPhase(s.conns, w.conn, if s.streams[w.slot.value].opens then Spliced(w.slot.value) else Dropped)
    case GiveUp(session) =>
      if LocalWaits(s, session) then SetPhase(s.conns, s.sessions[session].conn, Dropped) else s.conns
    case PeerReady(conn) => SetPhase(s.conns, conn, Spliced(s.sessions[s.conns[conn].phase.session].wait.stream))
    case PeerFails(conn) => SetPhase(s.conns, conn, Looked)
    case _ => s.conns
  }

  function SetWait(sessions: map<nat, Session>, session: nat, wait: Wait): map<nat, Session>
    requires session in sessions
  {
    sessions[session := sessions[session].(wait := wait)]
  }

  function NextSessions(s: State, step: Step): map<nat, Session>
    requires Enabled(s, step)
  {
    match step
    case NewSession(conn, session, pod, peer) =>
      s.sessions[session := Session(conn, pod, peer, OpenFor(s.conns[conn]), if peer then Opened else Listed, None, 0, false)]
    case PeerExpect(session) => SetWait(s.sessions, session, Listed)
    case Deliver(stream, _) =>
      var session := s.streams[stream].session;
      s.sessions[session := s.sessions[session].(wait := Claimed(stream), claims := s.sessions[session].claims + 1)]
    case Put(session) =>
      // The select sends if there is room, and otherwise takes its default.
      var w := s.sessions[session];
      s.sessions[session := if w.slot.None? then w.(wait := Handed, slot := Some(w.wait.stream))
                            else w.(wait := Handed, refused := true)]
    case Take(session) =>
      var w := s.sessions[session];
      s.sessions[session := w.(slot := None, wait := if w.peer && s.streams[w.slot.value].opens then Ready(w.slot.value) else Over)]
    case GiveUp(session) =>
      if s.sessions[session].wait.Listed? || s.sessions[session].wait.Opened?
      then SetWait(s.sessions, session, Over) else s.sessions
    case _ => s.sessions
  }

  function Do(s: State, step: Step): State
    requires Enabled(s, step)
  {
    State(NextStore(s, step), NextConns(s, step), NextSessions(s, step),
          if step.SendOpenForward? then s.sent + {Command(s, step.session)} else s.sent,
          if step.AgentOpens?
          then s.streams[step.stream := AgentStream(step.cmd.agent, step.cmd.session, step.cmd.target, step.opens)]
          else s.streams)
  }

  /** A step that is not enabled leaves the system unchanged. */
  function Next(s: State, step: Step): State {
    if Enabled(s, step) then Do(s, step) else s
  }

  ghost function Run(steps: seq<Step>): State {
    if steps == [] then Start else Next(Run(steps[..|steps| - 1]), steps[|steps| - 1])
  }

  // Every name a session, a command or a stream carries is that of the mapping the connection looked up.

  ghost predicate SessionOk(s: State, session: nat)
    requires session in s.sessions
  {
    var w := s.sessions[session];
    && w.conn in s.conns && w.open == OpenFor(s.conns[w.conn])
    && (w.wait.Claimed? || w.wait.Ready? ==> Holds(s, w.wait.stream, session))
    && (w.slot.Some? ==> w.wait == Handed && Holds(s, w.slot.value, session))
    && (w.wait.Ready? ==> s.streams[w.wait.stream].opens)
    && w.claims <= 1 && (w.wait == Opened || w.wait == Listed ==> w.claims == 0)
    && !w.refused
  }

  ghost predicate Holds(s: State, stream: nat, session: nat) {
    stream in s.streams && s.streams[stream].session == session
  }

  ghost predicate Names(s: State, agent: string, session: nat, target: string) {
    session in s.sessions && s.sessions[session].open == PeerOpen(agent, target)
  }

  ghost predicate SentOk(s: State, cmd: OpenForward) {
    Names(s, cmd.agent, cmd.session, cmd.target)
  }

  ghost predicate StreamOk(s: State, stream: nat)
    requires stream in s.streams
  {
    Names(s, s.streams[stream].agent, s.streams[stream].session, s.streams[stream].target)
  }

  /** What a connection's phase says about the sessions and streams. */
  ghost predicate PhaseOk(s: State, conn: nat, phase: Phase) {
    match phase
    case Waiting(session) => session in s.sessions && s.sessions[session].conn == conn
    case Spliced(stream) =>
      && stream in s.streams && s.streams[stream].opens
      && s.streams[stream].session in s.sessions && s.sessions[s.streams[stream].session].conn == conn
    case _ => true
  }

  ghost predicate ConnOk(s: State, conn: nat)
    requires conn in s.conns
  {
    PhaseOk(s, conn, s.conns[conn].phase)
  }

  ghost predicate Inv(s: State) {
    && (forall k | k in s.sessions :: SessionOk(s, k))
    && (forall cmd | cmd in s.sent :: SentOk(s, cmd))
    && (forall x | x in s.streams :: StreamOk(s, x))
    && (forall c | c in s.conns :: ConnOk(s, c))
  }

  ghost predicate Kept(w: Session, w': Session) {
    w' == w.(wait := w'.wait, slot := w'.slot, claims := w'.claims, refused := w'.refused)
  }

  /** Connections keep their mapping and sessions keep what they stand for. */
  lemma Stable(s: State, step: Step)
    requires Enabled(s, step)
    ensures forall c | c in s.conns :: c in NextConns(s, step) && NextConns(s, step)[c].mapping == s.conns[c].mapping
    ensures forall k | k in s.sessions :: k in NextSessions(s, step)
    ensures forall k | k in s.sessions :: Kept(s.sessions[k], NextSessions(s, step)[k])
  {
  }

  lemma SessionKeeps(s: State, step: Step, session: nat)
    requires Enabled(s, step) && session in NextSessions(s, step)
    requires session in s.sessions ==> SessionOk(s, session)
    ensures SessionOk(Do(s, step), session)
  {
    Stable(s, step);
    if session in s.sessions {
      WaitKeeps(s, step, session);
    }
  }

  /** A waiter only ever holds a stream of its own session, and at most one. */
  lemma WaitKeeps(s: State, step: Step, session: nat)
    requires Enabled(s, step) && session in s.sessions && SessionOk(s, session)
    ensures session in NextSessions(s, step)
    ensures var w := NextSessions(s, step)[session];
      && (w.wait.Claimed? || w.wait.Ready? ==> Holds(s, w.wait.stream, session))
      && (w.slot.Some? ==> w.wait == Handed && Holds(s, w.slot.value, session))
      && (w.wait.Ready? ==> s.streams[w.wait.stream].opens)
      && w.claims <= 1 && (w.wait == Opened || w.wait == Listed ==> w.claims == 0)
      && !w.refused
  {
  }

  lemma NamesKeep(s: State, step: Step)
    requires Inv(s) && Enabled(s, step)
    ensures forall cmd | cmd in Do(s, step).sent :: SentOk(Do(s, step), cmd)
    ensures forall x | x in Do(s, step).streams :: StreamOk(Do(s, step), x)
  {
    var s' := Do(s, step);
    Stable(s, step);
    forall cmd | cmd in s'.sent ensures SentOk(s', cmd) {
      if cmd in s.sent {
        assert SentOk(s, cmd);
      } else {
        assert SessionOk(s, step.session);
      }
    }
    forall x | x in s'.streams ensures StreamOk(s', x) {
      if x in s.streams {
        assert StreamOk(s, x);
      } else {
        assert SentOk(s, step.cmd);
      }
    }
  }

  lemma PhaseKeeps(s: State, step: Step, conn: nat)
    requires Inv(s) && Enabled(s, step) && !step.NewSession? && conn in NextConns(s, step)
    ensures PhaseOk(s, conn, NextConns(s, step)[conn].phase)
  {
  }

  lemma ConnKeeps(s: State, step: Step, conn: nat)
    requires Inv(s) && Enabled(s, step) && conn in NextConns(s, step)
    ensures ConnOk(Do(s, step), conn)
  {
    Stable(s, step);
    if !step.NewSession? {
      PhaseKeeps(s, step, conn);
    } else if conn in s.conns {
      assert ConnOk(s, conn);
    }
  }

  lemma {:induction false} RunKeeps(steps: seq<Step>)
    ensures Inv(Run(steps))
  {
    if steps != [] {
      var s, step := Run(steps[..|steps| - 1]), steps[|steps| - 1];
      RunKeeps(steps[..|steps| - 1]);
      if Enabled(s, step) {
        NamesKeep(s, step);
        forall k | k in Do(s, step).sessions ensures SessionOk(Do(s, step), k) {
          SessionKeeps(s, step, k);
        }
        forall c | c in Do(s, step).conns ensures ConnOk(Do(s, step), c) {
          ConnKeeps(s, step, c);
        }
      }
    }
  }

  /**
   Pairing safety, for every run: the stream a public connection is spliced to was opened, not reset,
   by the agent named in the mapping the connection's handler looked up, after dialling that mapping's
   target, whether it came directly or through a sibling.
   */
  lemma PairingSafety(steps: seq<Step>, conn: nat)
    requires conn in Run(steps).conns && Run(steps).conns[conn].phase.Spliced?
    ensures var s := Run(steps);
      var c := s.conns[conn];
      && c.phase.stream in s.streams
      && s.streams[c.phase.stream] ==
         AgentStream(c.mapping.agent, s.streams[c.phase.stream].session, c.mapping.target, true)
  {
    RunKeeps(steps);
    SplicedNames(Run(steps), conn);
  }

  lemma SplicedNames(s: State, conn: nat)
    requires Inv(s) && conn in s.conns && s.conns[conn].phase.Spliced?
    ensures var c := s.conns[conn];
      && c.phase.stream in s.streams
      && s.streams[c.phase.stream] ==
         AgentStream(c.mapping.agent, s.streams[c.phase.stream].session, c.mapping.target, true)
      && s.streams[c.phase.stream].session in s.sessions
      && s.sessions[s.streams[c.phase.stream].session].conn == conn
  {
  }

  /** No agent stream is ever spliced to two public connections. */
  lemma PairingUnique(steps: seq<Step>, conn: nat, conn': nat)
    requires conn in Run(steps).conns && Run(steps).conns[conn].phase.Spliced?
    requires conn' in Run(steps).conns && Run(steps).conns[conn'].phase == Run(steps).conns[conn].phase
    ensures conn == conn'
  {
    RunKeeps(steps);
    SplicedNames(Run(steps), conn);
    SplicedNames(Run(steps), conn');
  }

  ghost predicate StoredAt(steps: seq<Step>, n: nat, c: Conn)
    requires n <= |steps|
  {
    c.port in Run(steps[..n]).store && Run(steps[..n]).store[c.port] == c.mapping && !c.mapping.suspended
  }

  /** The mapping a handler works with was in the store, and not suspended, at some moment of the run. */
  lemma {:induction false} MappingWasStored(steps: seq<Step>, conn: nat) returns (n: nat)
    requires conn in Run(steps).conns
    ensures n < |steps| && StoredAt(steps, n, Run(steps).conns[conn])
  {
    var before, step := steps[..|steps| - 1], steps[|steps| - 1];
    if conn in Run(before).conns {
      n := MappingWasStored(before, conn);
      assert steps[..n] == before[..n];
      SameMapping(Run(before), step, conn);
    } else {
      n := |before|;
    }
  }

  lemma SameMapping(s: State, step: Step, conn: nat)
    requires conn in s.conns
    ensures conn in Next(s, step).conns
    ensures Next(s, step).conns[conn].port == s.conns[conn].port && Next(s, step).conns[conn].mapping == s.conns[conn].mapping
  {
  }

  /**
   For every run: however deliveries, timeouts and cancels race, at most one deliver finds the waiter of a
   session, it never finds the waiter's channel full, and what the channel holds is a stream of that session.
   */
  lemma DeliverNeverRefused(steps: seq<Step>, session: nat)
    requires session in Run(steps).sessions
    ensures var s := Run(steps);
      var w := s.sessions[session];
      && w.claims <= 1 && !w.refused
      && (w.wait.Claimed? ==> w.slot == None)
      && (w.slot.Some? ==> Holds(s, w.slot.value, session))
  {
    RunKeeps(steps);
    assert SessionOk(Run(steps), session);
  }
}
