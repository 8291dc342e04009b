/**
 Any number of uploads, to distinct paths, sharing one Control stream: the commands of all of them
 form one FIFO, which the agent's receive loop takes one at a time and routes by request ID.
 */
module UploadPlane {
  import opened Frames
  import U = Uploads

  datatype Command = Open(id: nat) | Body(id: nat, chunk: U.Chunk)

  datatype State = State(uploads: map<nat, U.Upload>, wire: seq<Command>, taken: nat)

  const Start := State(map[], [], 0)

  datatype Step =
    | NewUpload(id: nat, relayed: bool, held: Option<seq<Byte>>)
    | On(id: nat, act: U.Act)
    | AgentTake

  /** What a step of one upload puts on the Control stream. */
  function Sends(id: nat, u: U.Upload, act: U.Act): seq<Command> {
    if !U.Enabled(u, act) then []
    else match act
      case SendOpen => if u.openSent then [] else [Open(id)]
      case SendChunk(ok) => if ok && !u.relayed then [Body(id, U.Pending(u.src.pc).value)] else []
      case Relay => [Body(id, u.src.out[|u.body|])]
      case _ => []
  }

  /** The receive loop is busy while a chunk waits to enter a full channel. */
  predicate Idle(s: State) {
    forall id | id in s.uploads :: s.uploads[id].inb.inflight.None?
  }

  function Route(cmd: Command): U.Act {
    if cmd.Open? then U.RouteOpen else U.RouteChunk
  }

  function Next(s: State, step: Step): State {
    match step
    case NewUpload(id, relayed, held) =>
      if id in s.uploads then s else s.(uploads := s.uploads[id := U.Fresh(relayed, held)])
    case On(id, act) =>
      if id !in s.uploads || act.RouteOpen? || act.RouteChunk? then s
      else s.(uploads := s.uploads[id := U.Next(s.uploads[id], act)], wire := s.wire + Sends(id, s.uploads[id], act))
    case AgentTake =>
      if s.taken >= |s.wire| || !Idle(s) || s.wire[s.taken].id !in s.uploads then s
      else
        var cmd := s.wire[s.taken];
        s.(taken := s.taken + 1, uploads := s.uploads[cmd.id := U.Next(s.uploads[cmd.id], Route(cmd))])
  }

  ghost function Run(steps: seq<Step>): State {
    if steps == [] then Start else Next(Run(steps[..|steps| - 1]), steps[|steps| - 1])
  }

  // What one upload sees of the shared stream.

  datatype Lane = Lane(open: bool, chunks: seq<U.Chunk>, ordered: bool)

  function See(t: Lane, cmd: Command, id: nat): Lane {
    if cmd.id != id then t
    else if cmd.Open? then t.(open := true)
    else Lane(t.open, t.chunks + [cmd.chunk], t.ordered && t.open)
  }

  ghost function LaneOf(wire: seq<Command>, id: nat): Lane {
    if wire == [] then Lane(false, [], true) else See(LaneOf(wire[..|wire| - 1], id), wire[|wire| - 1], id)
  }

  lemma LaneAppend(wire: seq<Command>, cmd: Command, id: nat)
    ensures LaneOf(wire + [cmd], id) == See(LaneOf(wire, id), cmd, id)
  {
  }

  lemma {:induction false} LanePrefix(wire: seq<Command>, n: nat, id: nat)
    requires n <= |wire|
    ensures LaneOf(wire[..n], id).chunks <= LaneOf(wire, id).chunks
    ensures LaneOf(wire, id).ordered ==> LaneOf(wire[..n], id).ordered
    ensures LaneOf(wire[..n], id).open ==> LaneOf(wire, id).open
    decreases |wire| - n
  {
    if n == |wire| {
      assert wire[..n] == wire;
    } else {
      assert wire[..n + 1] == wire[..n] + [wire[n]];
      LaneAppend(wire[..n], wire[n], id);
      LanePrefix(wire, n + 1, id);
    }
  }

  /** The upload's own view of the Control stream is exactly its part of the shared one. */
  ghost predicate Sent(t: Lane, u: U.Upload) {
    t.ordered && t.open == u.openSent && t.chunks == u.body && (u.body != [] ==> u.openSent)
  }

  ghost predicate Taken(t: Lane, u: U.Upload) {
    t.open == u.openRouted && |t.chunks| == u.routed
  }

  ghost predicate UploadOk(s: State, id: nat)
    requires id in s.uploads && s.taken <= |s.wire|
  {
    U.Reached(s.uploads[id]) && Sent(LaneOf(s.wire, id), s.uploads[id]) && Taken(LaneOf(s.wire[..s.taken], id), s.uploads[id])
  }

  ghost predicate Inv(s: State) {
    && s.taken <= |s.wire|
    && (forall id | id in s.uploads :: UploadOk(s, id))
    && (forall i | 0 <= i < |s.wire| :: s.wire[i].id in s.uploads)
  }

  lemma SendsOk(id: nat, u: U.Upload, act: U.Act, t: Lane)
    requires Sent(t, u) && !act.RouteOpen? && !act.RouteChunk?
    ensures Sends(id, u, act) == [] ==> Sent(t, U.Next(u, act))
    ensures Sends(id, u, act) != [] ==> |Sends(id, u, act)| == 1 && Sent(See(t, Sends(id, u, act)[0], id), U.Next(u, act))
    ensures U.Next(u, act).openRouted == u.openRouted && U.Next(u, act).routed == u.routed
  {
  }

  lemma OnKeeps(s: State, id: nat, act: U.Act, id': nat)
    requires Inv(s) && id in s.uploads && !act.RouteOpen? && !act.RouteChunk? && id' in s.uploads
    ensures UploadOk(Next(s, On(id, act)), id')
  {
    var u, s' := s.uploads[id], Next(s, On(id, act));
    assert UploadOk(s, id') && UploadOk(s, id);
    SendsOk(id, u, act, LaneOf(s.wire, id));
    LaneSent(s.wire, Sends(id, u, act), id');
    assert s'.wire[..s.taken] == s.wire[..s.taken];
    if id' == id {
      U.ReachedNext(u, act);
    }
  }

  lemma LaneSent(wire: seq<Command>, sends: seq<Command>, id: nat)
    requires |sends| <= 1
    ensures LaneOf(wire + sends, id) == if sends == [] then LaneOf(wire, id) else See(LaneOf(wire, id), sends[0], id)
  {
    if sends == [] {
      assert wire + sends == wire;
    } else {
      assert wire + sends == wire + [sends[0]];
      LaneAppend(wire, sends[0], id);
    }
  }

  lemma LaneTaken(s: State, id: nat)
    requires s.taken < |s.wire|
    ensures LaneOf(s.wire[..s.taken + 1], id) == See(LaneOf(s.wire[..s.taken], id), s.wire[s.taken], id)
  {
    assert s.wire[..s.taken + 1] == s.wire[..s.taken] + [s.wire[s.taken]];
    LaneAppend(s.wire[..s.taken], s.wire[s.taken], id);
  }

  /** The command the agent takes is the very one the upload's own view expects next. */
  lemma TakeRoutes(s: State)
    requires Inv(s) && s.taken < |s.wire| && Idle(s)
    ensures var cmd := s.wire[s.taken];
      && cmd.id in s.uploads
      && (cmd.Body? ==> U.Enabled(s.uploads[cmd.id], U.RouteChunk)
                        && s.uploads[cmd.id].body[s.uploads[cmd.id].routed] == cmd.chunk)
      && (cmd.Open? ==> s.uploads[cmd.id].openSent)
  {
    var cmd := s.wire[s.taken];
    assert UploadOk(s, cmd.id);
    LaneTaken(s, cmd.id);
    LanePrefix(s.wire, s.taken + 1, cmd.id);
  }

  lemma TakeKeeps(s: State, id': nat)
    requires Inv(s) && s.taken < |s.wire| && Idle(s) && id' in s.uploads
    ensures UploadOk(Next(s, AgentTake), id')
  {
    TakeRoutes(s);
    var cmd := s.wire[s.taken];
    assert UploadOk(s, id');
    LaneTaken(s, id');
    if id' == cmd.id {
      U.ReachedNext(s.uploads[id'], Route(cmd));
      RouteEffect(s.uploads[id'], Route(cmd));
    }
  }

  lemma RouteEffect(u: U.Upload, act: U.Act)
    requires act.RouteOpen? || act.RouteChunk?
    ensures U.Next(u, act).openSent == u.openSent && U.Next(u, act).body == u.body
    ensures act.RouteOpen? && u.openSent ==> U.Next(u, act).openRouted && U.Next(u, act).routed == u.routed
    ensures act.RouteChunk? && U.Enabled(u, act) ==> U.Next(u, act).openRouted == u.openRouted && U.Next(u, act).routed == u.routed + 1
  {
  }

  lemma NewKeeps(s: State, id: nat, relayed: bool, held: Option<seq<Byte>>, id': nat)
    requires Inv(s) && id' in Next(s, NewUpload(id, relayed, held)).uploads
    ensures UploadOk(Next(s, NewUpload(id, relayed, held)), id')
  {
    if id' in s.uploads {
      assert UploadOk(s, id');
    } else {
      U.ReachedFresh(relayed, held);
      UnseenLane(s.wire, id');
      UnseenLane(s.wire[..s.taken], id');
    }
  }

  lemma {:induction false} UnseenLane(wire: seq<Command>, id: nat)
    requires forall i | 0 <= i < |wire| :: wire[i].id != id
    ensures LaneOf(wire, id) == Lane(false, [], true)
  {
    if wire != [] {
      UnseenLane(wire[..|wire| - 1], id);
    }
  }

  lemma Keeps(s: State, step: Step)
    requires Inv(s)
    ensures Inv(Next(s, step))
  {
    var s' := Next(s, step);
    forall id | id in s'.uploads ensures UploadOk(s', id) {
      if s' != s {
        match step
        case NewUpload(id0, relayed, held) => NewKeeps(s, id0, relayed, held, id);
        case On(id0, act) => OnKeeps(s, id0, act, id);
        case AgentTake => TakeKeeps(s, id);
      }
    }
  }

  lemma {:induction false} RunKeeps(steps: seq<Step>)
    ensures Inv(Run(steps))
  {
    if steps != [] {
      RunKeeps(steps[..|steps| - 1]);
      Keeps(Run(steps[..|steps| - 1]), steps[|steps| - 1]);
    }
  }

  /**
   The round trip, for every run of any number of uploads interleaved on one Control stream: a file
   is committed only if its body was read to EOF, and then holds exactly that body.
   */
  lemma UploadsRoundTrip(steps: seq<Step>, id: nat)
    requires id in Run(steps).uploads
    ensures U.RoundTrip(Run(steps).uploads[id])
  {
    RunKeeps(steps);
    assert UploadOk(Run(steps), id);
    var relayed, held, acts :| U.Play(relayed, held, acts) == Run(steps).uploads[id];
    U.UploadRoundTrip(relayed, held, acts);
  }
}
