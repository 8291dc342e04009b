/**
 The unit of the raw-TCP byte pipe: the `Frame` message of hostlink.proto, and the
 few wrappers every other module shares.
 */
module Frames {

  type Byte = bv8

  datatype Option<+T> = None | Some(value: T)

  /** The Frame.Type enum. A value outside the enum survives decoding, so it is kept as OTHER. */
  datatype FrameKind = DATA | HALF_CLOSE | RESET | OPEN | READY | OTHER(code: nat)

  /** The routing key of a cross-pod OPEN frame. */
  datatype PeerOpen = PeerOpen(agent: string, target: string)

  datatype Frame = Frame(session: string, kind: FrameKind, data: seq<Byte>, open: Option<PeerOpen>)

  /** Frames as the tunnel package builds them: only the type, and the data of a DATA frame. */
  function Bare(kind: FrameKind): Frame {
    Frame("", kind, [], None)
  }

  function DataFrame(data: seq<Byte>): Frame {
    Frame("", DATA, data, None)
  }

  /**
   What one direction of a stream has carried: its bytes, whether it is still flowing, and whether
   it was ended by HALF_CLOSE. Only the first frame that ends a direction counts; DATA that follows
   a RESET, which a splice may send, carries nothing.
   */
  datatype Transcript = Transcript(bytes: seq<Byte>, live: bool, closed: bool)

  function Carry(t: Transcript, f: Frame): Transcript {
    if !t.live then t
    else match f.kind
      case DATA => t.(bytes := t.bytes + f.data)
      case OPEN => t
      case READY => t
      case HALF_CLOSE => Transcript(t.bytes, false, true)
      case RESET => t.(live := false)
      case OTHER(_) => t.(live := false)
  }

  ghost function Of(frames: seq<Frame>): (t: Transcript)
    ensures t.closed ==> !t.live
  {
    if frames == [] then Transcript([], true, false)
    else Carry(Of(frames[..|frames| - 1]), frames[|frames| - 1])
  }

  lemma OfAppend(frames: seq<Frame>, f: Frame)
    ensures Of(frames + [f]) == Carry(Of(frames), f)
  {
  }

  /**
   What a stage of a pipe may do to the stage before it: pass a prefix of the bytes, and claim a
   clean end only when the stage before ended cleanly and every byte was passed.
   */
  ghost predicate Carries(up: Transcript, down: Transcript) {
    down.bytes <= up.bytes && (down.closed ==> up.closed && down.bytes == up.bytes)
  }

  lemma CarriesTransitive(a: Transcript, b: Transcript, c: Transcript)
    requires Carries(a, b) && Carries(b, c)
    ensures Carries(a, c)
  {
  }

  /** A receiver that has taken only part of what was sent is a stage of the same pipe. */
  lemma {:induction false} PrefixCarries(frames: seq<Frame>, n: nat)
    requires n <= |frames|
    ensures Carries(Of(frames), Of(frames[..n]))
    ensures !Of(frames[..n]).live ==> Of(frames[..n]) == Of(frames)
    decreases |frames| - n
  {
    if n == |frames| {
      assert frames[..n] == frames;
    } else {
      assert frames[..n + 1] == frames[..n] + [frames[n]];
      OfAppend(frames[..n], frames[n]);
      PrefixCarries(frames, n + 1);
    }
  }
}
