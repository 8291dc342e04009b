/**
 Scripted readers and senders: a source answers every read with bytes and how the read ended, and a sink
 takes a number of sends and fails the next one.
 */
module Scripts {
  import opened Frames

  /** How a read ended, beside the bytes it returned. */
  datatype ReadEnd = More | Eof | ReadError

  datatype ReadAnswer = ReadAnswer(data: seq<Byte>, end: ReadEnd)

  /** The first answer that ends the reading is io.EOF. */
  predicate ReachesEof(script: seq<ReadAnswer>) {
    script != [] && (script[0].end.Eof? || (script[0].end.More? && ReachesEof(script[1..])))
  }

  function Min(a: nat, b: nat): nat {
    if a < b then a else b
  }

  /** The first n elements, or all of them. */
  function First<T>(s: seq<T>, n: nat): seq<T> {
    s[..Min(n, |s|)]
  }

  /** What is left to send once `sent` has been. */
  ghost predicate Left<T(!new)>(all: seq<T>, sent: seq<T>, rest: seq<T>) {
    all == sent + rest
  }

  lemma LeftAfter<T(!new)>(all: seq<T>, sent: seq<T>, next: seq<T>, rest: seq<T>)
    requires Left(all, sent, next + rest)
    ensures Left(all, sent + next, rest)
  {
  }

  lemma LeftOver<T(!new)>(all: seq<T>, sent: seq<T>, rest: seq<T>, budget: nat)
    requires Left(all, sent, rest) && (rest == [] || |sent| == budget) && |sent| <= budget
    ensures First(all, budget) == sent
  {
  }
}
