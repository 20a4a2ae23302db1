/** Python `bytes`, as a sequence of values 0..255, and `b"".join`. */
module Bytes {

  newtype byte = x: int | 0 <= x < 256

  /** `b"".join(chunks)`. */
  function Join(chunks: seq<seq<byte>>): seq<byte> {
    if |chunks| == 0 then [] else Join(chunks[..|chunks| - 1]) + chunks[|chunks| - 1]
  }

  /** Joining two runs of chunks is joining each and concatenating. */
  lemma {:induction false} JoinAppend(a: seq<seq<byte>>, b: seq<seq<byte>>)
    ensures Join(a + b) == Join(a) + Join(b)
    decreases |b|
  {
    if |b| == 0 {
      assert a + b == a;
    } else {
      assert (a + b)[..|a + b| - 1] == a + b[..|b| - 1];
      JoinAppend(a, b[..|b| - 1]);
    }
  }

  /** Sum of the chunk lengths, an independent account of the joined size. */
  function TotalLength(chunks: seq<seq<byte>>): nat {
    if |chunks| == 0 then 0 else |chunks[0]| + TotalLength(chunks[1..])
  }

  /** The joined buffer holds each chunk, in yield order, back to back:
      chunk 0 first, then the join of the rest. */
  lemma {:induction false} JoinInOrder(chunks: seq<seq<byte>>)
    ensures |Join(chunks)| == TotalLength(chunks)
    ensures |chunks| > 0 ==> Join(chunks) == chunks[0] + Join(chunks[1..])
  {
    if |chunks| > 0 {
      assert chunks == [chunks[0]] + chunks[1..];
      JoinAppend([chunks[0]], chunks[1..]);
      assert Join([chunks[0]]) == Join([]) + chunks[0];
      JoinInOrder(chunks[1..]);
    }
  }
}
