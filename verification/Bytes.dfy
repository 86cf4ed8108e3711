/** Byte strings, and what the terminal code does with them. */
module Bytes {
  import opened Collections

  type Byte = b: int | 0 <= b < 256

  type Bytes = seq<Byte>

  function Flatten(chunks: seq<Bytes>): Bytes {
    if chunks == [] then [] else Flatten(chunks[..|chunks| - 1]) + chunks[|chunks| - 1]
  }

  /** The last `n` bytes, or everything when there are fewer. */
  function Last(s: Bytes, n: nat): (r: Bytes)
    ensures |r| == if |s| < n then |s| else n
    ensures r == s[|s| - |r|..]
  {
    if |s| <= n then s else s[|s| - n..]
  }

  lemma FlattenPush(chunks: seq<Bytes>, chunk: Bytes)
    ensures Flatten(chunks + [chunk]) == Flatten(chunks) + chunk
  {
    assert (chunks + [chunk])[..|chunks|] == chunks;
  }

  lemma {:induction false} FlattenConcat(a: seq<Bytes>, b: seq<Bytes>)
    ensures Flatten(a + b) == Flatten(a) + Flatten(b)
  {
    if b == [] {
      assert a + b == a;
    } else {
      FlattenConcat(a, b[..|b| - 1]);
      assert (a + b)[..|a + b| - 1] == a + b[..|b| - 1];
      Associate(Flatten(a), Flatten(b[..|b| - 1]), b[|b| - 1]);
    }
  }

  lemma FlattenNothing()
    ensures Flatten([]) == []
  {
  }

  lemma FlattenOne(chunk: Bytes)
    ensures Flatten([chunk]) == chunk
  {
    FlattenPush([], chunk);
    assert [] + [chunk] == [chunk];
  }

  /** Trimming early and trimming late keep the same bytes. */
  lemma LastOfLast(s: Bytes, c: Bytes, n: nat)
    ensures Last(Last(s, n) + c, n) == Last(s + c, n)
  {
    var kept := Last(s, n);
    hide Last;
    var x, y := Last(kept + c, n), Last(s + c, n);
    var d := |s| - |kept|;
    assert |x| == |y| && forall k | 0 <= k < |kept + c| :: (kept + c)[k] == (s + c)[d + k];
    assert x == (s + c)[d + |kept + c| - |x|..];
  }

  /** The kept part followed by what came later is again an end of the whole. */
  lemma LastThenMore(s: Bytes, more: Bytes, n: nat)
    ensures Last(s, n) + more == Last(s + more, |Last(s, n)| + |more|)
  {
  }
}
