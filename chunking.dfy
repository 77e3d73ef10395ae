/**
 * Partitioning a streamed result into chunks of `chunk_size` rows, as the
 * streamed loader does with `result.partitions(size=chunk_size)`: every chunk
 * is full except possibly the last, no chunk is empty, and the chunks put back
 * together give the result.
 */
module Chunking {

  function Flatten<T>(chunks: seq<seq<T>>): seq<T> {
    if chunks == [] then [] else chunks[0] + Flatten(chunks[1..])
  }

  /** The chunks of `s`, in order: put back together they give `s`. */
  function Chunks<T>(s: seq<T>, k: nat): (r: seq<seq<T>>)
    requires k > 0
    ensures Flatten(r) == s
    decreases |s|
  {
    if |s| == 0 then []
    else if |s| <= k then
      assert Flatten([s]) == s + Flatten<T>([]);
      [s]
    else
      var rest := Chunks(s[k..], k);
      assert ([s[..k]] + rest)[1..] == rest;
      assert s == s[..k] + s[k..];
      [s[..k]] + rest
  }

  /** The number m of chunks is the ceiling of |s| / k, stated without division: (m - 1) * k < |s| <= m * k. */
  lemma {:induction false} ChunkBounds<T>(s: seq<T>, k: nat)
    requires k > 0
    ensures (|Chunks(s, k)| - 1) * k < |s| <= |Chunks(s, k)| * k
    decreases |s|
  {
    if |s| > k {
      var rest := Chunks(s[k..], k);
      ChunkBounds(s[k..], k);
      assert (|rest| + 1) * k == |rest| * k + k;
    }
  }

  /** The first chunk is the first k elements, or all of them when fewer remain. */
  lemma ChunksStep<T>(s: seq<T>, k: nat)
    requires k > 0 && s != []
    ensures var n := if k <= |s| then k else |s|;
      Chunks(s, k) == [s[..n]] + Chunks(s[n..], k)
  {
    if |s| <= k {
      assert s[..|s|] == s && s[|s|..] == [];
    }
  }

  /** No chunk is empty or longer than k, and every chunk but the last holds exactly k elements. */
  lemma {:induction false} ChunkSizes<T>(s: seq<T>, k: nat)
    requires k > 0
    ensures forall i :: 0 <= i < |Chunks(s, k)| ==> 0 < |Chunks(s, k)[i]| <= k
    ensures forall i :: 0 <= i < |Chunks(s, k)| - 1 ==> |Chunks(s, k)[i]| == k
    decreases |s|
  {
    if |s| > k {
      ChunkSizes(s[k..], k);
    }
  }

  lemma {:induction false} MultiplyMonotone(x: nat, y: nat, k: nat)
    ensures x <= y ==> x * k <= y * k
    decreases if x <= y then y - x else 0
  {
    if x < y {
      MultiplyMonotone(x + 1, y, k);
      assert (x + 1) * k == x * k + k;
    }
  }

  /** Integer division by k is fixed by the bracket q * k <= a < q * k + k. */
  lemma DivideBracket(a: nat, k: nat, q: nat)
    requires k > 0 && q * k <= a < q * k + k
    ensures a / k == q
  {
    var d := a / k;
    assert d * k <= a < d * k + k;
    assert (d + 1) * k == d * k + k && (q + 1) * k == q * k + k;
    MultiplyMonotone(d + 1, q, k);
    MultiplyMonotone(q + 1, d, k);
  }

  /** The number of chunks is ceil(N / k) = (N + k - 1) / k. */
  lemma ChunkCount<T>(s: seq<T>, k: nat)
    requires k > 0
    ensures |Chunks(s, k)| == (|s| + k - 1) / k
  {
    var m := |Chunks(s, k)|;
    ChunkBounds(s, k);
    assert m * k == (m - 1) * k + k;
    DivideBracket(|s| + k - 1, k, m);
  }
}
