/** Guava's `Lists.partition(list, size)`: consecutive sublists of `size` elements, the last possibly shorter. */
module Partition {
  import opened Seqs

  function Min(a: int, b: int): int {
    if a <= b then a else b
  }

  /** The partitions of `xs` into consecutive chunks of `n`, in order. */
  function Chunk<T>(xs: seq<T>, n: nat): (cs: seq<seq<T>>)
    requires n >= 1
    ensures forall k | 0 <= k < |cs| :: 0 < |cs[k]| <= n
    ensures forall k | 0 <= k < |cs| - 1 :: |cs[k]| == n
    decreases |xs|
  {
    if |xs| == 0 then []
    else if |xs| <= n then [xs]
    else
      [xs[..n]] + Chunk(xs[n..], n)
  }

  /** Concatenating the partitions gives back the list: every element lands in exactly one partition, in order. */
  lemma {:induction false} ChunkFlatten<T>(xs: seq<T>, n: nat)
    requires n >= 1
    ensures Flatten(Chunk(xs, n)) == xs
    decreases |xs|
  {
    if |xs| > n {
      var cs := Chunk(xs, n);
      assert cs[0] == xs[..n] && cs[1..] == Chunk(xs[n..], n);
      ChunkFlatten(xs[n..], n);
      assert xs == xs[..n] + xs[n..];
    } else if |xs| > 0 {
      assert Chunk(xs, n)[1..] == [];
    }
  }

  lemma MulStep(k: nat, n: nat)
    requires k >= 1
    ensures (k - 1) * n + n == k * n
  {
  }

  /** Guava makes ceiling(|xs| / n) partitions: the fewest whose capacity covers `xs`. */
  lemma {:induction false} ChunkCount<T>(xs: seq<T>, n: nat)
    requires n >= 1
    ensures |Chunk(xs, n)| * n - n < |xs| <= |Chunk(xs, n)| * n
    decreases |xs|
  {
    var cs := Chunk(xs, n);
    if |xs| > n {
      ChunkCount(xs[n..], n);
      assert |cs| == |Chunk(xs[n..], n)| + 1;
      MulStep(|cs|, n);
    }
  }

  /** k * n, computed by repeated addition to keep the chunk proofs linear. */
  function Offset(k: nat, n: nat): nat {
    if k == 0 then 0 else Offset(k - 1, n) + n
  }

  lemma {:induction false} OffsetIsProduct(k: nat, n: nat)
    ensures Offset(k, n) == k * n
  {
    if k > 0 {
      OffsetIsProduct(k - 1, n);
      MulStep(k, n);
    }
  }

  /** Guava's k-th partition is the sublist from Offset(k, n) to min(Offset(k, n) + n, |xs|); the recursive definition agrees. */
  lemma {:induction false} ChunkAt<T>(xs: seq<T>, n: nat, k: nat)
    requires n >= 1 && k < |Chunk(xs, n)|
    ensures Offset(k, n) < |xs|
    ensures Chunk(xs, n)[k] == xs[Offset(k, n) .. Min(Offset(k, n) + n, |xs|)]
    decreases k
  {
    if k == 0 {
      assert Chunk(xs, n)[0] == xs[..Min(n, |xs|)];
    } else {
      var rest := xs[n..];
      assert |xs| > n && Chunk(xs, n)[k] == Chunk(rest, n)[k - 1];
      ChunkAt(rest, n, k - 1);
      var a := Offset(k - 1, n);
      var e := Min(a + n, |rest|);
      assert Offset(k, n) == a + n;
      assert Min(Offset(k, n) + n, |xs|) == e + n;
      assert Chunk(xs, n)[k] == rest[a .. e];
      SliceOfDrop(xs, n, a, e);
    }
  }

  /** Chunk `k` is the slice Guava's partition view computes: from `k * n` to `min(k * n + n, size)`. */
  lemma ChunkMatchesIndexing<T>(xs: seq<T>, n: nat, k: nat)
    requires n >= 1 && k < |Chunk(xs, n)|
    ensures k * n < |xs| && Chunk(xs, n)[k] == xs[k * n .. Min(k * n + n, |xs|)]
  {
    ChunkAt(xs, n, k);
    OffsetIsProduct(k, n);
  }

  /** Index of the first partition containing `x`, or the number of partitions when none does. */
  function PartitionOf<T(==)>(cs: seq<seq<T>>, x: T): nat {
    if cs == [] then 0
    else if x in cs[0] then 0
    else 1 + PartitionOf(cs[1..], x)
  }

  /** With distinct elements, the element at position i, with k * n <= i < k * n + n, lands in partition k. */
  lemma {:induction false} PartitionOfIndex<T>(xs: seq<T>, n: nat, i: nat, k: nat)
    requires n >= 1 && Distinct(xs) && i < |xs|
    requires k * n <= i < k * n + n
    ensures PartitionOf(Chunk(xs, n), xs[i]) == k
    decreases |xs|
  {
    if k == 0 {
      assert i < n;
      if |xs| <= n {
        assert xs[i] in xs;
      } else {
        assert Chunk(xs, n)[0] == xs[..n];
        assert xs[i] == xs[..n][i];
      }
    } else {
      MulStep(k, n);
      var cs := Chunk(xs, n);
      assert |xs| > n;
      assert cs[0] == xs[..n] && cs[1..] == Chunk(xs[n..], n);
      DistinctSplit(xs, n);
      assert xs[i] == xs[n..][i - n];
      assert xs[i] !in cs[0];
      PartitionOfIndex(xs[n..], n, i - n, k - 1);
    }
  }

  /** Partitions of a list without repetitions have none. */
  lemma {:induction false} ChunkDistinct<T>(xs: seq<T>, n: nat, k: nat)
    requires n >= 1 && Distinct(xs) && k < |Chunk(xs, n)|
    ensures Distinct(Chunk(xs, n)[k])
    decreases |xs|
  {
    if |xs| > n {
      DistinctSplit(xs, n);
      if k > 0 {
        assert Chunk(xs, n)[k] == Chunk(xs[n..], n)[k - 1];
        ChunkDistinct(xs[n..], n, k - 1);
      }
    }
  }
}
