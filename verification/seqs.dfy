/** Generic facts about sequences used by the partitioning and planning models. */
module Seqs {

  /** No element occurs twice. */
  predicate Distinct<T(==)>(xs: seq<T>) {
    forall i, j | 0 <= i < j < |xs| :: xs[i] != xs[j]
  }

  /** Concatenation of a sequence of sequences, in order. */
  function Flatten<T>(xss: seq<seq<T>>): seq<T> {
    if xss == [] then [] else xss[0] + Flatten(xss[1..])
  }

  /** Number of occurrences of `x` in `xs`. */
  function CountOf<T(==)>(xs: seq<T>, x: T): nat {
    if xs == [] then 0 else (if xs[0] == x then 1 else 0) + CountOf(xs[1..], x)
  }

  lemma {:induction false} FlattenAppend<T>(xss: seq<seq<T>>, yss: seq<seq<T>>)
    ensures Flatten(xss + yss) == Flatten(xss) + Flatten(yss)
  {
    if xss == [] {
      assert xss + yss == yss;
    } else {
      assert (xss + yss)[1..] == xss[1..] + yss;
      FlattenAppend(xss[1..], yss);
    }
  }

  lemma {:induction false} CountOfAppend<T>(xs: seq<T>, ys: seq<T>, x: T)
    ensures CountOf(xs + ys, x) == CountOf(xs, x) + CountOf(ys, x)
  {
    if xs == [] {
      assert xs + ys == ys;
    } else {
      assert (xs + ys)[1..] == xs[1..] + ys;
      CountOfAppend(xs[1..], ys, x);
    }
  }

  /** An element occurs at least once exactly when it is a member. */
  lemma {:induction false} CountOfPositive<T>(xs: seq<T>, x: T)
    ensures CountOf(xs, x) > 0 <==> x in xs
  {
    if xs != [] {
      CountOfPositive(xs[1..], x);
      assert xs == [xs[0]] + xs[1..];
    }
  }

  /** In a sequence without repetitions every element occurs exactly once. */
  lemma {:induction false} DistinctCount<T>(xs: seq<T>, x: T)
    requires Distinct(xs)
    ensures CountOf(xs, x) == if x in xs then 1 else 0
  {
    if xs != [] {
      assert Distinct(xs[1..]) by {
        forall i, j | 0 <= i < j < |xs[1..]| ensures xs[1..][i] != xs[1..][j] {
          assert xs[1..][i] == xs[i + 1] && xs[1..][j] == xs[j + 1];
        }
      }
      DistinctCount(xs[1..], x);
      if xs[0] == x {
        assert x !in xs[1..] by {
          forall k | 0 <= k < |xs[1..]| ensures xs[1..][k] != x {
            assert xs[1..][k] == xs[k + 1];
          }
        }
      }
      assert xs == [xs[0]] + xs[1..];
    }
  }

  /** Splitting a sequence without repetitions yields parts without repetitions that share nothing. */
  lemma DistinctSplit<T>(xs: seq<T>, n: nat)
    requires Distinct(xs) && n <= |xs|
    ensures Distinct(xs[..n]) && Distinct(xs[n..])
    ensures forall x | x in xs[..n] :: x !in xs[n..]
  {
    forall x | x in xs[..n] ensures x !in xs[n..] {
      var i :| 0 <= i < n && xs[..n][i] == x;
      forall j | 0 <= j < |xs[n..]| ensures xs[n..][j] != x {
        assert xs[n..][j] == xs[n + j];
      }
    }
    assert forall i, j | 0 <= i < j < |xs[n..]| :: xs[n..][i] == xs[n + i] && xs[n..][j] == xs[n + j];
  }

  /** Slicing after dropping a prefix is slicing the original further along. */
  lemma SliceOfDrop<T>(xs: seq<T>, n: nat, a: nat, e: nat)
    requires n <= |xs| && a <= e <= |xs| - n
    ensures xs[n..][a .. e] == xs[a + n .. e + n]
  {
  }
}
