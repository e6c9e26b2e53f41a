/** Positions of the elements of a sequence that pass a test, as a scan from the front finds them. */
module Seqs {

  /** The positions `i` with `keep(xs[i])`, in increasing order. */
  function Positions<T>(xs: seq<T>, keep: T -> bool): (o: seq<nat>)
    ensures forall k :: 0 <= k < |o| ==> o[k] < |xs|
    ensures forall k, l :: 0 <= k < l < |o| ==> o[k] < o[l]
    decreases |xs|
  {
    if |xs| == 0 then []
    else
      var n := |xs| - 1;
      Positions(xs[..n], keep) + (if keep(xs[n]) then [n] else [])
  }

  /** Every position found holds a passing element. */
  lemma {:induction false} PositionsSound<T>(xs: seq<T>, keep: T -> bool, k: nat)
    requires k < |Positions(xs, keep)|
    ensures keep(xs[Positions(xs, keep)[k]])
    decreases |xs|
  {
    var n := |xs| - 1;
    var o := Positions(xs[..n], keep);
    if k < |o| {
      PositionsSound(xs[..n], keep, k);
      assert xs[..n][o[k]] == xs[o[k]];
    }
  }

  /** No passing element is missed. */
  lemma {:induction false} PositionsComplete<T>(xs: seq<T>, keep: T -> bool, i: nat)
    requires i < |xs| && keep(xs[i])
    ensures i in Positions(xs, keep)
    decreases |xs|
  {
    var n := |xs| - 1;
    if i < n {
      assert xs[..n][i] == xs[i];
      PositionsComplete(xs[..n], keep, i);
    }
  }

  /** Scanning one more element appends its position when it passes. */
  lemma PositionsExtend<T>(xs: seq<T>, keep: T -> bool, i: nat)
    requires i < |xs|
    ensures Positions(xs[..i + 1], keep) == Positions(xs[..i], keep) + (if keep(xs[i]) then [i] else [])
  {
    assert xs[..i + 1][..i] == xs[..i];
  }

  /**
   * The positions found in a prefix are the first ones found in the whole
   * sequence; every later one lies beyond the prefix.
   */
  lemma {:induction false} PositionsOfPrefix<T>(xs: seq<T>, keep: T -> bool, n: nat)
    requires n <= |xs|
    ensures |Positions(xs[..n], keep)| <= |Positions(xs, keep)|
    ensures Positions(xs[..n], keep) == Positions(xs, keep)[..|Positions(xs[..n], keep)|]
    ensures forall k :: |Positions(xs[..n], keep)| <= k < |Positions(xs, keep)| ==> Positions(xs, keep)[k] >= n
    decreases |xs| - n
  {
    if n == |xs| {
      assert xs[..n] == xs;
    } else {
      var m := |xs| - 1;
      assert xs[..m][..n] == xs[..n];
      PositionsOfPrefix(xs[..m], keep, n);
    }
  }

  /** At most one position per element; none when nothing passes. */
  lemma {:induction false} PositionsCount<T>(xs: seq<T>, keep: T -> bool)
    ensures |Positions(xs, keep)| <= |xs|
    ensures (forall i :: 0 <= i < |xs| ==> !keep(xs[i])) ==> Positions(xs, keep) == []
    decreases |xs|
  {
    if |xs| > 0 {
      var n := |xs| - 1;
      assert forall i :: 0 <= i < n ==> xs[..n][i] == xs[i];
      PositionsCount(xs[..n], keep);
    }
  }

  /** No element between two consecutive positions passes. */
  lemma PositionsGap<T>(xs: seq<T>, keep: T -> bool, k: nat, i: nat)
    requires k + 1 < |Positions(xs, keep)|
    requires Positions(xs, keep)[k] < i < Positions(xs, keep)[k + 1]
    ensures !keep(xs[i])
  {
    if keep(xs[i]) {
      PositionsComplete(xs, keep, i);
      assert false;
    }
  }

  /** The element at the `k`-th position is preceded by exactly `k` passing elements. */
  lemma PositionsRank<T>(xs: seq<T>, keep: T -> bool, k: nat)
    requires k < |Positions(xs, keep)|
    ensures |Positions(xs[..Positions(xs, keep)[k]], keep)| == k
  {
    var o := Positions(xs, keep);
    PositionsOfPrefix(xs, keep, o[k]);
    var q := Positions(xs[..o[k]], keep);
    assert forall m :: 0 <= m < |q| ==> o[m] == q[m] < o[k];
    assert |q| <= k;
    assert o[|q|] >= o[k];
  }
}
