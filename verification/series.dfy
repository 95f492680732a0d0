/**
 * Finite sums of reals, shared by the bilinear transform, the filter engine
 * and the moving average, and the small sequence facts the block recurrences use.
 */
module Series {

  /** Sum of the elements of `s`, first element outermost. */
  function Sum(s: seq<real>): real
  {
    if |s| == 0 then 0.0 else s[0] + Sum(s[1..])
  }

  /** Summation distributes over concatenation. */
  lemma {:induction false} SumConcat(a: seq<real>, b: seq<real>)
    ensures Sum(a + b) == Sum(a) + Sum(b)
    decreases |a|
  {
    if |a| == 0 {
      assert a + b == b;
    } else {
      assert (a + b)[1..] == a[1..] + b;
      SumConcat(a[1..], b);
    }
  }

  /** Replacing one element changes the sum by exactly the difference. */
  lemma {:induction false} SumUpdate(s: seq<real>, k: nat, x: real)
    requires k < |s|
    ensures Sum(s[k := x]) == Sum(s) - s[k] + x
    decreases |s|
  {
    if k > 0 {
      assert s[k := x][1..] == s[1..][k - 1 := x];
      SumUpdate(s[1..], k - 1, x);
    } else {
      assert s[k := x][1..] == s[1..];
    }
  }

  /** Rotating a sequence does not change its sum. */
  lemma SumRotate(s: seq<real>, k: nat)
    requires k <= |s|
    ensures Sum(s[k..] + s[..k]) == Sum(s)
  {
    SumConcat(s[k..], s[..k]);
    SumConcat(s[..k], s[k..]);
    assert s[..k] + s[k..] == s;
  }

  /** A non-empty block is its prefix and its last sample, also after a prefix block. */
  lemma SplitLast(xs: seq<real>, ys: seq<real>)
    requires |ys| > 0
    ensures xs + ys == (xs + ys[..|ys| - 1]) + [ys[|ys| - 1]]
    ensures ys == ys[..|ys| - 1] + [ys[|ys| - 1]]
  {
  }

  /** Appending one sample associates. */
  lemma AppendAssoc(p: seq<real>, q: seq<real>, x: real)
    ensures (p + q) + [x] == p + (q + [x])
  {
  }

  /** A longer prefix is the shorter one and the next sample. */
  lemma PrefixSnoc(xs: seq<real>, i: nat)
    requires i < |xs|
    ensures xs[..i + 1] == xs[..i] + [xs[i]]
  {
  }

  /** The full-length prefix is the sequence. */
  lemma Whole(xs: seq<real>)
    ensures xs[..|xs|] == xs
  {
  }

  /** Overwriting slot i changes the prefix through i by its last sample and leaves the rest alone. */
  lemma UpdateAt(s: seq<real>, i: nat, v: real)
    requires i < |s|
    ensures s[i := v][..i + 1] == s[..i] + [v]
    ensures s[i := v][i + 1..] == s[i + 1..]
  {
  }
}
