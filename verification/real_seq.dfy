/** Finite sequences of reals: the sum Python's built-in `sum` computes (a
    fold from the left), and the least and greatest element. */
module RealSeq {

  /** The sum of `s`, adding the elements from left to right. */
  function Sum(s: seq<real>): real
    decreases |s|
  {
    if |s| == 0 then 0.0 else Sum(s[..|s| - 1]) + s[|s| - 1]
  }

  /** The least element of a non-empty sequence. */
  function Min(s: seq<real>): (m: real)
    requires |s| > 0
    ensures m in s
    ensures forall i :: 0 <= i < |s| ==> m <= s[i]
  {
    if |s| == 1 then s[0]
    else
      var rest := Min(s[1..]);
      assert forall i :: 1 <= i < |s| ==> s[i] == s[1..][i - 1];
      if s[0] <= rest then s[0] else rest
  }

  /** The greatest element of a non-empty sequence, what Python's `max` returns. */
  function Max(s: seq<real>): (m: real)
    requires |s| > 0
    ensures m in s
    ensures forall i :: 0 <= i < |s| ==> s[i] <= m
  {
    if |s| == 1 then s[0]
    else
      var rest := Max(s[1..]);
      assert forall i :: 1 <= i < |s| ==> s[i] == s[1..][i - 1];
      if rest <= s[0] then s[0] else rest
  }

  /** `s` is strictly ascending. */
  predicate StrictlyAscending(s: seq<real>)
  {
    forall i, j :: 0 <= i < j < |s| ==> s[i] < s[j]
  }

  /** The greatest element of a strictly ascending sequence is its last one. */
  lemma MaxOfAscendingIsLast(s: seq<real>)
    requires |s| > 0
    requires StrictlyAscending(s)
    ensures Max(s) == s[|s| - 1]
  {
  }

  /** If every element lies in [lo, hi], the sum lies in [n * lo, n * hi]. */
  lemma {:induction false} SumBounds(s: seq<real>, lo: real, hi: real)
    requires forall i :: 0 <= i < |s| ==> lo <= s[i] <= hi
    ensures |s| as real * lo <= Sum(s) <= |s| as real * hi
    decreases |s|
  {
    if |s| > 0 {
      var init := s[..|s| - 1];
      assert forall i :: 0 <= i < |init| ==> init[i] == s[i];
      SumBounds(init, lo, hi);
    }
  }

  /** Dividing bounds on `n * q` by a positive `n` gives bounds on `q`. */
  lemma DivideBounds(lo: real, hi: real, total: real, n: real)
    requires n > 0.0
    requires n * lo <= total <= n * hi
    ensures lo <= total / n <= hi
  {
    var q := total / n;
    assert total == n * q;
    assert n * (q - lo) >= 0.0;
    assert n * (hi - q) >= 0.0;
  }

  /** If every element lies in [lo, hi], so does the mean. */
  lemma MeanBounds(s: seq<real>, lo: real, hi: real)
    requires |s| > 0
    requires forall i :: 0 <= i < |s| ==> lo <= s[i] <= hi
    ensures lo <= Sum(s) / |s| as real <= hi
  {
    SumBounds(s, lo, hi);
    DivideBounds(lo, hi, Sum(s), |s| as real);
  }

  /** `m` counted once per element of `s` adds up to the sum of `s`. */
  predicate IsMean(m: real, s: seq<real>)
  {
    Repeat(m, |s|) == Sum(s)
  }

  /** `n` copies of `m` added up. */
  function Repeat(m: real, n: nat): real
  {
    if n == 0 then 0.0 else Repeat(m, n - 1) + m
  }

  /** `n` copies of `total / n` add up to `total`. */
  lemma RepeatQuotient(total: real, n: nat)
    requires n > 0
    ensures Repeat(total / n as real, n) == total
  {
    RepeatIsProduct(total / n as real, n);
  }

  /** Adding up `n` copies of `m` is multiplying `m` by `n`. */
  lemma {:induction false} RepeatIsProduct(m: real, n: nat)
    ensures Repeat(m, n) == m * n as real
  {
    if n > 0 {
      RepeatIsProduct(m, n - 1);
    }
  }

  /** The arithmetic mean of a non-empty sequence: the value that, counted
      once per element, adds up to the sum, and that lies between the least
      and the greatest element. */
  function Mean(s: seq<real>): (m: real)
    requires |s| > 0
    ensures IsMean(m, s)
    ensures Min(s) <= m <= Max(s)
  {
    MeanBounds(s, Min(s), Max(s));
    RepeatQuotient(Sum(s), |s|);
    Sum(s) / |s| as real
  }

  /** Product of non-negative reals is monotone in both factors. */
  lemma MulMonotone(a: real, b: real, c: real, d: real)
    requires 0.0 <= a <= b && 0.0 <= c <= d
    ensures a * c <= b * d
  {
    assert a * c <= b * c;
    assert b * c <= b * d;
  }

  /** Taking element `j` out of `s` lowers the sum by exactly `s[j]`. */
  lemma {:induction false} SumRemove(s: seq<real>, j: int)
    requires 0 <= j < |s|
    ensures Sum(s) == Sum(s[..j] + s[j + 1..]) + s[j]
    decreases |s|
  {
    var rest := s[..j] + s[j + 1..];
    if j < |s| - 1 {
      var init := s[..|s| - 1];
      var initRest := init[..j] + init[j + 1..];
      SumRemove(init, j);
      assert rest == initRest + [s[|s| - 1]];
      assert rest[..|rest| - 1] == initRest;
    } else {
      assert rest == s[..|s| - 1];
    }
  }

  /** Reordering the elements does not change the sum. */
  lemma {:induction false} SumPermutation(a: seq<real>, b: seq<real>)
    requires multiset(a) == multiset(b)
    ensures Sum(a) == Sum(b)
    decreases |a|
  {
    if |a| == 0 {
      assert |multiset(b)| == 0;
    } else {
      var x := a[|a| - 1];
      var a' := a[..|a| - 1];
      assert a == a' + [x];
      assert x in multiset(b);
      var j :| 0 <= j < |b| && b[j] == x;
      var b' := b[..j] + b[j + 1..];
      assert b == b[..j] + [x] + b[j + 1..];
      assert multiset(b') == multiset(b) - multiset{x};
      assert multiset(a') == multiset(a) - multiset{x};
      SumPermutation(a', b');
      SumRemove(b, j);
    }
  }
}
