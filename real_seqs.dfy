/** Sums of sequences of reals, as the per-cell weight loops compute them. */
module RealSeqs {

  /** The sum of `s`, adding the elements left to right the way a running
      accumulator `sum += s[i]` does. */
  function Sum(s: seq<real>): (r: real)
  {
    if s == [] then 0.0 else Sum(s[..|s| - 1]) + s[|s| - 1]
  }

  predicate NonNegative(s: seq<real>)
  {
    forall i :: 0 <= i < |s| ==> 0.0 <= s[i]
  }

  /** Every element of `s` divided by `c`. */
  function Scale(s: seq<real>, c: real): (t: seq<real>)
    requires c != 0.0
  {
    seq(|s|, i requires 0 <= i < |s| => s[i] / c)
  }

  lemma {:induction false} SumNonNegative(s: seq<real>)
    requires NonNegative(s)
    ensures 0.0 <= Sum(s)
  {
    if s != [] {
      SumNonNegative(s[..|s| - 1]);
    }
  }

  /** With no negative terms, each term is at most the total. */
  lemma {:induction false} ElementAtMostSum(s: seq<real>, i: nat)
    requires NonNegative(s) && i < |s|
    ensures s[i] <= Sum(s)
  {
    var init := s[..|s| - 1];
    if i == |s| - 1 {
      SumNonNegative(init);
    } else {
      ElementAtMostSum(init, i);
    }
  }

  /** Replacing one term changes the total by the difference. */
  lemma {:induction false} SumUpdate(s: seq<real>, i: nat, x: real)
    requires i < |s|
    ensures Sum(s[i := x]) == Sum(s) - s[i] + x
  {
    var t := s[i := x];
    if i < |s| - 1 {
      assert t[..|t| - 1] == s[..|s| - 1][i := x];
      SumUpdate(s[..|s| - 1], i, x);
    } else {
      assert t[..|t| - 1] == s[..|s| - 1];
    }
  }

  /** Dividing every term by `c` divides the total by `c`. */
  lemma {:induction false} SumScale(s: seq<real>, c: real)
    requires c != 0.0
    ensures Sum(Scale(s, c)) == Sum(s) / c
  {
    if s != [] {
      var init := s[..|s| - 1];
      assert Scale(s, c)[..|s| - 1] == Scale(init, c);
      SumScale(init, c);
      assert Sum(Scale(s, c)) == Sum(init) / c + s[|s| - 1] / c;
    }
  }

  /** A sum of zeros is zero. */
  lemma {:induction false} SumZeros(s: seq<real>)
    requires forall i :: 0 <= i < |s| ==> s[i] == 0.0
    ensures Sum(s) == 0.0
  {
    if s != [] {
      SumZeros(s[..|s| - 1]);
    }
  }

  /** Division by a positive number keeps order. */
  lemma DivMonotone(a: real, b: real, d: real)
    requires d > 0.0
    ensures a / d <= b / d <==> a <= b
  {
    assert (a / d) * d == a && (b / d) * d == b;
    if a <= b {
      assert b / d - a / d == (b - a) / d;
    } else {
      assert a / d - b / d == (a - b) / d;
    }
  }

  lemma DivStrictlyMonotone(a: real, b: real, d: real)
    requires d > 0.0 && a < b
    ensures a / d < b / d
  {
    assert b / d - a / d == (b - a) / d;
  }

  lemma DivAtMostOne(a: real, d: real)
    requires 0.0 <= a <= d && d > 0.0
    ensures 0.0 <= a / d <= 1.0
  {
    DivMonotone(a, d, d);
    DivMonotone(0.0, a, d);
  }

  lemma DivSelf(d: real)
    requires d != 0.0
    ensures d / d == 1.0
  {
    assert (d / d) * d == 1.0 * d;
  }

  /** i / d for 0 <= i <= d lies in [0,1], is 0 only at 0 and 1 only at d. */
  lemma IndexRatio(i: nat, d: nat)
    requires i <= d && 0 < d
    ensures 0.0 <= i as real / d as real <= 1.0
    ensures i as real / d as real == 0.0 <==> i == 0
    ensures i as real / d as real == 1.0 <==> i == d
  {
    var a, b := i as real, d as real;
    DivAtMostOne(a, b);
    DivSelf(b);
    if 0 < i {
      DivStrictlyMonotone(0.0, a, b);
    }
    if i < d {
      DivStrictlyMonotone(a, b, b);
    }
  }
}
