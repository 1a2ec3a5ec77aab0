/**
 * Time series as the aggregation code sees them: samples with an integer
 * timestamp (local wall-clock microseconds, no time zone) and a real value,
 * with strictly increasing timestamps; label slicing, sums and means.
 */
module TimeSeries {

  datatype Sample = Sample(t: int, v: real)

  type Series = seq<Sample>

  /** Timestamps strictly increase (a pandas time index as the code uses it). */
  ghost predicate Increasing(s: Series) {
    forall i, j :: 0 <= i < j < |s| ==> s[i].t < s[j].t
  }

  function First(s: Series): int
    requires |s| > 0
  {
    s[0].t
  }

  function Last(s: Series): int
    requires |s| > 0
  {
    s[|s| - 1].t
  }

  /** In an increasing series every timestamp lies between the first and the last one. */
  lemma WithinSpan(s: Series, x: Sample)
    requires Increasing(s) && x in s
    ensures First(s) <= x.t <= Last(s)
  {
    var i :| 0 <= i < |s| && s[i] == x;
    if 0 < i { assert s[0].t < s[i].t; }
    if i < |s| - 1 { assert s[i].t < s[|s| - 1].t; }
  }

  /**
   * Label slicing `s[a:b]` of a series with a sorted time index: the samples
   * whose timestamps lie in the CLOSED interval [a, b], in their order.
   */
  function Slice(s: Series, a: int, b: int): (r: Series)
    ensures |r| <= |s|
    decreases |s|
  {
    if s == [] then []
    else if a <= s[0].t <= b then [s[0]] + Slice(s[1..], a, b)
    else Slice(s[1..], a, b)
  }

  /** A slice holds only samples of the series whose timestamps lie in [a, b]. */
  lemma {:induction false} SliceWithin(s: Series, a: int, b: int)
    ensures forall i :: 0 <= i < |Slice(s, a, b)| ==> Slice(s, a, b)[i] in s && a <= Slice(s, a, b)[i].t <= b
    decreases |s|
  {
    if s != [] {
      SliceWithin(s[1..], a, b);
    }
  }

  /** A slice keeps every sample whose timestamp lies in [a, b]. */
  lemma {:induction false} SliceKeeps(s: Series, a: int, b: int, x: Sample)
    requires x in s && a <= x.t <= b
    ensures x in Slice(s, a, b)
    decreases |s|
  {
    if s[0] != x {
      SliceKeeps(s[1..], a, b, x);
    }
  }

  /** A slice of an increasing series is increasing. */
  lemma {:induction false} SliceIncreasing(s: Series, a: int, b: int)
    requires Increasing(s)
    ensures Increasing(Slice(s, a, b))
    decreases |s|
  {
    if s != [] {
      assert Increasing(s[1..]);
      SliceIncreasing(s[1..], a, b);
      SliceWithin(s[1..], a, b);
      var rest := Slice(s[1..], a, b);
      forall i | 0 <= i < |rest|
        ensures s[0].t < rest[i].t
      {
        var k :| 0 <= k < |s[1..]| && s[1..][k] == rest[i];
        assert s[k + 1] == rest[i];
      }
    }
  }

  /** The sample values, in order. */
  function Values(s: Series): (vs: seq<real>)
    ensures |vs| == |s|
  {
    if s == [] then [] else Values(s[..|s| - 1]) + [s[|s| - 1].v]
  }

  /** The sample timestamps as numbers, in order. */
  function Times(s: Series): (ts: seq<real>)
    ensures |ts| == |s|
  {
    if s == [] then [] else Times(s[..|s| - 1]) + [s[|s| - 1].t as real]
  }

  lemma {:induction false} ValuesAt(s: Series)
    ensures forall i :: 0 <= i < |s| ==> Values(s)[i] == s[i].v
  {
    if s != [] {
      ValuesAt(s[..|s| - 1]);
    }
  }

  lemma {:induction false} TimesAt(s: Series)
    ensures forall i :: 0 <= i < |s| ==> Times(s)[i] == s[i].t as real
  {
    if s != [] {
      TimesAt(s[..|s| - 1]);
    }
  }

  function Sum(xs: seq<real>): real
  {
    if xs == [] then 0.0 else Sum(xs[..|xs| - 1]) + xs[|xs| - 1]
  }

  /** The arithmetic mean, as pandas `Series.mean()` computes it over real values. */
  function Mean(xs: seq<real>): real
    requires |xs| > 0
  {
    Sum(xs) / (|xs| as real)
  }

  lemma {:induction false} SumBounds(xs: seq<real>, lo: real, hi: real)
    requires forall i :: 0 <= i < |xs| ==> lo <= xs[i] <= hi
    ensures (|xs| as real) * lo <= Sum(xs) <= (|xs| as real) * hi
  {
    if xs != [] {
      SumBounds(xs[..|xs| - 1], lo, hi);
    }
  }

  /** A mean lies between any lower and upper bound of its terms. */
  lemma MeanBounds(xs: seq<real>, lo: real, hi: real)
    requires |xs| > 0
    requires forall i :: 0 <= i < |xs| ==> lo <= xs[i] <= hi
    ensures lo <= Mean(xs) <= hi
  {
    SumBounds(xs, lo, hi);
    var n := |xs| as real;
    assert Mean(xs) * n == Sum(xs);
    assert (Mean(xs) - lo) * n >= 0.0;
    assert (hi - Mean(xs)) * n >= 0.0;
  }

  /** The mean of equal terms is that term. */
  lemma MeanOfConstant(xs: seq<real>, c: real)
    requires |xs| > 0
    requires forall i :: 0 <= i < |xs| ==> xs[i] == c
    ensures Mean(xs) == c
  {
    MeanBounds(xs, c, c);
  }
  /** Twice the sum of an arithmetic progression: `n` terms from `a` in steps of `d`. */
  lemma {:induction false} SumOfProgression(xs: seq<real>, a: real, d: real)
    requires forall i :: 0 <= i < |xs| ==> xs[i] == a + (i as real) * d
    ensures 2.0 * Sum(xs) == (|xs| as real) * (2.0 * a + (|xs| as real - 1.0) * d)
  {
    if xs != [] {
      var n := |xs| as real;
      SumOfProgression(xs[..|xs| - 1], a, d);
      assert 2.0 * Sum(xs) == (n - 1.0) * (2.0 * a + (n - 2.0) * d) + 2.0 * (a + (n - 1.0) * d);
    }
  }

  /** The mean of an arithmetic progression is the midpoint of its first and last terms. */
  lemma MeanOfProgression(xs: seq<real>, a: real, d: real, n: int)
    requires n == |xs| > 0
    requires forall i :: 0 <= i < |xs| ==> xs[i] == a + (i as real) * d
    ensures Mean(xs) == a + (n - 1) as real * d / 2.0
  {
    SumOfProgression(xs, a, d);
    assert (n - 1) as real == |xs| as real - 1.0;
  }


  lemma {:induction false} SumNonNegative(xs: seq<real>)
    requires forall i :: 0 <= i < |xs| ==> 0.0 <= xs[i]
    ensures 0.0 <= Sum(xs)
  {
    if xs != [] {
      SumNonNegative(xs[..|xs| - 1]);
    }
  }

  /** A sum of non-negative terms is zero exactly when every term is zero. */
  lemma {:induction false} SumZero(xs: seq<real>)
    requires forall i :: 0 <= i < |xs| ==> 0.0 <= xs[i]
    ensures Sum(xs) == 0.0 <==> forall i :: 0 <= i < |xs| ==> xs[i] == 0.0
  {
    if xs != [] {
      var init := xs[..|xs| - 1];
      SumZero(init);
      SumNonNegative(init);
      if Sum(xs) == 0.0 {
        forall i | 0 <= i < |xs| ensures xs[i] == 0.0 {
          if i < |xs| - 1 { assert xs[i] == init[i]; }
        }
      }
      if forall i :: 0 <= i < |xs| ==> xs[i] == 0.0 {
        assert forall i :: 0 <= i < |init| ==> init[i] == 0.0;
      }
    }
  }

  /** The sum of the values of those of the first `n` samples whose timestamps lie in [a, b]. */
  function SumWithin(s: Series, a: int, b: int, n: nat): real
    requires n <= |s|
  {
    if n == 0 then 0.0
    else SumWithin(s, a, b, n - 1) + (if a <= s[n - 1].t <= b then s[n - 1].v else 0.0)
  }

  /** How many of the first `n` samples have timestamps in [a, b]. */
  function CountWithin(s: Series, a: int, b: int, n: nat): nat
    requires n <= |s|
  {
    if n == 0 then 0
    else CountWithin(s, a, b, n - 1) + (if a <= s[n - 1].t <= b then 1 else 0)
  }

  lemma {:induction false} CountWithinPositive(s: Series, a: int, b: int, n: nat, i: nat)
    requires i < n <= |s| && a <= s[i].t <= b
    ensures CountWithin(s, a, b, n) > 0
  {
    if i < n - 1 {
      CountWithinPositive(s, a, b, n - 1, i);
    }
  }

  /** Slicing a series extended by one sample. */
  lemma {:induction false} SliceSnoc(s: Series, x: Sample, a: int, b: int)
    ensures Slice(s + [x], a, b) == Slice(s, a, b) + (if a <= x.t <= b then [x] else [])
    decreases |s|
  {
    if s == [] {
      assert [x][1..] == [];
    } else {
      assert (s + [x])[1..] == s[1..] + [x];
      SliceSnoc(s[1..], x, a, b);
    }
  }

  /** The running count and sum are the length and the sum of the label slice. */
  lemma {:induction false} WithinIsSlice(s: Series, a: int, b: int, n: nat)
    requires n <= |s|
    ensures CountWithin(s, a, b, n) == |Slice(s[..n], a, b)|
    ensures SumWithin(s, a, b, n) == Sum(Values(Slice(s[..n], a, b)))
  {
    if n > 0 {
      var x := s[n - 1];
      WithinIsSlice(s, a, b, n - 1);
      assert s[..n] == s[..n - 1] + [x];
      SliceSnoc(s[..n - 1], x, a, b);
      var p := Slice(s[..n - 1], a, b);
      if a <= x.t <= b {
        assert (p + [x])[..|p|] == p;
        assert Values(p + [x]) == Values(p) + [x.v];
        assert (Values(p) + [x.v])[..|p|] == Values(p);
        assert Sum(Values(p) + [x.v]) == Sum(Values(p)) + x.v;
      } else {
        assert p + [] == p;
      }
    }
  }
}
