/**
 * The closing arithmetic of the evaluation: the running sum of a list of
 * readings, its maximum, and the average and maximum that fall back to 0.0
 * when nothing was recorded. Readings are exact reals here.
 */
module Summary {

  /** Left-to-right sum starting from 0.0, as the built-in `sum` adds a list. */
  function Sum(xs: seq<real>): real
  {
    if xs == [] then 0.0 else Sum(xs[..|xs| - 1]) + xs[|xs| - 1]
  }

  /** The largest element of a non-empty list: it is one of the elements and
      no element exceeds it. */
  function Max(xs: seq<real>): (m: real)
    requires xs != []
    ensures m in xs
    ensures forall k :: 0 <= k < |xs| ==> xs[k] <= m
  {
    if |xs| == 1 then xs[0]
    else
      var m0 := Max(xs[..|xs| - 1]);
      assert forall k :: 0 <= k < |xs| - 1 ==> xs[k] == xs[..|xs| - 1][k];
      if xs[|xs| - 1] > m0 then xs[|xs| - 1] else m0
  }

  /** Arithmetic mean of the readings, or 0.0 when there are none. */
  function MeanOrZero(xs: seq<real>): (r: real)
    ensures xs == [] ==> r == 0.0
    ensures xs != [] ==> r * |xs| as real == Sum(xs)
  {
    if xs == [] then 0.0 else Sum(xs) / |xs| as real
  }

  /** Maximum of the readings, or 0.0 when there are none. */
  function MaxOrZero(xs: seq<real>): (r: real)
    ensures xs == [] ==> r == 0.0
    ensures xs != [] ==> r in xs && forall k :: 0 <= k < |xs| ==> xs[k] <= r
  {
    if xs == [] then 0.0 else Max(xs)
  }

  /** A sum of readings none of which exceeds `bound` is at most `|xs|` times `bound`. */
  lemma {:induction false} SumAtMost(xs: seq<real>, bound: real)
    requires forall k :: 0 <= k < |xs| ==> xs[k] <= bound
    ensures Sum(xs) <= |xs| as real * bound
  {
    if xs != [] {
      var init := xs[..|xs| - 1];
      assert forall k :: 0 <= k < |init| ==> init[k] == xs[k];
      SumAtMost(init, bound);
      assert |init| as real * bound + bound == |xs| as real * bound;
    }
  }

  /** The reported average never exceeds the reported maximum, also when
      both fall back to 0.0. */
  lemma MeanAtMostMax(xs: seq<real>)
    ensures MeanOrZero(xs) <= MaxOrZero(xs)
  {
    if xs != [] {
      var m := MaxOrZero(xs);
      SumAtMost(xs, m);
      var r, n := MeanOrZero(xs), |xs| as real;
      assert (r - m) * n <= 0.0;
      assert r - m == ((r - m) * n) / n;
    }
  }
}
