/**
 * $.visualize.getRangeLabels: an evenly spaced series of axis labels from
 * `first` to `last`, with the interior values rounded for display.
 * Numbers are exact reals (no IEEE-754 rounding).
 */
module RangeLabels {

  function Abs(x: real): real
  {
    if x < 0.0 then -x else x
  }

  /** Math.ceil: the least integer not below x. */
  function Ceil(x: real): (c: int)
    ensures x <= c as real < x + 1.0
  {
    -((-x).Floor)
  }

  /** `x % 1 == 0`: x has no fractional part. */
  predicate IsIntegral(x: real)
  {
    x.Floor as real == x
  }

  /** x is a whole number of hundredths. */
  predicate IsHundredths(x: real)
  {
    IsIntegral(x * 100.0)
  }

  /**
   * The display rule for an interior value: below 10 in magnitude it is
   * rounded up to the next hundredth (integral values stay as they are),
   * from 10 on it is rounded down to an integer.
   */
  function RoundLabel(v: real): (r: real)
    ensures Abs(v) < 10.0 ==> IsHundredths(r) && v <= r < v + 0.01
    ensures Abs(v) >= 10.0 ==> IsIntegral(r) && r <= v < r + 1.0
  {
    if Abs(v) < 10.0 then
      if IsIntegral(v) then v else (Ceil(v * 100.0) as real) / 100.0
    else
      v.Floor as real
  }

  /** `ticks` is replaced by domain + 1 whenever it is at least the domain. */
  function ClampTicks(ticks: real, domain: real): real
  {
    if ticks >= domain then domain + 1.0 else ticks
  }

  /** slices = ticks - 1, after the clamp. */
  function Slices(first: real, last: real, ticks: real): real
  {
    ClampTicks(ticks, last - first) - 1.0
  }

  /** The number of integers i with 1 <= i < slices: how often the loop body runs. */
  function InteriorCount(slices: real): nat
  {
    if slices <= 1.0 then 0 else Ceil(slices) - 1
  }

  /** The unrounded value of interior label i: first + domain / slices * i. */
  function Interpolate(first: real, last: real, slices: real, i: int): real
    requires slices != 0.0
  {
    first + (last - first) / slices * (i as real)
  }

  /** The labels getRangeLabels returns, as a sequence. */
  function Labels(first: real, last: real, ticks: real): seq<real>
  {
    var slices := Slices(first, last, ticks);
    if slices <= 1.0 then [first, last]
    else [first] + seq(InteriorCount(slices), k => RoundLabel(Interpolate(first, last, slices, k + 1))) + [last]
  }

  /** getRangeLabels, with the loop that pushes one label per interior tick. */
  method GetRangeLabels(first: real, last: real, ticks: real) returns (labels: seq<real>)
    ensures labels == Labels(first, last, ticks)
  {
    var domain := last - first;
    var t := if ticks >= domain then domain + 1.0 else ticks;
    var slices := t - 1.0;
    labels := [first];
    var i := 1;
    while (i as real) < slices
      invariant 1 <= i && (slices > 1.0 ==> i <= Ceil(slices)) && (slices <= 1.0 ==> i == 1)
      invariant |labels| == i && labels[0] == first
      invariant forall k :: 1 <= k < i ==> slices > 1.0 && labels[k] == RoundLabel(Interpolate(first, last, slices, k))
      decreases Ceil(slices) - i
    {
      var val := Interpolate(first, last, slices, i);
      labels := labels + [RoundLabel(val)];
      i := i + 1;
    }
    assert slices == Slices(first, last, ticks);
    labels := labels + [last];
    if slices > 1.0 {
      assert i == Ceil(slices);
      var interior := seq(InteriorCount(slices), k => RoundLabel(Interpolate(first, last, slices, k + 1)));
      assert labels == [first] + interior + [last];
    } else {
      assert labels == [first, last];
    }
  }

  /** The series starts at `first`, ends at `last`, and has one label per loop iteration between. */
  lemma LabelsShape(first: real, last: real, ticks: real)
    ensures |Labels(first, last, ticks)| == 2 + InteriorCount(Slices(first, last, ticks))
    ensures Labels(first, last, ticks)[0] == first
    ensures Labels(first, last, ticks)[|Labels(first, last, ticks)| - 1] == last
  {
  }

  /** With a whole number k of ticks after the clamp, there are k labels, and just [first, last] when k <= 2. */
  lemma LabelsLength(first: real, last: real, ticks: real, k: int)
    requires ClampTicks(ticks, last - first) == k as real
    ensures |Labels(first, last, ticks)| == if k <= 2 then 2 else k
    ensures k <= 2 ==> Labels(first, last, ticks) == [first, last]
  {
    var slices := Slices(first, last, ticks);
    if slices > 1.0 {
      assert (k - 1) as real == slices;
      assert Ceil(slices) == k - 1;
    }
  }

  /** An empty domain gives just the two endpoints, whatever the tick count. */
  lemma EmptyDomain(first: real, ticks: real)
    ensures Labels(first, first, ticks) == [first, first]
  {
  }

  /** Every interior label is the display rounding of first + domain / slices * i. */
  lemma InteriorLabel(first: real, last: real, ticks: real, i: int)
    requires 1 <= i < |Labels(first, last, ticks)| - 1
    ensures Slices(first, last, ticks) > 1.0
    ensures var v := Interpolate(first, last, Slices(first, last, ticks), i);
      && (Abs(v) < 10.0 && IsIntegral(v) ==> Labels(first, last, ticks)[i] == v)
      && (Abs(v) < 10.0 && !IsIntegral(v) ==> Labels(first, last, ticks)[i] == (Ceil(v * 100.0) as real) / 100.0)
      && (Abs(v) >= 10.0 ==> Labels(first, last, ticks)[i] == v.Floor as real)
  {
  }

  /** Math.ceil(x) is the least integer that is at least x. */
  lemma CeilLeast(x: real, n: int)
    requires x <= n as real
    ensures Ceil(x) <= n
  {
  }

  /** Below 10 in magnitude, a label is the least whole number of hundredths not below its value. */
  lemma RoundLabelRoundsUp(v: real, q: real)
    requires Abs(v) < 10.0 && IsHundredths(q) && v <= q
    ensures RoundLabel(v) <= q
  {
    if !IsIntegral(v) {
      CeilLeast(v * 100.0, (q * 100.0).Floor);
    }
  }

  /** From 10 on in magnitude, a label is the greatest integer not above its value. */
  lemma RoundLabelRoundsDown(v: real, n: int)
    requires Abs(v) >= 10.0 && n as real <= v
    ensures n as real <= RoundLabel(v)
  {
    var f := v.Floor;
    assert RoundLabel(v) == f as real;
    assert v < f as real + 1.0;
    assert n <= f;
  }

  /** The display rounding never reorders two values. */
  lemma RoundLabelMonotone(a: real, b: real)
    requires a <= b
    ensures RoundLabel(a) <= RoundLabel(b)
  {
    var ra, rb := RoundLabel(a), RoundLabel(b);
    if Abs(a) < 10.0 && Abs(b) < 10.0 {
      RoundLabelRoundsUp(a, rb);
    } else if Abs(b) >= 10.0 && Abs(a) >= 10.0 {
      RoundLabelRoundsDown(b, ra.Floor);
    } else if Abs(b) < 10.0 {
      assert ra <= a;
    } else {
      RoundLabelRoundsUp(a, 10.0);
      RoundLabelRoundsDown(b, 10);
    }
  }

  /** The unrounded values grow with the index when the range is increasing. */
  lemma InterpolateMonotone(first: real, last: real, slices: real, i: int, j: int)
    requires first <= last && slices > 0.0 && i <= j
    ensures Interpolate(first, last, slices, i) <= Interpolate(first, last, slices, j)
  {
    var step := (last - first) / slices;
    assert step >= 0.0;
    assert step * (j as real) - step * (i as real) == step * ((j - i) as real);
  }

  /** For an increasing range, the interior labels never decrease. */
  lemma InteriorNonDecreasing(first: real, last: real, ticks: real, i: int, j: int)
    requires first <= last
    requires 1 <= i <= j < |Labels(first, last, ticks)| - 1
    ensures Labels(first, last, ticks)[i] <= Labels(first, last, ticks)[j]
  {
    var slices := Slices(first, last, ticks);
    InteriorLabel(first, last, ticks, i);
    InteriorLabel(first, last, ticks, j);
    InterpolateMonotone(first, last, slices, i, j);
    RoundLabelMonotone(Interpolate(first, last, slices, i), Interpolate(first, last, slices, j));
  }

  /** getRangeLabels(0, 100, 5): four slices of 25. */
  lemma ExampleHundred()
    ensures Labels(0.0, 100.0, 5.0) == [0.0, 25.0, 50.0, 75.0, 100.0]
  {
    assert Slices(0.0, 100.0, 5.0) == 4.0 && InteriorCount(4.0) == 3;
    assert Interpolate(0.0, 100.0, 4.0, 1) == 25.0;
    assert Interpolate(0.0, 100.0, 4.0, 2) == 50.0;
    assert Interpolate(0.0, 100.0, 4.0, 3) == 75.0;
    assert RoundLabel(25.0) == 25.0 && RoundLabel(50.0) == 50.0 && RoundLabel(75.0) == 75.0;
    var interior := seq(3, k => RoundLabel(Interpolate(0.0, 100.0, 4.0, k + 1)));
    assert interior == [25.0, 50.0, 75.0];
  }

  /** getRangeLabels(0, 9, 5): 5 < 9, so no clamp; the interior values keep two decimals. */
  lemma ExampleNine()
    ensures Labels(0.0, 9.0, 5.0) == [0.0, 2.25, 4.5, 6.75, 9.0]
  {
    assert Slices(0.0, 9.0, 5.0) == 4.0 && InteriorCount(4.0) == 3;
    assert Interpolate(0.0, 9.0, 4.0, 1) == 2.25;
    assert Interpolate(0.0, 9.0, 4.0, 2) == 4.5;
    assert Interpolate(0.0, 9.0, 4.0, 3) == 6.75;
    assert Ceil(225.0) == 225 && Ceil(450.0) == 450 && Ceil(675.0) == 675;
    assert RoundLabel(2.25) == 2.25 && RoundLabel(4.5) == 4.5 && RoundLabel(6.75) == 6.75;
    var interior := seq(3, k => RoundLabel(Interpolate(0.0, 9.0, 4.0, k + 1)));
    assert interior == [2.25, 4.5, 6.75];
  }

  /** getRangeLabels(0, 3, 5): 5 >= 3 clamps the ticks to 4, one label per integer. */
  lemma ExampleClamped()
    ensures Labels(0.0, 3.0, 5.0) == [0.0, 1.0, 2.0, 3.0]
  {
    assert RoundLabel(1.0) == 1.0 && RoundLabel(2.0) == 2.0;
  }
}
