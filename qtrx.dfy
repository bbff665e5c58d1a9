/**
 * Line-sensor fusion of the QTRX reflectance array (qtrx.py): each raw decay time
 * is normalised to [0, 1], thresholded to {0, 1}, and the thresholded frame is
 * reduced to a weighted-index centroid. The timing loop that produces the raw
 * decay times is hardware and is not modelled; raw frames are inputs here.
 */
module Qtrx {

  /** The defaults of normalize_reading and threshold_reading. */
  const DEFAULT_MIN_VALUE: int := 0
  const DEFAULT_MAX_VALUE: int := 1000
  const DEFAULT_THRESHOLD: real := 0.9

  /**
   * normalize_reading: max(0.0, min(1.0, (reading - min) / (max - min))).
   * Equal bounds would divide by zero, so callers must not pass them.
   */
  function NormalizeReading(reading: int, minValue: int, maxValue: int): (r: real)
    requires maxValue != minValue
    ensures 0.0 <= r <= 1.0
    ensures maxValue > minValue && reading <= minValue ==> r == 0.0
    ensures maxValue > minValue && reading >= maxValue ==> r == 1.0
    ensures minValue <= reading <= maxValue ==> r * (maxValue - minValue) as real == (reading - minValue) as real
  {
    var x := (reading - minValue) as real / (maxValue - minValue) as real;
    var upper := if x < 1.0 then x else 1.0;
    if upper > 0.0 then upper else 0.0
  }

  /** A darker reading never normalises lower than a lighter one. */
  lemma NormalizeMonotone(a: int, b: int, minValue: int, maxValue: int)
    requires maxValue > minValue && a <= b
    ensures NormalizeReading(a, minValue, maxValue) <= NormalizeReading(b, minValue, maxValue)
  {
    var d := (maxValue - minValue) as real;
    assert (a - minValue) as real / d <= (b - minValue) as real / d;
  }

  /** threshold_reading: 1 (black) when the reading reaches the threshold, else 0 (white). */
  function ThresholdReading(reading: real, threshold: real): (r: int)
    ensures r == 0 || r == 1
    ensures r == 1 <==> reading >= threshold
  {
    if reading >= threshold then 1 else 0
  }

  /** Every entry is 0 or 1, as thresholded frames are. */
  predicate Binary(rs: seq<int>) {
    forall i :: 0 <= i < |rs| ==> rs[i] == 0 || rs[i] == 1
  }

  /** total_weight of calculate_centroid (also the builtin sum of the frame), accumulated left to right. */
  function Sum(rs: seq<int>): int
    decreases |rs|
  {
    if rs == [] then 0 else Sum(rs[..|rs| - 1]) + rs[|rs| - 1]
  }

  /** weighted_sum of calculate_centroid: the sum of i * reading_i, accumulated left to right. */
  function WeightedSum(rs: seq<int>): int
    decreases |rs|
  {
    if rs == [] then 0 else WeightedSum(rs[..|rs| - 1]) + (|rs| - 1) * rs[|rs| - 1]
  }

  /** The value calculate_centroid returns: the weighted mean index, or 0 when nothing weighs. */
  function Centroid(rs: seq<int>): real {
    if Sum(rs) > 0 then WeightedSum(rs) as real / Sum(rs) as real else 0.0
  }

  /** On a binary frame the weighted sum lies between 0 and (N - 1) times the count of ones. */
  lemma {:induction false} WeightedSumBounds(rs: seq<int>)
    requires Binary(rs)
    ensures 0 <= Sum(rs) <= |rs|
    ensures 0 <= WeightedSum(rs) <= (|rs| - 1) * Sum(rs)
    decreases |rs|
  {
    if rs != [] {
      var init := rs[..|rs| - 1];
      assert Binary(init);
      WeightedSumBounds(init);
      var x := rs[|rs| - 1];
      assert x == 0 || x == 1;
      assert (|init| - 1) * Sum(init) <= |init| * Sum(init);
    }
  }

  /** A frame that sees at least one line sensor has its centroid within the array, [0, N - 1]. */
  lemma CentroidInRange(rs: seq<int>)
    requires Binary(rs) && Sum(rs) > 0
    ensures 0.0 <= Centroid(rs) <= (|rs| - 1) as real
  {
    WeightedSumBounds(rs);
    QuotientBounds(WeightedSum(rs) as real, Sum(rs) as real, (|rs| - 1) as real);
  }

  /** Dividing 0 <= w <= k * s by a positive s lands in [0, k]. */
  lemma QuotientBounds(w: real, s: real, k: real)
    requires s > 0.0 && 0.0 <= w <= k * s
    ensures 0.0 <= w / s <= k
  {
    var q := w / s;
    assert q * s == w;
  }

  /** calculate_centroid: the accumulation loop, proved to compute Centroid. */
  method CalculateCentroid(readings: seq<int>) returns (c: real)
    ensures c == Centroid(readings)
    ensures Sum(readings) <= 0 ==> c == 0.0
    ensures Binary(readings) && Sum(readings) > 0 ==> 0.0 <= c <= (|readings| - 1) as real
  {
    var totalWeight := 0;
    var weightedSum := 0;
    var i := 0;
    while i < |readings|
      invariant 0 <= i <= |readings|
      invariant totalWeight == Sum(readings[..i])
      invariant weightedSum == WeightedSum(readings[..i])
    {
      assert readings[..i + 1][..i] == readings[..i];
      totalWeight := totalWeight + readings[i];
      weightedSum := weightedSum + i * readings[i];
      i := i + 1;
    }
    assert readings[..i] == readings;
    c := if totalWeight > 0 then weightedSum as real / totalWeight as real else 0.0;
    if Binary(readings) && Sum(readings) > 0 {
      CentroidInRange(readings);
    }
  }

  /** The line sensed under the two middle-left sensors of eight sits at index 2.5. */
  lemma CentroidExample()
    ensures Centroid([0, 0, 1, 1, 0, 0, 0, 0]) == 2.5
  {
    var rs := [0, 0, 1, 1, 0, 0, 0, 0];
    assert Sum([0]) == 0 && WeightedSum([0]) == 0 by { assert [0][..0] == []; }
    assert Sum([0, 0]) == 0 && WeightedSum([0, 0]) == 0 by { assert [0, 0][..1] == [0]; }
    assert Sum([0, 0, 1]) == 1 && WeightedSum([0, 0, 1]) == 2 by { assert [0, 0, 1][..2] == [0, 0]; }
    assert Sum([0, 0, 1, 1]) == 2 && WeightedSum([0, 0, 1, 1]) == 5 by { assert [0, 0, 1, 1][..3] == [0, 0, 1]; }
    assert Sum([0, 0, 1, 1, 0]) == 2 && WeightedSum([0, 0, 1, 1, 0]) == 5 by { assert [0, 0, 1, 1, 0][..4] == [0, 0, 1, 1]; }
    assert Sum([0, 0, 1, 1, 0, 0]) == 2 && WeightedSum([0, 0, 1, 1, 0, 0]) == 5 by { assert [0, 0, 1, 1, 0, 0][..5] == [0, 0, 1, 1, 0]; }
    assert Sum([0, 0, 1, 1, 0, 0, 0]) == 2 && WeightedSum([0, 0, 1, 1, 0, 0, 0]) == 5 by { assert [0, 0, 1, 1, 0, 0, 0][..6] == [0, 0, 1, 1, 0, 0]; }
    assert Sum(rs) == 2 && WeightedSum(rs) == 5 by { assert rs[..7] == [0, 0, 1, 1, 0, 0, 0]; }
  }

  /** An all-white frame yields the "no line" value 0, which only the sum tells apart from index 0. */
  lemma {:induction false} AllZeroCentroid(rs: seq<int>)
    requires forall i :: 0 <= i < |rs| ==> rs[i] == 0
    ensures Sum(rs) == 0 && Centroid(rs) == 0.0
    decreases |rs|
  {
    if rs != [] {
      AllZeroCentroid(rs[..|rs| - 1]);
    }
  }

  /** For a positive divisor s, w / s exceeds 1 exactly when w exceeds s. */
  lemma QuotientAboveOne(w: real, s: real)
    requires s > 0.0
    ensures w / s > 1.0 <==> w > s
  {
    var q := w / s;
    assert q * s == w;
    assert (q - 1.0) * s == w - s;
    if q > 1.0 {
      assert (q - 1.0) * s > 0.0;
    }
    if w > s {
      assert (q - 1.0) * s > 0.0;
    }
  }

  /** A frame thresholded with the defaults, as is_line and the outer loop build it. */
  function Thresholded(raw: seq<int>): (t: seq<int>)
    ensures |t| == |raw| && Binary(t)
    ensures forall i :: 0 <= i < |raw| ==>
      (t[i] == 1 <==> NormalizeReading(raw[i], DEFAULT_MIN_VALUE, DEFAULT_MAX_VALUE) >= DEFAULT_THRESHOLD)
  {
    seq(|raw|, i requires 0 <= i < |raw| =>
      ThresholdReading(NormalizeReading(raw[i], DEFAULT_MIN_VALUE, DEFAULT_MAX_VALUE), DEFAULT_THRESHOLD))
  }

  /** is_line: the centroid of the thresholded frame exceeds 1. */
  function IsLine(raw: seq<int>): bool {
    Centroid(Thresholded(raw)) > 1.0
  }

  /**
   * is_line in integer terms: some sensor reports black and the weighted index sum
   * exceeds the count of black sensors, that is, the ones right of sensor 1 outweigh sensor 0.
   */
  lemma IsLineIff(raw: seq<int>)
    ensures IsLine(raw) <==> Sum(Thresholded(raw)) > 0 && WeightedSum(Thresholded(raw)) > Sum(Thresholded(raw))
  {
    var t := Thresholded(raw);
    if Sum(t) > 0 {
      var s := Sum(t) as real;
      var w := WeightedSum(t) as real;
      QuotientAboveOne(w, s);
    }
  }

  /** On a binary frame whose ones all sit at indices 0 and 1, the weighted sum is at most the count. */
  lemma {:induction false} LeftPairWeight(rs: seq<int>)
    requires Binary(rs)
    requires forall i :: 2 <= i < |rs| ==> rs[i] == 0
    ensures 0 <= WeightedSum(rs) <= Sum(rs)
    decreases |rs|
  {
    if rs != [] {
      var init := rs[..|rs| - 1];
      LeftPairWeight(init);
      var x := rs[|rs| - 1];
      assert |rs| - 1 >= 2 ==> x == 0;
      assert (|rs| - 1) * x <= x;
    }
  }

  /** A line seen only by sensors 0 and 1 does not count as a line. */
  lemma EdgeLineIsNoLine(raw: seq<int>)
    requires forall i :: 2 <= i < |raw| ==> Thresholded(raw)[i] == 0
    ensures !IsLine(raw)
  {
    LeftPairWeight(Thresholded(raw));
    IsLineIff(raw);
  }
}
