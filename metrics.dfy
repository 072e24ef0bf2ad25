/** The metric analyzer: fetches recent CloudWatch datapoints for a service's metric,
    flags the points more than three sample standard deviations from the mean, and
    runs that analysis over a fixed catalog of key metrics per service. */
module Metrics {
  import opened Common

  /** The look-back window `monitor_service` and `_get_service_metrics` use, in seconds. */
  const DefaultPeriod: int := 3600

  const MissingNames: string := "Service and metric name are required"
  const NonPositivePeriod: string := "Period must be positive"
  const NoKeyMetrics: string := "No key metrics defined"

  /** `self.key_metrics`, set once when the analyzer is created. */
  const KeyMetrics: map<string, seq<string>> := map[
    "EC2" := ["CPUUtilization", "MemoryUtilization", "DiskSpaceUtilization"],
    "RDS" := ["CPUUtilization", "FreeStorageSpace", "DatabaseConnections"],
    "Lambda" := ["Duration", "Errors", "Throttles"],
    "S3" := ["BucketSizeBytes", "NumberOfObjects"]
  ]

  /** One CloudWatch datapoint: its timestamp (already rendered in ISO form) and `Average`. */
  datatype DataPoint = DataPoint(timestamp: string, average: real)

  /** One reported anomaly. */
  datatype Anomaly = Anomaly(timestamp: string, value: real, deviation: real, threshold: real)

  /** The collaborators of the analyzer: CloudWatch `get_metric_statistics` (by
      service, metric and period), `statistics.stdev`, and the AI engine's
      `evaluate` on the datapoints and anomalies. */
  datatype Sources = Sources(fetch: (string, string, int) -> Call<seq<DataPoint>>,
                             stdev: seq<real> -> real,
                             insights: (seq<DataPoint>, seq<Anomaly>) -> Call<Dict>)

  // ---------------------------------------------------------------------------
  // Statistics

  function RealAbs(x: real): real {
    if x < 0.0 then -x else x
  }

  function Values(points: seq<DataPoint>): (vs: seq<real>)
    ensures |vs| == |points| && forall i :: 0 <= i < |points| ==> vs[i] == points[i].average
  {
    seq(|points|, i requires 0 <= i < |points| => points[i].average)
  }

  function Sum(xs: seq<real>): real {
    if xs == [] then 0.0 else Sum(xs[..|xs| - 1]) + xs[|xs| - 1]
  }

  /** `statistics.mean`, computed exactly. */
  function Mean(xs: seq<real>): real
    requires |xs| > 0
  {
    Sum(xs) / |xs| as real
  }

  /** The sum of squared deviations from `m`. */
  function SquaredDeviations(xs: seq<real>, m: real): (r: real)
    ensures r >= 0.0
  {
    if xs == [] then 0.0
    else
      var d := xs[|xs| - 1] - m;
      SquareNonNegative(d);
      SquaredDeviations(xs[..|xs| - 1], m) + d * d
  }

  lemma SquareNonNegative(d: real)
    ensures d * d >= 0.0
  {
    if d < 0.0 {
      assert d * d == (-d) * (-d);
    }
  }

  lemma SquareMonotone(a: real, b: real)
    requires 0.0 <= a < b
    ensures a * a < b * b
  {
    var e := b - a;
    assert b * b == a * a + 2.0 * a * e + e * e;
    assert e * e > 0.0;
    assert a * e >= 0.0;
  }

  /** The sample variance, of which `statistics.stdev` is the square root. */
  function SampleVariance(xs: seq<real>): real
    requires |xs| >= 2
  {
    SquaredDeviations(xs, Mean(xs)) / (|xs| - 1) as real
  }

  // ---------------------------------------------------------------------------
  // Detection

  /** The anomaly reported for one point. */
  function ToAnomaly(p: DataPoint, mean: real, std: real): Anomaly
    requires std != 0.0
  {
    Anomaly(p.timestamp, p.average, RealAbs(p.average - mean) / std, 3.0 * std)
  }

  /** Strictly more than three standard deviations from the mean. */
  predicate Exceeds(p: DataPoint, mean: real, std: real) {
    RealAbs(p.average - mean) > 3.0 * std
  }

  /** The anomalies among `points` for a given mean and deviation, in data order. */
  function Outliers(points: seq<DataPoint>, mean: real, std: real): (r: seq<Anomaly>)
    requires std != 0.0
    ensures |r| <= |points|
  {
    if points == [] then []
    else
      var r := Outliers(points[..|points| - 1], mean, std);
      var p := points[|points| - 1];
      if Exceeds(p, mean, std) then r + [ToAnomaly(p, mean, std)] else r
  }

  /** The outliers are exactly the anomalies of the points beyond three deviations:
      each comes from such a point and lies beyond the 3-sigma threshold it records,
      and each such point yields one. */
  lemma {:induction false} OutliersExact(points: seq<DataPoint>, mean: real, std: real)
    requires std != 0.0
    ensures forall a :: a in Outliers(points, mean, std) ==>
              exists i :: 0 <= i < |points| && Exceeds(points[i], mean, std) && a == ToAnomaly(points[i], mean, std)
    ensures forall a :: a in Outliers(points, mean, std) ==>
              RealAbs(a.value - mean) > 3.0 * std && a.threshold == 3.0 * std
    ensures forall i :: 0 <= i < |points| && Exceeds(points[i], mean, std) ==>
              ToAnomaly(points[i], mean, std) in Outliers(points, mean, std)
  {
    if points != [] {
      var init, p := points[..|points| - 1], points[|points| - 1];
      OutliersExact(init, mean, std);
      forall a | a in Outliers(points, mean, std)
        ensures exists i :: 0 <= i < |points| && Exceeds(points[i], mean, std) && a == ToAnomaly(points[i], mean, std)
      {
        if a in Outliers(init, mean, std) {
          var j :| 0 <= j < |init| && Exceeds(init[j], mean, std) && a == ToAnomaly(init[j], mean, std);
          assert init[j] == points[j];
        } else {
          assert Exceeds(points[|points| - 1], mean, std) && a == ToAnomaly(points[|points| - 1], mean, std);
        }
      }
      forall i | 0 <= i < |points| && Exceeds(points[i], mean, std)
        ensures ToAnomaly(points[i], mean, std) in Outliers(points, mean, std)
      {
        if i < |init| {
          assert init[i] == points[i];
        }
      }
    }
  }

  /** There are no outliers exactly when no point lies beyond three deviations. */
  lemma OutliersEmpty(points: seq<DataPoint>, mean: real, std: real)
    requires std != 0.0
    ensures Outliers(points, mean, std) == [] <==> forall i :: 0 <= i < |points| ==> !Exceeds(points[i], mean, std)
  {
    OutliersExact(points, mean, std);
    var r := Outliers(points, mean, std);
    if r != [] {
      assert r[0] in r;
    }
  }

  /** `_detect_anomalies` as a function of the datapoints: nothing for fewer than two
      points or a zero standard deviation, otherwise the points beyond three of them. */
  function AnomaliesOf(points: seq<DataPoint>, stdev: seq<real> -> real): (r: seq<Anomaly>)
    ensures |points| < 2 ==> r == []
    ensures |points| >= 2 && stdev(Values(points)) == 0.0 ==> r == []
    ensures |points| >= 2 && stdev(Values(points)) != 0.0 ==>
              r == Outliers(points, Mean(Values(points)), stdev(Values(points)))
  {
    if |points| < 2 then []
    else
      var std := stdev(Values(points));
      if std == 0.0 then [] else Outliers(points, Mean(Values(points)), std)
  }

  /** Each reported anomaly lies more than three deviations out: its `deviation` is above 3. */
  lemma DeviationAboveThree(points: seq<DataPoint>, stdev: seq<real> -> real, a: Anomaly)
    requires a in AnomaliesOf(points, stdev)
    requires stdev(Values(points)) > 0.0
    ensures a.deviation > 3.0 && a.threshold == 3.0 * stdev(Values(points))
  {
    var std := stdev(Values(points));
    var mean := Mean(Values(points));
    OutliersExact(points, mean, std);
    var i :| 0 <= i < |points| && Exceeds(points[i], mean, std) && a == ToAnomaly(points[i], mean, std);
    QuotientAboveThree(RealAbs(points[i].average - mean), std);
  }

  lemma QuotientAboveThree(d: real, std: real)
    requires std > 0.0 && d > 3.0 * std
    ensures d / std > 3.0
  {
    assert (d / std) * std == d;
  }

  /** When `stdev` is the square root of the sample variance, the 3-sigma test is the
      square-free test `(v - mean)^2 > 9 * variance`. */
  lemma ExceedsIffSquared(v: real, mean: real, std: real, variance: real)
    requires std >= 0.0 && std * std == variance
    ensures RealAbs(v - mean) > 3.0 * std <==> (v - mean) * (v - mean) > 9.0 * variance
  {
    var d := RealAbs(v - mean);
    assert d * d == (v - mean) * (v - mean);
    if d > 3.0 * std {
      SquareMonotone(3.0 * std, d);
    } else if d < 3.0 * std {
      SquareMonotone(d, 3.0 * std);
    }
    assert (3.0 * std) * (3.0 * std) == 9.0 * variance;
  }

  // ---------------------------------------------------------------------------
  // Samuelson's bound: few points cannot hold an outlier

  function Squares(ys: seq<real>): (r: seq<real>)
    ensures |r| == |ys| && forall j :: 0 <= j < |ys| ==> r[j] == ys[j] * ys[j]
  {
    seq(|ys|, j requires 0 <= j < |ys| => ys[j] * ys[j])
  }

  function Deviations(xs: seq<real>, m: real): (r: seq<real>)
    ensures |r| == |xs| && forall j :: 0 <= j < |xs| ==> r[j] == xs[j] - m
  {
    seq(|xs|, j requires 0 <= j < |xs| => xs[j] - m)
  }

  lemma {:induction false} SumConcat(a: seq<real>, b: seq<real>)
    ensures Sum(a + b) == Sum(a) + Sum(b)
    decreases |b|
  {
    if b == [] {
      assert a + b == a;
    } else {
      assert (a + b)[..|a + b| - 1] == a + b[..|b| - 1];
      SumConcat(a, b[..|b| - 1]);
    }
  }

  /** Shifting every value by `c` shifts the sum by `n * c`. */
  lemma {:induction false} SumDeviations(xs: seq<real>, m: real)
    ensures Sum(Deviations(xs, m)) == Sum(xs) - |xs| as real * m
  {
    if xs != [] {
      var init := xs[..|xs| - 1];
      assert Deviations(xs, m)[..|xs| - 1] == Deviations(init, m);
      SumDeviations(init, m);
    }
  }

  lemma {:induction false} SquaredDeviationsAsSum(xs: seq<real>, m: real)
    ensures SquaredDeviations(xs, m) == Sum(Squares(Deviations(xs, m)))
  {
    if xs != [] {
      var init := xs[..|xs| - 1];
      SquaresPrefix(Deviations(xs, m), |xs| - 1);
      assert Deviations(xs, m)[..|xs| - 1] == Deviations(init, m);
      SquaredDeviationsAsSum(init, m);
    }
  }

  lemma SquaresPrefix(ys: seq<real>, k: nat)
    requires k <= |ys|
    ensures Squares(ys)[..k] == Squares(ys[..k])
  {
    forall j | 0 <= j < k ensures Squares(ys)[..k][j] == Squares(ys[..k])[j] {
      assert ys[..k][j] == ys[j];
    }
  }

  lemma SquarePositive(s: real)
    requires s != 0.0
    ensures s * s > 0.0
  {
    if s < 0.0 {
      assert s * s == (-s) * (-s);
    }
  }

  /** `dd` is the square of `d`. */
  predicate SquareOf(dd: real, d: real) {
    dd == d * d
  }

  /** `s^2 <= k q`: the shape of the Cauchy-Schwarz bound, for a sum `s` of `k` values
      whose squares sum to `q`. */
  predicate SquareBound(s: real, k: real, q: real) {
    s * s <= k * q
  }

  /** The Cauchy-Schwarz inequality for a sum: its square is at most `n` times the
      sum of squares. */
  lemma {:induction false} CauchySchwarz(ys: seq<real>)
    ensures SquareBound(Sum(ys), |ys| as real, Sum(Squares(ys)))
  {
    if ys == [] {
      assert Sum(Squares(ys)) == 0.0;
    } else {
      var zs, y := ys[..|ys| - 1], ys[|ys| - 1];
      CauchySchwarz(zs);
      SumOfSquaresNonNegative(zs);
      assert Sum(Squares(ys)) == Sum(Squares(zs)) + Squares(ys)[|ys| - 1] by {
        SquaresPrefix(ys, |ys| - 1);
      }
      CauchySchwarzStep(|zs| as real, Sum(zs), Sum(Squares(zs)), y, Squares(ys)[|ys| - 1],
                        |ys| as real, Sum(ys), Sum(Squares(ys)));
    }
  }

  /** Cauchy-Schwarz with the count given as a real. */
  lemma CauchySchwarzCount(ys: seq<real>, k: real)
    requires k == |ys| as real
    ensures SquareBound(Sum(ys), k, Sum(Squares(ys)))
  {
    CauchySchwarz(ys);
  }

  lemma {:induction false} SumOfSquaresNonNegative(ys: seq<real>)
    ensures Sum(Squares(ys)) >= 0.0
  {
    if ys != [] {
      SquaresPrefix(ys, |ys| - 1);
      SumOfSquaresNonNegative(ys[..|ys| - 1]);
      SquareNonNegative(ys[|ys| - 1]);
    }
  }

  /** The inductive step of Cauchy-Schwarz, on the numbers alone: one more value `y`
      (with square `yy`) keeps the bound. */
  lemma CauchySchwarzStep(k: real, s: real, q: real, y: real, yy: real, k': real, s': real, q': real)
    requires k >= 0.0 && q >= 0.0 && SquareBound(s, k, q) && SquareOf(yy, y)
    requires k' == k + 1.0 && s' == s + y && q' == q + yy
    ensures SquareBound(s', k', q')
  {
    CrossTerm(k, s, q, y);
    assert (s + y) * (s + y) == s * s + 2.0 * s * y + y * y;
    assert (k + 1.0) * (q + y * y) == k * q + q + k * y * y + y * y;
  }

  /** From `s^2 <= k q` it follows that `2 s y <= q + k y^2`. */
  lemma CrossTerm(k: real, s: real, q: real, y: real)
    requires k >= 0.0 && q >= 0.0 && s * s <= k * q
    ensures 2.0 * s * y <= q + k * y * y
  {
    if k == 0.0 {
      if s != 0.0 {
        SquarePositive(s);
      }
    } else {
      var t := s - k * y;
      SquareNonNegative(t);
      assert t * t == s * s - 2.0 * k * s * y + k * k * y * y;
      assert k * (q + k * y * y - 2.0 * s * y) >= t * t;
    }
  }

  /** `ys` with its element at `i` taken out. */
  function Without(ys: seq<real>, i: nat): (r: seq<real>)
    requires i < |ys|
    ensures |r| == |ys| - 1
  {
    ys[..i] + ys[i + 1..]
  }

  /** Taking one element out of a sum. */
  lemma SumWithout(ys: seq<real>, i: nat)
    requires i < |ys|
    ensures Sum(ys) == ys[i] + Sum(Without(ys, i))
  {
    var front, middle, back := ys[..i], [ys[i]], ys[i + 1..];
    SplitAt(ys, i);
    assert Without(ys, i) == front + back;
    SumConcat(front, middle + back);
    SumConcat(middle, back);
    SumSingleton(ys[i]);
    SumConcat(front, back);
  }

  lemma SplitAt<T>(ys: seq<T>, i: nat)
    requires i < |ys|
    ensures ys == ys[..i] + ([ys[i]] + ys[i + 1..])
  {
    assert ys[i..] == [ys[i]] + ys[i + 1..];
    assert ys == ys[..i] + ys[i..];
  }

  lemma SumSingleton(y: real)
    ensures Sum([y]) == y
  {
    assert [y][..0] == [];
  }

  lemma SquaresWithout(ys: seq<real>, i: nat)
    requires i < |ys|
    ensures Without(Squares(ys), i) == Squares(Without(ys, i))
  {
    var rest := Without(ys, i);
    forall j | 0 <= j < |rest| ensures (Squares(ys)[..i] + Squares(ys)[i + 1..])[j] == Squares(rest)[j] {
      if j < i {
        assert rest[j] == ys[j];
      } else {
        assert rest[j] == ys[j + 1];
      }
    }
  }

  /** The mean times the count is the sum. */
  lemma MeanTimesCount(xs: seq<real>)
    requires |xs| > 0
    ensures |xs| as real * Mean(xs) == Sum(xs)
  {
  }

  /** Deviations from the mean sum to zero. */
  lemma DeviationsSumToZero(xs: seq<real>)
    requires |xs| > 0
    ensures Sum(Deviations(xs, Mean(xs))) == 0.0
  {
    SumDeviations(xs, Mean(xs));
    MeanTimesCount(xs);
  }

  /** Samuelson's bound for `n` values, one of which deviates by `d` while
      the squared deviations sum to `total`: `n d^2 <= (n - 1) total`. */
  predicate SamuelsonBound(n: real, d: real, total: real) {
    n * (d * d) <= (n - 1.0) * total
  }

  /** The pieces of Samuelson's argument for values `ds` summing to zero, with `ds[i]`
      taken out: the rest sums to `-ds[i]`, holds the remaining squares, and
      Cauchy-Schwarz bounds its squared sum by `n - 1` times its sum of squares. */
  lemma CenteredParts(ds: seq<real>, i: nat)
    requires i < |ds| && Sum(ds) == 0.0
    ensures Sum(Without(ds, i)) == -ds[i]
    ensures SquareBound(Sum(Without(ds, i)), |ds| as real - 1.0, Sum(Squares(Without(ds, i))))
    ensures Sum(Squares(ds)) == Squares(ds)[i] + Sum(Squares(Without(ds, i)))
  {
    CauchySchwarzCount(Without(ds, i), |ds| as real - 1.0);
    SumWithout(ds, i);
    SumOfSquaresWithout(ds, i);
  }

  lemma SumOfSquaresWithout(ds: seq<real>, i: nat)
    requires i < |ds|
    ensures Sum(Squares(ds)) == Squares(ds)[i] + Sum(Squares(Without(ds, i)))
  {
    SumWithout(Squares(ds), i);
    SquaresWithout(ds, i);
  }

  /** Samuelson's argument on the numbers alone. */
  lemma SamuelsonStep(n: real, k: real, d: real, dd: real, s: real, q: real, total: real)
    requires k == n - 1.0 && n >= 1.0 && s == -d && SquareBound(s, k, q) && SquareOf(dd, d) && total == dd + q
    ensures SamuelsonBound(n, d, total)
  {
    assert s * s == d * d;
    assert (n - 1.0) * total == (n - 1.0) * (d * d) + (n - 1.0) * q;
  }

  /** Samuelson's inequality for values summing to zero. */
  lemma SamuelsonCentered(ds: seq<real>, i: nat)
    requires i < |ds| && Sum(ds) == 0.0
    ensures SamuelsonBound(|ds| as real, ds[i], Sum(Squares(ds)))
  {
    CenteredParts(ds, i);
    var rest := Without(ds, i);
    assert SquareOf(Squares(ds)[i], ds[i]);
    SamuelsonStep(|ds| as real, |ds| as real - 1.0, ds[i], Squares(ds)[i],
                  Sum(rest), Sum(Squares(rest)), Sum(Squares(ds)));
  }

  /** Samuelson's inequality about a centre `m` the values deviate from by zero in total. */
  lemma SamuelsonAbout(xs: seq<real>, m: real, i: nat)
    requires i < |xs| && Sum(Deviations(xs, m)) == 0.0
    ensures SamuelsonBound(|xs| as real, xs[i] - m, SquaredDeviations(xs, m))
  {
    var ds := Deviations(xs, m);
    assert SquaredDeviations(xs, m) == Sum(Squares(ds)) by { SquaredDeviationsAsSum(xs, m); }
    assert ds[i] == xs[i] - m && |ds| == |xs|;
    SamuelsonCentered(ds, i);
  }

  /** Samuelson's inequality: no value lies further from the mean than the sum of
      squared deviations allows. */
  lemma Samuelson(xs: seq<real>, i: nat)
    requires i < |xs|
    ensures SamuelsonBound(|xs| as real, xs[i] - Mean(xs), SquaredDeviations(xs, Mean(xs)))
  {
    DeviationsSumToZero(xs);
    SamuelsonAbout(xs, Mean(xs), i);
  }

  /** For at most ten points, Samuelson's bound `n d^2 <= (n - 1) S` stays within the
      3-sigma bound `d^2 <= 9 S / (n - 1)`. */
  lemma WithinThreeSigma(n: nat, dd: real, total: real)
    requires 2 <= n <= 10 && dd >= 0.0 && total >= 0.0
    requires n as real * dd <= (n as real - 1.0) * total
    ensures dd <= 9.0 * (total / (n - 1) as real)
  {
    assert (n - 1) as real * dd <= 9.0 * total by {
      if n == 2 {} else if n == 3 {} else if n == 4 {} else if n == 5 {} else if n == 6 {}
      else if n == 7 {} else if n == 8 {} else if n == 9 {} else {}
    }
  }

  /** Samuelson's bound with at most ten values keeps every deviation `d` within three
      standard deviations, `std` being the square root of `total / (n - 1)`. */
  lemma SigmaFromSamuelson(n: nat, d: real, std: real, total: real)
    requires 2 <= n <= 10 && std >= 0.0 && total >= 0.0
    requires SquareOf(total / (n - 1) as real, std)
    requires SamuelsonBound(n as real, d, total)
    ensures RealAbs(d) <= 3.0 * std
  {
    SquareNonNegative(d);
    WithinThreeSigma(n, d * d, total);
    if RealAbs(d) > 3.0 * std {
      SquareMonotone(3.0 * std, RealAbs(d));
      assert false;
    }
  }

  /** With at most ten values, none lies more than three sample standard deviations
      from their mean. */
  lemma ThreeSigmaBound(xs: seq<real>, i: nat, std: real)
    requires 2 <= |xs| <= 10 && i < |xs|
    requires std >= 0.0 && SquareOf(SampleVariance(xs), std)
    ensures RealAbs(xs[i] - Mean(xs)) <= 3.0 * std
  {
    Samuelson(xs, i);
    SigmaFromSamuelson(|xs|, xs[i] - Mean(xs), std, SquaredDeviations(xs, Mean(xs)));
  }

  /** With at most ten datapoints, and `stdev` the square root of the sample variance,
      no point is ever more than three standard deviations from the mean. */
  lemma FewPointsHaveNoAnomaly(points: seq<DataPoint>, stdev: seq<real> -> real)
    requires 2 <= |points| <= 10
    requires stdev(Values(points)) >= 0.0
    requires stdev(Values(points)) * stdev(Values(points)) == SampleVariance(Values(points))
    ensures AnomaliesOf(points, stdev) == []
  {
    var xs := Values(points);
    var std := stdev(xs);
    if std != 0.0 {
      var m := Mean(xs);
      assert SquareOf(SampleVariance(xs), std);
      forall i | 0 <= i < |points| ensures !Exceeds(points[i], m, std) {
        ThreeSigmaBound(xs, i, std);
      }
      OutliersEmpty(points, m, std);
    }
  }

  /** Extending the scanned prefix by one point appends that point's anomaly, if any. */
  lemma OutliersStep(points: seq<DataPoint>, i: nat, mean: real, std: real)
    requires i < |points| && std != 0.0
    ensures Outliers(points[..i + 1], mean, std)
            == Outliers(points[..i], mean, std) + if Exceeds(points[i], mean, std) then [ToAnomaly(points[i], mean, std)] else []
  {
    assert points[..i + 1][..i] == points[..i];
  }

  /** `_detect_anomalies`: one pass over the points, keeping those beyond three
      standard deviations from the mean. */
  method DetectAnomalies(points: seq<DataPoint>, stdev: seq<real> -> real) returns (anomalies: seq<Anomaly>)
    ensures anomalies == AnomaliesOf(points, stdev)
  {
    if points == [] {
      return [];
    }
    var values := Values(points);
    var mean := Mean(values);
    var std := if |values| > 1 then stdev(values) else 0.0;
    if std == 0.0 {
      return [];
    }
    anomalies := ScanOutliers(points, mean, std);
  }

  /** The loop of `_detect_anomalies`: every point beyond the 3-sigma threshold, in order. */
  method ScanOutliers(points: seq<DataPoint>, mean: real, std: real) returns (anomalies: seq<Anomaly>)
    requires std != 0.0
    ensures anomalies == Outliers(points, mean, std)
  {
    var threshold := 3.0 * std;
    anomalies := [];
    for i := 0 to |points|
      invariant anomalies == Outliers(points[..i], mean, std)
    {
      OutliersStep(points, i, mean, std);
      var p := points[i];
      if RealAbs(p.average - mean) > threshold {
        anomalies := anomalies + [Anomaly(p.timestamp, p.average, RealAbs(p.average - mean) / std, threshold)];
      }
    }
    assert points[..|points|] == points;
  }

  // ---------------------------------------------------------------------------
  // analyze_metrics

  /** The result of `analyze_metrics`. `NoData` has an empty anomaly list and no
      `insights` key; `Analyzed` has both. */
  datatype MetricReport =
    | MetricFailed(service: string, metric: string, error: string)
    | NoData(service: string, metric: string)
    | Analyzed(service: string, metric: string, anomalies: seq<Anomaly>, insights: Dict)
  {
    function Status(): string {
      if MetricFailed? then "error" else "success"
    }
  }

  /** `_get_metric_data`: a client error reads as no data; any other exception propagates. */
  function MetricData(call: Call<seq<DataPoint>>): (r: Result<seq<DataPoint>>)
    ensures r.Failure? <==> call.Raised?
    ensures call.ClientError? ==> r == Success([])
    ensures call.Returned? ==> r == Success(call.value)
  {
    match call
    case Returned(d) => Success(d)
    case ClientError(_) => Success([])
    case Raised(m) => Failure(m)
  }

  /** `_get_ai_insights`: the AI engine's answer, or `{}` on any exception. */
  function AiInsights(call: Call<Dict>): (r: Dict)
    ensures call.Returned? ==> r == call.value
    ensures !call.Returned? ==> r == map[]
  {
    if call.Returned? then call.value else map[]
  }

  /** `analyze_metrics` as a function of its inputs. */
  function MetricAnalysis(service: string, metric: string, period: int, src: Sources): (r: MetricReport)
    ensures r.service == service && r.metric == metric
    ensures service == "" || metric == "" ==> r == MetricFailed(service, metric, MissingNames)
    ensures service != "" && metric != "" && period <= 0 ==> r == MetricFailed(service, metric, NonPositivePeriod)
    ensures r.NoData? <==> service != "" && metric != "" && period > 0 && MetricData(src.fetch(service, metric, period)) == Success([])
    ensures r.Analyzed? && r.anomalies == [] ==> r.insights == map[]
    ensures service != "" && metric != "" && period > 0 && src.fetch(service, metric, period).Raised? ==>
              r == MetricFailed(service, metric, src.fetch(service, metric, period).message)
    ensures r.Analyzed? <==> service != "" && metric != "" && period > 0
                             && src.fetch(service, metric, period).Returned? && src.fetch(service, metric, period).value != []
    ensures r.Analyzed? ==>
              var data := src.fetch(service, metric, period).value;
              && r.anomalies == AnomaliesOf(data, src.stdev)
              && (r.anomalies != [] ==> r.insights == AiInsights(src.insights(data, r.anomalies)))
  {
    if service == "" || metric == "" then MetricFailed(service, metric, MissingNames)
    else if period <= 0 then MetricFailed(service, metric, NonPositivePeriod)
    else match MetricData(src.fetch(service, metric, period))
      case Failure(e) => MetricFailed(service, metric, e)
      case Success(data) =>
        if data == [] then NoData(service, metric)
        else
          var anomalies := AnomaliesOf(data, src.stdev);
          Analyzed(service, metric, anomalies,
                   if anomalies != [] then AiInsights(src.insights(data, anomalies)) else map[])
  }

  /** `analyze_metrics`: validation errors and fetch failures are returned as error
      reports, never raised. */
  method AnalyzeMetrics(service: string, metric: string, period: int, src: Sources) returns (r: MetricReport)
    ensures r == MetricAnalysis(service, metric, period, src)
  {
    if service == "" || metric == "" {
      return MetricFailed(service, metric, MissingNames);
    }
    if period <= 0 {
      return MetricFailed(service, metric, NonPositivePeriod);
    }
    var fetched := MetricData(src.fetch(service, metric, period));
    if fetched.Failure? {
      return MetricFailed(service, metric, fetched.error);
    }
    var data := fetched.value;
    if data == [] {
      return NoData(service, metric);
    }
    var anomalies := DetectAnomalies(data, src.stdev);
    var insights: Dict := map[];
    if anomalies != [] {
      insights := AiInsights(src.insights(data, anomalies));
    }
    return Analyzed(service, metric, anomalies, insights);
  }

  // ---------------------------------------------------------------------------
  // monitor_service

  /** The result of `monitor_service`. */
  datatype Monitoring =
    | Monitored(service: string, metrics: map<string, MetricReport>)
    | MonitorFailed(service: string, error: string)

  /** `monitor_service`: an unknown service is an error result; otherwise every key
      metric of the service is analysed over the default period, keyed by metric name. */
  method MonitorService(service: string, src: Sources) returns (r: Monitoring)
    ensures r.service == service
    ensures r.MonitorFailed? <==> service !in KeyMetrics
    ensures r.MonitorFailed? ==> r.error == NoKeyMetrics
    ensures r.Monitored? ==>
              && (forall m :: m in r.metrics <==> m in KeyMetrics[service])
              && (forall m :: m in r.metrics ==> r.metrics[m] == MetricAnalysis(service, m, DefaultPeriod, src))
  {
    if service !in KeyMetrics {
      return MonitorFailed(service, NoKeyMetrics);
    }
    var names := KeyMetrics[service];
    var results: map<string, MetricReport> := map[];
    for i := 0 to |names|
      invariant forall m :: m in results <==> m in names[..i]
      invariant forall m :: m in results ==> results[m] == MetricAnalysis(service, m, DefaultPeriod, src)
    {
      assert names[..i + 1] == names[..i] + [names[i]];
      var report := AnalyzeMetrics(service, names[i], DefaultPeriod, src);
      results := results[names[i] := report];
    }
    assert names[..|names|] == names;
    return Monitored(service, results);
  }

  // ---------------------------------------------------------------------------
  // _get_service_metrics and get_service_insights

  /** One entry of `_get_service_metrics`: a metric name with its (non-empty) datapoints. */
  datatype MetricSeries = MetricSeries(name: string, data: seq<DataPoint>)

  /** The series of the named metrics that returned data, in name order; an exception
      other than a client error aborts the whole collection. */
  function CollectSeries(service: string, names: seq<string>,
                         fetch: (string, string, int) -> Call<seq<DataPoint>>): (r: Result<seq<MetricSeries>>)
    ensures r.Success? ==> |r.value| <= |names|
    ensures r.Success? ==> forall k :: 0 <= k < |r.value| ==> r.value[k].data != [] && r.value[k].name in names
  {
    if names == [] then Success([])
    else
      var init := names[..|names| - 1];
      var name := names[|names| - 1];
      match CollectSeries(service, init, fetch)
      case Failure(e) => Failure(e)
      case Success(series) =>
        match MetricData(fetch(service, name, DefaultPeriod))
        case Failure(e) => Failure(e)
        case Success(data) =>
          assert forall k :: 0 <= k < |series| ==> series[k].name in names by {
            forall k | 0 <= k < |series| ensures series[k].name in names {
              var j :| 0 <= j < |init| && init[j] == series[k].name;
              assert names[j] == init[j];
            }
          }
          if data != [] then Success(series + [MetricSeries(name, data)]) else Success(series)
  }

  /** A failure in a prefix of the names is the failure of the whole collection. */
  lemma {:induction false} CollectSeriesFailurePersists(service: string, names: seq<string>,
                                                        fetch: (string, string, int) -> Call<seq<DataPoint>>, i: nat)
    requires i <= |names|
    requires CollectSeries(service, names[..i], fetch).Failure?
    ensures CollectSeries(service, names, fetch) == CollectSeries(service, names[..i], fetch)
    decreases |names| - i
  {
    if i < |names| {
      var init := names[..|names| - 1];
      assert init[..i] == names[..i];
      CollectSeriesFailurePersists(service, init, fetch, i);
    } else {
      assert names[..i] == names;
    }
  }

  /** When every fetch returns data, the collection has one series per name, in order. */
  lemma {:induction false} CollectSeriesComplete(service: string, names: seq<string>,
                                                 fetch: (string, string, int) -> Call<seq<DataPoint>>)
    requires forall k :: 0 <= k < |names| ==>
               fetch(service, names[k], DefaultPeriod).Returned? && fetch(service, names[k], DefaultPeriod).value != []
    ensures CollectSeries(service, names, fetch).Success?
    ensures |CollectSeries(service, names, fetch).value| == |names|
    ensures forall k :: 0 <= k < |names| ==>
              CollectSeries(service, names, fetch).value[k] == MetricSeries(names[k], fetch(service, names[k], DefaultPeriod).value)
  {
    if names != [] {
      var init := names[..|names| - 1];
      var name := names[|names| - 1];
      assert forall k :: 0 <= k < |init| ==> init[k] == names[k];
      CollectSeriesComplete(service, init, fetch);
      var series := CollectSeries(service, init, fetch).value;
      var data := fetch(service, name, DefaultPeriod).value;
      assert MetricData(fetch(service, name, DefaultPeriod)) == Success(data);
      assert CollectSeries(service, names, fetch) == Success(series + [MetricSeries(name, data)]);
      forall k | 0 <= k < |names|
        ensures CollectSeries(service, names, fetch).value[k] == MetricSeries(names[k], fetch(service, names[k], DefaultPeriod).value)
      {
        if k < |init| {
          assert (series + [MetricSeries(name, data)])[k] == series[k];
        }
      }
    }
  }

  /** The series one fetch contributes: its datapoints, when it returned some. */
  function SeriesOf(service: string, name: string, fetch: (string, string, int) -> Call<seq<DataPoint>>): (r: seq<MetricSeries>)
    ensures r != [] <==> fetch(service, name, DefaultPeriod).Returned? && fetch(service, name, DefaultPeriod).value != []
    ensures r != [] ==> r == [MetricSeries(name, fetch(service, name, DefaultPeriod).value)]
  {
    match fetch(service, name, DefaultPeriod)
    case Returned(data) => if data != [] then [MetricSeries(name, data)] else []
    case _ => []
  }

  /** The metrics of `names` that returned data, in name order, read from the front. */
  function KeptSeries(service: string, names: seq<string>, fetch: (string, string, int) -> Call<seq<DataPoint>>): (r: seq<MetricSeries>)
  {
    if names == [] then [] else SeriesOf(service, names[0], fetch) + KeptSeries(service, names[1..], fetch)
  }

  /** No fetch among `names` raised. */
  predicate NoneRaised(service: string, names: seq<string>, fetch: (string, string, int) -> Call<seq<DataPoint>>) {
    forall k :: 0 <= k < |names| ==> !fetch(service, names[k], DefaultPeriod).Raised?
  }

  lemma {:induction false} KeptSeriesAppend(service: string, a: seq<string>, b: seq<string>,
                                            fetch: (string, string, int) -> Call<seq<DataPoint>>)
    ensures KeptSeries(service, a + b, fetch) == KeptSeries(service, a, fetch) + KeptSeries(service, b, fetch)
    decreases |a|
  {
    if a != [] {
      assert (a + b)[1..] == a[1..] + b;
      KeptSeriesAppend(service, a[1..], b, fetch);
    } else {
      assert a + b == b;
    }
  }

  /** The collection fails exactly when some fetch raised; otherwise it keeps exactly the
      metrics that returned data, in name order. */
  lemma {:induction false} CollectSeriesExact(service: string, names: seq<string>,
                                              fetch: (string, string, int) -> Call<seq<DataPoint>>)
    ensures CollectSeries(service, names, fetch).Failure? <==> !NoneRaised(service, names, fetch)
    ensures NoneRaised(service, names, fetch) ==> CollectSeries(service, names, fetch) == Success(KeptSeries(service, names, fetch))
    decreases |names|
  {
    if names != [] {
      var init, name := names[..|names| - 1], names[|names| - 1];
      CollectSeriesExact(service, init, fetch);
      assert names == init + [name];
      KeptSeriesAppend(service, init, [name], fetch);
      assert KeptSeries(service, [name], fetch) == SeriesOf(service, name, fetch) by {
        assert [name][1..] == [];
      }
      if NoneRaised(service, names, fetch) {
        assert !fetch(service, names[|names| - 1], DefaultPeriod).Raised?;
        assert NoneRaised(service, init, fetch) by {
          forall k | 0 <= k < |init| ensures !fetch(service, init[k], DefaultPeriod).Raised? {
            assert init[k] == names[k];
          }
        }
        var series := KeptSeries(service, init, fetch);
        var data := MetricData(fetch(service, name, DefaultPeriod)).value;
        assert data != [] ==> SeriesOf(service, name, fetch) == [MetricSeries(name, data)];
        assert data == [] ==> SeriesOf(service, name, fetch) == [];
        assert series + [] == series;
        assert KeptSeries(service, names, fetch) == series + SeriesOf(service, name, fetch);
        assert CollectSeries(service, names, fetch) ==
               (if data != [] then Success(series + [MetricSeries(name, data)]) else Success(series));
      }
      assert NoneRaised(service, names, fetch) <==>
             NoneRaised(service, init, fetch) && !fetch(service, name, DefaultPeriod).Raised? by {
        if NoneRaised(service, init, fetch) && !fetch(service, name, DefaultPeriod).Raised? {
          forall k | 0 <= k < |names| ensures !fetch(service, names[k], DefaultPeriod).Raised? {
            if k < |init| {
              assert names[k] == init[k];
            }
          }
        }
        if NoneRaised(service, names, fetch) {
          forall k | 0 <= k < |init| ensures !fetch(service, init[k], DefaultPeriod).Raised? {
            assert init[k] == names[k];
          }
          assert names[|names| - 1] == name;
        }
      }
    }
  }

  /** A metric is kept with its datapoints exactly when one of the names fetched them. */
  lemma {:induction false} KeptSeriesMembers(service: string, names: seq<string>,
                                             fetch: (string, string, int) -> Call<seq<DataPoint>>, m: MetricSeries)
    ensures m in KeptSeries(service, names, fetch) <==>
              exists k :: 0 <= k < |names| && names[k] == m.name && fetch(service, names[k], DefaultPeriod) == Returned(m.data) && m.data != []
    decreases |names|
  {
    if names != [] {
      KeptSeriesMembers(service, names[1..], fetch, m);
      if m in KeptSeries(service, names[1..], fetch) {
        var k :| 0 <= k < |names[1..]| && names[1..][k] == m.name
                 && fetch(service, names[1..][k], DefaultPeriod) == Returned(m.data) && m.data != [];
        assert names[k + 1] == names[1..][k];
      }
      if exists k :: 0 <= k < |names| && names[k] == m.name && fetch(service, names[k], DefaultPeriod) == Returned(m.data) && m.data != [] {
        var k :| 0 <= k < |names| && names[k] == m.name && fetch(service, names[k], DefaultPeriod) == Returned(m.data) && m.data != [];
        if k > 0 {
          assert names[1..][k - 1] == names[k];
        }
      }
    }
  }

  /** `_get_service_metrics`: nothing for a service outside the catalog; otherwise the
      key metrics that returned data, in catalog order, or nothing if a fetch raised. */
  function ServiceMetrics(service: string, fetch: (string, string, int) -> Call<seq<DataPoint>>): (r: seq<MetricSeries>)
    ensures service !in KeyMetrics ==> r == []
    ensures forall k :: 0 <= k < |r| ==> r[k].data != [] && service in KeyMetrics && r[k].name in KeyMetrics[service]
  {
    if service !in KeyMetrics then []
    else
      match CollectSeries(service, KeyMetrics[service], fetch)
      case Success(series) => series
      case Failure(_) => []
  }

  /** For a catalogued service whose fetches all complete, the metrics are exactly those
      of the catalog that returned data, in catalog order; a raised fetch gives none. */
  lemma ServiceMetricsExact(service: string, fetch: (string, string, int) -> Call<seq<DataPoint>>)
    requires service in KeyMetrics
    ensures NoneRaised(service, KeyMetrics[service], fetch) ==> ServiceMetrics(service, fetch) == KeptSeries(service, KeyMetrics[service], fetch)
    ensures !NoneRaised(service, KeyMetrics[service], fetch) ==> ServiceMetrics(service, fetch) == []
  {
    CollectSeriesExact(service, KeyMetrics[service], fetch);
  }

  /** `_get_service_metrics`, as the loop the source runs. */
  method GetServiceMetrics(service: string, fetch: (string, string, int) -> Call<seq<DataPoint>>)
    returns (metrics: seq<MetricSeries>)
    ensures metrics == ServiceMetrics(service, fetch)
  {
    if service !in KeyMetrics {
      return [];
    }
    var names := KeyMetrics[service];
    metrics := [];
    for i := 0 to |names|
      invariant CollectSeries(service, names[..i], fetch) == Success(metrics)
    {
      assert names[..i + 1][..i] == names[..i];
      var data := MetricData(fetch(service, names[i], DefaultPeriod));
      if data.Failure? {
        CollectSeriesFailurePersists(service, names, fetch, i + 1);
        return [];
      }
      if data.value != [] {
        metrics := metrics + [MetricSeries(names[i], data.value)];
      }
    }
    assert names[..|names|] == names;
  }

  /** One entry of `get_service_insights`. */
  datatype ServiceInsight = ServiceInsight(service: string, metrics: seq<MetricSeries>, analysis: Dict)

  /** `get_service_insights`: one insight carrying the service's metrics and the AI
      analysis of them, or nothing when the AI call raised. */
  function ServiceInsights(service: string, fetch: (string, string, int) -> Call<seq<DataPoint>>,
                           evaluate: (string, seq<MetricSeries>) -> Call<Dict>): (r: seq<ServiceInsight>)
    ensures |r| <= 1
    ensures r == [] <==> !evaluate(service, ServiceMetrics(service, fetch)).Returned?
    ensures r != [] ==> r[0].service == service && r[0].metrics == ServiceMetrics(service, fetch)
    ensures r != [] ==> r[0].analysis == evaluate(service, ServiceMetrics(service, fetch)).value
  {
    var metrics := ServiceMetrics(service, fetch);
    match evaluate(service, metrics)
    case Returned(analysis) => [ServiceInsight(service, metrics, analysis)]
    case _ => []
  }
}
