/** The statistics helpers: average, minimum and maximum of one numeric
    field over a list of data points, with `0` for an empty list. */
module Calculations {
  import opened Sensor

  /** `data.map((d) => d[key])`. */
  function Values(data: seq<DataPoint>, key: Field): (vs: seq<real>)
    ensures |vs| == |data|
    ensures forall i :: 0 <= i < |data| ==> vs[i] == Value(data[i], key)
  {
    seq(|data|, i requires 0 <= i < |data| => Value(data[i], key))
  }

  /** `data.reduce((sum, d) => sum + d[key], 0)`: a left fold from 0. */
  function Total(data: seq<DataPoint>, key: Field): (t: real)
    ensures data == [] ==> t == 0.0
    ensures |data| == 1 ==> t == Value(data[0], key)
  {
    if data == [] then 0.0 else Total(data[..|data| - 1], key) + Value(data[|data| - 1], key)
  }

  /** The order of the additions does not matter: the left fold also equals
      the first value plus the total of the rest. */
  lemma {:induction false} TotalFromFront(data: seq<DataPoint>, key: Field)
    requires data != []
    ensures Total(data, key) == Value(data[0], key) + Total(data[1..], key)
  {
    if |data| > 1 {
      var init := data[..|data| - 1];
      TotalFromFront(init, key);
      assert init[1..] == data[1..][..|data[1..]| - 1];
    }
  }

  /** `Math.min(...xs)` for a non-empty argument list, folded left to right. */
  function MinOf(xs: seq<real>): (m: real)
    requires |xs| > 0
    ensures exists i :: 0 <= i < |xs| && m == xs[i]
    ensures forall i :: 0 <= i < |xs| ==> m <= xs[i]
  {
    if |xs| == 1 then xs[0]
    else
      var m := MinOf(xs[..|xs| - 1]);
      if xs[|xs| - 1] < m then xs[|xs| - 1] else m
  }

  /** `Math.max(...xs)` for a non-empty argument list, folded left to right. */
  function MaxOf(xs: seq<real>): (m: real)
    requires |xs| > 0
    ensures exists i :: 0 <= i < |xs| && m == xs[i]
    ensures forall i :: 0 <= i < |xs| ==> xs[i] <= m
  {
    if |xs| == 1 then xs[0]
    else
      var m := MaxOf(xs[..|xs| - 1]);
      if xs[|xs| - 1] > m then xs[|xs| - 1] else m
  }

  /** `calculateAverage`: the arithmetic mean of the field, 0 on no data. */
  function CalculateAverage(data: seq<DataPoint>, key: Field): (r: real)
    ensures |data| == 0 ==> r == 0.0
    ensures |data| > 0 ==> r * (|data| as real) == Total(data, key)
  {
    if |data| == 0 then 0.0 else Total(data, key) / (|data| as real)
  }

  /** `calculateMin`: the smallest value of the field, 0 on no data. */
  function CalculateMin(data: seq<DataPoint>, key: Field): (r: real)
    ensures |data| == 0 ==> r == 0.0
    ensures |data| > 0 ==> exists i :: 0 <= i < |data| && r == Value(data[i], key)
    ensures forall i :: 0 <= i < |data| ==> r <= Value(data[i], key)
  {
    if |data| == 0 then 0.0 else MinOf(Values(data, key))
  }

  /** `calculateMax`: the largest value of the field, 0 on no data. */
  function CalculateMax(data: seq<DataPoint>, key: Field): (r: real)
    ensures |data| == 0 ==> r == 0.0
    ensures |data| > 0 ==> exists i :: 0 <= i < |data| && r == Value(data[i], key)
    ensures forall i :: 0 <= i < |data| ==> Value(data[i], key) <= r
  {
    if |data| == 0 then 0.0 else MaxOf(Values(data, key))
  }

  /** The total of `n` values lies between `n` times a lower and `n` times an
      upper bound of them. */
  lemma {:induction false} TotalBounds(data: seq<DataPoint>, key: Field, lo: real, hi: real)
    requires forall i :: 0 <= i < |data| ==> lo <= Value(data[i], key) <= hi
    ensures (|data| as real) * lo <= Total(data, key) <= (|data| as real) * hi
  {
    if data != [] {
      var init := data[..|data| - 1];
      assert forall i :: 0 <= i < |init| ==> init[i] == data[i];
      TotalBounds(init, key, lo, hi);
      assert (|data| as real) * lo == (|init| as real) * lo + lo;
      assert (|data| as real) * hi == (|init| as real) * hi + hi;
    }
  }

  /** Any common lower and upper bound of the values also bounds their mean. */
  lemma AverageWithinBounds(data: seq<DataPoint>, key: Field, lo: real, hi: real)
    requires |data| > 0
    requires forall i :: 0 <= i < |data| ==> lo <= Value(data[i], key) <= hi
    ensures lo <= CalculateAverage(data, key) <= hi
  {
    TotalBounds(data, key, lo, hi);
    MeanBetween(Total(data, key), |data| as real, CalculateAverage(data, key), lo, hi);
  }

  /** On a non-empty list the mean lies between the minimum and the maximum. */
  lemma AverageBetweenMinAndMax(data: seq<DataPoint>, key: Field)
    requires |data| > 0
    ensures CalculateMin(data, key) <= CalculateAverage(data, key) <= CalculateMax(data, key)
  {
    AverageWithinBounds(data, key, CalculateMin(data, key), CalculateMax(data, key));
  }

  /** A mean of `n` values whose total lies between `n * lo` and `n * hi`
      lies between `lo` and `hi`. */
  lemma MeanBetween(total: real, n: real, mean: real, lo: real, hi: real)
    requires n > 0.0 && mean * n == total && n * lo <= total <= n * hi
    ensures lo <= mean <= hi
  {
  }

  /** The reduce depends on nothing but the selected field of each point. */
  lemma {:induction false} TotalSelectedFieldOnly(a: seq<DataPoint>, b: seq<DataPoint>, key: Field)
    requires |a| == |b|
    requires forall i :: 0 <= i < |a| ==> Value(a[i], key) == Value(b[i], key)
    ensures Total(a, key) == Total(b, key)
  {
    if a != [] {
      var a', b' := a[..|a| - 1], b[..|b| - 1];
      assert forall i :: 0 <= i < |a'| ==> a'[i] == a[i] && b'[i] == b[i];
      TotalSelectedFieldOnly(a', b', key);
    }
  }

  /** Changing the other field or the timestamp of any point changes none of
      the three statistics for `key`. */
  lemma SelectedFieldOnly(a: seq<DataPoint>, b: seq<DataPoint>, key: Field)
    requires |a| == |b|
    requires forall i :: 0 <= i < |a| ==> Value(a[i], key) == Value(b[i], key)
    ensures CalculateAverage(a, key) == CalculateAverage(b, key)
    ensures CalculateMin(a, key) == CalculateMin(b, key)
    ensures CalculateMax(a, key) == CalculateMax(b, key)
  {
    TotalSelectedFieldOnly(a, b, key);
    assert Values(a, key) == Values(b, key);
  }

  /** Three literal readings: temperatures 20, 22, 18 and humidities 50, 55, 45. */
  lemma ThreeReadings(t1: string, t2: string, t3: string)
    ensures var data := [SensorData(20.0, 50.0, t1), SensorData(22.0, 55.0, t2), SensorData(18.0, 45.0, t3)];
      && CalculateAverage(data, Temperature) == 20.0
      && CalculateMin(data, Temperature) == 18.0
      && CalculateMax(data, Temperature) == 22.0
      && CalculateAverage(data, Humidity) == 50.0
  {
    var data := [SensorData(20.0, 50.0, t1), SensorData(22.0, 55.0, t2), SensorData(18.0, 45.0, t3)];
    assert data[..2][..1] == [data[0]] && data[..2] == [data[0], data[1]];
    assert [data[0]][..0] == [];
    assert Total([data[0]], Temperature) == 20.0 && Total([data[0]], Humidity) == 50.0;
    assert Total(data[..2], Temperature) == 42.0 && Total(data[..2], Humidity) == 105.0;
    assert Total(data, Temperature) == 60.0 && Total(data, Humidity) == 150.0;
    var ts := Values(data, Temperature);
    assert ts == [20.0, 22.0, 18.0];
    assert ts[..2] == [20.0, 22.0] && ts[..2][..1] == [20.0];
  }
}
