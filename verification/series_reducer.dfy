/** The four reductions over a numeric series: `calculate_total`,
    `calculate_average`, `calculate_minimum` and `calculate_maximum`.
    Values are exact reals. */
module SeriesReducer {
  import opened Wrappers

  /** `calculate_total`: start from 0 and add the values left to right. */
  function CalculateTotal(data: seq<real>): real
    decreases |data|
  {
    if |data| == 0 then 0.0 else CalculateTotal(data[..|data| - 1]) + data[|data| - 1]
  }

  /** The total of a concatenation is the sum of the totals. */
  lemma {:induction false} TotalAppend(a: seq<real>, b: seq<real>)
    ensures CalculateTotal(a + b) == CalculateTotal(a) + CalculateTotal(b)
    decreases |b|
  {
    if |b| > 0 {
      var b' := b[..|b| - 1];
      assert (a + b)[..|a + b| - 1] == a + b';
      TotalAppend(a, b');
    } else {
      assert a + b == a;
    }
  }

  /** `n` copies of `v`. */
  function Repeat(v: real, n: nat): (r: seq<real>)
    ensures |r| == n && forall i :: 0 <= i < n ==> r[i] == v
  {
    seq(n, _ => v)
  }

  /** `n` copies of `v` total `n * v`. */
  lemma {:induction false} TotalRepeat(v: real, n: nat)
    ensures CalculateTotal(Repeat(v, n)) == n as real * v
  {
    if n > 0 {
      assert Repeat(v, n)[..n - 1] == Repeat(v, n - 1);
      TotalRepeat(v, n - 1);
    }
  }

  /** Every value lies between `lo` and `hi`, so the total lies between
      `|data| * lo` and `|data| * hi`. */
  lemma {:induction false} TotalBounds(data: seq<real>, lo: real, hi: real)
    requires forall i :: 0 <= i < |data| ==> lo <= data[i] <= hi
    ensures |data| as real * lo <= CalculateTotal(data) <= |data| as real * hi
    decreases |data|
  {
    if |data| > 0 {
      var n := |data|;
      TotalBounds(data[..n - 1], lo, hi);
      assert (n - 1) as real * lo + lo == n as real * lo;
      assert (n - 1) as real * hi + hi == n as real * hi;
    }
  }

  /** `calculate_average`: 0 for an empty series, otherwise the total shared
      out over the count, i.e. the value which, counted `|data|` times,
      gives the total. */
  function CalculateAverage(data: seq<real>): (r: real)
    ensures |data| == 0 ==> r == 0.0
    ensures |data| > 0 ==> r * |data| as real == CalculateTotal(data)
  {
    if |data| == 0 then 0.0 else CalculateTotal(data) / |data| as real
  }

  /** A constant series of `n > 0` copies of `v` averages to `v`. */
  lemma AverageRepeat(v: real, n: nat)
    requires n > 0
    ensures CalculateAverage(Repeat(v, n)) == v
  {
    TotalRepeat(v, n);
  }

  /** `j` is the first position holding the least value of `data`. */
  predicate IsFirstMinimum(data: seq<real>, j: nat) {
    && j < |data|
    && (forall i :: 0 <= i < |data| ==> data[j] <= data[i])
    && (forall i :: 0 <= i < j ==> data[j] < data[i])
  }

  /** `j` is the first position holding the greatest value of `data`. */
  predicate IsFirstMaximum(data: seq<real>, j: nat) {
    && j < |data|
    && (forall i :: 0 <= i < |data| ==> data[i] <= data[j])
    && (forall i :: 0 <= i < j ==> data[i] < data[j])
  }

  /** The scan of `calculate_minimum` from position `i` on, `best` being the
      position of the value held so far; a later value replaces it only if it
      is strictly smaller. */
  function MinScan(data: seq<real>, i: nat, best: nat): (j: nat)
    requires best <= i <= |data| && best < |data|
    requires forall k :: 0 <= k < i ==> data[best] <= data[k]
    requires forall k :: 0 <= k < best ==> data[best] < data[k]
    ensures IsFirstMinimum(data, j)
    decreases |data| - i
  {
    if i == |data| then best
    else MinScan(data, i + 1, if data[i] < data[best] then i else best)
  }

  /** The scan of `calculate_maximum`: a later value replaces the one held
      only if it is strictly greater. */
  function MaxScan(data: seq<real>, i: nat, best: nat): (j: nat)
    requires best <= i <= |data| && best < |data|
    requires forall k :: 0 <= k < i ==> data[k] <= data[best]
    requires forall k :: 0 <= k < best ==> data[k] < data[best]
    ensures IsFirstMaximum(data, j)
    decreases |data| - i
  {
    if i == |data| then best
    else MaxScan(data, i + 1, if data[i] > data[best] then i else best)
  }

  /** `calculate_minimum`: `None` for an empty series; otherwise the scan,
      seeded with the first value, yields a value of the series that no value
      undercuts, taken from its first occurrence. */
  function CalculateMinimum(data: seq<real>): (r: Option<real>)
    ensures r.None? <==> |data| == 0
    ensures r.Some? ==> exists j: nat :: IsFirstMinimum(data, j) && r.value == data[j]
  {
    if |data| == 0 then None else
      var j := MinScan(data, 0, 0);
      Some(data[j])
  }

  /** `calculate_maximum`: `None` for an empty series; otherwise a value of
      the series that no value exceeds, taken from its first occurrence. */
  function CalculateMaximum(data: seq<real>): (r: Option<real>)
    ensures r.None? <==> |data| == 0
    ensures r.Some? ==> exists j: nat :: IsFirstMaximum(data, j) && r.value == data[j]
  {
    if |data| == 0 then None else
      var j := MaxScan(data, 0, 0);
      Some(data[j])
  }

  /** Minimum and maximum are members of the series and bound every value. */
  lemma MinMaxBound(data: seq<real>)
    requires |data| > 0
    ensures CalculateMinimum(data).value in data && CalculateMaximum(data).value in data
    ensures forall i :: 0 <= i < |data| ==>
              CalculateMinimum(data).value <= data[i] <= CalculateMaximum(data).value
  {
    assert CalculateMinimum(data).Some? && CalculateMaximum(data).Some?;
    var jmin: nat :| IsFirstMinimum(data, jmin) && CalculateMinimum(data).value == data[jmin];
    var jmax: nat :| IsFirstMaximum(data, jmax) && CalculateMaximum(data).value == data[jmax];
  }

  /** Multiplying by a positive number preserves order, so it can be cancelled. */
  lemma CancelPositive(x: real, y: real, n: real)
    requires n > 0.0 && n * x <= y * n
    ensures x <= y
  {
  }

  /** Bounds on every value of a non-empty series bound its average. */
  lemma AverageBetween(data: seq<real>, lo: real, hi: real)
    requires |data| > 0
    requires forall i :: 0 <= i < |data| ==> lo <= data[i] <= hi
    ensures lo <= CalculateAverage(data) <= hi
  {
    var n := |data| as real;
    var avg := CalculateAverage(data);
    TotalBounds(data, lo, hi);
    assert n * lo <= avg * n <= n * hi;
    CancelPositive(lo, avg, n);
    CancelPositive(avg, hi, n);
  }

  /** For a non-empty series, minimum <= average <= maximum. */
  lemma MinLeAverageLeMax(data: seq<real>)
    requires |data| > 0
    ensures CalculateMinimum(data).value <= CalculateAverage(data) <= CalculateMaximum(data).value
  {
    MinMaxBound(data);
    AverageBetween(data, CalculateMinimum(data).value, CalculateMaximum(data).value);
  }

  /** A constant series has that constant as its minimum and its maximum. */
  lemma MinMaxRepeat(v: real, n: nat)
    requires n > 0
    ensures CalculateMinimum(Repeat(v, n)) == Some(v)
    ensures CalculateMaximum(Repeat(v, n)) == Some(v)
  {
    MinMaxBound(Repeat(v, n));
  }
}
