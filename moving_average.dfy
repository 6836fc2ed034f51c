/** The moving-average calculator of the analyzer. */
module MovingAverages {
  import opened StockErrors

  /** The sum of a list of prices, accumulated from the first entry to the last. */
  function Sum(s: seq<real>): real
  {
    if s == [] then 0.0 else Sum(s[..|s| - 1]) + s[|s| - 1]
  }

  /** The entries the calculator averages: the last `period` ones in list order. */
  function Window(prices: seq<real>, period: nat): (w: seq<real>)
    requires period <= |prices|
    ensures |w| == period
    ensures forall k :: 0 <= k < period ==> w[k] == prices[|prices| - period + k]
  {
    prices[|prices| - period..]
  }

  /**
   * The closed form of the calculator: an error when the list is shorter than
   * the period, otherwise the sum of the window divided by the period.
   */
  function MovingAverage(prices: seq<real>, period: int): Result<real>
    requires period >= 1
  {
    if |prices| < period then Err(NotEnoughDataPoints)
    else Ok(Sum(Window(prices, period)) / period as real)
  }

  /** The calculator as the analyzer runs it: one accumulator over an index loop. */
  method CalculateMovingAverage(prices: seq<real>, period: int) returns (r: Result<real>)
    requires period >= 1
    ensures r.Err? <==> |prices| < period
    ensures r.Err? ==> r.error == NotEnoughDataPoints
    ensures r == MovingAverage(prices, period)
  {
    if |prices| < period {
      return Err(NotEnoughDataPoints);
    }
    var start := |prices| - period;
    var sum := 0.0;
    for i := start to |prices|
      invariant sum == Sum(prices[start..i])
    {
      assert prices[start..i + 1][..i - start] == prices[start..i];
      sum := sum + prices[i];
    }
    assert prices[start..|prices|] == Window(prices, period);
    return Ok(sum / period as real);
  }

  /** Each entry of a list inside [lo, hi] puts its sum inside [n * lo, n * hi]. */
  lemma {:induction false} SumBounds(s: seq<real>, lo: real, hi: real)
    requires forall k :: 0 <= k < |s| ==> lo <= s[k] <= hi
    ensures |s| as real * lo <= Sum(s) <= |s| as real * hi
  {
    if s != [] {
      SumBounds(s[..|s| - 1], lo, hi);
      assert |s| as real * lo == (|s| - 1) as real * lo + lo;
      assert |s| as real * hi == (|s| - 1) as real * hi + hi;
    }
  }

  /** An average of prices that all lie in [lo, hi] lies in [lo, hi] too. */
  lemma AverageWithinBounds(prices: seq<real>, period: int, lo: real, hi: real)
    requires 1 <= period <= |prices|
    requires forall i :: |prices| - period <= i < |prices| ==> lo <= prices[i] <= hi
    ensures MovingAverage(prices, period).Ok?
    ensures lo <= MovingAverage(prices, period).value <= hi
  {
    var w := Window(prices, period);
    SumBounds(w, lo, hi);
    var p := period as real;
    var avg := Sum(w) / p;
    assert Sum(w) == avg * p;
    assert lo * p <= avg * p <= hi * p;
  }

  /** A window of equal prices averages to that price. */
  lemma ConstantWindow(prices: seq<real>, period: int, c: real)
    requires 1 <= period <= |prices|
    requires forall i :: |prices| - period <= i < |prices| ==> prices[i] == c
    ensures MovingAverage(prices, period) == Ok(c)
  {
    AverageWithinBounds(prices, period, c, c);
  }

  /** Two lists of the same length that agree on the window have the same average. */
  lemma OnlyWindowMatters(p: seq<real>, q: seq<real>, period: int)
    requires period >= 1 && |p| == |q|
    requires forall i :: 0 <= i < |p| && |p| - period <= i ==> p[i] == q[i]
    ensures MovingAverage(p, period) == MovingAverage(q, period)
  {
    if period <= |p| {
      assert Window(p, period) == Window(q, period);
    }
  }

  /** Overwriting an entry in front of the window leaves the average unchanged. */
  lemma EarlierEntryIrrelevant(prices: seq<real>, period: int, j: int, x: real)
    requires period >= 1 && 0 <= j < |prices| - period
    ensures MovingAverage(prices[j := x], period) == MovingAverage(prices, period)
  {
    OnlyWindowMatters(prices[j := x], prices, period);
  }

  /**
   * Entries put in front of a list never reach the window. The provider's
   * series lists the newest day first, so the newest days are the ones that
   * are ignored and the window holds the oldest `period` days of the series.
   */
  lemma NewerEntriesIgnored(newer: seq<real>, prices: seq<real>, period: int)
    requires 1 <= period <= |prices|
    ensures MovingAverage(newer + prices, period) == MovingAverage(prices, period)
  {
    assert Window(newer + prices, period) == Window(prices, period);
  }

  /** The list [1, 2, 3, 4, 5] with period 3 averages its last three entries. */
  lemma LastThreeOfFive()
    ensures MovingAverage([1.0, 2.0, 3.0, 4.0, 5.0], 3) == Ok(4.0)
  {
    var prices := [1.0, 2.0, 3.0, 4.0, 5.0];
    assert Window(prices, 3) == [3.0, 4.0, 5.0];
    assert [3.0, 4.0, 5.0][..2] == [3.0, 4.0];
    assert [3.0, 4.0][..1] == [3.0];
    assert [3.0][..0] == [];
    assert Sum([3.0, 4.0, 5.0]) == 12.0;
  }
}
