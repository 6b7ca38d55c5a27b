/**
  K-line bars and the exponential moving average (EMA) shared by the
  backtest engine and the trend analyser. Prices are exact reals: the
  double-precision arithmetic of the original is not modelled.
 */
module Indicators {

  /** A result that may be missing, for operations that fail on some inputs. */
  datatype Option<+T> = None | Some(value: T)

  /** One candlestick of the exchange's K-line stream. */
  datatype Kline = Kline(openTime: int, open: real, high: real, low: real, close: real)

  /** The closing prices of the bars, in order. */
  function Closes(data: seq<Kline>): (closes: seq<real>)
    ensures |closes| == |data|
    ensures forall i :: 0 <= i < |data| ==> closes[i] == data[i].close
  {
    seq(|data|, i requires 0 <= i < |data| => data[i].close)
  }

  /** The smoothing factor k = 2 / (period + 1) of an EMA of the given period. */
  function Smoothing(period: nat): (k: real)
    ensures 0.0 < k <= 2.0
    ensures period >= 1 ==> k <= 1.0
    ensures k * (period as real + 1.0) == 2.0
  {
    2.0 / (period as real + 1.0)
  }

  /** One EMA step: the new price weighted by k, the previous average by 1 - k. */
  function EmaStep(previous: real, price: real, k: real): real
  {
    price * k + previous * (1.0 - k)
  }

  /**
    `emas` is the EMA series of `prices` with factor `k`: one value per price,
    seeded with the first price, each later value one EmaStep from the one before.
   */
  ghost predicate IsEmaSeries(prices: seq<real>, k: real, emas: seq<real>)
  {
    && |emas| == |prices|
    && (|prices| > 0 ==> emas[0] == prices[0])
    && forall i :: 0 < i < |prices| ==> emas[i] == EmaStep(emas[i - 1], prices[i], k)
  }

  /** The analyser's form of the update, (close - ema) * k + ema, is the same step. */
  lemma AnalyzerStepAgrees(ema: real, close: real, k: real)
    ensures (close - ema) * k + ema == EmaStep(ema, close, k)
  {
  }

  /** The EMA series of a price sequence is unique: the recurrence determines every value. */
  lemma {:induction false} EmaSeriesUnique(prices: seq<real>, k: real, a: seq<real>, b: seq<real>)
    requires IsEmaSeries(prices, k, a) && IsEmaSeries(prices, k, b)
    ensures a == b
  {
    forall i | 0 <= i < |prices|
      ensures a[i] == b[i]
    {
      EmaSeriesAgreeAt(prices, k, a, b, i);
    }
  }

  lemma {:induction false} EmaSeriesAgreeAt(prices: seq<real>, k: real, a: seq<real>, b: seq<real>, i: nat)
    requires IsEmaSeries(prices, k, a) && IsEmaSeries(prices, k, b)
    requires i < |prices|
    ensures a[i] == b[i]
  {
    if i > 0 {
      EmaSeriesAgreeAt(prices, k, a, b, i - 1);
    }
  }

  /** With 0 < k <= 1 a step is a convex combination, so it stays within any bounds of its inputs. */
  lemma ConvexStep(previous: real, price: real, k: real, lo: real, hi: real)
    requires 0.0 < k <= 1.0
    requires lo <= previous <= hi && lo <= price <= hi
    ensures lo <= EmaStep(previous, price, k) <= hi
  {
    var w := 1.0 - k;
    NonNegativeProduct(price - lo, k);
    NonNegativeProduct(previous - lo, w);
    NonNegativeProduct(hi - price, k);
    NonNegativeProduct(hi - previous, w);
    assert EmaStep(previous, price, k) - lo == (price - lo) * k + (previous - lo) * w;
    assert hi - EmaStep(previous, price, k) == (hi - price) * k + (hi - previous) * w;
  }

  lemma NonNegativeProduct(a: real, b: real)
    requires a >= 0.0 && b >= 0.0
    ensures a * b >= 0.0
  {
  }

  /** Every EMA value lies between the smallest and the largest price seen so far. */
  lemma {:induction false} EmaWithinPriceRange(prices: seq<real>, k: real, emas: seq<real>, lo: real, hi: real, i: nat)
    requires IsEmaSeries(prices, k, emas)
    requires 0.0 < k <= 1.0
    requires forall j :: 0 <= j < |prices| ==> lo <= prices[j] <= hi
    requires i < |prices|
    ensures lo <= emas[i] <= hi
  {
    if i > 0 {
      EmaWithinPriceRange(prices, k, emas, lo, hi, i - 1);
      ConvexStep(emas[i - 1], prices[i], k, lo, hi);
    }
  }

  /** With positive prices and 0 < k <= 1 every EMA value is positive. */
  lemma {:induction false} EmaPositive(prices: seq<real>, k: real, emas: seq<real>, i: nat)
    requires IsEmaSeries(prices, k, emas)
    requires 0.0 < k <= 1.0
    requires forall j :: 0 <= j < |prices| ==> prices[j] > 0.0
    requires i < |prices|
    ensures emas[i] > 0.0
  {
    if i > 0 {
      EmaPositive(prices, k, emas, i - 1);
      assert prices[i] * k > 0.0;
      assert emas[i - 1] * (1.0 - k) >= 0.0;
    }
  }

  /** On a constant price series the EMA is that constant, whatever the factor. */
  lemma {:induction false} EmaOfConstant(prices: seq<real>, k: real, emas: seq<real>, c: real, i: nat)
    requires IsEmaSeries(prices, k, emas)
    requires forall j :: 0 <= j < |prices| ==> prices[j] == c
    requires i < |prices|
    ensures emas[i] == c
  {
    if i > 0 {
      EmaOfConstant(prices, k, emas, c, i - 1);
      assert EmaStep(c, c, k) == c * (k + 1.0 - k);
    }
  }
}
