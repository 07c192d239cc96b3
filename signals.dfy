/**
 * The pure arithmetic of the bot: the trailing mean of daily closes, the
 * BUY and SELL comparisons, and the profit percentage shown by `/cartera`.
 * Prices and amounts are exact reals.
 */
module Signals {
  import opened Wrappers
  import opened Portfolio

  /** A BUY fires below this fraction of the trailing mean. */
  const BuyRatio: real := 0.85
  /** A SELL fires from this multiple of a lot's purchase price upwards. */
  const SellRatio: real := 1.25

  /** Sum of the closes, as `sum(closes)` adds them. */
  function Sum(s: seq<real>): real
  {
    if s == [] then 0.0 else s[0] + Sum(s[1..])
  }

  function Min(s: seq<real>): (m: real)
    requires s != []
    ensures m in s
    ensures forall i :: 0 <= i < |s| ==> m <= s[i]
  {
    if |s| == 1 then s[0]
    else if s[0] <= Min(s[1..]) then s[0] else Min(s[1..])
  }

  function Max(s: seq<real>): (m: real)
    requires s != []
    ensures m in s
    ensures forall i :: 0 <= i < |s| ==> s[i] <= m
  {
    if |s| == 1 then s[0]
    else if s[0] >= Max(s[1..]) then s[0] else Max(s[1..])
  }

  /**
   * Arithmetic mean of the closes. `None` stands for the division by zero
   * raised when the feed returned no closes.
   */
  function Mean(closes: seq<real>): (r: Option<real>)
    ensures r.Some? <==> closes != []
    ensures r.Some? ==> r.value * (|closes| as real) == Sum(closes)
  {
    if closes == [] then None else Some(Sum(closes) / (|closes| as real))
  }

  /** Every close at most `hi` and at least `lo` bounds the sum by `n * lo` and `n * hi`. */
  lemma {:induction false} SumBounds(s: seq<real>, lo: real, hi: real)
    requires forall i :: 0 <= i < |s| ==> lo <= s[i] <= hi
    ensures (|s| as real) * lo <= Sum(s) <= (|s| as real) * hi
  {
    if s != [] {
      SumBounds(s[1..], lo, hi);
    }
  }

  /** Bounds that hold for every close hold for their mean. */
  lemma MeanWithinBounds(closes: seq<real>, lo: real, hi: real)
    requires closes != []
    requires forall i :: 0 <= i < |closes| ==> lo <= closes[i] <= hi
    ensures lo <= Mean(closes).value <= hi
  {
    SumBounds(closes, lo, hi);
    QuotientBounds(Sum(closes), |closes| as real, Mean(closes).value, lo, hi);
  }

  /** The mean lies between the smallest and the largest close. */
  lemma MeanBetweenMinAndMax(closes: seq<real>)
    requires closes != []
    ensures Min(closes) <= Mean(closes).value <= Max(closes)
  {
    MeanWithinBounds(closes, Min(closes), Max(closes));
  }

  /** A quotient of a sum bounded by `n * lo` and `n * hi` lies between `lo` and `hi`. */
  lemma QuotientBounds(total: real, n: real, q: real, lo: real, hi: real)
    requires n > 0.0 && q * n == total
    requires n * lo <= total <= n * hi
    ensures lo <= q <= hi
  {
    assert (q - lo) * n == total - n * lo;
    assert (hi - q) * n == n * hi - total;
  }

  /** The BUY comparison: strictly below 85% of the mean. */
  predicate IsBuy(price: real, avg: real)
    ensures avg > 0.0 ==> (IsBuy(price, avg) <==> (avg - price) / avg > 0.15)
    ensures avg >= 0.0 && IsBuy(price, avg) ==> price < avg
  {
    price < avg * BuyRatio
  }

  /** The SELL comparison for one lot: at least 125% of its purchase price. */
  predicate IsSell(price: real, lot: Lot)
    ensures lot.precio > 0.0 ==> (IsSell(price, lot) <==> (price - lot.precio) / lot.precio >= 0.25)
    ensures lot.precio >= 0.0 && IsSell(price, lot) ==> price >= lot.precio
  {
    price >= lot.precio * SellRatio
  }

  /** The threshold is strict: exactly 85% gives no BUY, anything below it does. */
  lemma BuyThresholdIsStrict(avg: real, eps: real)
    requires eps > 0.0
    ensures !IsBuy(avg * 0.85, avg)
    ensures IsBuy(avg * 0.85 - eps, avg)
  {
  }

  /** The threshold is inclusive: exactly +25% gives a SELL, anything below it does not. */
  lemma SellThresholdIsInclusive(lot: Lot, eps: real)
    requires eps > 0.0
    ensures IsSell(lot.precio * 1.25, lot)
    ensures !IsSell(lot.precio * 1.25 - eps, lot)
  {
  }

  datatype Signal = Buy | Sell(precio: real)

  /** One SELL notice per qualifying lot, in lot order. */
  function SellSignals(price: real, lots: seq<Lot>): (r: seq<Signal>)
    ensures |r| <= |lots|
    ensures forall i :: 0 <= i < |r| ==> r[i].Sell?
  {
    if lots == [] then []
    else (if IsSell(price, lots[0]) then [Sell(lots[0].precio)] else []) + SellSignals(price, lots[1..])
  }

  /** Appending a lot appends its notice, if it qualifies, at the end: notices follow lot order. */
  lemma {:induction false} SellSignalsAppend(price: real, lots: seq<Lot>, lot: Lot)
    ensures SellSignals(price, lots + [lot]) ==
      SellSignals(price, lots) + (if IsSell(price, lot) then [Sell(lot.precio)] else [])
  {
    if lots == [] {
      assert lots + [lot] == [lot];
    } else {
      assert (lots + [lot])[1..] == lots[1..] + [lot];
      SellSignalsAppend(price, lots[1..], lot);
    }
  }

  /** A SELL notice for a purchase price appears exactly when some lot at that price qualifies. */
  lemma {:induction false} SellSignalsExact(price: real, lots: seq<Lot>, p: real)
    ensures Sell(p) in SellSignals(price, lots) <==>
      exists i :: 0 <= i < |lots| && lots[i].precio == p && IsSell(price, lots[i])
  {
    if lots != [] {
      SellSignalsExact(price, lots[1..], p);
      if Sell(p) in SellSignals(price, lots[1..]) {
        var i :| 0 <= i < |lots[1..]| && lots[1..][i].precio == p && IsSell(price, lots[1..][i]);
        assert lots[i + 1] == lots[1..][i];
      }
      if exists i :: 0 <= i < |lots| && lots[i].precio == p && IsSell(price, lots[i]) {
        var i :| 0 <= i < |lots| && lots[i].precio == p && IsSell(price, lots[i]);
        if i > 0 {
          assert lots[1..][i - 1] == lots[i];
        }
      }
    }
  }

  /** Lots that do not qualify produce no notice at all. */
  lemma {:induction false} SellSignalsNone(price: real, lots: seq<Lot>)
    ensures SellSignals(price, lots) == [] <==> forall i :: 0 <= i < |lots| ==> !IsSell(price, lots[i])
  {
    if lots != [] {
      SellSignalsNone(price, lots[1..]);
      assert forall i :: 1 <= i < |lots| ==> lots[i] == lots[1..][i - 1];
    }
  }

  /**
   * The notices for one symbol: BUY when the price is below 85% of the mean;
   * otherwise, for a held symbol, one SELL per qualifying lot.
   */
  function SignalsFor(symbol: string, price: real, avg: real, held: Holdings): (r: seq<Signal>)
    ensures IsBuy(price, avg) ==> r == [Buy]
    ensures !IsBuy(price, avg) ==> Buy !in r
    ensures symbol !in held ==> r == [] || r == [Buy]
    ensures symbol in held ==> |r| <= if |held[symbol]| == 0 then 1 else |held[symbol]|
  {
    if IsBuy(price, avg) then [Buy]
    else if symbol in held then SellSignals(price, held[symbol])
    else []
  }

  /** A BUY notice is present exactly when the BUY comparison holds, and it is then the only notice. */
  lemma SignalsBuy(symbol: string, price: real, avg: real, held: Holdings)
    ensures Buy in SignalsFor(symbol, price, avg, held) <==> IsBuy(price, avg)
    ensures IsBuy(price, avg) ==> SignalsFor(symbol, price, avg, held) == [Buy]
  {
  }

  /**
   * A SELL notice appears only without a BUY, only for a held symbol, and
   * exactly for the purchase prices of qualifying lots.
   */
  lemma SignalsSell(symbol: string, price: real, avg: real, held: Holdings, p: real)
    ensures Sell(p) in SignalsFor(symbol, price, avg, held) <==>
      !IsBuy(price, avg) && symbol in held &&
      exists i :: 0 <= i < |held[symbol]| && held[symbol][i].precio == p && IsSell(price, held[symbol][i])
  {
    if !IsBuy(price, avg) && symbol in held {
      SellSignalsExact(price, held[symbol], p);
    }
  }

  /**
   * Profit of a lot at the current price, in percent. `None` stands for the
   * division by zero raised for a lot bought at price 0.
   */
  function ProfitPercent(current: real, precio: real): (r: Option<real>)
    ensures r.Some? <==> precio != 0.0
    ensures r.Some? ==> current == precio + precio * r.value / 100.0
  {
    if precio == 0.0 then None else Some((current - precio) / precio * 100.0)
  }

  /** For a positive purchase price: 0% at cost and 25% at the SELL threshold. */
  lemma ProfitAtCostAndThreshold(precio: real)
    requires precio > 0.0
    ensures ProfitPercent(precio, precio) == Some(0.0)
    ensures ProfitPercent(precio * 1.25, precio) == Some(25.0)
  {
    assert (precio * 1.25 - precio) / precio == 0.25;
  }

  /** For a positive purchase price, the rising-trend mark is shown exactly when the price is at or above cost. */
  lemma ProfitNonNegative(current: real, precio: real)
    requires precio > 0.0
    ensures ProfitPercent(current, precio).value >= 0.0 <==> current >= precio
  {
    var r := ProfitPercent(current, precio).value;
    assert current - precio == precio * r / 100.0;
  }

  /** For a positive purchase price, a lot draws a SELL notice exactly when its profit is at least 25%. */
  lemma ProfitMatchesSell(current: real, lot: Lot)
    requires lot.precio > 0.0
    ensures ProfitPercent(current, lot.precio).value >= 25.0 <==> IsSell(current, lot)
  {
    var r := ProfitPercent(current, lot.precio).value;
    assert current - lot.precio == lot.precio * r / 100.0;
  }

  /** The sample values: bought at 50000, the profit is 0% at 50000 and 25% at 62500. */
  lemma ProfitScenario()
    ensures ProfitPercent(50000.0, 50000.0) == Some(0.0)
    ensures ProfitPercent(62500.0, 50000.0) == Some(25.0)
  {
    ProfitAtCostAndThreshold(50000.0);
  }
}
