/**
 * The market report: for every tracked symbol, in order, the spot price and
 * the trailing mean from the price feed, followed by the BUY or SELL notices,
 * or an error entry for that symbol alone when the feed or the mean failed.
 */
module Analyzer {
  import opened Wrappers
  import opened Portfolio
  import opened Signals

  /** The symbols the bot watches, in report order. */
  const TrackedSymbols: seq<string> := ["BTCUSDT", "ETHUSDT", "BNBUSDT", "SOLUSDT", "ADAUSDT", "EURUSDT"]

  /** The message of the division by zero raised for an empty list of closes. */
  const ZeroDivisionReason: string := "division by zero"

  /**
   * What the exchange returned for one symbol: the spot price and the daily
   * closes (at most the last seven), or the message of the failed call.
   */
  datatype FeedResult = Quote(price: real, closes: seq<real>) | FeedError(reason: string)

  /** One block of the report. */
  datatype Entry =
    | Analysis(symbol: string, price: real, avg7: real, signals: seq<Signal>)
    | ErrorEntry(symbol: string, reason: string)

  /** The block for one symbol, given its feed result and the portfolio. */
  function AnalyzeSymbol(symbol: string, feed: FeedResult, held: Holdings): (e: Entry)
    ensures e.symbol == symbol
  {
    match feed
    case FeedError(reason) => ErrorEntry(symbol, reason)
    case Quote(price, closes) =>
      match Mean(closes)
      case None => ErrorEntry(symbol, ZeroDivisionReason)
      case Some(avg) => Analysis(symbol, price, avg, SignalsFor(symbol, price, avg, held))
  }

  /** The report as a list of blocks, one per symbol, built from the front. */
  function Report(symbols: seq<string>, feeds: seq<FeedResult>, held: Holdings): (r: seq<Entry>)
    requires |feeds| == |symbols|
    ensures |r| == |symbols|
  {
    if symbols == [] then []
    else [AnalyzeSymbol(symbols[0], feeds[0], held)] + Report(symbols[1..], feeds[1..], held)
  }

  /** An entry is an error exactly when the feed failed, carrying its reason, or returned no closes. */
  lemma AnalyzeSymbolError(symbol: string, feed: FeedResult, held: Holdings)
    ensures AnalyzeSymbol(symbol, feed, held).ErrorEntry? <==> feed.FeedError? || feed.closes == []
    ensures feed.FeedError? ==> AnalyzeSymbol(symbol, feed, held).reason == feed.reason
    ensures feed.Quote? && feed.closes == [] ==> AnalyzeSymbol(symbol, feed, held).reason == ZeroDivisionReason
  {
  }

  /**
   * A successful entry carries the feed's price and the mean of its closes,
   * which lies between the smallest and the largest close, and a BUY notice
   * exactly when the price is strictly below 85% of that mean.
   */
  lemma AnalyzeSymbolSuccess(symbol: string, feed: FeedResult, held: Holdings)
    requires feed.Quote? && feed.closes != []
    ensures var e := AnalyzeSymbol(symbol, feed, held);
      && e.Analysis?
      && e.price == feed.price
      && e.avg7 == Mean(feed.closes).value
      && e.signals == SignalsFor(symbol, feed.price, e.avg7, held)
      && (Buy in e.signals <==> feed.price < e.avg7 * 0.85)
  {
    var avg := Mean(feed.closes).value;
    SignalsBuy(symbol, feed.price, avg, held);
  }

  /** The report has one entry per symbol, in order, each depending only on its own symbol and feed. */
  lemma {:induction false} ReportAt(symbols: seq<string>, feeds: seq<FeedResult>, held: Holdings)
    requires |feeds| == |symbols|
    ensures forall i :: 0 <= i < |symbols| ==>
      Report(symbols, feeds, held)[i] == AnalyzeSymbol(symbols[i], feeds[i], held)
  {
    if symbols != [] {
      ReportAt(symbols[1..], feeds[1..], held);
    }
  }

  /** The report names the symbols in the order given. */
  lemma ReportSymbols(symbols: seq<string>, feeds: seq<FeedResult>, held: Holdings)
    requires |feeds| == |symbols|
    ensures |Report(symbols, feeds, held)| == |symbols|
    ensures forall i :: 0 <= i < |symbols| ==> Report(symbols, feeds, held)[i].symbol == symbols[i]
  {
    ReportAt(symbols, feeds, held);
  }

  /**
   * A failing feed for one symbol turns that symbol's entry into an error
   * entry carrying the failure and leaves every other entry unchanged.
   */
  lemma ReportIsolatesFailure(symbols: seq<string>, feeds: seq<FeedResult>, held: Holdings, k: nat, reason: string)
    requires |feeds| == |symbols| && k < |symbols|
    ensures var failed := Report(symbols, feeds[k := FeedError(reason)], held);
      && |failed| == |symbols|
      && failed[k] == ErrorEntry(symbols[k], reason)
      && forall i :: 0 <= i < |symbols| && i != k ==> failed[i] == Report(symbols, feeds, held)[i]
  {
    ReportAt(symbols, feeds, held);
    ReportAt(symbols, feeds[k := FeedError(reason)], held);
  }

  /**
   * Builds the report entry by entry, as the analysis loop does: for each
   * symbol, an error entry when its feed failed or its mean cannot be
   * taken; otherwise the quote, then a BUY notice, or else one SELL notice
   * per qualifying lot of a held symbol. It always returns.
   */
  method AnalyzeMarket(symbols: seq<string>, feeds: seq<FeedResult>, held: Holdings)
    returns (report: seq<Entry>)
    requires |feeds| == |symbols|
    ensures |report| == |symbols|
    ensures forall i :: 0 <= i < |symbols| ==> report[i] == AnalyzeSymbol(symbols[i], feeds[i], held)
    ensures report == Report(symbols, feeds, held)
  {
    report := [];
    var i := 0;
    while i < |symbols|
      invariant 0 <= i <= |symbols|
      invariant |report| == i
      invariant forall j :: 0 <= j < i ==> report[j] == AnalyzeSymbol(symbols[j], feeds[j], held)
    {
      var symbol := symbols[i];
      var entry: Entry;
      match feeds[i] {
        case FeedError(reason) =>
          entry := ErrorEntry(symbol, reason);
        case Quote(price, closes) =>
          if closes == [] {
            entry := ErrorEntry(symbol, ZeroDivisionReason);
          } else {
            var avg := Sum(closes) / (|closes| as real);
            var signals: seq<Signal> := [];
            if price < avg * 0.85 {
              signals := [Buy];
            } else if symbol in held {
              var lots := held[symbol];
              var j := 0;
              while j < |lots|
                invariant 0 <= j <= |lots|
                invariant signals == SellSignals(price, lots[..j])
              {
                SellSignalsAppend(price, lots[..j], lots[j]);
                assert lots[..j + 1] == lots[..j] + [lots[j]];
                if price >= lots[j].precio * 1.25 {
                  signals := signals + [Sell(lots[j].precio)];
                }
                j := j + 1;
              }
              assert lots[..|lots|] == lots;
            }
            entry := Analysis(symbol, price, avg, signals);
          }
      }
      report := report + [entry];
      i := i + 1;
    }
    ReportAt(symbols, feeds, held);
  }

  /** With a feed failing for every symbol, the report is one error entry per tracked symbol. */
  lemma AllFeedsDownScenario(held: Holdings, reason: string)
    ensures var feeds := seq(|TrackedSymbols|, _ => FeedError(reason));
      Report(TrackedSymbols, feeds, held) ==
        seq(|TrackedSymbols|, i requires 0 <= i < |TrackedSymbols| => ErrorEntry(TrackedSymbols[i], reason))
  {
    var feeds := seq(|TrackedSymbols|, _ => FeedError(reason));
    ReportAt(TrackedSymbols, feeds, held);
  }
}
