/**
 * The bot's simulated portfolio: a mapping from a trading-pair symbol to the
 * ordered list of purchase lots bought under it. The `/compra` command
 * appends a lot, the `/venta` command removes every lot of a given amount.
 */
module Portfolio {

  /** One simulated purchase: the amount spent (`monto`) and the spot price paid (`precio`). */
  datatype Lot = Lot(monto: real, precio: real)

  type Holdings = map<string, seq<Lot>>

  /** The store's invariant: no symbol is kept with an empty list of lots. */
  predicate NoEmptyLists(h: Holdings)
  {
    forall s :: s in h ==> h[s] != []
  }

  /** The lots of `lots` whose amount differs from `amount`, in their original order. */
  function Without(lots: seq<Lot>, amount: real): (r: seq<Lot>)
    ensures |r| <= |lots|
    ensures forall i :: 0 <= i < |r| ==> r[i].monto != amount
  {
    if lots == [] then []
    else if lots[0].monto != amount then [lots[0]] + Without(lots[1..], amount)
    else Without(lots[1..], amount)
  }

  /** The lots held under `symbol`, or none when the symbol is not a key. */
  function LotsOf(h: Holdings, symbol: string): seq<Lot>
  {
    if symbol in h then h[symbol] else []
  }

  /** The portfolio after buying `lot` of `symbol`. */
  function Bought(h: Holdings, symbol: string, lot: Lot): (r: Holdings)
    ensures r.Keys == h.Keys + {symbol}
    ensures |r[symbol]| == |LotsOf(h, symbol)| + 1
    ensures r[symbol][..|LotsOf(h, symbol)|] == LotsOf(h, symbol)
    ensures r[symbol][|LotsOf(h, symbol)|] == lot
    ensures forall s :: s in h && s != symbol ==> r[s] == h[s]
  {
    h[symbol := LotsOf(h, symbol) + [lot]]
  }

  /** The portfolio after selling `amount` of `symbol`. */
  function Sold(h: Holdings, symbol: string, amount: real): (r: Holdings)
    ensures symbol !in h ==> r == h
    ensures r.Keys <= h.Keys
    ensures forall s :: s in h && s != symbol ==> s in r && r[s] == h[s]
    ensures symbol in h ==>
      (symbol in r <==> Without(h[symbol], amount) != []) &&
      (symbol in r ==> r[symbol] == Without(h[symbol], amount))
  {
    if symbol !in h then h
    else if Without(h[symbol], amount) == [] then h - {symbol}
    else h[symbol := Without(h[symbol], amount)]
  }

  /** A lot is kept exactly when it was there and its amount is not the one sold. */
  lemma {:induction false} WithoutMembership(lots: seq<Lot>, amount: real, l: Lot)
    ensures l in Without(lots, amount) <==> l in lots && l.monto != amount
  {
    if lots != [] {
      WithoutMembership(lots[1..], amount, l);
      assert lots == [lots[0]] + lots[1..];
    }
  }

  /** Filtering distributes over concatenation, so the relative order of the kept lots is unchanged. */
  lemma {:induction false} WithoutConcat(xs: seq<Lot>, ys: seq<Lot>, amount: real)
    ensures Without(xs + ys, amount) == Without(xs, amount) + Without(ys, amount)
  {
    if xs == [] {
      assert xs + ys == ys;
    } else {
      assert (xs + ys)[1..] == xs[1..] + ys;
      WithoutConcat(xs[1..], ys, amount);
    }
  }

  /** Nothing is removed from a list that holds no lot of the given amount. */
  lemma {:induction false} WithoutNoMatch(lots: seq<Lot>, amount: real)
    requires forall i :: 0 <= i < |lots| ==> lots[i].monto != amount
    ensures Without(lots, amount) == lots
  {
    if lots != [] {
      WithoutNoMatch(lots[1..], amount);
    }
  }

  /** Removing the same amount twice removes nothing more. */
  lemma WithoutIdempotent(lots: seq<Lot>, amount: real)
    ensures Without(Without(lots, amount), amount) == Without(lots, amount)
  {
    WithoutNoMatch(Without(lots, amount), amount);
  }

  /** Buying leaves no symbol with an empty list. */
  lemma BoughtKeepsNoEmptyLists(h: Holdings, symbol: string, lot: Lot)
    requires NoEmptyLists(h)
    ensures NoEmptyLists(Bought(h, symbol, lot))
  {
  }

  /** Selling leaves no symbol with an empty list. */
  lemma SoldKeepsNoEmptyLists(h: Holdings, symbol: string, amount: real)
    requires NoEmptyLists(h)
    ensures NoEmptyLists(Sold(h, symbol, amount))
  {
  }

  /** Repeating the same sell changes nothing further. */
  lemma SoldIdempotent(h: Holdings, symbol: string, amount: real)
    ensures Sold(Sold(h, symbol, amount), symbol, amount) == Sold(h, symbol, amount)
  {
    if symbol in h && Without(h[symbol], amount) != [] {
      WithoutIdempotent(h[symbol], amount);
    }
  }

  /**
   * Buying 100 of BTCUSDT at 50000 into an empty portfolio, then selling 100:
   * the key is created, then deleted, and a second sell finds nothing.
   */
  lemma BuyThenSellScenario()
    ensures Bought(map[], "BTCUSDT", Lot(100.0, 50000.0)) == map["BTCUSDT" := [Lot(100.0, 50000.0)]]
    ensures Sold(map["BTCUSDT" := [Lot(100.0, 50000.0)]], "BTCUSDT", 100.0) == map[]
    ensures "BTCUSDT" !in Sold(map["BTCUSDT" := [Lot(100.0, 50000.0)]], "BTCUSDT", 100.0)
  {
    var h := map["BTCUSDT" := [Lot(100.0, 50000.0)]];
    assert Without(h["BTCUSDT"], 100.0) == [];
  }

  /**
   * The in-memory portfolio of the bot. `holdings` is the module-level
   * dictionary the command handlers update in place.
   */
  class PortfolioStore {
    var holdings: Holdings

    ghost predicate Valid()
      reads this
    {
      NoEmptyLists(holdings)
    }

    /** The portfolio at start-up when no saved file exists. */
    constructor Empty()
      ensures Valid() && holdings == map[]
    {
      holdings := map[];
    }

    /** The portfolio at start-up, holding what was read back from the saved file. */
    constructor Loaded(saved: Holdings)
      ensures holdings == saved
      ensures NoEmptyLists(saved) ==> Valid()
    {
      holdings := saved;
    }

    /** `/compra`: append one lot under `symbol`, creating the key when it is missing. */
    method AddLot(symbol: string, monto: real, precio: real)
      modifies this
      ensures holdings == Bought(old(holdings), symbol, Lot(monto, precio))
      ensures holdings[symbol] == LotsOf(old(holdings), symbol) + [Lot(monto, precio)]
      ensures forall s :: s in old(holdings) && s != symbol ==> s in holdings && holdings[s] == old(holdings)[s]
      ensures old(Valid()) ==> Valid()
    {
      if symbol !in holdings {
        holdings := holdings[symbol := []];
      }
      holdings := holdings[symbol := holdings[symbol] + [Lot(monto, precio)]];
    }

    /**
     * `/venta`: drop every lot of `symbol` whose amount equals `monto`,
     * deleting the key when none is left. `found` is false, and nothing
     * changes, when the symbol is not held.
     */
    method RemoveLots(symbol: string, monto: real) returns (found: bool)
      modifies this
      ensures found <==> symbol in old(holdings)
      ensures !found ==> holdings == old(holdings)
      ensures holdings == Sold(old(holdings), symbol, monto)
      ensures found && Without(old(holdings)[symbol], monto) != [] ==>
        holdings == old(holdings)[symbol := Without(old(holdings)[symbol], monto)]
      ensures found && Without(old(holdings)[symbol], monto) == [] ==>
        holdings == old(holdings) - {symbol}
      ensures old(Valid()) ==> Valid()
    {
      if symbol in holdings {
        holdings := holdings[symbol := Without(holdings[symbol], monto)];
        if holdings[symbol] == [] {
          holdings := holdings - {symbol};
        }
        found := true;
      } else {
        found := false;
      }
    }
  }

  /**
   * `/compra 100 BTCUSDT` at 50000 on an empty portfolio, then `/venta BTCUSDT 100`
   * twice: the first sell removes the lot and the key, the second finds no key.
   */
  method StoreScenario() returns (first: bool, second: bool)
    ensures first && !second
  {
    var store := new PortfolioStore.Empty();
    store.AddLot("BTCUSDT", 100.0, 50000.0);
    assert store.holdings == map["BTCUSDT" := [Lot(100.0, 50000.0)]];
    first := store.RemoveLots("BTCUSDT", 100.0);
    assert Without([Lot(100.0, 50000.0)], 100.0) == [];
    assert store.holdings == map[];
    second := store.RemoveLots("BTCUSDT", 100.0);
  }
}
