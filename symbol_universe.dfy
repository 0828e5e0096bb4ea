/** The universe of symbols to scan (redpinbar.py, get_futures_trading_pairs
    and the suffix filter that follows it): the exchange's instrument listing
    is reduced to the tickers whose status is TRADING, and those to the tickers
    ending in the quote asset USDT. Both steps keep the listing order. */
module SymbolUniverse {
  import opened Subsequences

  /** One instrument definition of the exchange listing. */
  datatype SymbolInfo = SymbolInfo(symbol: string, status: string)

  const TradingStatus: string := "TRADING"
  const QuoteAsset: string := "USDT"

  /** `s` ends with `suffix`, as a string suffix test. */
  predicate EndsWith(s: string, suffix: string)
  {
    |suffix| <= |s| && s[|s| - |suffix|..] == suffix
  }

  /** The tickers of the instruments whose status is exactly TRADING, in
      listing order. */
  function TradingSymbols(infos: seq<SymbolInfo>): (r: seq<string>)
    ensures |r| <= |infos|
    ensures forall s :: s in r <==>
      exists i :: 0 <= i < |infos| && infos[i].symbol == s && infos[i].status == TradingStatus
  {
    if infos == [] then []
    else
      var rest := TradingSymbols(infos[1..]);
      assert forall i :: 1 <= i < |infos| ==> infos[i] == infos[1..][i - 1];
      if infos[0].status == TradingStatus then [infos[0].symbol] + rest else rest
  }

  /** The symbols ending in USDT, in their original order, each kept ticker
      as many times as it occurs. */
  function UsdtSymbols(symbols: seq<string>): (r: seq<string>)
    ensures |r| <= |symbols|
    ensures forall s :: s in r <==> s in symbols && EndsWith(s, QuoteAsset)
    ensures IsSubsequence(r, symbols)
    ensures forall s :: multiset(r)[s] == if EndsWith(s, QuoteAsset) then multiset(symbols)[s] else 0
  {
    if symbols == [] then []
    else
      var rest := UsdtSymbols(symbols[1..]);
      assert forall s :: s in symbols <==> s == symbols[0] || s in symbols[1..];
      assert symbols == [symbols[0]] + symbols[1..];
      assert multiset(symbols) == multiset{symbols[0]} + multiset(symbols[1..]);
      if EndsWith(symbols[0], QuoteAsset) then [symbols[0]] + rest else rest
  }

  /** The TRADING filter keeps the listing order of the tickers it keeps. */
  lemma {:induction false} TradingSymbolsInListingOrder(infos: seq<SymbolInfo>)
    ensures IsSubsequence(TradingSymbols(infos), Tickers(infos))
  {
    if infos != [] {
      TradingSymbolsInListingOrder(infos[1..]);
      assert Tickers(infos)[1..] == Tickers(infos[1..]);
    }
  }

  /** The tickers of the listing, in listing order. */
  function Tickers(infos: seq<SymbolInfo>): (r: seq<string>)
    ensures |r| == |infos| && forall i :: 0 <= i < |infos| ==> r[i] == infos[i].symbol
  {
    seq(|infos|, i requires 0 <= i < |infos| => infos[i].symbol)
  }

  /** The universe that is scanned: TRADING tickers ending in USDT, in
      listing order. */
  function Universe(infos: seq<SymbolInfo>): (r: seq<string>)
    ensures forall s :: s in r <==>
      EndsWith(s, QuoteAsset) &&
      exists i :: 0 <= i < |infos| && infos[i].symbol == s && infos[i].status == TradingStatus
    ensures IsSubsequence(r, Tickers(infos))
  {
    var trading := TradingSymbols(infos);
    TradingSymbolsInListingOrder(infos);
    SubsequenceTransitive(UsdtSymbols(trading), trading, Tickers(infos));
    UsdtSymbols(trading)
  }
}
