/** The scan loop of redpinbar.py: every symbol of the universe is run through
    fetch, EMA21 annotation and the pattern check, one after the other; a
    symbol whose series satisfies the pattern is appended, with the open time
    of its last bar, to the list of qualified symbols; any failure while
    processing a symbol skips that symbol and the loop goes on.

    Fetching the candles and annotating them with EMA21 is network I/O and a
    library computation: it is the parameter `fetch`, which gives the
    annotated series of a symbol, or `None` when the request or the
    annotation fails. */
module ScanOrchestrator {
  import opened Wrappers
  import opened Subsequences
  import opened PatternDetector
  import opened SymbolUniverse

  /** A symbol that passed the screen, with the UTC open time of its
      qualifying bar. */
  datatype Qualification = Qualification(symbol: string, barTime: int)

  /** The terminal state of one symbol's processing. */
  datatype Outcome = Qualified(barTime: int) | NotQualified | Failed

  /** One pass of the loop body for a symbol whose fetch produced `fetched`.
      Taking the last index of an empty series raises, so an empty series
      fails like a failed fetch; a series of one bar is simply not qualified. */
  function Evaluate(fetched: Option<seq<Bar>>): (o: Outcome)
    ensures o.Failed? <==> fetched.None? || fetched.value == []
    ensures o.Qualified? <==> fetched.Some? && CheckConditions(fetched.value)
    ensures o.Qualified? ==> |fetched.value| >= 2 && o.barTime == fetched.value[|fetched.value| - 1].openTime
  {
    match fetched
    case None => Failed
    case Some(bars) =>
      if |bars| == 0 then Failed
      else if CheckConditions(bars) then Qualified(bars[|bars| - 1].openTime)
      else NotQualified
  }

  /** What the loop appends for one symbol: one entry if it qualifies,
      nothing otherwise. */
  function Recorded(symbol: string, fetch: string -> Option<seq<Bar>>): (r: seq<Qualification>)
    ensures |r| <= 1
    ensures r != [] <==> Evaluate(fetch(symbol)).Qualified?
    ensures r != [] ==> r[0].symbol == symbol && Evaluate(fetch(symbol)) == Qualified(r[0].barTime)
  {
    match Evaluate(fetch(symbol))
    case Qualified(t) => [Qualification(symbol, t)]
    case _ => []
  }

  /** The list of qualified symbols after scanning `symbols` in order. */
  function Scanned(symbols: seq<string>, fetch: string -> Option<seq<Bar>>): (r: seq<Qualification>)
    ensures |r| <= |symbols|
  {
    if symbols == [] then []
    else Recorded(symbols[0], fetch) + Scanned(symbols[1..], fetch)
  }

  /** The tickers of a list of qualifications, in order. */
  function SymbolsOf(qs: seq<Qualification>): (r: seq<string>)
    ensures |r| == |qs| && forall k :: 0 <= k < |qs| ==> r[k] == qs[k].symbol
  {
    seq(|qs|, k requires 0 <= k < |qs| => qs[k].symbol)
  }

  /** The qualifications of every symbol other than `b`. */
  function Without(qs: seq<Qualification>, b: string): (r: seq<Qualification>)
    ensures forall q :: q in r <==> q in qs && q.symbol != b
  {
    if qs == [] then []
    else if qs[0].symbol == b then Without(qs[1..], b)
    else [qs[0]] + Without(qs[1..], b)
  }

  /** The scan loop: processes the symbols in order, appending each qualifying
      symbol with the time of its qualifying bar and skipping the rest. */
  method Scan(symbols: seq<string>, fetch: string -> Option<seq<Bar>>) returns (qualified: seq<Qualification>)
    ensures qualified == Scanned(symbols, fetch)
  {
    qualified := [];
    for i := 0 to |symbols|
      invariant qualified + Scanned(symbols[i..], fetch) == Scanned(symbols, fetch)
    {
      var symbol := symbols[i];
      var outcome := Evaluate(fetch(symbol));
      ghost var before := qualified;
      if outcome.Qualified? {
        qualified := qualified + [Qualification(symbol, outcome.barTime)];
      }
      ScannedStep(symbols, i, fetch, before, qualified);
    }
    assert symbols[|symbols|..] == [];
  }

  /** Scanning from position `i` records the symbol at `i`, then scans the rest. */
  lemma ScannedStep(symbols: seq<string>, i: nat, fetch: string -> Option<seq<Bar>>,
                    before: seq<Qualification>, after: seq<Qualification>)
    requires i < |symbols|
    requires before + Scanned(symbols[i..], fetch) == Scanned(symbols, fetch)
    requires after == before + Recorded(symbols[i], fetch)
    ensures after + Scanned(symbols[i + 1..], fetch) == Scanned(symbols, fetch)
  {
    var recorded, rest := Recorded(symbols[i], fetch), Scanned(symbols[i + 1..], fetch);
    assert Scanned(symbols[i..], fetch) == recorded + rest by {
      assert symbols[i..][1..] == symbols[i + 1..];
    }
    Regroup(before, recorded, rest);
  }

  /** Associativity of concatenation, stated separately only to guide the
      solver in `ScannedStep`. */
  lemma Regroup<T>(xs: seq<T>, ys: seq<T>, zs: seq<T>)
    ensures (xs + ys) + zs == xs + (ys + zs)
  {
  }

  /** The whole run: filter the exchange listing to the TRADING tickers ending
      in USDT, then scan them. */
  method RunScreener(listing: seq<SymbolInfo>, fetch: string -> Option<seq<Bar>>) returns (qualified: seq<Qualification>)
    ensures qualified == Scanned(Universe(listing), fetch)
    ensures IsSubsequence(SymbolsOf(qualified), Tickers(listing))
    ensures |qualified| <= |listing|
    ensures forall q :: q in qualified ==> q.symbol in Tickers(listing)
    ensures forall q :: q in qualified ==>
      EndsWith(q.symbol, QuoteAsset) &&
      (exists i :: 0 <= i < |listing| && listing[i].symbol == q.symbol && listing[i].status == TradingStatus)
  {
    var symbols := TradingSymbols(listing);
    var usdtSymbols := UsdtSymbols(symbols);
    qualified := Scan(usdtSymbols, fetch);
    assert usdtSymbols == Universe(listing);
    ScannedInOrder(usdtSymbols, fetch);
    forall q | q in qualified
      ensures q.symbol in usdtSymbols
    {
      ScannedSound(usdtSymbols, fetch, q);
    }
    SubsequenceTransitive(SymbolsOf(qualified), usdtSymbols, Tickers(listing));
    SubsequenceLength(SymbolsOf(qualified), Tickers(listing));
    forall q | q in qualified
      ensures q.symbol in Tickers(listing)
    {
      var k :| 0 <= k < |qualified| && qualified[k] == q;
      assert SymbolsOf(qualified)[k] == q.symbol;
      SubsequenceMembers(SymbolsOf(qualified), Tickers(listing), q.symbol);
    }
  }

  // ---------------------------------------------------------------------
  // Properties of the scan

  /** The qualified symbols appear in the order in which they were scanned:
      they form a subsequence of the scanned symbols. */
  lemma {:induction false} ScannedInOrder(symbols: seq<string>, fetch: string -> Option<seq<Bar>>)
    ensures IsSubsequence(SymbolsOf(Scanned(symbols, fetch)), symbols)
  {
    if symbols != [] {
      ScannedInOrder(symbols[1..], fetch);
      var rest := Scanned(symbols[1..], fetch);
      var whole := Scanned(symbols, fetch);
      if Evaluate(fetch(symbols[0])).Qualified? {
        assert SymbolsOf(whole)[0] == symbols[0];
        assert SymbolsOf(whole)[1..] == SymbolsOf(rest);
      } else {
        assert whole == rest;
      }
    }
  }

  /** Every reported entry is a scanned symbol that qualifies, carrying the
      open time of its qualifying bar. */
  lemma {:induction false} ScannedSound(symbols: seq<string>, fetch: string -> Option<seq<Bar>>, q: Qualification)
    requires q in Scanned(symbols, fetch)
    ensures q.symbol in symbols && Evaluate(fetch(q.symbol)) == Qualified(q.barTime)
  {
    var recorded := Recorded(symbols[0], fetch);
    if q !in recorded {
      ScannedSound(symbols[1..], fetch, q);
    }
  }

  /** Every symbol that qualifies is reported, with its qualifying bar time. */
  lemma {:induction false} ScannedComplete(symbols: seq<string>, fetch: string -> Option<seq<Bar>>, k: nat)
    requires k < |symbols| && Evaluate(fetch(symbols[k])).Qualified?
    ensures Qualification(symbols[k], Evaluate(fetch(symbols[k])).barTime) in Scanned(symbols, fetch)
  {
    if k > 0 {
      ScannedComplete(symbols[1..], fetch, k - 1);
    }
  }

  /** Symbols are processed independently: scanning two lists one after the
      other gives the concatenation of their results. */
  lemma {:induction false} ScannedAppend(xs: seq<string>, ys: seq<string>, fetch: string -> Option<seq<Bar>>)
    ensures Scanned(xs + ys, fetch) == Scanned(xs, fetch) + Scanned(ys, fetch)
  {
    if xs != [] {
      assert (xs + ys)[1..] == xs[1..] + ys;
      ScannedAppend(xs[1..], ys, fetch);
    } else {
      assert xs + ys == ys;
    }
  }

  /** Failure isolation: making the fetch of symbol `b` fail removes exactly
      `b`'s entries from the result; every other symbol's entries, and their
      order, are unchanged. */
  lemma {:induction false} FailureIsolation(symbols: seq<string>, fetch: string -> Option<seq<Bar>>,
                                            failing: string -> Option<seq<Bar>>, b: string)
    requires failing(b) == None
    requires forall s :: s != b ==> failing(s) == fetch(s)
    ensures Scanned(symbols, failing) == Without(Scanned(symbols, fetch), b)
  {
    if symbols != [] {
      FailureIsolation(symbols[1..], fetch, failing, b);
      var head := Recorded(symbols[0], fetch);
      var rest := Scanned(symbols[1..], fetch);
      WithoutAppend(head, rest, b);
    }
  }

  /** Removing a symbol's entries distributes over concatenation. */
  lemma {:induction false} WithoutAppend(xs: seq<Qualification>, ys: seq<Qualification>, b: string)
    ensures Without(xs + ys, b) == Without(xs, b) + Without(ys, b)
  {
    if xs != [] {
      assert (xs + ys)[1..] == xs[1..] + ys;
      WithoutAppend(xs[1..], ys, b);
    } else {
      assert xs + ys == ys;
    }
  }

  /** Three symbols where the middle one's fetch fails: the first and the last
      are still evaluated exactly as they would be alone. */
  lemma MiddleFailureExample(a: string, b: string, c: string, fetch: string -> Option<seq<Bar>>)
    requires fetch(b) == None
    ensures Scanned([a, b, c], fetch) == Recorded(a, fetch) + Recorded(c, fetch)
  {
    assert [a, b, c][1..] == [b, c] && [b, c][1..] == [c] && [c][1..] == [];
    assert Recorded(b, fetch) == [];
    assert Scanned([c], fetch) == Recorded(c, fetch);
    assert Scanned([b, c], fetch) == Recorded(c, fetch);
  }
}
