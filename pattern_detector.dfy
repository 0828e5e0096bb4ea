/** The two-bar "blue bar then red pin bar" candlestick pattern, evaluated on
    the last two bars of one symbol's hourly series (redpinbar.py,
    check_conditions and its nested is_red_pin_bar / is_blue_bar).

    Prices are exact reals. The EMA21 value of a bar is `None` where the
    indicator is still warming up (a NaN in the data frame): every ordering
    comparison against it is false, exactly as for a floating-point NaN. */
module PatternDetector {
  import opened Wrappers

  /** One candle of the series, annotated with its EMA21 value.
      `openTime` is the bar's UTC open time in epoch milliseconds. */
  datatype Bar = Bar(
    openTime: int,
    open: real,
    high: real,
    low: real,
    close: real,
    volume: real,
    ema21: Option<real>)

  function Abs(x: real): (r: real)
    ensures r >= 0.0 && (r == x || r == -x)
  {
    if x < 0.0 then -x else x
  }

  function Max(a: real, b: real): (r: real)
    ensures r >= a && r >= b && (r == a || r == b)
  {
    if a >= b then a else b
  }

  function Min(a: real, b: real): (r: real)
    ensures r <= a && r <= b && (r == a || r == b)
  {
    if a <= b then a else b
  }

  /** `x < ema` on a possibly undefined indicator value: false under NaN. */
  predicate BelowEma(x: real, ema: Option<real>)
  {
    ema.Some? && x < ema.value
  }

  /** `x > ema` on a possibly undefined indicator value: false under NaN. */
  predicate AboveEma(x: real, ema: Option<real>)
  {
    ema.Some? && x > ema.value
  }

  /** Length of the candle body, whichever way the candle went. */
  function BodySize(bar: Bar): (r: real)
    ensures r >= 0.0
    ensures r == bar.close - bar.open || r == bar.open - bar.close
  {
    Abs(bar.close - bar.open)
  }

  /** Distance from the top of the body to the high. */
  function UpperWick(bar: Bar): (r: real)
    ensures r <= bar.high - bar.open && r <= bar.high - bar.close
    ensures r == bar.high - bar.open || r == bar.high - bar.close
  {
    bar.high - Max(bar.open, bar.close)
  }

  /** Distance from the low to the bottom of the body. */
  function LowerWick(bar: Bar): (r: real)
    ensures r <= bar.open - bar.low && r <= bar.close - bar.low
    ensures r == bar.open - bar.low || r == bar.close - bar.low
  {
    Min(bar.open, bar.close) - bar.low
  }

  /** A bearish bar that opened below EMA21, whose high pierces EMA21, and
      whose upper wick is strictly longer than both its body and its lower
      wick. */
  predicate IsRedPinBar(bar: Bar)
    ensures IsRedPinBar(bar) ==> bar.ema21.Some? && bar.open < bar.ema21.value < bar.high
    ensures IsRedPinBar(bar) ==> UpperWick(bar) > 0.0 && bar.high > Max(bar.open, bar.close)
  {
    && bar.close < bar.open
    && BelowEma(bar.open, bar.ema21)
    && UpperWick(bar) > BodySize(bar)
    && UpperWick(bar) > LowerWick(bar)
    && AboveEma(bar.high, bar.ema21)
  }

  /** A strictly bullish bar; the indicator is not consulted. */
  predicate IsBlueBar(bar: Bar)
    ensures IsBlueBar(bar) ==> BodySize(bar) > 0.0 && !IsRedPinBar(bar)
  {
    bar.close > bar.open
  }

  /** The screener's verdict on a series: the last bar is a red pin bar and the
      bar before it is a blue bar. A series of fewer than two bars never
      qualifies, and the verdict is false rather than an error. */
  predicate CheckConditions(series: seq<Bar>)
    ensures |series| < 2 ==> !CheckConditions(series)
    ensures CheckConditions(series) ==>
      series[|series| - 1].ema21.Some? && series[|series| - 2].close > series[|series| - 2].open
  {
    if |series| >= 2 then
      var latest := series[|series| - 1];
      var prev := series[|series| - 2];
      IsRedPinBar(latest) && IsBlueBar(prev)
    else
      false
  }

  // ---------------------------------------------------------------------
  // Properties of the detector

  /** The red pin bar conditions in closed form. Since the bar is bearish, the
      body runs from close up to open, so the upper wick is `high - open` and
      the lower wick `close - low`; all five comparisons are strict. */
  lemma RedPinBarClosedForm(bar: Bar)
    ensures IsRedPinBar(bar) <==>
      && bar.ema21.Some?
      && bar.close < bar.open < bar.ema21.value < bar.high
      && bar.high - bar.open > bar.open - bar.close
      && bar.high - bar.open > bar.close - bar.low
  {
  }

  /** The full verdict in terms of raw prices: the previous bar strictly
      bullish and the last bar a red pin bar, every inequality strict. */
  lemma CheckConditionsClosedForm(series: seq<Bar>)
    ensures CheckConditions(series) <==>
      && |series| >= 2
      && series[|series| - 2].close > series[|series| - 2].open
      && series[|series| - 1].ema21.Some?
      && series[|series| - 1].close < series[|series| - 1].open < series[|series| - 1].ema21.value
      && series[|series| - 1].ema21.value < series[|series| - 1].high
      && series[|series| - 1].high - series[|series| - 1].open > series[|series| - 1].open - series[|series| - 1].close
      && series[|series| - 1].high - series[|series| - 1].open > series[|series| - 1].close - series[|series| - 1].low
  {
  }

  /** An undefined EMA21 on the last bar (before warm-up) never matches,
      whatever the prices are. */
  lemma UndefinedEmaNeverMatches(series: seq<Bar>)
    requires |series| >= 1 && series[|series| - 1].ema21.None?
    ensures !CheckConditions(series)
  {
  }

  /** Condition 3 is strict: an upper wick equal to the body does not match. */
  lemma WickEqualToBodyNeverMatches(bar: Bar)
    requires UpperWick(bar) == BodySize(bar)
    ensures !IsRedPinBar(bar)
  {
  }

  /** Condition 4 is strict: an upper wick equal to the lower wick does not match. */
  lemma WicksEqualNeverMatches(bar: Bar)
    requires UpperWick(bar) == LowerWick(bar)
    ensures !IsRedPinBar(bar)
  {
  }

  /** A bar whose high is the top of its body has no upper wick and can never
      be a red pin bar, since the body is never negative. */
  lemma ZeroUpperWickNeverMatches(bar: Bar)
    requires bar.high == Max(bar.open, bar.close)
    ensures UpperWick(bar) == 0.0
    ensures !IsRedPinBar(bar)
  {
  }

  /** A previous bar that is a doji or bearish rules the pattern out,
      whatever the last bar is. */
  lemma PreviousNotBullishNeverMatches(series: seq<Bar>)
    requires |series| >= 2 && series[|series| - 2].close <= series[|series| - 2].open
    ensures !CheckConditions(series)
  {
  }

  /** Only the last two bars are consulted, and of those only the prices that
      enter the conditions: earlier bars, the series length, volumes, open
      times, the previous bar's high, low and EMA21 do not change the verdict. */
  lemma OnlyLastTwoBarsMatter(s: seq<Bar>, t: seq<Bar>)
    requires |s| >= 2 && |t| >= 2
    requires s[|s| - 2].open == t[|t| - 2].open && s[|s| - 2].close == t[|t| - 2].close
    requires var a, b := s[|s| - 1], t[|t| - 1];
      a.open == b.open && a.high == b.high && a.low == b.low && a.close == b.close && a.ema21 == b.ema21
    ensures CheckConditions(s) == CheckConditions(t)
  {
  }

  /** Prepending history to a series of at least two bars leaves the verdict
      unchanged. */
  lemma PrependingHistoryIrrelevant(history: seq<Bar>, series: seq<Bar>)
    requires |series| >= 2
    ensures CheckConditions(history + series) == CheckConditions(series)
  {
  }

  // ---------------------------------------------------------------------
  // Worked examples

  /** A bullish bar (open 100, close 105) followed by a bearish bar opening at
      98 below an EMA21 of 100, closing at 95, with high 110 and low 94: body 3,
      upper wick 12, lower wick 1, so the pattern matches. */
  lemma WorkedExampleMatches()
    ensures var prev := Bar(0, 100.0, 106.0, 99.0, 105.0, 1.0, Some(99.0));
      var last := Bar(3600000, 98.0, 110.0, 94.0, 95.0, 1.0, Some(100.0));
      && BodySize(last) == 3.0 && UpperWick(last) == 12.0 && LowerWick(last) == 1.0
      && CheckConditions([prev, last])
  {
  }

  /** The same last bar after a bearish bar (open 100, close 98) does not match. */
  lemma BearishPreviousExample()
    ensures var prev := Bar(0, 100.0, 101.0, 97.0, 98.0, 1.0, Some(99.0));
      var last := Bar(3600000, 98.0, 110.0, 94.0, 95.0, 1.0, Some(100.0));
      !CheckConditions([prev, last])
  {
  }

  /** A last bar whose high (99) stays below EMA21 (100) does not match. */
  lemma HighBelowEmaExample()
    ensures var prev := Bar(0, 100.0, 106.0, 99.0, 105.0, 1.0, Some(99.0));
      var last := Bar(3600000, 98.0, 99.0, 94.0, 95.0, 1.0, Some(100.0));
      !CheckConditions([prev, last])
  {
  }
}
