/**
 * compute_liquidity_trends: year-on-year series of the current ratio and
 * of five balances, the current, quick and cash ratio series, and the
 * three-year decline and rise patterns.
 */
module LiquidityTrend {
  import opened Common
  import opened Sorting
  import opened LiquidityMetrics

  /** safe_yoy: the change from `prev` to `curr` as a percentage of `prev`. */
  function SafeYoy(curr: Option<real>, prev: Option<real>): (r: Option<real>)
    ensures r.None? <==> Falsy(prev) || curr.None?
    ensures r.Some? ==> r.value * prev.value == (curr.value - prev.value) * 100.0
  {
    if Falsy(prev) || curr.None? then None else Some((curr.value - prev.value) / prev.value * 100.0)
  }

  /** The balances the module reads by name with getattr. */
  datatype Field = CashAndEquivalents | Receivables | Inventory | OperatingCashFlow
                 | CurrentLiabilities | CurrentAssets | MarketableSecurities

  function FieldOf(f: YearFinancials, field: Field): real
  {
    match field
    case CashAndEquivalents => f.cash_and_equivalents
    case Receivables => f.receivables
    case Inventory => f.inventory
    case OperatingCashFlow => f.operating_cash_flow
    case CurrentLiabilities => f.current_liabilities
    case CurrentAssets => f.current_assets
    case MarketableSecurities => f.marketable_securities
  }

  /** _extract: one value per record, in record order. */
  function Extract(series: seq<YearFinancials>, field: Field): (vs: seq<Option<real>>)
    ensures |vs| == |series|
    ensures forall i :: 0 <= i < |series| ==> vs[i] == Some(FieldOf(series[i], field))
  {
    seq(|series|, i requires 0 <= i < |series| => Some(FieldOf(series[i], field)))
  }

  // ------------------------------------------------------------ year-on-year series

  /** The entry at position k of _compute_series_yoy for a series of two or more values. */
  function YoyAt(values: seq<Option<real>>, k: nat): Option<real>
    requires k < |values|
  {
    if k == 0 then None else SafeYoy(values[k], values[k - 1])
  }

  /**
   * _compute_series_yoy: as long as its input, first entry None, entry k
   * the growth from value k-1 to value k; every entry is None for fewer
   * than two values.
   */
  function SeriesYoy(values: seq<Option<real>>): (out: seq<Option<real>>)
    ensures |out| == |values|
    ensures |values| < 2 ==> forall k :: 0 <= k < |out| ==> out[k].None?
    ensures |values| >= 2 ==> forall k :: 0 <= k < |out| ==>
              (out[k].None? <==> k == 0 || Falsy(values[k - 1]) || values[k].None?)
  {
    if |values| < 2 then seq(|values|, k => None)
    else seq(|values|, k requires 0 <= k < |values| => YoyAt(values, k))
  }

  /** The loop of _compute_series_yoy over consecutive pairs. */
  method ComputeSeriesYoy(values: seq<Option<real>>) returns (out: seq<Option<real>>)
    ensures out == SeriesYoy(values)
  {
    if |values| < 2 {
      return seq(|values|, k => None);
    }
    out := [None];
    var i := 1;
    while i < |values|
      invariant 1 <= i <= |values|
      invariant |out| == i
      invariant forall k :: 0 <= k < i ==> out[k] == YoyAt(values, k)
    {
      out := out + [SafeYoy(values[i], values[i - 1])];
      i := i + 1;
    }
  }

  // ------------------------------------------------------------ streaks

  datatype Direction = Down | Up

  /** Pair (k-1, k) moves in the direction: both values present and strictly smaller (larger). */
  predicate StepAt(values: seq<Option<real>>, k: nat, dir: Direction)
    requires 1 <= k < |values|
  {
    values[k - 1].Some? && values[k].Some? &&
    (if dir == Down then values[k].value < values[k - 1].value else values[k].value > values[k - 1].value)
  }

  /** The streak counter after the pair ending at position k; position 0 ends no pair. */
  function Streak(values: seq<Option<real>>, k: nat, dir: Direction): nat
    requires k < |values|
  {
    if k == 0 then 0
    else if StepAt(values, k, dir) then Streak(values, k - 1, dir) + 1
    else 0
  }

  /** The detectors' answer: some pair extends the streak to at least span - 1. */
  predicate Detected(values: seq<Option<real>>, span: int, dir: Direction)
  {
    exists k :: 1 <= k < |values| && StepAt(values, k, dir) && Streak(values, k, dir) >= span - 1
  }

  /** The shared loop of _has_consecutive_decline and _has_consecutive_rise, with its early return. */
  method HasConsecutive(values: seq<Option<real>>, span: int, dir: Direction) returns (found: bool)
    ensures found == Detected(values, span, dir)
  {
    var streak := 0;
    var i := 1;
    while i < |values|
      invariant 1 <= i <= |values| || |values| == 0
      invariant |values| > 0 ==> streak == Streak(values, i - 1, dir)
      invariant forall k :: 1 <= k < i && k < |values| ==>
                  !(StepAt(values, k, dir) && Streak(values, k, dir) >= span - 1)
    {
      var prev := values[i - 1];
      var curr := values[i];
      if prev.None? || curr.None? {
        streak := 0;
      } else if (dir == Down && curr.value < prev.value) || (dir == Up && curr.value > prev.value) {
        streak := streak + 1;
        assert StepAt(values, i, dir) && streak == Streak(values, i, dir);
        if streak >= span - 1 {
          return true;
        }
      } else {
        streak := 0;
      }
      i := i + 1;
    }
    return false;
  }

  /** _has_consecutive_decline. */
  method HasConsecutiveDecline(values: seq<Option<real>>, span: int) returns (found: bool)
    ensures found == Detected(values, span, Down)
  {
    found := HasConsecutive(values, span, Down);
  }

  /** _has_consecutive_rise. */
  method HasConsecutiveRise(values: seq<Option<real>>, span: int) returns (found: bool)
    ensures found == Detected(values, span, Up)
  {
    found := HasConsecutive(values, span, Up);
  }

  /** The streak reaches n exactly when the n pairs ending at k all move in the direction. */
  lemma {:induction false} StreakRun(values: seq<Option<real>>, k: nat, dir: Direction, n: nat)
    requires k < |values|
    ensures Streak(values, k, dir) >= n <==> n <= k && forall j :: k - n < j <= k ==> StepAt(values, j, dir)
  {
    if n > 0 && k > 0 {
      StreakRun(values, k - 1, dir, n - 1);
    }
  }

  /** Values i, i+1 and i+2 are present and strictly decrease (Down) or increase (Up). */
  predicate ThreeInRow(values: seq<Option<real>>, i: nat, dir: Direction)
    requires i + 2 < |values|
  {
    values[i].Some? && values[i + 1].Some? && values[i + 2].Some? &&
    (if dir == Down then values[i + 2].value < values[i + 1].value < values[i].value
     else values[i].value < values[i + 1].value < values[i + 2].value)
  }

  /**
   * With span 3 a detector is true exactly when three consecutive values
   * are present and strictly monotone in its direction; a missing value
   * breaks the run.
   */
  lemma DetectsThreeInRow(values: seq<Option<real>>, dir: Direction)
    ensures Detected(values, 3, dir) <==> exists i: nat :: i + 2 < |values| && ThreeInRow(values, i, dir)
  {
    if Detected(values, 3, dir) {
      var k :| 1 <= k < |values| && StepAt(values, k, dir) && Streak(values, k, dir) >= 2;
      StreakRun(values, k, dir, 2);
      assert StepAt(values, k - 1, dir);
      assert ThreeInRow(values, k - 2, dir);
    }
    if exists i: nat :: i + 2 < |values| && ThreeInRow(values, i, dir) {
      var i: nat :| i + 2 < |values| && ThreeInRow(values, i, dir);
      assert StepAt(values, i + 1, dir) && StepAt(values, i + 2, dir);
      StreakRun(values, i + 2, dir, 2);
    }
  }

  // ------------------------------------------------------------ ratio series

  /** One entry of _compute_ratio_series: None for a missing numerator or a missing or zero denominator. */
  function RatioEntry(n: Option<real>, d: Option<real>): (r: Option<real>)
    ensures r.None? <==> n.None? || Falsy(d)
    ensures r.Some? ==> r.value * d.value == n.value
  {
    if n.None? || Falsy(d) then None else Some(n.value / d.value)
  }

  function RatioSeries(series: seq<YearFinancials>, num: Field, den: Field): (rs: seq<Option<real>>)
    ensures |rs| == |series|
  {
    seq(|series|, i requires 0 <= i < |series| =>
          RatioEntry(Some(FieldOf(series[i], num)), Some(FieldOf(series[i], den))))
  }

  /** _compute_ratio_series. */
  method ComputeRatioSeries(series: seq<YearFinancials>, num: Field, den: Field) returns (ratios: seq<Option<real>>)
    ensures ratios == RatioSeries(series, num, den)
  {
    ratios := [];
    var i := 0;
    while i < |series|
      invariant 0 <= i <= |series|
      invariant |ratios| == i
      invariant forall k :: 0 <= k < i ==>
                  ratios[k] == RatioEntry(Some(FieldOf(series[k], num)), Some(FieldOf(series[k], den)))
    {
      var n := Some(FieldOf(series[i], num));
      var d := Some(FieldOf(series[i], den));
      if n.None? || Falsy(d) {
        ratios := ratios + [None];
      } else {
        ratios := ratios + [Some(n.value / d.value)];
      }
      i := i + 1;
    }
  }

  /** The quick ratio of the trend loop: (current assets - inventory) / current liabilities. */
  function QuickOf(f: YearFinancials): (r: Option<real>)
    ensures r.None? <==> f.current_liabilities == 0.0
    ensures r.Some? ==> r.value * f.current_liabilities == f.current_assets - f.inventory
  {
    var inv := OrZeroFloat(f.inventory);
    var cl := OrZeroFloat(f.current_liabilities);
    if cl == 0.0 then None else Some((f.current_assets - inv) / cl)
  }

  /** The cash ratio of the trend loop: cash / current liabilities. */
  function CashRatioOf(f: YearFinancials): (r: Option<real>)
    ensures r.None? <==> f.current_liabilities == 0.0
    ensures r.Some? ==> r.value * f.current_liabilities == f.cash_and_equivalents
  {
    var cash := OrZeroFloat(f.cash_and_equivalents);
    var cl := OrZeroFloat(f.current_liabilities);
    if cl == 0.0 then None else Some(cash / cl)
  }

  function QuickSeries(fs: seq<YearFinancials>): (qs: seq<Option<real>>)
    ensures |qs| == |fs|
  {
    seq(|fs|, i requires 0 <= i < |fs| => QuickOf(fs[i]))
  }

  function CashSeries(fs: seq<YearFinancials>): (cs: seq<Option<real>>)
    ensures |cs| == |fs|
  {
    seq(|fs|, i requires 0 <= i < |fs| => CashRatioOf(fs[i]))
  }

  /** The loop of compute_liquidity_trends that builds the quick and cash ratio series together. */
  method QuickAndCash(fs: seq<YearFinancials>) returns (quick: seq<Option<real>>, cash: seq<Option<real>>)
    ensures quick == QuickSeries(fs) && cash == CashSeries(fs)
  {
    quick := [];
    cash := [];
    var i := 0;
    while i < |fs|
      invariant 0 <= i <= |fs|
      invariant |quick| == i && |cash| == i
      invariant forall k :: 0 <= k < i ==> quick[k] == QuickOf(fs[k]) && cash[k] == CashRatioOf(fs[k])
    {
      var f := fs[i];
      var invVal := OrZeroFloat(f.inventory);
      var cashVal := OrZeroFloat(f.cash_and_equivalents);
      var clVal := OrZeroFloat(f.current_liabilities);
      if clVal == 0.0 {
        quick := quick + [None];
        cash := cash + [None];
      } else {
        quick := quick + [Some((f.current_assets - invVal) / clVal)];
        cash := cash + [Some(cashVal / clVal)];
      }
      i := i + 1;
    }
  }

  // ------------------------------------------------------------ the trends dictionary

  datatype Patterns = Patterns(
    cash_shrinking_3yr: bool, cl_rising_3yr: bool, ocf_declining_3yr: bool,
    receivables_rising_3yr: bool, inventory_rising_3yr: bool,
    cash_shrinking_while_cl_rising: bool, working_capital_worsening: bool)

  /** The dictionary compute_liquidity_trends returns: {} for fewer than two records. */
  datatype Trends =
    | NoTrends
    | Trends(years: seq<int>,
             current_ratio_yoy: seq<Option<real>>, cash_yoy: seq<Option<real>>,
             receivables_yoy: seq<Option<real>>, inventory_yoy: seq<Option<real>>,
             ocf_yoy: seq<Option<real>>, current_liabilities_yoy: seq<Option<real>>,
             current_ratio_trend: seq<Option<real>>, quick_ratio_trend: seq<Option<real>>,
             cash_ratio_trend: seq<Option<real>>, patterns: Patterns)

  function YearsOf(fs: seq<YearFinancials>): (ys: seq<int>)
    ensures |ys| == |fs|
  {
    seq(|fs|, i requires 0 <= i < |fs| => fs[i].year)
  }

  /** The ".. and .." and ".. or .." of the last two patterns. */
  function PatternsOf(cashFalling: bool, clRising: bool, ocfDeclining: bool, recvRising: bool, invRising: bool)
    : (p: Patterns)
    ensures p.cash_shrinking_while_cl_rising <==> p.cash_shrinking_3yr && p.cl_rising_3yr
    ensures p.working_capital_worsening <==> p.receivables_rising_3yr || p.inventory_rising_3yr
    ensures p.cash_shrinking_3yr == cashFalling && p.cl_rising_3yr == clRising && p.ocf_declining_3yr == ocfDeclining
    ensures p.receivables_rising_3yr == recvRising && p.inventory_rising_3yr == invRising
  {
    Patterns(cashFalling, clRising, ocfDeclining, recvRising, invRising, cashFalling && clRising, recvRising || invRising)
  }

  /** The patterns of the sorted records. */
  function PatternsFor(fs: seq<YearFinancials>): Patterns
  {
    PatternsOf(Detected(Extract(fs, CashAndEquivalents), 3, Down), Detected(Extract(fs, CurrentLiabilities), 3, Up),
               Detected(Extract(fs, OperatingCashFlow), 3, Down), Detected(Extract(fs, Receivables), 3, Up),
               Detected(Extract(fs, Inventory), 3, Up))
  }

  /** What compute_liquidity_trends returns for records already sorted by year. */
  function TrendsOfSorted(fs: seq<YearFinancials>): Trends
  {
    if |fs| < 2 then NoTrends
    else
      var currentRatio := RatioSeries(fs, CurrentAssets, CurrentLiabilities);
      Trends(YearsOf(fs),
             SeriesYoy(currentRatio), SeriesYoy(Extract(fs, CashAndEquivalents)),
             SeriesYoy(Extract(fs, Receivables)), SeriesYoy(Extract(fs, Inventory)),
             SeriesYoy(Extract(fs, OperatingCashFlow)), SeriesYoy(Extract(fs, CurrentLiabilities)),
             currentRatio, QuickSeries(fs), CashSeries(fs), PatternsFor(fs))
  }

  /** What compute_liquidity_trends returns. */
  function TrendsOf(financials: seq<YearFinancials>): Trends
  {
    TrendsOfSorted(SortBy(financials, YearOf))
  }

  /** The pattern-detection block of compute_liquidity_trends. */
  method DetectPatterns(fs: seq<YearFinancials>) returns (p: Patterns)
    ensures p == PatternsFor(fs)
  {
    var cashFalling := HasConsecutiveDecline(Extract(fs, CashAndEquivalents), 3);
    var clRising := HasConsecutiveRise(Extract(fs, CurrentLiabilities), 3);
    var ocfDeclining := HasConsecutiveDecline(Extract(fs, OperatingCashFlow), 3);
    var receivablesRising := HasConsecutiveRise(Extract(fs, Receivables), 3);
    var inventoryRising := HasConsecutiveRise(Extract(fs, Inventory), 3);
    var cashStressPattern := cashFalling && clRising;
    var workingCapitalWorsening := receivablesRising || inventoryRising;
    p := Patterns(cashFalling, clRising, ocfDeclining, receivablesRising, inventoryRising,
                  cashStressPattern, workingCapitalWorsening);
  }

  /** The YoY block of compute_liquidity_trends, in the order of the output dictionary. */
  method YoyBlock(fs: seq<YearFinancials>, currentRatio: seq<Option<real>>)
    returns (cr: seq<Option<real>>, cash: seq<Option<real>>, recv: seq<Option<real>>,
             inv: seq<Option<real>>, ocf: seq<Option<real>>, cl: seq<Option<real>>)
    ensures cr == SeriesYoy(currentRatio)
    ensures cash == SeriesYoy(Extract(fs, CashAndEquivalents)) && recv == SeriesYoy(Extract(fs, Receivables))
    ensures inv == SeriesYoy(Extract(fs, Inventory)) && ocf == SeriesYoy(Extract(fs, OperatingCashFlow))
    ensures cl == SeriesYoy(Extract(fs, CurrentLiabilities))
  {
    cr := ComputeSeriesYoy(currentRatio);
    cash := ComputeSeriesYoy(Extract(fs, CashAndEquivalents));
    recv := ComputeSeriesYoy(Extract(fs, Receivables));
    inv := ComputeSeriesYoy(Extract(fs, Inventory));
    ocf := ComputeSeriesYoy(Extract(fs, OperatingCashFlow));
    cl := ComputeSeriesYoy(Extract(fs, CurrentLiabilities));
  }

  /** compute_liquidity_trends. */
  method ComputeLiquidityTrends(financials: seq<YearFinancials>) returns (t: Trends)
    ensures t == TrendsOf(financials)
  {
    var fs := SortBy(financials, YearOf);
    if |fs| < 2 {
      return NoTrends;
    }
    var years := YearsOf(fs);
    var currentRatioValues := ComputeRatioSeries(fs, CurrentAssets, CurrentLiabilities);
    var crYoy, cashYoy, recvYoy, invYoy, ocfYoy, clYoy := YoyBlock(fs, currentRatioValues);
    var quick, cash := QuickAndCash(fs);
    var patterns := DetectPatterns(fs);
    t := Trends(years, crYoy, cashYoy, recvYoy, invYoy, ocfYoy, clYoy, currentRatioValues, quick, cash, patterns);
  }

  // ------------------------------------------------------------ properties

  /**
   * {} exactly for fewer than two records. Otherwise the years ascend and
   * every series has one entry per record, the quick and cash ratios being
   * None exactly for the years whose current liabilities are 0.
   */
  lemma TrendsAligned(financials: seq<YearFinancials>)
    ensures TrendsOf(financials).NoTrends? <==> |financials| < 2
    ensures TrendsOf(financials).Trends? ==>
              var t := TrendsOf(financials);
              var fs := SortBy(financials, YearOf);
              && |t.years| == |financials|
              && (forall i, j :: 0 <= i < j < |t.years| ==> t.years[i] <= t.years[j])
              && |t.cash_yoy| == |t.receivables_yoy| == |t.inventory_yoy| == |financials|
              && |t.ocf_yoy| == |t.current_liabilities_yoy| == |t.current_ratio_yoy| == |financials|
              && |t.current_ratio_trend| == |t.quick_ratio_trend| == |t.cash_ratio_trend| == |financials|
              && (forall i :: 0 <= i < |fs| ==>
                    (t.quick_ratio_trend[i].None? <==> fs[i].current_liabilities == 0.0) &&
                    (t.cash_ratio_trend[i].None? <==> fs[i].current_liabilities == 0.0))
  {
  }

  /**
   * The stress pattern is cash shrinking while current liabilities rise,
   * and working capital worsens when receivables or inventory rise, each
   * over three consecutive years.
   */
  lemma PatternMeaning(financials: seq<YearFinancials>)
    requires |financials| >= 2
    ensures var fs := SortBy(financials, YearOf);
            var p := TrendsOf(financials).patterns;
            && (p.cash_shrinking_while_cl_rising <==>
                  (exists i: nat :: i + 2 < |fs| && ThreeInRow(Extract(fs, CashAndEquivalents), i, Down)) &&
                  (exists i: nat :: i + 2 < |fs| && ThreeInRow(Extract(fs, CurrentLiabilities), i, Up)))
            && (p.working_capital_worsening <==>
                  (exists i: nat :: i + 2 < |fs| && ThreeInRow(Extract(fs, Receivables), i, Up)) ||
                  (exists i: nat :: i + 2 < |fs| && ThreeInRow(Extract(fs, Inventory), i, Up)))
  {
    var fs := SortBy(financials, YearOf);
    assert TrendsOf(financials).patterns == PatternsFor(fs);
    CombinedPatterns(fs);
  }

  /** The two combined patterns of PatternsFor in terms of three-year runs. */
  lemma CombinedPatterns(fs: seq<YearFinancials>)
    ensures var p := PatternsFor(fs);
            && (p.cash_shrinking_while_cl_rising <==>
                  (exists i: nat :: i + 2 < |fs| && ThreeInRow(Extract(fs, CashAndEquivalents), i, Down)) &&
                  (exists i: nat :: i + 2 < |fs| && ThreeInRow(Extract(fs, CurrentLiabilities), i, Up)))
            && (p.working_capital_worsening <==>
                  (exists i: nat :: i + 2 < |fs| && ThreeInRow(Extract(fs, Receivables), i, Up)) ||
                  (exists i: nat :: i + 2 < |fs| && ThreeInRow(Extract(fs, Inventory), i, Up)))
  {
    DetectsThreeInRow(Extract(fs, CashAndEquivalents), Down);
    DetectsThreeInRow(Extract(fs, CurrentLiabilities), Up);
    DetectsThreeInRow(Extract(fs, Receivables), Up);
    DetectsThreeInRow(Extract(fs, Inventory), Up);
  }
}
