/**
 * trend_engine of the capex/CWIP module: over a dictionary of year records
 * it computes the CAGRs between the first and last sorted years, the YoY
 * lists, the raw series and the three-year rising flags.
 */
module CapexTrend {
  import opened Common
  import opened Sorting
  import opened CapexMetrics
  import LiquidityTrend

  /** The amounts compute_trends reads with `.get`. */
  datatype Field = CwipField | CapexField | NfaField | RevenueField

  function FieldOf(r: CapexYear, f: Field): Option<real>
  {
    match f
    case CwipField => r.cwip
    case CapexField => r.capex
    case NfaField => r.net_fixed_assets
    case RevenueField => r.revenue
  }

  function EntryYear(e: (int, CapexYear)): int { e.0 }

  /**
   * The entries of the `yearly` dictionary in ascending year order; with
   * distinct keys, entry i holds the i-th of `sorted(yearly.keys())` and
   * the record stored under it.
   */
  function RowsOf(yearly: seq<(int, CapexYear)>): (rows: seq<(int, CapexYear)>)
    ensures |rows| == |yearly|
  {
    SortBy(yearly, EntryYear)
  }

  /** _series: one value per sorted year. */
  function Series(rows: seq<(int, CapexYear)>, f: Field): (s: seq<Option<real>>)
    ensures |s| == |rows|
  {
    seq(|rows|, i requires 0 <= i < |rows| => FieldOf(rows[i].1, f))
  }

  /**
   * A YoY list: compute_yoy (the same percentage as the liquidity module's
   * safe_yoy) over each consecutive pair of a series, oldest pair first.
   */
  function YoyOf(s: seq<Option<real>>): (r: seq<Option<real>>)
  {
    if s == [] then [] else seq(|s| - 1, k requires 0 <= k < |s| - 1 => LiquidityTrend.SafeYoy(s[k + 1], s[k]))
  }

  /** _has_consecutive_trend: false below `span` values, else the shared streak detector. */
  predicate ConsecutiveTrend(values: seq<Option<real>>, dir: LiquidityTrend.Direction, span: int)
  {
    |values| >= span && LiquidityTrend.Detected(values, span, dir)
  }

  datatype Trends =
    | NoTrends
    | Trends(
        cwip_cagr: Option<real>, capex_cagr: Option<real>, nfa_cagr: Option<real>, revenue_cagr: Option<real>,
        cwip_yoy: seq<Option<real>>, capex_yoy: seq<Option<real>>, nfa_yoy: seq<Option<real>>,
        revenue_yoy: seq<Option<real>>,
        cwip_series: seq<Option<real>>, capex_series: seq<Option<real>>, nfa_series: seq<Option<real>>,
        cwip_increasing_3y: bool, capex_increasing_3y: bool, nfa_increasing_3y: bool)

  /** The CAGR of one amount between the first and the last sorted year. */
  function CagrOf(rows: seq<(int, CapexYear)>, f: Field, pow: (real, real) -> real): Option<real>
    requires |rows| >= 2
  {
    Cagr(FieldOf(rows[0].1, f), FieldOf(rows[|rows| - 1].1, f), |rows| - 1, pow)
  }

  /** What compute_trends returns: {} for fewer than two years. */
  function TrendsOf(yearly: seq<(int, CapexYear)>, pow: (real, real) -> real): Trends
  {
    var rows := RowsOf(yearly);
    if |rows| < 2 then NoTrends
    else
      Trends(
        CagrOf(rows, CwipField, pow), CagrOf(rows, CapexField, pow), CagrOf(rows, NfaField, pow),
        CagrOf(rows, RevenueField, pow),
        YoyOf(Series(rows, CwipField)), YoyOf(Series(rows, CapexField)), YoyOf(Series(rows, NfaField)),
        YoyOf(Series(rows, RevenueField)),
        Series(rows, CwipField), Series(rows, CapexField), Series(rows, NfaField),
        ConsecutiveTrend(Series(rows, CwipField), LiquidityTrend.Up, 3),
        ConsecutiveTrend(Series(rows, CapexField), LiquidityTrend.Up, 3),
        ConsecutiveTrend(Series(rows, NfaField), LiquidityTrend.Up, 3))
  }

  /**
   * _has_consecutive_trend. Its loop is the one of the liquidity module's
   * detectors, with "up" as Up and any other direction as Down.
   */
  method HasConsecutiveTrend(values: seq<Option<real>>, dir: LiquidityTrend.Direction, span: int)
    returns (found: bool)
    ensures found == ConsecutiveTrend(values, dir, span)
  {
    if |values| < span {
      return false;
    }
    found := LiquidityTrend.HasConsecutive(values, span, dir);
  }

  /** One list of the YoY loop of compute_trends: an entry per consecutive pair of sorted years. */
  method YoyColumn(rows: seq<(int, CapexYear)>, f: Field) returns (ys: seq<Option<real>>)
    requires |rows| >= 2
    ensures ys == YoyOf(Series(rows, f))
  {
    ys := [];
    var i := 1;
    while i < |rows|
      invariant 1 <= i <= |rows|
      invariant |ys| == i - 1
      invariant forall k :: 0 <= k < i - 1 ==> ys[k] == LiquidityTrend.SafeYoy(FieldOf(rows[k + 1].1, f), FieldOf(rows[k].1, f))
    {
      ys := ys + [LiquidityTrend.SafeYoy(FieldOf(rows[i].1, f), FieldOf(rows[i - 1].1, f))];
      i := i + 1;
    }
  }

  /**
   * The YoY loop of compute_trends, which fills the four lists side by
   * side; each list depends only on its own field, so it is taken one
   * list at a time.
   */
  method YoyLists(rows: seq<(int, CapexYear)>)
    returns (cwipYoy: seq<Option<real>>, capexYoy: seq<Option<real>>, nfaYoy: seq<Option<real>>,
             revenueYoy: seq<Option<real>>)
    requires |rows| >= 2
    ensures cwipYoy == YoyOf(Series(rows, CwipField)) && capexYoy == YoyOf(Series(rows, CapexField))
    ensures nfaYoy == YoyOf(Series(rows, NfaField)) && revenueYoy == YoyOf(Series(rows, RevenueField))
  {
    cwipYoy := YoyColumn(rows, CwipField);
    capexYoy := YoyColumn(rows, CapexField);
    nfaYoy := YoyColumn(rows, NfaField);
    revenueYoy := YoyColumn(rows, RevenueField);
  }

  /** compute_trends. */
  method ComputeTrends(yearly: seq<(int, CapexYear)>, pow: (real, real) -> real) returns (t: Trends)
    ensures t == TrendsOf(yearly, pow)
  {
    var rows := RowsOf(yearly);
    if |rows| < 2 {
      return NoTrends;
    }
    var first := rows[0].1;
    var last := rows[|rows| - 1].1;
    var numYears := |rows| - 1;
    var cwipCagr := Cagr(first.cwip, last.cwip, numYears, pow);
    var capexCagr := Cagr(first.capex, last.capex, numYears, pow);
    var nfaCagr := Cagr(first.net_fixed_assets, last.net_fixed_assets, numYears, pow);
    var revenueCagr := Cagr(first.revenue, last.revenue, numYears, pow);
    var cwipYoy, capexYoy, nfaYoy, revenueYoy := YoyLists(rows);
    var cwipSeries := Series(rows, CwipField);
    var capexSeries := Series(rows, CapexField);
    var nfaSeries := Series(rows, NfaField);
    var cwipUp := HasConsecutiveTrend(cwipSeries, LiquidityTrend.Up, 3);
    var capexUp := HasConsecutiveTrend(capexSeries, LiquidityTrend.Up, 3);
    var nfaUp := HasConsecutiveTrend(nfaSeries, LiquidityTrend.Up, 3);
    t := Trends(cwipCagr, capexCagr, nfaCagr, revenueCagr, cwipYoy, capexYoy, nfaYoy, revenueYoy,
                cwipSeries, capexSeries, nfaSeries, cwipUp, capexUp, nfaUp);
  }

  // ------------------------------------------------------------ properties

  /** The length guard never changes the answer: a streak cannot outgrow the pairs before it. */
  lemma GuardRedundant(values: seq<Option<real>>, dir: LiquidityTrend.Direction, span: int)
    ensures ConsecutiveTrend(values, dir, span) == LiquidityTrend.Detected(values, span, dir)
  {
    if |values| < span && LiquidityTrend.Detected(values, span, dir) {
      var k :| 1 <= k < |values| && LiquidityTrend.StepAt(values, k, dir)
               && LiquidityTrend.Streak(values, k, dir) >= span - 1;
      LiquidityTrend.StreakRun(values, k, dir, k + 1);
    }
  }

  /** [1, 2, 3, None, 4] has no run of four rising years: the None resets the streak. */
  lemma NoneBreaksRun()
    ensures !ConsecutiveTrend([Some(1.0), Some(2.0), Some(3.0), None, Some(4.0)], LiquidityTrend.Up, 4)
  {
    var v := [Some(1.0), Some(2.0), Some(3.0), None, Some(4.0)];
    assert LiquidityTrend.Streak(v, 1, LiquidityTrend.Up) == 1;
    assert LiquidityTrend.Streak(v, 2, LiquidityTrend.Up) == 2;
    assert !LiquidityTrend.StepAt(v, 3, LiquidityTrend.Up) && !LiquidityTrend.StepAt(v, 4, LiquidityTrend.Up);
  }

  /** [1, 2, 3, 4] rises for three years. */
  lemma RisingRun()
    ensures ConsecutiveTrend([Some(1.0), Some(2.0), Some(3.0), Some(4.0)], LiquidityTrend.Up, 3)
  {
    var v := [Some(1.0), Some(2.0), Some(3.0), Some(4.0)];
    assert LiquidityTrend.StepAt(v, 2, LiquidityTrend.Up) && LiquidityTrend.Streak(v, 2, LiquidityTrend.Up) == 2;
  }

  /** Each *_increasing_3y flag holds exactly when three consecutive years are present and strictly rising. */
  lemma IncreasingFlags(yearly: seq<(int, CapexYear)>, pow: (real, real) -> real)
    requires TrendsOf(yearly, pow).Trends?
    ensures var t := TrendsOf(yearly, pow);
            && (t.cwip_increasing_3y <==>
                  exists i: nat :: i + 2 < |t.cwip_series| && LiquidityTrend.ThreeInRow(t.cwip_series, i, LiquidityTrend.Up))
            && (t.capex_increasing_3y <==>
                  exists i: nat :: i + 2 < |t.capex_series| && LiquidityTrend.ThreeInRow(t.capex_series, i, LiquidityTrend.Up))
            && (t.nfa_increasing_3y <==>
                  exists i: nat :: i + 2 < |t.nfa_series| && LiquidityTrend.ThreeInRow(t.nfa_series, i, LiquidityTrend.Up))
  {
    var t := TrendsOf(yearly, pow);
    GuardRedundant(t.cwip_series, LiquidityTrend.Up, 3);
    GuardRedundant(t.capex_series, LiquidityTrend.Up, 3);
    GuardRedundant(t.nfa_series, LiquidityTrend.Up, 3);
    LiquidityTrend.DetectsThreeInRow(t.cwip_series, LiquidityTrend.Up);
    LiquidityTrend.DetectsThreeInRow(t.capex_series, LiquidityTrend.Up);
    LiquidityTrend.DetectsThreeInRow(t.nfa_series, LiquidityTrend.Up);
  }

  /** Fewer than two years give {}; otherwise every series has one entry per year and every YoY list one fewer. */
  lemma TrendShapes(yearly: seq<(int, CapexYear)>, pow: (real, real) -> real)
    ensures TrendsOf(yearly, pow).NoTrends? <==> |yearly| < 2
    ensures var t := TrendsOf(yearly, pow);
            t.Trends? ==>
              && |t.cwip_series| == |t.capex_series| == |t.nfa_series| == |yearly|
              && |t.cwip_yoy| == |t.capex_yoy| == |t.nfa_yoy| == |t.revenue_yoy| == |yearly| - 1
  {
  }

  /**
   * The rows follow the dictionary's years from oldest to newest without
   * repeating one, and each is the record stored under its year: the rows
   * are `yearly[y]` for y in `sorted(yearly.keys())`.
   */
  lemma Chronological(yearly: seq<(int, CapexYear)>, k: nat)
    requires DistinctKeys(yearly) && k + 1 < |yearly|
    ensures var rows := RowsOf(yearly);
            && rows[k].0 < rows[k + 1].0
            && Lookup(yearly, rows[k].0) == Some(rows[k].1) && Lookup(yearly, rows[k + 1].0) == Some(rows[k + 1].1)
  {
    var rows := RowsOf(yearly);
    RowLookup(yearly, k);
    RowLookup(yearly, k + 1);
    RowsDistinct(yearly, k, k + 1);
    assert EntryYear(rows[k]) <= EntryYear(rows[k + 1]);
  }

  /** YoY entry k compares sorted year k+1 with the earlier year k, as a percentage of year k's value. */
  lemma YoyPairs(yearly: seq<(int, CapexYear)>, pow: (real, real) -> real, k: nat)
    requires TrendsOf(yearly, pow).Trends? && k + 1 < |yearly|
    ensures var rows := RowsOf(yearly);
            var t := TrendsOf(yearly, pow);
            && t.cwip_yoy[k] == LiquidityTrend.SafeYoy(rows[k + 1].1.cwip, rows[k].1.cwip)
            && t.capex_yoy[k] == LiquidityTrend.SafeYoy(rows[k + 1].1.capex, rows[k].1.capex)
            && t.nfa_yoy[k] == LiquidityTrend.SafeYoy(rows[k + 1].1.net_fixed_assets, rows[k].1.net_fixed_assets)
            && t.revenue_yoy[k] == LiquidityTrend.SafeYoy(rows[k + 1].1.revenue, rows[k].1.revenue)
  {
    var rows := RowsOf(yearly);
    YoyEntry(rows, CwipField, k);
    YoyEntry(rows, CapexField, k);
    YoyEntry(rows, NfaField, k);
    YoyEntry(rows, RevenueField, k);
  }

  lemma YoyEntry(rows: seq<(int, CapexYear)>, f: Field, k: nat)
    requires k + 1 < |rows|
    ensures YoyOf(Series(rows, f))[k] == LiquidityTrend.SafeYoy(FieldOf(rows[k + 1].1, f), FieldOf(rows[k].1, f))
  {
  }

  /** Each sorted row is an entry of the dictionary, found under its own year. */
  lemma RowLookup(yearly: seq<(int, CapexYear)>, i: nat)
    requires DistinctKeys(yearly) && i < |yearly|
    ensures Lookup(yearly, RowsOf(yearly)[i].0) == Some(RowsOf(yearly)[i].1)
  {
    SortedElements(yearly, EntryYear, i);
    var j :| 0 <= j < |yearly| && yearly[j] == RowsOf(yearly)[i];
    LookupAt(yearly, j);
  }

  /** Two different sorted rows carry different years. */
  lemma RowsDistinct(yearly: seq<(int, CapexYear)>, i: nat, j: nat)
    requires DistinctKeys(yearly) && i < j < |yearly|
    ensures RowsOf(yearly)[i].0 != RowsOf(yearly)[j].0
  {
    var rows := RowsOf(yearly);
    SortedElements(yearly, EntryYear, i);
    SortedElements(yearly, EntryYear, j);
    var a :| 0 <= a < |yearly| && yearly[a] == rows[i];
    var b :| 0 <= b < |yearly| && yearly[b] == rows[j];
    DistinctCount(yearly, a);
    CountTwo(rows, i, j);
    assert rows[i] != rows[j];
    assert a != b;
  }

  /** An element at two positions occurs at least twice. */
  lemma CountTwo<T>(r: seq<T>, i: nat, j: nat)
    requires i < j < |r|
    ensures r[i] == r[j] ==> multiset(r)[r[j]] >= 2
  {
    assert r == r[..j] + r[j..];
    assert r[i] in r[..j];
    assert r[j..][0] == r[j];
  }

  /** In a dictionary with distinct keys an entry occurs once. */
  lemma {:induction false} DistinctCount(m: seq<(int, CapexYear)>, a: nat)
    requires DistinctKeys(m) && a < |m|
    ensures multiset(m)[m[a]] == 1
  {
    if |m| == 1 {
    } else if a == |m| - 1 {
      var init := m[..|m| - 1];
      assert m == init + [m[a]];
      forall c | 0 <= c < |init| ensures init[c] != m[a] {
        assert m[c].0 != m[a].0;
      }
      assert m[a] !in init;
    } else {
      var init := m[..|m| - 1];
      assert m == init + [m[|m| - 1]];
      assert m[|m| - 1] != m[a] by { assert m[a].0 != m[|m| - 1].0; }
      assert init[a] == m[a];
      DistinctCount(init, a);
    }
  }

  /**
   * The CAGRs compare the records of the smallest and the largest year,
   * over one period fewer than the number of years.
   */
  lemma CagrEndpoints(yearly: seq<(int, CapexYear)>, pow: (real, real) -> real, i: nat)
    requires TrendsOf(yearly, pow).Trends? && i < |yearly|
    ensures var rows := RowsOf(yearly);
            && rows[0].0 <= yearly[i].0 <= rows[|rows| - 1].0
            && TrendsOf(yearly, pow).cwip_cagr == Cagr(rows[0].1.cwip, rows[|rows| - 1].1.cwip, |yearly| - 1, pow)
            && TrendsOf(yearly, pow).revenue_cagr
               == Cagr(rows[0].1.revenue, rows[|rows| - 1].1.revenue, |yearly| - 1, pow)
  {
    var rows := RowsOf(yearly);
    assert yearly[i] in multiset(rows) by { assert yearly[i] in multiset(yearly); }
    var k :| 0 <= k < |rows| && rows[k] == yearly[i];
    assert EntryYear(rows[0]) <= EntryYear(rows[k]) <= EntryYear(rows[|rows| - 1]);
  }
}
