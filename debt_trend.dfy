/**
 * The borrowings module's trends: the CAGR of total debt, long-term debt,
 * EBITDA, finance cost and revenue between the first and the last year,
 * the year-on-year growth of short-term debt, and the gap between debt
 * and EBITDA growth.
 */
module DebtTrend {
  import opened Common
  import opened Sorting
  import opened DebtMetrics

  /**
   * compute_yoy of the borrowings module: 0.0 (not None) when the previous
   * value is missing or zero, otherwise the change as a percentage. A
   * missing current value against a usable previous one raises TypeError,
   * which the precondition excludes.
   */
  function DebtYoy(current: Option<real>, previous: Option<real>): (r: real)
    requires Falsy(previous) || current.Some?
    ensures Falsy(previous) ==> r == 0.0
    ensures !Falsy(previous) ==> r * previous.value == (current.value - previous.value) * 100.0
  {
    if Falsy(previous) then 0.0 else (current.value - previous.value) / previous.value * 100.0
  }

  /** The per-year dictionary compute_per_year_metrics returns. */
  type Yearly = seq<(int, DebtYear)>

  function Id(y: int): int { y }

  /** `sorted(yearly.keys())`: the years in ascending order, each a key of the dictionary. */
  function YearsOf(yearly: Yearly): (ys: seq<int>)
    ensures |ys| == |yearly|
    ensures forall i, j :: 0 <= i < j < |ys| ==> ys[i] <= ys[j]
    ensures forall i :: 0 <= i < |ys| ==> ys[i] in KeySet(yearly)
  {
    var ys := SortBy(KeyList(yearly), Id);
    assert forall i :: 0 <= i < |ys| ==> ys[i] in KeySet(yearly) by {
      KeyListKeys(yearly);
      forall i | 0 <= i < |ys| ensures ys[i] in KeySet(yearly) {
        SortedElements(KeyList(yearly), Id, i);
      }
    }
    ys
  }

  /** `yearly[y]` for a key `y`. */
  function Row(yearly: Yearly, y: int): DebtYear
    requires y in KeySet(yearly)
  {
    LookupPresent(yearly, y);
    Lookup(yearly, y).value
  }

  /** Each step of the short-term debt loop can be computed (no TypeError). */
  predicate YoyDefined(yearly: Yearly)
  {
    var ys := YearsOf(yearly);
    forall i :: 0 <= i < |ys| - 1 ==>
      Falsy(Row(yearly, ys[i]).short_term_debt) || Row(yearly, ys[i + 1]).short_term_debt.Some?
  }

  /** st_debt_yoy_growth: the growth of short-term debt for each consecutive pair of sorted years. */
  function StDebtGrowth(yearly: Yearly): (g: seq<real>)
    requires YoyDefined(yearly)
    ensures |g| == if |yearly| == 0 then 0 else |yearly| - 1
  {
    var ys := YearsOf(yearly);
    if |ys| == 0 then []
    else seq(|ys| - 1, i requires 0 <= i < |ys| - 1 =>
               DebtYoy(Row(yearly, ys[i + 1]).short_term_debt, Row(yearly, ys[i]).short_term_debt))
  }

  /** The trends dictionary: {} for fewer than two years, otherwise every entry. */
  datatype Trends =
    | NoTrends
    | Trends(debt_cagr: Option<real>, ebitda_cagr: Option<real>, lt_debt_cagr: Option<real>,
             finance_cost_cagr: Option<real>, st_debt_yoy_growth: seq<real>, revenue_cagr: Option<real>,
             debt_growth_vs_ebitda: Option<real>)

  /** debt_growth_vs_ebitda: the difference of two CAGRs when both exist. */
  function GrowthGap(debt: Option<real>, ebitda: Option<real>): (r: Option<real>)
    ensures r.Some? <==> debt.Some? && ebitda.Some?
    ensures r.Some? ==> r.value + ebitda.value == debt.value
  {
    if debt.Some? && ebitda.Some? then Some(debt.value - ebitda.value) else None
  }

  /** What compute_trend_metrics returns for the dictionary `yearly`. */
  function TrendsOf(yearly: Yearly, pow: (real, real) -> real): Trends
    requires YoyDefined(yearly)
  {
    var ys := YearsOf(yearly);
    if |ys| < 2 then NoTrends
    else
      var first := Row(yearly, ys[0]);
      var last := Row(yearly, ys[|ys| - 1]);
      var n := |ys| - 1;
      var debt := Cagr(Some(first.total_debt), Some(last.total_debt), n, pow);
      var ebitda := Cagr(first.ebitda, last.ebitda, n, pow);
      Trends(debt, ebitda, Cagr(first.long_term_debt, last.long_term_debt, n, pow),
             Cagr(first.finance_cost, last.finance_cost, n, pow), StDebtGrowth(yearly),
             Cagr(first.revenue, last.revenue, n, pow), GrowthGap(debt, ebitda))
  }

  /** The loop of compute_trend_metrics that appends one short-term debt growth per pair of years. */
  method StDebtYoyGrowth(yearly: Yearly) returns (growth: seq<real>)
    requires YoyDefined(yearly)
    ensures growth == StDebtGrowth(yearly)
  {
    var years := YearsOf(yearly);
    growth := [];
    if |years| == 0 {
      return;
    }
    var i := 1;
    while i < |years|
      invariant 1 <= i <= |years|
      invariant |growth| == i - 1
      invariant forall k :: 0 <= k < i - 1 ==>
                  growth[k] == DebtYoy(Row(yearly, years[k + 1]).short_term_debt, Row(yearly, years[k]).short_term_debt)
    {
      var stPrev := Row(yearly, years[i - 1]).short_term_debt;
      var stCurr := Row(yearly, years[i]).short_term_debt;
      growth := growth + [DebtYoy(stCurr, stPrev)];
      i := i + 1;
    }
  }

  /** compute_trend_metrics; the `financials` argument is accepted and not read. */
  method ComputeTrendMetrics(financials: seq<YearInput>, yearly: Yearly, pow: (real, real) -> real)
    returns (t: Trends)
    requires YoyDefined(yearly)
    ensures t == TrendsOf(yearly, pow)
  {
    var years := YearsOf(yearly);
    if |years| < 2 {
      return NoTrends;
    }
    var first := Row(yearly, years[0]);
    var last := Row(yearly, years[|years| - 1]);
    var numYears := |years| - 1;
    var debtCagr := Cagr(Some(first.total_debt), Some(last.total_debt), numYears, pow);
    var ltDebtCagr := Cagr(first.long_term_debt, last.long_term_debt, numYears, pow);
    var ebitdaCagr := Cagr(first.ebitda, last.ebitda, numYears, pow);
    var financeCostCagr := Cagr(first.finance_cost, last.finance_cost, numYears, pow);
    var growth := StDebtYoyGrowth(yearly);
    var revenueCagr := Cagr(first.revenue, last.revenue, numYears, pow);
    return Trends(debtCagr, ebitdaCagr, ltDebtCagr, financeCostCagr, growth, revenueCagr,
                  GrowthGap(debtCagr, ebitdaCagr));
  }

  // ------------------------------------------------------------ properties

  /**
   * {} exactly for fewer than two years; otherwise one short-term growth
   * per consecutive pair of years, and CAGRs over n = years - 1 periods
   * from the smallest to the largest year.
   */
  lemma TrendsShape(yearly: Yearly, pow: (real, real) -> real)
    requires YoyDefined(yearly)
    ensures TrendsOf(yearly, pow).NoTrends? <==> |yearly| < 2
    ensures TrendsOf(yearly, pow).Trends? ==>
              var t := TrendsOf(yearly, pow);
              var ys := YearsOf(yearly);
              && |t.st_debt_yoy_growth| == |yearly| - 1
              && (forall k :: k in KeySet(yearly) ==> ys[0] <= k <= ys[|ys| - 1])
              && t.debt_cagr == Cagr(Some(Row(yearly, ys[0]).total_debt), Some(Row(yearly, ys[|ys| - 1]).total_debt),
                                     |yearly| - 1, pow)
  {
    if |yearly| >= 2 {
      KeysBetween(yearly);
    }
  }

  /** Every key lies between the first and the last sorted year. */
  lemma KeysBetween(yearly: Yearly)
    requires yearly != []
    ensures var ys := YearsOf(yearly);
            forall k :: k in KeySet(yearly) ==> ys[0] <= k <= ys[|ys| - 1]
  {
    var ys := YearsOf(yearly);
    forall k | k in KeySet(yearly) ensures ys[0] <= k <= ys[|ys| - 1] {
      var i := KeyIndex(yearly, k);
      assert k in multiset(KeyList(yearly)) by { assert KeyList(yearly)[i] == k; }
      var j :| 0 <= j < |ys| && ys[j] == k;
    }
  }

  /** The gap between debt and EBITDA growth exists exactly when both CAGRs do, and is their difference. */
  lemma GapIsDifference(yearly: Yearly, pow: (real, real) -> real)
    requires YoyDefined(yearly) && |yearly| >= 2
    ensures var t := TrendsOf(yearly, pow);
            && t.Trends?
            && (t.debt_growth_vs_ebitda.Some? <==> t.debt_cagr.Some? && t.ebitda_cagr.Some?)
            && (t.debt_growth_vs_ebitda.Some? ==> t.debt_growth_vs_ebitda.value == t.debt_cagr.value - t.ebitda_cagr.value)
  {
  }

  /** Over a single period, a CAGR is the borrowings YoY growth of the same two values. */
  lemma CagrOnePeriod(start: real, end: real, pow: (real, real) -> real)
    requires start > 0.0 && end != 0.0
    requires pow(end / start, 1.0) == end / start
    ensures Cagr(Some(start), Some(end), 1, pow) == Some(DebtYoy(Some(end), Some(start)))
  {
    var q := end / start;
    assert start / start == 1.0;
    assert (end - start) / start == q - start / start;
    assert 1.0 / 1 as real == 1.0;
  }
}
