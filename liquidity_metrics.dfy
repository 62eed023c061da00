/**
 * compute_per_year_metrics of the liquidity module: for each year the
 * current, quick and cash ratios, the defensive interval in days, the
 * cash-flow coverage ratios and the balances they come from.
 */
module LiquidityMetrics {
  import opened Common
  import opened Sorting

  /**
   * YearFinancials, restricted to the balances this module reads. Every
   * field is a required float of the pydantic model, so none is missing.
   */
  datatype YearFinancials = YearFinancials(
    year: int, cash_and_equivalents: real, receivables: real, inventory: real,
    current_assets: real, current_liabilities: real, short_term_debt: real, total_debt: real,
    operating_cash_flow: real, interest_expense: real, daily_operating_expenses: real,
    marketable_securities: real)

  function YearOf(f: YearFinancials): int { f.year }

  /** The dictionary compute_per_year_metrics stores for one year. */
  datatype YearMetrics = YearMetrics(
    year: int,
    current_ratio: Option<real>, quick_ratio: Option<real>, cash_ratio: Option<real>,
    defensive_interval_ratio_days: Option<real>,
    ocf_to_current_liabilities: Option<real>, ocf_to_total_debt: Option<real>,
    interest_coverage_ocf: Option<real>, cash_coverage_st_debt: Option<real>,
    cash_and_equivalents: real, marketable_securities: real, receivables: real, inventory: real,
    current_assets: real, current_liabilities: real, short_term_debt: real, total_debt: real,
    operating_cash_flow: real, daily_operating_expenses: real)

  /** `x or 0.0` on a float: only 0.0 is falsy, and it is replaced by 0.0, so the value is kept. */
  function OrZeroFloat(x: real): (r: real)
    ensures r == x
  {
    if x == 0.0 then 0.0 else x
  }

  /** safe_div on two floats: None exactly when the denominator is 0. */
  function Ratio(a: real, b: real): (r: Option<real>)
    ensures r.None? <==> b == 0.0
    ensures r.Some? ==> r.value * b == a
  {
    SafeDiv(Some(a), Some(b))
  }

  /** The body of compute_per_year_metrics's loop for one record. */
  function MetricsOf(y: YearFinancials): (m: YearMetrics)
    ensures m.year == y.year
    ensures m.current_ratio.None? <==> y.current_liabilities == 0.0
    ensures m.current_ratio.Some? ==> m.current_ratio.value * y.current_liabilities == y.current_assets
    ensures m.quick_ratio.Some? ==> m.quick_ratio.value * y.current_liabilities == y.current_assets - y.inventory
    ensures m.cash_ratio.Some? ==> m.cash_ratio.value * y.current_liabilities == y.cash_and_equivalents
    ensures m.defensive_interval_ratio_days.None? <==> y.daily_operating_expenses == 0.0
    ensures m.defensive_interval_ratio_days.Some? ==>
              m.defensive_interval_ratio_days.value * y.daily_operating_expenses
              == y.cash_and_equivalents + y.marketable_securities + y.receivables
    ensures m.ocf_to_total_debt.None? <==> y.total_debt == 0.0
  {
    var totalDebt := OrZeroFloat(y.total_debt);
    var dailyExpenses := OrZeroFloat(y.daily_operating_expenses);
    var cash := OrZeroFloat(y.cash_and_equivalents);
    var marketableSec := OrZeroFloat(y.marketable_securities);
    var receivables := OrZeroFloat(y.receivables);
    var inventory := OrZeroFloat(y.inventory);
    var currentAssets := OrZeroFloat(y.current_assets);
    var currentLiabilities := OrZeroFloat(y.current_liabilities);
    var shortTermDebt := OrZeroFloat(y.short_term_debt);
    var ocf := OrZeroFloat(y.operating_cash_flow);
    var interest := OrZeroFloat(y.interest_expense);
    var liquidAssets := cash + marketableSec + receivables;
    YearMetrics(
      y.year,
      Ratio(currentAssets, currentLiabilities), Ratio(currentAssets - inventory, currentLiabilities),
      Ratio(cash, currentLiabilities), Ratio(liquidAssets, dailyExpenses),
      Ratio(ocf, currentLiabilities), Ratio(ocf, totalDebt), Ratio(ocf, interest), Ratio(cash, shortTermDebt),
      cash, marketableSec, receivables, inventory, currentAssets, currentLiabilities, shortTermDebt,
      totalDebt, ocf, dailyExpenses)
  }

  /** Each sorted record's year paired with its metrics. */
  function Entries(s: seq<YearFinancials>): (kv: seq<(int, YearMetrics)>)
    ensures |kv| == |s|
  {
    if s == [] then []
    else Entries(s[..|s| - 1]) + [(s[|s| - 1].year, MetricsOf(s[|s| - 1]))]
  }

  /** What compute_per_year_metrics returns: each sorted record stored under its year in turn. */
  function PerYearOf(financials: seq<YearFinancials>): seq<(int, YearMetrics)>
  {
    StoreAll(Entries(SortBy(financials, YearOf)))
  }

  /** compute_per_year_metrics. */
  method ComputePerYearMetrics(financials: seq<YearFinancials>) returns (metrics: seq<(int, YearMetrics)>)
    ensures metrics == PerYearOf(financials)
  {
    metrics := [];
    var sortedFin := SortBy(financials, YearOf);
    var i := 0;
    while i < |sortedFin|
      invariant 0 <= i <= |sortedFin|
      invariant metrics == StoreAll(Entries(sortedFin[..i]))
    {
      var y := sortedFin[i];
      metrics := Store(metrics, y.year, MetricsOf(y));
      assert sortedFin[..i + 1][..i] == sortedFin[..i];
      i := i + 1;
    }
    assert sortedFin[..i] == sortedFin;
  }

  // ------------------------------------------------------------ properties

  /**
   * The three liquidity ratios divide by current liabilities and are None
   * exactly when they are 0; quick excludes inventory.
   */
  lemma RatiosOfYear(y: YearFinancials)
    ensures var m := MetricsOf(y);
            && (m.current_ratio.None? <==> y.current_liabilities == 0.0)
            && (m.quick_ratio.None? <==> y.current_liabilities == 0.0)
            && (m.cash_ratio.None? <==> y.current_liabilities == 0.0)
            && (m.current_ratio.Some? ==> m.current_ratio.value * y.current_liabilities == y.current_assets)
            && (m.quick_ratio.Some? ==>
                  m.quick_ratio.value * y.current_liabilities == y.current_assets - y.inventory)
            && (m.cash_ratio.Some? ==> m.cash_ratio.value * y.current_liabilities == y.cash_and_equivalents)
  {
  }

  /**
   * The defensive interval covers daily expenses from cash, marketable
   * securities and receivables; it is None exactly when those expenses are 0.
   */
  lemma DefensiveInterval(y: YearFinancials)
    ensures var d := MetricsOf(y).defensive_interval_ratio_days;
            && (d.None? <==> y.daily_operating_expenses == 0.0)
            && (d.Some? ==> d.value * y.daily_operating_expenses
                              == y.cash_and_equivalents + y.marketable_securities + y.receivables)
  {
  }

  /**
   * OCF over current liabilities, total debt and interest, and cash over
   * short-term debt, are each None exactly when their denominator is 0.
   */
  lemma CoverageRatios(y: YearFinancials)
    ensures var m := MetricsOf(y);
            && (m.ocf_to_current_liabilities.None? <==> y.current_liabilities == 0.0)
            && (m.ocf_to_total_debt.None? <==> y.total_debt == 0.0)
            && (m.interest_coverage_ocf.None? <==> y.interest_expense == 0.0)
            && (m.cash_coverage_st_debt.None? <==> y.short_term_debt == 0.0)
            && (m.ocf_to_total_debt.Some? ==> m.ocf_to_total_debt.value * y.total_debt == y.operating_cash_flow)
            && (m.interest_coverage_ocf.Some? ==>
                  m.interest_coverage_ocf.value * y.interest_expense == y.operating_cash_flow)
            && (m.cash_coverage_st_debt.Some? ==>
                  m.cash_coverage_st_debt.value * y.short_term_debt == y.cash_and_equivalents)
  {
  }

  lemma {:induction false} EntriesAt(s: seq<YearFinancials>, i: nat)
    requires i < |s|
    ensures Entries(s)[i] == (s[i].year, MetricsOf(s[i]))
  {
    if i < |s| - 1 {
      EntriesAt(s[..|s| - 1], i);
    }
  }

  /** The keys of the result are exactly the years of the records. */
  lemma PerYearKeys(financials: seq<YearFinancials>)
    ensures KeySet(PerYearOf(financials)) == set f | f in financials :: f.year
  {
    var sorted := SortBy(financials, YearOf);
    var kv := Entries(sorted);
    forall y | y in KeySet(kv) ensures y in set f | f in financials :: f.year {
      var i := KeyIndex(kv, y);
      EntriesAt(sorted, i);
      SortedElements(financials, YearOf, i);
    }
    forall f | f in financials ensures f.year in KeySet(kv) {
      assert f in multiset(sorted) by { assert f in multiset(financials); }
      var i :| 0 <= i < |sorted| && sorted[i] == f;
      EntriesAt(sorted, i);
      KeyListed(kv, i);
    }
  }

  /** There is one entry per year, and the years strictly increase along the dictionary. */
  lemma PerYearAscending(financials: seq<YearFinancials>)
    ensures Ascending(PerYearOf(financials))
  {
    var sorted := SortBy(financials, YearOf);
    var kv := Entries(sorted);
    forall i, j | 0 <= i < j < |kv| ensures kv[i].0 <= kv[j].0 {
      EntriesAt(sorted, i);
      EntriesAt(sorted, j);
    }
    StoreAllAscending(kv);
  }

  /**
   * Each year holds the metrics of a record of that year, the last such
   * record after sorting (an earlier record with the same year is replaced).
   */
  lemma PerYearValue(financials: seq<YearFinancials>, y: int) returns (f: YearFinancials)
    requires y in set g | g in financials :: g.year
    ensures f in financials && f.year == y
    ensures Lookup(PerYearOf(financials), y) == Some(MetricsOf(f))
  {
    var sorted := SortBy(financials, YearOf);
    var kv := Entries(sorted);
    PerYearKeys(financials);
    var j := StoreAllLookup(kv, y);
    EntriesAt(sorted, j);
    SortedElements(financials, YearOf, j);
    f := sorted[j];
  }
}
