/**
 * metrics_engine of the capex/CWIP module: the per-year capex, CWIP and
 * asset-efficiency metrics computed from a year's record and the record
 * it is paired with, and the series CAGR helper.
 */
module CapexMetrics {
  import opened Common

  /**
   * One year's record as the orchestrator reads it; None stands for an
   * amount whose value is None (every key is present, since the engine
   * reads `curr["capex"]` and the like directly).
   */
  datatype CapexYear = CapexYear(
    year: int, capex: Option<real>, revenue: Option<real>, cwip: Option<real>,
    net_fixed_assets: Option<real>, operating_cash_flow: Option<real>, free_cash_flow: Option<real>,
    long_term_debt: Option<real>)

  /** The dictionary compute_year_metrics returns. */
  datatype YearMetrics = YearMetrics(
    capex_intensity: Option<real>, cwip_pct: Option<real>, nfa_cwip_total: real,
    cwip_yoy: Option<real>, capex_yoy: Option<real>, revenue_yoy: Option<real>, nfa_yoy: Option<real>,
    asset_turnover: Option<real>, fcf_coverage: Option<real>, debt_funded_capex: Option<real>)

  /**
   * When compute_year_metrics does not raise: with a paired record, the
   * four differences it takes outside safe_div need both operands, and so
   * does the debt growth once the paired long-term debt is present.
   */
  predicate Computable(curr: CapexYear, prev: Option<CapexYear>)
  {
    prev.None? ||
    (curr.cwip.Some? && prev.value.cwip.Some? && curr.capex.Some? && prev.value.capex.Some?
     && curr.revenue.Some? && prev.value.revenue.Some?
     && curr.net_fixed_assets.Some? && prev.value.net_fixed_assets.Some?
     && (prev.value.long_term_debt.Some? ==> curr.long_term_debt.Some?))
  }

  /** `safe_div(curr - prev, prev)` on two present amounts. */
  function Growth(curr: real, prev: real): (r: Option<real>)
    ensures r.None? <==> prev == 0.0
    ensures r.Some? ==> r.value * prev == curr - prev
  {
    SafeDiv(Some(curr - prev), Some(prev))
  }

  /** compute_year_metrics(curr, prev). */
  function YearMetricsOf(curr: CapexYear, prev: Option<CapexYear>): (m: YearMetrics)
    requires Computable(curr, prev)
    ensures m.capex_intensity.Some? ==>
              && curr.capex.Some? && curr.revenue.Some?
              && m.capex_intensity.value * curr.revenue.value == curr.capex.value
    ensures m.cwip_pct.Some? ==>
              && curr.cwip.Some? && curr.net_fixed_assets.Some?
              && m.cwip_pct.value * (curr.cwip.value + curr.net_fixed_assets.value) == curr.cwip.value
    ensures prev.None? ==>
              m.cwip_yoy.None? && m.capex_yoy.None? && m.revenue_yoy.None? && m.nfa_yoy.None?
              && m.debt_funded_capex.None?
  {
    var cwip := curr.cwip;
    var nfa := curr.net_fixed_assets;
    var ltDebtPrev := if prev.Some? then prev.value.long_term_debt else None;
    YearMetrics(
      SafeDiv(curr.capex, curr.revenue),
      if cwip.Some? && nfa.Some? then SafeDiv(cwip, Some(cwip.value + nfa.value)) else None,
      OrZero(cwip) + OrZero(nfa),
      if prev.Some? then Growth(cwip.value, prev.value.cwip.value) else None,
      if prev.Some? then Growth(curr.capex.value, prev.value.capex.value) else None,
      if prev.Some? then Growth(curr.revenue.value, prev.value.revenue.value) else None,
      if prev.Some? then Growth(nfa.value, prev.value.net_fixed_assets.value) else None,
      SafeDiv(curr.revenue, nfa),
      SafeDiv(curr.free_cash_flow, curr.capex),
      if prev.Some? && ltDebtPrev.Some? then SafeDiv(Some(curr.long_term_debt.value - ltDebtPrev.value), curr.capex)
      else None)
  }

  // ------------------------------------------------------------ properties

  /**
   * capex_intensity is capex over revenue, asset_turnover revenue over net
   * fixed assets and fcf_coverage free cash flow over capex; each is None
   * exactly when its numerator is missing or its denominator missing or 0.
   */
  lemma EfficiencyRatios(curr: CapexYear, prev: Option<CapexYear>)
    requires Computable(curr, prev)
    ensures var m := YearMetricsOf(curr, prev);
            && (m.capex_intensity.None? <==> curr.capex.None? || Falsy(curr.revenue))
            && (m.capex_intensity.Some? ==> m.capex_intensity.value * curr.revenue.value == curr.capex.value)
            && (m.asset_turnover.None? <==> curr.revenue.None? || Falsy(curr.net_fixed_assets))
            && (m.asset_turnover.Some? ==>
                  m.asset_turnover.value * curr.net_fixed_assets.value == curr.revenue.value)
            && (m.fcf_coverage.None? <==> curr.free_cash_flow.None? || Falsy(curr.capex))
            && (m.fcf_coverage.Some? ==> m.fcf_coverage.value * curr.capex.value == curr.free_cash_flow.value)
  {
    var m := YearMetricsOf(curr, prev);
    assert m.capex_intensity == SafeDiv(curr.capex, curr.revenue);
    assert m.asset_turnover == SafeDiv(curr.revenue, curr.net_fixed_assets);
    assert m.fcf_coverage == SafeDiv(curr.free_cash_flow, curr.capex);
  }

  /**
   * cwip_pct is CWIP over CWIP plus net fixed assets, computed only when
   * both are present; nfa_cwip_total counts a missing amount as 0.
   */
  lemma CwipShare(curr: CapexYear, prev: Option<CapexYear>)
    requires Computable(curr, prev)
    ensures var m := YearMetricsOf(curr, prev);
            && (m.cwip_pct.Some? <==>
                  curr.cwip.Some? && curr.net_fixed_assets.Some? && curr.cwip.value + curr.net_fixed_assets.value != 0.0)
            && (m.cwip_pct.Some? ==>
                  m.cwip_pct.value * (curr.cwip.value + curr.net_fixed_assets.value) == curr.cwip.value)
            && m.nfa_cwip_total == OrZero(curr.cwip) + OrZero(curr.net_fixed_assets)
  {
  }

  /** Without a paired record every YoY metric and debt_funded_capex is None. */
  lemma NoPairNoGrowth(curr: CapexYear)
    ensures var m := YearMetricsOf(curr, None);
            m.cwip_yoy.None? && m.capex_yoy.None? && m.revenue_yoy.None? && m.nfa_yoy.None?
            && m.debt_funded_capex.None?
  {
  }

  /**
   * With a paired record each YoY metric is the change over the paired
   * value, None exactly when that value is 0.
   */
  lemma PairedGrowth(curr: CapexYear, prev: CapexYear)
    requires Computable(curr, Some(prev))
    ensures var m := YearMetricsOf(curr, Some(prev));
            && (m.cwip_yoy.None? <==> prev.cwip.value == 0.0)
            && (m.cwip_yoy.Some? ==> m.cwip_yoy.value * prev.cwip.value == curr.cwip.value - prev.cwip.value)
            && (m.capex_yoy.None? <==> prev.capex.value == 0.0)
            && (m.revenue_yoy.None? <==> prev.revenue.value == 0.0)
            && (m.nfa_yoy.None? <==> prev.net_fixed_assets.value == 0.0)
            && (m.nfa_yoy.Some? ==>
                  m.nfa_yoy.value * prev.net_fixed_assets.value == curr.net_fixed_assets.value - prev.net_fixed_assets.value)
  {
  }

  /**
   * debt_funded_capex is the growth in long-term debt over capex; it is
   * None when the paired debt is missing or capex is missing or 0.
   */
  lemma DebtFundedCapex(curr: CapexYear, prev: CapexYear)
    requires Computable(curr, Some(prev))
    ensures var d := YearMetricsOf(curr, Some(prev)).debt_funded_capex;
            && (d.None? <==> prev.long_term_debt.None? || Falsy(curr.capex))
            && (d.Some? ==> d.value * curr.capex.value == curr.long_term_debt.value - prev.long_term_debt.value)
  {
  }

  // ------------------------------------------------------------ series CAGR

  /**
   * compute_cagr(series) of metrics_engine: the missing values are dropped;
   * None for fewer than two values left or a first value not above 0;
   * otherwise a fraction over one period fewer than the values. `pow`
   * stands for Python's `**` on floats.
   */
  function SeriesCagr(series: seq<Option<real>>, pow: (real, real) -> real): (r: Option<real>)
    ensures r.None? <==> |Present(series)| < 2 || Present(series)[0] <= 0.0
  {
    var vs := Present(series);
    if |vs| < 2 then None
    else if vs[0] <= 0.0 then None
    else Some(pow(vs[|vs| - 1] / vs[0], 1.0 / (|vs| - 1) as real) - 1.0)
  }

  /** Present keeps exactly the present values, in order. */
  lemma {:induction false} PresentSnoc(s: seq<Option<real>>, x: Option<real>)
    ensures Present(s + [x]) == Present(s) + (if x.Some? then [x.value] else [])
  {
    if s == [] {
      assert s + [x] == [x];
    } else {
      assert (s + [x])[1..] == s[1..] + [x];
      PresentSnoc(s[1..], x);
    }
  }

  /**
   * The series CAGR is a fraction where the trend engine's compute_cagr is
   * a percentage: over the first and last present values and the same
   * number of periods, the two differ by a factor of 100 whenever the last
   * value is not 0 (at 0 the trend engine gives None instead).
   */
  lemma SeriesCagrIsFraction(series: seq<Option<real>>, pow: (real, real) -> real)
    requires SeriesCagr(series, pow).Some?
    ensures var vs := Present(series);
            && |vs| >= 2 && vs[0] > 0.0
            && (vs[|vs| - 1] != 0.0 ==>
                  Cagr(Some(vs[0]), Some(vs[|vs| - 1]), |vs| - 1, pow) == Some(SeriesCagr(series, pow).value * 100.0))
            && (vs[|vs| - 1] == 0.0 ==> Cagr(Some(vs[0]), Some(vs[|vs| - 1]), |vs| - 1, pow).None?)
  {
  }

  /** Missing values never change the series CAGR. */
  lemma SeriesCagrSkipsMissing(series: seq<Option<real>>, pow: (real, real) -> real)
    ensures SeriesCagr(series + [None], pow) == SeriesCagr(series, pow)
  {
    PresentSnoc(series, None);
    assert Present(series + [None]) == Present(series);
  }
}
