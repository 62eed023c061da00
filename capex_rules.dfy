/**
 * evaluate_rules of the capex/CWIP module: nine flags, always all of them
 * and always in the order A1, A2, B1, B2, B3, C1, C2, D1, D2, read from
 * one year's metrics, the trends and the configured bounds. A rule whose
 * input is missing is NOT_APPLICABLE.
 */
module CapexRules {
  import opened Common
  import opened CapexMetrics
  import opened CapexTrend

  /** The capex bounds the rules read from the configuration, passed in as a record. */
  datatype Bounds = Bounds(
    capex_intensity_high: real, capex_intensity_moderate: real, capex_vs_revenue_gap_warning: real,
    cwip_pct_critical: real, cwip_pct_warning: real, asset_turnover_critical: real, asset_turnover_low: real,
    debt_funded_capex_warning: real)

  datatype RuleId = A1 | A2 | B1 | B2 | B3 | C1 | C2 | D1 | D2

  /**
   * Which branch of a rule's if/elif/else was taken: the first, second or third
   * test, or the final else that reports missing data (for B3, no pattern).
   */
  datatype Branch = First | Second | Third | Else

  /** The dictionary `flag` builds; the name, threshold and reason follow from the id and the branch. */
  datatype Finding = Finding(rule_id: RuleId, value: Option<real>, flag: Flag, branch: Branch)

  function RuleName(id: RuleId, b: Branch): string
  {
    match (id, b)
    case (A1, First) => "High Capex Intensity" case (A1, Second) => "Moderate Capex Intensity"
    case (A1, Third) => "Normal Capex" case (A1, _) => "Capex Intensity"
    case (A2, First) => "Capex Growing Too Fast" case (A2, Second) => "Capex vs Revenue Growth Normal"
    case (A2, _) => "Capex vs Revenue Growth"
    case (B1, First) => "CWIP % Critical" case (B1, Second) => "CWIP % High"
    case (B1, Third) => "CWIP % Normal" case (B1, _) => "CWIP %"
    case (B2, First) => "CWIP Increasing 3 Years" case (B2, _) => "CWIP Trend"
    case (B3, _) => "CWIP Rollover"
    case (C1, First) => "Asset Turnover Very Low" case (C1, Second) => "Asset Turnover Low"
    case (C1, Third) => "Asset Turnover Healthy" case (C1, _) => "Asset Turnover"
    case (C2, First) => "NFA Growing Too Fast" case (C2, Second) => "NFA vs Revenue Growth Normal"
    case (C2, _) => "NFA vs Revenue Growth"
    case (D1, First) => "Fully Debt Funded Capex" case (D1, Second) => "Debt-Funded Capex High"
    case (D1, Third) => "Debt-Funded Capex Low" case (D1, _) => "Debt-Funded Capex"
    case (D2, First) => "Negative FCF Coverage" case (D2, Second) => "Weak FCF Coverage"
    case (D2, Third) => "Strong FCF Coverage" case (D2, _) => "FCF Coverage"
  }

  /** The threshold text, written into the source and not derived from the configured bounds. */
  function Threshold(id: RuleId, b: Branch): string
  {
    match (id, b)
    case (A1, First) => ">0.15" case (A1, Second) => "0.10–0.15" case (A1, _) => "<0.10"
    case (A2, Second) => "Capex CAGR ≤ Revenue CAGR + 10%" case (A2, _) => "Capex CAGR > Revenue CAGR + 10%"
    case (B1, First) => ">0.40" case (B1, Second) => "0.30–0.40" case (B1, _) => "<0.30"
    case (B2, _) => "Rise 3 consecutive years"
    case (B3, _) => "CWIP↓ & NFA↑"
    case (C1, First) => "<0.7" case (C1, Second) => "0.7–1.0" case (C1, _) => ">1.0"
    case (C2, Second) => "NFA CAGR ≤ Revenue CAGR + 10%" case (C2, _) => "NFA CAGR > Revenue CAGR + 10%"
    case (D1, First) => ">=1.0" case (D1, Second) => ">=0.5" case (D1, _) => "<0.5"
    case (D2, First) => "<0" case (D2, Second) => "0–0.5" case (D2, _) => ">0.5"
  }

  function Reason(id: RuleId, b: Branch): string
  {
    match (id, b)
    case (A1, First) => "Capex intensity exceeds 15%, aggressive expansion."
    case (A1, Second) => "Capex is elevated versus revenue."
    case (A1, Third) => "Capex intensity is healthy."
    case (A2, First) => "Capex growth exceeds revenue growth by more than 10%."
    case (A2, Second) => "Capex growth in line with revenue growth."
    case (B1, First) => "CWIP > 40% of fixed assets."
    case (B1, Second) => "Heavy project pipeline indicated."
    case (B1, Third) => "CWIP as % of fixed assets is normal."
    case (B2, First) => "CWIP has risen 3 consecutive years."
    case (B2, _) => "CWIP not increasing for 3 consecutive years."
    case (B3, First) => "Projects capitalized from CWIP into NFA."
    case (B3, _) => "No CWIP rollover pattern detected or insufficient data."
    case (C1, First) => "Fixed asset turnover extremely weak."
    case (C1, Second) => "Fixed asset utilization below optimal."
    case (C1, Third) => "Good utilization of fixed assets."
    case (C2, First) => "Underutilized capacity or stranded assets."
    case (C2, Second) => "NFA growth in line with revenue growth."
    case (D1, First) => "Capex entirely funded through debt."
    case (D1, Second) => "Significant dependency on debt for capex."
    case (D1, Third) => "Capex mostly internally funded."
    case (D2, First) => "Capex executed despite negative free cash flow."
    case (D2, Second) => "Limited internal reinvestment capacity."
    case (D2, Third) => "Capex well supported by free cash flow."
    case (_, _) => "Insufficient data to evaluate."
  }

  /** A1: RED above the high bound, YELLOW above the moderate bound, else GREEN. */
  function RuleA1(ci: Option<real>, r: Bounds): (f: Finding)
    ensures f.rule_id == A1 && f.value == ci
    ensures f.flag == NOT_APPLICABLE <==> ci.None?
    ensures f.flag == RED <==> ci.Some? && ci.value > r.capex_intensity_high
    ensures f.flag == YELLOW <==> ci.Some? && ci.value <= r.capex_intensity_high && ci.value > r.capex_intensity_moderate
    ensures f.flag == GREEN <==> ci.Some? && ci.value <= r.capex_intensity_high && ci.value <= r.capex_intensity_moderate
  {
    if ci.None? then Finding(A1, None, NOT_APPLICABLE, Else)
    else if ci.value > r.capex_intensity_high then Finding(A1, ci, RED, First)
    else if ci.value > r.capex_intensity_moderate then Finding(A1, ci, YELLOW, Second)
    else Finding(A1, ci, GREEN, Third)
  }

  /** A2: YELLOW when capex CAGR exceeds revenue CAGR by more than the configured gap; never RED. */
  function RuleA2(capexCagr: Option<real>, revenueCagr: Option<real>, r: Bounds): (f: Finding)
    ensures f.rule_id == A2 && f.flag != RED
    ensures f.flag == NOT_APPLICABLE <==> capexCagr.None? || revenueCagr.None?
    ensures f.flag == YELLOW <==>
              capexCagr.Some? && revenueCagr.Some? && capexCagr.value > revenueCagr.value + r.capex_vs_revenue_gap_warning
    ensures f.value == if f.flag == NOT_APPLICABLE then None else capexCagr
  {
    if capexCagr.None? || revenueCagr.None? then Finding(A2, None, NOT_APPLICABLE, Else)
    else if capexCagr.value > revenueCagr.value + r.capex_vs_revenue_gap_warning then
      Finding(A2, capexCagr, YELLOW, First)
    else Finding(A2, capexCagr, GREEN, Second)
  }

  /** B1: RED above the critical CWIP share, YELLOW above the warning share, else GREEN. */
  function RuleB1(cwipPct: Option<real>, r: Bounds): (f: Finding)
    ensures f.rule_id == B1 && f.value == cwipPct
    ensures f.flag == NOT_APPLICABLE <==> cwipPct.None?
    ensures f.flag == RED <==> cwipPct.Some? && cwipPct.value > r.cwip_pct_critical
    ensures f.flag == YELLOW <==>
              cwipPct.Some? && cwipPct.value <= r.cwip_pct_critical && cwipPct.value > r.cwip_pct_warning
  {
    if cwipPct.None? then Finding(B1, None, NOT_APPLICABLE, Else)
    else if cwipPct.value > r.cwip_pct_critical then Finding(B1, cwipPct, RED, First)
    else if cwipPct.value > r.cwip_pct_warning then Finding(B1, cwipPct, YELLOW, Second)
    else Finding(B1, cwipPct, GREEN, Third)
  }

  /** B2: YELLOW exactly when CWIP rose three years running, else GREEN; it carries no value. */
  function RuleB2(cwipUp: bool): (f: Finding)
    ensures f.rule_id == B2 && f.value.None?
    ensures f.flag == (if cwipUp then YELLOW else GREEN)
  {
    if cwipUp then Finding(B2, None, YELLOW, First) else Finding(B2, None, GREEN, Second)
  }

  /** B3: GREEN exactly when CWIP fell while net fixed assets rose; otherwise NOT_APPLICABLE, never RED or YELLOW. */
  function RuleB3(cwipYoy: Option<real>, nfaYoy: Option<real>): (f: Finding)
    ensures f.rule_id == B3 && f.value.None?
    ensures f.flag == GREEN <==> cwipYoy.Some? && nfaYoy.Some? && cwipYoy.value < 0.0 && nfaYoy.value > 0.0
    ensures f.flag == GREEN || f.flag == NOT_APPLICABLE
  {
    if cwipYoy.Some? && nfaYoy.Some? && cwipYoy.value < 0.0 && nfaYoy.value > 0.0 then Finding(B3, None, GREEN, First)
    else Finding(B3, None, NOT_APPLICABLE, Else)
  }

  /** C1: RED below the critical turnover, YELLOW below the low turnover, else GREEN. */
  function RuleC1(at: Option<real>, r: Bounds): (f: Finding)
    ensures f.rule_id == C1 && f.value == at
    ensures f.flag == NOT_APPLICABLE <==> at.None?
    ensures f.flag == RED <==> at.Some? && at.value < r.asset_turnover_critical
    ensures f.flag == YELLOW <==> at.Some? && r.asset_turnover_critical <= at.value < r.asset_turnover_low
    ensures f.flag == GREEN <==> at.Some? && at.value >= r.asset_turnover_critical && at.value >= r.asset_turnover_low
  {
    if at.None? then Finding(C1, None, NOT_APPLICABLE, Else)
    else if at.value < r.asset_turnover_critical then Finding(C1, at, RED, First)
    else if at.value < r.asset_turnover_low then Finding(C1, at, YELLOW, Second)
    else Finding(C1, at, GREEN, Third)
  }

  /** C2: RED when the NFA CAGR exceeds the revenue CAGR by more than a fixed 0.10, else GREEN; never YELLOW. */
  function RuleC2(nfaCagr: Option<real>, revenueCagr: Option<real>): (f: Finding)
    ensures f.rule_id == C2 && f.flag != YELLOW
    ensures f.flag == NOT_APPLICABLE <==> nfaCagr.None? || revenueCagr.None?
    ensures f.flag == RED <==> nfaCagr.Some? && revenueCagr.Some? && nfaCagr.value > revenueCagr.value + 0.10
    ensures f.value == if f.flag == NOT_APPLICABLE then None else nfaCagr
  {
    if nfaCagr.None? || revenueCagr.None? then Finding(C2, None, NOT_APPLICABLE, Else)
    else if nfaCagr.value > revenueCagr.value + 0.10 then Finding(C2, nfaCagr, RED, First)
    else Finding(C2, nfaCagr, GREEN, Second)
  }

  /** D1: RED from 1.0 up, YELLOW from the warning bound up, else GREEN. */
  function RuleD1(dfc: Option<real>, r: Bounds): (f: Finding)
    ensures f.rule_id == D1 && f.value == dfc
    ensures f.flag == NOT_APPLICABLE <==> dfc.None?
    ensures f.flag == RED <==> dfc.Some? && dfc.value >= 1.0
    ensures f.flag == YELLOW <==> dfc.Some? && dfc.value < 1.0 && dfc.value >= r.debt_funded_capex_warning
  {
    if dfc.None? then Finding(D1, None, NOT_APPLICABLE, Else)
    else if dfc.value >= 1.0 then Finding(D1, dfc, RED, First)
    else if dfc.value >= r.debt_funded_capex_warning then Finding(D1, dfc, YELLOW, Second)
    else Finding(D1, dfc, GREEN, Third)
  }

  /** D2: RED for negative coverage, YELLOW below 0.5, else GREEN. */
  function RuleD2(cov: Option<real>): (f: Finding)
    ensures f.rule_id == D2 && f.value == cov
    ensures f.flag == NOT_APPLICABLE <==> cov.None?
    ensures f.flag == RED <==> cov.Some? && cov.value < 0.0
    ensures f.flag == YELLOW <==> cov.Some? && 0.0 <= cov.value < 0.5
    ensures f.flag == GREEN <==> cov.Some? && cov.value >= 0.5
  {
    if cov.None? then Finding(D2, None, NOT_APPLICABLE, Else)
    else if cov.value < 0.0 then Finding(D2, cov, RED, First)
    else if cov.value < 0.5 then Finding(D2, cov, YELLOW, Second)
    else Finding(D2, cov, GREEN, Third)
  }

  /** What evaluate_rules returns for one year's metrics and non-empty trends. */
  function Catalogue(m: YearMetrics, t: Trends, r: Bounds): seq<Finding>
    requires t.Trends?
  {
    [RuleA1(m.capex_intensity, r), RuleA2(t.capex_cagr, t.revenue_cagr, r), RuleB1(m.cwip_pct, r),
     RuleB2(t.cwip_increasing_3y), RuleB3(m.cwip_yoy, m.nfa_yoy), RuleC1(m.asset_turnover, r),
     RuleC2(t.nfa_cagr, t.revenue_cagr), RuleD1(m.debt_funded_capex, r), RuleD2(m.fcf_coverage)]
  }

  /**
   * evaluate_rules. Empty trends ({} for fewer than two years) make its
   * first read of a CAGR raise KeyError, so they are excluded.
   */
  method EvaluateRules(m: YearMetrics, t: Trends, r: Bounds) returns (flags: seq<Finding>)
    requires t.Trends?
    ensures flags == Catalogue(m, t, r)
  {
    flags := [];
    flags := flags + [RuleA1(m.capex_intensity, r)];
    flags := flags + [RuleA2(t.capex_cagr, t.revenue_cagr, r)];
    flags := flags + [RuleB1(m.cwip_pct, r)];
    flags := flags + [RuleB2(t.cwip_increasing_3y)];
    flags := flags + [RuleB3(m.cwip_yoy, m.nfa_yoy)];
    flags := flags + [RuleC1(m.asset_turnover, r)];
    flags := flags + [RuleC2(t.nfa_cagr, t.revenue_cagr)];
    flags := flags + [RuleD1(m.debt_funded_capex, r)];
    flags := flags + [RuleD2(m.fcf_coverage)];
  }

  // ------------------------------------------------------------ properties

  /** Nine flags, always in the order A1, A2, B1, B2, B3, C1, C2, D1, D2. */
  lemma CatalogueOrder(m: YearMetrics, t: Trends, r: Bounds)
    requires t.Trends?
    ensures var c := Catalogue(m, t, r);
            |c| == 9 && [c[0].rule_id, c[1].rule_id, c[2].rule_id, c[3].rule_id, c[4].rule_id, c[5].rule_id,
                         c[6].rule_id, c[7].rule_id, c[8].rule_id] == [A1, A2, B1, B2, B3, C1, C2, D1, D2]
  {
  }

  /**
   * Each rule that reads one metric is NOT_APPLICABLE exactly when that
   * metric is missing; B2 is never NOT_APPLICABLE and B3 is whenever it
   * is not GREEN.
   */
  lemma NotApplicableMeansMissing(m: YearMetrics, t: Trends, r: Bounds)
    requires t.Trends?
    ensures var c := Catalogue(m, t, r);
            && (c[0].flag == NOT_APPLICABLE <==> m.capex_intensity.None?)
            && (c[1].flag == NOT_APPLICABLE <==> t.capex_cagr.None? || t.revenue_cagr.None?)
            && (c[2].flag == NOT_APPLICABLE <==> m.cwip_pct.None?)
            && c[3].flag != NOT_APPLICABLE
            && (c[4].flag == NOT_APPLICABLE <==> c[4].flag != GREEN)
            && (c[5].flag == NOT_APPLICABLE <==> m.asset_turnover.None?)
            && (c[6].flag == NOT_APPLICABLE <==> t.nfa_cagr.None? || t.revenue_cagr.None?)
            && (c[7].flag == NOT_APPLICABLE <==> m.debt_funded_capex.None?)
            && (c[8].flag == NOT_APPLICABLE <==> m.fcf_coverage.None?)
  {
  }

  /** With moderate at most high, a larger capex intensity never receives a better A1 flag. */
  lemma A1Monotone(x: real, y: real, r: Bounds)
    requires r.capex_intensity_moderate <= r.capex_intensity_high && x <= y
    ensures Severity(RuleA1(Some(x), r).flag) <= Severity(RuleA1(Some(y), r).flag)
  {
  }

  /** With critical at most low, a larger asset turnover never receives a worse C1 flag. */
  lemma C1Antitone(x: real, y: real, r: Bounds)
    requires r.asset_turnover_critical <= r.asset_turnover_low && x <= y
    ensures Severity(RuleC1(Some(y), r).flag) <= Severity(RuleC1(Some(x), r).flag)
  {
  }

  /**
   * The trend engine's CAGRs are percentages, so C2's fixed margin of 0.10
   * is a tenth of a percentage point although its text says "+ 10%": NFA
   * growing at 5.2% against revenue at 5.0% is already RED.
   */
  lemma C2MarginIsTiny()
    ensures RuleC2(Some(5.2), Some(5.0)).flag == RED
  {
  }
}
