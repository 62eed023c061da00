/**
 * evaluate_rules of the liquidity module: ten results, always all of them
 * and always in the order A1, A2, A3, B1, C1, C2, C3, D1, E1, E2, read from
 * one year's metrics and from the trends.
 */
module LiquidityRules {
  import opened Common
  import opened LiquidityConfig
  import opened LiquidityMetrics
  import opened LiquidityTrend

  datatype RuleId = A1 | A2 | A3 | B1 | C1 | C2 | C3 | D1 | E1 | E2

  /**
   * Which reason a result carries: the ratio rules A1 to D1 have a single
   * reason each; E1 and E2 have one per branch of their cascades.
   */
  datatype Case =
    | Ratio
    | E1Missing | E1Collection | E1Controlled | E1Serious | E1Balanced
    | E2Missing | E2Overstock | E2HighOverstock | E2Controlled | E2Stable

  /** The dictionary `_make` builds; the name, threshold and reason follow from the id, the branch and the value. */
  datatype Finding = Finding(rule_id: RuleId, value: Option<real>, flag: Flag, branch: Case)

  function RuleName(id: RuleId): string
  {
    match id
    case A1 => "Current Ratio Adequacy" case A2 => "Quick Ratio Strength"
    case A3 => "Cash Ratio Position" case B1 => "Defensive Interval Ratio (Days)"
    case C1 => "OCF Coverage of Current Liabilities" case C2 => "OCF Coverage of Total Debt"
    case C3 => "OCF-based Interest Coverage" case D1 => "Cash Coverage of Short-Term Debt"
    case E1 => "Receivables vs OCF Trend Risk" case E2 => "Inventory vs Cash Flow Stress Check"
  }

  /** The (critical, moderate) pair of LIQUIDITY_RULES["generic"] that A1 to C2 read. */
  function BoundsOf(id: RuleId): (real, real)
  {
    match id
    case A1 => (Generic.critical_current_ratio, Generic.moderate_current_ratio)
    case A2 => (Generic.critical_quick_ratio, Generic.moderate_quick_ratio)
    case A3 => (Generic.critical_cash_ratio, Generic.moderate_cash_ratio)
    case B1 => (Generic.dir_critical_days, Generic.dir_moderate_days)
    case C1 => (Generic.ocf_cl_critical, Generic.ocf_cl_moderate)
    case C2 => (Generic.ocf_debt_critical, Generic.ocf_debt_moderate)
    case C3 => (1.0, 3.0)
    case D1 => (0.2, 1.0)
    case _ => (0.0, 0.0)
  }

  /** The threshold text; `{}` marks where a bound from the configuration is interpolated. */
  function Threshold(f: Finding): Text
  {
    match f.rule_id
    case B1 => Text("RED < {} days, YELLOW < {} days", [BoundsOf(B1).0, BoundsOf(B1).1])
    case C3 => Lit("RED <1, YELLOW <3, GREEN ≥3")
    case D1 => Lit("RED <0.2, YELLOW <1, GREEN ≥1")
    case E1 => Lit("YELLOW if Receivables YoY > 25% and OCF declining")
    case E2 => Lit("YELLOW if Inventory YoY > 25% without cash improvement")
    case _ => Text("RED < {}, YELLOW < {}", [BoundsOf(f.rule_id).0, BoundsOf(f.rule_id).1])
  }

  /** The text before and after the rounded value in a ratio rule's reason. */
  function ReasonParts(id: RuleId): (string, string)
  {
    match id
    case A1 => ("Current ratio is ", ", indicating the firm’s ability to meet short-term liabilities.")
    case A2 => ("Quick ratio is ", ", assessing liquidity excluding inventory.")
    case A3 => ("Cash ratio stands at ", ", showing immediate liquidity cover.")
    case B1 => ("DIR days = ", ", showing how long the company can operate using liquid assets alone.")
    case C1 => ("OCF/CL = ", ", measuring if operating cash flow can cover near-term obligations.")
    case C2 => ("OCF/Debt = ", ", showing long-term liquidity and repayment strength.")
    case C3 => ("OCF interest coverage = ", ", evaluating ability to service interest purely from cash flow.")
    case D1 => ("Cash/ST debt = ", ", showing if cash can immediately cover short-term borrowings.")
    case _ => ("", "")
  }

  function CaseReason(c: Case): string
  {
    match c
    case E1Missing => "Insufficient data to analyse receivables vs OCF trend."
    case E1Collection => "Receivables are growing faster than cash generation, indicating potential collection issues."
    case E1Controlled => "Receivables growth is controlled and supported by improving operating cash flow."
    case E1Serious => "Sharp receivables growth with significant OCF decline indicates serious collection risk."
    case E1Balanced => "Receivables and cash flow trends appear balanced."
    case E2Missing => "Insufficient data to analyse inventory trend."
    case E2Overstock => "Inventory is rising without supporting cash improvement, indicating over-stocking risk."
    case E2HighOverstock =>
      "Sharp inventory build-up combined with deteriorating cash position signals high over-stocking risk."
    case E2Controlled => "Inventory growth is controlled and aligned with business activity."
    case E2Stable => "Inventory levels appear stable and supported by liquidity."
    case Ratio => ""
  }

  /** The reason: a ratio rule shows its value rounded to two places, or "N/A" when it is missing. */
  function Reason(f: Finding): Text
  {
    if f.branch == Ratio then
      var (before, after) := ReasonParts(f.rule_id);
      if f.value.Some? then Text(before + "{}" + after, [Round(f.value.value, 2)]) else Lit(before + "N/A" + after)
    else Lit(CaseReason(f.branch))
  }

  /** _flag_basic: RED for a missing value or one below `critical`, YELLOW below `moderate`, else GREEN. */
  function FlagBasic(value: Option<real>, critical: real, moderate: real): (f: Flag)
    ensures f == RED <==> value.None? || value.value < critical
    ensures f == YELLOW <==> value.Some? && critical <= value.value < moderate
    ensures f == GREEN <==> value.Some? && critical <= value.value && moderate <= value.value
  {
    if value.None? then RED
    else if value.value < critical then RED
    else if value.value < moderate then YELLOW
    else GREEN
  }

  /** A ratio rule read through _flag_basic with its configured bounds. */
  function BasicRule(id: RuleId, value: Option<real>): (r: Finding)
    ensures r.rule_id == id && r.value == value && r.branch == Ratio
    ensures r.flag == FlagBasic(value, BoundsOf(id).0, BoundsOf(id).1)
  {
    Finding(id, value, FlagBasic(value, BoundsOf(id).0, BoundsOf(id).1), Ratio)
  }

  /** C3 as written: below 1 is RED, below 3 YELLOW, a missing value RED. */
  function RuleC3(icOcf: Option<real>): (r: Finding)
    ensures r.rule_id == C3 && r.value == icOcf && r.branch == Ratio
    ensures r.flag == RED <==> icOcf.None? || icOcf.value < 1.0
    ensures r.flag == GREEN <==> icOcf.Some? && icOcf.value >= 3.0
  {
    var flag := if icOcf.None? then RED else if icOcf.value < 1.0 then RED else if icOcf.value < 3.0 then YELLOW else GREEN;
    Finding(C3, icOcf, flag, Ratio)
  }

  /** D1 as written: below 0.2 is RED, below 1 YELLOW, a missing value RED. */
  function RuleD1(cashCov: Option<real>): (r: Finding)
    ensures r.rule_id == D1 && r.value == cashCov && r.branch == Ratio
    ensures r.flag == RED <==> cashCov.None? || cashCov.value < 0.2
    ensures r.flag == GREEN <==> cashCov.Some? && cashCov.value >= 1.0
  {
    var flag := if cashCov.None? then RED else if cashCov.value < 0.2 then RED else if cashCov.value < 1.0 then YELLOW else GREEN;
    Finding(D1, cashCov, flag, Ratio)
  }

  /**
   * E1's cascade. Its fourth branch (receivables above 40 with OCF below
   * -10) is never taken: such values already satisfy the second test.
   */
  function RuleE1(recvYoy: Option<real>, ocfYoy: Option<real>): (r: Finding)
    ensures r.rule_id == E1 && r.value == recvYoy
    ensures r.flag == RED <==> recvYoy.None? || ocfYoy.None?
    ensures r.flag == YELLOW <==> recvYoy.Some? && ocfYoy.Some? && recvYoy.value > 25.0 && ocfYoy.value < 0.0
    ensures r.branch != E1Serious
  {
    if recvYoy.None? || ocfYoy.None? then Finding(E1, recvYoy, RED, E1Missing)
    else if recvYoy.value > 25.0 && ocfYoy.value < 0.0 then Finding(E1, recvYoy, YELLOW, E1Collection)
    else if recvYoy.value <= 10.0 && ocfYoy.value > 0.0 then Finding(E1, recvYoy, GREEN, E1Controlled)
    else if recvYoy.value > 40.0 && ocfYoy.value < -10.0 then Finding(E1, recvYoy, RED, E1Serious)
    else Finding(E1, recvYoy, GREEN, E1Balanced)
  }

  /**
   * E2's cascade. Its third branch (inventory above 40 with a missing or
   * falling cash growth) is never taken: such values already satisfy the
   * second test.
   */
  function RuleE2(invYoy: Option<real>, cashYoy: Option<real>): (r: Finding)
    ensures r.rule_id == E2 && r.value == invYoy
    ensures r.flag == RED <==> invYoy.None?
    ensures r.flag == YELLOW <==> invYoy.Some? && invYoy.value > 25.0 && (cashYoy.None? || cashYoy.value <= 0.0)
    ensures r.branch != E2HighOverstock
  {
    if invYoy.None? then Finding(E2, invYoy, RED, E2Missing)
    else if invYoy.value > 25.0 && (cashYoy.None? || cashYoy.value <= 0.0) then Finding(E2, invYoy, YELLOW, E2Overstock)
    else if invYoy.value > 40.0 && (cashYoy.None? || cashYoy.value < -10.0) then
      Finding(E2, invYoy, RED, E2HighOverstock)
    else if invYoy.value <= 10.0 then Finding(E2, invYoy, GREEN, E2Controlled)
    else Finding(E2, invYoy, GREEN, E2Stable)
  }

  // ------------------------------------------------------------ the catalogue

  datatype YoyKey = ReceivablesYoy | OcfYoy | InventoryYoy | CashYoy

  /** `trends.get("yoy", {}).get(key, [])`. */
  function YoyList(t: Trends, k: YoyKey): seq<Option<real>>
  {
    if t.NoTrends? then []
    else match k
         case ReceivablesYoy => t.receivables_yoy
         case OcfYoy => t.ocf_yoy
         case InventoryYoy => t.inventory_yoy
         case CashYoy => t.cash_yoy
  }

  /** The last entry of a non-empty list, otherwise None. */
  function LastOf(s: seq<Option<real>>): (r: Option<real>)
    ensures s == [] ==> r.None?
    ensures s != [] ==> r == s[|s| - 1]
  {
    if s == [] then None else s[|s| - 1]
  }

  /** The ratio rules, A1 to D1. */
  function RatioRules(m: YearMetrics): (rs: seq<Finding>)
    ensures |rs| == 8
  {
    [BasicRule(A1, m.current_ratio), BasicRule(A2, m.quick_ratio), BasicRule(A3, m.cash_ratio),
     BasicRule(B1, m.defensive_interval_ratio_days), BasicRule(C1, m.ocf_to_current_liabilities),
     BasicRule(C2, m.ocf_to_total_debt), RuleC3(m.interest_coverage_ocf), RuleD1(m.cash_coverage_st_debt)]
  }

  /** The working-capital stress rules, E1 and E2, on the latest YoY values. */
  function StressRules(t: Trends): (rs: seq<Finding>)
    ensures |rs| == 2
  {
    [RuleE1(LastOf(YoyList(t, ReceivablesYoy)), LastOf(YoyList(t, OcfYoy))),
     RuleE2(LastOf(YoyList(t, InventoryYoy)), LastOf(YoyList(t, CashYoy)))]
  }

  /** What evaluate_rules returns. */
  function Catalogue(m: YearMetrics, t: Trends): seq<Finding>
  {
    RatioRules(m) + StressRules(t)
  }

  /** The A to D part of evaluate_rules. */
  method RatioBlock(m: YearMetrics) returns (rules: seq<Finding>)
    ensures rules == RatioRules(m)
  {
    rules := [];
    var cr := m.current_ratio;
    rules := rules + [Finding(A1, cr, FlagBasic(cr, Generic.critical_current_ratio, Generic.moderate_current_ratio), Ratio)];
    var qr := m.quick_ratio;
    rules := rules + [Finding(A2, qr, FlagBasic(qr, Generic.critical_quick_ratio, Generic.moderate_quick_ratio), Ratio)];
    var cashR := m.cash_ratio;
    rules := rules + [Finding(A3, cashR, FlagBasic(cashR, Generic.critical_cash_ratio, Generic.moderate_cash_ratio), Ratio)];
    var dirDays := m.defensive_interval_ratio_days;
    rules := rules + [Finding(B1, dirDays, FlagBasic(dirDays, Generic.dir_critical_days, Generic.dir_moderate_days), Ratio)];
    var ocfCl := m.ocf_to_current_liabilities;
    rules := rules + [Finding(C1, ocfCl, FlagBasic(ocfCl, Generic.ocf_cl_critical, Generic.ocf_cl_moderate), Ratio)];
    var ocfDebt := m.ocf_to_total_debt;
    rules := rules + [Finding(C2, ocfDebt, FlagBasic(ocfDebt, Generic.ocf_debt_critical, Generic.ocf_debt_moderate), Ratio)];
    rules := rules + [RuleC3(m.interest_coverage_ocf)];
    rules := rules + [RuleD1(m.cash_coverage_st_debt)];
  }

  /** The E part of evaluate_rules: the last YoY entries, None for an empty list. */
  method StressBlock(t: Trends) returns (rules: seq<Finding>)
    ensures rules == StressRules(t)
  {
    var recvYoyList := YoyList(t, ReceivablesYoy);
    var ocfYoyList := YoyList(t, OcfYoy);
    var recvYoy: Option<real> := None;
    var ocfYoy: Option<real> := None;
    if recvYoyList != [] {
      recvYoy := recvYoyList[|recvYoyList| - 1];
    }
    if ocfYoyList != [] {
      ocfYoy := ocfYoyList[|ocfYoyList| - 1];
    }
    rules := [RuleE1(recvYoy, ocfYoy)];
    var invYoyList := YoyList(t, InventoryYoy);
    var cashYoyList := YoyList(t, CashYoy);
    var invYoy: Option<real> := None;
    var cashYoy: Option<real> := None;
    if invYoyList != [] {
      invYoy := invYoyList[|invYoyList| - 1];
    }
    if cashYoyList != [] {
      cashYoy := cashYoyList[|cashYoyList| - 1];
    }
    rules := rules + [RuleE2(invYoy, cashYoy)];
  }

  /** evaluate_rules. */
  method EvaluateRules(m: YearMetrics, t: Trends) returns (rules: seq<Finding>)
    ensures rules == Catalogue(m, t)
  {
    rules := RatioBlock(m);
    var stress := StressBlock(t);
    rules := rules + stress;
  }

  // ------------------------------------------------------------ properties

  function Ids(rs: seq<Finding>): (ids: seq<RuleId>)
    ensures |ids| == |rs|
  {
    seq(|rs|, i requires 0 <= i < |rs| => rs[i].rule_id)
  }

  /** Ten results, in the order A1, A2, A3, B1, C1, C2, C3, D1, E1, E2, whatever the inputs. */
  lemma CatalogueOrder(m: YearMetrics, t: Trends)
    ensures Ids(Catalogue(m, t)) == [A1, A2, A3, B1, C1, C2, C3, D1, E1, E2]
  {
    var c := Catalogue(m, t);
    assert c[..8] == RatioRules(m) && c[8..] == StressRules(t);
  }

  /**
   * A1 to C2 classify their metric with _flag_basic on the bounds of
   * LIQUIDITY_RULES["generic"], and their threshold text shows those bounds.
   */
  lemma RatioRulesUseGeneric(m: YearMetrics)
    ensures var rs := RatioRules(m);
            forall i :: 0 <= i < 6 ==>
              rs[i].flag == FlagBasic(rs[i].value, BoundsOf(rs[i].rule_id).0, BoundsOf(rs[i].rule_id).1)
              && Threshold(rs[i]).args == [BoundPairs(Generic)[i].0, BoundPairs(Generic)[i].1]
  {
  }

  /** C3 and D1 are _flag_basic with the cut-offs 1/3 and 0.2/1, written out. */
  lemma InlineCutOffs(icOcf: Option<real>, cashCov: Option<real>)
    ensures RuleC3(icOcf).flag == FlagBasic(icOcf, 1.0, 3.0)
    ensures RuleD1(cashCov).flag == FlagBasic(cashCov, 0.2, 1.0)
  {
  }

  /** When critical <= moderate, a larger value never receives a worse flag, and a missing value gets the worst. */
  lemma FlagBasicMonotone(a: real, b: real, critical: real, moderate: real)
    requires critical <= moderate && a <= b
    ensures Severity(FlagBasic(Some(b), critical, moderate)) <= Severity(FlagBasic(Some(a), critical, moderate))
    ensures Severity(FlagBasic(Some(a), critical, moderate)) <= Severity(FlagBasic(None, critical, moderate))
  {
  }

  /** Without trends ({} for fewer than two years) E1 and E2 are both RED for lack of data. */
  lemma NoTrendsStressRed(m: YearMetrics)
    ensures var c := Catalogue(m, NoTrends);
            c[8].flag == RED && c[8].branch == E1Missing && c[9].flag == RED && c[9].branch == E2Missing
  {
  }
}
