/**
 * apply_rules of the borrowings module: twelve rules, always all of them
 * and always in the order A1, A2, A3, A3b, B1, B2, C1, C2, D1, D2, E1, F1,
 * read from the trends and from the metrics of the largest year.
 */
module DebtRules {
  import opened Common
  import opened DebtMetrics
  import opened DebtTrend

  datatype RuleId = A1 | A2 | A3 | A3b | B1 | B2 | C1 | C2 | D1 | D2 | E1 | F1

  /** Which branch of its rule a result comes from; each has its own threshold text and reason. */
  datatype Case =
    | A1Rising | A1Healthy | A2Surge | A2Healthy | A3Distress | A3Healthy | A3bCapex | A3bHealthy
    | B1High | B1Moderate | B1Healthy | B2High | B2Stressed | B2Healthy
    | C1Unable | C1Tight | C1Comfortable | C2Pressure | C2Healthy
    | D1Risk | D1Healthy | D2Balanced | D2Healthy
    | E1High | E1Moderate | E1Healthy | F1High | F1Expensive | F1Good

  /**
   * A RuleResult as `make` builds it: the rule name follows from the id,
   * the threshold and reason from the branch; `args` holds the numbers the
   * threshold interpolates.
   */
  datatype Finding = Finding(rule_id: RuleId, flag: Flag, value: real, branch: Case, args: seq<real>)

  function RuleName(id: RuleId): string
  {
    match id
    case A1 => "Debt CAGR > EBITDA CAGR" case A2 => "ST Debt Surge"
    case A3 => "LT Debt Up, Revenue Flat" case A3b => "LT Debt + Capex"
    case B1 => "Debt-to-Equity" case B2 => "Debt-to-EBITDA"
    case C1 => "Interest Coverage" case C2 => "Finance Cost > Debt"
    case D1 => "Refinancing Risk" case D2 => "Balanced Maturity"
    case E1 => "Floating Exposure" case F1 => "WACD"
  }

  /** The threshold template; `{:.2f}` marks where an argument is interpolated. */
  function ThresholdTemplate(c: Case): string
  {
    match c
    case A1Rising => ">{:.2f}" case A1Healthy => "<={:.2f}"
    case A2Surge => ">30% for 2 yrs" case A2Healthy => "<=30%"
    case A3Distress => ">10% LT debt & <5% revenue" case A3Healthy => "<=10%"
    case A3bCapex => ">10%" case A3bHealthy => "<=10%"
    case B1High => ">1" case B1Moderate => "0.5–1" case B1Healthy => "<=0.5"
    case B2High => ">4" case B2Stressed => "2–4" case B2Healthy => "<=2"
    case C1Unable => "<1.5" case C1Tight => "1.5–3" case C1Comfortable => ">=3"
    case C2Pressure => ">{:.2f}" case C2Healthy => "<={:.2f}"
    case D1Risk => ">50%" case D1Healthy => "<=50%"
    case D2Balanced => ">=30% & >=20%" case D2Healthy => "<30% or <20%"
    case E1High => ">60%" case E1Moderate => "40–60%" case E1Healthy => "<=40%"
    case F1High => ">10%" case F1Expensive => "7–10%" case F1Good => "<=7%"
  }

  /** The reason; default_green's default is "Healthy". */
  function ReasonText(c: Case): string
  {
    match c
    case A1Rising => "Leverage increasing faster than earnings"
    case A2Surge => "Short-term rollover risk"
    case A3Distress => "Possible distress borrowing"
    case A3bCapex => "Debt funding growth capex"
    case B1High => "Highly leveraged" case B1Moderate => "Moderately leveraged"
    case B2High => "Very high leverage" case B2Stressed => "Slightly stressed"
    case C1Unable => "Unable to service interest" case C1Tight => "Tight servicing ability"
    case C1Comfortable => "Comfortable"
    case C2Pressure => "Interest rate pressure"
    case D1Risk => "High refinancing risk"
    case D2Balanced => "Good maturity spread"
    case E1High => "High rate sensitivity" case E1Moderate => "Moderate risk"
    case F1High => "Very high cost" case F1Expensive => "Somewhat expensive" case F1Good => "Good borrowing rate"
    case _ => "Healthy"
  }

  function Threshold(f: Finding): Text { Text(ThresholdTemplate(f.branch), f.args) }

  function Reason(f: Finding): string { ReasonText(f.branch) }

  /** default_green: a GREEN result. */
  function DefaultGreen(id: RuleId, value: real, c: Case, args: seq<real>): (r: Finding)
    ensures r.flag == GREEN && r.rule_id == id && r.value == value
  {
    Finding(id, GREEN, value, c, args)
  }

  /**
   * The three-band classification of B1, B2, E1 and F1: above `high` is
   * RED, above `moderate` up to `high` YELLOW, otherwise GREEN.
   */
  function Band(v: real, high: real, moderate: real): (f: Flag)
    requires moderate <= high
    ensures f == RED <==> v > high
    ensures f == YELLOW <==> moderate < v <= high
    ensures f == GREEN <==> v <= moderate
  {
    if v > high then RED else if v > moderate then YELLOW else GREEN
  }

  function Pick<T>(f: Flag, red: T, yellow: T, green: T): T
  {
    if f == RED then red else if f == YELLOW then yellow else green
  }

  // ------------------------------------------------------------ the rules

  /** A1: debt growing faster than EBITDA is RED. */
  function RuleA1(debtCagr: real, ebitdaCagr: real): (r: Finding)
    ensures r.rule_id == A1 && r.value == debtCagr && r.args == [ebitdaCagr]
    ensures r.flag == RED <==> debtCagr > ebitdaCagr
    ensures r.flag != RED ==> r.flag == GREEN
  {
    if debtCagr > ebitdaCagr then Finding(A1, RED, debtCagr, A1Rising, [ebitdaCagr])
    else DefaultGreen(A1, debtCagr, A1Healthy, [ebitdaCagr])
  }

  /** A2: short-term debt growth above 30 in each of the last two pairs of years is RED. */
  function RuleA2(growth: seq<real>): (r: Finding)
    ensures r.rule_id == A2
    ensures r.flag == RED <==> |growth| >= 2 && growth[|growth| - 2] > 30.0 && growth[|growth| - 1] > 30.0
    ensures r.flag != RED ==> r.flag == GREEN
    ensures r.value == if growth == [] then 0.0 else growth[|growth| - 1]
  {
    if |growth| >= 2 && growth[|growth| - 2] > 30.0 && growth[|growth| - 1] > 30.0 then
      Finding(A2, RED, growth[|growth| - 1], A2Surge, [])
    else
      DefaultGreen(A2, if growth != [] then growth[|growth| - 1] else 0.0, A2Healthy, [])
  }

  /**
   * A3: long-term debt growth above 10 with revenue growth below 5 is
   * YELLOW. Revenue growth is only compared once the first test holds.
   */
  function RuleA3(ltDebtCagr: real, revenueCagr: Option<real>): (r: Finding)
    requires ltDebtCagr > 10.0 ==> revenueCagr.Some?
    ensures r.rule_id == A3 && r.value == ltDebtCagr
    ensures r.flag == YELLOW <==> ltDebtCagr > 10.0 && revenueCagr.value < 5.0
    ensures r.flag != YELLOW ==> r.flag == GREEN
  {
    if ltDebtCagr > 10.0 && revenueCagr.value < 5.0 then Finding(A3, YELLOW, ltDebtCagr, A3Distress, [])
    else DefaultGreen(A3, ltDebtCagr, A3Healthy, [])
  }

  /** cwip / total_assets, or 0 when total_assets is 0. */
  function CwipRatio(cwip: Option<real>, totalAssets: real): (r: real)
    requires totalAssets != 0.0 ==> cwip.Some?
    ensures totalAssets == 0.0 ==> r == 0.0
    ensures totalAssets != 0.0 ==> r * totalAssets == cwip.value
  {
    if totalAssets != 0.0 then cwip.value / totalAssets else 0.0
  }

  /** A3b: GREEN either way; the capex branch when long-term debt grows and CWIP exceeds 10% of assets. */
  function RuleA3b(ltDebtCagr: real, cwipRatio: real): (r: Finding)
    ensures r.rule_id == A3b && r.value == cwipRatio && r.flag == GREEN
    ensures r.branch == A3bCapex <==> ltDebtCagr > 0.0 && cwipRatio > 0.10
  {
    if ltDebtCagr > 0.0 && cwipRatio > 0.10 then Finding(A3b, GREEN, cwipRatio, A3bCapex, [])
    else DefaultGreen(A3b, cwipRatio, A3bHealthy, [])
  }

  /** B1: debt to equity against 1 and 0.5. */
  function RuleB1(de: real): (r: Finding)
    ensures r.rule_id == B1 && r.value == de
    ensures r.flag == RED <==> de > 1.0
    ensures r.flag == YELLOW <==> 0.5 < de <= 1.0
    ensures r.flag == GREEN <==> de <= 0.5
  {
    var f := Band(de, 1.0, 0.5);
    Finding(B1, f, de, Pick(f, B1High, B1Moderate, B1Healthy), [])
  }

  /** B2: debt to EBITDA against 4 and 2. */
  function RuleB2(debtEbitda: real): (r: Finding)
    ensures r.rule_id == B2 && r.value == debtEbitda
    ensures r.flag == RED <==> debtEbitda > 4.0
    ensures r.flag == YELLOW <==> 2.0 < debtEbitda <= 4.0
    ensures r.flag == GREEN <==> debtEbitda <= 2.0
  {
    var f := Band(debtEbitda, 4.0, 2.0);
    Finding(B2, f, debtEbitda, Pick(f, B2High, B2Stressed, B2Healthy), [])
  }

  /** C1 runs the other way: coverage below 1.5 is RED, below 3 YELLOW. */
  function RuleC1(icr: real): (r: Finding)
    ensures r.rule_id == C1 && r.value == icr
    ensures r.flag == RED <==> icr < 1.5
    ensures r.flag == YELLOW <==> 1.5 <= icr < 3.0
    ensures r.flag == GREEN <==> icr >= 3.0
  {
    if icr < 1.5 then Finding(C1, RED, icr, C1Unable, [])
    else if icr < 3.0 then Finding(C1, YELLOW, icr, C1Tight, [])
    else DefaultGreen(C1, icr, C1Comfortable, [])
  }

  /** C2: finance cost growing more than 5 points faster than debt is YELLOW. */
  function RuleC2(financeCostCagr: real, debtCagr: real): (r: Finding)
    ensures r.rule_id == C2 && r.value == financeCostCagr && r.args == [debtCagr + 5.0]
    ensures r.flag == YELLOW <==> financeCostCagr - debtCagr > 5.0
    ensures r.flag != YELLOW ==> r.flag == GREEN
  {
    if financeCostCagr - debtCagr > 5.0 then Finding(C2, YELLOW, financeCostCagr, C2Pressure, [debtCagr + 5.0])
    else DefaultGreen(C2, financeCostCagr, C2Healthy, [debtCagr + 5.0])
  }

  /** D1: more than half of the debt maturing within a year is RED. */
  function RuleD1(refinancing: real): (r: Finding)
    ensures r.rule_id == D1 && r.value == refinancing
    ensures r.flag == RED <==> refinancing > 0.5
    ensures r.flag != RED ==> r.flag == GREEN
  {
    if refinancing > 0.5 then Finding(D1, RED, refinancing, D1Risk, [])
    else DefaultGreen(D1, refinancing, D1Healthy, [])
  }

  /**
   * D2: GREEN either way; balanced when at least 30% matures in one to
   * three years and at least 20% after three. The second share is only
   * compared once the first test holds.
   */
  function RuleD2(r1: real, r2: Option<real>): (r: Finding)
    requires r1 >= 0.3 ==> r2.Some?
    ensures r.rule_id == D2 && r.value == r1 && r.flag == GREEN
    ensures r.branch == D2Balanced <==> r1 >= 0.3 && r2.value >= 0.2
  {
    if r1 >= 0.3 && r2.value >= 0.2 then Finding(D2, GREEN, r1, D2Balanced, [])
    else DefaultGreen(D2, r1, D2Healthy, [])
  }

  /** E1: the floating-rate share against 0.6 and 0.4. */
  function RuleE1(floating: real): (r: Finding)
    ensures r.rule_id == E1 && r.value == floating
    ensures r.flag == RED <==> floating > 0.6
    ensures r.flag == YELLOW <==> 0.4 < floating <= 0.6
    ensures r.flag == GREEN <==> floating <= 0.4
  {
    var f := Band(floating, 0.6, 0.4);
    Finding(E1, f, floating, Pick(f, E1High, E1Moderate, E1Healthy), [])
  }

  /** F1: the weighted average cost of debt against 0.10 and 0.07. */
  function RuleF1(wacd: real): (r: Finding)
    ensures r.rule_id == F1 && r.value == wacd
    ensures r.flag == RED <==> wacd > 0.10
    ensures r.flag == YELLOW <==> 0.07 < wacd <= 0.10
    ensures r.flag == GREEN <==> wacd <= 0.07
  {
    var f := Band(wacd, 0.10, 0.07);
    Finding(F1, f, wacd, Pick(f, F1High, F1Expensive, F1Good), [])
  }

  // ------------------------------------------------------------ the catalogue

  /** The numeric trend entries the rules read. */
  datatype TrendKey = DebtCagr | EbitdaCagr | LtDebtCagr | RevenueCagr | FinanceCostCagr

  /** `trends.get(key, 0)`: 0 when the trends are {}, otherwise the entry, which may be None. */
  function TrendGet(t: Trends, k: TrendKey): (r: Option<real>)
    ensures t.NoTrends? ==> r == Some(0.0)
  {
    match t
    case NoTrends => Some(0.0)
    case Trends(debt, ebitda, lt, fc, _, rev, _) =>
      match k
      case DebtCagr => debt case EbitdaCagr => ebitda case LtDebtCagr => lt
      case RevenueCagr => rev case FinanceCostCagr => fc
  }

  /** The values apply_rules reads, as `get` returns them. */
  datatype Inputs = Inputs(
    debt_cagr: Option<real>, ebitda_cagr: Option<real>, st_growth: seq<real>,
    lt_debt_cagr: Option<real>, revenue_cagr: Option<real>, cwip: Option<real>, total_assets: real,
    de: Option<real>, debt_ebitda: Option<real>, icr: Option<real>, finance_cost_cagr: Option<real>,
    refinancing: Option<real>, r1: Option<real>, r2: Option<real>, floating: Option<real>, wacd: Option<real>)

  /** The largest key of the per-year dictionary: `max(metrics.keys())`. */
  function MaxKey(metrics: Yearly): (y: int)
    requires metrics != []
    ensures y in KeySet(metrics)
    ensures forall k :: k in KeySet(metrics) ==> k <= y
  {
    if |metrics| == 1 then metrics[0].0
    else
      var rest := MaxKey(metrics[1..]);
      if metrics[0].0 < rest then rest else metrics[0].0
  }

  /** What apply_rules reads from the trends and from the metrics of the largest year. */
  function InputsOf(metrics: Yearly, t: Trends): Inputs
    requires metrics != []
  {
    var m := Row(metrics, MaxKey(metrics));
    var growth := if t.NoTrends? then [] else t.st_debt_yoy_growth;
    Inputs(TrendGet(t, DebtCagr), TrendGet(t, EbitdaCagr), growth,
           TrendGet(t, LtDebtCagr), TrendGet(t, RevenueCagr), m.cwip, m.total_assets,
           m.de_ratio, m.debt_ebitda, m.interest_coverage, TrendGet(t, FinanceCostCagr),
           m.maturity_lt_1y_pct, m.maturity_1_3y_pct, m.maturity_gt_3y_pct, m.floating_share, m.wacd)
  }

  /**
   * Every comparison apply_rules makes has numbers on both sides: a None
   * met by `>`, `<` or `-` raises TypeError. Short-circuiting `and` spares
   * revenue growth and the over-three-years share unless the first test
   * holds.
   */
  predicate Evaluable(x: Inputs)
  {
    && x.debt_cagr.Some? && x.ebitda_cagr.Some?
    && x.lt_debt_cagr.Some? && (x.lt_debt_cagr.value > 10.0 ==> x.revenue_cagr.Some?)
    && (x.total_assets != 0.0 ==> x.cwip.Some?)
    && x.de.Some? && x.debt_ebitda.Some? && x.icr.Some? && x.finance_cost_cagr.Some?
    && x.refinancing.Some? && x.r1.Some? && (x.r1.value >= 0.3 ==> x.r2.Some?)
    && x.floating.Some? && x.wacd.Some?
  }

  /** Rules A1 to A3b. */
  function GroupA(x: Inputs): seq<Finding>
    requires Evaluable(x)
  {
    [RuleA1(x.debt_cagr.value, x.ebitda_cagr.value), RuleA2(x.st_growth),
     RuleA3(x.lt_debt_cagr.value, x.revenue_cagr),
     RuleA3b(x.lt_debt_cagr.value, CwipRatio(x.cwip, x.total_assets))]
  }

  /** Rules B1 to C2. */
  function GroupBC(x: Inputs): seq<Finding>
    requires Evaluable(x)
  {
    [RuleB1(x.de.value), RuleB2(x.debt_ebitda.value), RuleC1(x.icr.value),
     RuleC2(x.finance_cost_cagr.value, x.debt_cagr.value)]
  }

  /** Rules D1 to F1. */
  function GroupDF(x: Inputs): seq<Finding>
    requires Evaluable(x)
  {
    [RuleD1(x.refinancing.value), RuleD2(x.r1.value, x.r2), RuleE1(x.floating.value), RuleF1(x.wacd.value)]
  }

  /** What apply_rules returns. */
  function Catalogue(x: Inputs): seq<Finding>
    requires Evaluable(x)
  {
    GroupA(x) + GroupBC(x) + GroupDF(x)
  }

  /** The A rules of apply_rules. */
  method ApplyGroupA(metrics: Yearly, trends: Trends) returns (results: seq<Finding>)
    requires metrics != [] && Evaluable(InputsOf(metrics, trends))
    ensures results == GroupA(InputsOf(metrics, trends))
  {
    var m := Row(metrics, MaxKey(metrics));
    var debtCagr := TrendGet(trends, DebtCagr).value;
    var ebitdaCagr := TrendGet(trends, EbitdaCagr).value;
    results := [RuleA1(debtCagr, ebitdaCagr)];
    var stDebtGrowth := if trends.NoTrends? then [] else trends.st_debt_yoy_growth;
    results := results + [RuleA2(stDebtGrowth)];
    var ltDebtCagr := TrendGet(trends, LtDebtCagr).value;
    var revenueCagr := TrendGet(trends, RevenueCagr);
    results := results + [RuleA3(ltDebtCagr, revenueCagr)];
    var cwipRatio := if m.total_assets != 0.0 then m.cwip.value / m.total_assets else 0.0;
    results := results + [RuleA3b(ltDebtCagr, cwipRatio)];
  }

  /** The B and C rules of apply_rules. */
  method ApplyGroupBC(metrics: Yearly, trends: Trends) returns (results: seq<Finding>)
    requires metrics != [] && Evaluable(InputsOf(metrics, trends))
    ensures results == GroupBC(InputsOf(metrics, trends))
  {
    var m := Row(metrics, MaxKey(metrics));
    results := [RuleB1(m.de_ratio.value)];
    results := results + [RuleB2(m.debt_ebitda.value)];
    results := results + [RuleC1(m.interest_coverage.value)];
    var financeCostCagr := TrendGet(trends, FinanceCostCagr).value;
    results := results + [RuleC2(financeCostCagr, TrendGet(trends, DebtCagr).value)];
  }

  /** The D, E and F rules of apply_rules. */
  method ApplyGroupDF(metrics: Yearly, trends: Trends) returns (results: seq<Finding>)
    requires metrics != [] && Evaluable(InputsOf(metrics, trends))
    ensures results == GroupDF(InputsOf(metrics, trends))
  {
    var m := Row(metrics, MaxKey(metrics));
    results := [RuleD1(m.maturity_lt_1y_pct.value)];
    results := results + [RuleD2(m.maturity_1_3y_pct.value, m.maturity_gt_3y_pct)];
    results := results + [RuleE1(m.floating_share.value)];
    results := results + [RuleF1(m.wacd.value)];
  }

  /** apply_rules; the `financials` argument is accepted and not read. */
  method ApplyRules(financials: seq<YearInput>, metrics: Yearly, trends: Trends) returns (results: seq<Finding>)
    requires metrics != [] && Evaluable(InputsOf(metrics, trends))
    ensures results == Catalogue(InputsOf(metrics, trends))
  {
    var a := ApplyGroupA(metrics, trends);
    var bc := ApplyGroupBC(metrics, trends);
    var df := ApplyGroupDF(metrics, trends);
    results := a + bc + df;
  }

  // ------------------------------------------------------------ properties

  function IdsOf(fs: seq<Finding>): (ids: seq<RuleId>)
    ensures |ids| == |fs|
    ensures forall i :: 0 <= i < |fs| ==> ids[i] == fs[i].rule_id
  {
    seq(|fs|, i requires 0 <= i < |fs| => fs[i].rule_id)
  }

  lemma IdsAppend(a: seq<Finding>, b: seq<Finding>)
    ensures IdsOf(a + b) == IdsOf(a) + IdsOf(b)
  {
  }

  lemma GroupIds(x: Inputs)
    requires Evaluable(x)
    ensures IdsOf(GroupA(x)) == [A1, A2, A3, A3b] && IdsOf(GroupBC(x)) == [B1, B2, C1, C2]
    ensures IdsOf(GroupDF(x)) == [D1, D2, E1, F1]
  {
    GroupAIds(x);
    GroupBCIds(x);
    GroupDFIds(x);
  }

  lemma GroupAIds(x: Inputs)
    requires Evaluable(x)
    ensures IdsOf(GroupA(x)) == [A1, A2, A3, A3b]
  {
  }

  lemma GroupBCIds(x: Inputs)
    requires Evaluable(x)
    ensures IdsOf(GroupBC(x)) == [B1, B2, C1, C2]
  {
  }

  lemma GroupDFIds(x: Inputs)
    requires Evaluable(x)
    ensures IdsOf(GroupDF(x)) == [D1, D2, E1, F1]
  {
  }

  /** Exactly twelve results, in the fixed order. */
  lemma CatalogueOrder(x: Inputs)
    requires Evaluable(x)
    ensures |Catalogue(x)| == 12
    ensures IdsOf(Catalogue(x)) == [A1, A2, A3, A3b, B1, B2, C1, C2, D1, D2, E1, F1]
  {
    GroupIds(x);
    IdsAppend(GroupA(x), GroupBC(x));
    IdsAppend(GroupA(x) + GroupBC(x), GroupDF(x));
  }

  predicate Graded(rs: seq<Finding>)
  {
    forall i :: 0 <= i < |rs| ==> rs[i].flag in {RED, YELLOW, GREEN}
  }

  lemma GroupFlags(x: Inputs)
    requires Evaluable(x)
    ensures GroupA(x)[3].flag == GREEN && GroupDF(x)[1].flag == GREEN
    ensures Graded(GroupA(x)) && Graded(GroupBC(x)) && Graded(GroupDF(x))
  {
    GroupAFlags(x);
    GroupBCFlags(x);
    GroupDFFlags(x);
  }

  lemma GroupAFlags(x: Inputs)
    requires Evaluable(x)
    ensures GroupA(x)[3].flag == GREEN && Graded(GroupA(x))
  {
  }

  lemma GroupBCFlags(x: Inputs)
    requires Evaluable(x)
    ensures Graded(GroupBC(x))
  {
  }

  lemma GroupDFFlags(x: Inputs)
    requires Evaluable(x)
    ensures GroupDF(x)[1].flag == GREEN && Graded(GroupDF(x))
  {
  }

  /** A3b and D2 are GREEN in both branches; no rule gives CRITICAL, HIGH or NOT_APPLICABLE. */
  lemma CatalogueFlags(x: Inputs)
    requires Evaluable(x)
    ensures Catalogue(x)[3].flag == GREEN && Catalogue(x)[9].flag == GREEN
    ensures forall i :: 0 <= i < |Catalogue(x)| ==> Catalogue(x)[i].flag in {RED, YELLOW, GREEN}
  {
    GroupFlags(x);
    var a, bc, df := GroupA(x), GroupBC(x), GroupDF(x);
    var c := Catalogue(x);
    assert |a| == 4 && |bc| == 4 && |df| == 4;
    forall i | 0 <= i < |c| ensures c[i].flag in {RED, YELLOW, GREEN} {
      if i < 4 {
        assert c[i] == a[i];
      } else if i < 8 {
        assert c[i] == bc[i - 4];
      } else {
        assert c[i] == df[i - 8];
      }
    }
    assert c[9] == df[1];
  }

  /**
   * With trends {} (fewer than two years) every trend entry reads as 0:
   * A1, A3 and C2 are GREEN and A2 is GREEN with value 0.
   */
  lemma NoTrendsAreGreen(metrics: Yearly)
    requires metrics != [] && Evaluable(InputsOf(metrics, NoTrends))
    ensures var c := Catalogue(InputsOf(metrics, NoTrends));
            c[0].flag == GREEN && c[1].flag == GREEN && c[1].value == 0.0
            && c[2].flag == GREEN && c[7].flag == GREEN
  {
  }

  /** The rules read the metrics of the largest year. */
  lemma ReadsLatestYear(metrics: Yearly, t: Trends)
    requires metrics != []
    ensures var x := InputsOf(metrics, t);
            exists y :: y in KeySet(metrics) && (forall k :: k in KeySet(metrics) ==> k <= y)
                        && x.de == Row(metrics, y).de_ratio && x.wacd == Row(metrics, y).wacd
                        && x.floating == Row(metrics, y).floating_share
  {
    var y := MaxKey(metrics);
  }
}
