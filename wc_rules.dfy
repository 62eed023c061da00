/**
 * wc_rule_engine: the nine working-capital rules (A1 to E2) applied to the
 * latest year's metrics and the latest year-on-year growth of each series.
 * DSO, DIO, DPO and CCC rules always fire; the growth rules fire only when
 * both of their growths exist, E1 only with an NWC ratio and E2 only with
 * both CAGRs.
 */
module WcRules {
  import opened Common
  import opened WcModels
  import opened WcTrend

  datatype RuleId = A1 | A2 | B1 | B2 | C1 | C2 | D1 | E1 | E2

  /**
   * Which branch of its rule a result comes from; each branch has its own
   * threshold text and reason.
   */
  datatype Case =
    | A1Above | A1Between | A1Below | A2Fired | A2Normal
    | B1Above | B1Between | B1Below | B2Fired | B2Normal
    | C1Above | C1Below | C1Within | C2Fired | C2Normal
    | D1Above | D1Between | D1Below
    | E1Above | E1Between | E1Below | E2Fired | E2Normal

  /**
   * A RuleResult: its rule name and metric follow from the rule, its
   * threshold and reason from the branch, and its year is always the label
   * "Latest". `args` holds the numbers a reason interpolates.
   */
  datatype Finding = Finding(rule_id: RuleId, flag: Flag, value: real, branch: Case, args: seq<real>)

  function RuleName(id: RuleId): string
  {
    match id
    case A1 => "DSO vs Benchmark"
    case A2 => "Receivables vs Revenue Growth"
    case B1 => "DIO Threshold"
    case B2 => "Inventory Growth vs Revenue"
    case C1 => "DPO Interpretation"
    case C2 => "Payables Decline with Revenue Growth"
    case D1 => "CCC Threshold"
    case E1 => "NWC/Revenue Ratio"
    case E2 => "NWC CAGR vs Revenue CAGR"
  }

  function Metric(id: RuleId): string
  {
    match id
    case A1 => "dso" case A2 => "receivables_yoy" case B1 => "dio" case B2 => "inventory_yoy"
    case C1 => "dpo" case C2 => "payables_yoy" case D1 => "ccc" case E1 => "nwc_ratio" case E2 => "nwc_cagr"
  }

  const YearLabel := "Latest"

  function Threshold(c: Case): string
  {
    match c
    case A1Above => ">75" case A1Between => "60–75" case A1Below => "<60"
    case A2Fired => "Receivables YoY >20% & Revenue YoY <10%" case A2Normal => "Normal"
    case B1Above => ">120" case B1Between => "90–120" case B1Below => "<90"
    case B2Fired => ">20% inventory YoY & Revenue YoY <5%" case B2Normal => "Normal"
    case C1Above => ">90" case C1Below => "<30" case C1Within => "30–90"
    case C2Fired => "<-10% & Revenue YoY >5%" case C2Normal => "Normal"
    case D1Above => ">180" case D1Between => "120–180" case D1Below => "<120"
    case E1Above => ">0.25" case E1Between => "0.15–0.25" case E1Below => "<0.15"
    case E2Fired => "NWC CAGR > Revenue CAGR +10%" case E2Normal => "Normal"
  }

  /** The reason template; `{:.1f}` marks where an argument is interpolated. */
  function ReasonTemplate(c: Case): string
  {
    match c
    case A1Above => "DSO above 75 days — very slow collections and elevated credit risk."
    case A1Between => "DSO between 60–75 days — moderate delay in customer collections."
    case A1Below => "Healthy collection cycle with DSO below 60 days."
    case A2Fired => "Receivables rising faster ({:.1f}%) than revenue ({:.1f}%) — potential credit risk buildup."
    case A2Normal => "Receivable and revenue growth trends appear aligned."
    case B1Above => "DIO above 120 — slow-moving inventory, working capital at risk."
    case B1Between => "DIO between 90–120 — moderate buildup of inventory."
    case B1Below => "Healthy inventory turnover with DIO below 90 days."
    case B2Fired => "Inventory rising faster ({:.1f}%) than revenue ({:.1f}%) — possible over-stocking or demand slowdown."
    case B2Normal => "Inventory and revenue trends are aligned."
    case C1Above => "DPO above 90 — company relying heavily on supplier credit (could indicate stress)."
    case C1Below => "DPO below 30 — paying suppliers too early, inefficient working capital usage."
    case C1Within => "Healthy supplier payment cycle."
    case C2Fired => "Payables falling ({:.1f}%) while revenue rising ({:.1f}%) — losing supplier credit or tighter payment terms."
    case C2Normal => "Payables behaviour is normal relative to revenue growth."
    case D1Above => "Cash conversion cycle above 180 days — severe WC pressure."
    case D1Between => "CCC between 120–180 days — high cash lock-up in working capital."
    case D1Below => "Efficient cash cycle with CCC under 120 days."
    case E1Above => "Net Working Capital above 25% of revenue — excessive WC tied up."
    case E1Between => "Elevated NWC levels relative to revenue."
    case E1Below => "Healthy NWC positioning relative to revenue."
    case E2Fired => "NWC growing significantly faster than revenue — WC inefficiency worsening."
    case E2Normal => "NWC growth in line with revenue growth."
  }

  function Reason(f: Finding): Text
  {
    Text(ReasonTemplate(f.branch), f.args)
  }

  /** The entries of `metrics["latest"]` the engine reads. */
  datatype Latest = Latest(dso: Option<real>, dio: Option<real>, dpo: Option<real>, ccc: Option<real>,
                           nwc_ratio: Option<real>, nwc_cagr: Option<real>, revenue_cagr: Option<real>)

  /** DSO, DIO, DPO and CCC are compared with numbers, so a None among them raises TypeError. */
  predicate Comparable(l: Latest)
  {
    l.dso.Some? && l.dio.Some? && l.dpo.Some? && l.ccc.Some?
  }

  type Trends = seq<(Amount, MetricTrend)>

  /** get_latest_yoy: the "Y_vs_Y-1" growth of a series, None when the series or the entry is missing. */
  function LatestYoyOf(trends: Trends, a: Amount): (r: Option<real>)
    ensures Lookup(trends, a).None? ==> r.None?
    ensures Lookup(trends, a).Some? ==>
              r == match Lookup(Lookup(trends, a).value.yoy_growth_pct, Vs(Y, YMinus(1)))
                   case None => None case Some(v) => v
  {
    match Lookup(trends, a)
    case None => None
    case Some(t) =>
      match Lookup(t.yoy_growth_pct, Vs(Y, YMinus(1)))
      case None => None
      case Some(v) => v
  }

  /**
   * The three-band classification of A1, B1, D1 and E1: above `high` is
   * RED, from `moderate` up to `high` YELLOW, below `moderate` GREEN.
   */
  function Tier(v: real, high: real, moderate: real): (f: Flag)
    requires moderate <= high
    ensures f == RED <==> v > high
    ensures f == YELLOW <==> moderate <= v <= high
    ensures f == GREEN <==> v < moderate
  {
    if v > high then RED else if moderate <= v <= high then YELLOW else GREEN
  }

  /** A higher value never earns a milder band. */
  lemma TierMonotone(v: real, w: real, high: real, moderate: real)
    requires moderate <= high && v <= w
    ensures Tier(v, high, moderate) == RED ==> Tier(w, high, moderate) == RED
    ensures Tier(w, high, moderate) == GREEN ==> Tier(v, high, moderate) == GREEN
  {
  }

  function Pick<T>(f: Flag, red: T, yellow: T, green: T): T
  {
    if f == RED then red else if f == YELLOW then yellow else green
  }

  // ------------------------------------------------------------ the rules

  /** A1: DSO against 75 and 60 days. */
  function RuleA1(dso: real): (r: Finding)
    ensures r.rule_id == A1 && r.value == dso
    ensures r.flag == RED <==> dso > 75.0
    ensures r.flag == YELLOW <==> 60.0 <= dso <= 75.0
    ensures r.flag == GREEN <==> dso < 60.0
  {
    var f := Tier(dso, 75.0, 60.0);
    Finding(A1, f, dso, Pick(f, A1Above, A1Between, A1Below), [])
  }

  /** A2: receivables growth above 20 while revenue growth is below 10 is YELLOW. */
  function RuleA2(rcv: real, rev: real): (r: Finding)
    ensures r.rule_id == A2 && r.value == rcv
    ensures r.flag == YELLOW <==> rcv > 20.0 && rev < 10.0
    ensures r.flag != YELLOW ==> r.flag == GREEN
  {
    if rcv > 20.0 && rev < 10.0 then Finding(A2, YELLOW, rcv, A2Fired, [rcv, rev])
    else Finding(A2, GREEN, rcv, A2Normal, [])
  }

  /** B1: DIO against 120 and 90 days. */
  function RuleB1(dio: real): (r: Finding)
    ensures r.rule_id == B1 && r.value == dio
    ensures r.flag == RED <==> dio > 120.0
    ensures r.flag == YELLOW <==> 90.0 <= dio <= 120.0
    ensures r.flag == GREEN <==> dio < 90.0
  {
    var f := Tier(dio, 120.0, 90.0);
    Finding(B1, f, dio, Pick(f, B1Above, B1Between, B1Below), [])
  }

  /** B2: inventory growth above 20 while revenue growth is below 5 is YELLOW. */
  function RuleB2(inv: real, rev: real): (r: Finding)
    ensures r.rule_id == B2 && r.value == inv
    ensures r.flag == YELLOW <==> inv > 20.0 && rev < 5.0
    ensures r.flag != YELLOW ==> r.flag == GREEN
  {
    if inv > 20.0 && rev < 5.0 then Finding(B2, YELLOW, inv, B2Fired, [inv, rev])
    else Finding(B2, GREEN, inv, B2Normal, [])
  }

  /** C1: DPO outside 30 to 90 days is YELLOW on either side; C1 is never RED. */
  function RuleC1(dpo: real): (r: Finding)
    ensures r.rule_id == C1 && r.value == dpo
    ensures r.flag == YELLOW <==> dpo > 90.0 || dpo < 30.0
    ensures r.flag == GREEN <==> 30.0 <= dpo <= 90.0
  {
    if dpo > 90.0 then Finding(C1, YELLOW, dpo, C1Above, [])
    else if dpo < 30.0 then Finding(C1, YELLOW, dpo, C1Below, [])
    else Finding(C1, GREEN, dpo, C1Within, [])
  }

  /** C2: payables falling by more than 10 while revenue grows by more than 5 is YELLOW. */
  function RuleC2(pay: real, rev: real): (r: Finding)
    ensures r.rule_id == C2 && r.value == pay
    ensures r.flag == YELLOW <==> pay < -10.0 && rev > 5.0
    ensures r.flag != YELLOW ==> r.flag == GREEN
  {
    if pay < -10.0 && rev > 5.0 then Finding(C2, YELLOW, pay, C2Fired, [pay, rev])
    else Finding(C2, GREEN, pay, C2Normal, [])
  }

  /** D1: CCC against 180 and 120 days. */
  function RuleD1(ccc: real): (r: Finding)
    ensures r.rule_id == D1 && r.value == ccc
    ensures r.flag == RED <==> ccc > 180.0
    ensures r.flag == YELLOW <==> 120.0 <= ccc <= 180.0
    ensures r.flag == GREEN <==> ccc < 120.0
  {
    var f := Tier(ccc, 180.0, 120.0);
    Finding(D1, f, ccc, Pick(f, D1Above, D1Between, D1Below), [])
  }

  /** E1: the NWC to revenue ratio against 0.25 and 0.15. */
  function RuleE1(ratio: real): (r: Finding)
    ensures r.rule_id == E1 && r.value == ratio
    ensures r.flag == RED <==> ratio > 0.25
    ensures r.flag == YELLOW <==> 0.15 <= ratio <= 0.25
    ensures r.flag == GREEN <==> ratio < 0.15
  {
    var f := Tier(ratio, 0.25, 0.15);
    Finding(E1, f, ratio, Pick(f, E1Above, E1Between, E1Below), [])
  }

  /** E2: NWC CAGR more than 0.10 above revenue CAGR is RED. */
  function RuleE2(nwcCagr: real, revCagr: real): (r: Finding)
    ensures r.rule_id == E2 && r.value == nwcCagr
    ensures r.flag == RED <==> nwcCagr > revCagr + 0.10
    ensures r.flag != RED ==> r.flag == GREEN
  {
    if nwcCagr > revCagr + 0.10 then Finding(E2, RED, nwcCagr, E2Fired, [])
    else Finding(E2, GREEN, nwcCagr, E2Normal, [])
  }

  /** Appending the result of a rule that needs two optional inputs: only when both exist. */
  function EmitPair(acc: seq<Finding>, x: Option<real>, y: Option<real>, rule: (real, real) -> Finding)
    : (r: seq<Finding>)
    ensures x.Some? && y.Some? ==> r == acc + [rule(x.value, y.value)]
    ensures !(x.Some? && y.Some?) ==> r == acc
  {
    if x.Some? && y.Some? then acc + [rule(x.value, y.value)] else acc
  }

  /** E1's append: only when the ratio exists. */
  function EmitRatio(acc: seq<Finding>, ratio: Option<real>): (r: seq<Finding>)
    ensures ratio.Some? ==> r == acc + [RuleE1(ratio.value)]
    ensures ratio.None? ==> r == acc
  {
    if ratio.Some? then acc + [RuleE1(ratio.value)] else acc
  }

  /** The latest growth of the four series, in the order the engine reads them. */
  datatype Growth = Growth(rcv: Option<real>, inv: Option<real>, pay: Option<real>, rev: Option<real>)

  function GrowthOf(trends: Trends): Growth
  {
    Growth(LatestYoyOf(trends, Receivables), LatestYoyOf(trends, Inventory),
           LatestYoyOf(trends, Payables), LatestYoyOf(trends, Revenue))
  }

  /** The results through the C rules: A1, A2, B1, B2, C1, C2. */
  function UpToC(l: Latest, g: Growth): seq<Finding>
    requires Comparable(l)
  {
    var a := EmitPair([RuleA1(l.dso.value)], g.rcv, g.rev, RuleA2);
    var b := EmitPair(a + [RuleB1(l.dio.value)], g.inv, g.rev, RuleB2);
    EmitPair(b + [RuleC1(l.dpo.value)], g.pay, g.rev, RuleC2)
  }

  /** What wc_rule_engine returns, in its order A1, A2, B1, B2, C1, C2, D1, E1, E2. */
  function Catalogue(l: Latest, g: Growth): seq<Finding>
    requires Comparable(l)
  {
    EmitPair(EmitRatio(UpToC(l, g) + [RuleD1(l.ccc.value)], l.nwc_ratio), l.nwc_cagr, l.revenue_cagr, RuleE2)
  }

  /** wc_rule_engine; the benchmarks argument is accepted and not read. */
  method WcRuleEngine(latest: Latest, trends: Trends, benchmarks: Option<Benchmarks>) returns (results: seq<Finding>)
    requires Comparable(latest)
    ensures results == Catalogue(latest, GrowthOf(trends))
  {
    results := [];
    var rcvYoy := LatestYoyOf(trends, Receivables);
    var invYoy := LatestYoyOf(trends, Inventory);
    var payablesYoy := LatestYoyOf(trends, Payables);
    var revYoy := LatestYoyOf(trends, Revenue);
    var g := Growth(rcvYoy, invYoy, payablesYoy, revYoy);
    results := results + [RuleA1(latest.dso.value)];
    if rcvYoy.Some? && revYoy.Some? {
      results := results + [RuleA2(rcvYoy.value, revYoy.value)];
    }
    results := results + [RuleB1(latest.dio.value)];
    if invYoy.Some? && revYoy.Some? {
      results := results + [RuleB2(invYoy.value, revYoy.value)];
    }
    results := results + [RuleC1(latest.dpo.value)];
    if payablesYoy.Some? && revYoy.Some? {
      results := results + [RuleC2(payablesYoy.value, revYoy.value)];
    }
    assert results == UpToC(latest, g);
    results := results + [RuleD1(latest.ccc.value)];
    if latest.nwc_ratio.Some? {
      results := results + [RuleE1(latest.nwc_ratio.value)];
    }
    if latest.nwc_cagr.Some? && latest.revenue_cagr.Some? {
      results := results + [RuleE2(latest.nwc_cagr.value, latest.revenue_cagr.value)];
    }
  }

  // ------------------------------------------------------------ properties

  function IdsOf(fs: seq<Finding>): (ids: seq<RuleId>)
    ensures |ids| == |fs|
    ensures forall i :: 0 <= i < |fs| ==> ids[i] == fs[i].rule_id
  {
    seq(|fs|, i requires 0 <= i < |fs| => fs[i].rule_id)
  }

  function If<T>(c: bool, x: T): seq<T> { if c then [x] else [] }

  lemma IdsOfSnoc(acc: seq<Finding>, f: Finding)
    ensures IdsOf(acc + [f]) == IdsOf(acc) + [f.rule_id]
  {
  }

  lemma IdsOfPair(acc: seq<Finding>, x: Option<real>, y: Option<real>, rule: (real, real) -> Finding)
    ensures x.Some? && y.Some? ==> IdsOf(EmitPair(acc, x, y, rule)) == IdsOf(acc) + [rule(x.value, y.value).rule_id]
    ensures !(x.Some? && y.Some?) ==> IdsOf(EmitPair(acc, x, y, rule)) == IdsOf(acc)
  {
    if x.Some? && y.Some? {
      IdsOfSnoc(acc, rule(x.value, y.value));
    }
  }

  lemma UpToCIds(l: Latest, g: Growth)
    requires Comparable(l)
    ensures IdsOf(UpToC(l, g))
            == [A1] + If(g.rcv.Some? && g.rev.Some?, A2) + [B1] + If(g.inv.Some? && g.rev.Some?, B2)
               + [C1] + If(g.pay.Some? && g.rev.Some?, C2)
  {
    var a := EmitPair([RuleA1(l.dso.value)], g.rcv, g.rev, RuleA2);
    IdsOfPair([RuleA1(l.dso.value)], g.rcv, g.rev, RuleA2);
    IdsOfSnoc(a, RuleB1(l.dio.value));
    var b := EmitPair(a + [RuleB1(l.dio.value)], g.inv, g.rev, RuleB2);
    IdsOfPair(a + [RuleB1(l.dio.value)], g.inv, g.rev, RuleB2);
    IdsOfSnoc(b, RuleC1(l.dpo.value));
    IdsOfPair(b + [RuleC1(l.dpo.value)], g.pay, g.rev, RuleC2);
  }

  /**
   * The rules that fire, in order: A1, B1, C1 and D1 always; A2, B2 and C2
   * exactly when both of their growths exist; E1 exactly when the NWC
   * ratio exists; E2 exactly when both CAGRs exist.
   */
  lemma CatalogueIds(l: Latest, g: Growth)
    requires Comparable(l)
    ensures IdsOf(Catalogue(l, g))
            == [A1] + If(g.rcv.Some? && g.rev.Some?, A2) + [B1] + If(g.inv.Some? && g.rev.Some?, B2)
               + [C1] + If(g.pay.Some? && g.rev.Some?, C2) + [D1] + If(l.nwc_ratio.Some?, E1)
               + If(l.nwc_cagr.Some? && l.revenue_cagr.Some?, E2)
  {
    var c := UpToC(l, g);
    UpToCIds(l, g);
    IdsOfSnoc(c, RuleD1(l.ccc.value));
    var d := c + [RuleD1(l.ccc.value)];
    if l.nwc_ratio.Some? {
      IdsOfSnoc(d, RuleE1(l.nwc_ratio.value));
    }
    IdsOfPair(EmitRatio(d, l.nwc_ratio), l.nwc_cagr, l.revenue_cagr, RuleE2);
  }

  /** The rule thresholds are the default benchmarks, which the engine does not read. */
  lemma ThresholdsAreDefaults(l: Latest, g: Growth)
    requires Comparable(l)
    ensures var b := DefaultBenchmarks();
            var c := Catalogue(l, g);
            && (c[0].flag == RED <==> l.dso.value > b.dso_high as real)
            && (c[0].flag == GREEN <==> l.dso.value < b.dso_moderate as real)
  {
  }

  /**
   * The mock of the rules test: all nine rules fire, in catalogue order,
   * with the flags it documents.
   */
  lemma EngineTestCase()
    ensures Catalogue(Latest(Some(80.0), Some(100.0), Some(40.0), Some(140.0), Some(0.20), Some(0.15), Some(0.04)),
                      Growth(Some(25.0), Some(10.0), Some(-15.0), Some(8.0)))
            == [RuleA1(80.0), RuleA2(25.0, 8.0), RuleB1(100.0), RuleB2(10.0, 8.0), RuleC1(40.0),
                RuleC2(-15.0, 8.0), RuleD1(140.0), RuleE1(0.20), RuleE2(0.15, 0.04)]
    ensures RuleA1(80.0).flag == RED && RuleA2(25.0, 8.0).flag == YELLOW && RuleB1(100.0).flag == YELLOW
    ensures RuleB2(10.0, 8.0).flag == GREEN && RuleC1(40.0).flag == GREEN && RuleC2(-15.0, 8.0).flag == YELLOW
    ensures RuleD1(140.0).flag == YELLOW && RuleE1(0.20).flag == YELLOW && RuleE2(0.15, 0.04).flag == RED
  {
    var l := Latest(Some(80.0), Some(100.0), Some(40.0), Some(140.0), Some(0.20), Some(0.15), Some(0.04));
    var g := Growth(Some(25.0), Some(10.0), Some(-15.0), Some(8.0));
    assert UpToC(l, g) == [RuleA1(80.0), RuleA2(25.0, 8.0), RuleB1(100.0), RuleB2(10.0, 8.0), RuleC1(40.0),
                           RuleC2(-15.0, 8.0)];
  }

  lemma GrowthScale(y: real, curr: real, prev: real)
    requires prev > 0.0 && y * prev == curr - prev && y >= 19.995
    ensures curr > 20.99 * prev
  {
    assert (y - 19.995) * prev >= 0.0;
  }

  /**
   * compute_yoy yields a fraction while A2 compares it with 20 as if it
   * were a percentage: with a positive previous value, a rounded growth
   * above 20 means receivables grew more than twentyfold.
   */
  lemma A2NeedsTwentyfold(curr: real, prev: real, rev: real)
    requires prev > 0.0
    requires RuleA2(Round2(Yoy(Some(curr), Some(prev))).value, rev).flag == YELLOW
    ensures curr > 20.99 * prev
  {
    var y := Yoy(Some(curr), Some(prev)).value;
    assert y >= 19.995;
    GrowthScale(y, curr, prev);
  }
}
