/**
 * RiskRulesEngine: the threshold merge of its constructor and `evaluate`,
 * which sorts the year records, extracts the series, runs the five pattern
 * detectors and emits the Z/W/A/E/C catalogue in a fixed order.
 */
module RiskRules {
  import opened Common
  import opened Sorting
  import opened RiskConfig
  import opened RiskModels
  import opened RiskTrend

  /** The catalogue's rule ids, in output order. */
  datatype RuleId = Z1 | Z2 | Z3 | W1 | W2 | W3 | A1 | A2 | A3 | E1 | E2 | E3 | C1 | C2 | C2b | C3

  function Rank(id: RuleId): nat
  {
    match id
    case Z1 => 0 case Z2 => 1 case Z3 => 2 case W1 => 3 case W2 => 4 case W3 => 5
    case A1 => 6 case A2 => 7 case A3 => 8 case E1 => 9 case E2 => 10 case E3 => 11
    case C1 => 12 case C2 => 13 case C2b => 14 case C3 => 15
  }

  /**
   * One call of `_make_rule`: the rule's fields and the year it passes. The
   * RuleResult built from it has no year field, so the year is dropped
   * (`ResultOf`) and never reaches the output.
   */
  datatype Finding = Finding(rule_id: RuleId, rule_name: string, year: int, flag: Flag,
                             value: Option<real>, threshold: Text, reason: string)

  /** A RuleResult: the fields of risk_models.RuleResult. */
  datatype RuleResult = RuleResult(rule_id: RuleId, rule_name: string, value: Option<real>,
                                   threshold: Text, flag: Flag, reason: string)

  /** `RuleResult(year=year, ...)`: pydantic ignores the extra year argument. */
  function ResultOf(f: Finding): RuleResult
  {
    RuleResult(f.rule_id, f.rule_name, f.value, f.threshold, f.flag, f.reason)
  }

  /** Two findings give the same RuleResult exactly when they differ at most in their year. */
  lemma ResultForgetsYear(f: Finding, g: Finding)
    ensures ResultOf(f) == ResultOf(g) <==> f.(year := g.year) == g
  {
    if ResultOf(f) == ResultOf(g) {
      assert f.rule_id == ResultOf(f).rule_id == g.rule_id;
      assert f.reason == ResultOf(f).reason == g.reason;
    }
  }

  /** The serialised findings, one RuleResult per finding in order. */
  function ResultsOf(fs: seq<Finding>): (r: seq<RuleResult>)
    ensures |r| == |fs|
    ensures forall i :: 0 <= i < |fs| ==> r[i].rule_id == fs[i].rule_id && r[i].flag == fs[i].flag
  {
    seq(|fs|, i requires 0 <= i < |fs| => ResultOf(fs[i]))
  }

  /** The fixed parts of one catalogue entry. */
  datatype Rule = Rule(id: RuleId, name: string, flag: Flag, threshold: Text, reason: string)

  function Make(r: Rule, year: int, value: Option<real>): Finding
  {
    Finding(r.id, r.name, year, r.flag, value, r.threshold, r.reason)
  }

  predicate ThresholdsOk(th: map<Key, real>)
  {
    && InterestOvertakeYears in th && FakeCashSpike in th && OneoffProfitJump in th
    && ProfitSpikeNoRevenue in th && FixedAssetDeclineYears in th && LoanRolloverCritical in th
    && InterestCapitalized in th && MinimalPrincipalRepayment in th && RptRevenue in th
    && RptRecvSpike in th
  }

  /** `{**DEFAULT_THRESHOLDS, **(thresholds or {})}`. */
  function Merge(overrides: map<Key, real>): (th: map<Key, real>)
    ensures forall k :: k in th <==> k in DefaultThresholds || k in overrides
    ensures forall k :: k in overrides ==> th[k] == overrides[k]
    ensures forall k :: k in DefaultThresholds && k !in overrides ==> th[k] == DefaultThresholds[k]
    ensures ThresholdsOk(th)
  {
    DefaultsShape();
    DefaultThresholds + overrides
  }

  // ------------------------------------------------------------ the rules

  function RZ1(th: map<Key, real>): (r: Rule)
    requires ThresholdsOk(th)
    ensures r.id == Z1 && r.flag == CRITICAL && r.threshold.args == [th[InterestOvertakeYears]]
  { Rule(Z1, "Zombie Company Detection", CRITICAL, Text(">={} years", [th[InterestOvertakeYears]]), "EBIT < Interest for multiple years.") }
  function RZ2(th: map<Key, real>): (r: Rule)
    requires ThresholdsOk(th)
    ensures r.id == Z2 && r.flag == HIGH && r.threshold.args == [th[InterestOvertakeYears]]
  { Rule(Z2, "Zombie Company Detection", HIGH, Text(">={} years", [th[InterestOvertakeYears]]), "OCF < Interest for multiple years.") }
  const RZ3 := Rule(Z3, "Zombie Company Detection", HIGH, Lit("net_debt up & profit down"), "Net debt rising while profits falling.")
  function RW1(th: map<Key, real>): (r: Rule)
    requires ThresholdsOk(th)
    ensures r.id == W1 && r.flag == YELLOW && r.threshold.args == [th[FakeCashSpike]]
  { Rule(W1, "Window Dressing - Cash Spike", YELLOW, Text(">{}", [th[FakeCashSpike]]), "Large YoY cash spike.") }
  function RW2(th: map<Key, real>): (r: Rule)
    requires ThresholdsOk(th)
    ensures r.id == W2 && r.flag == YELLOW && r.threshold.args == [th[OneoffProfitJump]]
  { Rule(W2, "One-off Income", YELLOW, Text(">{}", [th[OneoffProfitJump]]), "One-off income large vs PAT.") }
  function RW3(th: map<Key, real>): (r: Rule)
    requires ThresholdsOk(th)
    ensures r.id == W3 && r.flag == YELLOW && r.threshold.args == [th[ProfitSpikeNoRevenue]]
  { Rule(W3, "Profit Spike Without Revenue Growth", YELLOW, Text("profit>{} & rev<5%", [th[ProfitSpikeNoRevenue]]), "Profit spike not backed by revenue.") }
  function RA1(th: map<Key, real>): (r: Rule)
    requires ThresholdsOk(th)
    ensures r.id == A1 && r.flag == RED && r.threshold.args == [th[FixedAssetDeclineYears]]
  { Rule(A1, "Fixed Assets Decline", RED, Text(">={} years", [th[FixedAssetDeclineYears]]), "Fixed assets declining.") }
  const RA2 := Rule(A2, "Dividends Despite Falling Assets", YELLOW, Lit("dividend>0 & fixed assets down"), "Promoter extraction risk.")
  const RA3 := Rule(A3, "Debt Up & Assets Down", CRITICAL, Lit("debt up & assets down"), "Debt rising while assets shrink.")
  function RE1(th: map<Key, real>): (r: Rule)
    requires ThresholdsOk(th)
    ensures r.id == E1 && r.flag == RED && r.threshold.args == [th[LoanRolloverCritical]]
  { Rule(E1, "Loan Rollover >50%", RED, Text(">{}", [th[LoanRolloverCritical]]), "High rollover suggests evergreening.") }
  function RE2(th: map<Key, real>): (r: Rule)
    requires ThresholdsOk(th)
    ensures r.id == E2 && r.flag == YELLOW && r.threshold.args == [th[InterestCapitalized]]
  { Rule(E2, "Interest Capitalized", YELLOW, Text(">{}", [th[InterestCapitalized]]), "Capitalized interest indicates stress.") }
  function RE3(th: map<Key, real>): (r: Rule)
    requires ThresholdsOk(th)
    ensures r.id == E3 && r.flag == YELLOW && r.threshold.args == [th[MinimalPrincipalRepayment]]
  { Rule(E3, "Minimal Principal Repayment", YELLOW, Text("<{}", [th[MinimalPrincipalRepayment]]), "Very low principal repayment.") }
  function RC1(th: map<Key, real>): (r: Rule)
    requires ThresholdsOk(th)
    ensures r.id == C1 && r.flag == RED && r.threshold.args == [th[RptRevenue]]
  { Rule(C1, "High RPT Sales", RED, Text(">{}", [th[RptRevenue]]), "Related-party sales unusually high.") }
  function RC2(th: map<Key, real>): (r: Rule)
    requires ThresholdsOk(th)
    ensures r.id == C2 && r.flag == YELLOW && r.threshold.args == [th[RptRecvSpike]]
  { Rule(C2, "RPT Receivables High", YELLOW, Text(">{}", [th[RptRecvSpike]]), "High related-party receivables.") }
  function RC2b(th: map<Key, real>): (r: Rule)
    requires ThresholdsOk(th)
    ensures r.id == C2b && r.flag == YELLOW && r.threshold.args == [th[RptRecvSpike]]
  { Rule(C2b, "Receivables Spike YoY", YELLOW, Text(">{}", [th[RptRecvSpike]]), "Receivables growing faster than revenue.") }
  const RC3 := Rule(C3, "Revenue Up, OCF Down", RED, Lit("rev up & ocf down"), "Revenue growth without cash flow.")

  // ------------------------------------------------------ series extraction

  /** The series `evaluate` extracts from the sorted records. */
  datatype Col =
    | EbitC | InterestC | OcfC | NetDebtC | FixedAssetsC | DividendsC | NetIncomeC | CashC
    | OneOffC | RevenueC | RptSalesC | RptRecvC | TotalRecvC | RolloverC | InterestCapC
    | PrincipalC | AssetsC

  /**
   * The EBIT fallback reads `f.depreciation`, which is not a YearFinancials
   * field: the record must either carry ebit or have no operating_profit.
   */
  predicate EbitDefined(f: YearFinancials) { f.ebit.Some? || f.operating_profit.None? }

  /**
   * One record's entry in a series. `getattr` of an attribute the record
   * lacks yields None, so ocf is cash_from_operating_activity, total
   * receivables are trade_receivables, and rollover and capitalised interest
   * always take their `or 0` fallbacks. Net debt is read from borrowings.
   */
  function Value(f: YearFinancials, c: Col): Option<real>
  {
    match c
    case EbitC => f.ebit
    case InterestC => f.interest
    case OcfC => f.cash_from_operating_activity
    case NetDebtC => f.borrowings
    case FixedAssetsC => f.fixed_assets
    case DividendsC => f.dividends_paid
    case NetIncomeC => if f.net_profit.Some? then f.net_profit else f.profit_from_operations
    case CashC => f.cash_equivalents
    case OneOffC => f.other_income
    case RevenueC => f.revenue
    case RptSalesC => f.related_party_sales
    case RptRecvC => f.related_party_receivables
    case TotalRecvC => f.trade_receivables
    case RolloverC => Some(OrZero(f.proceeds_from_borrowings) - OrZero(f.repayment_of_borrowings))
    case InterestCapC => Some(OrZero(f.interest_paid_fin) - OrZero(f.interest))
    case PrincipalC => f.repayment_of_borrowings
    case AssetsC => f.total_assets
  }

  function Column(fs: seq<YearFinancials>, c: Col): (r: seq<Option<real>>)
    ensures |r| == |fs|
  {
    seq(|fs|, i requires 0 <= i < |fs| => Value(fs[i], c))
  }

  function YearOf(f: YearFinancials): int { f.year }

  function Years(fs: seq<YearFinancials>): (r: seq<int>)
    ensures |r| == |fs|
  {
    seq(|fs|, i requires 0 <= i < |fs| => fs[i].year)
  }

  // --------------------------------------------------- per-year rule loops

  /** The trigger conditions of the per-year rules, on entry `x` (and `y`) of their series. */
  datatype Cond = Above(b: real) | Below(b: real) | ProfitSpike(b: real) | RecvSpike(b: real) | RevUpOcfDown

  predicate Holds(c: Cond, x: Option<real>, y: Option<real>)
  {
    match c
    case Above(b) => x.Some? && SafeGt(x, Some(b))
    case Below(b) => x.Some? && SafeLt(x, Some(b))
    // W3: a missing revenue YoY counts as no revenue growth
    case ProfitSpike(b) => x.Some? && SafeGt(x, Some(b)) && (y.None? || SafeLt(y, Some(0.05)))
    // C2b: a missing YoY on either side skips the year
    case RecvSpike(b) => !(x.None? || y.None?) && SafeGt(x, y) && SafeGt(x, Some(b))
    case RevUpOcfDown => SafeGt(x, Some(0.0)) && SafeLt(y, Some(0.0))
  }

  /**
   * The findings of one `for i in range(m)` rule loop: entry i fires when
   * the condition holds, with value xs[i], dated years[i + shift].
   */
  function Hits(xs: seq<Option<real>>, ys: seq<Option<real>>, m: nat, c: Cond,
                years: seq<int>, shift: nat, r: Rule): seq<Finding>
    requires m <= |xs| && m <= |ys| && m + shift <= |years|
  {
    if m == 0 then []
    else Hits(xs, ys, m - 1, c, years, shift, r)
         + (if Holds(c, xs[m - 1], ys[m - 1]) then [Make(r, years[m - 1 + shift], xs[m - 1])] else [])
  }

  lemma {:induction false} HitsMembers(xs: seq<Option<real>>, ys: seq<Option<real>>, m: nat, c: Cond,
                                       years: seq<int>, shift: nat, r: Rule)
    requires m <= |xs| && m <= |ys| && m + shift <= |years|
    ensures |Hits(xs, ys, m, c, years, shift, r)| <= m
    ensures forall f :: f in Hits(xs, ys, m, c, years, shift, r) <==>
              exists i :: 0 <= i < m && Holds(c, xs[i], ys[i]) && f == Make(r, years[i + shift], xs[i])
  {
    if m > 0 {
      HitsMembers(xs, ys, m - 1, c, years, shift, r);
    }
  }

  /** One rule loop, appending its findings to `acc`. */
  method AppendHits(acc: seq<Finding>, xs: seq<Option<real>>, ys: seq<Option<real>>, m: nat, c: Cond,
                    years: seq<int>, shift: nat, r: Rule) returns (out: seq<Finding>)
    requires m <= |xs| && m <= |ys| && m + shift <= |years|
    ensures out == acc + Hits(xs, ys, m, c, years, shift, r)
  {
    out := acc;
    var i := 0;
    while i < m
      invariant 0 <= i <= m
      invariant out == acc + Hits(xs, ys, i, c, years, shift, r)
    {
      if Holds(c, xs[i], ys[i]) {
        out := out + [Make(r, years[i + shift], xs[i])];
      }
      i := i + 1;
    }
  }

  // ----------------------------------------------------------------- A2

  predicate DividendHit(div: seq<Option<real>>, fa: seq<Option<real>>, i: nat)
    requires 1 <= i < |div| && i < |fa|
  {
    SafeGt(div[i], Some(0.0)) && SafeLt(fa[i], fa[i - 1])
  }

  /** The first year from `i` on with a dividend and falling fixed assets. */
  function FirstDividendHit(div: seq<Option<real>>, fa: seq<Option<real>>, i: nat): (r: Option<nat>)
    requires 1 <= i && |div| == |fa|
    ensures r.Some? ==> i <= r.value < |div| && DividendHit(div, fa, r.value)
    ensures forall k :: i <= k < |div| && (r.None? || k < r.value) ==> !DividendHit(div, fa, k)
    decreases |div| - i
  {
    if i >= |div| then None
    else if DividendHit(div, fa, i) then Some(i)
    else FirstDividendHit(div, fa, i + 1)
  }

  // --------------------------------------------------------- rule groups

  function ZombieFindings(th: map<Key, real>, fs: seq<YearFinancials>, z: Zombie): seq<Finding>
    requires ThresholdsOk(th) && |fs| > 0
  {
    var latest := fs[|fs| - 1].year;
    var ni := Column(fs, NetIncomeC);
    var nd := Column(fs, NetDebtC);
    var netDebtUp := SafeLt(ni[|fs| - 1], ni[0]) && SafeGt(nd[|fs| - 1], nd[0]);
    Singleton(z.ebitInterestConsec as real >= th[InterestOvertakeYears],
              Make(RZ1(th), latest, Some(z.ebitInterestConsec as real)))
    + Singleton(z.ocfInterestConsec as real >= th[InterestOvertakeYears],
                Make(RZ2(th), latest, Some(z.ocfInterestConsec as real)))
    + Singleton(netDebtUp, Make(RZ3, latest, if netDebtUp then Some(nd[|fs| - 1].value - nd[0].value) else None))
  }

  function WindowFindings(th: map<Key, real>, ys: seq<int>, w: Window): seq<Finding>
    requires ThresholdsOk(th)
    requires |w.cashYoy| < |ys| && |w.oneoffRatio| <= |ys| && |w.netIncomeYoy| < |ys|
  {
    var m := if |w.netIncomeYoy| < |w.revenueYoy| then |w.netIncomeYoy| else |w.revenueYoy|;
    Hits(w.cashYoy, w.cashYoy, |w.cashYoy|, Above(th[FakeCashSpike]), ys, 1, RW1(th))
    + Hits(w.oneoffRatio, w.oneoffRatio, |w.oneoffRatio|, Above(th[OneoffProfitJump]), ys, 0, RW2(th))
    + Hits(w.netIncomeYoy, w.revenueYoy, m, ProfitSpike(th[ProfitSpikeNoRevenue]), ys, 1, RW3(th))
  }

  function AssetFindings(th: map<Key, real>, fs: seq<YearFinancials>, a: Asset): seq<Finding>
    requires ThresholdsOk(th) && |fs| > 0
  {
    var latest := fs[|fs| - 1].year;
    var div := Column(fs, DividendsC);
    var first := FirstDividendHit(div, Column(fs, FixedAssetsC), 1);
    Singleton(a.fixedAssetDeclineYears as real >= th[FixedAssetDeclineYears],
              Make(RA1(th), latest, Some(a.fixedAssetDeclineYears as real)))
    + Singleton(first.Some?, Make(RA2, if first.Some? then fs[first.value].year else 0,
                                  if first.Some? then div[first.value] else None))
    + Singleton(a.assetsShrinking && a.debtRising, Make(RA3, latest, None))
  }

  function EvergreeningFindings(th: map<Key, real>, ys: seq<int>, e: Evergreening): seq<Finding>
    requires ThresholdsOk(th)
    requires |e.rolloverRatio| <= |ys| && |e.interestCapRatio| <= |ys| && |e.principalRepaymentRatio| <= |ys|
  {
    Hits(e.rolloverRatio, e.rolloverRatio, |e.rolloverRatio|, Above(th[LoanRolloverCritical]), ys, 0, RE1(th))
    + Hits(e.interestCapRatio, e.interestCapRatio, |e.interestCapRatio|, Above(th[InterestCapitalized]), ys, 0, RE2(th))
    + Hits(e.principalRepaymentRatio, e.principalRepaymentRatio, |e.principalRepaymentRatio|,
           Below(th[MinimalPrincipalRepayment]), ys, 0, RE3(th))
  }

  function CircularFindings(th: map<Key, real>, ys: seq<int>, c: Circular): seq<Finding>
    requires ThresholdsOk(th)
    requires |c.rptSalesRatio| <= |ys| && |c.rptRecvRatio| <= |ys|
    requires |c.recvYoy| < |ys| && |c.recvYoy| <= |c.revYoy| && |c.revYoy| < |ys| && |c.revYoy| <= |c.ocfYoy|
  {
    Hits(c.rptSalesRatio, c.rptSalesRatio, |c.rptSalesRatio|, Above(th[RptRevenue]), ys, 0, RC1(th))
    + Hits(c.rptRecvRatio, c.rptRecvRatio, |c.rptRecvRatio|, Above(th[RptRecvSpike]), ys, 0, RC2(th))
    + Hits(c.recvYoy, c.revYoy, |c.recvYoy|, RecvSpike(th[RptRecvSpike]), ys, 1, RC2b(th))
    + Hits(c.revYoy, c.ocfYoy, |c.revYoy|, RevUpOcfDown, ys, 1, RC3)
  }

  function Sorted(financials: seq<YearFinancials>): seq<YearFinancials>
  {
    SortBy(financials, YearOf)
  }

  /** The detector outputs `evaluate` computes from the sorted records. */
  function ZombieOf(fs: seq<YearFinancials>): Zombie
  {
    Zombie(LongestRun(BelowFlags(Column(fs, EbitC), Column(fs, InterestC))),
           LongestRun(BelowFlags(Column(fs, OcfC), Column(fs, InterestC))))
  }

  function WindowOfRecords(fs: seq<YearFinancials>): (w: Window)
    ensures |w.cashYoy| < |fs| || |fs| == 0
    ensures |w.oneoffRatio| <= |fs|
    ensures |w.netIncomeYoy| < |fs| || |fs| == 0
  {
    WindowOf(Column(fs, CashC), Column(fs, NetIncomeC), Column(fs, RevenueC), Column(fs, OneOffC))
  }

  function AssetOfRecords(fs: seq<YearFinancials>): Asset
  {
    AssetOf(Column(fs, FixedAssetsC), Column(fs, NetDebtC), Column(fs, DividendsC), Column(fs, NetIncomeC))
  }

  function EvergreeningOfRecords(fs: seq<YearFinancials>): (e: Evergreening)
    ensures |e.rolloverRatio| <= |fs| && |e.interestCapRatio| <= |fs| && |e.principalRepaymentRatio| <= |fs|
  {
    EvergreeningOf(Column(fs, RolloverC), Column(fs, NetDebtC), Column(fs, InterestCapC),
                   Column(fs, InterestC), Column(fs, PrincipalC))
  }

  function CircularOfRecords(fs: seq<YearFinancials>): (c: Circular)
    ensures |c.rptSalesRatio| <= |fs| && |c.rptRecvRatio| <= |fs|
    ensures |fs| > 0 ==> |c.recvYoy| < |fs| && |c.recvYoy| == |c.revYoy| && |c.revYoy| == |c.ocfYoy|
  {
    CircularOf(Column(fs, RptSalesC), Column(fs, RevenueC), Column(fs, RptRecvC), Column(fs, TotalRecvC),
               Column(fs, RevenueC), Column(fs, OcfC), Column(fs, AssetsC))
  }

  /** What `evaluate` returns. */
  function EvaluateSpec(th: map<Key, real>, financials: seq<YearFinancials>): seq<Finding>
    requires ThresholdsOk(th)
  {
    if financials == [] then []
    else
      var fs := Sorted(financials);
      var ys := Years(fs);
      ZombieFindings(th, fs, ZombieOf(fs)) + WindowFindings(th, ys, WindowOfRecords(fs))
      + AssetFindings(th, fs, AssetOfRecords(fs)) + EvergreeningFindings(th, ys, EvergreeningOfRecords(fs))
      + CircularFindings(th, ys, CircularOfRecords(fs))
  }

  class RiskRulesEngine {
    var th: map<Key, real>

    ghost predicate Valid() reads this { ThresholdsOk(th) }

    constructor (overrides: map<Key, real>)
      ensures th == Merge(overrides) && Valid()
    {
      th := Merge(overrides);
    }

    method Evaluate(financials: seq<YearFinancials>) returns (results: seq<Finding>)
      requires Valid()
      requires forall i :: 0 <= i < |financials| ==> EbitDefined(financials[i])
      ensures results == EvaluateSpec(th, financials)
      ensures financials == [] ==> results == []
    {
      results := [];
      if |financials| == 0 {
        return;
      }
      var fs := Sorted(financials);
      forall i | 0 <= i < |fs| ensures EbitDefined(fs[i]) {
        SortedElements(financials, YearOf, i);
      }
      var zomb, window, asset, everg, circ := Signals(fs);
      var years := Years(fs);
      results := ZombieRules(fs, zomb);
      var w := WindowRules(years, window);
      var a := AssetRules(fs, asset);
      var e := EvergreeningRules(years, everg);
      var c := CircularRules(years, circ);
      results := results + w + a + e + c;
    }

    /** The ebit column: the record's ebit, or None when it has none. */
    static method EbitColumn(fs: seq<YearFinancials>) returns (ebit: seq<Option<real>>)
      requires forall i :: 0 <= i < |fs| ==> EbitDefined(fs[i])
      ensures ebit == Column(fs, EbitC)
    {
      ebit := [];
      var j := 0;
      while j < |fs|
        invariant 0 <= j <= |fs|
        invariant ebit == Column(fs, EbitC)[..j]
      {
        var f := fs[j];
        if f.ebit.Some? {
          ebit := ebit + [f.ebit];
        } else {
          // operating_profit is None here, so the depreciation fallback is not taken
          ebit := ebit + [None];
        }
        j := j + 1;
      }
    }

    /** The series extraction and the five pattern detectors on the sorted records. */
    static method Signals(fs: seq<YearFinancials>)
      returns (zomb: Zombie, window: Window, asset: Asset, everg: Evergreening, circ: Circular)
      requires |fs| > 0
      requires forall i :: 0 <= i < |fs| ==> EbitDefined(fs[i])
      ensures zomb == ZombieOf(fs)
      ensures window == WindowOfRecords(fs)
      ensures asset == AssetOfRecords(fs)
      ensures everg == EvergreeningOfRecords(fs)
      ensures circ == CircularOfRecords(fs)
    {
      var ebit := EbitColumn(fs);
      var interest := Column(fs, InterestC);
      var ocf := Column(fs, OcfC);
      var netDebt := Column(fs, NetDebtC);
      var netIncome := Column(fs, NetIncomeC);
      var revenue := Column(fs, RevenueC);

      zomb := ZombieSignals(ebit, interest, ocf);
      window := WindowSignals(Column(fs, CashC), netIncome, revenue, Column(fs, OneOffC));
      asset := AssetSignals(Column(fs, FixedAssetsC), netDebt, Column(fs, DividendsC), netIncome);
      everg := EvergreeningSignals(Column(fs, RolloverC), netDebt, Column(fs, InterestCapC),
                                   interest, Column(fs, PrincipalC));
      circ := CircularSignals(Column(fs, RptSalesC), revenue, Column(fs, RptRecvC),
                              Column(fs, TotalRecvC), revenue, ocf, Column(fs, AssetsC));
    }

    /** Z1, Z2 and Z3. */
    method ZombieRules(fs: seq<YearFinancials>, zomb: Zombie) returns (results: seq<Finding>)
      requires Valid() && |fs| > 0
      ensures results == ZombieFindings(th, fs, zomb)
    {
      var latest := fs[|fs| - 1].year;
      var netIncome := Column(fs, NetIncomeC);
      var netDebt := Column(fs, NetDebtC);
      results := [];
      if zomb.ebitInterestConsec as real >= th[InterestOvertakeYears] {
        results := results + [Make(RZ1(th), latest, Some(zomb.ebitInterestConsec as real))];
      }
      if zomb.ocfInterestConsec as real >= th[InterestOvertakeYears] {
        results := results + [Make(RZ2(th), latest, Some(zomb.ocfInterestConsec as real))];
      }
      if SafeLt(netIncome[|fs| - 1], netIncome[0]) && SafeGt(netDebt[|fs| - 1], netDebt[0]) {
        results := results + [Make(RZ3, latest, Some(netDebt[|fs| - 1].value - netDebt[0].value))];
      }
    }

    /** W1, W2 and W3. */
    method WindowRules(years: seq<int>, window: Window) returns (results: seq<Finding>)
      requires Valid()
      requires |window.cashYoy| < |years| && |window.oneoffRatio| <= |years| && |window.netIncomeYoy| < |years|
      ensures results == WindowFindings(th, years, window)
    {
      var m := if |window.netIncomeYoy| < |window.revenueYoy| then |window.netIncomeYoy| else |window.revenueYoy|;
      ghost var h1 := Hits(window.cashYoy, window.cashYoy, |window.cashYoy|, Above(th[FakeCashSpike]), years, 1, RW1(th));
      ghost var h2 := Hits(window.oneoffRatio, window.oneoffRatio, |window.oneoffRatio|, Above(th[OneoffProfitJump]), years, 0, RW2(th));
      ghost var h3 := Hits(window.netIncomeYoy, window.revenueYoy, m, ProfitSpike(th[ProfitSpikeNoRevenue]), years, 1, RW3(th));
      results := AppendHits([], window.cashYoy, window.cashYoy, |window.cashYoy|,
                            Above(th[FakeCashSpike]), years, 1, RW1(th));
      assert results == h1;
      results := AppendHits(results, window.oneoffRatio, window.oneoffRatio, |window.oneoffRatio|,
                            Above(th[OneoffProfitJump]), years, 0, RW2(th));
      assert results == h1 + h2;
      results := AppendHits(results, window.netIncomeYoy, window.revenueYoy, m,
                            ProfitSpike(th[ProfitSpikeNoRevenue]), years, 1, RW3(th));
      assert results == h1 + h2 + h3;
    }

    /** A1, A2 (the first qualifying year only, then `break`) and A3. */
    method AssetRules(fs: seq<YearFinancials>, asset: Asset) returns (results: seq<Finding>)
      requires Valid() && |fs| > 0
      ensures results == AssetFindings(th, fs, asset)
    {
      var latest := fs[|fs| - 1].year;
      var fixedAssets := Column(fs, FixedAssetsC);
      var dividends := Column(fs, DividendsC);
      results := [];
      if asset.fixedAssetDeclineYears as real >= th[FixedAssetDeclineYears] {
        results := results + [Make(RA1(th), latest, Some(asset.fixedAssetDeclineYears as real))];
      }
      ghost var r0 := results;
      var i := 1;
      while i < |fs|
        invariant 1 <= i <= |fs|
        invariant results == r0
        invariant FirstDividendHit(dividends, fixedAssets, 1) == FirstDividendHit(dividends, fixedAssets, i)
      {
        if SafeGt(dividends[i], Some(0.0)) && SafeLt(fixedAssets[i], fixedAssets[i - 1]) {
          results := results + [Make(RA2, fs[i].year, dividends[i])];
          break;
        }
        i := i + 1;
      }
      if asset.assetsShrinking && asset.debtRising {
        results := results + [Make(RA3, latest, None)];
      }
    }

    /** E1, E2 and E3. */
    method EvergreeningRules(years: seq<int>, everg: Evergreening) returns (results: seq<Finding>)
      requires Valid()
      requires |everg.rolloverRatio| <= |years| && |everg.interestCapRatio| <= |years|
      requires |everg.principalRepaymentRatio| <= |years|
      ensures results == EvergreeningFindings(th, years, everg)
    {
      ghost var h1 := Hits(everg.rolloverRatio, everg.rolloverRatio, |everg.rolloverRatio|,
                           Above(th[LoanRolloverCritical]), years, 0, RE1(th));
      ghost var h2 := Hits(everg.interestCapRatio, everg.interestCapRatio, |everg.interestCapRatio|,
                           Above(th[InterestCapitalized]), years, 0, RE2(th));
      ghost var h3 := Hits(everg.principalRepaymentRatio, everg.principalRepaymentRatio,
                           |everg.principalRepaymentRatio|, Below(th[MinimalPrincipalRepayment]), years, 0, RE3(th));
      results := AppendHits([], everg.rolloverRatio, everg.rolloverRatio, |everg.rolloverRatio|,
                            Above(th[LoanRolloverCritical]), years, 0, RE1(th));
      assert results == h1;
      results := AppendHits(results, everg.interestCapRatio, everg.interestCapRatio, |everg.interestCapRatio|,
                            Above(th[InterestCapitalized]), years, 0, RE2(th));
      assert results == h1 + h2;
      results := AppendHits(results, everg.principalRepaymentRatio, everg.principalRepaymentRatio,
                            |everg.principalRepaymentRatio|, Below(th[MinimalPrincipalRepayment]), years, 0, RE3(th));
      assert results == h1 + h2 + h3;
    }

    /** C1, C2, C2b and C3. */
    method CircularRules(years: seq<int>, circ: Circular) returns (results: seq<Finding>)
      requires Valid()
      requires |circ.rptSalesRatio| <= |years| && |circ.rptRecvRatio| <= |years|
      requires |circ.recvYoy| < |years| && |circ.recvYoy| <= |circ.revYoy|
      requires |circ.revYoy| < |years| && |circ.revYoy| <= |circ.ocfYoy|
      ensures results == CircularFindings(th, years, circ)
    {
      ghost var h1 := Hits(circ.rptSalesRatio, circ.rptSalesRatio, |circ.rptSalesRatio|, Above(th[RptRevenue]), years, 0, RC1(th));
      ghost var h2 := Hits(circ.rptRecvRatio, circ.rptRecvRatio, |circ.rptRecvRatio|, Above(th[RptRecvSpike]), years, 0, RC2(th));
      ghost var h3 := Hits(circ.recvYoy, circ.revYoy, |circ.recvYoy|, RecvSpike(th[RptRecvSpike]), years, 1, RC2b(th));
      ghost var h4 := Hits(circ.revYoy, circ.ocfYoy, |circ.revYoy|, RevUpOcfDown, years, 1, RC3);
      results := AppendHits([], circ.rptSalesRatio, circ.rptSalesRatio, |circ.rptSalesRatio|,
                            Above(th[RptRevenue]), years, 0, RC1(th));
      assert results == h1;
      results := AppendHits(results, circ.rptRecvRatio, circ.rptRecvRatio, |circ.rptRecvRatio|,
                            Above(th[RptRecvSpike]), years, 0, RC2(th));
      assert results == h1 + h2;
      results := AppendHits(results, circ.recvYoy, circ.revYoy, |circ.recvYoy|,
                            RecvSpike(th[RptRecvSpike]), years, 1, RC2b(th));
      assert results == h1 + h2 + h3;
      results := AppendHits(results, circ.revYoy, circ.ocfYoy, |circ.revYoy|, RevUpOcfDown, years, 1, RC3);
      assert results == h1 + h2 + h3 + h4;
    }
  }

  // ------------------------------------------------------------ properties

  /** The findings of one rule, in output order. */
  function WithId(s: seq<Finding>, id: RuleId): (r: seq<Finding>)
    ensures |r| <= |s|
    ensures forall f :: f in r <==> f in s && f.rule_id == id
  {
    if s == [] then []
    else (if s[0].rule_id == id then [s[0]] else []) + WithId(s[1..], id)
  }

  lemma {:induction false} WithIdAppend(a: seq<Finding>, b: seq<Finding>, id: RuleId)
    ensures WithId(a + b, id) == WithId(a, id) + WithId(b, id)
  {
    if a == [] {
      assert a + b == b;
    } else {
      assert (a + b)[0] == a[0];
      assert (a + b)[1..] == a[1..] + b;
      WithIdAppend(a[1..], b, id);
    }
  }

  predicate RanksWithin(s: seq<Finding>, lo: nat, hi: nat)
  {
    forall i :: 0 <= i < |s| ==> lo <= Rank(s[i].rule_id) <= hi
  }

  predicate RankOrdered(s: seq<Finding>)
  {
    forall i, j :: 0 <= i < j < |s| ==> Rank(s[i].rule_id) <= Rank(s[j].rule_id)
  }

  lemma OrderedConcat(a: seq<Finding>, b: seq<Finding>, lo: nat, mid: nat, hi: nat)
    requires lo <= mid < hi
    requires RankOrdered(a) && RankOrdered(b) && RanksWithin(a, lo, mid) && RanksWithin(b, mid + 1, hi)
    ensures RankOrdered(a + b) && RanksWithin(a + b, lo, hi)
  {
    forall i | 0 <= i < |a + b| ensures lo <= Rank((a + b)[i].rule_id) <= hi {
      if i >= |a| {
        assert (a + b)[i] == b[i - |a|];
      } else {
        assert (a + b)[i] == a[i];
      }
    }
    forall i, j | 0 <= i < j < |a + b| ensures Rank((a + b)[i].rule_id) <= Rank((a + b)[j].rule_id) {
      if j < |a| {
      } else if i >= |a| {
        assert (a + b)[i] == b[i - |a|] && (a + b)[j] == b[j - |a|];
      } else {
        assert (a + b)[i] == a[i] && (a + b)[j] == b[j - |a|];
      }
    }
  }

  lemma {:induction false} HitsOrdered(xs: seq<Option<real>>, ys: seq<Option<real>>, m: nat, c: Cond,
                                       years: seq<int>, shift: nat, r: Rule)
    requires m <= |xs| && m <= |ys| && m + shift <= |years|
    ensures RankOrdered(Hits(xs, ys, m, c, years, shift, r))
    ensures RanksWithin(Hits(xs, ys, m, c, years, shift, r), Rank(r.id), Rank(r.id))
  {
    var h := Hits(xs, ys, m, c, years, shift, r);
    HitsMembers(xs, ys, m, c, years, shift, r);
    forall i | 0 <= i < |h| ensures h[i].rule_id == r.id {
      assert h[i] in h;
    }
  }

  lemma WindowOrdered(th: map<Key, real>, ys: seq<int>, w: Window)
    requires ThresholdsOk(th)
    requires |w.cashYoy| < |ys| && |w.oneoffRatio| <= |ys| && |w.netIncomeYoy| < |ys|
    ensures RankOrdered(WindowFindings(th, ys, w)) && RanksWithin(WindowFindings(th, ys, w), 3, 5)
  {
    var m := if |w.netIncomeYoy| < |w.revenueYoy| then |w.netIncomeYoy| else |w.revenueYoy|;
    var w1 := Hits(w.cashYoy, w.cashYoy, |w.cashYoy|, Above(th[FakeCashSpike]), ys, 1, RW1(th));
    var w2 := Hits(w.oneoffRatio, w.oneoffRatio, |w.oneoffRatio|, Above(th[OneoffProfitJump]), ys, 0, RW2(th));
    var w3 := Hits(w.netIncomeYoy, w.revenueYoy, m, ProfitSpike(th[ProfitSpikeNoRevenue]), ys, 1, RW3(th));
    HitsOrdered(w.cashYoy, w.cashYoy, |w.cashYoy|, Above(th[FakeCashSpike]), ys, 1, RW1(th));
    HitsOrdered(w.oneoffRatio, w.oneoffRatio, |w.oneoffRatio|, Above(th[OneoffProfitJump]), ys, 0, RW2(th));
    HitsOrdered(w.netIncomeYoy, w.revenueYoy, m, ProfitSpike(th[ProfitSpikeNoRevenue]), ys, 1, RW3(th));
    assert WindowFindings(th, ys, w) == w1 + w2 + w3;
    OrderedConcat(w1, w2, 3, 3, 4);
    OrderedConcat(w1 + w2, w3, 3, 4, 5);
  }

  lemma EvergreeningOrdered(th: map<Key, real>, ys: seq<int>, e: Evergreening)
    requires ThresholdsOk(th)
    requires |e.rolloverRatio| <= |ys| && |e.interestCapRatio| <= |ys| && |e.principalRepaymentRatio| <= |ys|
    ensures RankOrdered(EvergreeningFindings(th, ys, e)) && RanksWithin(EvergreeningFindings(th, ys, e), 9, 11)
  {
    var e1 := Hits(e.rolloverRatio, e.rolloverRatio, |e.rolloverRatio|, Above(th[LoanRolloverCritical]), ys, 0, RE1(th));
    var e2 := Hits(e.interestCapRatio, e.interestCapRatio, |e.interestCapRatio|, Above(th[InterestCapitalized]), ys, 0, RE2(th));
    var e3 := Hits(e.principalRepaymentRatio, e.principalRepaymentRatio, |e.principalRepaymentRatio|,
                   Below(th[MinimalPrincipalRepayment]), ys, 0, RE3(th));
    assert RE1(th).id == E1 && RE2(th).id == E2;
    HitsPairOrdered(e.rolloverRatio, e.rolloverRatio, |e.rolloverRatio|, Above(th[LoanRolloverCritical]), 0, RE1(th),
                    e.interestCapRatio, e.interestCapRatio, |e.interestCapRatio|, Above(th[InterestCapitalized]), 0, RE2(th), ys);
    HitsOrdered(e.principalRepaymentRatio, e.principalRepaymentRatio, |e.principalRepaymentRatio|,
                Below(th[MinimalPrincipalRepayment]), ys, 0, RE3(th));
    assert EvergreeningFindings(th, ys, e) == e1 + e2 + e3;
    OrderedConcat(e1 + e2, e3, 9, 10, 11);
  }

  /** Two consecutive rules' loops, in catalogue order. */
  lemma TwoLoopsOrdered(a: seq<Finding>, ia: RuleId, b: seq<Finding>, ib: RuleId)
    requires Rank(ia) < Rank(ib)
    requires forall f :: f in a ==> f.rule_id == ia
    requires forall f :: f in b ==> f.rule_id == ib
    ensures RankOrdered(a + b) && RanksWithin(a + b, Rank(ia), Rank(ib))
  {
    forall i | 0 <= i < |a + b| ensures (a + b)[i] in a || (a + b)[i] in b {
      if i < |a| {
        assert (a + b)[i] == a[i];
      } else {
        assert (a + b)[i] == b[i - |a|];
      }
    }
  }

  lemma HitsIds(xs: seq<Option<real>>, ys: seq<Option<real>>, m: nat, c: Cond,
                years: seq<int>, shift: nat, r: Rule)
    requires m <= |xs| && m <= |ys| && m + shift <= |years|
    ensures forall f :: f in Hits(xs, ys, m, c, years, shift, r) ==> f.rule_id == r.id
  {
    HitsMembers(xs, ys, m, c, years, shift, r);
  }

  /** Two loops over different rules, the lower-ranked first, report in rule order. */
  lemma HitsPairOrdered(xs1: seq<Option<real>>, ys1: seq<Option<real>>, m1: nat, c1: Cond, shift1: nat, r1: Rule,
                        xs2: seq<Option<real>>, ys2: seq<Option<real>>, m2: nat, c2: Cond, shift2: nat, r2: Rule,
                        years: seq<int>)
    requires m1 <= |xs1| && m1 <= |ys1| && m1 + shift1 <= |years|
    requires m2 <= |xs2| && m2 <= |ys2| && m2 + shift2 <= |years|
    requires Rank(r1.id) < Rank(r2.id)
    ensures var h := Hits(xs1, ys1, m1, c1, years, shift1, r1) + Hits(xs2, ys2, m2, c2, years, shift2, r2);
            RankOrdered(h) && RanksWithin(h, Rank(r1.id), Rank(r2.id))
  {
    HitsIds(xs1, ys1, m1, c1, years, shift1, r1);
    HitsIds(xs2, ys2, m2, c2, years, shift2, r2);
    TwoLoopsOrdered(Hits(xs1, ys1, m1, c1, years, shift1, r1), r1.id, Hits(xs2, ys2, m2, c2, years, shift2, r2), r2.id);
  }

  lemma RptRatiosOrdered(th: map<Key, real>, ys: seq<int>, c: Circular)
    requires ThresholdsOk(th)
    requires |c.rptSalesRatio| <= |ys| && |c.rptRecvRatio| <= |ys|
    ensures var c1 := Hits(c.rptSalesRatio, c.rptSalesRatio, |c.rptSalesRatio|, Above(th[RptRevenue]), ys, 0, RC1(th));
            var c2 := Hits(c.rptRecvRatio, c.rptRecvRatio, |c.rptRecvRatio|, Above(th[RptRecvSpike]), ys, 0, RC2(th));
            RankOrdered(c1 + c2) && RanksWithin(c1 + c2, 12, 13)
  {
    assert RC1(th).id == C1 && RC2(th).id == C2;
    HitsPairOrdered(c.rptSalesRatio, c.rptSalesRatio, |c.rptSalesRatio|, Above(th[RptRevenue]), 0, RC1(th),
                    c.rptRecvRatio, c.rptRecvRatio, |c.rptRecvRatio|, Above(th[RptRecvSpike]), 0, RC2(th), ys);
  }

  lemma CircularYoyOrdered(th: map<Key, real>, ys: seq<int>, c: Circular)
    requires ThresholdsOk(th)
    requires |c.recvYoy| < |ys| && |c.recvYoy| <= |c.revYoy| && |c.revYoy| < |ys| && |c.revYoy| <= |c.ocfYoy|
    ensures var c3 := Hits(c.recvYoy, c.revYoy, |c.recvYoy|, RecvSpike(th[RptRecvSpike]), ys, 1, RC2b(th));
            var c4 := Hits(c.revYoy, c.ocfYoy, |c.revYoy|, RevUpOcfDown, ys, 1, RC3);
            RankOrdered(c3 + c4) && RanksWithin(c3 + c4, 14, 15)
  {
    assert RC2b(th).id == C2b && RC3.id == C3;
    HitsPairOrdered(c.recvYoy, c.revYoy, |c.recvYoy|, RecvSpike(th[RptRecvSpike]), 1, RC2b(th),
                    c.revYoy, c.ocfYoy, |c.revYoy|, RevUpOcfDown, 1, RC3, ys);
  }

  lemma CircularOrdered(th: map<Key, real>, ys: seq<int>, c: Circular)
    requires ThresholdsOk(th)
    requires |c.rptSalesRatio| <= |ys| && |c.rptRecvRatio| <= |ys|
    requires |c.recvYoy| < |ys| && |c.recvYoy| <= |c.revYoy| && |c.revYoy| < |ys| && |c.revYoy| <= |c.ocfYoy|
    ensures RankOrdered(CircularFindings(th, ys, c)) && RanksWithin(CircularFindings(th, ys, c), 12, 15)
  {
    var c1 := Hits(c.rptSalesRatio, c.rptSalesRatio, |c.rptSalesRatio|, Above(th[RptRevenue]), ys, 0, RC1(th));
    var c2 := Hits(c.rptRecvRatio, c.rptRecvRatio, |c.rptRecvRatio|, Above(th[RptRecvSpike]), ys, 0, RC2(th));
    var c3 := Hits(c.recvYoy, c.revYoy, |c.recvYoy|, RecvSpike(th[RptRecvSpike]), ys, 1, RC2b(th));
    var c4 := Hits(c.revYoy, c.ocfYoy, |c.revYoy|, RevUpOcfDown, ys, 1, RC3);
    RptRatiosOrdered(th, ys, c);
    CircularYoyOrdered(th, ys, c);
    OrderedConcat(c1 + c2, c3 + c4, 12, 13, 15);
    assert CircularFindings(th, ys, c) == (c1 + c2) + (c3 + c4);
  }

  lemma ZombieOrdered(th: map<Key, real>, fs: seq<YearFinancials>, z: Zombie)
    requires ThresholdsOk(th) && |fs| > 0
    ensures RankOrdered(ZombieFindings(th, fs, z)) && RanksWithin(ZombieFindings(th, fs, z), 0, 2)
  {
  }

  lemma AssetOrdered(th: map<Key, real>, fs: seq<YearFinancials>, a: Asset)
    requires ThresholdsOk(th) && |fs| > 0
    ensures RankOrdered(AssetFindings(th, fs, a)) && RanksWithin(AssetFindings(th, fs, a), 6, 8)
  {
  }

  /**
   * The catalogue order: Z1, Z2, Z3, every W1, every W2, every W3, A1, A2,
   * A3, every E1, E2, E3, then every C1, C2, C2b and C3.
   */
  lemma CatalogueOrder(th: map<Key, real>, financials: seq<YearFinancials>)
    requires ThresholdsOk(th)
    ensures RankOrdered(EvaluateSpec(th, financials))
  {
    if financials != [] {
      var fs := Sorted(financials);
      var ys := Years(fs);
      var zs := ZombieFindings(th, fs, ZombieOf(fs));
      var ws := WindowFindings(th, ys, WindowOfRecords(fs));
      var fa := AssetFindings(th, fs, AssetOfRecords(fs));
      var es := EvergreeningFindings(th, ys, EvergreeningOfRecords(fs));
      var cs := CircularFindings(th, ys, CircularOfRecords(fs));
      assert EvaluateSpec(th, financials) == zs + ws + fa + es + cs;
      ZombieOrdered(th, fs, ZombieOf(fs));
      AssetOrdered(th, fs, AssetOfRecords(fs));
      WindowOrdered(th, ys, WindowOfRecords(fs));
      EvergreeningOrdered(th, ys, EvergreeningOfRecords(fs));
      CircularOrdered(th, ys, CircularOfRecords(fs));
      OrderedConcat(zs, ws, 0, 2, 5);
      OrderedConcat(zs + ws, fa, 0, 5, 8);
      OrderedConcat(zs + ws + fa, es, 0, 8, 11);
      OrderedConcat(zs + ws + fa + es, cs, 0, 11, 15);
    }
  }

  lemma {:induction false} WithIdOutside(s: seq<Finding>, id: RuleId, lo: nat, hi: nat)
    requires RanksWithin(s, lo, hi) && (Rank(id) < lo || hi < Rank(id))
    ensures WithId(s, id) == []
  {
    if s != [] {
      WithIdOutside(s[1..], id, lo, hi);
    }
  }

  /** Splits a rule's findings over the five groups. */
  lemma WithIdGroups(th: map<Key, real>, financials: seq<YearFinancials>, id: RuleId)
    requires ThresholdsOk(th) && financials != []
    ensures var fs := Sorted(financials);
            var ys := Years(fs);
            WithId(EvaluateSpec(th, financials), id)
            == WithId(ZombieFindings(th, fs, ZombieOf(fs)), id) + WithId(WindowFindings(th, ys, WindowOfRecords(fs)), id)
               + WithId(AssetFindings(th, fs, AssetOfRecords(fs)), id)
               + WithId(EvergreeningFindings(th, ys, EvergreeningOfRecords(fs)), id)
               + WithId(CircularFindings(th, ys, CircularOfRecords(fs)), id)
  {
    var fs := Sorted(financials);
    var ys := Years(fs);
    var zs := ZombieFindings(th, fs, ZombieOf(fs));
    var ws := WindowFindings(th, ys, WindowOfRecords(fs));
    var fa := AssetFindings(th, fs, AssetOfRecords(fs));
    var es := EvergreeningFindings(th, ys, EvergreeningOfRecords(fs));
    var cs := CircularFindings(th, ys, CircularOfRecords(fs));
    assert EvaluateSpec(th, financials) == zs + ws + fa + es + cs;
    WithIdAppend(zs + ws + fa + es, cs, id);
    WithIdAppend(zs + ws + fa, es, id);
    WithIdAppend(zs + ws, fa, id);
    WithIdAppend(zs, ws, id);
  }

  /** Z1, Z2 and Z3 findings all come from the zombie group. */
  lemma ZombieGroupOfRule(th: map<Key, real>, financials: seq<YearFinancials>, id: RuleId)
    requires ThresholdsOk(th) && financials != [] && Rank(id) <= 2
    ensures var fs := Sorted(financials);
            WithId(EvaluateSpec(th, financials), id) == WithId(ZombieFindings(th, fs, ZombieOf(fs)), id)
  {
    var fs := Sorted(financials);
    var ys := Years(fs);
    WithIdGroups(th, financials, id);
    WindowOrdered(th, ys, WindowOfRecords(fs));
    AssetOrdered(th, fs, AssetOfRecords(fs));
    EvergreeningOrdered(th, ys, EvergreeningOfRecords(fs));
    CircularOrdered(th, ys, CircularOfRecords(fs));
    WithIdOutside(WindowFindings(th, ys, WindowOfRecords(fs)), id, 3, 5);
    WithIdOutside(AssetFindings(th, fs, AssetOfRecords(fs)), id, 6, 8);
    WithIdOutside(EvergreeningFindings(th, ys, EvergreeningOfRecords(fs)), id, 9, 11);
    WithIdOutside(CircularFindings(th, ys, CircularOfRecords(fs)), id, 12, 15);
  }

  /** A1, A2 and A3 findings all come from the asset group. */
  lemma AssetGroupOfRule(th: map<Key, real>, financials: seq<YearFinancials>, id: RuleId)
    requires ThresholdsOk(th) && financials != [] && 6 <= Rank(id) <= 8
    ensures var fs := Sorted(financials);
            WithId(EvaluateSpec(th, financials), id) == WithId(AssetFindings(th, fs, AssetOfRecords(fs)), id)
  {
    var fs := Sorted(financials);
    var ys := Years(fs);
    WithIdGroups(th, financials, id);
    ZombieOrdered(th, fs, ZombieOf(fs));
    WindowOrdered(th, ys, WindowOfRecords(fs));
    EvergreeningOrdered(th, ys, EvergreeningOfRecords(fs));
    CircularOrdered(th, ys, CircularOfRecords(fs));
    WithIdOutside(ZombieFindings(th, fs, ZombieOf(fs)), id, 0, 2);
    WithIdOutside(WindowFindings(th, ys, WindowOfRecords(fs)), id, 3, 5);
    WithIdOutside(EvergreeningFindings(th, ys, EvergreeningOfRecords(fs)), id, 9, 11);
    WithIdOutside(CircularFindings(th, ys, CircularOfRecords(fs)), id, 12, 15);
  }

  function Singleton(b: bool, f: Finding): seq<Finding>
  {
    if b then [f] else []
  }

  lemma WithIdSingleton(b: bool, x: Finding, id: RuleId)
    ensures WithId(Singleton(b, x), id) == Singleton(b && x.rule_id == id, x)
  {
    if b {
      assert [x][1..] == [];
    }
  }

  lemma WithIdSingletons(a: bool, fa: Finding, b: bool, fb: Finding, c: bool, fc: Finding, id: RuleId)
    requires fa.rule_id != fb.rule_id && fb.rule_id != fc.rule_id && fa.rule_id != fc.rule_id
    ensures var w := WithId(Singleton(a, fa) + Singleton(b, fb) + Singleton(c, fc), id);
            && |w| <= 1
            && (|w| == 1 <==> (a && fa.rule_id == id) || (b && fb.rule_id == id) || (c && fc.rule_id == id))
            && (forall f :: f in w ==> f.rule_id == id && (f == fa || f == fb || f == fc))
  {
    WithIdAppend(Singleton(a, fa) + Singleton(b, fb), Singleton(c, fc), id);
    WithIdAppend(Singleton(a, fa), Singleton(b, fb), id);
    WithIdSingleton(a, fa, id);
    WithIdSingleton(b, fb, id);
    WithIdSingleton(c, fc, id);
  }

  /** Of three optional findings, only the one carrying `id` survives the filter. */
  lemma WithIdThird(a: bool, fa: Finding, b: bool, fb: Finding, c: bool, fc: Finding, id: RuleId)
    requires fa.rule_id != id && fb.rule_id != id && fc.rule_id == id
    ensures WithId(Singleton(a, fa) + Singleton(b, fb) + Singleton(c, fc), id) == Singleton(c, fc)
  {
    WithIdAppend(Singleton(a, fa) + Singleton(b, fb), Singleton(c, fc), id);
    WithIdAppend(Singleton(a, fa), Singleton(b, fb), id);
    WithIdSingleton(a, fa, id);
    WithIdSingleton(b, fb, id);
    WithIdSingleton(c, fc, id);
  }

  lemma WithIdFirst(a: bool, fa: Finding, b: bool, fb: Finding, c: bool, fc: Finding, id: RuleId)
    requires fa.rule_id == id && fb.rule_id != id && fc.rule_id != id
    ensures WithId(Singleton(a, fa) + Singleton(b, fb) + Singleton(c, fc), id) == Singleton(a, fa)
  {
    WithIdAppend(Singleton(a, fa) + Singleton(b, fb), Singleton(c, fc), id);
    WithIdAppend(Singleton(a, fa), Singleton(b, fb), id);
    WithIdSingleton(a, fa, id);
    WithIdSingleton(b, fb, id);
    WithIdSingleton(c, fc, id);
    assert Singleton(a, fa) + [] + [] == Singleton(a, fa);
  }

  lemma WithIdSecond(a: bool, fa: Finding, b: bool, fb: Finding, c: bool, fc: Finding, id: RuleId)
    requires fa.rule_id != id && fb.rule_id == id && fc.rule_id != id
    ensures WithId(Singleton(a, fa) + Singleton(b, fb) + Singleton(c, fc), id) == Singleton(b, fb)
  {
    WithIdAppend(Singleton(a, fa) + Singleton(b, fb), Singleton(c, fc), id);
    WithIdAppend(Singleton(a, fa), Singleton(b, fb), id);
    WithIdSingleton(a, fa, id);
    WithIdSingleton(b, fb, id);
    WithIdSingleton(c, fc, id);
    assert [] + Singleton(b, fb) + [] == Singleton(b, fb);
  }

  /** The zombie group on its own: Z1 and Z2 each at most once. */
  lemma ZombieGroupOnce(th: map<Key, real>, fs: seq<YearFinancials>, z: Zombie)
    requires ThresholdsOk(th) && |fs| > 0
    ensures var zs := ZombieFindings(th, fs, z);
            && |WithId(zs, Z1)| <= 1
            && (|WithId(zs, Z1)| == 1 <==> z.ebitInterestConsec as real >= th[InterestOvertakeYears])
            && |WithId(zs, Z2)| <= 1
            && (|WithId(zs, Z2)| == 1 <==> z.ocfInterestConsec as real >= th[InterestOvertakeYears])
  {
    var n := |fs|;
    var ni := Column(fs, NetIncomeC);
    var nd := Column(fs, NetDebtC);
    var latest := fs[n - 1].year;
    var a := z.ebitInterestConsec as real >= th[InterestOvertakeYears];
    var b := z.ocfInterestConsec as real >= th[InterestOvertakeYears];
    var c := SafeLt(ni[n - 1], ni[0]) && SafeGt(nd[n - 1], nd[0]);
    var fa := Make(RZ1(th), latest, Some(z.ebitInterestConsec as real));
    var fb := Make(RZ2(th), latest, Some(z.ocfInterestConsec as real));
    var fc := Make(RZ3, latest, if c then Some(nd[n - 1].value - nd[0].value) else None);
    assert ZombieFindings(th, fs, z) == Singleton(a, fa) + Singleton(b, fb) + Singleton(c, fc);
    WithIdFirst(a, fa, b, fb, c, fc, Z1);
    WithIdSecond(a, fa, b, fb, c, fc, Z2);
  }

  /** The zombie group on its own: Z3 at most once. */
  lemma NetDebtGroupOnce(th: map<Key, real>, fs: seq<YearFinancials>, z: Zombie)
    requires ThresholdsOk(th) && |fs| > 0
    ensures var n := |fs|;
            var ni := Column(fs, NetIncomeC);
            var nd := Column(fs, NetDebtC);
            var zs := ZombieFindings(th, fs, z);
            && |WithId(zs, Z3)| <= 1
            && (|WithId(zs, Z3)| == 1 <==>
                 ni[n - 1].Some? && ni[0].Some? && nd[n - 1].Some? && nd[0].Some?
                 && ni[n - 1].value < ni[0].value && nd[n - 1].value > nd[0].value)
            && (forall f :: f in WithId(zs, Z3) ==>
                 f.year == fs[n - 1].year && f.value == Some(nd[n - 1].value - nd[0].value))
  {
    var n := |fs|;
    var ni := Column(fs, NetIncomeC);
    var nd := Column(fs, NetDebtC);
    var latest := fs[n - 1].year;
    var a := z.ebitInterestConsec as real >= th[InterestOvertakeYears];
    var b := z.ocfInterestConsec as real >= th[InterestOvertakeYears];
    var c := SafeLt(ni[n - 1], ni[0]) && SafeGt(nd[n - 1], nd[0]);
    var fa := Make(RZ1(th), latest, Some(z.ebitInterestConsec as real));
    var fb := Make(RZ2(th), latest, Some(z.ocfInterestConsec as real));
    var fc := Make(RZ3, latest, if c then Some(nd[n - 1].value - nd[0].value) else None);
    assert ZombieFindings(th, fs, z) == Singleton(a, fa) + Singleton(b, fb) + Singleton(c, fc);
    WithIdThird(a, fa, b, fb, c, fc, Z3);
  }

  /** Z1 fires at most once, exactly when the longest EBIT < interest run reaches interest_overtake_years. */
  lemma EbitRunRuleFiresOnce(th: map<Key, real>, financials: seq<YearFinancials>)
    requires ThresholdsOk(th) && financials != []
    ensures var fs := Sorted(financials);
            var r := EvaluateSpec(th, financials);
            && |WithId(r, Z1)| <= 1
            && (|WithId(r, Z1)| == 1 <==>
                 LongestRun(BelowFlags(Column(fs, EbitC), Column(fs, InterestC))) as real >= th[InterestOvertakeYears])
  {
    var fs := Sorted(financials);
    ZombieGroupOfRule(th, financials, Z1);
    ZombieGroupOnce(th, fs, ZombieOf(fs));
  }

  /** Z2 fires at most once, exactly when the longest OCF < interest run reaches interest_overtake_years. */
  lemma OcfRunRuleFiresOnce(th: map<Key, real>, financials: seq<YearFinancials>)
    requires ThresholdsOk(th) && financials != []
    ensures var fs := Sorted(financials);
            var r := EvaluateSpec(th, financials);
            && |WithId(r, Z2)| <= 1
            && (|WithId(r, Z2)| == 1 <==>
                 LongestRun(BelowFlags(Column(fs, OcfC), Column(fs, InterestC))) as real >= th[InterestOvertakeYears])
  {
    var fs := Sorted(financials);
    ZombieGroupOfRule(th, financials, Z2);
    ZombieGroupOnce(th, fs, ZombieOf(fs));
  }

  /**
   * Z3 fires at most once, exactly when the last net income is below the
   * first and the last net debt above the first, with all four present; it
   * carries the net-debt increase and is dated the latest year.
   */
  lemma NetDebtRuleFiresOnce(th: map<Key, real>, financials: seq<YearFinancials>)
    requires ThresholdsOk(th) && financials != []
    ensures var fs := Sorted(financials);
            var n := |fs|;
            var ni := Column(fs, NetIncomeC);
            var nd := Column(fs, NetDebtC);
            var r := EvaluateSpec(th, financials);
            && |WithId(r, Z3)| <= 1
            && (|WithId(r, Z3)| == 1 <==>
                 ni[n - 1].Some? && ni[0].Some? && nd[n - 1].Some? && nd[0].Some?
                 && ni[n - 1].value < ni[0].value && nd[n - 1].value > nd[0].value)
            && (forall f :: f in WithId(r, Z3) ==>
                 f.year == fs[n - 1].year && f.value == Some(nd[n - 1].value - nd[0].value))
  {
    var fs := Sorted(financials);
    ZombieGroupOfRule(th, financials, Z3);
    NetDebtGroupOnce(th, fs, ZombieOf(fs));
  }

  lemma AssetGroupOnce(th: map<Key, real>, fs: seq<YearFinancials>, asset: Asset)
    requires ThresholdsOk(th) && |fs| > 0
    ensures var div := Column(fs, DividendsC);
            var first := FirstDividendHit(div, Column(fs, FixedAssetsC), 1);
            var w := WithId(AssetFindings(th, fs, asset), A2);
            && |w| <= 1
            && (|w| == 1 <==> first.Some?)
            && (forall f :: f in w ==> first.Some? && f.year == fs[first.value].year && f.value == div[first.value])
  {
    var n := |fs|;
    var div := Column(fs, DividendsC);
    var first := FirstDividendHit(div, Column(fs, FixedAssetsC), 1);
    var latest := fs[n - 1].year;
    var a := asset.fixedAssetDeclineYears as real >= th[FixedAssetDeclineYears];
    var c := asset.assetsShrinking && asset.debtRising;
    var fa := Make(RA1(th), latest, Some(asset.fixedAssetDeclineYears as real));
    var fb := Make(RA2, if first.Some? then fs[first.value].year else 0, if first.Some? then div[first.value] else None);
    var fc := Make(RA3, latest, None);
    assert AssetFindings(th, fs, asset) == Singleton(a, fa) + Singleton(first.Some?, fb) + Singleton(c, fc);
    WithIdSecond(a, fa, first.Some?, fb, c, fc, A2);
  }

  /** The search finds a year whenever one qualifies. */
  lemma FirstDividendHitComplete(div: seq<Option<real>>, fa: seq<Option<real>>)
    requires |div| == |fa|
    ensures FirstDividendHit(div, fa, 1).Some? <==> exists k :: 1 <= k < |div| && DividendHit(div, fa, k)
  {
    if exists k :: 1 <= k < |div| && DividendHit(div, fa, k) {
      var k :| 1 <= k < |div| && DividendHit(div, fa, k);
      assert FirstDividendHit(div, fa, 1).Some?;
    }
  }

  /**
   * A2 fires at most once, exactly when some year (from the second on) has
   * a dividend above 0 and fixed assets below the year before, and then at
   * the first such year, with the dividend as its value.
   */
  lemma DividendRuleFirstYear(th: map<Key, real>, financials: seq<YearFinancials>)
    requires ThresholdsOk(th) && financials != []
    ensures var fs := Sorted(financials);
            var div := Column(fs, DividendsC);
            var fa := Column(fs, FixedAssetsC);
            var r := EvaluateSpec(th, financials);
            && |WithId(r, A2)| <= 1
            && (|WithId(r, A2)| == 1 <==> exists k :: 1 <= k < |fs| && DividendHit(div, fa, k))
    ensures var fs := Sorted(financials);
            var div := Column(fs, DividendsC);
            var fa := Column(fs, FixedAssetsC);
            var first := FirstDividendHit(div, fa, 1);
            forall f :: f in WithId(EvaluateSpec(th, financials), A2) ==>
              first.Some? && f.year == fs[first.value].year && f.value == div[first.value]
  {
    var fs := Sorted(financials);
    AssetGroupOfRule(th, financials, A2);
    AssetGroupOnce(th, fs, AssetOfRecords(fs));
    FirstDividendHitComplete(Column(fs, DividendsC), Column(fs, FixedAssetsC));
  }

  /** How far past its series index each per-year rule's finding is dated. */
  function Shift(id: RuleId): nat
  {
    if id == W1 || id == W3 || id == C2b || id == C3 then 1 else 0
  }

  predicate PerYear(id: RuleId)
  {
    3 <= Rank(id) <= 5 || 9 <= Rank(id)
  }

  /** Dated the year of the record `Shift` past some series index. */
  predicate DatedAt(f: Finding, ys: seq<int>)
  {
    exists j :: Shift(f.rule_id) <= j < |ys| && f.year == ys[j]
  }

  lemma HitsDated(xs: seq<Option<real>>, ys: seq<Option<real>>, m: nat, c: Cond,
                  years: seq<int>, r: Rule, f: Finding)
    requires m <= |xs| && m <= |ys| && m + Shift(r.id) <= |years|
    requires f in Hits(xs, ys, m, c, years, Shift(r.id), r)
    ensures f.rule_id == r.id && DatedAt(f, years)
  {
    HitsMembers(xs, ys, m, c, years, Shift(r.id), r);
    var i :| 0 <= i < m && Holds(c, xs[i], ys[i]) && f == Make(r, years[i + Shift(r.id)], xs[i]);
    assert f.year == years[i + Shift(r.id)];
  }

  lemma RankOutside(s: seq<Finding>, f: Finding, lo: nat, hi: nat)
    requires RanksWithin(s, lo, hi) && (Rank(f.rule_id) < lo || hi < Rank(f.rule_id))
    ensures f !in s
  {
  }

  lemma WindowDated(th: map<Key, real>, ys: seq<int>, w: Window, f: Finding)
    requires ThresholdsOk(th)
    requires |w.cashYoy| < |ys| && |w.oneoffRatio| <= |ys| && |w.netIncomeYoy| < |ys|
    requires f in WindowFindings(th, ys, w)
    ensures DatedAt(f, ys)
  {
    var m := if |w.netIncomeYoy| < |w.revenueYoy| then |w.netIncomeYoy| else |w.revenueYoy|;
    if f in Hits(w.cashYoy, w.cashYoy, |w.cashYoy|, Above(th[FakeCashSpike]), ys, 1, RW1(th)) {
      HitsDated(w.cashYoy, w.cashYoy, |w.cashYoy|, Above(th[FakeCashSpike]), ys, RW1(th), f);
    } else if f in Hits(w.oneoffRatio, w.oneoffRatio, |w.oneoffRatio|, Above(th[OneoffProfitJump]), ys, 0, RW2(th)) {
      HitsDated(w.oneoffRatio, w.oneoffRatio, |w.oneoffRatio|, Above(th[OneoffProfitJump]), ys, RW2(th), f);
    } else {
      HitsDated(w.netIncomeYoy, w.revenueYoy, m, ProfitSpike(th[ProfitSpikeNoRevenue]), ys, RW3(th), f);
    }
  }

  lemma EvergreeningDated(th: map<Key, real>, ys: seq<int>, e: Evergreening, f: Finding)
    requires ThresholdsOk(th)
    requires |e.rolloverRatio| <= |ys| && |e.interestCapRatio| <= |ys| && |e.principalRepaymentRatio| <= |ys|
    requires f in EvergreeningFindings(th, ys, e)
    ensures DatedAt(f, ys)
  {
    if f in Hits(e.rolloverRatio, e.rolloverRatio, |e.rolloverRatio|, Above(th[LoanRolloverCritical]), ys, 0, RE1(th)) {
      HitsDated(e.rolloverRatio, e.rolloverRatio, |e.rolloverRatio|, Above(th[LoanRolloverCritical]), ys, RE1(th), f);
    } else if f in Hits(e.interestCapRatio, e.interestCapRatio, |e.interestCapRatio|, Above(th[InterestCapitalized]), ys, 0, RE2(th)) {
      HitsDated(e.interestCapRatio, e.interestCapRatio, |e.interestCapRatio|, Above(th[InterestCapitalized]), ys, RE2(th), f);
    } else {
      HitsDated(e.principalRepaymentRatio, e.principalRepaymentRatio, |e.principalRepaymentRatio|,
                Below(th[MinimalPrincipalRepayment]), ys, RE3(th), f);
    }
  }

  lemma CircularDated(th: map<Key, real>, ys: seq<int>, c: Circular, f: Finding)
    requires ThresholdsOk(th)
    requires |c.rptSalesRatio| <= |ys| && |c.rptRecvRatio| <= |ys|
    requires |c.recvYoy| < |ys| && |c.recvYoy| <= |c.revYoy| && |c.revYoy| < |ys| && |c.revYoy| <= |c.ocfYoy|
    requires f in CircularFindings(th, ys, c)
    ensures DatedAt(f, ys)
  {
    if f in Hits(c.rptSalesRatio, c.rptSalesRatio, |c.rptSalesRatio|, Above(th[RptRevenue]), ys, 0, RC1(th)) {
      HitsDated(c.rptSalesRatio, c.rptSalesRatio, |c.rptSalesRatio|, Above(th[RptRevenue]), ys, RC1(th), f);
    } else if f in Hits(c.rptRecvRatio, c.rptRecvRatio, |c.rptRecvRatio|, Above(th[RptRecvSpike]), ys, 0, RC2(th)) {
      HitsDated(c.rptRecvRatio, c.rptRecvRatio, |c.rptRecvRatio|, Above(th[RptRecvSpike]), ys, RC2(th), f);
    } else if f in Hits(c.recvYoy, c.revYoy, |c.recvYoy|, RecvSpike(th[RptRecvSpike]), ys, 1, RC2b(th)) {
      HitsDated(c.recvYoy, c.revYoy, |c.recvYoy|, RecvSpike(th[RptRecvSpike]), ys, RC2b(th), f);
    } else {
      HitsDated(c.revYoy, c.ocfYoy, |c.revYoy|, RevUpOcfDown, ys, RC3, f);
    }
  }

  /**
   * A YoY-based finding (W1, W3, C2b, C3) for entry i is dated the year of
   * sorted record i + 1; a per-year ratio finding (W2, E1-E3, C1, C2) the
   * year of record i. Z and A findings are not per-year.
   */
  lemma PerYearFindingsDated(th: map<Key, real>, financials: seq<YearFinancials>, f: Finding)
    requires ThresholdsOk(th) && f in EvaluateSpec(th, financials) && PerYear(f.rule_id)
    ensures DatedAt(f, Years(Sorted(financials)))
  {
    var fs := Sorted(financials);
    var ys := Years(fs);
    var zs := ZombieFindings(th, fs, ZombieOf(fs));
    var ws := WindowFindings(th, ys, WindowOfRecords(fs));
    var fa := AssetFindings(th, fs, AssetOfRecords(fs));
    var es := EvergreeningFindings(th, ys, EvergreeningOfRecords(fs));
    var cs := CircularFindings(th, ys, CircularOfRecords(fs));
    assert EvaluateSpec(th, financials) == zs + ws + fa + es + cs;
    ZombieOrdered(th, fs, ZombieOf(fs));
    AssetOrdered(th, fs, AssetOfRecords(fs));
    RankOutside(zs, f, 0, 2);
    RankOutside(fa, f, 6, 8);
    if f in ws {
      WindowDated(th, ys, WindowOfRecords(fs), f);
    } else if f in es {
      EvergreeningDated(th, ys, EvergreeningOfRecords(fs), f);
    } else {
      CircularDated(th, ys, CircularOfRecords(fs), f);
    }
  }

  /**
   * W3 treats a missing revenue YoY as no revenue growth and still fires;
   * C2b skips a year when either YoY is missing.
   */
  lemma MissingYoyHandling(b: real, x: Option<real>, y: Option<real>)
    ensures Holds(ProfitSpike(b), x, None) <==> x.Some? && x.value > b
    ensures !Holds(RecvSpike(b), x, None) && !Holds(RecvSpike(b), None, y)
  {
  }

  /** Two threshold maps that agree on every key the rules read. */
  predicate SameRuleThresholds(a: map<Key, real>, b: map<Key, real>)
  {
    && ThresholdsOk(a) && ThresholdsOk(b)
    && a[InterestOvertakeYears] == b[InterestOvertakeYears] && a[FakeCashSpike] == b[FakeCashSpike]
    && a[OneoffProfitJump] == b[OneoffProfitJump] && a[ProfitSpikeNoRevenue] == b[ProfitSpikeNoRevenue]
    && a[FixedAssetDeclineYears] == b[FixedAssetDeclineYears] && a[LoanRolloverCritical] == b[LoanRolloverCritical]
    && a[InterestCapitalized] == b[InterestCapitalized] && a[MinimalPrincipalRepayment] == b[MinimalPrincipalRepayment]
    && a[RptRevenue] == b[RptRevenue] && a[RptRecvSpike] == b[RptRecvSpike]
  }

  /** The rule records of two such maps coincide. */
  lemma SameRuleRecords(a: map<Key, real>, b: map<Key, real>)
    requires SameRuleThresholds(a, b)
    ensures RZ1(a) == RZ1(b) && RZ2(a) == RZ2(b) && RW1(a) == RW1(b) && RW2(a) == RW2(b) && RW3(a) == RW3(b)
    ensures RA1(a) == RA1(b) && RE1(a) == RE1(b) && RE2(a) == RE2(b) && RE3(a) == RE3(b)
    ensures RC1(a) == RC1(b) && RC2(a) == RC2(b) && RC2b(a) == RC2b(b)
  {
  }

  /** Only the ten rule keys decide the findings. */
  lemma RuleKeysDecide(a: map<Key, real>, b: map<Key, real>, financials: seq<YearFinancials>)
    requires SameRuleThresholds(a, b)
    ensures EvaluateSpec(a, financials) == EvaluateSpec(b, financials)
  {
    if financials != [] {
      var fs := Sorted(financials);
      var ys := Years(fs);
      SameRuleRecords(a, b);
      ZombieKeys(a, b, fs, ZombieOf(fs));
      WindowKeys(a, b, ys, WindowOfRecords(fs));
      AssetKeys(a, b, fs, AssetOfRecords(fs));
      EvergreeningKeys(a, b, ys, EvergreeningOfRecords(fs));
      CircularKeys(a, b, ys, CircularOfRecords(fs));
    }
  }

  lemma ZombieKeys(a: map<Key, real>, b: map<Key, real>, fs: seq<YearFinancials>, z: Zombie)
    requires SameRuleThresholds(a, b) && |fs| > 0
    ensures ZombieFindings(a, fs, z) == ZombieFindings(b, fs, z)
  {
    SameRuleRecords(a, b);
  }

  lemma WindowKeys(a: map<Key, real>, b: map<Key, real>, ys: seq<int>, w: Window)
    requires SameRuleThresholds(a, b)
    requires |w.cashYoy| < |ys| && |w.oneoffRatio| <= |ys| && |w.netIncomeYoy| < |ys|
    ensures WindowFindings(a, ys, w) == WindowFindings(b, ys, w)
  {
    SameRuleRecords(a, b);
  }

  lemma AssetKeys(a: map<Key, real>, b: map<Key, real>, fs: seq<YearFinancials>, asset: Asset)
    requires SameRuleThresholds(a, b) && |fs| > 0
    ensures AssetFindings(a, fs, asset) == AssetFindings(b, fs, asset)
  {
    SameRuleRecords(a, b);
  }

  lemma EvergreeningKeys(a: map<Key, real>, b: map<Key, real>, ys: seq<int>, e: Evergreening)
    requires SameRuleThresholds(a, b)
    requires |e.rolloverRatio| <= |ys| && |e.interestCapRatio| <= |ys| && |e.principalRepaymentRatio| <= |ys|
    ensures EvergreeningFindings(a, ys, e) == EvergreeningFindings(b, ys, e)
  {
    SameRuleRecords(a, b);
  }

  lemma CircularKeys(a: map<Key, real>, b: map<Key, real>, ys: seq<int>, c: Circular)
    requires SameRuleThresholds(a, b)
    requires |c.rptSalesRatio| <= |ys| && |c.rptRecvRatio| <= |ys|
    requires |c.recvYoy| < |ys| && |c.recvYoy| <= |c.revYoy|
    requires |c.revYoy| < |ys| && |c.revYoy| <= |c.ocfYoy|
    ensures CircularFindings(a, ys, c) == CircularFindings(b, ys, c)
  {
    SameRuleRecords(a, b);
  }

  /** dividend_high_ratio and rpt_assets_threshold are never read. */
  lemma UnusedThresholds(th: map<Key, real>, financials: seq<YearFinancials>, v: real)
    requires ThresholdsOk(th)
    ensures EvaluateSpec(th[DividendHighRatio := v], financials) == EvaluateSpec(th, financials)
    ensures EvaluateSpec(th[RptAssets := v], financials) == EvaluateSpec(th, financials)
  {
    RuleKeysDecide(th[DividendHighRatio := v], th, financials);
    RuleKeysDecide(th[RptAssets := v], th, financials);
  }
}
