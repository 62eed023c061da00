/**
 * aiqm_rule_engine of the asset & intangible quality module: thirteen
 * rules in six groups (A productivity, B age and reinvestment, C
 * impairment, D goodwill and intangible concentration, E intangible
 * quality, F CWIP conversion). A rule whose input is missing is left out
 * of the result, except A2 and B2, which are always reported; group F is
 * skipped when the trends lack the capitalization entries and may report
 * F1 up to three times.
 */
module AiqmRules {
  import opened Common
  import opened AiqmModels

  /** The rule ids the engine writes as strings "A1" … "F1". */
  datatype RuleId = A1 | A2 | B1 | B2 | C1 | C2 | C3 | D1 | D2 | D3 | E1 | E2 | F1

  /** Which branch of a rule fired: the first, second or third of its tests. */
  datatype Branch = First | Second | Third

  /**
   * A RuleResult. Its name, metric, period ("year"), threshold text and
   * reason follow from the id and branch; `args` are the numbers the
   * threshold f-string interpolates.
   */
  datatype Finding = Finding(rule_id: RuleId, flag: Flag, value: Option<real>, branch: Branch, args: seq<real>)

  /** The position of a rule in the engine's order. */
  function Rank(id: RuleId): nat
  {
    match id
    case A1 => 0 case A2 => 1 case B1 => 2 case B2 => 3 case C1 => 4 case C2 => 5 case C3 => 6
    case D1 => 7 case D2 => 8 case D3 => 9 case E1 => 10 case E2 => 11 case F1 => 12
  }

  function RuleName(id: RuleId): string
  {
    match id
    case A1 => "Asset Turnover Threshold" case A2 => "Asset Turnover Declining 3Y"
    case B1 => "Asset Age Proxy" case B2 => "Depreciation > Capex (3Y)"
    case C1 => "High Impairment Level" case C2 => "Sudden Impairment Spike" case C3 => "Frequent Impairments"
    case D1 => "Goodwill Concentration" case D2 => "Goodwill Growth vs Revenue"
    case D3 => "Intangible Growth vs Operating Assets"
    case E1 => "Amortization Discipline" case E2 => "R&D to Intangible Additions"
    case F1 => "CWIP Trend vs Capitalization"
  }

  /** The metric a finding names; F1's red branch names capitalization, its others the CWIP ratio. */
  function Metric(id: RuleId, b: Branch): string
  {
    match id
    case A1 => "asset_turnover" case A2 => "asset_turnover" case B1 => "asset_age_proxy"
    case B2 => "capex_vs_depreciation" case C1 => "impairment_pct" case C2 => "impairment_yoy"
    case C3 => "impairment" case D1 => "goodwill_pct" case D2 => "goodwill_growth" case D3 => "intangible_cagr"
    case E1 => "amortization_ratio" case E2 => "r_and_d_intangible_ratio"
    case F1 => if b == First then "capitalization" else "cwip_vs_cap"
  }

  /** The period a finding reports in its "year" field. */
  function Period(id: RuleId): string
  {
    match id
    case A2 => "5Y Trend" case B2 => "5Y" case C3 => "5Y" case D3 => "5Y CAGR"
    case _ => "Latest"
  }

  /** The threshold f-string; each {} takes the next of the finding's args. */
  function ThresholdTemplate(id: RuleId, b: Branch): string
  {
    match (id, b)
    case (A1, First) => "<{}" case (A1, Second) => "{}–{}" case (A1, Third) => ">={}"
    case (A2, First) => "3 consecutive declines" case (A2, _) => "No 3-year decline"
    case (B1, First) => ">{}" case (B1, Second) => "{}–{}" case (B1, Third) => "<{}"
    case (B2, First) => ">=3 years" case (B2, _) => "<3 years"
    case (C1, _) => ">{}" case (C2, _) => ">{}" case (C3, _) => ">=3"
    case (D1, First) => ">{}" case (D1, Second) => "{}–{}" case (D1, Third) => "<{}"
    case (D2, _) => "Goodwill CAGR > Revenue CAGR +10%"
    case (D3, First) => ">{}" case (D3, _) => "<{}"
    case (E1, First) => "<0.02" case (E1, _) => ">=0.02"
    case (E2, First) => "<0.5" case (E2, _) => ">=0.5"
    case (F1, First) => "<0" case (F1, Second) => "CWIP↑ & Capex↓" case (F1, Third) => ">0.10"
  }

  function Threshold(f: Finding): Text { Text(ThresholdTemplate(f.rule_id, f.branch), f.args) }

  function Reason(id: RuleId, b: Branch): string
  {
    match (id, b)
    case (A1, First) => "Asset turnover extremely low — very poor utilization."
    case (A1, Second) => "Asset turnover below optimal levels — suboptimal utilization."
    case (A1, Third) => "Healthy asset utilization."
    case (A2, First) => "Asset turnover has declined for 3 consecutive years."
    case (A2, _) => "Asset turnover trend is stable."
    case (B1, First) => "Very old asset base — nearing replacement."
    case (B1, Second) => "Aging asset base — higher maintenance & replacement risk."
    case (B1, Third) => "Healthy asset age profile."
    case (B2, First) => "Depreciation exceeded capex for 3+ years — weak reinvestment."
    case (B2, _) => "Reinvestment appears sufficient."
    case (C1, _) => "Significant impairment relative to net block."
    case (C2, _) => "Large YoY impairment spike — possible failed project."
    case (C3, _) => "Frequent impairments indicate weak capital allocation."
    case (D1, First) => "High goodwill concentration — elevated impairment risk."
    case (D1, Second) => "Moderate reliance on acquisitions."
    case (D1, Third) => "Healthy goodwill exposure."
    case (D2, _) => "Goodwill rising faster than revenue — questionable acquisition quality."
    case (D3, First) => "Intangibles are growing much faster than operating assets — possible aggressive capitalization."
    case (D3, _) => "Intangible growth aligned with operating asset expansion."
    case (E1, First) => "Amortization too low — possible over-capitalization."
    case (E1, _) => "Healthy amortization policy."
    case (E2, First) => "R&D does not sufficiently support new intangible additions."
    case (E2, _) => "Intangibles supported by R&D investment."
    case (F1, First) => "Capitalization negative — possible stalled or abandoned projects."
    case (F1, Second) => "CWIP increasing while capitalization declining — conversion is weak."
    case (F1, Third) => "Healthy CWIP conversion into fixed assets."
  }

  // ------------------------------------------------------------ inputs

  /** The values the engine reads with `latest.get(...)`; a key the dictionary lacks reads as None. */
  datatype LatestInputs = LatestInputs(
    asset_turnover: Option<real>, asset_age_proxy: Option<real>, goodwill_pct: Option<real>,
    impairment_pct: Option<real>, impairment_yoy: Option<real>, revenue_growth_yoy: Option<real>,
    goodwill_growth_yoy: Option<real>, amortization_ratio: Option<real>, r_and_d_intangible_ratio: Option<real>)

  /** What group F reads from the trends: the newest capitalization, CWIP ratio, and the two newest growths. */
  datatype CwipInputs = CwipInputs(latest_cap: Option<real>, latest_ratio: Option<real>,
                                   cwip_yoy: Option<real>, cap_yoy: Option<real>)

  /**
   * Everything the engine reads. `dep_capex` holds each year's
   * depreciation and capex as `yr.get` finds them; `impairment_count` is
   * trends["impairment_count_5y"] when that key exists; `cwip` is None when
   * the capitalization entries are missing (the KeyError the engine
   * catches).
   */
  datatype RuleInputs = RuleInputs(
    latest: LatestInputs, at_yoy: seq<Option<real>>, dep_capex: seq<(Option<real>, Option<real>)>,
    impairment_count: Option<real>, intangible_cagr: Option<real>, operating_asset_cagr: Option<real>,
    cwip: Option<CwipInputs>)

  // ------------------------------------------------------------ counts

  /** The number of present, negative growths. */
  function DeclineCount(s: seq<Option<real>>): (n: nat)
    ensures n <= |s|
  {
    if s == [] then 0 else (if s[0].Some? && s[0].value < 0.0 then 1 else 0) + DeclineCount(s[1..])
  }

  /** No decline is counted exactly when no growth is present and negative. */
  lemma {:induction false} NoDeclines(s: seq<Option<real>>)
    ensures DeclineCount(s) == 0 <==> forall i :: 0 <= i < |s| ==> s[i].None? || s[i].value >= 0.0
  {
    if s != [] {
      NoDeclines(s[1..]);
      assert forall i :: 1 <= i < |s| ==> s[i] == s[1..][i - 1];
    }
  }

  /** The number of years with both amounts present and depreciation above capex. */
  function DepOverCapexCount(s: seq<(Option<real>, Option<real>)>): (n: nat)
    ensures n <= |s|
  {
    if s == [] then 0
    else (if s[0].0.Some? && s[0].1.Some? && s[0].0.value > s[0].1.value then 1 else 0) + DepOverCapexCount(s[1..])
  }

  /** Years whose depreciation is not recorded are never counted. */
  lemma {:induction false} NoDepreciationNoCount(s: seq<(Option<real>, Option<real>)>)
    requires forall i :: 0 <= i < |s| ==> s[i].0.None?
    ensures DepOverCapexCount(s) == 0
  {
    if s != [] {
      assert forall i :: 0 <= i < |s| - 1 ==> s[1..][i] == s[i + 1];
      NoDepreciationNoCount(s[1..]);
    }
  }

  // ------------------------------------------------------------ rules

  /** A1: RED below the critical turnover, YELLOW below the low turnover, else GREEN; absent without a turnover. */
  function RuleA1(at: Option<real>, b: Benchmarks): (r: seq<Finding>)
    ensures |r| == if at.None? then 0 else 1
    ensures |r| == 1 ==> r[0].rule_id == A1 && r[0].value == at
    ensures |r| == 1 ==> (r[0].flag == RED <==> at.value < b.asset_turnover_critical)
    ensures |r| == 1 ==> (r[0].flag == YELLOW <==> b.asset_turnover_critical <= at.value < b.asset_turnover_low)
    ensures |r| == 1 ==> (r[0].flag == GREEN <==> at.value >= b.asset_turnover_critical && at.value >= b.asset_turnover_low)
  {
    if at.None? then []
    else if at.value < b.asset_turnover_critical then [Finding(A1, RED, at, First, [b.asset_turnover_critical])]
    else if at.value < b.asset_turnover_low then
      [Finding(A1, YELLOW, at, Second, [b.asset_turnover_critical, b.asset_turnover_low])]
    else [Finding(A1, GREEN, at, Third, [b.asset_turnover_low])]
  }

  /** A2: always reported, with the number of declining years; YELLOW from three declines on. */
  function RuleA2(atYoy: seq<Option<real>>): (f: Finding)
    ensures f.rule_id == A2 && f.value == Some(DeclineCount(atYoy) as real)
    ensures f.flag == (if DeclineCount(atYoy) >= 3 then YELLOW else GREEN)
  {
    var n := DeclineCount(atYoy);
    if n >= 3 then Finding(A2, YELLOW, Some(n as real), First, []) else Finding(A2, GREEN, Some(n as real), Second, [])
  }

  /** B1: RED above the critical age, YELLOW above the old threshold, else GREEN; absent without an age. */
  function RuleB1(age: Option<real>, b: Benchmarks): (r: seq<Finding>)
    ensures |r| == if age.None? then 0 else 1
    ensures |r| == 1 ==> r[0].rule_id == B1 && r[0].value == age
    ensures |r| == 1 ==> (r[0].flag == RED <==> age.value > b.age_proxy_critical)
    ensures |r| == 1 ==> (r[0].flag == YELLOW <==> b.age_proxy_old_threshold < age.value <= b.age_proxy_critical)
    ensures |r| == 1 ==> (r[0].flag == GREEN <==> age.value <= b.age_proxy_critical && age.value <= b.age_proxy_old_threshold)
  {
    if age.None? then []
    else if age.value > b.age_proxy_critical then [Finding(B1, RED, age, First, [b.age_proxy_critical])]
    else if age.value > b.age_proxy_old_threshold then
      [Finding(B1, YELLOW, age, Second, [b.age_proxy_old_threshold, b.age_proxy_critical])]
    else [Finding(B1, GREEN, age, Third, [b.age_proxy_old_threshold])]
  }

  /** B2: always reported, with the count as a float; YELLOW when depreciation exceeded capex in three years or more. */
  function RuleB2(depCapex: seq<(Option<real>, Option<real>)>): (f: Finding)
    ensures f.rule_id == B2 && f.value == Some(DepOverCapexCount(depCapex) as real)
    ensures f.flag == (if DepOverCapexCount(depCapex) >= 3 then YELLOW else GREEN)
  {
    var n := DepOverCapexCount(depCapex);
    if n >= 3 then Finding(B2, YELLOW, Some(n as real), First, []) else Finding(B2, GREEN, Some(n as real), Second, [])
  }

  /** C1: RED exactly when the impairment share exceeds its threshold; otherwise nothing. */
  function RuleC1(pct: Option<real>, b: Benchmarks): (r: seq<Finding>)
    ensures |r| == 1 <==> pct.Some? && pct.value > b.impairment_high_threshold
    ensures |r| <= 1 && (|r| == 1 ==> r[0].rule_id == C1 && r[0].flag == RED && r[0].value == pct)
  {
    if pct.Some? && pct.value > b.impairment_high_threshold then
      [Finding(C1, RED, pct, First, [b.impairment_high_threshold])]
    else []
  }

  /** C2: YELLOW exactly when impairment grew faster than the spike threshold; otherwise nothing. */
  function RuleC2(yoy: Option<real>, b: Benchmarks): (r: seq<Finding>)
    ensures |r| == 1 <==> yoy.Some? && yoy.value > b.impairment_sudden_spike_threshold
    ensures |r| <= 1 && (|r| == 1 ==> r[0].rule_id == C2 && r[0].flag == YELLOW && r[0].value == yoy)
  {
    if yoy.Some? && yoy.value > b.impairment_sudden_spike_threshold then
      [Finding(C2, YELLOW, yoy, First, [b.impairment_sudden_spike_threshold])]
    else []
  }

  /** C3: YELLOW exactly when the trends count three impairments or more; otherwise nothing. */
  function RuleC3(count: Option<real>): (r: seq<Finding>)
    ensures |r| == 1 <==> count.Some? && count.value >= 3.0
    ensures |r| <= 1 && (|r| == 1 ==> r[0].rule_id == C3 && r[0].flag == YELLOW && r[0].value == count)
  {
    if count.Some? && count.value >= 3.0 then [Finding(C3, YELLOW, count, First, [])] else []
  }

  /** D1: RED above the critical goodwill share, YELLOW above the warning share, else GREEN; absent without a share. */
  function RuleD1(gw: Option<real>, b: Benchmarks): (r: seq<Finding>)
    ensures |r| == if gw.None? then 0 else 1
    ensures |r| == 1 ==> r[0].rule_id == D1 && r[0].value == gw
    ensures |r| == 1 ==> (r[0].flag == RED <==> gw.value > b.goodwill_pct_critical)
    ensures |r| == 1 ==> (r[0].flag == YELLOW <==> b.goodwill_pct_warning < gw.value <= b.goodwill_pct_critical)
    ensures |r| == 1 ==> (r[0].flag == GREEN <==> gw.value <= b.goodwill_pct_critical && gw.value <= b.goodwill_pct_warning)
  {
    if gw.None? then []
    else if gw.value > b.goodwill_pct_critical then [Finding(D1, RED, gw, First, [b.goodwill_pct_critical])]
    else if gw.value > b.goodwill_pct_warning then
      [Finding(D1, YELLOW, gw, Second, [b.goodwill_pct_warning, b.goodwill_pct_critical])]
    else [Finding(D1, GREEN, gw, Third, [b.goodwill_pct_warning])]
  }

  /** D2: YELLOW exactly when goodwill grew more than 0.10 faster than revenue; otherwise nothing. */
  function RuleD2(goodwillGrowth: Option<real>, revenueGrowth: Option<real>): (r: seq<Finding>)
    ensures |r| == 1 <==> goodwillGrowth.Some? && revenueGrowth.Some? && goodwillGrowth.value > revenueGrowth.value + 0.10
    ensures |r| <= 1 && (|r| == 1 ==> r[0].rule_id == D2 && r[0].flag == YELLOW && r[0].value == goodwillGrowth)
  {
    if goodwillGrowth.Some? && revenueGrowth.Some? && goodwillGrowth.value > revenueGrowth.value + 0.10 then
      [Finding(D2, YELLOW, goodwillGrowth, First, [])]
    else []
  }

  /**
   * D3: with both CAGRs, YELLOW when the intangible CAGR exceeds the
   * operating-asset CAGR by more than 15 (percentage points), else GREEN;
   * the threshold prints that limit.
   */
  function RuleD3(intCagr: Option<real>, opCagr: Option<real>): (r: seq<Finding>)
    ensures |r| == if intCagr.None? || opCagr.None? then 0 else 1
    ensures |r| == 1 ==> r[0].rule_id == D3 && r[0].value == intCagr && r[0].args == [opCagr.value + 15.0]
    ensures |r| == 1 ==> r[0].flag == (if intCagr.value > opCagr.value + 15.0 then YELLOW else GREEN)
  {
    if intCagr.None? || opCagr.None? then []
    else
      var limit := opCagr.value + 15.0;
      if intCagr.value > limit then [Finding(D3, YELLOW, intCagr, First, [limit])]
      else [Finding(D3, GREEN, intCagr, Second, [limit])]
  }

  /** E1: YELLOW below an amortization ratio of 0.02, else GREEN; absent without a ratio. */
  function RuleE1(amort: Option<real>): (r: seq<Finding>)
    ensures |r| == if amort.None? then 0 else 1
    ensures |r| == 1 ==> r[0].rule_id == E1 && r[0].value == amort
    ensures |r| == 1 ==> r[0].flag == (if amort.value < 0.02 then YELLOW else GREEN)
  {
    if amort.None? then []
    else if amort.value < 0.02 then [Finding(E1, YELLOW, amort, First, [])]
    else [Finding(E1, GREEN, amort, Second, [])]
  }

  /** E2: YELLOW below an R&D-to-additions ratio of 0.5, else GREEN; absent without a ratio. */
  function RuleE2(rd: Option<real>): (r: seq<Finding>)
    ensures |r| == if rd.None? then 0 else 1
    ensures |r| == 1 ==> r[0].rule_id == E2 && r[0].value == rd
    ensures |r| == 1 ==> r[0].flag == (if rd.value < 0.5 then YELLOW else GREEN)
  {
    if rd.None? then []
    else if rd.value < 0.5 then [Finding(E2, YELLOW, rd, First, [])]
    else [Finding(E2, GREEN, rd, Second, [])]
  }

  /** F1 red: the newest capitalization is negative. */
  function F1Red(c: CwipInputs): (r: seq<Finding>)
    ensures |r| == 1 <==> c.latest_cap.Some? && c.latest_cap.value < 0.0
  {
    if c.latest_cap.Some? && c.latest_cap.value < 0.0 then [Finding(F1, RED, c.latest_cap, First, [])] else []
  }

  /** F1 yellow: CWIP grew while capitalization's growth is missing or negative; it reports the ratio. */
  function F1Yellow(c: CwipInputs): (r: seq<Finding>)
    ensures |r| == 1 <==> c.cwip_yoy.Some? && c.cwip_yoy.value > 0.0 && (c.cap_yoy.None? || c.cap_yoy.value < 0.0)
  {
    if c.cwip_yoy.Some? && c.cwip_yoy.value > 0.0 && (c.cap_yoy.None? || c.cap_yoy.value < 0.0) then
      [Finding(F1, YELLOW, c.latest_ratio, Second, [])]
    else []
  }

  /** F1 green: the newest CWIP-to-capitalization ratio is above 0.10. */
  function F1Green(c: CwipInputs): (r: seq<Finding>)
    ensures |r| == 1 <==> c.latest_ratio.Some? && c.latest_ratio.value > 0.10
  {
    if c.latest_ratio.Some? && c.latest_ratio.value > 0.10 then [Finding(F1, GREEN, c.latest_ratio, Third, [])] else []
  }

  /** Group F: the three F1 tests in turn, skipped entirely without the capitalization entries. */
  function GroupF(c: Option<CwipInputs>): seq<Finding>
  {
    if c.None? then [] else F1Red(c.value) + F1Yellow(c.value) + F1Green(c.value)
  }

  function GroupA(inp: RuleInputs, b: Benchmarks): seq<Finding>
  {
    RuleA1(inp.latest.asset_turnover, b) + [RuleA2(inp.at_yoy)]
  }

  function GroupB(inp: RuleInputs, b: Benchmarks): seq<Finding>
  {
    RuleB1(inp.latest.asset_age_proxy, b) + [RuleB2(inp.dep_capex)]
  }

  function GroupC(inp: RuleInputs, b: Benchmarks): seq<Finding>
  {
    RuleC1(inp.latest.impairment_pct, b) + RuleC2(inp.latest.impairment_yoy, b) + RuleC3(inp.impairment_count)
  }

  function GroupD(inp: RuleInputs, b: Benchmarks): seq<Finding>
  {
    RuleD1(inp.latest.goodwill_pct, b) + RuleD2(inp.latest.goodwill_growth_yoy, inp.latest.revenue_growth_yoy)
    + RuleD3(inp.intangible_cagr, inp.operating_asset_cagr)
  }

  function GroupE(inp: RuleInputs): seq<Finding>
  {
    RuleE1(inp.latest.amortization_ratio) + RuleE2(inp.latest.r_and_d_intangible_ratio)
  }

  /** The findings of groups A to E, which the engine always evaluates. */
  function BeforeF(inp: RuleInputs, b: Benchmarks): seq<Finding>
  {
    GroupA(inp, b) + GroupB(inp, b) + GroupC(inp, b) + GroupD(inp, b) + GroupE(inp)
  }

  /** What aiqm_rule_engine returns. */
  function Catalogue(inp: RuleInputs, b: Benchmarks): seq<Finding>
  {
    BeforeF(inp, b) + GroupF(inp.cwip)
  }

  /** aiqm_rule_engine: the rules appended in order, returning early when group F cannot read its trends. */
  method RuleEngine(inp: RuleInputs, b: Benchmarks) returns (results: seq<Finding>)
    ensures results == Catalogue(inp, b)
  {
    results := AppendAToE(inp, b);
    if inp.cwip.None? {
      assert results + [] == results;
      return;
    }
    results := AppendF(results, inp.cwip.value);
  }

  /** Groups A to E. */
  method AppendAToE(inp: RuleInputs, b: Benchmarks) returns (results: seq<Finding>)
    ensures results == BeforeF(inp, b)
  {
    results := AppendAB([], inp, b);
    assert results == GroupA(inp, b) + GroupB(inp, b);
    results := AppendCD(results, inp, b);
    results := AppendE(results, inp);
  }

  /** Groups A and B. */
  method AppendAB(acc: seq<Finding>, inp: RuleInputs, b: Benchmarks) returns (results: seq<Finding>)
    ensures results == acc + GroupA(inp, b) + GroupB(inp, b)
  {
    results := acc + RuleA1(inp.latest.asset_turnover, b);
    results := results + [RuleA2(inp.at_yoy)];
    results := results + RuleB1(inp.latest.asset_age_proxy, b);
    results := results + [RuleB2(inp.dep_capex)];
  }

  /** Groups C and D. */
  method AppendCD(acc: seq<Finding>, inp: RuleInputs, b: Benchmarks) returns (results: seq<Finding>)
    ensures results == acc + GroupC(inp, b) + GroupD(inp, b)
  {
    ghost var c1, c2, c3 := RuleC1(inp.latest.impairment_pct, b), RuleC2(inp.latest.impairment_yoy, b), RuleC3(inp.impairment_count);
    ghost var d1, d2 := RuleD1(inp.latest.goodwill_pct, b), RuleD2(inp.latest.goodwill_growth_yoy, inp.latest.revenue_growth_yoy);
    ghost var d3 := RuleD3(inp.intangible_cagr, inp.operating_asset_cagr);
    results := acc + RuleC1(inp.latest.impairment_pct, b);
    results := results + RuleC2(inp.latest.impairment_yoy, b);
    results := results + RuleC3(inp.impairment_count);
    assert results == acc + (c1 + c2 + c3);
    results := results + RuleD1(inp.latest.goodwill_pct, b);
    results := results + RuleD2(inp.latest.goodwill_growth_yoy, inp.latest.revenue_growth_yoy);
    results := results + RuleD3(inp.intangible_cagr, inp.operating_asset_cagr);
    assert results == acc + (c1 + c2 + c3) + (d1 + d2 + d3);
  }

  /** Group E. */
  method AppendE(acc: seq<Finding>, inp: RuleInputs) returns (results: seq<Finding>)
    ensures results == acc + GroupE(inp)
  {
    results := acc + RuleE1(inp.latest.amortization_ratio);
    results := results + RuleE2(inp.latest.r_and_d_intangible_ratio);
  }

  /** Group F once its trends are read. */
  method AppendF(acc: seq<Finding>, c: CwipInputs) returns (results: seq<Finding>)
    ensures results == acc + GroupF(Some(c))
  {
    results := acc + F1Red(c);
    results := results + F1Yellow(c);
    results := results + F1Green(c);
  }

  // ------------------------------------------------------------ properties

  /** Every finding's rank lies in [lo, hi]. */
  predicate RanksWithin(s: seq<Finding>, lo: nat, hi: nat)
  {
    forall i :: 0 <= i < |s| ==> lo <= Rank(s[i].rule_id) <= hi
  }

  /** Findings come in rule order, and only F1 may be repeated. */
  predicate InRuleOrder(s: seq<Finding>)
  {
    forall i, j :: 0 <= i < j < |s| ==> Rank(s[i].rule_id) < Rank(s[j].rule_id) || (s[i].rule_id == F1 && s[j].rule_id == F1)
  }

  lemma OrderConcat(a: seq<Finding>, b: seq<Finding>, lo: nat, mid: nat, hi: nat)
    requires lo <= mid < hi
    requires InRuleOrder(a) && InRuleOrder(b) && RanksWithin(a, lo, mid) && RanksWithin(b, mid + 1, hi)
    ensures InRuleOrder(a + b) && RanksWithin(a + b, lo, hi)
  {
    var c := a + b;
    forall i, j | 0 <= i < j < |c|
      ensures Rank(c[i].rule_id) < Rank(c[j].rule_id) || (c[i].rule_id == F1 && c[j].rule_id == F1)
    {
      if j < |a| {
        assert c[i] == a[i] && c[j] == a[j];
      } else if i >= |a| {
        assert c[i] == b[i - |a|] && c[j] == b[j - |a|];
      } else {
        assert c[i] == a[i] && c[j] == b[j - |a|];
      }
    }
    assert forall i :: 0 <= i < |c| ==> c[i] == if i < |a| then a[i] else b[i - |a|];
  }

  /** A sequence of at most one finding of a single rule lies at that rule's rank. */
  lemma Single(s: seq<Finding>, id: RuleId)
    requires |s| <= 1 && (|s| == 1 ==> s[0].rule_id == id)
    ensures InRuleOrder(s) && RanksWithin(s, Rank(id), Rank(id))
  {
  }

  /** The F1 findings come red, then yellow, then green, each at most once. */
  lemma GroupFShape(c: CwipInputs)
    ensures var f := GroupF(Some(c));
            && |f| <= 3
            && (forall i :: 0 <= i < |f| ==> f[i].rule_id == F1)
            && (forall i, j :: 0 <= i < j < |f| ==> Severity(f[j].flag) < Severity(f[i].flag))
  {
  }

  lemma GroupAOrder(inp: RuleInputs, b: Benchmarks)
    ensures InRuleOrder(GroupA(inp, b)) && RanksWithin(GroupA(inp, b), 0, 1)
  {
    Single(RuleA1(inp.latest.asset_turnover, b), A1);
    Single([RuleA2(inp.at_yoy)], A2);
    OrderConcat(RuleA1(inp.latest.asset_turnover, b), [RuleA2(inp.at_yoy)], 0, 0, 1);
  }

  lemma GroupBOrder(inp: RuleInputs, b: Benchmarks)
    ensures InRuleOrder(GroupB(inp, b)) && RanksWithin(GroupB(inp, b), 2, 3)
  {
    Single(RuleB1(inp.latest.asset_age_proxy, b), B1);
    Single([RuleB2(inp.dep_capex)], B2);
    OrderConcat(RuleB1(inp.latest.asset_age_proxy, b), [RuleB2(inp.dep_capex)], 2, 2, 3);
  }

  lemma GroupCOrder(inp: RuleInputs, b: Benchmarks)
    ensures InRuleOrder(GroupC(inp, b)) && RanksWithin(GroupC(inp, b), 4, 6)
  {
    var c1 := RuleC1(inp.latest.impairment_pct, b);
    var c2 := RuleC2(inp.latest.impairment_yoy, b);
    var c3 := RuleC3(inp.impairment_count);
    Single(c1, C1);
    Single(c2, C2);
    Single(c3, C3);
    OrderConcat(c1, c2, 4, 4, 5);
    OrderConcat(c1 + c2, c3, 4, 5, 6);
  }

  lemma GroupDOrder(inp: RuleInputs, b: Benchmarks)
    ensures InRuleOrder(GroupD(inp, b)) && RanksWithin(GroupD(inp, b), 7, 9)
  {
    var d1 := RuleD1(inp.latest.goodwill_pct, b);
    var d2 := RuleD2(inp.latest.goodwill_growth_yoy, inp.latest.revenue_growth_yoy);
    var d3 := RuleD3(inp.intangible_cagr, inp.operating_asset_cagr);
    Single(d1, D1);
    Single(d2, D2);
    Single(d3, D3);
    OrderConcat(d1, d2, 7, 7, 8);
    OrderConcat(d1 + d2, d3, 7, 8, 9);
  }

  lemma GroupEOrder(inp: RuleInputs)
    ensures InRuleOrder(GroupE(inp)) && RanksWithin(GroupE(inp), 10, 11)
  {
    Single(RuleE1(inp.latest.amortization_ratio), E1);
    Single(RuleE2(inp.latest.r_and_d_intangible_ratio), E2);
    OrderConcat(RuleE1(inp.latest.amortization_ratio), RuleE2(inp.latest.r_and_d_intangible_ratio), 10, 10, 11);
  }

  lemma GroupFOrder(c: Option<CwipInputs>)
    ensures InRuleOrder(GroupF(c)) && RanksWithin(GroupF(c), 12, 12)
  {
  }

  /** The catalogue lists its rules in the engine's order, each at most once except F1. */
  lemma CatalogueOrder(inp: RuleInputs, b: Benchmarks)
    ensures InRuleOrder(Catalogue(inp, b))
  {
    var ga, gb, gc, gd, ge, gf := GroupA(inp, b), GroupB(inp, b), GroupC(inp, b), GroupD(inp, b), GroupE(inp), GroupF(inp.cwip);
    GroupAOrder(inp, b);
    GroupBOrder(inp, b);
    GroupCOrder(inp, b);
    GroupDOrder(inp, b);
    GroupEOrder(inp);
    GroupFOrder(inp.cwip);
    OrderConcat(ga, gb, 0, 1, 3);
    OrderConcat(ga + gb, gc, 0, 3, 6);
    OrderConcat(ga + gb + gc, gd, 0, 6, 9);
    OrderConcat(ga + gb + gc + gd, ge, 0, 9, 11);
    assert BeforeF(inp, b) == ga + gb + gc + gd + ge;
    OrderConcat(BeforeF(inp, b), gf, 0, 11, 12);
  }

  /**
   * A2 counts declines anywhere in the growth map, not consecutive ones:
   * three declines separated by growth already report "declined for 3
   * consecutive years".
   */
  lemma A2CountsScatteredDeclines()
    ensures RuleA2([Some(-0.1), Some(0.2), Some(-0.1), Some(0.3), Some(-0.1)]).flag == YELLOW
  {
    var s := [Some(-0.1), Some(0.2), Some(-0.1), Some(0.3), Some(-0.1)];
    assert s[1..][1..][1..][1..][1..] == [];
  }

  /** With ordered benchmarks, a lower asset turnover never receives a better A1 flag. */
  lemma A1Antitone(x: real, y: real, b: Benchmarks)
    requires Ordered(b) && x <= y
    ensures Severity(RuleA1(Some(y), b)[0].flag) <= Severity(RuleA1(Some(x), b)[0].flag)
  {
  }

  /** With ordered benchmarks, an older asset base never receives a better B1 flag. */
  lemma B1Monotone(x: real, y: real, b: Benchmarks)
    requires Ordered(b) && x <= y
    ensures Severity(RuleB1(Some(x), b)[0].flag) <= Severity(RuleB1(Some(y), b)[0].flag)
  {
  }

  /** With ordered benchmarks, a larger goodwill share never receives a better D1 flag. */
  lemma D1Monotone(x: real, y: real, b: Benchmarks)
    requires Ordered(b) && x <= y
    ensures Severity(RuleD1(Some(x), b)[0].flag) <= Severity(RuleD1(Some(y), b)[0].flag)
  {
  }
}
