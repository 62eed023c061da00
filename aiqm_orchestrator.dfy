/**
 * The asset & intangible quality module's orchestrator: per-year metrics,
 * trends, the latest year's dictionary enriched with trend growths, the
 * rule engine with the module's benchmarks, the red-flag and positive
 * summaries, and the key metrics of the latest year.
 */
module AiqmOrchestrator {
  import opened Common
  import opened Sorting
  import opened AiqmModels
  import opened AiqmMetrics
  import opened AiqmTrend
  import opened AiqmRules
  import WcTrend
  import WcOrchestrator

  /** `d.get(k)` on a dictionary whose values may be None: a missing key reads as None too. */
  function GetOrNone<K(==)>(m: seq<(K, Option<real>)>, k: K): Option<real>
  {
    match Lookup(m, k)
    case None => None
    case Some(v) => v
  }

  /** The label of the newest growth, "Y_vs_Y-1". */
  const Newest := Vs(Y, YMinus(1))

  /**
   * The latest year's dictionary after run's enrichment: the per-year
   * record with the revenue growth, the operating-asset CAGR and empty
   * goodwill and impairment growths added and its own intangible growth
   * replaced by the trend engine's rounded one.
   */
  datatype Enriched = Enriched(rec: YearRecord, revenue_growth_yoy: Option<real>, intangible_growth_yoy: Option<real>,
                               operating_asset_growth: Option<real>, goodwill_growth_yoy: Option<real>,
                               impairment_yoy: Option<real>)

  /** The trends have no "goodwill" or "impairment" entry, so those growths are None. */
  function Enrich(rec: YearRecord, t: Trends): (e: Enriched)
    ensures e.rec == rec && e.goodwill_growth_yoy.None? && e.impairment_yoy.None?
    ensures e.operating_asset_growth == t.cagr.operating_asset_cagr
  {
    Enriched(rec, GetOrNone(t.revenue.yoy_growth_pct, Newest), GetOrNone(t.intangible_assets.yoy_growth_pct, Newest),
             t.cagr.operating_asset_cagr, None, None)
  }

  /**
   * What the rule engine reads in a run. The per-year records have no
   * goodwill, impairment, depreciation or capex entries and the trends no
   * impairment count, so those read as None; the capitalization entries
   * always exist.
   */
  function RuleInputsOf(e: Enriched, per: seq<(int, YearRecord)>, t: Trends): (inp: RuleInputs)
    ensures inp.cwip.Some?
  {
    RuleInputs(
      LatestInputs(e.rec.asset_turnover, e.rec.asset_age_proxy, None, None, e.impairment_yoy, e.revenue_growth_yoy,
                   e.goodwill_growth_yoy, e.rec.amortization_ratio, e.rec.r_and_d_intangible_ratio),
      Values(t.asset_turnover.yoy_growth_pct),
      seq(|per|, i requires 0 <= i < |per| => (None, None)),
      None, t.cagr.intangible_cagr, t.cagr.operating_asset_cagr,
      Some(CwipInputs(GetOrNone(t.capitalization.values, Y), GetOrNone(t.cwip_vs_capitalization, Y),
                      GetOrNone(t.cwip.yoy_growth_pct, Newest), GetOrNone(t.capitalization.yoy_growth_pct, Newest))))
  }

  // ------------------------------------------------------------ summary

  datatype RedFlag = RedFlag(severity: Flag, title: string, detail: string)

  /** C1 and D1 red flags are CRITICAL, the others HIGH. */
  function SeverityOf(id: RuleId): (f: Flag)
    ensures f == CRITICAL <==> id == C1 || id == D1
    ensures f != CRITICAL ==> f == HIGH
  {
    if id in {D1, C1} then CRITICAL else HIGH
  }

  function RedFlagOf(f: Finding): RedFlag
  {
    RedFlag(SeverityOf(f.rule_id), RuleName(f.rule_id), Reason(f.rule_id, f.branch))
  }

  /** A positive point: `f"{rule_name}: {reason}"`. */
  function PositiveOf(f: Finding): string
  {
    RuleName(f.rule_id) + ": " + Reason(f.rule_id, f.branch)
  }

  /** The red flags `_summarize` collects: one per RED result, in order. */
  function RedFlagsOf(rs: seq<Finding>): seq<RedFlag>
  {
    if rs == [] then []
    else RedFlagsOf(rs[..|rs| - 1]) + (if rs[|rs| - 1].flag == RED then [RedFlagOf(rs[|rs| - 1])] else [])
  }

  /** The positive points `_summarize` collects: one per GREEN result, in order. */
  function PositivesOf(rs: seq<Finding>): seq<string>
  {
    if rs == [] then []
    else PositivesOf(rs[..|rs| - 1]) + (if rs[|rs| - 1].flag == GREEN then [PositiveOf(rs[|rs| - 1])] else [])
  }

  /** `_summarize`. */
  method Summarize(rs: seq<Finding>) returns (redFlags: seq<RedFlag>, positives: seq<string>)
    ensures redFlags == RedFlagsOf(rs) && positives == PositivesOf(rs)
  {
    redFlags, positives := [], [];
    var i := 0;
    while i < |rs|
      invariant 0 <= i <= |rs|
      invariant redFlags == RedFlagsOf(rs[..i]) && positives == PositivesOf(rs[..i])
    {
      var rule := rs[i];
      if rule.flag == RED {
        var severity := if rule.rule_id in {D1, C1} then CRITICAL else HIGH;
        redFlags := redFlags + [RedFlag(severity, RuleName(rule.rule_id), Reason(rule.rule_id, rule.branch))];
      } else if rule.flag == GREEN {
        positives := positives + [PositiveOf(rule)];
      }
      assert rs[..i + 1][..i] == rs[..i];
      i := i + 1;
    }
    assert rs[..i] == rs;
  }

  /** Red flags come exactly from the RED results. */
  lemma {:induction false} RedFlagMembers(rs: seq<Finding>)
    ensures forall r :: r in RedFlagsOf(rs) <==> exists i :: 0 <= i < |rs| && rs[i].flag == RED && r == RedFlagOf(rs[i])
  {
    if rs != [] {
      var init := rs[..|rs| - 1];
      RedFlagMembers(init);
      assert forall i :: 0 <= i < |init| ==> init[i] == rs[i];
    }
  }

  /** Positive points come exactly from the GREEN results. */
  lemma {:induction false} PositiveMembers(rs: seq<Finding>)
    ensures forall p :: p in PositivesOf(rs) <==> exists i :: 0 <= i < |rs| && rs[i].flag == GREEN && p == PositiveOf(rs[i])
  {
    if rs != [] {
      var init, last := rs[..|rs| - 1], rs[|rs| - 1];
      PositiveMembers(init);
      var tail := if last.flag == GREEN then [PositiveOf(last)] else [];
      assert PositivesOf(rs) == PositivesOf(init) + tail;
      forall p | p in PositivesOf(rs)
        ensures exists i :: 0 <= i < |rs| && rs[i].flag == GREEN && p == PositiveOf(rs[i])
      {
        if p in PositivesOf(init) {
          var i :| 0 <= i < |init| && init[i].flag == GREEN && p == PositiveOf(init[i]);
          assert rs[i] == init[i];
        } else {
          assert p in tail && rs[|rs| - 1] == last;
        }
      }
      forall p, i | 0 <= i < |rs| && rs[i].flag == GREEN && p == PositiveOf(rs[i])
        ensures p in PositivesOf(rs)
      {
        if i < |init| {
          assert init[i] == rs[i];
        }
      }
    }
  }

  /** Without C1 and D1 results no red flag is CRITICAL. */
  lemma NoCriticalWithout(rs: seq<Finding>)
    requires forall i :: 0 <= i < |rs| ==> rs[i].rule_id != C1 && rs[i].rule_id != D1
    ensures forall r :: r in RedFlagsOf(rs) ==> r.severity == HIGH
  {
    RedFlagMembers(rs);
  }

  // ------------------------------------------------------------ key metrics

  /** `_extract_key_metrics`' dictionary, read from the enriched latest record. */
  datatype KeyMetrics = KeyMetrics(year: int, asset_turnover: Option<real>, asset_age_proxy: Option<real>,
                                   intangible_pct_total: Option<real>, intangible_growth: Option<real>,
                                   amortization_ratio: Option<real>, r_and_d_ratio: Option<real>,
                                   revenue: real, intangibles: real)

  function KeyMetricsOf(year: int, e: Enriched): (km: KeyMetrics)
    ensures km.year == year && km.intangible_growth == e.intangible_growth_yoy
    ensures km.revenue == e.rec.revenue && km.intangibles == e.rec.intangibles
  {
    KeyMetrics(year, e.rec.asset_turnover, e.rec.asset_age_proxy, e.rec.intangible_pct_total_assets,
               e.intangible_growth_yoy, e.rec.amortization_ratio, e.rec.r_and_d_intangible_ratio,
               e.rec.revenue, e.rec.intangibles)
  }

  // ------------------------------------------------------------ run

  /** The language model's reply: a failure, or a dictionary whose "analysis_narrative" may be missing. */
  datatype LlmReply = LlmFailed | LlmReply(narrative: Option<seq<string>>)

  /** AssetIntangibleOutput. */
  datatype AiqmOutput = AiqmOutput(module_name: string, company: string, key_metrics: KeyMetrics, trends: Trends,
                                   analysis_narrative: seq<string>, red_flags: seq<RedFlag>,
                                   positive_points: seq<string>, rules: seq<Finding>)

  /**
   * How `run` ends: the ValueError of empty metrics, the TypeError the
   * trend engine raises on a missing CWIP, a failure of the language model,
   * or the output.
   */
  datatype RunResult = NoMetrics | TrendError | LlmError | Done(out: AiqmOutput)

  /** The steps of `run` after the trends: enrichment, rules, summary, key metrics and the model's reply. */
  function Outcome(company: string, per: seq<(int, YearRecord)>, t: Trends, b: Benchmarks, llm: LlmReply): RunResult
    requires per != []
  {
    var i := WcOrchestrator.LatestIndex(per);
    var e := Enrich(per[i].1, t);
    var rules := Catalogue(RuleInputsOf(e, per, t), b);
    if llm.LlmFailed? then LlmError
    else
      Done(AiqmOutput("AssetIntangibleQuality", company, KeyMetricsOf(per[i].0, e), t,
                      if llm.narrative.Some? then llm.narrative.value else [],
                      RedFlagsOf(rules), PositivesOf(rules), rules))
  }

  /** What `run` produces with the module's benchmarks. */
  function RunSpec(company: string, financials: seq<YearInput>, b: Benchmarks, llm: LlmReply,
                   pow: (real, real) -> real): (r: RunResult)
    ensures r.LlmError? ==> llm.LlmFailed?
    ensures r.Done? ==> !llm.LlmFailed? && r.out.module_name == "AssetIntangibleQuality" && r.out.company == company
  {
    var per := PerYearOf(financials);
    if per == [] then NoMetrics
    else
      match TrendsOf(financials, pow)
      case None => TrendError
      case Some(t) => Outcome(company, per, t, b, llm)
  }

  class AssetIntangibleQualityModule {
    var benchmarks: Benchmarks

    /** `benchmarks or AssetIntangibleBenchmarks()`. */
    constructor (b: Option<Benchmarks>)
      ensures benchmarks == if b.Some? then b.value else DefaultBenchmarks
    {
      benchmarks := if b.Some? then b.value else DefaultBenchmarks;
    }

    /** `run`: the steps in order, the latest dictionary enriched in place before the rules read it. */
    method Run(company: string, financials: seq<YearInput>, llm: LlmReply, pow: (real, real) -> real)
      returns (r: RunResult)
      ensures r == RunSpec(company, financials, benchmarks, llm, pow)
    {
      var perYear := ComputePerYearMetrics(financials);
      if perYear == [] {
        return NoMetrics;
      }
      var latestYear := perYear[WcOrchestrator.LatestIndex(perYear)].0;
      var latestMetrics := perYear[WcOrchestrator.LatestIndex(perYear)].1;
      var trendSummary := ComputeTrends(financials, pow);
      if trendSummary.None? {
        return TrendError;
      }
      var t := trendSummary.value;
      var enriched := Enrich(latestMetrics, t);
      var ruleResults := RuleEngine(RuleInputsOf(enriched, perYear, t), benchmarks);
      var redFlags, positives := Summarize(ruleResults);
      var keyMetrics := KeyMetricsOf(latestYear, enriched);
      if llm.LlmFailed? {
        return LlmError;
      }
      r := Done(AiqmOutput("AssetIntangibleQuality", company, keyMetrics, t,
                           if llm.narrative.Some? then llm.narrative.value else [],
                           redFlags, positives, ruleResults));
    }
  }

  /** What run_aiqm_module does with a payload: validate it, then run with the default benchmarks. */
  datatype ModuleResult = InvalidInput | Completed(result: RunResult)

  function RunModuleSpec(company: string, raws: seq<RawYear>, llm: LlmReply, pow: (real, real) -> real): ModuleResult
  {
    match ValidateBlock(raws)
    case None => InvalidInput
    case Some(financials) => Completed(RunSpec(company, financials, DefaultBenchmarks, llm, pow))
  }

  /** run_aiqm_module: the payload's own benchmarks are not passed on. */
  method RunAiqmModule(company: string, raws: seq<RawYear>, llm: LlmReply, pow: (real, real) -> real)
    returns (r: ModuleResult)
    ensures r == RunModuleSpec(company, raws, llm, pow)
  {
    var aiqm := new AssetIntangibleQualityModule(None);
    var financials := ValidateBlock(raws);
    if financials.None? {
      return InvalidInput;
    }
    var result := aiqm.Run(company, financials.value, llm, pow);
    r := Completed(result);
  }

  // ------------------------------------------------------------ properties

  /** A run without records stops for want of metrics, and only then. */
  lemma RunNoMetrics(company: string, financials: seq<YearInput>, b: Benchmarks, llm: LlmReply,
                     pow: (real, real) -> real)
    ensures RunSpec(company, financials, b, llm, pow).NoMetrics? <==> financials == []
  {
    PerYearKeys(financials);
    if financials != [] {
      assert financials[0].year in KeySet(PerYearOf(financials));
    }
  }

  /** With records, the trend engine fails exactly when two years or more include one without CWIP. */
  lemma RunTrendError(company: string, financials: seq<YearInput>, b: Benchmarks, llm: LlmReply,
                      pow: (real, real) -> real)
    requires financials != []
    ensures RunSpec(company, financials, b, llm, pow).TrendError? <==>
              |financials| >= 2 && exists f :: f in financials && f.cwip.None?
  {
    RunNoMetrics(company, financials, b, llm, pow);
    TrendsDefined(financials, pow);
  }

  /** Years read as None from the per-year records are never counted by B2. */
  lemma NoDepreciationRead(per: seq<(int, YearRecord)>)
    ensures DepOverCapexCount(seq(|per|, i requires 0 <= i < |per| => (None, None))) == 0
  {
    NoDepreciationNoCount(seq(|per|, i requires 0 <= i < |per| => (None, None)));
  }

  /** The rules a run cannot fire: C1, C2, C3, D1 and D2 read entries the run never provides. */
  predicate Unreachable(id: RuleId) { id == C1 || id == C2 || id == C3 || id == D1 || id == D2 }

  predicate NoneUnreachable(s: seq<Finding>) { forall i :: 0 <= i < |s| ==> !Unreachable(s[i].rule_id) }

  /** Findings whose ranks lie outside C1 … D2 are none of those rules. */
  lemma OutsideCD(s: seq<Finding>, lo: nat, hi: nat)
    requires RanksWithin(s, lo, hi) && (hi < 4 || lo > 8)
    ensures NoneUnreachable(s)
  {
  }

  lemma NoneUnreachableConcat(a: seq<Finding>, b: seq<Finding>)
    requires NoneUnreachable(a) && NoneUnreachable(b)
    ensures NoneUnreachable(a + b)
  {
    assert forall i :: 0 <= i < |a + b| ==> (a + b)[i] == if i < |a| then a[i] else b[i - |a|];
  }

  /**
   * On what a run provides, the catalogue holds no C or D1/D2 result and
   * always a GREEN B2 with the count 0.
   */
  lemma RunCatalogue(inp: RuleInputs, b: Benchmarks)
    requires inp.latest.goodwill_pct.None? && inp.latest.impairment_pct.None? && inp.latest.impairment_yoy.None?
    requires inp.latest.goodwill_growth_yoy.None? && inp.impairment_count.None?
    requires DepOverCapexCount(inp.dep_capex) == 0
    ensures NoneUnreachable(Catalogue(inp, b))
    ensures Finding(B2, GREEN, Some(0.0), Second, []) in Catalogue(inp, b)
  {
    var ga, gb, gc, gd, ge, gf := GroupA(inp, b), GroupB(inp, b), GroupC(inp, b), GroupD(inp, b), GroupE(inp), GroupF(inp.cwip);
    GroupAOrder(inp, b);
    OutsideCD(ga, 0, 1);
    GroupBOrder(inp, b);
    OutsideCD(gb, 2, 3);
    assert gc == [];
    assert NoneUnreachable(gd) by {
      assert gd == RuleD3(inp.intangible_cagr, inp.operating_asset_cagr);
    }
    GroupEOrder(inp);
    OutsideCD(ge, 10, 11);
    GroupFOrder(inp.cwip);
    OutsideCD(gf, 12, 12);
    NoneUnreachableConcat(ga, gb);
    NoneUnreachableConcat(ga + gb, gc);
    NoneUnreachableConcat(ga + gb + gc, gd);
    NoneUnreachableConcat(ga + gb + gc + gd, ge);
    assert BeforeF(inp, b) == ga + gb + gc + gd + ge;
    NoneUnreachableConcat(BeforeF(inp, b), gf);
    var b2 := Finding(B2, GREEN, Some(0.0), Second, []);
    assert gb[|gb| - 1] == b2;
    assert b2 in ga + gb;
    assert b2 in ga + gb + gc;
    assert b2 in ga + gb + gc + gd;
    assert b2 in BeforeF(inp, b);
  }

  /** The outcome of the later steps holds no C or D1/D2 result, a GREEN B2 with the count 0, and no CRITICAL red flag. */
  lemma OutcomeDone(company: string, per: seq<(int, YearRecord)>, t: Trends, b: Benchmarks, llm: LlmReply)
    requires per != [] && Outcome(company, per, t, b, llm).Done?
    ensures var out := Outcome(company, per, t, b, llm).out;
            && NoneUnreachable(out.rules)
            && Finding(B2, GREEN, Some(0.0), Second, []) in out.rules
            && forall r :: r in out.red_flags ==> r.severity == HIGH
  {
    var e := Enrich(per[WcOrchestrator.LatestIndex(per)].1, t);
    var inp := RuleInputsOf(e, per, t);
    NoDepreciationRead(per);
    RunCatalogue(inp, b);
    NoCriticalWithout(Catalogue(inp, b));
  }

  /**
   * A completed run holds no C1, C2, C3, D1 or D2 result, a GREEN B2 with
   * the count 0, and no CRITICAL red flag.
   */
  lemma RunDone(company: string, financials: seq<YearInput>, b: Benchmarks, llm: LlmReply, pow: (real, real) -> real)
    requires RunSpec(company, financials, b, llm, pow).Done?
    ensures var out := RunSpec(company, financials, b, llm, pow).out;
            && NoneUnreachable(out.rules)
            && Finding(B2, GREEN, Some(0.0), Second, []) in out.rules
            && forall r :: r in out.red_flags ==> r.severity == HIGH
  {
    OutcomeDone(company, PerYearOf(financials), TrendsOf(financials, pow).value, b, llm);
  }

  /**
   * The latest growths the rules and the key metrics read are the trend
   * engine's rounded growths of the two newest years, None with one year;
   * the per-year record's own unrounded intangible growth is overwritten.
   */
  lemma EnrichedGrowths(rec: YearRecord, s: seq<YearInput>, pow: (real, real) -> real)
    requires s != [] && CwipComplete(Cwips(s))
    ensures var e := Enrich(rec, SortedTrends(s, pow));
            var n := |s|;
            && e.intangible_growth_yoy ==
                 (if n >= 2 then WcTrend.Round2(WcTrend.Yoy(Some(s[n - 1].intangible_assets), Some(s[n - 2].intangible_assets)))
                  else None)
            && e.revenue_growth_yoy ==
                 (if n >= 2 then WcTrend.Round2(WcTrend.Yoy(Some(s[n - 1].revenue), Some(s[n - 2].revenue))) else None)
  {
    LatestEntries(Lift(IntangibleValues(s)));
    LatestEntries(Lift(Revenues(s)));
  }

  /** The latest key of the per-year dictionary is the largest year of the input. */
  lemma LatestKey(financials: seq<YearInput>) returns (j: nat)
    requires financials != []
    ensures var per := PerYearOf(financials);
            && per != [] && j < |financials|
            && financials[j].year == per[WcOrchestrator.LatestIndex(per)].0
            && (forall f :: f in financials ==> f.year <= per[WcOrchestrator.LatestIndex(per)].0)
  {
    var per := PerYearOf(financials);
    PerYearKeys(financials);
    assert financials[0].year in KeySet(per);
    var i := WcOrchestrator.LatestIndex(per);
    KeyListed(per, i);
    assert per[i].0 in set f | f in financials :: f.year;
    j :| 0 <= j < |financials| && financials[j].year == per[i].0;
    forall f | f in financials ensures f.year <= per[i].0 {
      assert f.year in KeySet(per);
      var k := KeyIndex(per, f.year);
    }
  }

  /** A completed run reports the key metrics of the latest record, enriched by the sorted records' trends. */
  lemma RunKeyMetricsParts(company: string, financials: seq<YearInput>, b: Benchmarks, llm: LlmReply,
                           pow: (real, real) -> real)
    requires RunSpec(company, financials, b, llm, pow).Done?
    ensures var per := PerYearOf(financials);
            var s := SortBy(financials, YearKey);
            && per != [] && s != [] && CwipComplete(Cwips(s))
            && RunSpec(company, financials, b, llm, pow).out.key_metrics ==
                 KeyMetricsOf(per[WcOrchestrator.LatestIndex(per)].0,
                              Enrich(per[WcOrchestrator.LatestIndex(per)].1, SortedTrends(s, pow)))
  {
    var per := PerYearOf(financials);
    var t := TrendsOf(financials, pow).value;
    assert RunSpec(company, financials, b, llm, pow) == Outcome(company, per, t, b, llm);
  }

  /** The key metrics report the newest year present among the records. */
  lemma RunKeyMetricsYear(company: string, financials: seq<YearInput>, b: Benchmarks, llm: LlmReply,
                          pow: (real, real) -> real) returns (j: nat)
    requires RunSpec(company, financials, b, llm, pow).Done?
    ensures j < |financials|
    ensures financials[j].year == RunSpec(company, financials, b, llm, pow).out.key_metrics.year
    ensures forall f :: f in financials ==> f.year <= RunSpec(company, financials, b, llm, pow).out.key_metrics.year
  {
    RunKeyMetricsParts(company, financials, b, llm, pow);
    j := LatestKey(financials);
  }

  /** The key metrics report, as intangible growth, the trend engine's rounded growth of the two newest years. */
  lemma RunKeyMetricsGrowth(company: string, financials: seq<YearInput>, b: Benchmarks, llm: LlmReply,
                            pow: (real, real) -> real)
    requires RunSpec(company, financials, b, llm, pow).Done?
    ensures var s := SortBy(financials, YearKey);
            var n := |s|;
            RunSpec(company, financials, b, llm, pow).out.key_metrics.intangible_growth ==
              (if n >= 2 then WcTrend.Round2(WcTrend.Yoy(Some(s[n - 1].intangible_assets), Some(s[n - 2].intangible_assets)))
               else None)
  {
    RunKeyMetricsParts(company, financials, b, llm, pow);
    var per := PerYearOf(financials);
    var s := SortBy(financials, YearKey);
    var rec := per[WcOrchestrator.LatestIndex(per)].1;
    var e := Enrich(rec, SortedTrends(s, pow));
    assert RunSpec(company, financials, b, llm, pow).out.key_metrics.intangible_growth == e.intangible_growth_yoy;
    EnrichedGrowths(rec, s, pow);
  }
}
