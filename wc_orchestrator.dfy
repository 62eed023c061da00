/**
 * WorkingCapitalModule: per-year metrics, the trend summary and the rule
 * engine chained together, the red flags and positive points drawn from
 * the rule results, the latest year's key metrics, the deterministic
 * notes, and the final output with the narrative the language model
 * returns.
 */
module WcOrchestrator {
  import opened Common
  import opened PyStr
  import opened Sorting
  import opened WcModels
  import opened WcMetrics
  import opened WcTrend
  import opened WcRules

  // ------------------------------------------------------------ extract_year

  /** The first token from `i` on that `str.isdigit` accepts. */
  function FirstDigitToken(parts: seq<string>, i: nat): (r: Option<nat>)
    ensures r.Some? ==> i <= r.value < |parts| && IsDigitStr(parts[r.value])
    ensures forall k :: i <= k < |parts| && (r.None? || k < r.value) ==> !IsDigitStr(parts[k])
    decreases |parts| - i
  {
    if i >= |parts| then None
    else if IsDigitStr(parts[i]) then Some(i)
    else FirstDigitToken(parts, i + 1)
  }

  /** Four digits start at position `k`: a match of `\d{4}`. */
  predicate FourDigitsAt(s: string, k: nat)
  {
    k + 4 <= |s| && AllDigits(s[k..k + 4])
  }

  /** `re.search(r"\d{4}", s)` from position `i`: where the first run of four digits starts. */
  function FirstFourDigits(s: string, i: nat): (r: Option<nat>)
    ensures r.Some? ==> i <= r.value && FourDigitsAt(s, r.value)
    ensures forall k :: i <= k && (r.None? || k < r.value) ==> !FourDigitsAt(s, k)
    decreases |s| - i
  {
    if i + 4 > |s| then None
    else if FourDigitsAt(s, i) then Some(i)
    else FirstFourDigits(s, i + 1)
  }

  /**
   * What extract_year returns: an int unchanged; for a label, the first
   * all-digit token, else the first four consecutive digits, else 0.
   */
  function YearOfKey(k: YearKey): (y: int)
    ensures k.IntYear? ==> y == k.n
    ensures k.StrYear? ==> y >= 0
  {
    match k
    case IntYear(n) => n
    case StrYear(s) =>
      var parts := Split(s);
      var t := FirstDigitToken(parts, 0);
      if t.Some? then DigitsValue(parts[t.value])
      else
        var w := FirstFourDigits(s, 0);
        if w.Some? then DigitsValue(s[w.value..w.value + 4]) else 0
  }

  /** extract_year: the token loop returns at the first all-digit token. */
  method ExtractYear(k: YearKey) returns (y: int)
    ensures y == YearOfKey(k)
  {
    match k {
      case IntYear(n) =>
        return n;
      case StrYear(s) =>
        var parts := Split(s);
        var i := 0;
        while i < |parts|
          invariant 0 <= i <= |parts|
          invariant FirstDigitToken(parts, 0) == FirstDigitToken(parts, i)
        {
          if IsDigitStr(parts[i]) {
            return DigitsValue(parts[i]);
          }
          i := i + 1;
        }
        var w := FirstFourDigits(s, 0);
        y := if w.Some? then DigitsValue(s[w.value..w.value + 4]) else 0;
    }
  }

  /** A label "<word> <year>" whose word is not a number, such as "Mar 2024", gives its year. */
  lemma YearOfLabel(w: string, n: nat)
    requires w != [] && NoSpace(w) && !IsDigitStr(w)
    ensures YearOfKey(StrYear(w + " " + Show(n))) == n
  {
    SplitTwoWords(w, Show(n));
    ShowValue(n);
    var parts := Split(w + " " + Show(n));
    assert FirstDigitToken(parts, 0) == FirstDigitToken(parts, 1);
  }

  /** A label without a single digit gives 0. */
  lemma YearOfDigitless(s: string)
    requires forall i :: 0 <= i < |s| ==> !IsDigit(s[i])
    ensures YearOfKey(StrYear(s)) == 0
  {
    var parts := Split(s);
    SplitKeepsText(s);
    forall k | 0 <= k < |parts| ensures !IsDigitStr(parts[k]) {
      TokenInText(parts, k, s);
    }
    assert FirstDigitToken(parts, 0).None?;
    forall k | 0 <= k < |s| ensures !FourDigitsAt(s, k) {
      if k + 4 <= |s| {
        assert s[k..k + 4][0] == s[k];
      }
    }
    assert FirstFourDigits(s, 0).None?;
  }

  /** A four-digit year glued to a word without digits, such as "FY2024", is found by the digit search. */
  lemma YearOfGlued(w: string, n: nat)
    requires w != [] && NoSpace(w) && forall i :: 0 <= i < |w| ==> !IsDigit(w[i])
    requires 1000 <= n <= 9999
    ensures YearOfKey(StrYear(w + Show(n))) == n
  {
    var s := w + Show(n);
    ShowFour(n);
    ShowValue(n);
    assert NoSpace(s) by {
      assert forall i :: |w| <= i < |s| ==> s[i] == Show(n)[i - |w|];
    }
    SplitWord(s);
    assert !IsDigitStr(s) by { assert s[0] == w[0]; }
    assert FirstDigitToken([s], 0) == None by { assert FirstDigitToken([s], 1) == None; }
    assert s[|w|..|w| + 4] == Show(n);
    assert FourDigitsAt(s, |w|);
    forall k | 0 <= k < |w| ensures !FourDigitsAt(s, k) {
      assert s[k..k + 4][0] == w[k];
    }
    NoEarlierFour(s, 0, |w|);
  }

  /** The search from `i` reaches `m` when no match starts before it and one starts at it. */
  lemma {:induction false} NoEarlierFour(s: string, i: nat, m: nat)
    requires i <= m && FourDigitsAt(s, m)
    requires forall k :: i <= k < m ==> !FourDigitsAt(s, k)
    ensures FirstFourDigits(s, i) == Some(m)
    decreases m - i
  {
    if i < m {
      NoEarlierFour(s, i + 1, m);
    }
  }

  lemma ShowFour(n: nat)
    requires 1000 <= n <= 9999
    ensures |Show(n)| == 4
  {
    assert |Show(n / 1000)| == 1;
    assert |Show(n / 100)| == 2;
    assert |Show(n / 10)| == 3;
  }

  /** A character of a token is a character of the text it was split from. */
  lemma TokenInText(parts: seq<string>, j: nat, s: string)
    requires j < |parts| && |parts[j]| > 0 && Concat(parts) == Squeeze(s)
    ensures parts[j][0] in s
  {
    ConcatHas(parts, j);
    SqueezeSub(s);
  }

  lemma {:induction false} ConcatHas(parts: seq<string>, j: nat)
    requires j < |parts| && |parts[j]| > 0
    ensures parts[j][0] in Concat(parts)
  {
    if j > 0 {
      ConcatHas(parts[1..], j - 1);
    }
  }

  lemma {:induction false} SqueezeSub(s: string)
    ensures forall c :: c in Squeeze(s) ==> c in s
  {
    if s != [] {
      SqueezeSub(s[1..]);
    }
  }

  // ---------------------------------------------------------- latest year

  /** `max(keys, key=extract_year)` on int keys: the position of the first largest key. */
  function LatestIndex<V>(per: seq<(int, V)>): (i: nat)
    requires per != []
    ensures i < |per|
    ensures forall j :: 0 <= j < |per| ==> per[j].0 <= per[i].0
    ensures forall j :: 0 <= j < i ==> per[j].0 < per[i].0
  {
    if |per| == 1 then 0
    else
      var m := LatestIndex(per[1..]) + 1;
      assert forall j :: 1 <= j < |per| ==> per[j] == per[1..][j - 1];
      if per[0].0 >= per[m].0 then 0 else m
  }

  /** The key function of that `max` leaves int keys as they are. */
  lemma IntKeysUnchanged(per: YearDict)
    ensures forall j :: 0 <= j < |per| ==> YearOfKey(IntYear(per[j].0)) == per[j].0
  {
  }

  /** `_extract_key_metrics`' dictionary. */
  datatype KeyMetrics = KeyMetrics(year: int, dso: Option<real>, dio: Option<real>, dpo: Option<real>,
                                   ccc: Option<real>, nwc_ratio: Option<real>, revenue: real, nwc: real)

  /** `_extract_key_metrics`: the latest year's ratios, nothing for no metrics. */
  function KeyMetricsOf(per: YearDict): (km: Option<KeyMetrics>)
    ensures km.None? <==> per == []
    ensures km.Some? ==> exists i :: 0 <= i < |per| && km.value.year == per[i].0 && km.value.dso == per[i].1.dso
    ensures km.Some? ==> forall j :: 0 <= j < |per| ==> per[j].0 <= km.value.year
  {
    if per == [] then None
    else
      var i := LatestIndex(per);
      var m := per[i].1;
      Some(KeyMetrics(per[i].0, m.dso, m.dio, m.dpo, m.ccc, m.nwc_ratio, m.revenue, m.nwc))
  }

  /**
   * On the per-year dictionary of the records, the key metrics are those of
   * the record with the largest year, and the dictionary finds the same
   * entry under that year.
   */
  lemma KeyMetricsOfRecords(s: seq<YearInput>) returns (j: nat)
    requires s != []
    ensures j < |s|
    ensures forall k :: 0 <= k < |s| ==> s[k].year <= s[j].year
    ensures var per := PerYear(s); var i := LatestIndex(per);
            per[i].0 == s[j].year && per[i].1 == MetricsOf(s[j])
            && Lookup(per, s[j].year) == Some(MetricsOf(s[j]))
  {
    var per := PerYear(s);
    PerYearKeys(s);
    var i := LatestIndex(per);
    var y := per[i].0;
    KeyListed(per, i);
    j := PerYearLookup(s, y);
    LookupAt(per, i);
    forall k | 0 <= k < |s| ensures s[k].year <= y {
      var e := KeyIndex(per, s[k].year);
    }
  }

  // ------------------------------------------------------------- _summarize

  datatype RedFlag = RedFlag(severity: Flag, title: string, detail: Text)

  /** D1 and E1 red flags are CRITICAL, the others HIGH. */
  function Severity(id: RuleId): (f: Flag)
    ensures f == CRITICAL <==> id == D1 || id == E1
    ensures f != CRITICAL ==> f == HIGH
  {
    if id in {D1, E1} then CRITICAL else HIGH
  }

  function RedFlagOf(f: Finding): RedFlag
  {
    RedFlag(Severity(f.rule_id), RuleName(f.rule_id), Reason(f))
  }

  /** A positive point: `f"{rule_name}: {reason}"`. */
  function PositiveOf(f: Finding): Text
  {
    Prefixed(RuleName(f.rule_id) + ": ", Reason(f))
  }

  /** The red flags `_summarize` collects: one per RED result, in order. */
  function RedFlagsOf(rs: seq<Finding>): seq<RedFlag>
  {
    if rs == [] then []
    else RedFlagsOf(rs[..|rs| - 1]) + (if rs[|rs| - 1].flag == RED then [RedFlagOf(rs[|rs| - 1])] else [])
  }

  /** The positive points `_summarize` collects: one per GREEN result, in order. */
  function PositivesOf(rs: seq<Finding>): seq<Text>
  {
    if rs == [] then []
    else PositivesOf(rs[..|rs| - 1]) + (if rs[|rs| - 1].flag == GREEN then [PositiveOf(rs[|rs| - 1])] else [])
  }

  /** `_summarize`. */
  method Summarize(rs: seq<Finding>) returns (redFlags: seq<RedFlag>, positives: seq<Text>)
    ensures redFlags == RedFlagsOf(rs) && positives == PositivesOf(rs)
  {
    redFlags, positives := [], [];
    var i := 0;
    while i < |rs|
      invariant 0 <= i <= |rs|
      invariant redFlags == RedFlagsOf(rs[..i]) && positives == PositivesOf(rs[..i])
    {
      var rule := rs[i];
      if rule.flag == RED {
        var severity := if rule.rule_id in {D1, E1} then CRITICAL else HIGH;
        redFlags := redFlags + [RedFlag(severity, RuleName(rule.rule_id), Reason(rule))];
      } else if rule.flag == GREEN {
        positives := positives + [PositiveOf(rule)];
      }
      assert rs[..i + 1][..i] == rs[..i];
      i := i + 1;
    }
    assert rs[..i] == rs;
  }

  /** Red flags and positive points come exactly from the RED and the GREEN results. */
  lemma {:induction false} SummaryMembers(rs: seq<Finding>)
    ensures forall r :: r in RedFlagsOf(rs) <==> exists i :: 0 <= i < |rs| && rs[i].flag == RED && r == RedFlagOf(rs[i])
    ensures forall p :: p in PositivesOf(rs) <==> exists i :: 0 <= i < |rs| && rs[i].flag == GREEN && p == PositiveOf(rs[i])
    ensures |RedFlagsOf(rs)| + |PositivesOf(rs)| <= |rs|
  {
    if rs != [] {
      var init := rs[..|rs| - 1];
      SummaryMembers(init);
      assert forall i :: 0 <= i < |init| ==> init[i] == rs[i];
    }
  }

  /** Summarising two lists summarises each, in order. */
  lemma {:induction false} RedFlagsAppend(a: seq<Finding>, b: seq<Finding>)
    ensures RedFlagsOf(a + b) == RedFlagsOf(a) + RedFlagsOf(b)
    decreases |b|
  {
    if b == [] {
      assert a + b == a;
    } else {
      assert (a + b)[..|a + b| - 1] == a + b[..|b| - 1];
      RedFlagsAppend(a, b[..|b| - 1]);
    }
  }

  predicate HasCritical(flags: seq<RedFlag>)
  {
    exists i :: 0 <= i < |flags| && flags[i].severity == CRITICAL
  }

  /** Some result is a RED D1 or E1. */
  predicate CriticalIn(rs: seq<Finding>)
  {
    exists i :: 0 <= i < |rs| && rs[i].flag == RED && (rs[i].rule_id == D1 || rs[i].rule_id == E1)
  }

  /** A CRITICAL red flag comes from a RED D1 or E1 result, and every such result gives one. */
  lemma {:induction false} CriticalFlags(rs: seq<Finding>)
    ensures HasCritical(RedFlagsOf(rs)) <==> CriticalIn(rs)
  {
    if rs != [] {
      var init := rs[..|rs| - 1];
      var last := rs[|rs| - 1];
      CriticalFlags(init);
      var tail := if last.flag == RED then [RedFlagOf(last)] else [];
      var flags := RedFlagsOf(init);
      assert RedFlagsOf(rs) == flags + tail;
      if HasCritical(flags + tail) {
        var i :| 0 <= i < |flags + tail| && (flags + tail)[i].severity == CRITICAL;
        if i < |flags| {
          assert flags[i].severity == CRITICAL;
          var k :| 0 <= k < |init| && init[k].flag == RED && (init[k].rule_id == D1 || init[k].rule_id == E1);
          assert rs[k] == init[k];
        } else {
          assert tail[0].severity == CRITICAL;
        }
      }
      if CriticalIn(rs) {
        var k :| 0 <= k < |rs| && rs[k].flag == RED && (rs[k].rule_id == D1 || rs[k].rule_id == E1);
        if k < |init| {
          assert init[k] == rs[k];
          var i :| 0 <= i < |flags| && flags[i].severity == CRITICAL;
          assert (flags + tail)[i] == flags[i];
        } else {
          assert (flags + tail)[|flags|] == tail[0];
        }
      }
    }
  }

  lemma CriticalInAppend(a: seq<Finding>, b: seq<Finding>)
    ensures CriticalIn(a + b) <==> CriticalIn(a) || CriticalIn(b)
  {
    if CriticalIn(a + b) {
      var i :| 0 <= i < |a + b| && (a + b)[i].flag == RED && ((a + b)[i].rule_id == D1 || (a + b)[i].rule_id == E1);
      if i >= |a| {
        assert (a + b)[i] == b[i - |a|];
      } else {
        assert (a + b)[i] == a[i];
      }
    }
    if CriticalIn(b) {
      var i :| 0 <= i < |b| && b[i].flag == RED && (b[i].rule_id == D1 || b[i].rule_id == E1);
      assert (a + b)[i + |a|] == b[i];
    }
    if CriticalIn(a) {
      var i :| 0 <= i < |a| && a[i].flag == RED && (a[i].rule_id == D1 || a[i].rule_id == E1);
      assert (a + b)[i] == a[i];
    }
  }

  /** On the engine's results: a RED D1 or E1 exactly when CCC exceeds 180 days or the NWC ratio exceeds 0.25. */
  lemma CriticalInCatalogue(l: Latest, g: Growth)
    requires Comparable(l)
    ensures CriticalIn(Catalogue(l, g)) <==> l.ccc.value > 180.0 || (l.nwc_ratio.Some? && l.nwc_ratio.value > 0.25)
  {
    var c := UpToC(l, g);
    UpToCIds(l, g);
    var ids := IdsOf(c);
    assert D1 !in ids && E1 !in ids;
    assert !CriticalIn(c) by {
      forall i | 0 <= i < |c| ensures c[i].rule_id != D1 && c[i].rule_id != E1 {
        assert ids[i] == c[i].rule_id;
      }
    }
    var d1 := [RuleD1(l.ccc.value)];
    assert CriticalIn(d1) <==> l.ccc.value > 180.0 by {
      if l.ccc.value > 180.0 {
        assert d1[0].flag == RED && d1[0].rule_id == D1;
      }
    }
    CriticalInAppend(c, d1);
    var e1: seq<Finding> := if l.nwc_ratio.Some? then [RuleE1(l.nwc_ratio.value)] else [];
    assert CriticalIn(e1) <==> l.nwc_ratio.Some? && l.nwc_ratio.value > 0.25 by {
      if l.nwc_ratio.Some? && l.nwc_ratio.value > 0.25 {
        assert e1[0].flag == RED && e1[0].rule_id == E1;
      }
    }
    CriticalInAppend(c + d1, e1);
    var e2: seq<Finding> := if l.nwc_cagr.Some? && l.revenue_cagr.Some?
                            then [RuleE2(l.nwc_cagr.value, l.revenue_cagr.value)] else [];
    assert !CriticalIn(e2) by {
      forall i | 0 <= i < |e2| ensures e2[i].rule_id == E2 {
      }
    }
    CriticalInAppend(c + d1 + e1, e2);
    assert Catalogue(l, g) == c + d1 + e1 + e2;
  }

  /**
   * On the engine's results, a CRITICAL red flag appears exactly when CCC
   * exceeds 180 days or the NWC ratio exceeds 0.25.
   */
  lemma CriticalIff(l: Latest, g: Growth)
    requires Comparable(l)
    ensures HasCritical(RedFlagsOf(Catalogue(l, g)))
            <==> l.ccc.value > 180.0 || (l.nwc_ratio.Some? && l.nwc_ratio.value > 0.25)
  {
    CriticalFlags(Catalogue(l, g));
    CriticalInCatalogue(l, g);
  }

  // ----------------------------------------------------- narrative notes

  function Titles(flags: seq<RedFlag>): (t: seq<string>)
    ensures |t| == |flags|
    ensures forall i :: 0 <= i < |flags| ==> t[i] == flags[i].title
  {
    seq(|flags|, i requires 0 <= i < |flags| => flags[i].title)
  }

  /**
   * `_build_narrative_notes`: the CCC note, the DSO note and a note naming
   * the first two red flags, each only when its input exists.
   */
  function NarrativeNotes(km: Option<KeyMetrics>, redFlags: seq<RedFlag>): (notes: seq<Text>)
    ensures |notes| <= 3
    ensures |notes| == (if km.Some? && km.value.ccc.Some? then 1 else 0)
                       + (if km.Some? && km.value.dso.Some? then 1 else 0) + (if redFlags != [] then 1 else 0)
    ensures km.Some? && km.value.ccc.Some? ==> notes[0] == Text("Cash Conversion Cycle is {:.1f} days.", [km.value.ccc.value])
    ensures redFlags != [] ==>
              notes[|notes| - 1]
              == Lit("Key concerns: " + Join(", ", Titles(if |redFlags| <= 2 then redFlags else redFlags[..2])) + ".")
  {
    var ccc := if km.Some? && km.value.ccc.Some? then [Text("Cash Conversion Cycle is {:.1f} days.", [km.value.ccc.value])] else [];
    var dso := if km.Some? && km.value.dso.Some? then [Text("DSO is {:.1f} days.", [km.value.dso.value])] else [];
    var first := if |redFlags| <= 2 then redFlags else redFlags[..2];
    var concerns := if redFlags != [] then [Lit("Key concerns: " + Join(", ", Titles(first)) + ".")] else [];
    ccc + dso + concerns
  }

  // ------------------------------------------------------------------ run

  /** What run_wc_llm_agent gives back: a failure, or the parsed reply with its optional narrative. */
  datatype LlmReply = LlmFailed | LlmReply(narrative: Option<seq<string>>)

  /** WorkingCapitalOutput. */
  datatype WcOutput = WcOutput(module_name: string, company: string, key_metrics: Option<KeyMetrics>,
                               trends: Trends, analysis_narrative: seq<string>, red_flags: seq<RedFlag>,
                               positive_points: seq<Text>, rules: seq<Finding>)

  /**
   * How `run` ends: the ValueError of an empty metrics dictionary, the
   * TypeError of comparing a missing DSO, DIO, DPO or CCC with a number, a
   * failure of the language model, or the output.
   */
  datatype RunResult = NoMetrics | RuleTypeError | LlmError | Done(out: WcOutput)

  /** The entries of the latest year the rules read; the dictionary has no CAGR entries. */
  function LatestOf(m: YearMetrics): (l: Latest)
    ensures l.nwc_cagr.None? && l.revenue_cagr.None?
    ensures Comparable(l) <==> m.dso.Some? && m.dio.Some? && m.dpo.Some? && m.ccc.Some?
  {
    Latest(m.dso, m.dio, m.dpo, m.ccc, m.nwc_ratio, None, None)
  }

  /** What `run` produces from the records and the model's reply. */
  function RunSpec(company: string, financials: seq<YearInput>, llm: LlmReply): (r: RunResult)
    ensures r.LlmError? ==> llm.LlmFailed?
    ensures r.Done? ==> !llm.LlmFailed? && r.out.module_name == "WorkingCapital" && r.out.company == company
  {
    var per := PerYear(SortBy(financials, YearOf));
    if per == [] then NoMetrics
    else
      var latest := LatestOf(per[LatestIndex(per)].1);
      var trends := TrendOutputOf(SortBy(financials, YearOf));
      if !Comparable(latest) then RuleTypeError
      else
        var rules := Catalogue(latest, GrowthOf(trends));
        if llm.LlmFailed? then LlmError
        else
          Done(WcOutput("WorkingCapital", company, KeyMetricsOf(per), trends,
                        if llm.narrative.Some? then llm.narrative.value else [],
                        RedFlagsOf(rules), PositivesOf(rules), rules))
  }

  class WorkingCapitalModule {
    var benchmarks: Benchmarks

    /** `benchmarks or WorkingCapitalBenchmarks()`. */
    constructor (b: Option<Benchmarks>)
      ensures benchmarks == if b.Some? then b.value else DefaultBenchmarks()
    {
      benchmarks := if b.Some? then b.value else DefaultBenchmarks();
    }

    /** `run`: the six steps in order; the deterministic notes are built and not returned. */
    method Run(input: WcInput, llm: LlmReply) returns (r: RunResult)
      ensures r == RunSpec(input.company, input.financial_years, llm)
    {
      var financials := input.financial_years;
      var perYear := ComputePerYearMetrics(financials);
      if perYear == [] {
        return NoMetrics;
      }
      var latestYear := perYear[LatestIndex(perYear)].0;
      LookupAt(perYear, LatestIndex(perYear));
      var latest := LatestOf(Lookup(perYear, latestYear).value);
      var trendSummary := ComputeTrendOutput(financials);
      if !Comparable(latest) {
        return RuleTypeError;
      }
      var ruleResults := WcRuleEngine(latest, trendSummary, Some(benchmarks));
      var redFlags, positives := Summarize(ruleResults);
      var keyMetrics := KeyMetricsOf(perYear);
      var notes := NarrativeNotes(keyMetrics, redFlags);
      if llm.LlmFailed? {
        return LlmError;
      }
      r := Done(WcOutput("WorkingCapital", input.company, keyMetrics, trendSummary,
                         if llm.narrative.Some? then llm.narrative.value else [],
                         redFlags, positives, ruleResults));
    }
  }

  /** What run_working_capital_module does with a payload: validate it, then run. */
  datatype ModuleResult = InvalidInput | Completed(result: RunResult)

  function RunModuleSpec(company: string, year: Option<int>, years: seq<YearInput>,
                         benchmarks: Option<Benchmarks>, llm: LlmReply): ModuleResult
  {
    match ParseInput(company, year, years, benchmarks)
    case DuplicateYear => InvalidInput
    case Parsed(input) => Completed(RunSpec(input.company, input.financial_years, llm))
  }

  /** run_working_capital_module. */
  method RunWorkingCapitalModule(company: string, year: Option<int>, years: seq<YearInput>,
                                 benchmarks: Option<Benchmarks>, llm: LlmReply) returns (r: ModuleResult)
    ensures r == RunModuleSpec(company, year, years, benchmarks, llm)
  {
    var wcModule := new WorkingCapitalModule(None);
    var parsed := ParseInput(company, year, years, benchmarks);
    if parsed.DuplicateYear? {
      return InvalidInput;
    }
    var result := wcModule.Run(parsed.input, llm);
    r := Completed(result);
  }

  // ------------------------------------------------------------ properties

  /**
   * The latest entry of the per-year dictionary of the sorted records holds
   * the metrics of a record whose year is the largest.
   */
  lemma LatestRecord(financials: seq<YearInput>) returns (j: nat)
    requires financials != []
    ensures j < |financials|
    ensures forall k :: 0 <= k < |financials| ==> financials[k].year <= financials[j].year
    ensures var per := PerYear(SortBy(financials, YearOf));
            per != [] && per[LatestIndex(per)].1 == MetricsOf(financials[j])
  {
    var sorted := SortBy(financials, YearOf);
    PerYearKeys(sorted);
    var js := KeyMetricsOfRecords(sorted);
    SortedElements(financials, YearOf, js);
    j :| 0 <= j < |financials| && financials[j] == sorted[js];
    forall k | 0 <= k < |financials| ensures financials[k].year <= financials[j].year {
      assert financials[k] in multiset(sorted);
      var ks :| 0 <= ks < |sorted| && sorted[ks] == financials[k];
    }
  }

  /** A run without records stops for want of metrics, and only then. */
  lemma RunNoMetrics(company: string, financials: seq<YearInput>, llm: LlmReply)
    ensures RunSpec(company, financials, llm).NoMetrics? <==> financials == []
  {
    PerYearKeys(SortBy(financials, YearOf));
  }

  /**
   * With records, the rules fail exactly when the latest record has no
   * revenue or no COGS: DSO, DIO, DPO and CCC are then None.
   */
  lemma RunRuleError(company: string, financials: seq<YearInput>, llm: LlmReply) returns (j: nat)
    requires financials != []
    ensures j < |financials| && forall k :: 0 <= k < |financials| ==> financials[k].year <= financials[j].year
    ensures RunSpec(company, financials, llm).RuleTypeError? <==> financials[j].revenue == 0.0 || financials[j].cogs == 0.0
  {
    j := LatestRecord(financials);
  }

  /** A completed run holds the engine's results on the latest metrics and their summary. */
  lemma RunDoneParts(company: string, financials: seq<YearInput>, llm: LlmReply)
    requires RunSpec(company, financials, llm).Done?
    ensures var per := PerYear(SortBy(financials, YearOf));
            var l := LatestOf(per[LatestIndex(per)].1);
            var out := RunSpec(company, financials, llm).out;
            && Comparable(l)
            && out.rules == Catalogue(l, GrowthOf(TrendOutputOf(SortBy(financials, YearOf))))
            && out.red_flags == RedFlagsOf(out.rules) && out.positive_points == PositivesOf(out.rules)
  {
  }

  /** The engine's results on metrics without CAGRs hold no E2; their CRITICAL flags are D1 and E1. */
  lemma NoCagrResults(l: Latest, g: Growth)
    requires Comparable(l) && l.nwc_cagr.None?
    ensures E2 !in IdsOf(Catalogue(l, g))
    ensures HasCritical(RedFlagsOf(Catalogue(l, g))) <==> SafeGt(l.ccc, Some(180.0)) || SafeGt(l.nwc_ratio, Some(0.25))
  {
    CatalogueIds(l, g);
    CriticalIff(l, g);
  }

  /**
   * A completed run never holds an E2 result, since the latest metrics
   * carry no CAGRs, and holds a CRITICAL red flag exactly when the latest
   * CCC exceeds 180 days or the latest NWC ratio exceeds 0.25.
   */
  lemma RunDone(company: string, financials: seq<YearInput>, llm: LlmReply) returns (j: nat)
    requires RunSpec(company, financials, llm).Done?
    ensures j < |financials| && forall k :: 0 <= k < |financials| ==> financials[k].year <= financials[j].year
    ensures E2 !in IdsOf(RunSpec(company, financials, llm).out.rules)
    ensures HasCritical(RunSpec(company, financials, llm).out.red_flags)
            <==> SafeGt(MetricsOf(financials[j]).ccc, Some(180.0)) || SafeGt(MetricsOf(financials[j]).nwc_ratio, Some(0.25))
  {
    RunDoneParts(company, financials, llm);
    j := LatestRecord(financials);
    var per := PerYear(SortBy(financials, YearOf));
    var l := LatestOf(per[LatestIndex(per)].1);
    assert l == LatestOf(MetricsOf(financials[j]));
    NoCagrResults(l, GrowthOf(TrendOutputOf(SortBy(financials, YearOf))));
  }
}
