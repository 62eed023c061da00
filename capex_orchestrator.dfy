/**
 * run_capex_cwip_module from the sorted records on: each year's metrics
 * against the record before it in newest-first order, the rules for every
 * year, the filter that keeps the latest year's flags, the red / yellow /
 * green partition and the sub-score. The trends are a parameter, and the
 * narrative (an LLM call) is not part of this model.
 */
module CapexOrchestrator {
  import opened Common
  import opened Sorting
  import opened CapexMetrics
  import opened CapexTrend
  import opened CapexRules

  function NegYear(r: CapexYear): int { -r.year }

  /** `sorted(..., key=year, reverse=True)`: newest first, records of one year in input order. */
  function NewestFirst(fin: seq<CapexYear>): (s: seq<CapexYear>)
    ensures |s| == |fin| && multiset(s) == multiset(fin)
  {
    SortBy(fin, NegYear)
  }

  /** The `prev` the loop passes at position i: the record before it, None at position 0. */
  function PrevOf(s: seq<CapexYear>, i: nat): Option<CapexYear>
    requires i < |s|
  {
    if i > 0 then Some(s[i - 1]) else None
  }

  /** No call of compute_year_metrics in the loop raises. */
  predicate AllComputable(s: seq<CapexYear>)
  {
    forall i :: 0 <= i < |s| ==> Computable(s[i], PrevOf(s, i))
  }

  /** An entry of yearly_results. */
  datatype YearResult = YearResult(year: int, metrics: YearMetrics)

  function YearlyOf(s: seq<CapexYear>): (ys: seq<YearResult>)
    requires AllComputable(s)
    ensures |ys| == |s|
  {
    seq(|s|, i requires 0 <= i < |s| && AllComputable(s) => YearResult(s[i].year, YearMetricsOf(s[i], PrevOf(s, i))))
  }

  /** The metrics loop; None where compute_year_metrics would raise TypeError. */
  method YearlyResults(s: seq<CapexYear>) returns (ys: Option<seq<YearResult>>)
    ensures ys.Some? <==> AllComputable(s)
    ensures ys.Some? ==> ys.value == YearlyOf(s)
  {
    var out: seq<YearResult> := [];
    var i := 0;
    while i < |s|
      invariant 0 <= i <= |s|
      invariant forall k :: 0 <= k < i ==> Computable(s[k], PrevOf(s, k))
      invariant |out| == i
      invariant forall k :: 0 <= k < i ==> out[k] == YearResult(s[k].year, YearMetricsOf(s[k], PrevOf(s, k)))
    {
      var prev := if i > 0 then Some(s[i - 1]) else None;
      if !Computable(s[i], prev) {
        return None;
      }
      out := out + [YearResult(s[i].year, YearMetricsOf(s[i], prev))];
      i := i + 1;
    }
    return Some(out);
  }

  /** A flag with the year of the record it was evaluated for. */
  datatype YearFlag = YearFlag(year: int, finding: Finding)

  function Tag(year: int, fs: seq<Finding>): (out: seq<YearFlag>)
    ensures |out| == |fs|
  {
    seq(|fs|, k requires 0 <= k < |fs| => YearFlag(year, fs[k]))
  }

  /** The rules evaluated on one year's metrics. */
  function RulesOf(t: Trends, r: Bounds): YearMetrics -> seq<Finding>
    requires t.Trends?
  {
    m => Catalogue(m, t, r)
  }

  /** Each item's findings under `rules`, tagged with its year, item by item. */
  function FlagsOver(items: seq<YearResult>, rules: YearMetrics -> seq<Finding>): seq<YearFlag>
  {
    if items == [] then []
    else
      var last := items[|items| - 1];
      FlagsOver(items[..|items| - 1], rules) + Tag(last.year, rules(last.metrics))
  }

  /** all_year_flags before the filter: every year's nine flags, year by year. */
  function FlagsOf(items: seq<YearResult>, t: Trends, r: Bounds): seq<YearFlag>
    requires t.Trends?
  {
    FlagsOver(items, RulesOf(t, r))
  }

  /** The rules loop with its inner loop over one year's flags. */
  method CollectFlags(items: seq<YearResult>, t: Trends, r: Bounds) returns (all: seq<YearFlag>)
    requires t.Trends?
    ensures all == FlagsOf(items, t, r)
  {
    all := [];
    var i := 0;
    while i < |items|
      invariant 0 <= i <= |items|
      invariant all == FlagsOf(items[..i], t, r)
    {
      var item := items[i];
      var flags := EvaluateRules(item.metrics, t, r);
      var j := 0;
      while j < |flags|
        invariant 0 <= j <= |flags|
        invariant all == FlagsOf(items[..i], t, r) + Tag(item.year, flags[..j])
      {
        assert Tag(item.year, flags[..j + 1]) == Tag(item.year, flags[..j]) + [YearFlag(item.year, flags[j])];
        all := all + [YearFlag(item.year, flags[j])];
        j := j + 1;
      }
      assert flags[..j] == flags;
      assert items[..i + 1][..i] == items[..i];
      i := i + 1;
    }
    assert items[..i] == items;
  }

  /** Python's max over a non-empty list of years. */
  function MaxYear(ys: seq<int>): (m: int)
    requires ys != []
    ensures m in ys && forall k :: 0 <= k < |ys| ==> ys[k] <= m
  {
    if |ys| == 1 then ys[0]
    else
      var rest := MaxYear(ys[1..]);
      assert forall k :: 1 <= k < |ys| ==> ys[k] == ys[1..][k - 1];
      if ys[0] < rest then rest else ys[0]
  }

  function YearsOf(items: seq<YearResult>): (ys: seq<int>)
    ensures |ys| == |items|
  {
    seq(|items|, i requires 0 <= i < |items| => items[i].year)
  }

  /** The comprehension that keeps the flags of `year`. */
  function OfYear(fs: seq<YearFlag>, year: int): (out: seq<YearFlag>)
    ensures |out| <= |fs|
    ensures forall k :: 0 <= k < |out| ==> out[k].year == year && out[k] in fs
  {
    if fs == [] then []
    else OfYear(fs[..|fs| - 1], year) + (if fs[|fs| - 1].year == year then [fs[|fs| - 1]] else [])
  }

  /** The flags whose finding carries flag `f`. */
  function WithFlag(fs: seq<YearFlag>, f: Flag): (out: seq<YearFlag>)
    ensures |out| <= |fs|
  {
    if fs == [] then []
    else WithFlag(fs[..|fs| - 1], f) + (if fs[|fs| - 1].finding.flag == f then [fs[|fs| - 1]] else [])
  }

  /** The flags that are neither RED nor YELLOW: GREEN and NOT_APPLICABLE alike. */
  function Others(fs: seq<YearFlag>): (out: seq<YearFlag>)
    ensures |out| <= |fs|
  {
    if fs == [] then []
    else
      var x := fs[|fs| - 1];
      Others(fs[..|fs| - 1]) + (if x.finding.flag != RED && x.finding.flag != YELLOW then [x] else [])
  }

  /** The classification loop. */
  method Partition(fs: seq<YearFlag>) returns (red: seq<YearFlag>, yellow: seq<YearFlag>, green: seq<YearFlag>)
    ensures red == WithFlag(fs, RED) && yellow == WithFlag(fs, YELLOW) && green == Others(fs)
  {
    red, yellow, green := [], [], [];
    var i := 0;
    while i < |fs|
      invariant 0 <= i <= |fs|
      invariant red == WithFlag(fs[..i], RED) && yellow == WithFlag(fs[..i], YELLOW) && green == Others(fs[..i])
    {
      assert fs[..i + 1][..i] == fs[..i];
      var f := fs[i];
      if f.finding.flag == RED {
        red := red + [f];
      } else if f.finding.flag == YELLOW {
        yellow := yellow + [f];
      } else {
        green := green + [f];
      }
      i := i + 1;
    }
    assert fs[..i] == fs;
  }

  /** An entry of formatted_red_flags. */
  datatype RedFlag = RedFlag(severity: Flag, title: string, detail: string)

  function RedFlagOf(f: YearFlag): RedFlag
  {
    RedFlag(if f.finding.flag == RED then CRITICAL else HIGH, RuleName(f.finding.rule_id, f.finding.branch),
            Reason(f.finding.rule_id, f.finding.branch))
  }

  function Formatted(red: seq<YearFlag>): (out: seq<RedFlag>)
    ensures |out| == |red|
  {
    seq(|red|, k requires 0 <= k < |red| => RedFlagOf(red[k]))
  }

  /** positive_points: the reasons of the green flags, in order. */
  function PositivePoints(green: seq<YearFlag>): (out: seq<string>)
    ensures |out| == |green|
  {
    seq(|green|, k requires 0 <= k < |green| => Reason(green[k].finding.rule_id, green[k].finding.branch))
  }

  /** sub_score: 100 less 15 per red and 5 per yellow flag, floored at 0. */
  function SubScore(reds: nat, yellows: nat): (s: int)
    ensures 0 <= s <= 100
    ensures s == 0 || s == 100 - 15 * reds - 5 * yellows
  {
    var raw := 100 - reds * 15 - yellows * 5;
    if raw < 0 then 0 else raw
  }

  /** The result dictionary without the LLM narrative. */
  datatype Output = Output(module_name: string, sub_score_adjusted: int, red_flags: seq<RedFlag>,
                           positive_points: seq<string>, rules: seq<YearFlag>, yearly_metrics: seq<YearResult>)

  /** The output for records whose metrics, rules and latest year all exist. */
  function OutputOf(yearly: seq<YearResult>, t: Trends, r: Bounds): Output
    requires yearly != [] && t.Trends?
  {
    var kept := OfYear(FlagsOf(yearly, t, r), MaxYear(YearsOf(yearly)));
    var red := WithFlag(kept, RED);
    Output("CapexCWIP", SubScore(|red|, |WithFlag(kept, YELLOW)|), Formatted(red), PositivePoints(Others(kept)),
           kept, yearly)
  }

  /**
   * What run_capex_cwip_module returns, None where it raises: TypeError
   * from compute_year_metrics, KeyError from evaluate_rules on empty
   * trends, or ValueError from max() over no years.
   */
  function RunOf(fin: seq<CapexYear>, t: Trends, r: Bounds): (out: Option<Output>)
    ensures out.None? <==> fin == [] || t.NoTrends? || !AllComputable(NewestFirst(fin))
    ensures out.Some? ==> out.value.module_name == "CapexCWIP" && |out.value.yearly_metrics| == |fin|
  {
    var s := NewestFirst(fin);
    if !AllComputable(s) || s == [] || t.NoTrends? then None
    else Some(OutputOf(YearlyOf(s), t, r))
  }

  /** run_capex_cwip_module with the trends supplied. */
  method Run(fin: seq<CapexYear>, t: Trends, r: Bounds) returns (out: Option<Output>)
    ensures out == RunOf(fin, t, r)
  {
    var financials := NewestFirst(fin);
    var yearly := YearlyResults(financials);
    if yearly.None? {
      return None;
    }
    if yearly.value == [] || t.NoTrends? {
      return None;
    }
    var o := Finish(yearly.value, t, r);
    out := Some(o);
  }

  /** The rules, the latest-year filter, the partition and the score. */
  method Finish(yearly: seq<YearResult>, t: Trends, r: Bounds) returns (o: Output)
    requires yearly != [] && t.Trends?
    ensures o == OutputOf(yearly, t, r)
  {
    var all := CollectFlags(yearly, t, r);
    var latest := MaxYear(YearsOf(yearly));
    var kept := OfYear(all, latest);
    var red, yellow, green := Partition(kept);
    var formatted := Formatted(red);
    var positive := PositivePoints(green);
    var score := 100 - |red| * 15 - |yellow| * 5;
    o := Output("CapexCWIP", if score < 0 then 0 else score, formatted, positive, kept, yearly);
  }

  // ------------------------------------------------------------ properties

  /**
   * The records run from newest to oldest, so the `prev` of position i > 0
   * is a record of the same or a later year, and position 0 has none.
   */
  lemma PrevIsLater(fin: seq<CapexYear>, i: nat)
    requires 0 < i < |fin|
    ensures var s := NewestFirst(fin);
            PrevOf(s, 0).None? && PrevOf(s, i).Some? && PrevOf(s, i).value.year >= s[i].year
  {
    var s := NewestFirst(fin);
    assert NegYear(s[i - 1]) <= NegYear(s[i]);
  }

  /** The latest year is the year of the first record in newest-first order. */
  lemma LatestIsFirst(s: seq<CapexYear>)
    requires AllComputable(s) && s != [] && SortedBy(s, NegYear)
    ensures MaxYear(YearsOf(YearlyOf(s))) == s[0].year
  {
    var ys := YearsOf(YearlyOf(s));
    assert ys[0] == s[0].year;
    forall k | 0 <= k < |ys| ensures ys[k] <= s[0].year {
      assert NegYear(s[0]) <= NegYear(s[k]);
    }
  }

  /** Each year's flags are tagged with that year, nine per year. */
  lemma FlagsTagged(items: seq<YearResult>, t: Trends, r: Bounds)
    requires t.Trends?
    ensures |FlagsOf(items, t, r)| == 9 * |items|
    ensures forall k :: 0 <= k < |FlagsOf(items, t, r)| ==> FlagsOf(items, t, r)[k].year in YearsOf(items)
  {
    var rules := RulesOf(t, r);
    forall m ensures |rules(m)| == 9 {
      CatalogueOrder(m, t, r);
    }
    FlagsCount(items, rules);
  }

  lemma {:induction false} FlagsCount(items: seq<YearResult>, rules: YearMetrics -> seq<Finding>)
    requires forall m :: |rules(m)| == 9
    ensures |FlagsOver(items, rules)| == 9 * |items|
    ensures forall k :: 0 <= k < |FlagsOver(items, rules)| ==> FlagsOver(items, rules)[k].year in YearsOf(items)
  {
    if items != [] {
      var init := items[..|items| - 1];
      FlagsCount(init, rules);
      var last := items[|items| - 1];
      assert forall k :: 0 <= k < |init| ==> YearsOf(init)[k] == YearsOf(items)[k];
      assert YearsOf(items)[|items| - 1] == last.year;
    }
  }

  /**
   * The output keeps only flags of the latest year, the score lies in
   * [0, 100] and every formatted red flag is CRITICAL.
   */
  lemma OutputShape(fin: seq<CapexYear>, t: Trends, r: Bounds)
    requires RunOf(fin, t, r).Some?
    ensures var o := RunOf(fin, t, r).value;
            && o.module_name == "CapexCWIP"
            && 0 <= o.sub_score_adjusted <= 100
            && (forall k :: 0 <= k < |o.rules| ==> o.rules[k].year == NewestFirst(fin)[0].year)
            && (forall k :: 0 <= k < |o.red_flags| ==> o.red_flags[k].severity == CRITICAL)
  {
    var s := NewestFirst(fin);
    LatestIsFirst(s);
    var kept := OfYear(FlagsOf(YearlyOf(s), t, r), s[0].year);
    RedOnlyCritical(kept);
  }

  /** The red partition holds only RED flags, so their severity is always CRITICAL. */
  lemma {:induction false} RedOnlyCritical(fs: seq<YearFlag>)
    ensures forall k :: 0 <= k < |WithFlag(fs, RED)| ==> WithFlag(fs, RED)[k].finding.flag == RED
    ensures forall k :: 0 <= k < |Formatted(WithFlag(fs, RED))| ==> Formatted(WithFlag(fs, RED))[k].severity == CRITICAL
  {
    if fs != [] {
      RedOnlyCritical(fs[..|fs| - 1]);
    }
  }

  /** The partition loses no flag: every flag is red, yellow or green, NOT_APPLICABLE counting as green. */
  lemma {:induction false} PartitionCounts(fs: seq<YearFlag>)
    ensures |WithFlag(fs, RED)| + |WithFlag(fs, YELLOW)| + |Others(fs)| == |fs|
  {
    if fs != [] {
      PartitionCounts(fs[..|fs| - 1]);
    }
  }

  /** A NOT_APPLICABLE flag goes to the green list, so its reason becomes a positive point. */
  lemma {:induction false} NotApplicableIsGreen(fs: seq<YearFlag>, k: nat)
    requires k < |fs| && fs[k].finding.flag == NOT_APPLICABLE
    ensures fs[k] in Others(fs)
  {
    if k < |fs| - 1 {
      NotApplicableIsGreen(fs[..|fs| - 1], k);
    }
  }

  /** Keeping one year distributes over the years, so with a single latest record only its flags remain. */
  lemma {:induction false} OfYearAppend(a: seq<YearFlag>, b: seq<YearFlag>, year: int)
    ensures OfYear(a + b, year) == OfYear(a, year) + OfYear(b, year)
  {
    if b != [] {
      assert (a + b)[..|a + b| - 1] == a + b[..|b| - 1];
      OfYearAppend(a, b[..|b| - 1], year);
    } else {
      assert a + b == a;
    }
  }

  lemma {:induction false} OfYearTag(year: int, y: int, fs: seq<Finding>)
    ensures OfYear(Tag(year, fs), y) == if year == y then Tag(year, fs) else []
  {
    if fs != [] {
      assert Tag(year, fs)[..|fs| - 1] == Tag(year, fs[..|fs| - 1]);
      OfYearTag(year, y, fs[..|fs| - 1]);
    }
  }

  /** Flags of years other than `y` are all dropped. */
  lemma {:induction false} OfYearNone(items: seq<YearResult>, rules: YearMetrics -> seq<Finding>, y: int)
    requires forall k :: 0 <= k < |items| ==> items[k].year != y
    ensures OfYear(FlagsOver(items, rules), y) == []
  {
    if items != [] {
      var init := items[..|items| - 1];
      var last := items[|items| - 1];
      OfYearNone(init, rules, y);
      OfYearAppend(FlagsOver(init, rules), Tag(last.year, rules(last.metrics)), y);
      OfYearTag(last.year, y, rules(last.metrics));
    }
  }

  /** The newest record has no `prev`, so its B3 and D1 findings are NOT_APPLICABLE. */
  lemma NoPrevFlags(c: CapexYear, t: Trends, r: Bounds)
    requires t.Trends?
    ensures var cat := Catalogue(YearMetricsOf(c, None), t, r);
            && |cat| == 9
            && cat[4].rule_id == B3 && cat[4].flag == NOT_APPLICABLE
            && cat[7].rule_id == D1 && cat[7].flag == NOT_APPLICABLE
  {
    NoPairNoGrowth(c);
  }

  /**
   * When no other record has the latest year, the output rules are the
   * nine flags of the newest record, which had no `prev`: so B3 and D1 are
   * always NOT_APPLICABLE in the output.
   */
  lemma {:induction false} LatestHasNoPrev(fin: seq<CapexYear>, t: Trends, r: Bounds)
    requires RunOf(fin, t, r).Some?
    requires forall i :: 0 < i < |fin| ==> NewestFirst(fin)[i].year != NewestFirst(fin)[0].year
    ensures var o := RunOf(fin, t, r).value;
            && |o.rules| == 9
            && o.rules[4].finding.rule_id == B3 && o.rules[4].finding.flag == NOT_APPLICABLE
            && o.rules[7].finding.rule_id == D1 && o.rules[7].finding.flag == NOT_APPLICABLE
  {
    var s := NewestFirst(fin);
    LatestRules(s, t, r);
    NoPrevFlags(s[0], t, r);
    var cat := Catalogue(YearMetricsOf(s[0], None), t, r);
    assert RunOf(fin, t, r).value.rules == Tag(s[0].year, cat);
  }

  /** With one record of the latest year, the output rules are that record's flags. */
  lemma {:induction false} LatestRules(s: seq<CapexYear>, t: Trends, r: Bounds)
    requires AllComputable(s) && s != [] && t.Trends? && SortedBy(s, NegYear)
    requires forall i :: 0 < i < |s| ==> s[i].year != s[0].year
    ensures OutputOf(YearlyOf(s), t, r).rules == Tag(s[0].year, Catalogue(YearMetricsOf(s[0], None), t, r))
  {
    var yearly := YearlyOf(s);
    LatestIsFirst(s);
    assert yearly[0].metrics == YearMetricsOf(s[0], None);
    assert forall k :: 0 < k < |yearly| ==> yearly[k].year == s[k].year;
    KeptFirst(yearly, RulesOf(t, r));
  }

  /** When no later item shares the first item's year, the filter keeps exactly the first item's flags. */
  lemma {:induction false} KeptFirst(items: seq<YearResult>, rules: YearMetrics -> seq<Finding>)
    requires items != []
    requires forall k :: 0 < k < |items| ==> items[k].year != items[0].year
    ensures OfYear(FlagsOver(items, rules), items[0].year) == Tag(items[0].year, rules(items[0].metrics))
  {
    var y := items[0].year;
    var first := items[..1];
    var rest := items[1..];
    assert items == first + rest;
    FlagsAppend(first, rest, rules);
    assert FlagsOver(first, rules) == Tag(y, rules(items[0].metrics)) by {
      assert first[..0] == [];
    }
    assert forall k :: 0 <= k < |rest| ==> rest[k].year == items[k + 1].year;
    OfYearNone(rest, rules, y);
    OfYearAppend(FlagsOver(first, rules), FlagsOver(rest, rules), y);
    OfYearTag(y, y, rules(items[0].metrics));
  }

  lemma {:induction false} FlagsAppend(a: seq<YearResult>, b: seq<YearResult>, rules: YearMetrics -> seq<Finding>)
    ensures FlagsOver(a + b, rules) == FlagsOver(a, rules) + FlagsOver(b, rules)
  {
    if b != [] {
      assert (a + b)[..|a + b| - 1] == a + b[..|b| - 1];
      FlagsAppend(a, b[..|b| - 1], rules);
    } else {
      assert a + b == a;
    }
  }
}
