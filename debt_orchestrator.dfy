/**
 * The borrowings module's stages after the rules: the sub-score, the red
 * flags and positive points, and the per-metric view of the per-year
 * metrics that the output reports.
 */
module DebtOrchestrator {
  import opened Common
  import opened Sorting
  import opened DebtMetrics
  import opened DebtTrend
  import opened DebtRules

  // ------------------------------------------------------------ sub-score

  /** How many results carry flag `f` (the Counter of flags). */
  function CountFlag(rs: seq<Finding>, f: Flag): (n: nat)
    ensures n <= |rs|
  {
    if rs == [] then 0
    else CountFlag(rs[..|rs| - 1], f) + (if rs[|rs| - 1].flag == f then 1 else 0)
  }

  /** `max(0, min(100, score))`. */
  function Clamp(score: int): (r: int)
    ensures 0 <= r <= 100
    ensures 0 <= score <= 100 ==> r == score
    ensures score < 0 ==> r == 0
    ensures score > 100 ==> r == 100
  {
    if score < 0 then 0 else if score > 100 then 100 else score
  }

  /** compute_sub_score: 70, less 10 per RED and 5 per YELLOW, plus 1 per GREEN, kept within [0, 100]. */
  function SubScore(rs: seq<Finding>): (score: int)
    ensures 0 <= score <= 100
    ensures var raw := 70 - 10 * CountFlag(rs, RED) - 5 * CountFlag(rs, YELLOW) + CountFlag(rs, GREEN);
            0 <= raw <= 100 ==> score == raw
  {
    Clamp(70 - 10 * CountFlag(rs, RED) - 5 * CountFlag(rs, YELLOW) + CountFlag(rs, GREEN))
  }

  /** When every result is RED, YELLOW or GREEN, the three counts add up to the number of results. */
  lemma {:induction false} CountsPartition(rs: seq<Finding>)
    requires forall i :: 0 <= i < |rs| ==> rs[i].flag in {RED, YELLOW, GREEN}
    ensures CountFlag(rs, RED) + CountFlag(rs, YELLOW) + CountFlag(rs, GREEN) == |rs|
  {
    if rs != [] {
      var init := rs[..|rs| - 1];
      assert forall i :: 0 <= i < |init| ==> init[i] == rs[i];
      CountsPartition(init);
    }
  }

  /** Counting two lists counts each. */
  lemma {:induction false} CountAppend(a: seq<Finding>, b: seq<Finding>, f: Flag)
    ensures CountFlag(a + b, f) == CountFlag(a, f) + CountFlag(b, f)
    decreases |b|
  {
    if b == [] {
      assert a + b == a;
    } else {
      assert (a + b)[..|a + b| - 1] == a + b[..|b| - 1];
      CountAppend(a, b[..|b| - 1], f);
    }
  }

  /** A GREEN result at position i adds one to the GREEN count. */
  lemma {:induction false} GreenCounted(rs: seq<Finding>, i: nat)
    requires i < |rs| && rs[i].flag == GREEN
    ensures CountFlag(rs, GREEN) >= 1 + CountFlag(rs[..i] + rs[i + 1..], GREEN)
  {
    assert rs == rs[..i] + [rs[i]] + rs[i + 1..];
    CountAppend(rs[..i] + [rs[i]], rs[i + 1..], GREEN);
    CountAppend(rs[..i], [rs[i]], GREEN);
    CountAppend(rs[..i], rs[i + 1..], GREEN);
    assert [rs[i]][..0] == [];
  }

  /**
   * On the twelve rule results the score is max(0, 82 - 11 RED - 6 YELLOW):
   * each result is RED, YELLOW or GREEN, so the GREEN count is 12 less the
   * others. A3b and D2 are always GREEN, so at most ten results lower it.
   */
  lemma CatalogueScore(x: Inputs)
    requires Evaluable(x)
    ensures var rs := Catalogue(x);
            var raw := 82 - 11 * CountFlag(rs, RED) - 6 * CountFlag(rs, YELLOW);
            && CountFlag(rs, GREEN) >= 2
            && CountFlag(rs, RED) + CountFlag(rs, YELLOW) <= 10
            && SubScore(rs) == (if raw < 0 then 0 else raw)
  {
    CatalogueOrder(x);
    CatalogueFlags(x);
    TwelveScore(Catalogue(x));
  }

  /** The score of twelve RED, YELLOW or GREEN results of which the fourth and the tenth are GREEN. */
  lemma TwelveScore(rs: seq<Finding>)
    requires |rs| == 12 && rs[3].flag == GREEN && rs[9].flag == GREEN
    requires forall i :: 0 <= i < |rs| ==> rs[i].flag in {RED, YELLOW, GREEN}
    ensures var raw := 82 - 11 * CountFlag(rs, RED) - 6 * CountFlag(rs, YELLOW);
            && CountFlag(rs, GREEN) >= 2
            && CountFlag(rs, RED) + CountFlag(rs, YELLOW) <= 10
            && SubScore(rs) == (if raw < 0 then 0 else raw)
  {
    CountsPartition(rs);
    GreenCounted(rs, 9);
    var rest := rs[..9] + rs[10..];
    assert rest[3] == rs[3];
    GreenCounted(rest, 3);
  }

  // ------------------------------------------------------------ summary

  /** A red-flag dictionary: severity, title and detail. */
  datatype RedFlag = RedFlag(severity: Flag, title: string, detail: string)

  /** Every RED result becomes a HIGH red flag titled by its rule name, with its reason as detail. */
  function RedFlagOf(r: Finding): RedFlag
  {
    RedFlag(HIGH, RuleName(r.rule_id), Reason(r))
  }

  /** A positive point: `f"{rule_name} is healthy."`. */
  function PositiveOf(r: Finding): string
  {
    RuleName(r.rule_id) + " is healthy."
  }

  /** The red flags summarize collects: one per RED result, in order. */
  function RedFlagsOf(rs: seq<Finding>): seq<RedFlag>
  {
    if rs == [] then []
    else RedFlagsOf(rs[..|rs| - 1]) + (if rs[|rs| - 1].flag == RED then [RedFlagOf(rs[|rs| - 1])] else [])
  }

  /** The positive points summarize collects: one per GREEN result, in order. */
  function PositivesOf(rs: seq<Finding>): seq<string>
  {
    if rs == [] then []
    else PositivesOf(rs[..|rs| - 1]) + (if rs[|rs| - 1].flag == GREEN then [PositiveOf(rs[|rs| - 1])] else [])
  }

  /** summarize. */
  method Summarize(rs: seq<Finding>) returns (redFlags: seq<RedFlag>, positives: seq<string>)
    ensures redFlags == RedFlagsOf(rs) && positives == PositivesOf(rs)
  {
    redFlags, positives := [], [];
    var i := 0;
    while i < |rs|
      invariant 0 <= i <= |rs|
      invariant redFlags == RedFlagsOf(rs[..i]) && positives == PositivesOf(rs[..i])
    {
      var r := rs[i];
      if r.flag == RED {
        redFlags := redFlags + [RedFlag(HIGH, RuleName(r.rule_id), Reason(r))];
      } else if r.flag == GREEN {
        positives := positives + [RuleName(r.rule_id) + " is healthy."];
      }
      assert rs[..i + 1][..i] == rs[..i];
      i := i + 1;
    }
    assert rs[..i] == rs;
  }

  /**
   * There are exactly as many red flags as RED results and as many positive
   * points as GREEN results, and each comes from such a result; YELLOW
   * results leave no trace.
   */
  lemma {:induction false} SummaryCounts(rs: seq<Finding>)
    ensures |RedFlagsOf(rs)| == CountFlag(rs, RED) && |PositivesOf(rs)| == CountFlag(rs, GREEN)
  {
    if rs != [] {
      SummaryCounts(rs[..|rs| - 1]);
    }
  }

  /** Each red flag and each positive point comes from a RED, respectively GREEN, result, and each such result gives one. */
  lemma {:induction false} SummaryMembers(rs: seq<Finding>)
    ensures forall r :: r in RedFlagsOf(rs) <==> exists i :: 0 <= i < |rs| && rs[i].flag == RED && r == RedFlagOf(rs[i])
    ensures forall p :: p in PositivesOf(rs) <==> exists i :: 0 <= i < |rs| && rs[i].flag == GREEN && p == PositiveOf(rs[i])
  {
    if rs != [] {
      var init := rs[..|rs| - 1];
      SummaryMembers(init);
      assert forall i :: 0 <= i < |init| ==> init[i] == rs[i];
    }
  }

  /** Summarising two lists summarises each, in order: the summary keeps the order of the results. */
  lemma {:induction false} SummaryAppend(a: seq<Finding>, b: seq<Finding>)
    ensures RedFlagsOf(a + b) == RedFlagsOf(a) + RedFlagsOf(b)
    ensures PositivesOf(a + b) == PositivesOf(a) + PositivesOf(b)
    decreases |b|
  {
    if b == [] {
      assert a + b == a;
    } else {
      assert (a + b)[..|a + b| - 1] == a + b[..|b| - 1];
      SummaryAppend(a, b[..|b| - 1]);
    }
  }

  // ------------------------------------------------------------ reshape_metrics

  /** The keys of a per-year metrics dictionary, in the order compute_per_year_metrics inserts them. */
  datatype MetricKey =
    | Year | TotalDebt | ShortTermDebt | LongTermDebt | FinanceCost | Revenue | Ebitda | Cwip | TotalAssets
    | StDebtShare | DeRatio | DebtEbitda | InterestCoverage
    | FloatingShare | Wacd | MaturityLt1y | Maturity1To3y | MaturityGt3y

  const MetricKeys: seq<MetricKey> := [
    Year, TotalDebt, ShortTermDebt, LongTermDebt, FinanceCost, Revenue, Ebitda, Cwip, TotalAssets,
    StDebtShare, DeRatio, DebtEbitda, InterestCoverage,
    FloatingShare, Wacd, MaturityLt1y, Maturity1To3y, MaturityGt3y]

  /** A metric's value: the year is an int, the amounts are floats, an absent ratio is None. */
  datatype Value = IntValue(i: int) | RealValue(r: real) | NoneValue

  function Val(o: Option<real>): Value
  {
    if o.Some? then RealValue(o.value) else NoneValue
  }

  /** `m[k]`: the value compute_per_year_metrics stores under key `k`. */
  function ItemValue(m: DebtYear, k: MetricKey): Value
  {
    match k
    case Year => IntValue(m.year) case TotalDebt => RealValue(m.total_debt)
    case ShortTermDebt => Val(m.short_term_debt) case LongTermDebt => Val(m.long_term_debt)
    case FinanceCost => Val(m.finance_cost) case Revenue => Val(m.revenue) case Ebitda => Val(m.ebitda)
    case Cwip => Val(m.cwip) case TotalAssets => RealValue(m.total_assets)
    case StDebtShare => Val(m.st_debt_share) case DeRatio => Val(m.de_ratio)
    case DebtEbitda => Val(m.debt_ebitda) case InterestCoverage => Val(m.interest_coverage)
    case FloatingShare => Val(m.floating_share) case Wacd => Val(m.wacd)
    case MaturityLt1y => Val(m.maturity_lt_1y_pct) case Maturity1To3y => Val(m.maturity_1_3y_pct)
    case MaturityGt3y => Val(m.maturity_gt_3y_pct)
  }

  /** `metrics.items()` of one year's dictionary: every key, in insertion order, with its value. */
  function Items(m: DebtYear): (items: seq<(MetricKey, Value)>)
    ensures |items| == |MetricKeys|
    ensures forall i :: 0 <= i < |items| ==> items[i] == (MetricKeys[i], ItemValue(m, MetricKeys[i]))
  {
    seq(|MetricKeys|, i requires 0 <= i < |MetricKeys| => (MetricKeys[i], ItemValue(m, MetricKeys[i])))
  }

  /** Where `k` stands in MetricKeys. */
  function Position(k: MetricKey): (i: nat)
    ensures i < |MetricKeys| && MetricKeys[i] == k
  {
    match k
    case Year => 0 case TotalDebt => 1 case ShortTermDebt => 2 case LongTermDebt => 3
    case FinanceCost => 4 case Revenue => 5 case Ebitda => 6 case Cwip => 7 case TotalAssets => 8
    case StDebtShare => 9 case DeRatio => 10 case DebtEbitda => 11 case InterestCoverage => 12
    case FloatingShare => 13 case Wacd => 14 case MaturityLt1y => 15 case Maturity1To3y => 16
    case MaturityGt3y => 17
  }

  lemma MetricKeysNoDup()
    ensures NoDup(MetricKeys)
  {
    forall i, j | 0 <= i < j < |MetricKeys| ensures MetricKeys[i] != MetricKeys[j] {
      assert Position(MetricKeys[i]) == i && Position(MetricKeys[j]) == j;
    }
  }

  /** The label `f"Mar {year}"`; distinct years give distinct labels. */
  datatype Label = Mar(year: int)

  /** One metric's values by label; the reshaped dictionary maps each metric to one. */
  type Column = seq<(Label, Value)>
  type Reshaped = seq<(MetricKey, Column)>

  /** `reshaped[k]` after `if k not in reshaped: reshaped[k] = {}`. */
  function ColumnOf(r: Reshaped, k: MetricKey): Column
  {
    match Lookup(r, k)
    case None => []
    case Some(c) => c
  }

  /** The inner loop: each item of one year stored under its metric and the year's label. */
  function Place(r: Reshaped, y: int, items: seq<(MetricKey, Value)>): Reshaped
  {
    if items == [] then r
    else
      var prev := Place(r, y, items[..|items| - 1]);
      var kv := items[|items| - 1];
      Store(prev, kv.0, Store(ColumnOf(prev, kv.0), Mar(y), kv.1))
  }

  /** `sorted(per_year.keys(), reverse=True)`: the years, latest first, each once. */
  function DescYears(per: Yearly): (ys: seq<int>)
    ensures |ys| == |per|
    ensures forall s, t :: 0 <= s < t < |ys| ==> ys[s] >= ys[t]
    ensures forall t :: 0 <= t < |ys| ==> ys[t] in KeySet(per)
  {
    Reverse(YearsOf(per))
  }

  /** The outer loop over the years `ys`, in order. */
  function ReshapeOver(per: Yearly, ys: seq<int>): Reshaped
    requires forall t :: 0 <= t < |ys| ==> ys[t] in KeySet(per)
  {
    if ys == [] then []
    else
      var y := ys[|ys| - 1];
      Place(ReshapeOver(per, ys[..|ys| - 1]), y, Items(Row(per, y)))
  }

  /** What reshape_metrics returns. */
  function ReshapeOf(per: Yearly): Reshaped
  {
    ReshapeOver(per, DescYears(per))
  }

  /** One year's items stored into the reshaped dictionary (the inner loop). */
  method PlaceYear(r0: Reshaped, year: int, items: seq<(MetricKey, Value)>) returns (reshaped: Reshaped)
    ensures reshaped == Place(r0, year, items)
  {
    reshaped := r0;
    var tag := Mar(year);
    var j := 0;
    while j < |items|
      invariant 0 <= j <= |items|
      invariant reshaped == Place(r0, year, items[..j])
    {
      var key := items[j].0;
      ghost var prev := reshaped;
      if key !in KeySet(reshaped) {
        LookupMissing(reshaped, key);
        reshaped := Store(reshaped, key, []);
      } else {
        LookupPresent(reshaped, key);
      }
      var column := Lookup(reshaped, key).value;
      assert column == ColumnOf(prev, key);
      StoreTwice(prev, key, [], Store(column, tag, items[j].1));
      reshaped := Store(reshaped, key, Store(column, tag, items[j].1));
      assert items[..j + 1][..j] == items[..j];
      j := j + 1;
    }
    assert items[..j] == items;
  }

  /** One pass of the outer loop: the items of year `years[t]` stored on top of the earlier years. */
  method PlaceNext(per: Yearly, years: seq<int>, t: nat, r0: Reshaped) returns (reshaped: Reshaped)
    requires forall s :: 0 <= s < |years| ==> years[s] in KeySet(per)
    requires t < |years| && r0 == ReshapeOver(per, years[..t])
    ensures reshaped == ReshapeOver(per, years[..t + 1])
  {
    var year := years[t];
    var ys := years[..t + 1];
    assert ys[..t] == years[..t] && ys[t] == year;
    assert ReshapeOver(per, ys) == Place(r0, year, Items(Row(per, year)));
    reshaped := PlaceYear(r0, year, Items(Row(per, year)));
  }

  /** reshape_metrics. */
  method ReshapeMetrics(per: Yearly) returns (reshaped: Reshaped)
    ensures reshaped == ReshapeOf(per)
  {
    reshaped := [];
    var years := DescYears(per);
    var t := 0;
    while t < |years|
      invariant 0 <= t <= |years|
      invariant reshaped == ReshapeOver(per, years[..t])
    {
      reshaped := PlaceNext(per, years, t, reshaped);
      t := t + 1;
    }
    assert years[..t] == years;
  }

  // ------------------------------------------------------------ properties of reshape_metrics

  /** A dictionary with keys `ks` and values `cols`, in that order. */
  function Table(ks: seq<MetricKey>, cols: seq<Column>): (r: Reshaped)
    requires |cols| == |ks|
    ensures |r| == |ks|
    ensures forall i :: 0 <= i < |r| ==> r[i] == (ks[i], cols[i])
  {
    seq(|ks|, i requires 0 <= i < |ks| => (ks[i], cols[i]))
  }

  lemma TableDistinct(ks: seq<MetricKey>, cols: seq<Column>)
    requires |cols| == |ks| && NoDup(ks)
    ensures DistinctKeys(Table(ks, cols))
  {
  }

  /** The items of one year whose keys are `ks`, in order. */
  predicate KeyedBy(items: seq<(MetricKey, Value)>, ks: seq<MetricKey>)
  {
    |items| == |ks| && forall i :: 0 <= i < |items| ==> items[i].0 == ks[i]
  }

  /** The single-label columns the first p items of year y create in an empty dictionary. */
  function Fresh(ks: seq<MetricKey>, y: int, items: seq<(MetricKey, Value)>, p: nat): (r: Reshaped)
    requires p <= |items| && p <= |ks|
    ensures |r| == p
    ensures forall i :: 0 <= i < p ==> r[i] == (ks[i], [(Mar(y), items[i].1)])
  {
    seq(p, i requires 0 <= i < p => (ks[i], [(Mar(y), items[i].1)]))
  }

  lemma FreshSnoc(ks: seq<MetricKey>, y: int, items: seq<(MetricKey, Value)>, p: nat)
    requires 0 < p <= |items| && p <= |ks|
    ensures Fresh(ks, y, items, p) == Fresh(ks, y, items, p - 1) + [(ks[p - 1], [(Mar(y), items[p - 1].1)])]
  {
    var a := Fresh(ks, y, items, p);
    var b := Fresh(ks, y, items, p - 1) + [(ks[p - 1], [(Mar(y), items[p - 1].1)])];
    forall i | 0 <= i < p ensures a[i] == b[i] {
      if i < p - 1 {
        assert b[i] == Fresh(ks, y, items, p - 1)[i];
      }
    }
  }

  /** Storing under a key the dictionary lacks appends a one-label column. */
  lemma StoreFreshKey(prev: Reshaped, k: MetricKey, lab: Label, v: Value)
    requires forall i :: 0 <= i < |prev| ==> prev[i].0 != k
    ensures Store(prev, k, Store(ColumnOf(prev, k), lab, v)) == prev + [(k, [(lab, v)])]
  {
    KeyUnlisted(prev, k);
    LookupMissing(prev, k);
    StoreNew(prev, k, [(lab, v)]);
  }

  /** Storing the first p items of a year into an empty dictionary creates one single-label column per key. */
  lemma {:induction false} PlaceFresh(ks: seq<MetricKey>, y: int, items: seq<(MetricKey, Value)>, p: nat)
    requires NoDup(ks) && KeyedBy(items, ks) && p <= |items|
    ensures Place([], y, items[..p]) == Fresh(ks, y, items, p)
  {
    if p == 0 {
      assert items[..0] == [];
    } else {
      PlaceFresh(ks, y, items, p - 1);
      PlaceStep([], y, items, p);
      StoreFreshKey(Fresh(ks, y, items, p - 1), ks[p - 1], Mar(y), items[p - 1].1);
      FreshSnoc(ks, y, items, p);
    }
  }

  /** One step of the inner loop: the p-th item is stored on top of the first p - 1. */
  lemma PlaceStep(r: Reshaped, y: int, items: seq<(MetricKey, Value)>, p: nat)
    requires 0 < p <= |items|
    ensures var prev := Place(r, y, items[..p - 1]);
            Place(r, y, items[..p]) == Store(prev, items[p - 1].0, Store(ColumnOf(prev, items[p - 1].0), Mar(y), items[p - 1].1))
  {
    assert items[..p][..p - 1] == items[..p - 1];
  }

  /** The columns after appending to the first p of them the label of year y with that year's item. */
  function Grown(cols: seq<Column>, y: int, items: seq<(MetricKey, Value)>, p: nat): (g: seq<Column>)
    requires |items| == |cols|
    ensures |g| == |cols|
    ensures forall i :: 0 <= i < |cols| ==> g[i] == if i < p then cols[i] + [(Mar(y), items[i].1)] else cols[i]
  {
    seq(|cols|, i requires 0 <= i < |cols| => if i < p then cols[i] + [(Mar(y), items[i].1)] else cols[i])
  }

  lemma GrownStep(cols: seq<Column>, y: int, items: seq<(MetricKey, Value)>, p: nat)
    requires |items| == |cols| && 0 < p <= |cols|
    ensures Grown(cols, y, items, p) == Grown(cols, y, items, p - 1)[p - 1 := cols[p - 1] + [(Mar(y), items[p - 1].1)]]
  {
  }

  lemma TableUpdate(ks: seq<MetricKey>, cols: seq<Column>, i: nat, c: Column)
    requires |cols| == |ks| && i < |ks|
    ensures Table(ks, cols[i := c]) == Table(ks, cols)[i := (ks[i], c)]
  {
  }

  /** Storing a new label into the column of key ks[i] appends the pair to that column only. */
  lemma StoreIntoTable(ks: seq<MetricKey>, g: seq<Column>, i: nat, lab: Label, v: Value)
    requires NoDup(ks) && |g| == |ks| && i < |ks| && lab !in KeySet(g[i])
    ensures var t := Table(ks, g);
            Store(t, ks[i], Store(ColumnOf(t, ks[i]), lab, v)) == Table(ks, g[i := g[i] + [(lab, v)]])
  {
    var t := Table(ks, g);
    var c := g[i] + [(lab, v)];
    TableDistinct(ks, g);
    LookupAt(t, i);
    StoreNew(g[i], lab, v);
    StoreAt(t, i, ks[i], c);
    TableUpdate(ks, g, i, c);
  }

  /**
   * Storing the first p items of a year whose label no column holds yet
   * appends that label, with the item's value, to the first p columns.
   */
  lemma {:induction false} PlaceGrows(ks: seq<MetricKey>, cols: seq<Column>, y: int,
                                      items: seq<(MetricKey, Value)>, p: nat)
    requires NoDup(ks) && KeyedBy(items, ks) && |cols| == |ks| && p <= |items|
    requires forall i :: 0 <= i < |cols| ==> Mar(y) !in KeySet(cols[i])
    ensures Place(Table(ks, cols), y, items[..p]) == Table(ks, Grown(cols, y, items, p))
  {
    if p == 0 {
      assert items[..0] == [];
      assert Grown(cols, y, items, 0) == cols;
    } else {
      PlaceGrows(ks, cols, y, items, p - 1);
      PlaceStep(Table(ks, cols), y, items, p);
      StoreIntoTable(ks, Grown(cols, y, items, p - 1), p - 1, Mar(y), items[p - 1].1);
      GrownStep(cols, y, items, p);
    }
  }

  /** Metric i's column over the years ys: each year's label with that year's value, in the order of ys. */
  function ColumnOver(per: Yearly, ys: seq<int>, i: nat): (c: Column)
    requires i < |MetricKeys|
    requires forall t :: 0 <= t < |ys| ==> ys[t] in KeySet(per)
    ensures |c| == |ys|
  {
    seq(|ys|, t requires 0 <= t < |ys| => (Mar(ys[t]), ItemValue(Row(per, ys[t]), MetricKeys[i])))
  }

  function Columns(per: Yearly, ys: seq<int>): (cs: seq<Column>)
    requires forall t :: 0 <= t < |ys| ==> ys[t] in KeySet(per)
    ensures |cs| == |MetricKeys|
  {
    seq(|MetricKeys|, i requires 0 <= i < |MetricKeys| => ColumnOver(per, ys, i))
  }

  /** One step of the outer loop: the last year of ys is stored on top of the others. */
  lemma ReshapeStep(per: Yearly, ys: seq<int>)
    requires forall t :: 0 <= t < |ys| ==> ys[t] in KeySet(per)
    requires ys != []
    ensures ReshapeOver(per, ys) == Place(ReshapeOver(per, ys[..|ys| - 1]), ys[|ys| - 1], Items(Row(per, ys[|ys| - 1])))
  {
  }

  /** A column over ys is the column over all but the last year, followed by the last one. */
  lemma ColumnSnoc(per: Yearly, ys: seq<int>, i: nat)
    requires i < |MetricKeys| && ys != []
    requires forall t :: 0 <= t < |ys| ==> ys[t] in KeySet(per)
    ensures var y := ys[|ys| - 1];
            ColumnOver(per, ys, i) == ColumnOver(per, ys[..|ys| - 1], i) + [(Mar(y), ItemValue(Row(per, y), MetricKeys[i]))]
  {
  }

  /** Over one year, each column holds that year only. */
  lemma SingleYear(per: Yearly, y: int)
    requires y in KeySet(per)
    ensures var items := Items(Row(per, y));
            Table(MetricKeys, Columns(per, [y])) == Fresh(MetricKeys, y, items, |items|)
  {
    var items := Items(Row(per, y));
    forall i | 0 <= i < |items| ensures Columns(per, [y])[i] == [(Mar(y), items[i].1)] {
      var c := ColumnOver(per, [y], i);
      assert c[0] == (Mar(y), items[i].1);
    }
  }

  /** The first year creates the columns, each holding that year's value. */
  lemma ReshapeFirst(per: Yearly, y: int)
    requires y in KeySet(per)
    ensures ReshapeOver(per, [y]) == Table(MetricKeys, Columns(per, [y]))
  {
    MetricKeysNoDup();
    var items := Items(Row(per, y));
    assert items[..|items|] == items;
    ReshapeStep(per, [y]);
    assert [y][..0] == [];
    PlaceFresh(MetricKeys, y, items, |items|);
    SingleYear(per, y);
  }

  /** A later year, new to the columns, is appended to each of them. */
  lemma ReshapeExtend(per: Yearly, ys: seq<int>)
    requires forall t :: 0 <= t < |ys| ==> ys[t] in KeySet(per)
    requires NoDup(ys) && |ys| >= 2
    requires ReshapeOver(per, ys[..|ys| - 1]) == Table(MetricKeys, Columns(per, ys[..|ys| - 1]))
    ensures ReshapeOver(per, ys) == Table(MetricKeys, Columns(per, ys))
  {
    MetricKeysNoDup();
    var n := |ys| - 1;
    var y := ys[n];
    var items := Items(Row(per, y));
    var cols := Columns(per, ys[..n]);
    ReshapeStep(per, ys);
    FreshLabel(per, ys);
    PlaceGrows(MetricKeys, cols, y, items, |items|);
    assert items[..|items|] == items;
    GrownColumns(per, ys);
  }

  /** No column over the earlier years holds the label of a later, different year. */
  lemma FreshLabel(per: Yearly, ys: seq<int>)
    requires forall t :: 0 <= t < |ys| ==> ys[t] in KeySet(per)
    requires NoDup(ys) && ys != []
    ensures var cols := Columns(per, ys[..|ys| - 1]);
            forall i :: 0 <= i < |cols| ==> Mar(ys[|ys| - 1]) !in KeySet(cols[i])
  {
    var cols := Columns(per, ys[..|ys| - 1]);
    forall i | 0 <= i < |cols| ensures Mar(ys[|ys| - 1]) !in KeySet(cols[i]) {
      KeyUnlisted(cols[i], Mar(ys[|ys| - 1]));
    }
  }

  /** Appending the last year's values to the columns over the other years gives the columns over ys. */
  lemma GrownColumns(per: Yearly, ys: seq<int>)
    requires forall t :: 0 <= t < |ys| ==> ys[t] in KeySet(per)
    requires ys != []
    ensures var y := ys[|ys| - 1];
            var items := Items(Row(per, y));
            Grown(Columns(per, ys[..|ys| - 1]), y, items, |items|) == Columns(per, ys)
  {
    var y := ys[|ys| - 1];
    var items := Items(Row(per, y));
    var cols := Columns(per, ys[..|ys| - 1]);
    forall i | 0 <= i < |MetricKeys| ensures Grown(cols, y, items, |items|)[i] == Columns(per, ys)[i] {
      ColumnSnoc(per, ys, i);
    }
  }

  /**
   * Over distinct years ys, the loops build one column per metric key, in
   * the key order of a year's dictionary, and each column lists every year
   * of ys once, in the order of ys, with that year's value.
   */
  lemma {:induction false} ReshapeTable(per: Yearly, ys: seq<int>)
    requires forall t :: 0 <= t < |ys| ==> ys[t] in KeySet(per)
    requires NoDup(ys) && ys != []
    ensures ReshapeOver(per, ys) == Table(MetricKeys, Columns(per, ys))
  {
    if |ys| == 1 {
      assert ys == [ys[0]];
      ReshapeFirst(per, ys[0]);
    } else {
      var prev := ys[..|ys| - 1];
      assert NoDup(prev);
      ReshapeTable(per, prev);
      ReshapeExtend(per, ys);
    }
  }

  /** Distinct keys give distinct years, latest first. */
  lemma DescYearsNoDup(per: Yearly)
    requires DistinctKeys(per)
    ensures NoDup(DescYears(per))
  {
    KeyListNoDup(per);
    ReverseMultiset(YearsOf(per));
    NoDupPerm(KeyList(per), DescYears(per));
  }

  /**
   * reshape_metrics: {} for no years; otherwise one entry per metric key,
   * in the key order of a year's dictionary, whose value lists every year
   * once, latest first, under its label, with that year's value of the
   * metric unchanged.
   */
  lemma ReshapeShape(per: Yearly)
    requires DistinctKeys(per)
    ensures per == [] ==> ReshapeOf(per) == []
    ensures per != [] ==> ReshapeOf(per) == Table(MetricKeys, Columns(per, DescYears(per)))
  {
    if per != [] {
      DescYearsNoDup(per);
      ReshapeTable(per, DescYears(per));
    }
  }

  /** For every year and metric of the input, the reshaped dictionary holds that year's value, looked up by key and label. */
  lemma ReshapeKeeps(per: Yearly, y: int, k: MetricKey)
    requires DistinctKeys(per) && y in KeySet(per)
    ensures Lookup(ReshapeOf(per), k).Some?
    ensures Lookup(ColumnOf(ReshapeOf(per), k), Mar(y)) == Some(ItemValue(Row(per, y), k))
  {
    var ys := DescYears(per);
    DescYearsNoDup(per);
    ReshapeTable(per, ys);
    TableLookup(Columns(per, ys), k);
    var t := DescYearsCover(per, y);
    ColumnLookup(per, ys, Position(k), t);
  }

  /** Every key of the per-year dictionary is among the years reshape_metrics visits. */
  lemma DescYearsCover(per: Yearly, y: int) returns (t: nat)
    requires y in KeySet(per)
    ensures t < |DescYears(per)| && DescYears(per)[t] == y
  {
    var ys := DescYears(per);
    KeyListKeys(per);
    assert y in multiset(KeyList(per)) by {
      var j := KeyIndex(per, y);
      assert KeyList(per)[j] == y;
    }
    assert y in multiset(ys) by { ReverseMultiset(YearsOf(per)); }
    t :| 0 <= t < |ys| && ys[t] == y;
  }

  /** The reshaped table finds metric k's column under k. */
  lemma TableLookup(cols: seq<Column>, k: MetricKey)
    requires |cols| == |MetricKeys|
    ensures Lookup(Table(MetricKeys, cols), k) == Some(cols[Position(k)])
  {
    MetricKeysNoDup();
    TableDistinct(MetricKeys, cols);
    LookupAt(Table(MetricKeys, cols), Position(k));
  }

  /** Over distinct years, a column finds each year's value under the year's label. */
  lemma ColumnLookup(per: Yearly, ys: seq<int>, i: nat, t: nat)
    requires i < |MetricKeys| && t < |ys| && NoDup(ys)
    requires forall s :: 0 <= s < |ys| ==> ys[s] in KeySet(per)
    ensures Lookup(ColumnOver(per, ys, i), Mar(ys[t])) == Some(ItemValue(Row(per, ys[t]), MetricKeys[i]))
  {
    var c := ColumnOver(per, ys, i);
    assert DistinctKeys(c) by {
      forall a, b | 0 <= a < b < |c| ensures c[a].0 != c[b].0 {
        assert ys[a] != ys[b];
      }
    }
    LookupAt(c, t);
  }
}
