/**
 * The working-capital trend engine: growth rates, the newest-first value
 * and growth maps of each series, a one-line insight, and the four-series
 * trend summary.
 */
module WcTrend {
  import opened Common
  import opened Sorting
  import opened WcModels
  import opened WcMetrics

  /** compute_yoy: the change as a fraction of the previous value (not a percentage). */
  function Yoy(current: Option<real>, previous: Option<real>): (r: Option<real>)
    ensures r.None? <==> Falsy(previous) || current.None?
    ensures r.Some? ==> r.value * previous.value == current.value - previous.value
  {
    if Falsy(previous) || current.None? then None
    else Some((current.value - previous.value) / previous.value)
  }

  /** Over one year, compute_cagr is compute_yoy scaled to a percentage. */
  lemma CagrOneYear(start: real, end: real, pow: (real, real) -> real)
    requires start > 0.0 && end != 0.0
    requires pow(end / start, 1.0) == end / start
    ensures Cagr(Some(start), Some(end), 1, pow) == Some(100.0 * Yoy(Some(end), Some(start)).value)
  {
    var q := end / start;
    var p := (end - start) / start;
    assert start / start == 1.0;
    assert p == q - start / start;
    assert 1.0 / 1 as real == 1.0;
    assert Yoy(Some(end), Some(start)) == Some(p);
  }

  // -------------------------------------------------------------- maps

  /** build_year_map's result: "Y" for the newest value, then "Y-k" going back. */
  function YearMapOf<T>(values: seq<T>): seq<(Slot, T)>
  {
    seq(|values|, k requires 0 <= k < |values| => (SlotAt(k), values[|values| - 1 - k]))
  }

  /** build_year_map: walks the values newest first, labelling them. */
  method BuildYearMap<T>(values: seq<T>) returns (mapping: seq<(Slot, T)>)
    ensures mapping == YearMapOf(values)
  {
    mapping := [];
    var rev := Reverse(values);
    var idx := 0;
    while idx < |rev|
      invariant 0 <= idx <= |rev|
      invariant mapping == YearMapOf(values)[..idx]
    {
      var val := rev[idx];
      if idx == 0 {
        mapping := mapping + [(Y, val)];
      } else {
        mapping := mapping + [(YMinus(idx), val)];
      }
      idx := idx + 1;
    }
  }

  /** Each of the n labels finds its value; labels beyond the oldest year find nothing. */
  lemma YearMapLookup<T>(values: seq<T>, k: nat)
    ensures DistinctKeys(YearMapOf(values))
    ensures |YearMapOf(values)| == |values|
    ensures k < |values| ==> Lookup(YearMapOf(values), SlotAt(k)) == Some(values[|values| - 1 - k])
    ensures k >= |values| ==> Lookup(YearMapOf(values), SlotAt(k)).None?
  {
    var m := YearMapOf(values);
    assert DistinctKeys(m) by {
      forall a, b | 0 <= a < b < |m| ensures m[a].0 != m[b].0 {
        assert m[a].0 == SlotAt(a) && m[b].0 == SlotAt(b);
      }
    }
    if k < |values| {
      LookupAt(m, k);
    } else {
      LookupAbsent(m, SlotAt(k));
    }
  }

  /** The label of the i-th pair counted from the newest: "Y_vs_Y-1", "Y-1_vs_Y-2", … */
  function VsAt(i: nat): VsKey { Vs(SlotAt(i), SlotAt(i + 1)) }

  /** `round(x, 2) if x is not None else None`. */
  function Round2(x: Option<real>): (r: Option<real>)
    ensures r.None? <==> x.None?
    ensures r.Some? ==> Abs(r.value - x.value) <= 0.005
  {
    if x.None? then None else Some(Round(x.value, 2))
  }

  /** The growth of the i-th pair from the newest, rounded to two places. */
  function PairYoy(values: seq<real>, i: nat): Option<real>
    requires i + 1 < |values|
  {
    Round2(Yoy(Some(values[|values| - 1 - i]), Some(values[|values| - 2 - i])))
  }

  /** build_yoy_map's result: one rounded growth per consecutive pair, newest pair first. */
  function YoyMapOf(values: seq<real>): (m: seq<(VsKey, Option<real>)>)
    ensures |m| == if values == [] then 0 else |values| - 1
  {
    if values == [] then []
    else seq(|values| - 1, i requires 0 <= i < |values| - 1 => (VsAt(i), PairYoy(values, i)))
  }

  /** build_yoy_map. */
  method BuildYoyMap(values: seq<real>) returns (yoyMap: seq<(VsKey, Option<real>)>)
    ensures yoyMap == YoyMapOf(values)
  {
    yoyMap := [];
    var n := |values|;
    var i := 0;
    while i < n - 1
      invariant 0 <= i && (n == 0 ==> i == 0) && (n > 0 ==> i <= n - 1)
      invariant |yoyMap| == i
      invariant forall j :: 0 <= j < i ==> yoyMap[j] == (VsAt(j), PairYoy(values, j))
    {
      var currVal := values[n - 1 - i];
      var prevVal := values[n - 2 - i];
      var key := if i == 0 then Vs(Y, YMinus(1)) else Vs(YMinus(i), YMinus(i + 1));
      var yoyVal := Yoy(Some(currVal), Some(prevVal));
      assert key == VsAt(i);
      yoyMap := yoyMap + [(key, if yoyVal.Some? then Some(Round(yoyVal.value, 2)) else None)];
      i := i + 1;
    }
  }

  /** "Y_vs_Y-1" holds the rounded growth of the two newest values, and is absent below two values. */
  lemma LatestYoy(values: seq<real>)
    ensures |values| >= 2 ==> Lookup(YoyMapOf(values), Vs(Y, YMinus(1))) == Some(PairYoy(values, 0))
    ensures |values| < 2 ==> Lookup(YoyMapOf(values), Vs(Y, YMinus(1))) == None
  {
  }

  // ----------------------------------------------------------- insight

  datatype InsightKind = NoData | Accelerating | Declining | Mixed

  /**
   * generate_insight's decision on the numeric growth values: no data when
   * there are none; with at least three, accelerating when the last exceeds
   * 1.2 times the first, else declining when it is below 0.8 times the
   * first; mixed otherwise.
   */
  function Classify(numeric: seq<real>): (k: InsightKind)
    ensures k == NoData <==> numeric == []
    ensures k == Accelerating <==> |numeric| >= 3 && numeric[|numeric| - 1] > numeric[0] * 1.2
    ensures k == Declining <==>
              |numeric| >= 3 && !(numeric[|numeric| - 1] > numeric[0] * 1.2) && numeric[|numeric| - 1] < numeric[0] * 0.8
  {
    if numeric == [] then NoData
    else if |numeric| >= 3 && numeric[|numeric| - 1] > numeric[0] * 1.2 then Accelerating
    else if |numeric| >= 3 && numeric[|numeric| - 1] < numeric[0] * 0.8 then Declining
    else Mixed
  }

  /** From a positive first rate, "accelerating" means a larger last rate and "declining" a smaller one. */
  lemma ClassifyPositiveBase(numeric: seq<real>)
    requires numeric != [] && numeric[0] > 0.0
    ensures Classify(numeric) == Accelerating ==> numeric[|numeric| - 1] > numeric[0]
    ensures Classify(numeric) == Declining ==> numeric[|numeric| - 1] < numeric[0]
    ensures |numeric| < 3 ==> Classify(numeric) == Mixed
  {
  }

  /** From a negative first rate the words invert: a lower last rate can read as "accelerating". */
  lemma ClassifyNegativeBase()
    ensures Classify([-10.0, 0.0, -11.0]) == Accelerating
  {
  }

  /** round(sum(numeric) / len(numeric), 1). */
  function Average(numeric: seq<real>): real
    requires numeric != []
  {
    Round(Sum(numeric) / |numeric| as real, 1)
  }

  /** generate_insight: the sentence for the decision, with the rounded average growth. */
  function GenerateInsight(yoyList: seq<Option<real>>, metricName: string): (t: Text)
    ensures Present(yoyList) == [] <==> t == Lit("No sufficient data to analyse " + metricName + " trend.")
    ensures Present(yoyList) != [] ==> t.args == [Average(Present(yoyList))]
    ensures Classify(Present(yoyList)) == Accelerating ==>
              t.template == metricName + " shows accelerating growth pattern (avg: {}%)."
    ensures Classify(Present(yoyList)) == Declining ==> t.template == metricName + " shows declining pattern (avg: {}%)."
    ensures Classify(Present(yoyList)) == Mixed ==>
              t.template == metricName + " exhibits mixed trend with average YoY growth of {}%."
  {
    var numeric := Present(yoyList);
    match Classify(numeric)
    case NoData => Lit("No sufficient data to analyse " + metricName + " trend.")
    case Accelerating => Text(metricName + " shows accelerating growth pattern (avg: {}%).", [Average(numeric)])
    case Declining => Text(metricName + " shows declining pattern (avg: {}%).", [Average(numeric)])
    case Mixed => Text(metricName + " exhibits mixed trend with average YoY growth of {}%.", [Average(numeric)])
  }

  // ----------------------------------------------------- trend output

  datatype MetricTrend = MetricTrend(values: seq<(Slot, real)>, yoy_growth_pct: seq<(VsKey, Option<real>)>,
                                     insight: Text)

  /** The name an insight prints for a series. */
  function SeriesName(a: Amount): string
  {
    match a
    case Receivables => "Trade Receivables"
    case Inventory => "Inventory"
    case Payables => "Trade Payables"
    case Revenue => "Revenue"
    case Cogs => "COGS"
  }

  /** One amount of each sorted record, oldest first. */
  function SeriesOf(s: seq<YearInput>, a: Amount): (v: seq<real>)
    ensures |v| == |s|
    ensures forall i :: 0 <= i < |s| ==> v[i] == AmountOf(s[i], a)
  {
    seq(|s|, i requires 0 <= i < |s| => AmountOf(s[i], a))
  }

  /** The chronological growth list handed to the insight: entry i compares values i+1 and i. */
  function ChronoYoy(v: seq<real>): (r: seq<Option<real>>)
    ensures |r| == if v == [] then 0 else |v| - 1
  {
    if v == [] then [] else seq(|v| - 1, i requires 0 <= i < |v| - 1 => Yoy(Some(v[i + 1]), Some(v[i])))
  }

  /** The values map, the growth map and the insight of one series. */
  function TrendOf(v: seq<real>, name: string): MetricTrend
  {
    MetricTrend(YearMapOf(v), YoyMapOf(v), GenerateInsight(ChronoYoy(v), name))
  }

  function SeriesTrend(s: seq<YearInput>, a: Amount): MetricTrend
  {
    TrendOf(SeriesOf(s, a), SeriesName(a))
  }

  /** The summary compute_trend_output returns for records already sorted by year. */
  function TrendOutputOf(s: seq<YearInput>): seq<(Amount, MetricTrend)>
  {
    [(Receivables, SeriesTrend(s, Receivables)), (Inventory, SeriesTrend(s, Inventory)),
     (Payables, SeriesTrend(s, Payables)), (Revenue, SeriesTrend(s, Revenue))]
  }

  /** One series' entry of the summary. */
  method SeriesSummary(s: seq<YearInput>, a: Amount) returns (t: MetricTrend)
    ensures t == SeriesTrend(s, a)
  {
    var values := SeriesOf(s, a);
    var valueMap := BuildYearMap(values);
    var yoyMap := BuildYoyMap(values);
    t := MetricTrend(valueMap, yoyMap, GenerateInsight(ChronoYoy(values), SeriesName(a)));
  }

  /** compute_trend_output: sorts the records by year and summarises the four series, in this order. */
  method ComputeTrendOutput(financials: seq<YearInput>) returns (output: seq<(Amount, MetricTrend)>)
    ensures output == TrendOutputOf(SortBy(financials, YearOf))
  {
    var sorted := SortBy(financials, YearOf);
    var receivables := SeriesSummary(sorted, Receivables);
    var inventory := SeriesSummary(sorted, Inventory);
    var payables := SeriesSummary(sorted, Payables);
    var revenue := SeriesSummary(sorted, Revenue);
    output := [(Receivables, receivables), (Inventory, inventory), (Payables, payables), (Revenue, revenue)];
  }

  /** Lookup in a dictionary keyed by the four series in summary order. */
  lemma LookupFour<V>(a: V, b: V, c: V, d: V, k: Amount)
    ensures var m := [(Receivables, a), (Inventory, b), (Payables, c), (Revenue, d)];
            Lookup(m, k) == match k
                            case Receivables => Some(a) case Inventory => Some(b)
                            case Payables => Some(c) case Revenue => Some(d) case Cogs => None
  {
    var m := [(Receivables, a), (Inventory, b), (Payables, c), (Revenue, d)];
    var m1 := [(Inventory, b), (Payables, c), (Revenue, d)];
    var m2 := [(Payables, c), (Revenue, d)];
    var m3 := [(Revenue, d)];
    assert m[1..] == m1 && m1[1..] == m2 && m2[1..] == m3 && m3[1..] == [];
    if k != Receivables {
      assert Lookup(m, k) == Lookup(m1, k);
      if k != Inventory {
        assert Lookup(m1, k) == Lookup(m2, k);
        if k != Payables {
          assert Lookup(m2, k) == Lookup(m3, k);
          if k != Revenue {
            assert Lookup(m3, k) == Lookup(m3[1..], k);
          }
        }
      }
    }
  }

  /** Each of the four series finds its own trend in the summary; COGS has none. */
  lemma TrendLookup(s: seq<YearInput>, a: Amount)
    ensures a != Cogs ==> Lookup(TrendOutputOf(s), a) == Some(SeriesTrend(s, a))
    ensures a == Cogs ==> Lookup(TrendOutputOf(s), a) == None
  {
    LookupFour(SeriesTrend(s, Receivables), SeriesTrend(s, Inventory), SeriesTrend(s, Payables),
               SeriesTrend(s, Revenue), a);
  }
}
