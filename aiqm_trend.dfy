/**
 * aiqm_trend of the asset & intangible quality module: over the years in
 * year order, the newest-first value and growth maps of asset turnover,
 * asset age, intangibles, CWIP, capitalization (gross block growth less
 * CWIP growth) and revenue, the CWIP-to-capitalization ratio, a one-line
 * insight per series and three CAGRs.
 */
module AiqmTrend {
  import opened Common
  import opened Sorting
  import opened AiqmModels
  import opened AiqmMetrics
  import WcTrend

  // ------------------------------------------------------------ maps

  /** The growth of the i-th pair from the newest, on values that may be missing, rounded to two places. */
  function PairYoy(values: seq<Option<real>>, i: nat): Option<real>
    requires i + 1 < |values|
  {
    WcTrend.Round2(WcTrend.Yoy(values[|values| - 1 - i], values[|values| - 2 - i]))
  }

  /** build_yoy_map's result: one rounded growth per consecutive pair, labelled newest pair first. */
  function YoyMapOf(values: seq<Option<real>>): (m: seq<(VsKey, Option<real>)>)
    ensures |m| == if values == [] then 0 else |values| - 1
  {
    if values == [] then []
    else seq(|values| - 1, i requires 0 <= i < |values| - 1 => (WcTrend.VsAt(i), PairYoy(values, i)))
  }

  /** build_yoy_map. */
  method BuildYoyMap(values: seq<Option<real>>) returns (yoyMap: seq<(VsKey, Option<real>)>)
    ensures yoyMap == YoyMapOf(values)
  {
    yoyMap := [];
    var n := |values|;
    var i := 0;
    while i < n - 1
      invariant 0 <= i && (n == 0 ==> i == 0) && (n > 0 ==> i <= n - 1)
      invariant |yoyMap| == i
      invariant forall j :: 0 <= j < i ==> yoyMap[j] == (WcTrend.VsAt(j), PairYoy(values, j))
    {
      var curr := values[n - 1 - i];
      var prev := values[n - 2 - i];
      var key := if i == 0 then Vs(Y, YMinus(1)) else Vs(YMinus(i), YMinus(i + 1));
      var yoy := WcTrend.Yoy(curr, prev);
      assert key == WcTrend.VsAt(i);
      yoyMap := yoyMap + [(key, if yoy.Some? then Some(Round(yoy.value, 2)) else None)];
      i := i + 1;
    }
  }

  function Lift(v: seq<real>): (r: seq<Option<real>>)
    ensures |r| == |v| && forall i :: 0 <= i < |v| ==> r[i] == Some(v[i])
  {
    seq(|v|, i requires 0 <= i < |v| => Some(v[i]))
  }

  /**
   * On a series with no missing value this module's build_yoy_map gives
   * exactly the working-capital engine's map.
   */
  lemma YoyMapMatchesWorkingCapital(v: seq<real>)
    ensures YoyMapOf(Lift(v)) == WcTrend.YoyMapOf(v)
  {
    var a := YoyMapOf(Lift(v));
    var b := WcTrend.YoyMapOf(v);
    if v != [] {
      forall i | 0 <= i < |a| ensures a[i] == b[i] {
        assert a[i] == (WcTrend.VsAt(i), PairYoy(Lift(v), i));
        assert b[i] == (WcTrend.VsAt(i), WcTrend.PairYoy(v, i));
      }
    }
  }

  /** The `[compute_yoy(v[i], v[i - 1]) for i in range(1, len(v))]` lists, oldest pair first. */
  function ChronoYoy(v: seq<Option<real>>): (r: seq<Option<real>>)
    ensures |r| == if v == [] then 0 else |v| - 1
  {
    if v == [] then [] else seq(|v| - 1, i requires 0 <= i < |v| - 1 => WcTrend.Yoy(v[i + 1], v[i]))
  }

  /** The growth map is the chronological growth list rounded and read newest first. */
  lemma YoyMapIsRoundedList(v: seq<Option<real>>, i: nat)
    requires i + 1 < |v|
    ensures var r := ChronoYoy(v);
            YoyMapOf(v)[i] == (WcTrend.VsAt(i), WcTrend.Round2(r[|r| - 1 - i]))
  {
  }

  /** The newest entries of a series' maps: "Y" the last value, "Y_vs_Y-1" the last two values' growth. */
  lemma LatestEntries(v: seq<Option<real>>)
    requires v != []
    ensures Lookup(WcTrend.YearMapOf(v), Y) == Some(v[|v| - 1])
    ensures |v| >= 2 ==> Lookup(YoyMapOf(v), Vs(Y, YMinus(1))) ==
                           Some(WcTrend.Round2(WcTrend.Yoy(v[|v| - 1], v[|v| - 2])))
    ensures |v| < 2 ==> Lookup(YoyMapOf(v), Vs(Y, YMinus(1))).None?
  {
    WcTrend.YearMapLookup(v, 0);
    var m := YoyMapOf(v);
    if |v| >= 2 {
      assert m[0].0 == Vs(Y, YMinus(1));
    } else {
      assert m == [];
    }
  }

  // ------------------------------------------------------------ insight

  /** generate_insight: the average of the present growths rounded to two places, or a no-data sentence. */
  function Insight(yoyList: seq<Option<real>>, metric: string): (t: Text)
    ensures Present(yoyList) == [] <==> t == Lit("No sufficient data to analyse " + metric + " trend.")
    ensures Present(yoyList) != [] ==>
              t.template == metric + " exhibits mixed trend with average YoY growth of {}%."
              && |t.args| == 1
              && Abs(t.args[0] - Sum(Present(yoyList)) / |Present(yoyList)| as real) <= 0.005
  {
    var numeric := Present(yoyList);
    if numeric == [] then Lit("No sufficient data to analyse " + metric + " trend.")
    else
      var avg := Round(Sum(numeric) / |numeric| as real, 2);
      assert Pow10(2) == 100.0 by {
        assert Pow10(1) == 10.0;
      }
      Text(metric + " exhibits mixed trend with average YoY growth of {}%.", [avg])
  }

  /**
   * A series' insight reads "No sufficient data" exactly when no two
   * consecutive years give a growth: a value or its predecessor is missing
   * or the predecessor is 0.
   */
  lemma NoDataWhenNoPair(v: seq<Option<real>>, metric: string)
    ensures Insight(ChronoYoy(v), metric) == Lit("No sufficient data to analyse " + metric + " trend.") <==>
              forall i :: 0 <= i < |v| - 1 ==> (Falsy(v[i]) || v[i + 1].None?)
  {
    var r := ChronoYoy(v);
    PresentEmpty(r);
    if v != [] {
      assert forall i :: 0 <= i < |v| - 1 ==> r[i] == WcTrend.Yoy(v[i + 1], v[i]);
    }
  }

  // ------------------------------------------------------------ series

  function GrossBlocks(s: seq<YearInput>): (v: seq<real>)
    ensures |v| == |s| && forall i :: 0 <= i < |s| ==> v[i] == s[i].gross_block
  {
    seq(|s|, i requires 0 <= i < |s| => s[i].gross_block)
  }

  function Cwips(s: seq<YearInput>): (v: seq<Option<real>>)
    ensures |v| == |s| && forall i :: 0 <= i < |s| ==> v[i] == s[i].cwip
  {
    seq(|s|, i requires 0 <= i < |s| => s[i].cwip)
  }

  function Revenues(s: seq<YearInput>): (v: seq<real>)
    ensures |v| == |s| && forall i :: 0 <= i < |s| ==> v[i] == s[i].revenue
  {
    seq(|s|, i requires 0 <= i < |s| => s[i].revenue)
  }

  function IntangibleValues(s: seq<YearInput>): (v: seq<real>)
    ensures |v| == |s| && forall i :: 0 <= i < |s| ==> v[i] == s[i].intangible_assets
  {
    seq(|s|, i requires 0 <= i < |s| => s[i].intangible_assets)
  }

  /** Revenue over net block, None when the net block is 0. */
  function AssetTurnovers(s: seq<YearInput>): (v: seq<Option<real>>)
    ensures |v| == |s|
    ensures forall i :: 0 <= i < |s| ==> (v[i].Some? <==> s[i].net_block != 0.0)
    ensures forall i :: 0 <= i < |s| && v[i].Some? ==> v[i].value * s[i].net_block == s[i].revenue
  {
    seq(|s|, i requires 0 <= i < |s| => SafeDiv(Some(s[i].revenue), Some(s[i].net_block)))
  }

  /** Accumulated depreciation over gross block, None when the gross block is 0. */
  function AgeProxies(s: seq<YearInput>): (v: seq<Option<real>>)
    ensures |v| == |s|
    ensures forall i :: 0 <= i < |s| ==> (v[i].Some? <==> s[i].gross_block != 0.0)
    ensures forall i :: 0 <= i < |s| && v[i].Some? ==> v[i].value * s[i].gross_block == s[i].accumulated_depreciation
  {
    seq(|s|, i requires 0 <= i < |s| => SafeDiv(Some(s[i].accumulated_depreciation), Some(s[i].gross_block)))
  }

  /**
   * When the capitalization loop does not raise a TypeError: from two
   * years on every year's CWIP takes part in a subtraction.
   */
  predicate CwipComplete(cw: seq<Option<real>>)
  {
    |cw| >= 2 ==> forall i :: 0 <= i < |cw| ==> cw[i].Some?
  }

  /** Capitalization in year i: the gross block added less the CWIP added. */
  function CapitalizationAt(gb: seq<real>, cw: seq<Option<real>>, i: nat): real
    requires |gb| == |cw| && CwipComplete(cw) && 0 < i < |cw|
  {
    (gb[i] - gb[i - 1]) - (cw[i].value - cw[i - 1].value)
  }

  /** The capitalization list: None for the first year (and the only entry when there are no years). */
  function CapitalizationOf(gb: seq<real>, cw: seq<Option<real>>): (caps: seq<Option<real>>)
    requires |gb| == |cw| && CwipComplete(cw)
    ensures |caps| == if cw == [] then 1 else |cw|
    ensures caps[0] == None
  {
    [None] + seq(if cw == [] then 0 else |cw| - 1,
                 k requires 0 <= k < (if cw == [] then 0 else |cw| - 1) => Some(CapitalizationAt(gb, cw, k + 1)))
  }

  /** The capitalization loop. */
  method Capitalization(gb: seq<real>, cw: seq<Option<real>>) returns (caps: seq<Option<real>>)
    requires |gb| == |cw| && CwipComplete(cw)
    ensures caps == CapitalizationOf(gb, cw)
  {
    caps := [None];
    var i := 1;
    while i < |cw|
      invariant 1 <= i <= (if cw == [] then 1 else |cw|)
      invariant |caps| == i && caps[0] == None
      invariant forall k :: 1 <= k < i ==> caps[k] == Some(CapitalizationAt(gb, cw, k))
    {
      var gbChange := gb[i] - gb[i - 1];
      var cwipChange := cw[i].value - cw[i - 1].value;
      caps := caps + [Some(gbChange - cwipChange)];
      i := i + 1;
    }
  }

  /** The capitalizations of years 1..j add up to the gross block added less the CWIP added since year 0. */
  lemma {:induction false} CapitalizationTelescopes(gb: seq<real>, cw: seq<Option<real>>, j: nat)
    requires |gb| == |cw| && |cw| >= 2 && CwipComplete(cw) && j < |cw|
    ensures Sum(Present(CapitalizationOf(gb, cw)[1..j + 1])) == (gb[j] - gb[0]) - (cw[j].value - cw[0].value)
  {
    var caps := CapitalizationOf(gb, cw);
    if j == 0 {
      assert caps[1..1] == [];
    } else {
      CapitalizationTelescopes(gb, cw, j - 1);
      var head := caps[1..j];
      assert caps[1..j + 1] == head + [caps[j]];
      assert caps[j] == Some(CapitalizationAt(gb, cw, j));
      PresentSnocSome(head, CapitalizationAt(gb, cw, j));
      SumSnoc(Present(head), CapitalizationAt(gb, cw, j));
    }
  }

  lemma {:induction false} PresentSnocSome(s: seq<Option<real>>, x: real)
    ensures Present(s + [Some(x)]) == Present(s) + [x]
  {
    if s == [] {
      assert s + [Some(x)] == [Some(x)];
    } else {
      assert (s + [Some(x)])[1..] == s[1..] + [Some(x)];
      PresentSnocSome(s[1..], x);
    }
  }

  lemma {:induction false} SumSnoc(s: seq<real>, x: real)
    ensures Sum(s + [x]) == Sum(s) + x
  {
    if s == [] {
      assert s + [x] == [x];
    } else {
      assert (s + [x])[1..] == s[1..] + [x];
      SumSnoc(s[1..], x);
    }
  }

  /** cwip_vs_cap: CWIP over capitalization, None where capitalization is missing or 0. */
  function CwipVsCap(cw: seq<Option<real>>, caps: seq<Option<real>>): (r: seq<Option<real>>)
    requires |caps| >= |cw| && CwipComplete(cw)
    requires forall i :: 0 <= i < |cw| && caps[i].Some? ==> cw[i].Some?
    ensures |r| == |cw|
    ensures forall i :: 0 <= i < |cw| ==> (r[i].Some? <==> !Falsy(caps[i]))
    ensures forall i :: 0 <= i < |cw| && r[i].Some? ==>
              caps[i].Some? && cw[i].Some? && r[i].value * caps[i].value == cw[i].value
  {
    seq(|cw|, i requires 0 <= i < |cw| => SafeDiv(cw[i], caps[i]))
  }

  // ------------------------------------------------------------ trends

  /** One metric's entry: "values", "yoy_growth_pct" and "insight". */
  datatype MetricTrend = MetricTrend(values: seq<(Slot, Option<real>)>, yoy_growth_pct: seq<(VsKey, Option<real>)>,
                                     insight: Text)

  datatype CagrBlock = CagrBlock(intangible_cagr: Option<real>, revenue_cagr: Option<real>,
                                 operating_asset_cagr: Option<real>, intangible_cagr_vs_revenue_cagr: Option<real>)

  /**
   * The dictionary compute_aiqm_trends returns. "cwip_vs_capitalization"
   * has values only; its insight is the fixed sentence CwipRatioInsight.
   */
  datatype Trends = Trends(
    asset_turnover: MetricTrend, asset_age_proxy: MetricTrend, intangible_assets: MetricTrend,
    cwip: MetricTrend, capitalization: MetricTrend, cwip_vs_capitalization: seq<(Slot, Option<real>)>,
    revenue: MetricTrend, cagr: CagrBlock)

  const CwipRatioInsight := "CWIP vs Capitalization ratio evaluated."

  /** A metric's entry: its values and growths newest first, and the insight over its growth list. */
  function SeriesTrend(v: seq<Option<real>>, metric: string): MetricTrend
  {
    MetricTrend(WcTrend.YearMapOf(v), YoyMapOf(v), Insight(ChronoYoy(v), metric))
  }

  /** The three CAGRs over the first and last years and the intangible-minus-revenue gap. */
  function CagrsOf(s: seq<YearInput>, pow: (real, real) -> real): (c: CagrBlock)
    requires s != []
    ensures c.intangible_cagr_vs_revenue_cagr.Some? <==> c.intangible_cagr.Some? && c.revenue_cagr.Some?
    ensures c.intangible_cagr_vs_revenue_cagr.Some? ==>
              c.intangible_cagr_vs_revenue_cagr.value == c.intangible_cagr.value - c.revenue_cagr.value
  {
    var n := |s|;
    var ic := Cagr(Some(s[0].intangible_assets), Some(s[n - 1].intangible_assets), n - 1, pow);
    var rc := Cagr(Some(s[0].revenue), Some(s[n - 1].revenue), n - 1, pow);
    var oc := Cagr(Some(s[0].gross_block), Some(s[n - 1].gross_block), n - 1, pow);
    CagrBlock(ic, rc, oc, if ic.Some? && rc.Some? then Some(ic.value - rc.value) else None)
  }

  /** The trends of records already in year order. */
  function SortedTrends(s: seq<YearInput>, pow: (real, real) -> real): Trends
    requires s != [] && CwipComplete(Cwips(s))
  {
    var cw := Cwips(s);
    var caps := CapitalizationOf(GrossBlocks(s), cw);
    Trends(
      SeriesTrend(AssetTurnovers(s), "Asset Turnover"),
      SeriesTrend(AgeProxies(s), "Asset Age Proxy"),
      SeriesTrend(Lift(IntangibleValues(s)), "Intangibles"),
      SeriesTrend(cw, "CWIP"),
      SeriesTrend(caps, "Capitalization"),
      WcTrend.YearMapOf(CwipVsCap(cw, caps)),
      SeriesTrend(Lift(Revenues(s)), "Revenue"),
      CagrsOf(s, pow))
  }

  /**
   * compute_aiqm_trends: None for the IndexError of an empty list and for
   * the TypeError of a missing CWIP once there are two years.
   */
  function TrendsOf(financials: seq<YearInput>, pow: (real, real) -> real): (t: Option<Trends>)
    ensures t.Some? <==> financials != [] && CwipComplete(Cwips(SortBy(financials, YearKey)))
  {
    var s := SortBy(financials, YearKey);
    if s == [] || !CwipComplete(Cwips(s)) then None else Some(SortedTrends(s, pow))
  }

  /** compute_aiqm_trends, with its capitalization loop and map builders. */
  method ComputeTrends(financials: seq<YearInput>, pow: (real, real) -> real) returns (t: Option<Trends>)
    ensures t == TrendsOf(financials, pow)
  {
    var s := SortBy(financials, YearKey);
    var cw := Cwips(s);
    if s == [] || !CwipComplete(cw) {
      return None;
    }
    var caps := Capitalization(GrossBlocks(s), cw);
    var capYoy := BuildYoyMap(caps);
    var cwipYoy := BuildYoyMap(cw);
    var capTrend := MetricTrend(WcTrend.YearMapOf(caps), capYoy, Insight(ChronoYoy(caps), "Capitalization"));
    var cwipTrend := MetricTrend(WcTrend.YearMapOf(cw), cwipYoy, Insight(ChronoYoy(cw), "CWIP"));
    t := Some(Trends(
      SeriesTrend(AssetTurnovers(s), "Asset Turnover"),
      SeriesTrend(AgeProxies(s), "Asset Age Proxy"),
      SeriesTrend(Lift(IntangibleValues(s)), "Intangibles"),
      cwipTrend, capTrend,
      WcTrend.YearMapOf(CwipVsCap(cw, caps)),
      SeriesTrend(Lift(Revenues(s)), "Revenue"),
      CagrsOf(s, pow)));
  }

  /** A missing CWIP fails the trends exactly when there are two years or more; so does an empty list. */
  lemma TrendsDefined(financials: seq<YearInput>, pow: (real, real) -> real)
    ensures TrendsOf(financials, pow).Some? <==>
              financials != [] && (|financials| >= 2 ==> forall f :: f in financials ==> f.cwip.Some?)
  {
    var s := SortBy(financials, YearKey);
    var cw := Cwips(s);
    if |financials| >= 2 {
      if CwipComplete(cw) {
        forall f | f in financials ensures f.cwip.Some? {
          assert f in multiset(s) by { assert f in multiset(financials); }
          var k :| 0 <= k < |s| && s[k] == f;
          assert cw[k] == f.cwip;
        }
      }
      if forall f :: f in financials ==> f.cwip.Some? {
        forall i | 0 <= i < |cw| ensures cw[i].Some? {
          SortedElements(financials, YearKey, i);
        }
      }
    }
  }

  /**
   * The CAGRs run from the first to the last year over one period fewer
   * than the years; with a single year every CAGR is None.
   */
  lemma CagrEndpoints(s: seq<YearInput>, pow: (real, real) -> real)
    requires s != []
    ensures var c := CagrsOf(s, pow);
            && c.intangible_cagr == Cagr(Some(s[0].intangible_assets), Some(s[|s| - 1].intangible_assets), |s| - 1, pow)
            && c.operating_asset_cagr == Cagr(Some(s[0].gross_block), Some(s[|s| - 1].gross_block), |s| - 1, pow)
            && (|s| == 1 ==> c.intangible_cagr.None? && c.revenue_cagr.None? && c.operating_asset_cagr.None?)
  {
  }

  /**
   * What the rule engine reads of capitalization: its newest value is the
   * last year's capitalization (None with one year), and the oldest year
   * never has a CWIP-to-capitalization ratio.
   */
  lemma CapitalizationLatest(gb: seq<real>, cw: seq<Option<real>>)
    requires |gb| == |cw| && cw != [] && CwipComplete(cw)
    ensures var caps := CapitalizationOf(gb, cw);
            && Lookup(WcTrend.YearMapOf(caps), Y) ==
                 (if |cw| == 1 then Some(None) else Some(Some(CapitalizationAt(gb, cw, |cw| - 1))))
            && Lookup(WcTrend.YearMapOf(CwipVsCap(cw, caps)), SlotAt(|cw| - 1)) == Some(None)
  {
    var caps := CapitalizationOf(gb, cw);
    WcTrend.YearMapLookup(caps, 0);
    WcTrend.YearMapLookup(CwipVsCap(cw, caps), |cw| - 1);
  }
}
