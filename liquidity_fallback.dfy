/**
 * generate_liquidity_fallback_insight: the sentences written about one
 * balance's year-on-year growth when no language model is available.
 */
module LiquidityFallback {
  import opened Common
  import opened PyStr

  // ------------------------------------------------------------ text helpers

  /**
   * `name.replace('_', ' ').title()` on ASCII text: underscores become
   * spaces, a letter after a non-letter is upper-cased and any other
   * letter lower-cased.
   */
  function Title(name: string): (t: string)
    ensures |t| == |name|
    ensures forall i :: 0 <= i < |t| ==> t[i] != '_'
    ensures forall i :: 0 <= i < |t| ==> (IsLetter(name[i]) <==> IsLetter(t[i]))
  {
    var s := seq(|name|, i requires 0 <= i < |name| => if name[i] == '_' then ' ' else name[i]);
    seq(|s|, i requires 0 <= i < |s| =>
          if !IsLetter(s[i]) then s[i] else if i == 0 || !IsLetter(s[i - 1]) then Upper(s[i]) else Lower(s[i]))
  }

  // ------------------------------------------------------------ statistics

  function SeqMax(s: seq<real>): (m: real)
    requires s != []
    ensures m in s && forall i :: 0 <= i < |s| ==> s[i] <= m
  {
    if |s| == 1 then s[0] else Max(s[0], SeqMax(s[1..]))
  }

  function SeqMin(s: seq<real>): (m: real)
    requires s != []
    ensures m in s && forall i :: 0 <= i < |s| ==> m <= s[i]
  {
    if |s| == 1 then s[0] else Min(s[0], SeqMin(s[1..]))
  }

  /** `yoy.get(key)`: None for a missing key as for a None value. */
  function Get(yoy: seq<(string, Option<real>)>, key: string): Option<real>
  {
    var v := Lookup(yoy, key);
    if v.Some? then v.value else None
  }

  function Mean(s: seq<real>): real
    requires s != []
  {
    Sum(s) / |s| as real
  }

  /** The statistics of the present YoY values. */
  datatype Stats = Stats(avg: real, max: real, min: real, volatility: real, recent_avg: real)

  /** The mean of the present values among two, 0 when neither is present. */
  function RecentAvg(a: Option<real>, b: Option<real>): real
  {
    var recent := Present([a, b]);
    if recent != [] then Mean(recent) else 0.0
  }

  function StatsOf(growth: seq<real>, yoy: seq<(string, Option<real>)>): Stats
    requires growth != []
  {
    Stats(Mean(growth), SeqMax(growth), SeqMin(growth), SeqMax(growth) - SeqMin(growth),
          RecentAvg(Get(yoy, "Y_vs_Y-1"), Get(yoy, "Y-1_vs_Y-2")))
  }

  datatype Signals = Signals(volatile: bool, high_growth: bool, declining: bool, accelerating: bool,
                             decelerating: bool)

  function SignalsOf(growth: seq<real>, st: Stats): Signals
  {
    Signals(st.volatility > 30.0, st.avg > 15.0, st.avg < -5.0,
            |growth| >= 3 && growth[0] > growth[1] > growth[2],
            |growth| >= 3 && growth[0] < growth[1] < growth[2])
  }

  // ------------------------------------------------------------ sentences

  datatype Insight =
    | CashContracting | CashImproving | CashVolatile | CashRecentNegative
    | ReceivablesRising | ReceivablesSpike | ReceivablesReducing | ReceivablesUnstable
    | InventoryBuildUp | InventoryReduction | InventorySpike
    | OcfWeakening | OcfMomentum | OcfRecentDecline | OcfVolatile
    | ClRising | ClDecreasing | ClSharp | ClSlowdown
    | Accelerating | Decelerating | Mixed

  predicate IsGeneric(i: Insight) { i == Accelerating || i == Decelerating || i == Mixed }

  /** A sentence; the generic ones start with the title and interpolate the average growth to one decimal. */
  function Sentence(i: Insight, title: string, avg: real): Text
  {
    match i
    case CashContracting => Lit("Cash levels are contracting YoY, signalling tightening liquidity buffers.")
    case CashImproving => Lit("Cash reserves show healthy YoY improvement, strengthening immediate liquidity.")
    case CashVolatile => Lit("Cash position is highly volatile, indicating unstable near-term liquidity.")
    case CashRecentNegative => Lit("Recent negative trend in cash indicates weakening cash cushion.")
    case ReceivablesRising => Lit("Receivables are rising sharply, indicating potential collection delays.")
    case ReceivablesSpike => Lit("Significant YoY spike suggests deteriorating credit discipline or customer stress.")
    case ReceivablesReducing => Lit("Receivables are reducing YoY, indicating better collections.")
    case ReceivablesUnstable => Lit("Receivables trend is unstable, pointing to inconsistent collection cycles.")
    case InventoryBuildUp => Lit("Inventory build-up visible, which may lock working capital and pressure cash flows.")
    case InventoryReduction => Lit("Inventory reduction may indicate improved working capital efficiency.")
    case InventorySpike => Lit("Large inventory spike suggests slow-moving stock or demand mismatch.")
    case OcfWeakening => Lit("OCF is weakening, reducing the company's ability to self-fund operations.")
    case OcfMomentum => Lit("OCF shows strong positive YoY momentum, enhancing internal liquidity strength.")
    case OcfRecentDecline => Lit("Recent OCF decline indicates short-term stress in core operations.")
    case OcfVolatile => Lit("OCF volatility suggests inconsistent operating performance.")
    case ClRising => Lit("Current liabilities are rising, increasing short-term funding pressure.")
    case ClDecreasing => Lit("Current liabilities decreasing YoY indicates reduced short-term obligations.")
    case ClSharp => Lit("Sharp YoY increase in current liabilities suggests reliance on short-term credit.")
    case ClSlowdown => Lit("Recent slowdown in CL growth indicates stabilizing short-term obligations.")
    case Accelerating => Text(title + " shows accelerating trend (avg YoY {:.1f}%).", [avg])
    case Decelerating => Text(title + " shows decelerating trend (avg YoY {:.1f}%).", [avg])
    case Mixed => Text(title + " shows mixed YoY behavior with average growth of {:.1f}%.", [avg])
  }

  function When(c: bool, i: Insight): seq<Insight> { if c then [i] else [] }

  /** Which branch of the metric-specific block a metric name selects. */
  datatype Metric = CashMetric | ReceivablesMetric | InventoryMetric | OcfMetric | ClMetric | OtherMetric

  function MetricOf(name: string): (m: Metric)
    ensures m == OtherMetric <==>
              name !in {"cash", "receivables", "inventory", "operating_cash_flow", "current_liabilities"}
  {
    if name == "cash" then CashMetric
    else if name == "receivables" then ReceivablesMetric
    else if name == "inventory" then InventoryMetric
    else if name == "operating_cash_flow" then OcfMetric
    else if name == "current_liabilities" then ClMetric
    else OtherMetric
  }

  function CashInsights(st: Stats, sig: Signals): seq<Insight>
  {
    When(sig.declining, CashContracting) + When(sig.high_growth, CashImproving)
    + When(sig.volatile, CashVolatile) + When(st.recent_avg < 0.0, CashRecentNegative)
  }

  function ReceivablesInsights(st: Stats, sig: Signals): seq<Insight>
  {
    (if sig.high_growth then [ReceivablesRising] + When(st.max > 25.0, ReceivablesSpike) else [])
    + When(sig.declining, ReceivablesReducing) + When(sig.volatile, ReceivablesUnstable)
  }

  function InventoryInsights(st: Stats, sig: Signals): seq<Insight>
  {
    When(sig.high_growth, InventoryBuildUp) + When(sig.declining, InventoryReduction)
    + When(st.max > 20.0, InventorySpike)
  }

  function OcfInsights(st: Stats, sig: Signals): seq<Insight>
  {
    When(sig.declining, OcfWeakening) + When(sig.high_growth, OcfMomentum)
    + When(st.recent_avg < 0.0, OcfRecentDecline) + When(sig.volatile, OcfVolatile)
  }

  function ClInsights(st: Stats, sig: Signals): seq<Insight>
  {
    When(sig.high_growth, ClRising) + When(sig.declining, ClDecreasing)
    + When(st.max > 20.0, ClSharp) + When(st.recent_avg < 0.0, ClSlowdown)
  }

  /** The metric-specific sentences; none for a name outside the five. */
  function SpecificInsights(m: Metric, st: Stats, sig: Signals): seq<Insight>
  {
    match m
    case CashMetric => CashInsights(st, sig)
    case ReceivablesMetric => ReceivablesInsights(st, sig)
    case InventoryMetric => InventoryInsights(st, sig)
    case OcfMetric => OcfInsights(st, sig)
    case ClMetric => ClInsights(st, sig)
    case OtherMetric => []
  }

  function GenericInsight(sig: Signals): (i: Insight)
    ensures IsGeneric(i)
  {
    if sig.accelerating then Accelerating else if sig.decelerating then Decelerating else Mixed
  }

  /** The result: the insufficient-data sentence, or the sentences joined by spaces. */
  datatype Fallback = Insufficient(title: string) | Insights(items: seq<Insight>, title: string, avg: real)

  function Render(f: Fallback): Text
  {
    match f
    case Insufficient(title) => Lit(title + " data is insufficient for liquidity trend analysis.")
    case Insights(items, title, avg) => JoinTexts(seq(|items|, k requires 0 <= k < |items| => Sentence(items[k], title, avg)))
  }

  /** `" ".join` of sentences: templates joined by a space, arguments in order. */
  function JoinTexts(ts: seq<Text>): Text
  {
    if ts == [] then Lit("")
    else if |ts| == 1 then ts[0]
    else var rest := JoinTexts(ts[1..]); Text(ts[0].template + " " + rest.template, ts[0].args + rest.args)
  }

  /** The sentences for present growth values with statistics `st`. */
  function InsightsOf(m: Metric, growth: seq<real>, st: Stats): seq<Insight>
  {
    var sig := SignalsOf(growth, st);
    var specific := SpecificInsights(m, st, sig);
    if specific == [] then [GenericInsight(sig)] else specific
  }

  /** What generate_liquidity_fallback_insight returns. */
  function FallbackOf(name: string, yoy: seq<(string, Option<real>)>): Fallback
  {
    var growth := Present(Values(yoy));
    if growth == [] then Insufficient(Title(name))
    else
      var st := StatsOf(growth, yoy);
      Insights(InsightsOf(MetricOf(name), growth, st), Title(name), st.avg)
  }

  /** The cash branch of the metric-specific block, appending sentences as their conditions hold. */
  method CashBlock(st: Stats, sig: Signals) returns (insights: seq<Insight>)
    ensures insights == CashInsights(st, sig)
  {
    insights := [];
    if sig.declining { insights := insights + [CashContracting]; }
    if sig.high_growth { insights := insights + [CashImproving]; }
    if sig.volatile { insights := insights + [CashVolatile]; }
    if st.recent_avg < 0.0 { insights := insights + [CashRecentNegative]; }
  }

  method ReceivablesBlock(st: Stats, sig: Signals) returns (insights: seq<Insight>)
    ensures insights == ReceivablesInsights(st, sig)
  {
    insights := [];
    if sig.high_growth {
      insights := insights + [ReceivablesRising];
      if st.max > 25.0 { insights := insights + [ReceivablesSpike]; }
    }
    if sig.declining { insights := insights + [ReceivablesReducing]; }
    if sig.volatile { insights := insights + [ReceivablesUnstable]; }
  }

  method InventoryBlock(st: Stats, sig: Signals) returns (insights: seq<Insight>)
    ensures insights == InventoryInsights(st, sig)
  {
    insights := [];
    if sig.high_growth { insights := insights + [InventoryBuildUp]; }
    if sig.declining { insights := insights + [InventoryReduction]; }
    if st.max > 20.0 { insights := insights + [InventorySpike]; }
  }

  method OcfBlock(st: Stats, sig: Signals) returns (insights: seq<Insight>)
    ensures insights == OcfInsights(st, sig)
  {
    insights := [];
    if sig.declining { insights := insights + [OcfWeakening]; }
    if sig.high_growth { insights := insights + [OcfMomentum]; }
    if st.recent_avg < 0.0 { insights := insights + [OcfRecentDecline]; }
    if sig.volatile { insights := insights + [OcfVolatile]; }
  }

  method ClBlock(st: Stats, sig: Signals) returns (insights: seq<Insight>)
    ensures insights == ClInsights(st, sig)
  {
    insights := [];
    if sig.high_growth { insights := insights + [ClRising]; }
    if sig.declining { insights := insights + [ClDecreasing]; }
    if st.max > 20.0 { insights := insights + [ClSharp]; }
    if st.recent_avg < 0.0 { insights := insights + [ClSlowdown]; }
  }

  /** The metric-specific block: the if/elif chain on the metric name. */
  method MetricInsights(m: Metric, st: Stats, sig: Signals) returns (insights: seq<Insight>)
    ensures insights == SpecificInsights(m, st, sig)
  {
    insights := [];
    if m == CashMetric {
      insights := CashBlock(st, sig);
    } else if m == ReceivablesMetric {
      insights := ReceivablesBlock(st, sig);
    } else if m == InventoryMetric {
      insights := InventoryBlock(st, sig);
    } else if m == OcfMetric {
      insights := OcfBlock(st, sig);
    } else if m == ClMetric {
      insights := ClBlock(st, sig);
    }
  }

  /** generate_liquidity_fallback_insight; the values per year are accepted and not read. */
  method GenerateLiquidityFallbackInsight(name: string, values: seq<(string, real)>, yoy: seq<(string, Option<real>)>)
    returns (r: Fallback)
    ensures r == FallbackOf(name, yoy)
  {
    var growth := Present(Values(yoy));
    if growth == [] {
      return Insufficient(Title(name));
    }
    var st := StatsOf(growth, yoy);
    var insights := Analyse(MetricOf(name), growth, st);
    return Insights(insights, Title(name), st.avg);
  }

  /** The pattern flags, the metric-specific block and the generic fallback sentence. */
  method Analyse(m: Metric, growth: seq<real>, st: Stats) returns (insights: seq<Insight>)
    ensures insights == InsightsOf(m, growth, st)
  {
    var sig := SignalsOf(growth, st);
    insights := MetricInsights(m, st, sig);
    if insights == [] {
      if sig.accelerating {
        insights := insights + [Accelerating];
      } else if sig.decelerating {
        insights := insights + [Decelerating];
      } else {
        insights := insights + [Mixed];
      }
    }
  }

  // ------------------------------------------------------------ properties

  /** The insufficient-data sentence comes exactly when no YoY value is present. */
  lemma InsufficientIffNoValues(name: string, yoy: seq<(string, Option<real>)>)
    ensures FallbackOf(name, yoy).Insufficient? <==> forall i :: 0 <= i < |yoy| ==> yoy[i].1.None?
  {
    var vs := Values(yoy);
    PresentEmpty(vs);
    assert forall i :: 0 <= i < |yoy| ==> vs[i] == yoy[i].1;
  }

  /** Otherwise there is always at least one sentence, and the generic one only when no specific one fired. */
  lemma NeverEmpty(name: string, yoy: seq<(string, Option<real>)>)
    ensures var f := FallbackOf(name, yoy);
            f.Insights? ==> f.items != [] && (IsGeneric(f.items[0]) ==> |f.items| == 1)
  {
    var growth := Present(Values(yoy));
    if growth != [] {
      var st := StatsOf(growth, yoy);
      SpecificNotGeneric(MetricOf(name), st, SignalsOf(growth, st));
    }
  }

  /** No metric-specific sentence is one of the generic ones. */
  lemma SpecificNotGeneric(m: Metric, st: Stats, sig: Signals)
    ensures forall i :: 0 <= i < |SpecificInsights(m, st, sig)| ==> !IsGeneric(SpecificInsights(m, st, sig)[i])
  {
    var s := SpecificInsights(m, st, sig);
    assert Accelerating !in s && Decelerating !in s && Mixed !in s by {
      match m
      case CashMetric =>
      case ReceivablesMetric =>
      case InventoryMetric =>
      case OcfMetric =>
      case ClMetric =>
      case OtherMetric =>
    }
    forall i | 0 <= i < |s| ensures !IsGeneric(s[i]) {
      assert s[i] in s;
    }
  }

  /** A metric other than the five named ones always gets exactly the generic sentence. */
  lemma UnknownMetricGeneric(name: string, yoy: seq<(string, Option<real>)>)
    requires name !in {"cash", "receivables", "inventory", "operating_cash_flow", "current_liabilities"}
    ensures var f := FallbackOf(name, yoy);
            f.Insights? ==> |f.items| == 1 && IsGeneric(f.items[0])
  {
  }

  lemma {:induction false} SumBounds(s: seq<real>, lo: real, hi: real)
    requires forall i :: 0 <= i < |s| ==> lo <= s[i] <= hi
    ensures |s| as real * lo <= Sum(s) <= |s| as real * hi
  {
    if s != [] {
      SumBounds(s[1..], lo, hi);
    }
  }

  /** The average lies between the smallest and largest growth, so the volatility is never negative. */
  lemma StatsOrdered(growth: seq<real>)
    requires growth != []
    ensures SeqMin(growth) <= Mean(growth) <= SeqMax(growth)
    ensures SeqMax(growth) - SeqMin(growth) >= 0.0
  {
    MeanBounds(growth, SeqMin(growth), SeqMax(growth));
  }

  /** A mean lies within any bounds of its values. */
  lemma MeanBounds(s: seq<real>, lo: real, hi: real)
    requires s != [] && forall i :: 0 <= i < |s| ==> lo <= s[i] <= hi
    ensures lo <= Mean(s) <= hi
  {
    SumBounds(s, lo, hi);
    MeanBetween(Sum(s), |s| as real, lo, hi);
  }

  lemma MeanBetween(total: real, n: real, lo: real, hi: real)
    requires n > 0.0 && n * lo <= total <= n * hi
    ensures lo <= total / n <= hi
  {
  }

  /** recent_avg is the mean of whichever of Y_vs_Y-1 and Y-1_vs_Y-2 are present, and 0 when neither is. */
  lemma RecentAverage(a: Option<real>, b: Option<real>)
    ensures var r := RecentAvg(a, b);
            && (a.None? && b.None? ==> r == 0.0)
            && (a.Some? && b.None? ==> r == a.value)
            && (a.None? && b.Some? ==> r == b.value)
            && (a.Some? && b.Some? ==> r == (a.value + b.value) / 2.0)
  {
    assert [a, b][1..] == [b];
    assert [b][1..] == [];
    assert Present([b]) == (if b.Some? then [b.value] else []) + Present([]);
    assert Present([a, b]) == (if a.Some? then [a.value] else []) + Present([b]);
    var p := Present([a, b]);
    if a.Some? && b.Some? {
      assert p == [a.value, b.value];
      assert Sum(p) == a.value + b.value by {
        assert p[1..] == [b.value];
        assert Sum([b.value]) == b.value + Sum([b.value][1..]);
        assert [b.value][1..] == [];
      }
    } else if a.Some? {
      assert p == [a.value];
      assert Sum(p) == a.value by { assert p[1..] == []; }
    } else if b.Some? {
      assert p == [b.value];
      assert Sum(p) == b.value by { assert p[1..] == []; }
    }
  }
}
