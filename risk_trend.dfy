/**
 * RiskTrendAnalyzer: year-over-year growth, CAGR, the longest run of a
 * condition, and the five multi-series pattern detectors (zombie,
 * window dressing, asset stripping, evergreening, circular trading).
 */
module RiskTrend {
  import opened Common

  // ---------------------------------------------------------------- YoY

  /** Growth from `prev` to `curr` as a fraction of |prev|; None for a missing or zero base. */
  function YoyAt(prev: Option<real>, curr: Option<real>): (r: Option<real>)
    ensures r.None? <==> Falsy(prev) || curr.None?
    ensures r.Some? ==> r.value * Abs(prev.value) == curr.value - prev.value
  {
    if Falsy(prev) || curr.None? then None
    else Some((curr.value - prev.value) / Abs(prev.value))
  }

  /** The specification of `yoy`: one entry per consecutive pair. */
  function YoyList(s: seq<Option<real>>): seq<Option<real>>
  {
    if |s| < 2 then [] else seq(|s| - 1, k requires 0 <= k < |s| - 1 => YoyAt(s[k], s[k + 1]))
  }

  method Yoy(series: seq<Option<real>>) returns (out: seq<Option<real>>)
    ensures out == YoyList(series)
    ensures |out| == if |series| <= 1 then 0 else |series| - 1
    ensures forall i :: 0 <= i < |out| ==> out[i] == YoyAt(series[i], series[i + 1])
  {
    out := [];
    var i := 1;
    while i < |series|
      invariant 1 <= i <= if |series| == 0 then 1 else |series|
      invariant |out| == i - 1
      invariant forall k :: 0 <= k < i - 1 ==> out[k] == YoyAt(series[k], series[k + 1])
    {
      var prev := series[i - 1];
      var curr := series[i];
      if Falsy(prev) || curr.None? {
        out := out + [None];
      } else {
        out := out + [Some((curr.value - prev.value) / Abs(prev.value))];
      }
      i := i + 1;
    }
  }

  // --------------------------------------------------------------- CAGR

  /**
   * `cagr`: 0.0 (not None) when the start is missing or zero, the end is
   * missing, or there are no periods; otherwise (end/start)^(1/periods) - 1,
   * with the fractional power `pow` left uninterpreted.
   */
  function Cagr(start: Option<real>, end: Option<real>, periods: int, pow: (real, real) -> real): (r: real)
    ensures Falsy(start) || end.None? || periods <= 0 ==> r == 0.0
    ensures !(Falsy(start) || end.None? || periods <= 0) ==>
              r == pow(end.value / start.value, 1.0 / periods as real) - 1.0
  {
    if Falsy(start) || end.None? || periods <= 0 then 0.0
    else pow(end.value / start.value, 1.0 / periods as real) - 1.0
  }

  // ------------------------------------------------- longest run of True

  predicate AllTrue(s: seq<bool>, lo: int, hi: int)
    requires 0 <= lo <= hi <= |s|
  {
    forall k :: lo <= k < hi ==> s[k]
  }

  /** Length of the run of Trues that ends just before position i (the loop's `cur`). */
  function RunEnd(s: seq<bool>, i: nat): nat
    requires i <= |s|
  {
    if i == 0 || !s[i - 1] then 0 else RunEnd(s, i - 1) + 1
  }

  /** Largest `cur` seen in the first i steps (the loop's `best`). */
  function BestRun(s: seq<bool>, i: nat): nat
    requires i <= |s|
  {
    if i == 0 then 0 else
      var b := BestRun(s, i - 1);
      var c := RunEnd(s, i);
      if c > b then c else b
  }

  function LongestRun(s: seq<bool>): nat { BestRun(s, |s|) }

  lemma {:induction false} RunEndFacts(s: seq<bool>, i: nat)
    requires i <= |s|
    ensures RunEnd(s, i) <= i
    ensures AllTrue(s, i - RunEnd(s, i), i)
    ensures forall lo :: 0 <= lo <= i && AllTrue(s, lo, i) ==> i - lo <= RunEnd(s, i)
  {
    if i > 0 && s[i - 1] {
      RunEndFacts(s, i - 1);
      forall lo | 0 <= lo <= i && AllTrue(s, lo, i)
        ensures i - lo <= RunEnd(s, i)
      {
        if lo < i { assert AllTrue(s, lo, i - 1); }
      }
    } else if i > 0 {
      forall lo | 0 <= lo < i
        ensures !AllTrue(s, lo, i)
      {
        assert !s[i - 1];
      }
    }
  }

  lemma {:induction false} BestRunFacts(s: seq<bool>, i: nat)
    requires i <= |s|
    ensures BestRun(s, i) <= i
    ensures exists lo, hi :: 0 <= lo <= hi <= i && hi - lo == BestRun(s, i) && AllTrue(s, lo, hi)
    ensures forall lo, hi :: 0 <= lo <= hi <= i && AllTrue(s, lo, hi) ==> hi - lo <= BestRun(s, i)
  {
    if i == 0 {
      assert AllTrue(s, 0, 0);
    } else {
      BestRunFacts(s, i - 1);
      RunEndFacts(s, i);
      var b := BestRun(s, i - 1);
      var c := RunEnd(s, i);
      if c > b {
        assert AllTrue(s, i - c, i);
      } else {
        var lo, hi :| 0 <= lo <= hi <= i - 1 && hi - lo == b && AllTrue(s, lo, hi);
      }
      forall lo, hi | 0 <= lo <= hi <= i && AllTrue(s, lo, hi)
        ensures hi - lo <= BestRun(s, i)
      {
        if hi == i {
          assert i - lo <= c;
        } else {
          assert hi - lo <= b;
        }
      }
    }
  }

  /**
   * `consecutive_true` computes the length of the longest run of Trues: some
   * run has that length, no run is longer, and it is 0 exactly when no True
   * is present.
   */
  lemma LongestRunIsLongest(s: seq<bool>)
    ensures LongestRun(s) <= |s|
    ensures exists lo, hi :: 0 <= lo <= hi <= |s| && hi - lo == LongestRun(s) && AllTrue(s, lo, hi)
    ensures forall lo, hi :: 0 <= lo <= hi <= |s| && AllTrue(s, lo, hi) ==> hi - lo <= LongestRun(s)
    ensures LongestRun(s) == 0 <==> (forall k :: 0 <= k < |s| ==> !s[k])
  {
    BestRunFacts(s, |s|);
    if LongestRun(s) == 0 {
      forall k | 0 <= k < |s| ensures !s[k] {
        if s[k] { assert AllTrue(s, k, k + 1); }
      }
    } else {
      var lo, hi :| 0 <= lo <= hi <= |s| && hi - lo == LongestRun(s) && AllTrue(s, lo, hi);
      assert s[lo];
    }
  }

  method ConsecutiveTrue(s: seq<bool>) returns (best: nat)
    ensures best == LongestRun(s)
    ensures best <= |s|
    ensures best == 0 <==> (forall k :: 0 <= k < |s| ==> !s[k])
  {
    var cur: nat := 0;
    best := 0;
    var i := 0;
    while i < |s|
      invariant 0 <= i <= |s|
      invariant cur == RunEnd(s, i)
      invariant best == BestRun(s, i)
    {
      if s[i] { cur := cur + 1; } else { cur := 0; }
      if cur > best { best := cur; }
      i := i + 1;
    }
    LongestRunIsLongest(s);
  }

  // ------------------------------------------------------------- zombie

  /** Elementwise SafeLt over `zip(a, b)`: True only where both are present and a < b. */
  function BelowFlags(a: seq<Option<real>>, b: seq<Option<real>>): (r: seq<bool>)
    ensures |r| == if |a| < |b| then |a| else |b|
    ensures forall i :: 0 <= i < |r| ==> (r[i] <==> SafeLt(a[i], b[i]))
  {
    seq(if |a| < |b| then |a| else |b|, i requires 0 <= i < |a| && i < |b| => SafeLt(a[i], b[i]))
  }

  /** A year with a missing operand breaks every run counted by the zombie detector. */
  lemma ZombieRunsNeedData(a: seq<Option<real>>, b: seq<Option<real>>, lo: int, hi: int)
    requires 0 <= lo <= hi <= |BelowFlags(a, b)| && AllTrue(BelowFlags(a, b), lo, hi)
    ensures forall k :: lo <= k < hi ==> a[k].Some? && b[k].Some? && a[k].value < b[k].value
  {
    forall k | lo <= k < hi ensures a[k].Some? && b[k].Some? && a[k].value < b[k].value {
      assert BelowFlags(a, b)[k];
    }
  }

  datatype Zombie = Zombie(ebitInterestConsec: nat, ocfInterestConsec: nat)

  method ZombieSignals(ebit: seq<Option<real>>, interest: seq<Option<real>>, ocf: seq<Option<real>>)
    returns (z: Zombie)
    ensures z.ebitInterestConsec == LongestRun(BelowFlags(ebit, interest))
    ensures z.ocfInterestConsec == LongestRun(BelowFlags(ocf, interest))
  {
    var e := ConsecutiveTrue(BelowFlags(ebit, interest));
    var o := ConsecutiveTrue(BelowFlags(ocf, interest));
    z := Zombie(e, o);
  }

  // ------------------------------------------------------ ratio lists

  /**
   * The three ratio shapes of the detectors: n/d, |n|/|d| (one-off income
   * and dividend payout) and |n|/d (principal repayment).
   */
  datatype RatioKind = Plain | AbsBoth | AbsNum

  function RatioAt(kind: RatioKind, n: Option<real>, d: Option<real>): (r: Option<real>)
    ensures r.None? <==> n.None? || Falsy(d)
    ensures r.Some? && kind == Plain ==> r.value * d.value == n.value
    ensures r.Some? && kind == AbsBoth ==> r.value >= 0.0 && r.value * Abs(d.value) == Abs(n.value)
    ensures r.Some? && kind == AbsNum ==> r.value * d.value == Abs(n.value)
  {
    if n.None? || Falsy(d) then None
    else match kind
      case Plain => Some(n.value / d.value)
      case AbsBoth => Some(Abs(n.value) / Abs(d.value))
      case AbsNum => Some(Abs(n.value) / d.value)
  }

  function RatioList(kind: RatioKind, ns: seq<Option<real>>, ds: seq<Option<real>>): seq<Option<real>>
  {
    seq(if |ns| < |ds| then |ns| else |ds|, i requires 0 <= i < |ns| && i < |ds| => RatioAt(kind, ns[i], ds[i]))
  }

  /** One of the detectors' `for a, b in zip(...)` ratio loops. */
  method ZipRatios(kind: RatioKind, ns: seq<Option<real>>, ds: seq<Option<real>>) returns (out: seq<Option<real>>)
    ensures out == RatioList(kind, ns, ds)
    ensures |out| == if |ns| < |ds| then |ns| else |ds|
    ensures forall i :: 0 <= i < |out| ==> out[i] == RatioAt(kind, ns[i], ds[i])
  {
    var m := if |ns| < |ds| then |ns| else |ds|;
    out := [];
    var i := 0;
    while i < m
      invariant 0 <= i <= m
      invariant |out| == i
      invariant forall k :: 0 <= k < i ==> out[k] == RatioAt(kind, ns[k], ds[k])
    {
      var n := ns[i];
      var d := ds[i];
      if n.None? || Falsy(d) {
        out := out + [None];
      } else if kind == Plain {
        out := out + [Some(n.value / d.value)];
      } else if kind == AbsBoth {
        out := out + [Some(Abs(n.value) / Abs(d.value))];
      } else {
        out := out + [Some(Abs(n.value) / d.value)];
      }
      i := i + 1;
    }
  }

  // ---------------------------------------------------- window dressing

  datatype Window = Window(cashYoy: seq<Option<real>>, netIncomeYoy: seq<Option<real>>,
                           revenueYoy: seq<Option<real>>, oneoffRatio: seq<Option<real>>)

  function WindowOf(cash: seq<Option<real>>, netIncome: seq<Option<real>>,
                    revenue: seq<Option<real>>, oneOff: seq<Option<real>>): Window
  {
    Window(YoyList(cash), YoyList(netIncome), YoyList(revenue), RatioList(AbsBoth, oneOff, netIncome))
  }

  method WindowSignals(cash: seq<Option<real>>, netIncome: seq<Option<real>>,
                       revenue: seq<Option<real>>, oneOff: seq<Option<real>>) returns (w: Window)
    ensures w == WindowOf(cash, netIncome, revenue, oneOff)
    ensures |w.oneoffRatio| == if |oneOff| < |netIncome| then |oneOff| else |netIncome|
    ensures forall i :: 0 <= i < |w.oneoffRatio| ==>
              (w.oneoffRatio[i].None? <==> Falsy(netIncome[i]) || oneOff[i].None?)
  {
    var c := Yoy(cash);
    var n := Yoy(netIncome);
    var r := Yoy(revenue);
    var o := ZipRatios(AbsBoth, oneOff, netIncome);
    w := Window(c, n, r, o);
  }

  // ---------------------------------------------------- asset stripping

  /** `sum(1 for v in xs if v is not None and v < 0)`. */
  function CountNegative(xs: seq<Option<real>>): (r: nat)
    ensures r <= |xs|
    ensures r == 0 <==> forall i :: 0 <= i < |xs| ==> !(xs[i].Some? && xs[i].value < 0.0)
  {
    if xs == [] then 0
    else (if xs[0].Some? && xs[0].value < 0.0 then 1 else 0) + CountNegative(xs[1..])
  }

  /** The count is over all declines, consecutive or not: it adds up over any split. */
  lemma {:induction false} CountNegativeAppend(a: seq<Option<real>>, b: seq<Option<real>>)
    ensures CountNegative(a + b) == CountNegative(a) + CountNegative(b)
  {
    if a != [] {
      assert (a + b)[0] == a[0];
      assert (a + b)[1..] == a[1..] + b;
      CountNegativeAppend(a[1..], b);
    } else {
      assert a + b == b;
    }
  }

  /** First and last values are both present and the last is below the first. */
  predicate EndpointsFall(s: seq<Option<real>>)
  {
    |s| >= 2 && s[0].Some? && s[|s| - 1].Some? && s[|s| - 1].value < s[0].value
  }

  /** First and last values are both present and the last is above the first. */
  predicate EndpointsRise(s: seq<Option<real>>)
  {
    |s| >= 2 && s[0].Some? && s[|s| - 1].Some? && s[|s| - 1].value > s[0].value
  }

  datatype Asset = Asset(fixedAssetDeclineYears: nat, dividendPayoutRatio: seq<Option<real>>,
                         assetsShrinking: bool, debtRising: bool)

  function AssetOf(fixedAssets: seq<Option<real>>, netDebt: seq<Option<real>>,
                   dividend: seq<Option<real>>, netIncome: seq<Option<real>>): Asset
  {
    Asset(CountNegative(YoyList(fixedAssets)), RatioList(AbsBoth, dividend, netIncome),
          EndpointsFall(fixedAssets), EndpointsRise(netDebt))
  }

  method AssetSignals(fixedAssets: seq<Option<real>>, netDebt: seq<Option<real>>,
                      dividend: seq<Option<real>>, netIncome: seq<Option<real>>) returns (a: Asset)
    ensures a == AssetOf(fixedAssets, netDebt, dividend, netIncome)
    ensures a.fixedAssetDeclineYears <= if |fixedAssets| <= 1 then 0 else |fixedAssets| - 1
    ensures a.assetsShrinking ==> |fixedAssets| >= 2 && fixedAssets[0].Some? && fixedAssets[|fixedAssets| - 1].Some?
    ensures a.debtRising ==> |netDebt| >= 2 && netDebt[0].Some? && netDebt[|netDebt| - 1].Some?
  {
    var faYoy := Yoy(fixedAssets);
    var payout := ZipRatios(AbsBoth, dividend, netIncome);
    var shrinking := false;
    if |fixedAssets| >= 2 {
      var first := fixedAssets[0];
      var last := fixedAssets[|fixedAssets| - 1];
      if first.Some? && last.Some? {
        shrinking := last.value < first.value;
      }
    }
    var rising := false;
    if |netDebt| >= 2 {
      var first := netDebt[0];
      var last := netDebt[|netDebt| - 1];
      if first.Some? && last.Some? {
        rising := last.value > first.value;
      }
    }
    a := Asset(CountNegative(faYoy), payout, shrinking, rising);
  }

  // -------------------------------------------------------- evergreening

  datatype Evergreening = Evergreening(rolloverRatio: seq<Option<real>>, interestCapRatio: seq<Option<real>>,
                                       principalRepaymentRatio: seq<Option<real>>)

  function EvergreeningOf(rollover: seq<Option<real>>, netDebt: seq<Option<real>>, intCap: seq<Option<real>>,
                          interest: seq<Option<real>>, principal: seq<Option<real>>): Evergreening
  {
    Evergreening(RatioList(Plain, rollover, netDebt), RatioList(Plain, intCap, interest),
                 RatioList(AbsNum, principal, netDebt))
  }

  method EvergreeningSignals(rollover: seq<Option<real>>, netDebt: seq<Option<real>>, intCap: seq<Option<real>>,
                             interest: seq<Option<real>>, principal: seq<Option<real>>) returns (e: Evergreening)
    ensures e == EvergreeningOf(rollover, netDebt, intCap, interest, principal)
    ensures forall i :: 0 <= i < |e.principalRepaymentRatio| ==>
              (e.principalRepaymentRatio[i].Some? ==>
                 e.principalRepaymentRatio[i].value * netDebt[i].value == Abs(principal[i].value))
  {
    var r := ZipRatios(Plain, rollover, netDebt);
    var c := ZipRatios(Plain, intCap, interest);
    var p := ZipRatios(AbsNum, principal, netDebt);
    e := Evergreening(r, c, p);
  }

  // ---------------------------------------------------- circular trading

  datatype Circular = Circular(rptSalesRatio: seq<Option<real>>, rptAssetsRatio: seq<Option<real>>,
                               rptRecvRatio: seq<Option<real>>, recvYoy: seq<Option<real>>,
                               revYoy: seq<Option<real>>, ocfYoy: seq<Option<real>>)

  function CircularOf(rptSales: seq<Option<real>>, totalSales: seq<Option<real>>, rptRecv: seq<Option<real>>,
                      totalRecv: seq<Option<real>>, revenue: seq<Option<real>>, ocf: seq<Option<real>>,
                      assets: seq<Option<real>>): Circular
  {
    Circular(RatioList(Plain, rptSales, totalSales), RatioList(Plain, rptSales, assets),
             RatioList(Plain, rptRecv, totalRecv), YoyList(totalRecv), YoyList(revenue), YoyList(ocf))
  }

  method CircularSignals(rptSales: seq<Option<real>>, totalSales: seq<Option<real>>, rptRecv: seq<Option<real>>,
                         totalRecv: seq<Option<real>>, revenue: seq<Option<real>>, ocf: seq<Option<real>>,
                         assets: seq<Option<real>>) returns (c: Circular)
    ensures c == CircularOf(rptSales, totalSales, rptRecv, totalRecv, revenue, ocf, assets)
  {
    var s := ZipRatios(Plain, rptSales, totalSales);
    var a := ZipRatios(Plain, rptSales, assets);
    var r := ZipRatios(Plain, rptRecv, totalRecv);
    var ry := Yoy(totalRecv);
    var vy := Yoy(revenue);
    var oy := Yoy(ocf);
    c := Circular(s, a, r, ry, vy, oy);
  }
}
