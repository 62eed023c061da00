/**
 * RiskOrchestrator.run without its language-model call: input enrichment,
 * derived metrics, the rule engine, key metrics, the four display trends,
 * the red-flag / positive-point partition, the scenario score and colour,
 * and the narrative (the model's text when it answered, the fallback
 * otherwise).
 */
module RiskOrchestrator {
  import opened Common
  import opened RiskConfig
  import opened RiskModels
  import opened RiskMetrics
  import opened RiskRules
  import opened RiskFallback

  // ------------------------------------------------------------ enrichment

  /**
   * The raw year at input position `idx` after run has written into it: the
   * manual related-party values for that position, ebit copied from
   * operating_profit and net_debt from borrowings.
   */
  function Enriched(y: Dict, idx: nat): Dict
    requires idx < 5
  {
    y[RelatedPartySales := Num(ManualRptSales[idx])]
     [RelatedPartyReceivables := Num(ManualRptReceivables[idx])]
     [Ebit := Get(y, OperatingProfit)]
     [NetDebt := Get(y, Borrowings)]
  }

  /** The enriched years, one per input position. */
  function EnrichAll(years: seq<Dict>): (r: seq<Dict>)
    requires |years| <= 5
    ensures |r| == |years| && forall i :: 0 <= i < |years| ==> r[i] == Enriched(years[i], i)
  {
    seq(|years|, i requires 0 <= i < |years| => Enriched(years[i], i))
  }

  /** Every dictionary validates as YearFinancials. */
  predicate AllValidate(ys: seq<Dict>, parse: string -> Option<real>)
  {
    forall j :: 0 <= j < |ys| ==> Validates(ys[j], parse)
  }

  /**
   * The enrichment loop fails (and run answers input_validation_failed)
   * when manual_vals has no entry for some position or an enriched year
   * does not validate as YearFinancials.
   */
  predicate Invalid(years: seq<Dict>, parse: string -> Option<real>)
  {
    |years| > 5 || !AllValidate(EnrichAll(years), parse)
  }

  method EnrichYears(years: seq<Dict>, parse: string -> Option<real>) returns (r: Option<seq<Dict>>)
    ensures r.None? <==> Invalid(years, parse)
    ensures r.Some? ==> |years| <= 5 && r.value == EnrichAll(years)
  {
    var out: seq<Dict> := [];
    var idx := 0;
    while idx < |years|
      invariant 0 <= idx <= |years| && idx <= 5
      invariant |out| == idx
      invariant forall i :: 0 <= i < idx ==> out[i] == Enriched(years[i], i)
      invariant forall i :: 0 <= i < idx ==> Validates(out[i], parse)
    {
      if idx >= 5 {
        // manual_vals[...][idx] raises IndexError
        return None;
      }
      var y := Enriched(years[idx], idx);
      if ToYearFinancials(y, parse).None? {
        if |years| <= 5 {
          assert !Validates(EnrichAll(years)[idx], parse);
        }
        return None;
      }
      out := out + [y];
      idx := idx + 1;
    }
    assert out == EnrichAll(years);
    r := Some(out);
  }

  /** The enrichment sets exactly the four keys and keeps every other one. */
  lemma EnrichedKeys(y: Dict, idx: nat)
    requires idx < 5
    ensures Get(Enriched(y, idx), RelatedPartySales) == Num(ManualRptSales[idx])
    ensures Get(Enriched(y, idx), RelatedPartyReceivables) == Num(ManualRptReceivables[idx])
    ensures Get(Enriched(y, idx), Ebit) == Get(y, OperatingProfit)
    ensures Get(Enriched(y, idx), NetDebt) == Get(y, Borrowings)
    ensures forall k :: k != RelatedPartySales && k != RelatedPartyReceivables && k != Ebit && k != NetDebt ==>
              Get(Enriched(y, idx), k) == Get(y, k)
  {
  }

  /** Six years or more always fail validation, whatever they hold. */
  lemma TooManyYears(years: seq<Dict>, parse: string -> Option<real>)
    requires |years| > 5
    ensures Invalid(years, parse)
  {
  }

  /**
   * Two dictionaries that agree on every key but net_debt, the second with
   * a net_debt that coerces, validate alike; when ebit and operating_profit
   * agree the record has a defined ebit.
   */
  lemma SameFieldsSameValidity(d1: Dict, d2: Dict, parse: string -> Option<real>)
    requires forall k :: !Derived(k) ==> Get(d1, k) == Get(d2, k)
    requires Ok(d2, NetDebt, parse)
    requires Validates(d1, parse)
    ensures Validates(d2, parse)
    ensures Get(d1, Ebit) == Get(d1, OperatingProfit) ==> EbitDefined(ToYearFinancials(d2, parse).value)
  {
    ValidityAlike(d1, d2, parse);
    var r := ToYearFinancials(d2, parse).value;
    assert Coerce(Get(d2, Ebit), parse) == Some(r.ebit);
    assert Coerce(Get(d2, OperatingProfit), parse) == Some(r.operating_profit);
  }

  /** The validation half of SameFieldsSameValidity. */
  lemma ValidityAlike(d1: Dict, d2: Dict, parse: string -> Option<real>)
    requires forall k :: !Derived(k) ==> Get(d1, k) == Get(d2, k)
    requires Ok(d2, NetDebt, parse)
    requires Validates(d1, parse)
    ensures Validates(d2, parse)
  {
    assert Get(d1, YearKey) == Get(d2, YearKey);
    assert Ok(d2, Borrowings, parse) && Ok(d2, TradeReceivables, parse) && Ok(d2, CashEquivalents, parse) && Ok(d2, TotalAssets, parse) by {
      assert Get(d1, Borrowings) == Get(d2, Borrowings) && Get(d1, TradeReceivables) == Get(d2, TradeReceivables) && Get(d1, CashEquivalents) == Get(d2, CashEquivalents) && Get(d1, TotalAssets) == Get(d2, TotalAssets);
    }
    assert Ok(d2, FixedAssets, parse) && Ok(d2, Revenue, parse) && Ok(d2, OperatingProfit, parse) && Ok(d2, Ebit, parse) by {
      assert Get(d1, FixedAssets) == Get(d2, FixedAssets) && Get(d1, Revenue) == Get(d2, Revenue) && Get(d1, OperatingProfit) == Get(d2, OperatingProfit) && Get(d1, Ebit) == Get(d2, Ebit);
    }
    assert Ok(d2, Interest, parse) && Ok(d2, NetProfit, parse) && Ok(d2, OtherIncome, parse) && Ok(d2, ProfitFromOperations, parse) by {
      assert Get(d1, Interest) == Get(d2, Interest) && Get(d1, NetProfit) == Get(d2, NetProfit) && Get(d1, OtherIncome) == Get(d2, OtherIncome) && Get(d1, ProfitFromOperations) == Get(d2, ProfitFromOperations);
    }
    assert Ok(d2, InterestPaidFin, parse) && Ok(d2, CashFromOperatingActivity, parse) && Ok(d2, DividendsPaid, parse) && Ok(d2, ProceedsFromBorrowings, parse) by {
      assert Get(d1, InterestPaidFin) == Get(d2, InterestPaidFin) && Get(d1, CashFromOperatingActivity) == Get(d2, CashFromOperatingActivity) && Get(d1, DividendsPaid) == Get(d2, DividendsPaid) && Get(d1, ProceedsFromBorrowings) == Get(d2, ProceedsFromBorrowings);
    }
    assert Ok(d2, RepaymentOfBorrowings, parse) && Ok(d2, RelatedPartySales, parse) && Ok(d2, RelatedPartyReceivables, parse) by {
      assert Get(d1, RepaymentOfBorrowings) == Get(d2, RepaymentOfBorrowings) && Get(d1, RelatedPartySales) == Get(d2, RelatedPartySales) && Get(d1, RelatedPartyReceivables) == Get(d2, RelatedPartyReceivables);
    }
  }

  /** The operating cash flow compute_derived_metrics leaves is the input one or a number or null. */
  lemma DerivedOcf(year: Dict, parse: string -> Option<real>)
    ensures var v := Get(DerivedOf(year, parse), OperatingCashFlow);
            v == Get(year, OperatingCashFlow) || v.Null? || v.Num?
  {
  }

  /** compute_derived_metrics writes only its four keys, and net_debt it writes as a number or null. */
  lemma DerivedFrame(year: Dict, parse: string -> Option<real>)
    ensures forall k :: !Derived(k) ==> Get(DerivedOf(year, parse), k) == Get(year, k)
    ensures Get(year, NetDebt) != Null ==> Get(DerivedOf(year, parse), NetDebt) == Get(year, NetDebt)
    ensures Get(year, NetDebt) == Null ==> Get(DerivedOf(year, parse), NetDebt).Null? || Get(DerivedOf(year, parse), NetDebt).Num?
  {
  }

  /** One field compute_derived_metrics does not write keeps its value. */
  lemma DerivedKeeps(year: Dict, parse: string -> Option<real>, k: Field)
    requires !Derived(k)
    ensures Get(DerivedOf(year, parse), k) == Get(year, k)
  {
  }

  /**
   * The records rebuilt from the derived dictionaries validate again, with
   * ebit equal to operating_profit: the rebuild outside the try block
   * cannot fail, and the rule engine sees a defined ebit.
   */
  lemma DerivedStillValid(e: Dict, parse: string -> Option<real>)
    requires Validates(e, parse)
    ensures ToYearFinancials(DerivedOf(e, parse), parse).Some?
    ensures Get(e, Ebit) == Get(e, OperatingProfit) ==> EbitDefined(ToYearFinancials(DerivedOf(e, parse), parse).value)
  {
    var d := DerivedOf(e, parse);
    DerivedFrame(e, parse);
    assert Ok(d, NetDebt, parse);
    SameFieldsSameValidity(e, d, parse);
  }

  /** An enriched year that validates has ebit equal to operating_profit. */
  lemma EnrichedEbit(y: Dict, idx: nat)
    requires idx < 5
    ensures Get(Enriched(y, idx), Ebit) == Get(Enriched(y, idx), OperatingProfit)
  {
  }

  /** `YearFinancials(**d)` on the derived dictionary of a validated year. */
  function Rebuilt(e: Dict, parse: string -> Option<real>): (r: YearFinancials)
    requires Validates(e, parse)
    ensures Get(e, Ebit) == Get(e, OperatingProfit) ==> EbitDefined(r)
  {
    DerivedStillValid(e, parse);
    ToYearFinancials(DerivedOf(e, parse), parse).value
  }

  /** `[YearFinancials(**d) for d in derived]`. */
  function Records(ys: seq<Dict>, parse: string -> Option<real>): (r: seq<YearFinancials>)
    requires AllValidate(ys, parse)
    ensures |r| == |ys| && forall i :: 0 <= i < |ys| ==> r[i] == Rebuilt(ys[i], parse)
  {
    seq(|ys|, i requires 0 <= i < |ys| => Rebuilt(ys[i], parse))
  }

  /** run merges the overrides over the defaults and the engine merges again; the second merge changes nothing. */
  lemma MergeTwice(overrides: map<Key, real>)
    ensures Merge(Merge(overrides)) == Merge(overrides)
  {
    var m := Merge(overrides);
    assert Merge(m) == DefaultThresholds + m;
    assert DefaultThresholds + m == m;
  }

  // ------------------------------------------------------------ key metrics

  datatype KeyMetrics = KeyMetrics(year: Raw, cash: Raw, ocf: Raw, net_debt: Raw, fixed_assets: Raw,
                                   related_party_sales: Raw, related_party_receivables: Raw)

  /** The key metrics of one derived year. */
  function KeyMetricsOf(last: Dict): KeyMetrics
  {
    KeyMetrics(Get(last, YearKey), Get(last, CashEquivalents), Get(last, OperatingCashFlow), Get(last, NetDebt),
               Get(last, FixedAssets), Get(last, RelatedPartySales), Get(last, RelatedPartyReceivables))
  }

  /** The related-party key metrics are the manual values of the last input position. */
  lemma LastKeyMetrics(y: Dict, idx: nat, parse: string -> Option<real>)
    requires idx < 5
    ensures KeyMetricsOf(DerivedOf(Enriched(y, idx), parse)).related_party_sales == Num(ManualRptSales[idx])
    ensures KeyMetricsOf(DerivedOf(Enriched(y, idx), parse)).related_party_receivables == Num(ManualRptReceivables[idx])
  {
    var e := Enriched(y, idx);
    assert Get(e, RelatedPartySales) == Num(ManualRptSales[idx]);
    assert Get(e, RelatedPartyReceivables) == Num(ManualRptReceivables[idx]);
    DerivedKeeps(e, parse, RelatedPartySales);
    DerivedKeeps(e, parse, RelatedPartyReceivables);
  }

  // ------------------------------------------------------------ trends

  /** `safe_num`: None becomes 0; any other value, a numeric string included, is kept as it is. */
  function SafeNum(v: Raw): (r: Raw)
    ensures !r.Null?
    ensures v.Null? ==> r == Num(0.0)
    ensures !v.Null? ==> r == v
  {
    if v.Null? then Num(0.0) else v
  }

  /**
   * One step of build_trend's growth loop: the percentage, None when the
   * previous value is 0, or the TypeError that `curr - prev` raises when
   * one of the two is not a number (a string the validation coerced is
   * still a string here).
   */
  datatype Growth = Pct(pct: Option<real>) | GrowthTypeError

  /** build_trend's growth of `curr` over `prev`, both passed through safe_num first. */
  function YoyPct(prev: Raw, curr: Raw): (r: Growth)
    ensures r == Pct(None) <==> SafeNum(prev) == Num(0.0)
    ensures r.GrowthTypeError? <==> SafeNum(prev) != Num(0.0) && !(SafeNum(prev).Num? && SafeNum(curr).Num?)
    ensures r.Pct? && r.pct.Some? ==>
              && SafeNum(prev).Num? && SafeNum(curr).Num?
              && r.pct.value * Abs(SafeNum(prev).x) == (SafeNum(curr).x - SafeNum(prev).x) * 100.0
  {
    var p := SafeNum(prev);
    var c := SafeNum(curr);
    if p == Num(0.0) then Pct(None)
    else if p.Num? && c.Num? then Pct(Some(((c.x - p.x) / Abs(p.x)) * 100.0))
    else GrowthTypeError
  }

  /** A zero (or missing) previous value skips the arithmetic, so a string after it raises nothing. */
  lemma ZeroBaseSkipsArithmetic(curr: Raw)
    ensures YoyPct(Num(0.0), curr) == Pct(None)
    ensures YoyPct(Null, curr) == Pct(None)
  {
  }

  /** A string on either side of a non-zero number raises TypeError. */
  lemma StringRaises(s: string, x: real)
    requires x != 0.0
    ensures YoyPct(Str(s), Num(x)) == GrowthTypeError
    ensures YoyPct(Num(x), Str(s)) == GrowthTypeError
    ensures YoyPct(Str(s), Str(s)) == GrowthTypeError
  {
  }

  datatype Trend = Trend(values: seq<(Slot, Raw)>, yoy: seq<(VsKey, Option<real>)>, insight: string)

  /** build_trend's first loop: the values keyed "Y", "Y-1", ... from the newest year back. */
  method SlotLabels(values: seq<Raw>) returns (labels: seq<(Slot, Raw)>)
    ensures |labels| == |values|
    ensures forall j :: 0 <= j < |values| ==> Lookup(labels, SlotAt(j)) == Some(values[|values| - 1 - j])
  {
    var n := |values|;
    labels := [];
    var idx := 0;
    while idx < n
      invariant 0 <= idx <= n && |labels| == idx
      invariant forall j :: 0 <= j < idx ==> labels[j] == (SlotAt(j), values[n - 1 - j])
    {
      labels := labels + [(SlotAt(idx), values[n - 1 - idx])];
      idx := idx + 1;
    }
    assert DistinctKeys(labels) by {
      forall a, b | 0 <= a < b < |labels| ensures labels[a].0 != labels[b].0 {
        assert labels[a].0 == SlotAt(a) && labels[b].0 == SlotAt(b);
      }
    }
    forall j | 0 <= j < n ensures Lookup(labels, SlotAt(j)) == Some(values[n - 1 - j]) {
      LookupAt(labels, j);
    }
  }

  /** The growth step between positions j - 1 and j raises. */
  predicate RaisesAt(values: seq<Raw>, j: int)
  {
    1 <= j < |values| && YoyPct(values[j - 1], values[j]).GrowthTypeError?
  }

  /**
   * build_trend's second loop: the growth of each year over the one before,
   * oldest pair first; None for the TypeError of the first step that
   * raises, which ends run.
   */
  method YoyPairs(values: seq<Raw>) returns (yoy: Option<seq<(VsKey, Option<real>)>>)
    ensures yoy.None? <==> exists j :: 1 <= j < |values| && RaisesAt(values, j)
    ensures yoy.Some? ==> |yoy.value| == if |values| == 0 then 0 else |values| - 1
    ensures yoy.Some? ==> forall j :: 1 <= j < |values| ==>
              yoy.value[j - 1].0 == Vs(YMinus(j - 1), YMinus(j)) && YoyPct(values[j - 1], values[j]) == Pct(yoy.value[j - 1].1)
  {
    var n := |values|;
    var acc: seq<(VsKey, Option<real>)> := [];
    var i := 1;
    while i < n
      invariant 1 <= i <= if n == 0 then 1 else n
      invariant |acc| == i - 1
      invariant forall j :: 1 <= j < i ==> !RaisesAt(values, j)
      invariant forall j :: 1 <= j < i ==> acc[j - 1].0 == Vs(YMinus(j - 1), YMinus(j)) && YoyPct(values[j - 1], values[j]) == Pct(acc[j - 1].1)
    {
      var prev := SafeNum(values[i - 1]);
      var curr := SafeNum(values[i]);
      var pct: Option<real>;
      if prev == Num(0.0) {
        pct := None;
      } else if prev.Num? && curr.Num? {
        pct := Some(((curr.x - prev.x) / Abs(prev.x)) * 100.0);
      } else {
        // `curr - prev` raises TypeError
        assert RaisesAt(values, i);
        return None;
      }
      acc := acc + [(Vs(YMinus(i - 1), YMinus(i)), pct)];
      i := i + 1;
    }
    yoy := Some(acc);
  }

  /** `[safe_num(y.get(key)) for y in derived]`. */
  function TrendValues(derived: seq<Dict>, key: Field): (vs: seq<Raw>)
    ensures |vs| == |derived| && forall k :: 0 <= k < |derived| ==> vs[k] == SafeNum(Get(derived[k], key))
  {
    seq(|derived|, k requires 0 <= k < |derived| => SafeNum(Get(derived[k], key)))
  }

  /** Some growth step of build_trend(key) raises TypeError. */
  predicate TrendRaises(derived: seq<Dict>, key: Field)
  {
    exists i :: 1 <= i < |derived| && RaisesAt(TrendValues(derived, key), i)
  }

  /** safe_num applied twice is safe_num once, so the step on the safe values is the step on the raw ones. */
  lemma SafeStep(a: Raw, b: Raw)
    ensures YoyPct(SafeNum(a), SafeNum(b)) == YoyPct(a, b)
  {
  }

  /**
   * build_trend(key), None for its TypeError. The values map is newest
   * first; the growth keys count from the oldest pair: "Y-0_vs_Y-1"
   * compares the first and second input years.
   */
  method BuildTrend(derived: seq<Dict>, key: Field, name: string) returns (t: Option<Trend>)
    ensures t.None? <==> TrendRaises(derived, key)
    ensures t.Some? ==> |t.value.values| == |derived|
    ensures t.Some? ==> forall idx :: 0 <= idx < |derived| ==>
              Lookup(t.value.values, SlotAt(idx)) == Some(SafeNum(Get(derived[|derived| - 1 - idx], key)))
    ensures t.Some? && |derived| > 0 ==> Lookup(t.value.values, Y) == Some(SafeNum(Get(derived[|derived| - 1], key)))
    ensures t.Some? ==> |t.value.yoy| == if |derived| == 0 then 0 else |derived| - 1
    ensures t.Some? ==> forall i :: 1 <= i < |derived| ==>
              t.value.yoy[i - 1].0 == Vs(YMinus(i - 1), YMinus(i))
              && YoyPct(Get(derived[i - 1], key), Get(derived[i], key)) == Pct(t.value.yoy[i - 1].1)
    ensures t.Some? ==> t.value.insight == name + " shows YoY changes and patterns."
  {
    var values := TrendValues(derived, key);
    var labels := SlotLabels(values);
    var yoy := YoyPairs(values);
    if yoy.None? {
      return None;
    }
    forall i | 1 <= i < |derived|
      ensures YoyPct(Get(derived[i - 1], key), Get(derived[i], key)) == Pct(yoy.value[i - 1].1)
    {
      SafeStep(Get(derived[i - 1], key), Get(derived[i], key));
    }
    if |derived| > 0 {
      assert Lookup(labels, SlotAt(0)) == Some(values[|derived| - 1]);
    }
    t := Some(Trend(labels, yoy.value, name + " shows YoY changes and patterns."));
  }

  /** The four trend keys, with the names their insights print. */
  const TrendKeys: seq<(Field, string)> := [
    (CashEquivalents, "cash_equivalents"), (TradeReceivables, "trade_receivables"),
    (TotalAssets, "total_assets"), (OperatingCashFlow, "operating_cash_flow")]

  /** build_trend raises for one of the four keys. */
  predicate AnyTrendRaises(derived: seq<Dict>)
  {
    exists t :: 0 <= t < |TrendKeys| && TrendRaises(derived, TrendKeys[t].0)
  }

  /** With one year or none there is no growth step, so no trend raises whatever the values are. */
  lemma ShortTrendsNeverRaise(derived: seq<Dict>)
    requires |derived| <= 1
    ensures !AnyTrendRaises(derived)
  {
    forall t | 0 <= t < |TrendKeys| ensures !TrendRaises(derived, TrendKeys[t].0) {
      var vs := TrendValues(derived, TrendKeys[t].0);
      assert forall i :: !RaisesAt(vs, i);
    }
  }

  /**
   * `{k: build_trend(k) for k in trends_keys}`, None for the TypeError of
   * the first key whose trend raises.
   */
  method BuildTrends(derived: seq<Dict>) returns (trends: Option<seq<(string, Trend)>>)
    ensures trends.None? <==> AnyTrendRaises(derived)
    ensures trends.Some? ==> |trends.value| == |TrendKeys|
    ensures trends.Some? ==> forall t :: 0 <= t < |TrendKeys| ==>
              trends.value[t].0 == TrendKeys[t].1 && |trends.value[t].1.values| == |derived|
  {
    var acc: seq<(string, Trend)> := [];
    var t := 0;
    while t < |TrendKeys|
      invariant 0 <= t <= |TrendKeys| && |acc| == t
      invariant forall s :: 0 <= s < t ==> !TrendRaises(derived, TrendKeys[s].0)
      invariant forall s :: 0 <= s < t ==> acc[s].0 == TrendKeys[s].1 && |acc[s].1.values| == |derived|
    {
      var tr := BuildTrend(derived, TrendKeys[t].0, TrendKeys[t].1);
      if tr.None? {
        return None;
      }
      acc := acc + [(TrendKeys[t].1, tr.value)];
      t := t + 1;
    }
    trends := Some(acc);
  }

  /** The derived dictionaries of a list of years. */
  function DerivedAll(ys: seq<Dict>, parse: string -> Option<real>): (ds: seq<Dict>)
    ensures |ds| == |ys| && forall j :: 0 <= j < |ys| ==> ds[j] == DerivedOf(ys[j], parse)
  {
    seq(|ys|, j requires 0 <= j < |ys| => DerivedOf(ys[j], parse))
  }

  /** `[compute_derived_metrics(y) for y in years_raw]`. */
  method DeriveAll(ys: seq<Dict>, parse: string -> Option<real>) returns (derived: seq<Dict>)
    ensures derived == DerivedAll(ys, parse)
  {
    ghost var all := DerivedAll(ys, parse);
    derived := [];
    var i := 0;
    while i < |ys|
      invariant 0 <= i <= |ys| && derived == all[..i]
    {
      var d := ComputeDerivedMetrics(ys[i], parse);
      assert all[..i + 1] == all[..i] + [d];
      derived := derived + [d];
      i := i + 1;
    }
    assert all[..|ys|] == all;
  }

  // ------------------------------------------------------------ red flags and positives

  datatype RedFlag = RedFlag(severity: Flag, title: string, detail: Option<string>)

  predicate IsRedFlag(f: Flag) { f == CRITICAL || f == RED || f == HIGH }

  /** A red-flag entry; an empty reason falls back to the absent pattern_detected. */
  function RedFlagOf(r: Finding): RedFlag
  {
    RedFlag(if r.flag == CRITICAL || r.flag == RED then CRITICAL else HIGH, r.rule_name,
            if r.reason != "" then Some(r.reason) else None)
  }

  function RedFlagsOf(rules: seq<Finding>): (r: seq<RedFlag>)
    ensures forall x :: x in rules && IsRedFlag(x.flag) ==> RedFlagOf(x) in r
    ensures forall rf :: rf in r ==> exists x :: x in rules && IsRedFlag(x.flag) && rf == RedFlagOf(x)
    ensures forall rf :: rf in r ==> rf.severity == CRITICAL || rf.severity == HIGH
  {
    if rules == [] then []
    else
      var init := rules[..|rules| - 1];
      var last := rules[|rules| - 1];
      assert forall x :: x in rules <==> x in init || x == last;
      RedFlagsOf(init) + (if IsRedFlag(last.flag) then [RedFlagOf(last)] else [])
  }

  function PositivesOf(rules: seq<Finding>): (r: seq<string>)
    ensures forall x :: x in rules && !IsRedFlag(x.flag) ==> x.rule_name + ": " + x.reason in r
  {
    if rules == [] then []
    else
      var init := rules[..|rules| - 1];
      var last := rules[|rules| - 1];
      assert forall x :: x in rules <==> x in init || x == last;
      PositivesOf(init) + (if IsRedFlag(last.flag) then [] else [last.rule_name + ": " + last.reason])
  }

  /** Every finding lands on exactly one of the two lists. */
  lemma {:induction false} PartitionCounts(rules: seq<Finding>)
    ensures |RedFlagsOf(rules)| + |PositivesOf(rules)| == |rules|
  {
    if rules != [] {
      PartitionCounts(rules[..|rules| - 1]);
    }
  }

  method Partition(rules: seq<Finding>) returns (redFlags: seq<RedFlag>, positives: seq<string>)
    ensures redFlags == RedFlagsOf(rules) && positives == PositivesOf(rules)
  {
    redFlags, positives := [], [];
    var i := 0;
    while i < |rules|
      invariant 0 <= i <= |rules|
      invariant redFlags == RedFlagsOf(rules[..i]) && positives == PositivesOf(rules[..i])
    {
      assert rules[..i + 1][..i] == rules[..i];
      var f := rules[i].flag;
      if f == CRITICAL || f == RED || f == HIGH {
        redFlags := redFlags + [RedFlag(if f == CRITICAL || f == RED then CRITICAL else HIGH, rules[i].rule_name,
                                        if rules[i].reason != "" then Some(rules[i].reason) else None)];
      } else {
        positives := positives + [rules[i].rule_name + ": " + rules[i].reason];
      }
      i := i + 1;
    }
    assert rules[..|rules|] == rules;
  }

  // ------------------------------------------------------------ score and colour

  /** severity_rank, with 0 for a flag it does not list. */
  function SeverityRank(f: Flag): (r: nat)
    ensures r <= 4
  {
    match f
    case GREEN => 0 case YELLOW => 1 case HIGH => 2 case RED => 3 case CRITICAL => 4
    case NOT_APPLICABLE => 0
  }

  function TotalRank(rules: seq<Finding>): (r: nat)
    ensures r <= 4 * |rules|
  {
    if rules == [] then 0 else SeverityRank(rules[0].flag) + TotalRank(rules[1..])
  }

  /** `int(round(total / max(1, n * 4) * 100))`. */
  function ScenarioScore(rules: seq<Finding>): (s: int)
    ensures 0 <= s <= 100
    ensures rules == [] ==> s == 0
  {
    var maxPossible := if 4 * |rules| < 1 then 1 else 4 * |rules|;
    var ratio := TotalRank(rules) as real / maxPossible as real;
    assert 0.0 <= ratio <= 1.0;
    RoundHalfEven(ratio * 100.0)
  }

  /** Findings that are all CRITICAL score 100; findings that are all GREEN score 0. */
  lemma {:induction false} ScoreExtremes(rules: seq<Finding>)
    ensures (forall i :: 0 <= i < |rules| ==> rules[i].flag == CRITICAL) ==> ScenarioScore(rules) == 100 || rules == []
    ensures (forall i :: 0 <= i < |rules| ==> rules[i].flag == GREEN) ==> ScenarioScore(rules) == 0
  {
    if forall i :: 0 <= i < |rules| ==> rules[i].flag == CRITICAL {
      AllRank(rules, CRITICAL);
      if rules != [] {
        assert TotalRank(rules) as real / (4 * |rules|) as real == 1.0;
        assert RoundHalfEven(100.0) == 100;
      }
    }
    if forall i :: 0 <= i < |rules| ==> rules[i].flag == GREEN {
      AllRank(rules, GREEN);
      assert RoundHalfEven(0.0) == 0;
    }
  }

  lemma {:induction false} AllRank(rules: seq<Finding>, f: Flag)
    requires forall i :: 0 <= i < |rules| ==> rules[i].flag == f
    ensures TotalRank(rules) == SeverityRank(f) * |rules|
  {
    if rules != [] {
      AllRank(rules[1..], f);
    }
  }

  /** A higher score is riskier: RED from 70, YELLOW from 40. */
  function SummaryColor(score: int): (c: Flag)
    ensures c == RED <==> score >= 70
    ensures c == YELLOW <==> 40 <= score < 70
    ensures c == GREEN <==> score < 40
  {
    if score >= 70 then RED else if score >= 40 then YELLOW else GREEN
  }

  /** The colour's risk order. */
  function ColorRank(c: Flag): nat { if c == RED then 2 else if c == YELLOW then 1 else 0 }

  /** A higher score never receives a milder colour. */
  lemma ColorMonotone(s1: int, s2: int)
    requires s1 <= s2
    ensures ColorRank(SummaryColor(s1)) <= ColorRank(SummaryColor(s2))
  {
  }

  // ------------------------------------------------------------ the report

  /** One entry of scenarios_detected. */
  datatype Scenario = Scenario(scenario: string, severity: Flag, detail: string)

  /** The narrative: the language model's text, or the fallback when the call raised. */
  datatype Narrative = FromLlm(text: string) | Fallback(lines: seq<Line>)

  datatype RiskReport = RiskReport(
    score: int, keyMetrics: KeyMetrics, trends: seq<(string, Trend)>, narrative: Narrative,
    redFlags: seq<RedFlag>, positives: seq<string>, rules: seq<RuleResult>, color: Flag,
    scenarios: seq<Scenario>)

  /**
   * The outcomes of run: the report, the validation error it returns, the
   * IndexError that `derived[-1]` raises on an empty year list, or the
   * TypeError that build_trend raises on a string year-over-year step.
   */
  datatype RunResult = Report(report: RiskReport) | InputValidationFailed | EmptyInputIndexError | TrendTypeError


  /** The parts of the report assemble derives from the findings, the key metrics and the trends. */
  predicate Assembled(rep: RiskReport, rules: seq<Finding>, keyMetrics: KeyMetrics, trends: seq<(string, Trend)>,
                      llm: Option<string>)
  {
    && rep.rules == ResultsOf(rules) && rep.keyMetrics == keyMetrics && rep.trends == trends
    && rep.redFlags == RedFlagsOf(rules) && rep.positives == PositivesOf(rules)
    && rep.score == ScenarioScore(rules) && 0 <= rep.score <= 100
    && rep.color == SummaryColor(rep.score)
    && (llm.Some? ==> rep.narrative == FromLlm(llm.value))
    && (llm.None? ==> rep.narrative.Fallback? && |rep.narrative.lines| == |Dedup(Names(rules))|)
    && |rep.scenarios| == |rules|
    && (forall i :: 0 <= i < |rules| ==> rep.scenarios[i] == Scenario(rules[i].rule_name, rules[i].flag, rules[i].reason))
  }

  /** The parts of the report computed from the findings. */
  method Assemble(rules: seq<Finding>, keyMetrics: KeyMetrics, trends: seq<(string, Trend)>, llm: Option<string>)
    returns (rep: RiskReport)
    ensures Assembled(rep, rules, keyMetrics, trends, llm)
  {
    var redFlags, positives := Partition(rules);
    var score := ScenarioScore(rules);
    ScoreExtremes(rules);
    var color := SummaryColor(score);
    var narrative := Narrate(rules, llm);
    var scenarios := seq(|rules|, j requires 0 <= j < |rules| => Scenario(rules[j].rule_name, rules[j].flag, rules[j].reason));
    rep := RiskReport(score, keyMetrics, trends, narrative, redFlags, positives, ResultsOf(rules), color, scenarios);
  }

  /** The language model's text when the call answered, the fallback narrative when it raised. */
  method Narrate(rules: seq<Finding>, llm: Option<string>) returns (narrative: Narrative)
    ensures llm.Some? ==> narrative == FromLlm(llm.value)
    ensures llm.None? ==> narrative.Fallback? && |narrative.lines| == |Dedup(Names(rules))|
  {
    if llm.Some? {
      narrative := FromLlm(llm.value);
    } else {
      var lines := GenerateFallbackNarrative(rules);
      narrative := Fallback(lines);
    }
  }

  /** Every enriched year has ebit equal to operating_profit. */
  predicate EbitAgrees(ys: seq<Dict>)
  {
    forall j :: 0 <= j < |ys| ==> Get(ys[j], Ebit) == Get(ys[j], OperatingProfit)
  }

  /** The enriched years agree on ebit. */
  lemma EnrichAllFacts(years: seq<Dict>)
    requires |years| <= 5
    ensures EbitAgrees(EnrichAll(years))
  {
    var ys := EnrichAll(years);
    forall j | 0 <= j < |ys| ensures Get(ys[j], Ebit) == Get(ys[j], OperatingProfit) {
      EnrichedEbit(years[j], j);
    }
  }

  /** The records handed to the engine all have an ebit. */
  lemma RecordsEbit(ys: seq<Dict>, parse: string -> Option<real>)
    requires AllValidate(ys, parse) && EbitAgrees(ys)
    ensures forall i :: 0 <= i < |ys| ==> EbitDefined(Records(ys, parse)[i])
  {
    forall i | 0 <= i < |ys| ensures EbitDefined(Records(ys, parse)[i]) {
      assert Validates(ys[i], parse);
      assert Get(ys[i], Ebit) == Get(ys[i], OperatingProfit);
    }
  }

  /** The report run builds from validated, enriched years. */
  predicate ReportFor(rep: RiskReport, ys: seq<Dict>, overrides: map<Key, real>, parse: string -> Option<real>,
                      llm: Option<string>)
    requires AllValidate(ys, parse) && |ys| > 0
  {
    && Assembled(rep, EvaluateSpec(Merge(overrides), Records(ys, parse)), KeyMetricsOf(DerivedOf(ys[|ys| - 1], parse)),
                 rep.trends, llm)
    && |rep.trends| == |TrendKeys|
    && (forall t :: 0 <= t < |TrendKeys| ==> rep.trends[t].0 == TrendKeys[t].1 && |rep.trends[t].1.values| == |ys|)
  }

  /**
   * The key metrics, the trends and the rest of the report, once the
   * findings are known; TrendTypeError when a trend raises.
   */
  method Finish(ys: seq<Dict>, derived: seq<Dict>, rules: seq<Finding>, overrides: map<Key, real>,
                parse: string -> Option<real>, llm: Option<string>)
    returns (result: RunResult)
    requires AllValidate(ys, parse) && |ys| > 0
    requires derived == DerivedAll(ys, parse)
    requires rules == EvaluateSpec(Merge(overrides), Records(ys, parse))
    ensures result.Report? || result.TrendTypeError?
    ensures result.TrendTypeError? <==> AnyTrendRaises(derived)
    ensures result.Report? ==> ReportFor(result.report, ys, overrides, parse, llm)
    ensures result.Report? ==> result.report.keyMetrics == KeyMetricsOf(DerivedOf(ys[|ys| - 1], parse))
  {
    var keyMetrics := KeyMetricsOf(derived[|derived| - 1]);
    var trends := BuildTrends(derived);
    if trends.None? {
      return TrendTypeError;
    }
    var report := Assemble(rules, keyMetrics, trends.value, llm);
    result := Report(report);
  }

  /** Everything run does after the enrichment loop succeeded. */
  method Analyse(ys: seq<Dict>, overrides: map<Key, real>, parse: string -> Option<real>, llm: Option<string>)
    returns (result: RunResult)
    requires AllValidate(ys, parse) && EbitAgrees(ys)
    ensures result.EmptyInputIndexError? <==> ys == []
    ensures result.TrendTypeError? <==> ys != [] && AnyTrendRaises(DerivedAll(ys, parse))
    ensures !result.InputValidationFailed?
    ensures result.Report? ==> |ys| > 0 && ReportFor(result.report, ys, overrides, parse, llm)
    ensures result.Report? ==> result.report.keyMetrics == KeyMetricsOf(DerivedOf(ys[|ys| - 1], parse))
  {
    var derived := DeriveAll(ys, parse);
    var records := Records(ys, parse);
    RecordsEbit(ys, parse);

    var thresholds := Merge(overrides);
    var engine := new RiskRulesEngine(thresholds);
    MergeTwice(overrides);
    var rules := engine.Evaluate(records);

    if |derived| == 0 {
      // `derived[-1]` raises
      return EmptyInputIndexError;
    }
    result := Finish(ys, derived, rules, overrides, parse, llm);
  }

  /** The related-party key metrics of run's report are the manual values of the last input position. */
  lemma ReportRelatedParty(km: KeyMetrics, years: seq<Dict>, parse: string -> Option<real>)
    requires 0 < |years| <= 5
    requires km == KeyMetricsOf(DerivedOf(EnrichAll(years)[|years| - 1], parse))
    ensures km.related_party_sales == Num(ManualRptSales[|years| - 1])
    ensures km.related_party_receivables == Num(ManualRptReceivables[|years| - 1])
  {
    var last := |years| - 1;
    assert EnrichAll(years)[last] == Enriched(years[last], last);
    LastKeyMetrics(years[last], last, parse);
  }

  /**
   * run. `llm` is the language model's answer, None when the call raised;
   * `parse` stands for Python's float() on strings.
   */
  method Run(years: seq<Dict>, overrides: map<Key, real>, parse: string -> Option<real>, llm: Option<string>)
    returns (result: RunResult)
    ensures result.InputValidationFailed? <==> Invalid(years, parse)
    ensures result.EmptyInputIndexError? <==> years == []
    ensures result.TrendTypeError? <==>
              years != [] && !Invalid(years, parse) && AnyTrendRaises(DerivedAll(EnrichAll(years), parse))
    ensures result.Report? ==>
              && 0 < |years| <= 5 && AllValidate(EnrichAll(years), parse)
              && ReportFor(result.report, EnrichAll(years), overrides, parse, llm)
    ensures result.Report? ==>
              && result.report.keyMetrics.related_party_sales == Num(ManualRptSales[|years| - 1])
              && result.report.keyMetrics.related_party_receivables == Num(ManualRptReceivables[|years| - 1])
  {
    var enriched := EnrichYears(years, parse);
    if enriched.None? {
      return InputValidationFailed;
    }
    var ys := enriched.value;
    EnrichAllFacts(years);
    result := Analyse(ys, overrides, parse, llm);
    if result.Report? {
      ReportRelatedParty(result.report.keyMetrics, years, parse);
    }
  }
}
