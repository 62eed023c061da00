/**
 * aiqm_metrics of the asset & intangible quality module: per year, the
 * tangible ratios (asset turnover, age proxy), the intangible ratios
 * (share of total assets, growth, amortization and its ratio) and the R&D
 * spend, real or derived from the change in intangibles.
 */
module AiqmMetrics {
  import opened Common
  import opened Sorting
  import opened AiqmModels
  import WcTrend

  /**
   * derive_intangible_amortization: depreciation shared out by the weight
   * of intangibles in gross block plus intangibles; None without a
   * non-zero depreciation or when that base is 0.
   */
  function DeriveAmortization(intangibles: real, grossBlock: real, depreciation: Option<real>): (r: Option<real>)
    ensures r.None? <==> Falsy(depreciation) || grossBlock + intangibles == 0.0
    ensures r.Some? ==> r.value * (grossBlock + intangibles) == depreciation.value * intangibles
  {
    if Falsy(depreciation) then None
    else
      var base := grossBlock + intangibles;
      if base == 0.0 then None
      else
        var weight := intangibles / base;
        assert weight * base == intangibles;
        assert (depreciation.value * weight) * base == depreciation.value * (weight * base);
        Some(depreciation.value * weight)
  }

  /** With non-negative gross block and intangibles, the derived amortization is a share of depreciation. */
  lemma AmortizationIsShare(intangibles: real, grossBlock: real, depreciation: Option<real>)
    requires intangibles >= 0.0 && grossBlock >= 0.0 && depreciation.Some? && depreciation.value > 0.0
    requires grossBlock + intangibles > 0.0
    ensures var r := DeriveAmortization(intangibles, grossBlock, depreciation);
            r.Some? && 0.0 <= r.value <= depreciation.value
  {
    var d := depreciation.value;
    var base := grossBlock + intangibles;
    var r := DeriveAmortization(intangibles, grossBlock, depreciation);
    assert r.Some? && r.value * base == d * intangibles;
    ShareBounds(r.value, base, d, intangibles);
  }

  lemma ShareBounds(x: real, base: real, d: real, part: real)
    requires base > 0.0 && d > 0.0 && 0.0 <= part <= base
    requires x * base == d * part
    ensures 0.0 <= x <= d
  {
    assert d * part >= 0.0;
    assert x == (d * part) / base;
    assert (d - x) * base == d * (base - part);
    assert d * (base - part) >= 0.0;
    assert d - x == (d * (base - part)) / base;
  }

  /**
   * derive_r_and_d_expense: a given non-zero R&D spend is used as it is;
   * otherwise the change in intangibles, which needs a previous year.
   */
  function DeriveRAndD(current: real, prev: Option<real>, given: Option<real>): (r: Option<real>)
    ensures !Falsy(given) ==> r == given
    ensures Falsy(given) ==> (r.Some? <==> prev.Some?)
    ensures Falsy(given) && prev.Some? ==> r.value + prev.value == current
  {
    if !Falsy(given) then given
    else if prev.None? then None
    else Some(current - prev.value)
  }

  /** One year's dictionary of compute_per_year_metrics ("year_label" repeats the integer year). */
  datatype YearRecord = YearRecord(
    year: int, gross_block: real, accumulated_depreciation: real, net_block: real,
    asset_turnover: Option<real>, asset_age_proxy: Option<real>,
    intangibles: real, intangible_pct_total_assets: Option<real>, intangible_growth_yoy: Option<real>,
    intangible_amortization: Option<real>, amortization_ratio: Option<real>,
    r_and_d_expense: Option<real>, r_and_d_intangible_ratio: Option<real>,
    total_assets: real, revenue: real, cwip: Option<real>)

  /** The amortization of a year: the reported one when non-zero, else derived from depreciation. */
  function Amortization(f: YearInput): Option<real>
  {
    if !Falsy(f.intangible_amortization) then f.intangible_amortization
    else DeriveAmortization(f.intangible_assets, f.gross_block, f.depreciation)
  }

  /** The loop body of compute_per_year_metrics for year `f`, given the previous year's intangibles. */
  function YearRecordOf(f: YearInput, previous: Option<real>): YearRecord
  {
    var amortization := Amortization(f);
    var rd := DeriveRAndD(f.intangible_assets, previous, f.r_and_d_expense);
    YearRecord(
      f.year, f.gross_block, f.accumulated_depreciation, f.net_block,
      SafeDiv(Some(f.revenue), Some(f.net_block)),
      SafeDiv(Some(f.accumulated_depreciation), Some(f.gross_block)),
      f.intangible_assets,
      SafeDiv(Some(f.intangible_assets), Some(f.total_assets)),
      if previous.Some? then WcTrend.Yoy(Some(f.intangible_assets), previous) else None,
      amortization,
      SafeDiv(amortization, Some(f.intangible_assets)),
      rd,
      if previous.Some? then SafeDiv(rd, Some(f.intangible_assets - previous.value)) else None,
      f.total_assets, f.revenue, f.cwip)
  }

  function YearKey(f: YearInput): int { f.year }

  /** The intangibles the loop carries into position i of the sorted years. */
  function PrevIntangibles(s: seq<YearInput>, i: nat): Option<real>
    requires i <= |s|
  {
    if i == 0 then None else Some(s[i - 1].intangible_assets)
  }

  /** The (year, record) pairs the loop stores, in sorted order. */
  function Entries(s: seq<YearInput>): (e: seq<(int, YearRecord)>)
    ensures |e| == |s|
  {
    seq(|s|, i requires 0 <= i < |s| => (s[i].year, YearRecordOf(s[i], PrevIntangibles(s, i))))
  }

  /** compute_per_year_metrics: the year-keyed dictionary, in ascending year order. */
  function PerYearOf(financials: seq<YearInput>): seq<(int, YearRecord)>
  {
    StoreAll(Entries(SortBy(financials, YearKey)))
  }

  /** Storing entry i extends the dictionary of the entries before it. */
  lemma EntriesStep(s: seq<YearInput>, i: nat)
    requires i < |s|
    ensures StoreAll(Entries(s)[..i + 1]) == Store(StoreAll(Entries(s)[..i]), s[i].year, YearRecordOf(s[i], PrevIntangibles(s, i)))
    ensures PrevIntangibles(s, i + 1) == Some(s[i].intangible_assets)
  {
    var pre := Entries(s)[..i + 1];
    assert pre[..i] == Entries(s)[..i];
  }

  /** compute_per_year_metrics, the loop that carries the previous year's intangibles. */
  method ComputePerYearMetrics(financials: seq<YearInput>) returns (metrics: seq<(int, YearRecord)>)
    ensures metrics == PerYearOf(financials)
  {
    var sorted := SortBy(financials, YearKey);
    ghost var kv := Entries(sorted);
    metrics := [];
    var previous: Option<real> := None;
    var i := 0;
    while i < |sorted|
      invariant 0 <= i <= |sorted|
      invariant previous == PrevIntangibles(sorted, i)
      invariant metrics == StoreAll(kv[..i])
    {
      var f := sorted[i];
      var rec := YearRecordOf(f, previous);
      previous := Some(f.intangible_assets);
      EntriesStep(sorted, i);
      metrics := Store(metrics, f.year, rec);
      i := i + 1;
    }
    assert kv[..|sorted|] == kv;
  }

  // ------------------------------------------------------------ properties

  /** The dictionary has one entry per distinct year of the input. */
  lemma {:induction false} PerYearKeys(financials: seq<YearInput>)
    ensures DistinctKeys(PerYearOf(financials))
    ensures KeySet(PerYearOf(financials)) == set f | f in financials :: f.year
  {
    var s := SortBy(financials, YearKey);
    var e := Entries(s);
    forall y ensures y in KeySet(e) <==> y in set f | f in financials :: f.year {
      if y in KeySet(e) {
        var i := KeyIndex(e, y);
        SortedElements(financials, YearKey, i);
      } else if y in set f | f in financials :: f.year {
        var f :| f in financials && f.year == y;
        assert f in multiset(s) by { assert f in multiset(financials); }
        var i :| 0 <= i < |s| && s[i] == f;
        assert e[i].0 == y;
        KeyListed(e, i);
      }
    }
  }

  /**
   * With distinct years, the record of the i-th year in year order is
   * computed against the intangibles of the year just before it in the
   * input, and no input year lies between the two.
   */
  lemma {:induction false} PerYearRecord(financials: seq<YearInput>, i: nat)
    requires NoDup(Years(financials))
    requires i < |financials|
    ensures var s := SortBy(financials, YearKey);
            && s[i] in financials
            && Lookup(PerYearOf(financials), s[i].year) == Some(YearRecordOf(s[i], PrevIntangibles(s, i)))
            && (i > 0 ==> s[i - 1].year < s[i].year
                          && forall f :: f in financials && f.year < s[i].year ==> f.year <= s[i - 1].year)
  {
    var s := SortBy(financials, YearKey);
    SortedElements(financials, YearKey, i);
    EntriesDistinct(financials);
    var e := Entries(s);
    assert e[i] == (s[i].year, YearRecordOf(s[i], PrevIntangibles(s, i)));
    StoreAllDistinct(e, i);
    if i > 0 {
      PreviousYear(financials, i);
    }
  }

  /** Sorted distinct years store distinct keys. */
  lemma {:induction false} EntriesDistinct(financials: seq<YearInput>)
    requires NoDup(Years(financials))
    ensures DistinctKeys(Entries(SortBy(financials, YearKey)))
  {
    var s := SortBy(financials, YearKey);
    var e := Entries(s);
    SortedNoDup(financials);
    forall a, b | 0 <= a < b < |e| ensures e[a].0 != e[b].0 {
      assert e[a].0 == s[a].year && e[b].0 == s[b].year;
      assert Years(s)[a] != Years(s)[b];
    }
  }

  /** In year order, the year before position i is the latest input year below it. */
  lemma {:induction false} PreviousYear(financials: seq<YearInput>, i: nat)
    requires NoDup(Years(financials))
    requires 0 < i < |financials|
    ensures var s := SortBy(financials, YearKey);
            && s[i - 1].year < s[i].year
            && forall f :: f in financials && f.year < s[i].year ==> f.year <= s[i - 1].year
  {
    var s := SortBy(financials, YearKey);
    SortedNoDup(financials);
    assert Years(s)[i - 1] != Years(s)[i];
    assert YearKey(s[i - 1]) <= YearKey(s[i]);
    forall f | f in financials && f.year < s[i].year ensures f.year <= s[i - 1].year {
      assert f in multiset(s) by { assert f in multiset(financials); }
      var k :| 0 <= k < |s| && s[k] == f;
      assert YearKey(s[k]) < YearKey(s[i]);
      assert k < i;
      assert YearKey(s[k]) <= YearKey(s[i - 1]);
    }
  }

  /** Sorting a list of distinct years keeps the years distinct. */
  lemma {:induction false} SortedNoDup(financials: seq<YearInput>)
    requires NoDup(Years(financials))
    ensures NoDup(Years(SortBy(financials, YearKey)))
  {
    var s := SortBy(financials, YearKey);
    assert NoDup(financials) by {
      forall i, j | 0 <= i < j < |financials| ensures financials[i] != financials[j] {
        assert Years(financials)[i] != Years(financials)[j];
      }
    }
    NoDupPerm(financials, s);
    forall i, j | 0 <= i < j < |s| ensures s[i].year != s[j].year {
      SortedElements(financials, YearKey, i);
      SortedElements(financials, YearKey, j);
      var ki :| 0 <= ki < |financials| && financials[ki] == s[i];
      var kj :| 0 <= kj < |financials| && financials[kj] == s[j];
      assert ki != kj;
      assert Years(financials)[ki] == s[i].year && Years(financials)[kj] == s[j].year;
    }
  }

  /** The first year in year order has no growth and no R&D ratio; its R&D is the given one or none. */
  lemma FirstYearRecord(f: YearInput)
    ensures var r := YearRecordOf(f, None);
            && r.intangible_growth_yoy.None? && r.r_and_d_intangible_ratio.None?
            && r.r_and_d_expense == (if Falsy(f.r_and_d_expense) then None else f.r_and_d_expense)
  {
  }

  /**
   * Intangible growth and the R&D ratio with a previous year: growth is
   * the YoY change of intangibles; a derived R&D spend equals the
   * addition, so its ratio is exactly 1 unless intangibles did not move;
   * a given spend is divided by the addition.
   */
  lemma LaterYearRecord(f: YearInput, prev: real)
    ensures var r := YearRecordOf(f, Some(prev));
            && r.intangible_growth_yoy == WcTrend.Yoy(Some(f.intangible_assets), Some(prev))
            && (Falsy(f.r_and_d_expense) ==>
                  r.r_and_d_expense == Some(f.intangible_assets - prev)
                  && (r.r_and_d_intangible_ratio.Some? <==> f.intangible_assets != prev)
                  && (r.r_and_d_intangible_ratio.Some? ==> r.r_and_d_intangible_ratio.value == 1.0))
            && (!Falsy(f.r_and_d_expense) && f.intangible_assets != prev ==>
                  r.r_and_d_intangible_ratio.Some?
                  && r.r_and_d_intangible_ratio.value * (f.intangible_assets - prev) == f.r_and_d_expense.value)
  {
    var r := YearRecordOf(f, Some(prev));
    if Falsy(f.r_and_d_expense) && f.intangible_assets != prev {
      var a := f.intangible_assets - prev;
      assert r.r_and_d_intangible_ratio == SafeDiv(Some(a), Some(a));
      assert a / a == 1.0;
    }
  }

  /**
   * The tangible and intangible ratios of a year, each None exactly when
   * its denominator is 0, and the amortization: the reported one when
   * non-zero, otherwise derived.
   */
  lemma YearRatios(f: YearInput, previous: Option<real>)
    ensures var r := YearRecordOf(f, previous);
            && (r.asset_turnover.Some? <==> f.net_block != 0.0)
            && (r.asset_turnover.Some? ==> r.asset_turnover.value * f.net_block == f.revenue)
            && (r.asset_age_proxy.Some? <==> f.gross_block != 0.0)
            && (r.asset_age_proxy.Some? ==> r.asset_age_proxy.value * f.gross_block == f.accumulated_depreciation)
            && (r.intangible_pct_total_assets.Some? <==> f.total_assets != 0.0)
            && (!Falsy(f.intangible_amortization) ==> r.intangible_amortization == f.intangible_amortization)
            && (Falsy(f.intangible_amortization) ==>
                  r.intangible_amortization == DeriveAmortization(f.intangible_assets, f.gross_block, f.depreciation))
            && (r.amortization_ratio.Some? <==> r.intangible_amortization.Some? && f.intangible_assets != 0.0)
            && (r.amortization_ratio.Some? ==>
                  r.amortization_ratio.value * f.intangible_assets == r.intangible_amortization.value)
  {
  }
}
