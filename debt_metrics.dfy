/**
 * The borrowings module's per-year metrics: total debt and its split,
 * the leverage and coverage ratios, and the fields that only the latest
 * year receives (floating-rate share, weighted average cost of debt and
 * the maturity profile), keyed by year.
 */
module DebtMetrics {
  import opened Common
  import opened Sorting

  /** A YearFinancialInput of the borrowings module; every amount may be None. */
  datatype YearInput = YearInput(
    year: int,
    short_term_debt: Option<real>, long_term_debt: Option<real>, total_equity: Option<real>,
    revenue: Option<real>, ebitda: Option<real>, ebit: Option<real>, finance_cost: Option<real>,
    capex: Option<real>, cwip: Option<real>,
    total_debt_maturing_lt_1y: Option<real>, total_debt_maturing_1_3y: Option<real>,
    total_debt_maturing_gt_3y: Option<real>, weighted_avg_interest_rate: Option<real>,
    floating_rate_debt: Option<real>, fixed_rate_debt: Option<real>)

  function YearOf(f: YearInput): int { f.year }

  /** One entry of the `midd` dictionary: absent, present with None, or present with a number. */
  datatype Entry = Missing | Null | Given(v: real)

  /** The latest-year dictionary `midd`, by the keys compute_per_year_metrics reads. */
  datatype Midd = Midd(floating_rate_debt: Entry, weighted_avg_interest_rate: Entry,
                       total_debt_maturing_lt_1y: Entry, total_debt_maturing_1_3y: Entry,
                       total_debt_maturing_gt_3y: Entry)

  /** `midd.get(key)`: the number, or None when the key is absent or holds None. */
  function Get(e: Entry): (r: Option<real>)
    ensures r.Some? <==> e.Given?
    ensures r.Some? ==> r.value == e.v
  {
    if e.Given? then Some(e.v) else None
  }

  /** `midd.get('floating_rate_debt', 0)`: 0 when the key is absent, None when it holds None. */
  function FloatInput(midd: Midd): (r: Option<real>)
    ensures r.None? <==> midd.floating_rate_debt.Null?
    ensures midd.floating_rate_debt.Missing? ==> r == Some(0.0)
    ensures midd.floating_rate_debt.Given? ==> r == Some(midd.floating_rate_debt.v)
  {
    match midd.floating_rate_debt
    case Missing => Some(0.0)
    case Null => None
    case Given(v) => Some(v)
  }

  /**
   * The floating-rate share: an input in (0, 1] is already a share and is
   * taken as it is; any other input is an amount and is divided by the
   * total debt.
   */
  function FloatingShare(input: real, totalDebt: real): (r: Option<real>)
    ensures 0.0 < input <= 1.0 ==> r == Some(input)
    ensures !(0.0 < input <= 1.0) ==> (r.None? <==> totalDebt == 0.0)
    ensures !(0.0 < input <= 1.0) && r.Some? ==> r.value * totalDebt == input
  {
    if input <= 1.0 && input > 0.0 then Some(input) else SafeDiv(Some(input), Some(totalDebt))
  }

  /** The dictionary `m` compute_per_year_metrics stores for one year. */
  datatype DebtYear = DebtYear(
    year: int, total_debt: real,
    short_term_debt: Option<real>, long_term_debt: Option<real>, finance_cost: Option<real>,
    revenue: Option<real>, ebitda: Option<real>, cwip: Option<real>, total_assets: real,
    st_debt_share: Option<real>, de_ratio: Option<real>, debt_ebitda: Option<real>,
    interest_coverage: Option<real>,
    floating_share: Option<real>, wacd: Option<real>,
    maturity_lt_1y_pct: Option<real>, maturity_1_3y_pct: Option<real>, maturity_gt_3y_pct: Option<real>)

  /** Short-term plus long-term debt, a missing part counting as 0. */
  function TotalDebt(f: YearInput): real
  {
    OrZero(f.short_term_debt) + OrZero(f.long_term_debt)
  }

  /** The entries every year receives; the midd fields are None. */
  function BaseOf(f: YearInput): (m: DebtYear)
  {
    var td := TotalDebt(f);
    DebtYear(f.year, td, f.short_term_debt, f.long_term_debt, f.finance_cost, f.revenue,
             f.ebitda, f.cwip, OrZero(f.total_equity) + td,
             SafeDiv(f.short_term_debt, Some(td)), SafeDiv(Some(td), f.total_equity),
             SafeDiv(Some(td), f.ebitda), SafeDiv(f.ebit, f.finance_cost),
             None, None, None, None, None)
  }

  /** The latest year's additions: `floatInput` is `midd.get('floating_rate_debt', 0)`. */
  function WithMidd(m: DebtYear, floatInput: real, midd: Midd): DebtYear
  {
    m.(floating_share := FloatingShare(floatInput, m.total_debt),
       wacd := Get(midd.weighted_avg_interest_rate),
       maturity_lt_1y_pct := SafeDiv(Get(midd.total_debt_maturing_lt_1y), Some(m.total_debt)),
       maturity_1_3y_pct := SafeDiv(Get(midd.total_debt_maturing_1_3y), Some(m.total_debt)),
       maturity_gt_3y_pct := SafeDiv(Get(midd.total_debt_maturing_gt_3y), Some(m.total_debt)))
  }

  /** One record's metrics; `latest` says whether the record has the latest year. */
  function MetricsOf(f: YearInput, latest: bool, floatInput: real, midd: Midd): (m: DebtYear)
    ensures m.year == f.year && m.total_assets == OrZero(f.total_equity) + m.total_debt
    ensures !latest ==> m.floating_share.None? && m.wacd.None? && m.maturity_lt_1y_pct.None?
                        && m.maturity_1_3y_pct.None? && m.maturity_gt_3y_pct.None?
    ensures m.de_ratio.Some? ==> f.total_equity.Some? && m.de_ratio.value * f.total_equity.value == m.total_debt
  {
    if latest then WithMidd(BaseOf(f), floatInput, midd) else BaseOf(f)
  }

  /**
   * The entries of one year: total debt and total assets, the copied
   * amounts, the four ratios (None on a zero or missing denominator), and
   * the midd fields, which are None unless the year is the latest.
   */
  lemma MetricsOfFields(f: YearInput, latest: bool, floatInput: real, midd: Midd)
    ensures var m := MetricsOf(f, latest, floatInput, midd);
      && m.year == f.year
      && m.total_debt == OrZero(f.short_term_debt) + OrZero(f.long_term_debt)
      && m.total_assets == OrZero(f.total_equity) + m.total_debt
      && m.short_term_debt == f.short_term_debt && m.long_term_debt == f.long_term_debt
      && m.finance_cost == f.finance_cost && m.revenue == f.revenue
      && m.ebitda == f.ebitda && m.cwip == f.cwip
      && (m.st_debt_share.None? <==> f.short_term_debt.None? || m.total_debt == 0.0)
      && (m.de_ratio.None? <==> Falsy(f.total_equity))
      && (m.debt_ebitda.None? <==> Falsy(f.ebitda))
      && (m.interest_coverage.None? <==> f.ebit.None? || Falsy(f.finance_cost))
      && (m.de_ratio.Some? ==> m.de_ratio.value * f.total_equity.value == m.total_debt)
      && (m.debt_ebitda.Some? ==> m.debt_ebitda.value * f.ebitda.value == m.total_debt)
      && (m.interest_coverage.Some? ==> m.interest_coverage.value * f.finance_cost.value == f.ebit.value)
      && (!latest ==> m.floating_share.None? && m.wacd.None? && m.maturity_lt_1y_pct.None?
                      && m.maturity_1_3y_pct.None? && m.maturity_gt_3y_pct.None?)
      && (latest ==> m.floating_share == FloatingShare(floatInput, m.total_debt)
                     && m.wacd == Get(midd.weighted_avg_interest_rate)
                     && m.maturity_lt_1y_pct == SafeDiv(Get(midd.total_debt_maturing_lt_1y), Some(m.total_debt))
                     && m.maturity_1_3y_pct == SafeDiv(Get(midd.total_debt_maturing_1_3y), Some(m.total_debt))
                     && m.maturity_gt_3y_pct == SafeDiv(Get(midd.total_debt_maturing_gt_3y), Some(m.total_debt)))
  {
  }

  /**
   * The outcome of compute_per_year_metrics: the dictionary, or the
   * TypeError of comparing a floating-rate entry that holds None.
   */
  datatype PerYearResult = FloatTypeError | PerYear(metrics: seq<(int, DebtYear)>)

  /** Each sorted record's year paired with its metrics. */
  function Entries(s: seq<YearInput>, latestYear: int, floatInput: real, midd: Midd): (kv: seq<(int, DebtYear)>)
    ensures |kv| == |s|
  {
    if s == [] then []
    else
      var f := s[|s| - 1];
      Entries(s[..|s| - 1], latestYear, floatInput, midd) + [(f.year, MetricsOf(f, f.year == latestYear, floatInput, midd))]
  }

  lemma {:induction false} EntriesAt(s: seq<YearInput>, latestYear: int, floatInput: real, midd: Midd, i: nat)
    requires i < |s|
    ensures Entries(s, latestYear, floatInput, midd)[i]
            == (s[i].year, MetricsOf(s[i], s[i].year == latestYear, floatInput, midd))
  {
    if i < |s| - 1 {
      EntriesAt(s[..|s| - 1], latestYear, floatInput, midd, i);
    }
  }

  /**
   * What compute_per_year_metrics computes: {} for no records; otherwise
   * the metrics of the records sorted by year, each stored under its year,
   * with the latest-year fields for the records of the last sorted year.
   */
  function PerYearOf(financials: seq<YearInput>, midd: Midd): PerYearResult
  {
    var sorted := SortBy(financials, YearOf);
    if sorted == [] then PerYear([])
    else if FloatInput(midd).None? then FloatTypeError
    else PerYear(StoreAll(Entries(sorted, sorted[|sorted| - 1].year, FloatInput(midd).value, midd)))
  }

  /**
   * The body of compute_per_year_metrics's loop for one record: None for
   * the TypeError, otherwise the dictionary `m` of the record.
   */
  method YearEntry(f: YearInput, latestYear: int, midd: Midd) returns (r: Option<DebtYear>)
    ensures r.None? <==> f.year == latestYear && FloatInput(midd).None?
    ensures r.Some? ==> r.value == MetricsOf(f, f.year == latestYear, OrZero(FloatInput(midd)), midd)
  {
    var totalDebt := OrZero(f.short_term_debt) + OrZero(f.long_term_debt);
    var m := BaseOf(f);
    if f.year == latestYear {
      var floatInput := FloatInput(midd);
      if floatInput.None? {
        return None;
      }
      if floatInput.value <= 1.0 && floatInput.value > 0.0 {
        m := m.(floating_share := floatInput);
      } else {
        m := m.(floating_share := SafeDiv(floatInput, Some(totalDebt)));
      }
      m := m.(wacd := Get(midd.weighted_avg_interest_rate));
      m := m.(maturity_lt_1y_pct := SafeDiv(Get(midd.total_debt_maturing_lt_1y), Some(totalDebt)));
      m := m.(maturity_1_3y_pct := SafeDiv(Get(midd.total_debt_maturing_1_3y), Some(totalDebt)));
      m := m.(maturity_gt_3y_pct := SafeDiv(Get(midd.total_debt_maturing_gt_3y), Some(totalDebt)));
    }
    return Some(m);
  }

  /**
   * The loop of compute_per_year_metrics over the sorted records, whose
   * last record has the latest year.
   */
  method StoreYears(sorted: seq<YearInput>, latestYear: int, midd: Midd) returns (r: PerYearResult)
    requires sorted != [] && sorted[|sorted| - 1].year == latestYear
    ensures FloatInput(midd).None? ==> r == FloatTypeError
    ensures FloatInput(midd).Some? ==> r == PerYear(StoreAll(Entries(sorted, latestYear, FloatInput(midd).value, midd)))
  {
    var metrics: seq<(int, DebtYear)> := [];
    ghost var fi := OrZero(FloatInput(midd));
    var i := 0;
    while i < |sorted|
      invariant 0 <= i <= |sorted|
      invariant metrics == StoreAll(Entries(sorted[..i], latestYear, fi, midd))
      invariant i == |sorted| ==> FloatInput(midd).Some?
    {
      var m := YearEntry(sorted[i], latestYear, midd);
      if m.None? {
        return FloatTypeError;
      }
      metrics := Store(metrics, sorted[i].year, m.value);
      assert sorted[..i + 1][..i] == sorted[..i];
      i := i + 1;
    }
    assert sorted[..i] == sorted;
    return PerYear(metrics);
  }

  /** compute_per_year_metrics. */
  method ComputePerYearMetrics(financials: seq<YearInput>, midd: Midd) returns (r: PerYearResult)
    ensures r == PerYearOf(financials, midd)
  {
    var sorted := SortBy(financials, YearOf);
    if sorted == [] {
      return PerYear([]);
    }
    var latestYear := sorted[|sorted| - 1].year;
    r := StoreYears(sorted, latestYear, midd);
  }

  // ------------------------------------------------------------ properties

  /** The largest year among the records. */
  function MaxYear(s: seq<YearInput>): (y: int)
    requires s != []
    ensures exists i :: 0 <= i < |s| && s[i].year == y
    ensures forall i :: 0 <= i < |s| ==> s[i].year <= y
  {
    if |s| == 1 then s[0].year
    else
      var rest := MaxYear(s[1..]);
      assert forall i :: 1 <= i < |s| ==> s[i] == s[1..][i - 1];
      if s[0].year < rest then rest else s[0].year
  }

  /** The last record after sorting has the largest year. */
  lemma LastSortedIsMax(s: seq<YearInput>)
    requires s != []
    ensures SortBy(s, YearOf) != []
    ensures SortBy(s, YearOf)[|s| - 1].year == MaxYear(s)
  {
    var r := SortBy(s, YearOf);
    var last := |s| - 1;
    SortedElements(s, YearOf, last);
    var k :| 0 <= k < |s| && s[k] == r[last];
    assert r[last].year <= MaxYear(s);
    var i :| 0 <= i < |s| && s[i].year == MaxYear(s);
    SortedLastBound(s, YearOf, i);
    assert YearOf(s[i]) <= YearOf(r[last]);
  }

  /**
   * The outcome: {} exactly for no records, the TypeError exactly when
   * there are records and the floating-rate entry holds None, and
   * otherwise a dictionary with one entry per year of the records.
   */
  lemma PerYearOutcome(financials: seq<YearInput>, midd: Midd)
    ensures PerYearOf(financials, midd) == PerYear([]) <==> financials == []
    ensures PerYearOf(financials, midd).FloatTypeError? <==> financials != [] && midd.floating_rate_debt.Null?
    ensures PerYearOf(financials, midd).PerYear? ==>
              var metrics := PerYearOf(financials, midd).metrics;
              DistinctKeys(metrics) && forall j :: 0 <= j < |financials| ==> financials[j].year in KeySet(metrics)
  {
    var sorted := SortBy(financials, YearOf);
    if sorted != [] && FloatInput(midd).Some? {
      var kv := Entries(sorted, sorted[|sorted| - 1].year, FloatInput(midd).value, midd);
      KeyListed(kv, 0);
      EntriesAt(sorted, sorted[|sorted| - 1].year, FloatInput(midd).value, midd, 0);
      assert KeySet(StoreAll(kv)) != {};
      forall j | 0 <= j < |financials| ensures financials[j].year in KeySet(StoreAll(kv)) {
        assert financials[j] in multiset(sorted) by { assert financials[j] in multiset(financials); }
        var k :| 0 <= k < |sorted| && sorted[k] == financials[j];
        KeyListed(kv, k);
        EntriesAt(sorted, sorted[|sorted| - 1].year, FloatInput(midd).value, midd, k);
      }
    }
  }

  /**
   * The entry of a year: the metrics of the last record of that year, with
   * the midd fields exactly when the year is the largest one; every
   * earlier year has None for the floating share, WACD and maturities.
   */
  lemma PerYearEntry(financials: seq<YearInput>, midd: Midd, y: int) returns (f: YearInput)
    requires PerYearOf(financials, midd).PerYear?
    requires y in KeySet(PerYearOf(financials, midd).metrics)
    ensures f in financials && f.year == y
    ensures var latest := y == MaxYear(financials);
            Lookup(PerYearOf(financials, midd).metrics, y)
            == Some(MetricsOf(f, latest, OrZero(FloatInput(midd)), midd))
    ensures y <= MaxYear(financials)
  {
    var sorted := SortBy(financials, YearOf);
    LastSortedIsMax(financials);
    var kv := Entries(sorted, sorted[|sorted| - 1].year, FloatInput(midd).value, midd);
    var j := StoreAllLookup(kv, y);
    EntriesAt(sorted, sorted[|sorted| - 1].year, FloatInput(midd).value, midd, j);
    f := sorted[j];
    SortedElements(financials, YearOf, j);
    var i :| 0 <= i < |financials| && financials[i] == f;
  }

  /** Only the latest year carries the midd fields. */
  lemma EarlierYearsHaveNoMidd(financials: seq<YearInput>, midd: Midd, y: int)
    requires PerYearOf(financials, midd).PerYear?
    requires y in KeySet(PerYearOf(financials, midd).metrics)
    requires y != MaxYear(financials)
    ensures Lookup(PerYearOf(financials, midd).metrics, y).Some?
    ensures var m := Lookup(PerYearOf(financials, midd).metrics, y).value;
            m.floating_share.None? && m.wacd.None? && m.maturity_lt_1y_pct.None?
            && m.maturity_1_3y_pct.None? && m.maturity_gt_3y_pct.None?
  {
    var f := PerYearEntry(financials, midd, y);
    MetricsOfFields(f, false, OrZero(FloatInput(midd)), midd);
  }

  /** A missing floating-rate entry counts as 0, which gives a share of 0 unless the total debt is 0. */
  lemma MissingFloatIsZeroShare(totalDebt: real)
    ensures FloatingShare(OrZero(FloatInput(Midd(Missing, Missing, Missing, Missing, Missing))), totalDebt)
            == if totalDebt == 0.0 then None else Some(0.0)
  {
  }
}
