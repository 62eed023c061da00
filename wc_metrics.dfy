/**
 * The working-capital module's per-year metrics: days sales, inventory and
 * payables outstanding, the cash conversion cycle, net working capital and
 * its ratio to revenue, keyed by the integer year.
 */
module WcMetrics {
  import opened Common
  import opened PyStr
  import opened Sorting
  import opened WcModels

  /**
   * calc_dso, calc_dio and calc_dpo: an amount expressed in days of its
   * base (`amount / base * 365`), None when the base is 0.
   */
  function DaysOver(amount: real, base: real): (r: Option<real>)
    ensures r.None? <==> base == 0.0
    ensures r.Some? ==> r.value * base == amount * 365.0
  {
    if base != 0.0 then Some((amount / base) * 365.0) else None
  }

  /** calc_ccc: DSO + DIO - DPO, None as soon as one of them is None. */
  function Ccc(dso: Option<real>, dio: Option<real>, dpo: Option<real>): (r: Option<real>)
    ensures r.None? <==> dso.None? || dio.None? || dpo.None?
    ensures r.Some? ==> r.value + dpo.value == dso.value + dio.value
  {
    if dso.None? || dio.None? || dpo.None? then None else Some(dso.value + dio.value - dpo.value)
  }

  /** calc_nwc: receivables plus inventory less payables; always defined. */
  function Nwc(rec: real, inv: real, pay: real): (r: real)
    ensures r + pay == rec + inv
  {
    rec + inv - pay
  }

  /** calc_nwc_ratio: `safe_div(nwc, revenue)`. */
  function NwcRatio(nwc: real, revenue: real): (r: Option<real>)
    ensures r.None? <==> revenue == 0.0
    ensures r.Some? ==> r.value * revenue == nwc
  {
    SafeDiv(Some(nwc), Some(revenue))
  }

  /** A year as it may arrive: an int, or a label such as "Mar 2024". */
  datatype YearKey = IntYear(n: int) | StrYear(s: string)

  /**
   * extract_year_int: an int is returned unchanged; a label is split on
   * whitespace and its last token read by int(). None stands for the
   * IndexError of a blank label and the ValueError of a non-numeric token.
   */
  function ExtractYearInt(k: YearKey): (r: Option<int>)
    ensures k.IntYear? ==> r == Some(k.n)
    ensures k.StrYear? ==> (r.Some? <==> Split(k.s) != [] && ParseInt(Split(k.s)[|Split(k.s)| - 1]).Some?)
  {
    match k
    case IntYear(n) => Some(n)
    case StrYear(s) =>
      var parts := Split(s);
      if parts == [] then None else ParseInt(parts[|parts| - 1])
  }

  /** A label "<word> <year>", such as "Mar 2024", yields its year. */
  lemma ExtractYearIntLabel(w: string, n: nat)
    requires w != [] && NoSpace(w)
    ensures ExtractYearInt(StrYear(w + " " + Show(n))) == Some(n)
  {
    SplitTwoWords(w, Show(n));
    ParseShow(n);
  }

  /** The dictionary compute_per_year_metrics stores for one year. */
  datatype YearMetrics = YearMetrics(
    year: int, year_label: int,
    trade_receivables: real, inventory: real, trade_payables: real, revenue: real, cogs: real,
    dso: Option<real>, dio: Option<real>, dpo: Option<real>, ccc: Option<real>,
    nwc: real, nwc_ratio: Option<real>)

  /** One year's metrics: the raw amounts copied, the ratios derived from them. */
  function MetricsOf(f: YearInput): (m: YearMetrics)
    ensures m.year == m.year_label == f.year
    ensures m.trade_receivables == f.trade_receivables && m.inventory == f.inventory
    ensures m.trade_payables == f.trade_payables && m.revenue == f.revenue && m.cogs == f.cogs
    ensures m.dso.None? <==> f.revenue == 0.0
    ensures m.dio.None? <==> f.cogs == 0.0
    ensures m.dpo.None? <==> f.cogs == 0.0
    ensures m.ccc.None? <==> f.revenue == 0.0 || f.cogs == 0.0
    ensures m.ccc.Some? ==> m.ccc.value + m.dpo.value == m.dso.value + m.dio.value
    ensures m.nwc + f.trade_payables == f.trade_receivables + f.inventory
    ensures m.nwc_ratio.None? <==> f.revenue == 0.0
  {
    var dso := DaysOver(f.trade_receivables, f.revenue);
    var dio := DaysOver(f.inventory, f.cogs);
    var dpo := DaysOver(f.trade_payables, f.cogs);
    var nwc := Nwc(f.trade_receivables, f.inventory, f.trade_payables);
    YearMetrics(f.year, f.year, f.trade_receivables, f.inventory, f.trade_payables, f.revenue, f.cogs,
                dso, dio, dpo, Ccc(dso, dio, dpo), nwc, NwcRatio(nwc, f.revenue))
  }

  /** The test scenario: receivables 100, payables 50, inventory 80, revenue 1000, COGS 600. */
  lemma MetricsScenario()
    ensures var m := MetricsOf(YearInput(2023, 100.0, 50.0, 80.0, 1000.0, 600.0));
            && m.dso == Some(36.5) && m.ccc == Some(54.75) && m.nwc == 130.0 && m.nwc_ratio == Some(0.13)
            && 48.66 < m.dio.value < 48.67 && 30.41 < m.dpo.value < 30.42
  {
  }

  function YearOf(f: YearInput): int { f.year }

  /** The per-year dictionary, in insertion order. */
  type YearDict = seq<(int, YearMetrics)>

  /** Each record's year paired with its metrics, in order. */
  function Entries(s: seq<YearInput>): (kv: seq<(int, YearMetrics)>)
    ensures |kv| == |s|
    ensures forall i :: 0 <= i < |s| ==> kv[i] == (s[i].year, MetricsOf(s[i]))
  {
    seq(|s|, i requires 0 <= i < |s| => (s[i].year, MetricsOf(s[i])))
  }

  /**
   * The dictionary the loop of compute_per_year_metrics builds from the
   * sorted records: each record's metrics stored under its year, a later
   * record of the same year overwriting an earlier one.
   */
  function PerYear(s: seq<YearInput>): YearDict
  {
    StoreAll(Entries(s))
  }

  /**
   * One entry per year: a year holds an entry exactly when some record has
   * it, and that entry is the metrics of the last record of the year.
   */
  lemma PerYearLookup(s: seq<YearInput>, y: int) returns (j: nat)
    requires y in KeySet(PerYear(s))
    ensures j < |s| && s[j].year == y
    ensures forall k :: j < k < |s| ==> s[k].year != y
    ensures Lookup(PerYear(s), y) == Some(MetricsOf(s[j]))
  {
    j := StoreAllLookup(Entries(s), y);
  }

  /** Every record's year is a key of the dictionary, and the dictionary is empty only for no records. */
  lemma PerYearKeys(s: seq<YearInput>)
    ensures DistinctKeys(PerYear(s))
    ensures forall j :: 0 <= j < |s| ==> s[j].year in KeySet(PerYear(s))
    ensures PerYear(s) == [] <==> s == []
  {
    forall j | 0 <= j < |s| ensures s[j].year in KeySet(PerYear(s)) {
      KeyListed(Entries(s), j);
    }
    if s != [] {
      KeyListed(Entries(s), 0);
    }
  }

  /** compute_per_year_metrics: sorts by year, then stores each record's metrics under its year. */
  method ComputePerYearMetrics(financials: seq<YearInput>) returns (metrics: YearDict)
    ensures metrics == PerYear(SortBy(financials, YearOf))
  {
    var sorted := SortBy(financials, YearOf);
    metrics := [];
    var i := 0;
    while i < |sorted|
      invariant 0 <= i <= |sorted|
      invariant metrics == StoreAll(Entries(sorted[..i]))
    {
      var f := sorted[i];
      var dso := DaysOver(f.trade_receivables, f.revenue);
      var dio := DaysOver(f.inventory, f.cogs);
      var dpo := DaysOver(f.trade_payables, f.cogs);
      var ccc := Ccc(dso, dio, dpo);
      var nwc := Nwc(f.trade_receivables, f.inventory, f.trade_payables);
      var ratio := NwcRatio(nwc, f.revenue);
      var yearInt := ExtractYearInt(IntYear(f.year)).value;
      metrics := Store(metrics, yearInt, YearMetrics(yearInt, f.year, f.trade_receivables, f.inventory,
                                                     f.trade_payables, f.revenue, f.cogs,
                                                     dso, dio, dpo, ccc, nwc, ratio));
      assert Entries(sorted[..i + 1])[..i] == Entries(sorted[..i]);
      i := i + 1;
    }
    assert sorted[..i] == sorted;
  }

  /** A single record gives a one-entry dictionary keyed by its year. */
  lemma PerYearSingle(f: YearInput)
    ensures PerYear(SortBy([f], YearOf)) == [(f.year, MetricsOf(f))]
  {
    assert SortBy([f], YearOf) == [f];
  }
}
