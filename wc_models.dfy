/**
 * The working-capital module's input records: one year's amounts with
 * their 0.0 defaults, the benchmark defaults, and the root validator that
 * refuses a list in which a year occurs twice.
 */
module WcModels {
  import opened Common

  /** The five amounts of a YearFinancialInput that the module reads. */
  datatype Amount = Receivables | Payables | Inventory | Revenue | Cogs

  /** YearFinancialInput restricted to the fields the module reads. */
  datatype YearInput = YearInput(year: int, trade_receivables: real, trade_payables: real,
                                 inventory: real, revenue: real, cogs: real)

  function AmountOf(f: YearInput, a: Amount): real
  {
    match a
    case Receivables => f.trade_receivables
    case Payables => f.trade_payables
    case Inventory => f.inventory
    case Revenue => f.revenue
    case Cogs => f.cogs
  }

  /** Building a YearFinancialInput from the fields given: an amount left out is 0.0. */
  function MakeYearInput(year: int, given: map<Amount, real>): (r: YearInput)
    ensures r.year == year
    ensures forall a :: AmountOf(r, a) == if a in given then given[a] else 0.0
  {
    var get := (a: Amount) => if a in given then given[a] else 0.0;
    YearInput(year, get(Receivables), get(Payables), get(Inventory), get(Revenue), get(Cogs))
  }

  /** WorkingCapitalBenchmarks. */
  datatype Benchmarks = Benchmarks(
    critical_ccc: int, moderate_ccc: int,
    dso_high: int, dso_moderate: int,
    dio_high: int, dio_moderate: int,
    dpo_high: int, dpo_low: int,
    nwc_revenue_critical_ratio: real, nwc_revenue_moderate_ratio: real,
    receivable_growth_threshold: real, inventory_growth_threshold: real)

  /** The default benchmarks; in every pair the moderate bound lies below the critical one. */
  function DefaultBenchmarks(): (b: Benchmarks)
    ensures b.moderate_ccc < b.critical_ccc
    ensures b.dso_moderate < b.dso_high
    ensures b.dio_moderate < b.dio_high
    ensures b.dpo_low < b.dpo_high
    ensures b.nwc_revenue_moderate_ratio < b.nwc_revenue_critical_ratio
  {
    Benchmarks(180, 120, 75, 60, 120, 90, 90, 30, 0.25, 0.15, 0.20, 0.20)
  }

  /** WorkingCapitalInput (the nested FinancialData holds only the year list). */
  datatype WcInput = WcInput(company: string, year: Option<int>, financial_years: seq<YearInput>,
                             benchmarks: Option<Benchmarks>)

  datatype Parsed = DuplicateYear | Parsed(input: WcInput)

  /** `set(years)`. */
  function YearSet(fs: seq<YearInput>): set<int>
  {
    if fs == [] then {} else YearSet(fs[..|fs| - 1]) + {fs[|fs| - 1].year}
  }

  /** The set holds exactly the years of the list. */
  lemma {:induction false} YearSetMembers(fs: seq<YearInput>)
    ensures forall y :: y in YearSet(fs) <==> exists i :: 0 <= i < |fs| && fs[i].year == y
  {
    if fs != [] {
      var init := fs[..|fs| - 1];
      assert forall i :: 0 <= i < |init| ==> init[i] == fs[i];
      YearSetMembers(init);
    }
  }

  predicate DistinctYears(fs: seq<YearInput>)
  {
    forall i, j :: 0 <= i < j < |fs| ==> fs[i].year != fs[j].year
  }

  /** The set of years is as large as the list exactly when no year repeats. */
  lemma {:induction false} YearSetSize(fs: seq<YearInput>)
    ensures |YearSet(fs)| <= |fs|
    ensures |YearSet(fs)| == |fs| <==> DistinctYears(fs)
  {
    if fs != [] {
      var init := fs[..|fs| - 1];
      var y := fs[|fs| - 1].year;
      assert forall i :: 0 <= i < |init| ==> init[i] == fs[i];
      YearSetSize(init);
      YearSetMembers(init);
      if y in YearSet(init) {
        var i :| 0 <= i < |init| && init[i].year == y;
        assert fs[i].year == fs[|fs| - 1].year;
      } else {
        assert DistinctYears(fs) <==> DistinctYears(init);
      }
    }
  }

  /**
   * Constructing a WorkingCapitalInput: the root validator compares the
   * number of years with the size of their set and refuses the input when
   * they differ, that is, when some year occurs twice.
   */
  function ParseInput(company: string, year: Option<int>, years: seq<YearInput>,
                      benchmarks: Option<Benchmarks>): (r: Parsed)
    ensures r.DuplicateYear? <==> exists i, j :: 0 <= i < j < |years| && years[i].year == years[j].year
    ensures r.Parsed? ==> r.input == WcInput(company, year, years, benchmarks)
  {
    YearSetSize(years);
    if |YearSet(years)| != |years| then DuplicateYear
    else Parsed(WcInput(company, year, years, benchmarks))
  }
}
