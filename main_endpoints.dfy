/**
 * The two HTTP endpoints' input normalisation: analyze_liquidity derives
 * the balances the liquidity module reads from a company's raw per-year
 * figures, and analyze_borrowings copies each year's figures into the
 * borrowings module's input record. Both upper-case the company name and
 * build one record per input year, in input order.
 */
module Endpoints {
  import opened Common
  import opened PyStr
  import LiquidityMetrics
  import DebtMetrics

  // ------------------------------------------------------------ liquidity

  /** LiquidityYearInput: the raw figures of one year; every field is a required float. */
  datatype LiquidityYearInput = LiquidityYearInput(
    year: int, cash_equivalents: real, investments: real, Trade_receivables: real, inventories: real,
    other_liability_items: real, working_capital_changes: real, profit_from_operations: real,
    direct_taxes: real, expenses: real, depreciation: real, lease_liabilities: real,
    other_borrowings: real, short_term_debt: real, long_term_debt: real, interest: real,
    cash_from_operating_activity: real, interest_paid_fin: real, preference_capital: real)

  /** The per-year record analyze_liquidity builds, restricted to the balances the liquidity module reads. */
  function LiquidityRecord(fy: LiquidityYearInput): (r: LiquidityMetrics.YearFinancials)
    ensures r.year == fy.year && r.cash_and_equivalents == fy.cash_equivalents
    ensures r.current_assets == r.marketable_securities + r.inventory + r.receivables
    ensures r.current_liabilities - r.short_term_debt == fy.other_liability_items
    ensures r.daily_operating_expenses * 365.0 == fy.expenses - fy.depreciation
  {
    LiquidityMetrics.YearFinancials(
      year := fy.year,
      cash_and_equivalents := fy.cash_equivalents,
      receivables := fy.Trade_receivables,
      inventory := fy.inventories,
      current_assets := fy.investments + fy.inventories + fy.Trade_receivables,
      current_liabilities := fy.short_term_debt + fy.other_liability_items,
      short_term_debt := fy.short_term_debt,
      total_debt := fy.short_term_debt + fy.long_term_debt + fy.lease_liabilities + fy.other_borrowings
                    + fy.preference_capital,
      operating_cash_flow := fy.profit_from_operations + fy.working_capital_changes - fy.direct_taxes,
      interest_expense := fy.interest_paid_fin,
      daily_operating_expenses := (fy.expenses - fy.depreciation) / 365.0,
      marketable_securities := fy.investments)
  }

  /**
   * LiquidityModuleInput. Its model declares no thresholds field, so the
   * request's thresholds are dropped when it is built.
   */
  datatype LiquidityModuleInput = LiquidityModuleInput(
    company_id: string, industry_code: string, financials_5y: seq<LiquidityMetrics.YearFinancials>)

  /** LiquidityThresholds, as the request carries them. */
  datatype LiquidityThresholds = LiquidityThresholds(
    min_current_ratio: real, min_quick_ratio: real, min_cash_ratio: real,
    min_dir_days: real, min_ocf_cl: real, min_ocf_debt: real)

  /** The body of analyze_liquidity up to the module's run: the normalised module input. */
  method LiquidityInput(company: string, years: seq<LiquidityYearInput>, thresholds: LiquidityThresholds)
    returns (input: LiquidityModuleInput)
    ensures input.company_id == UpperStr(company) && input.industry_code == "GENERAL"
    ensures |input.financials_5y| == |years|
    ensures forall i :: 0 <= i < |years| ==> input.financials_5y[i] == LiquidityRecord(years[i])
  {
    var companyId := UpperStr(company);
    var finList: seq<LiquidityMetrics.YearFinancials> := [];
    var i := 0;
    while i < |years|
      invariant 0 <= i <= |years| && |finList| == i
      invariant forall j :: 0 <= j < i ==> finList[j] == LiquidityRecord(years[j])
    {
      finList := finList + [LiquidityRecord(years[i])];
      i := i + 1;
    }
    input := LiquidityModuleInput(companyId, "GENERAL", finList);
  }

  /**
   * The balances of a normalised record, as the liquidity module reads
   * them: current assets are investments, inventories and trade
   * receivables; current liabilities are short-term debt and the other
   * liability items; total debt adds the five borrowings; operating cash
   * flow is profit from operations plus working-capital changes less direct
   * taxes; daily operating expenses are expenses net of depreciation over
   * 365 days; interest is the interest paid in financing.
   */
  lemma RecordBalances(fy: LiquidityYearInput)
    ensures var y := LiquidityRecord(fy);
            && y.year == fy.year
            && y.current_assets - y.inventory - y.marketable_securities == fy.Trade_receivables
            && y.current_liabilities - y.short_term_debt == fy.other_liability_items
            && y.total_debt - y.short_term_debt
                 == fy.long_term_debt + fy.lease_liabilities + fy.other_borrowings + fy.preference_capital
            && y.operating_cash_flow + fy.direct_taxes == fy.profit_from_operations + fy.working_capital_changes
            && 365.0 * y.daily_operating_expenses == fy.expenses - fy.depreciation
            && y.interest_expense == fy.interest_paid_fin
  {
  }

  /**
   * The current, quick and cash ratios of a normalised year in the raw
   * figures: each is None exactly when short-term debt and the other
   * liability items sum to 0, and otherwise scales that sum to investments,
   * inventories and receivables; to investments and receivables; to cash.
   */
  lemma RecordRatios(fy: LiquidityYearInput)
    ensures var m := LiquidityMetrics.MetricsOf(LiquidityRecord(fy));
            var cl := fy.short_term_debt + fy.other_liability_items;
            && (m.current_ratio.None? <==> cl == 0.0)
            && (m.current_ratio.Some? ==>
                  m.current_ratio.value * cl == fy.investments + fy.inventories + fy.Trade_receivables)
            && (m.quick_ratio.Some? ==> m.quick_ratio.value * cl == fy.investments + fy.Trade_receivables)
            && (m.cash_ratio.Some? ==> m.cash_ratio.value * cl == fy.cash_equivalents)
  {
    LiquidityMetrics.RatiosOfYear(LiquidityRecord(fy));
  }

  /**
   * The defensive interval of a normalised year is None exactly when
   * expenses equal depreciation, and otherwise covers the yearly expenses
   * net of depreciation by 365 times cash, investments and receivables.
   */
  lemma RecordDefensiveInterval(fy: LiquidityYearInput)
    ensures var d := LiquidityMetrics.MetricsOf(LiquidityRecord(fy)).defensive_interval_ratio_days;
            && (d.None? <==> fy.expenses == fy.depreciation)
            && (d.Some? ==> d.value * (fy.expenses - fy.depreciation)
                              == 365.0 * (fy.cash_equivalents + fy.investments + fy.Trade_receivables))
  {
    var y := LiquidityRecord(fy);
    LiquidityMetrics.DefensiveInterval(y);
    DailyExpenses(fy.expenses - fy.depreciation, LiquidityMetrics.MetricsOf(y).defensive_interval_ratio_days,
                  fy.cash_equivalents + fy.investments + fy.Trade_receivables);
  }

  /**
   * The OCF interest coverage of a normalised year is None exactly when
   * the interest paid in financing is 0, and otherwise scales it to
   * profit from operations plus working-capital changes less direct taxes.
   */
  lemma RecordInterestCoverage(fy: LiquidityYearInput)
    ensures var c := LiquidityMetrics.MetricsOf(LiquidityRecord(fy)).interest_coverage_ocf;
            && (c.None? <==> fy.interest_paid_fin == 0.0)
            && (c.Some? ==> c.value * fy.interest_paid_fin
                              == fy.profit_from_operations + fy.working_capital_changes - fy.direct_taxes)
  {
    LiquidityMetrics.CoverageRatios(LiquidityRecord(fy));
  }

  /** A quotient over a daily figure, restated over the yearly one. */
  lemma DailyExpenses(yearly: real, d: Option<real>, liquid: real)
    requires d.None? <==> yearly / 365.0 == 0.0
    requires d.Some? ==> d.value * (yearly / 365.0) == liquid
    ensures d.None? <==> yearly == 0.0
    ensures d.Some? ==> d.value * yearly == 365.0 * liquid
  {
    if d.Some? {
      assert d.value * yearly == 365.0 * (d.value * (yearly / 365.0));
    }
  }

  /**
   * The reported interest and the reported cash from operating activity
   * do not reach the record: interest is taken from the financing
   * statement and operating cash flow is rebuilt from its parts.
   */
  lemma UnreadFields(fy: LiquidityYearInput, interest: real, cfo: real)
    ensures LiquidityRecord(fy.(interest := interest, cash_from_operating_activity := cfo))
              == LiquidityRecord(fy)
  {
  }

  // ------------------------------------------------------------ borrowings

  /**
   * FinancialYearInput of the borrowings endpoint: ten required floats
   * and six optional ones.
   */
  datatype BorrowingsYearInput = BorrowingsYearInput(
    year: int, short_term_debt: real, long_term_debt: real, total_equity: real, revenue: real,
    ebitda: real, ebit: real, finance_cost: real, capex: real, cwip: real,
    total_debt_maturing_lt_1y: Option<real>, total_debt_maturing_1_3y: Option<real>,
    total_debt_maturing_gt_3y: Option<real>, weighted_avg_interest_rate: Option<real>,
    floating_rate_debt: Option<real>, fixed_rate_debt: Option<real>)

  /** The borrowings module's YearFinancialInput built from one request year, field by field. */
  function DebtRecord(fy: BorrowingsYearInput): (r: DebtMetrics.YearInput)
    ensures RequestOf(r) == Some(fy)
  {
    DebtMetrics.YearInput(
      fy.year, Some(fy.short_term_debt), Some(fy.long_term_debt), Some(fy.total_equity), Some(fy.revenue),
      Some(fy.ebitda), Some(fy.ebit), Some(fy.finance_cost), Some(fy.capex), Some(fy.cwip),
      fy.total_debt_maturing_lt_1y, fy.total_debt_maturing_1_3y, fy.total_debt_maturing_gt_3y,
      fy.weighted_avg_interest_rate, fy.floating_rate_debt, fy.fixed_rate_debt)
  }

  /**
   * Reading a borrowings record back as a request year: None when one of
   * the ten amounts the request requires is missing.
   */
  function RequestOf(y: DebtMetrics.YearInput): (r: Option<BorrowingsYearInput>)
    ensures r.Some? <==> && y.short_term_debt.Some? && y.long_term_debt.Some? && y.total_equity.Some?
                         && y.revenue.Some? && y.ebitda.Some? && y.ebit.Some? && y.finance_cost.Some?
                         && y.capex.Some? && y.cwip.Some?
  {
    if && y.short_term_debt.Some? && y.long_term_debt.Some? && y.total_equity.Some? && y.revenue.Some?
       && y.ebitda.Some? && y.ebit.Some? && y.finance_cost.Some? && y.capex.Some? && y.cwip.Some?
    then
      Some(BorrowingsYearInput(
        y.year, y.short_term_debt.value, y.long_term_debt.value, y.total_equity.value, y.revenue.value,
        y.ebitda.value, y.ebit.value, y.finance_cost.value, y.capex.value, y.cwip.value,
        y.total_debt_maturing_lt_1y, y.total_debt_maturing_1_3y, y.total_debt_maturing_gt_3y,
        y.weighted_avg_interest_rate, y.floating_rate_debt, y.fixed_rate_debt))
    else None
  }

  /** The copy loses nothing: the request year is read back from the record. */
  lemma DebtRecordRoundTrip(fy: BorrowingsYearInput)
    ensures RequestOf(DebtRecord(fy)) == Some(fy)
  {
  }

  /** Every record whose required amounts are present is the copy of exactly one request year. */
  lemma DebtRecordOnto(y: DebtMetrics.YearInput)
    requires RequestOf(y).Some?
    ensures DebtRecord(RequestOf(y).value) == y
  {
  }

  /** IndustryBenchmarks, fixed by the endpoint. */
  datatype IndustryBenchmarks = IndustryBenchmarks(
    target_de_ratio: real, max_safe_de_ratio: real, max_safe_debt_ebitda: real, min_safe_icr: real)

  /** CovenantLimits, fixed by the endpoint. */
  datatype CovenantLimits = CovenantLimits(de_ratio_limit: real, icr_limit: real, debt_ebitda_limit: real)

  /** BorrowingsInput. */
  datatype BorrowingsInput = BorrowingsInput(
    company_id: string, industry_code: string, financials_5y: seq<DebtMetrics.YearInput>,
    industry_benchmarks: IndustryBenchmarks, covenant_limits: CovenantLimits)

  /** The body of analyze_borrowings up to the module's run: the module input. */
  method BorrowingsModuleInput(company: string, years: seq<BorrowingsYearInput>) returns (input: BorrowingsInput)
    ensures input.company_id == UpperStr(company) && input.industry_code == "GENERAL"
    ensures input.industry_benchmarks == IndustryBenchmarks(1.5, 2.5, 4.0, 2.0)
    ensures input.covenant_limits == CovenantLimits(3.0, 2.0, 4.0)
    ensures |input.financials_5y| == |years|
    ensures forall i :: 0 <= i < |years| ==> input.financials_5y[i] == DebtRecord(years[i])
  {
    var companyId := UpperStr(company);
    var yfis: seq<DebtMetrics.YearInput> := [];
    var i := 0;
    while i < |years|
      invariant 0 <= i <= |years| && |yfis| == i
      invariant forall j :: 0 <= j < i ==> yfis[j] == DebtRecord(years[j])
    {
      yfis := yfis + [DebtRecord(years[i])];
      i := i + 1;
    }
    input := BorrowingsInput(companyId, "GENERAL", yfis, IndustryBenchmarks(1.5, 2.5, 4.0, 2.0),
                             CovenantLimits(3.0, 2.0, 4.0));
  }

  /** The borrowings records carry the request years back, one for one and in order. */
  lemma BorrowingsRecordsRoundTrip(years: seq<BorrowingsYearInput>, records: seq<DebtMetrics.YearInput>)
    requires |records| == |years| && forall i :: 0 <= i < |years| ==> records[i] == DebtRecord(years[i])
    ensures forall i :: 0 <= i < |records| ==> RequestOf(records[i]) == Some(years[i])
  {
    forall i | 0 <= i < |records| ensures RequestOf(records[i]) == Some(years[i]) {
      DebtRecordRoundTrip(years[i]);
    }
  }
}
