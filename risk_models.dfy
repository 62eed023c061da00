/**
 * The risk module's record shapes: the raw per-year dictionary as it
 * arrives in the payload and the typed YearFinancials record the rule
 * engine reads.
 */
module RiskModels {
  import opened Common
  import PyStr

  /**
   * Keys of a raw year dictionary: the YearFinancials fields, the three keys
   * compute_derived_metrics may add, and any other key of the payload.
   */
  datatype Field =
    | YearKey | Borrowings | NetDebt | TradeReceivables | CashEquivalents | TotalAssets
    | FixedAssets | Revenue | OperatingProfit | Ebit | Interest | NetProfit | OtherIncome
    | ProfitFromOperations | InterestPaidFin | CashFromOperatingActivity | DividendsPaid
    | ProceedsFromBorrowings | RepaymentOfBorrowings | RelatedPartySales | RelatedPartyReceivables
    | LoanRolloverAmount | InterestCapitalizedKey | OperatingCashFlow
    | OtherField(name: string)

  /** A JSON value as found in the payload. */
  datatype Raw = Null | Num(x: real) | Str(s: string) | Unparsable

  type Dict = map<Field, Raw>

  /** `d.get(k)`. */
  function Get(d: Dict, k: Field): Raw { if k in d then d[k] else Null }

  /** Python truthiness of a JSON value. */
  predicate Truthy(v: Raw)
  {
    match v
    case Null => false
    case Num(x) => x != 0.0
    case Str(s) => s != ""
    case Unparsable => true
  }

  /** An optional float stored back into a dictionary. */
  function ToRaw(o: Option<real>): Raw { if o.Some? then Num(o.value) else Null }

  /** The typed record; every amount is optional. */
  datatype YearFinancials = YearFinancials(
    year: int,
    borrowings: Option<real>, net_debt: Option<real>, trade_receivables: Option<real>,
    cash_equivalents: Option<real>, total_assets: Option<real>, fixed_assets: Option<real>,
    revenue: Option<real>, operating_profit: Option<real>, ebit: Option<real>,
    interest: Option<real>, net_profit: Option<real>, other_income: Option<real>,
    profit_from_operations: Option<real>, interest_paid_fin: Option<real>,
    cash_from_operating_activity: Option<real>, dividends_paid: Option<real>,
    proceeds_from_borrowings: Option<real>, repayment_of_borrowings: Option<real>,
    related_party_sales: Option<real>, related_party_receivables: Option<real>)

  /**
   * Coercion of one optional float field: null or absent gives None, a
   * number is kept, a string goes through `parse` (Python's float()); any
   * other value is a validation error, as is a string that does not parse.
   */
  function Coerce(v: Raw, parse: string -> Option<real>): Option<Option<real>>
  {
    match v
    case Null => Some(None)
    case Num(x) => Some(Some(x))
    case Str(s) => if parse(s).Some? then Some(parse(s)) else None
    case Unparsable => None
  }

  /**
   * The pydantic field `year: int`: a whole number is kept, a string is read
   * as int() reads it once its surrounding whitespace is gone; null, a
   * fraction and any other value fail validation.
   */
  function CoerceYear(v: Raw): (r: Option<int>)
    ensures v.Num? ==> (r.Some? <==> v.x == v.x.Floor as real)
    ensures v.Num? && r.Some? ==> r.value as real == v.x
    ensures v.Null? || v.Unparsable? ==> r.None?
  {
    match v
    case Num(x) => if x == x.Floor as real then Some(x.Floor) else None
    case Str(s) => PyStr.ParseInt(PyStr.Strip(s))
    case _ => None
  }

  /** A year given as a number or as its decimal text, padded or not, coerces to that year. */
  lemma YearSpellings(n: nat)
    ensures CoerceYear(Num(n as real)) == Some(n)
    ensures CoerceYear(Str(PyStr.Show(n))) == Some(n)
    ensures CoerceYear(Str(" " + PyStr.Show(n) + " ")) == Some(n)
  {
    var t := PyStr.Show(n);
    PyStr.ParseShow(n);
    assert PyStr.IsDigit(t[0]) && PyStr.IsDigit(t[|t| - 1]);
    PyStr.StripTrimmed(t);
    StripPadded(t);
  }

  /** Stripping a single space from each end of a trimmed text gives the text. */
  lemma StripPadded(t: string)
    requires t != [] && !PyStr.IsSpace(t[0]) && !PyStr.IsSpace(t[|t| - 1])
    ensures PyStr.Strip(" " + t + " ") == t
  {
    var padded := " " + t + " ";
    assert padded[..|padded| - 1] == " " + t;
    assert PyStr.RStrip(" " + t) == " " + t;
    assert (" " + t)[1..] == t;
    assert PyStr.LStrip(t) == t;
  }

  /** Field `k` of the dictionary coerces. */
  predicate Ok(d: Dict, k: Field, parse: string -> Option<real>) { Coerce(Get(d, k), parse).Some? }

  /** The dictionary validates: the year is whole and every field coerces. */
  predicate Validates(d: Dict, parse: string -> Option<real>)
  {
    && CoerceYear(Get(d, YearKey)).Some?
    && Ok(d, Borrowings, parse) && Ok(d, NetDebt, parse) && Ok(d, TradeReceivables, parse) && Ok(d, CashEquivalents, parse) && Ok(d, TotalAssets, parse)
    && Ok(d, FixedAssets, parse) && Ok(d, Revenue, parse) && Ok(d, OperatingProfit, parse) && Ok(d, Ebit, parse) && Ok(d, Interest, parse) && Ok(d, NetProfit, parse)
    && Ok(d, OtherIncome, parse) && Ok(d, ProfitFromOperations, parse) && Ok(d, InterestPaidFin, parse) && Ok(d, CashFromOperatingActivity, parse)
    && Ok(d, DividendsPaid, parse) && Ok(d, ProceedsFromBorrowings, parse) && Ok(d, RepaymentOfBorrowings, parse)
    && Ok(d, RelatedPartySales, parse) && Ok(d, RelatedPartyReceivables, parse)
  }

  /** A field's coerced value in a validating dictionary. */
  function FieldOf(d: Dict, k: Field, parse: string -> Option<real>): Option<real>
    requires Ok(d, k, parse)
  {
    Coerce(Get(d, k), parse).value
  }

  /**
   * `YearFinancials(**d)`: None when validation fails. Keys that are not
   * fields are ignored, so the three derived keys never reach the record.
   * The typed field list is the one of risk_models.YearFinancials.
   */
  function ToYearFinancials(d: Dict, parse: string -> Option<real>): (r: Option<YearFinancials>)
    ensures r.Some? <==> Validates(d, parse)
    ensures r.Some? ==> CoerceYear(Get(d, YearKey)) == Some(r.value.year)
    ensures r.Some? ==> Coerce(Get(d, Ebit), parse) == Some(r.value.ebit)
    ensures r.Some? ==> Coerce(Get(d, OperatingProfit), parse) == Some(r.value.operating_profit)
  {
    if Validates(d, parse) then Some(Build(d, parse)) else None
  }

  /** The record of a validating dictionary. */
  function Build(d: Dict, parse: string -> Option<real>): (r: YearFinancials)
    requires Validates(d, parse)
    ensures Some(r.year) == CoerceYear(Get(d, YearKey))
    ensures r.ebit == FieldOf(d, Ebit, parse) && r.operating_profit == FieldOf(d, OperatingProfit, parse)
  {
    YearFinancials(
      CoerceYear(Get(d, YearKey)).value,
      FieldOf(d, Borrowings, parse), FieldOf(d, NetDebt, parse), FieldOf(d, TradeReceivables, parse),
      FieldOf(d, CashEquivalents, parse), FieldOf(d, TotalAssets, parse), FieldOf(d, FixedAssets, parse),
      FieldOf(d, Revenue, parse), FieldOf(d, OperatingProfit, parse), FieldOf(d, Ebit, parse),
      FieldOf(d, Interest, parse), FieldOf(d, NetProfit, parse), FieldOf(d, OtherIncome, parse),
      FieldOf(d, ProfitFromOperations, parse), FieldOf(d, InterestPaidFin, parse),
      FieldOf(d, CashFromOperatingActivity, parse), FieldOf(d, DividendsPaid, parse),
      FieldOf(d, ProceedsFromBorrowings, parse), FieldOf(d, RepaymentOfBorrowings, parse),
      FieldOf(d, RelatedPartySales, parse), FieldOf(d, RelatedPartyReceivables, parse))
}
}
