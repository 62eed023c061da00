/** compute_derived_metrics: fills in rollover, capitalised interest, net debt and OCF. */
module RiskMetrics {
  import opened Common
  import opened RiskModels

  /**
   * `safe_float`: None stays None, a number is kept, a string goes through
   * `parse` (Python's float()), and anything float() rejects gives None.
   * It never fails.
   */
  function SafeFloat(v: Raw, parse: string -> Option<real>): (r: Option<real>)
    ensures v.Null? || v.Unparsable? ==> r.None?
    ensures v.Num? ==> r == Some(v.x)
    ensures v.Str? ==> r == parse(v.s)
  {
    match v
    case Null => None
    case Num(x) => Some(x)
    case Str(s) => parse(s)
    case Unparsable => None
  }

  /** The keys compute_derived_metrics may write. */
  predicate Derived(k: Field)
  {
    k == LoanRolloverAmount || k == InterestCapitalizedKey || k == NetDebt || k == OperatingCashFlow
  }

  /** The dictionary compute_derived_metrics returns. */
  function DerivedOf(year: Dict, parse: string -> Option<real>): Dict
  {
    var proceeds := SafeFloat(Get(year, ProceedsFromBorrowings), parse);
    var repayment := SafeFloat(Get(year, RepaymentOfBorrowings), parse);
    var out1 := if proceeds.Some? && repayment.Some?
                then year[LoanRolloverAmount := Num(proceeds.value - repayment.value)] else year;
    var interestPaidFin := SafeFloat(Get(year, InterestPaidFin), parse);
    var interest := SafeFloat(Get(year, Interest), parse);
    var out2 := if interestPaidFin.Some? && interest.Some?
                then out1[InterestCapitalizedKey := Num(interestPaidFin.value - interest.value)] else out1;
    var b := Get(year, Borrowings);
    var out3 := if Get(year, NetDebt) == Null
                then out2[NetDebt := ToRaw(SafeFloat(if Truthy(b) then b else Num(0.0), parse))] else out2;
    if Get(out3, OperatingCashFlow) == Null && Get(year, CashFromOperatingActivity) != Null
    then out3[OperatingCashFlow := ToRaw(SafeFloat(Get(year, CashFromOperatingActivity), parse))]
    else out3
  }

  method ComputeDerivedMetrics(year: Dict, parse: string -> Option<real>) returns (out: Dict)
    ensures out == DerivedOf(year, parse)
    // every input key survives, and keys that are not written keep their value
    ensures year.Keys <= out.Keys
    ensures forall k :: k in out ==> k in year || Derived(k)
    ensures forall k :: k in year && !Derived(k) ==> out[k] == year[k]
    // rollover is added only when both amounts convert
    ensures var p := SafeFloat(Get(year, ProceedsFromBorrowings), parse);
            var q := SafeFloat(Get(year, RepaymentOfBorrowings), parse);
            Get(out, LoanRolloverAmount) == if p.Some? && q.Some? then Num(p.value - q.value)
                                             else Get(year, LoanRolloverAmount)
    // capitalised interest is added only when both amounts convert
    ensures var p := SafeFloat(Get(year, InterestPaidFin), parse);
            var q := SafeFloat(Get(year, Interest), parse);
            Get(out, InterestCapitalizedKey) == if p.Some? && q.Some? then Num(p.value - q.value)
                                                else Get(year, InterestCapitalizedKey)
    // a missing net debt becomes borrowings, with missing or zero borrowings giving 0.0
    ensures Get(year, NetDebt) != Null ==> Get(out, NetDebt) == Get(year, NetDebt)
    ensures Get(year, NetDebt) == Null && !Truthy(Get(year, Borrowings)) ==> Get(out, NetDebt) == Num(0.0)
    ensures Get(year, NetDebt) == Null && Truthy(Get(year, Borrowings)) ==>
              Get(out, NetDebt) == ToRaw(SafeFloat(Get(year, Borrowings), parse))
    // a missing operating cash flow is filled from cash_from_operating_activity when that is present
    ensures Get(year, OperatingCashFlow) == Null && Get(year, CashFromOperatingActivity) != Null ==>
              Get(out, OperatingCashFlow) == ToRaw(SafeFloat(Get(year, CashFromOperatingActivity), parse))
    ensures !(Get(year, OperatingCashFlow) == Null && Get(year, CashFromOperatingActivity) != Null) ==>
              Get(out, OperatingCashFlow) == Get(year, OperatingCashFlow)
  {
    var proceeds := SafeFloat(Get(year, ProceedsFromBorrowings), parse);
    var repayment := SafeFloat(Get(year, RepaymentOfBorrowings), parse);
    var out1 := year;
    if proceeds.Some? && repayment.Some? {
      out1 := out1[LoanRolloverAmount := Num(proceeds.value - repayment.value)];
    }

    var interestPaidFin := SafeFloat(Get(year, InterestPaidFin), parse);
    var interest := SafeFloat(Get(year, Interest), parse);
    var out2 := out1;
    if interestPaidFin.Some? && interest.Some? {
      out2 := out2[InterestCapitalizedKey := Num(interestPaidFin.value - interest.value)];
    }
    assert Get(out2, LoanRolloverAmount) == Get(out1, LoanRolloverAmount);

    var out3 := out2;
    if Get(year, NetDebt) == Null {
      var b := Get(year, Borrowings);
      var borrowings := SafeFloat(if Truthy(b) then b else Num(0.0), parse);
      out3 := out3[NetDebt := ToRaw(borrowings)];
    }
    assert Get(out3, LoanRolloverAmount) == Get(out1, LoanRolloverAmount);
    assert Get(out3, InterestCapitalizedKey) == Get(out2, InterestCapitalizedKey);
    assert Get(out3, OperatingCashFlow) == Get(year, OperatingCashFlow);

    out := out3;
    if Get(out3, OperatingCashFlow) == Null {
      if Get(year, CashFromOperatingActivity) != Null {
        out := out3[OperatingCashFlow := ToRaw(SafeFloat(Get(year, CashFromOperatingActivity), parse))];
      }
    }
    assert Get(out, NetDebt) == Get(out3, NetDebt);
  }
}
