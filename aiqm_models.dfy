/**
 * The asset & intangible quality module's input records and their
 * validators: the cost-structure percentages that may arrive as text, the
 * net block filled in from gross block and accumulated depreciation, the
 * rule that no year occurs twice, and the default benchmarks.
 */
module AiqmModels {
  import opened Common
  import opened PyStr

  /** A cost-structure field as it arrives in the payload, before the validator. */
  datatype RawField = RawNone | RawNumber(x: real) | RawText(s: string) | RawOther

  /** The outcome of a field validator: the value, or the ValueError it raises. */
  datatype Checked = Invalid | Valid(value: Option<real>)

  /**
   * parse_percentage_fields: None stays None, a number becomes a float, a
   * text has every '%' removed and its surrounding whitespace stripped
   * before float() reads it; any other type is rejected.
   */
  function ParsePercentage(v: RawField): (r: Checked)
    ensures v.RawNone? ==> r == Valid(None)
    ensures v.RawNumber? ==> r == Valid(Some(v.x))
    ensures v.RawOther? ==> r == Invalid
    ensures v.RawText? ==> (r.Valid? <==> ParseDecimal(Strip(Without(v.s, '%'))).Some?)
    ensures r.Valid? && v.RawText? ==> r.value.Some?
  {
    match v
    case RawNone => Valid(None)
    case RawNumber(x) => Valid(Some(x))
    case RawText(s) =>
      var p := ParseDecimal(Strip(Without(s, '%')));
      if p.Some? then Valid(p) else Invalid
    case RawOther => Invalid
  }

  /** The three spellings the validator documents all give the same number. */
  lemma PercentageSpellings()
    ensures ParsePercentage(RawText("32.97%")) == Valid(Some(32.97))
    ensures ParsePercentage(RawText("32.97")) == Valid(Some(32.97))
    ensures ParsePercentage(RawNumber(32.97)) == Valid(Some(32.97))
  {
    PlainSpelling();
    PercentSuffix("32.97");
    assert "32.97%" == "32.97" + "%";
  }

  lemma PlainSpelling()
    ensures ParsePercentage(RawText("32.97")) == Valid(Some(32.97))
  {
    NoPercentSign();
    AlreadyStripped();
    ReadsDecimal();
  }

  lemma NoPercentSign()
    ensures Without("32.97", '%') == "32.97"
  {
    var t := "32.97";
    WithoutAbsent(t, '%');
  }

  lemma AlreadyStripped()
    ensures Strip("32.97") == "32.97"
  {
    var t := "32.97";
    assert t[|t| - 1] == '7' && t[0] == '3';
    StripTrimmed(t);
  }

  /** A trailing percent sign is ignored. */
  lemma PercentSuffix(s: string)
    ensures ParsePercentage(RawText(s + "%")) == ParsePercentage(RawText(s))
  {
    WithoutAppend(s, "%", '%');
    assert Without("%", '%') == [];
    assert Without(s + "%", '%') == Without(s, '%');
  }

  lemma ReadsDecimal()
    ensures ParseDecimal("32.97") == Some(32.97)
  {
    assert "32.97" == "32" + "." + "97";
    assert DigitsValue("32") == 32 by {
      assert "32"[..1] == "3";
    }
    assert DigitsValue("97") == 97 by {
      assert "97"[..1] == "9";
    }
    DecimalParts("32", "97");
    assert Pow10(1) == 10.0;
    var p := Pow10(|"97"|);
    assert p == 100.0;
    assert DigitsValue("97") as real / p == 0.97;
    assert DecimalValue("32", "97") == 32.97;
  }

  /** Removing the percent signs first makes a second removal change nothing. */
  lemma {:induction false} PercentSignsIgnored(s: string)
    ensures ParsePercentage(RawText(Without(s, '%'))) == ParsePercentage(RawText(s))
  {
    WithoutTwice(s, '%');
  }

  lemma {:induction false} WithoutTwice(s: string, c: char)
    ensures Without(Without(s, c), c) == Without(s, c)
  {
    if s != [] {
      WithoutTwice(s[1..], c);
      if s[0] != c {
        var w := [s[0]] + Without(s[1..], c);
        assert w[1..] == Without(s[1..], c);
      }
    }
  }

  /**
   * compute_net_block: a missing net block becomes gross block less
   * accumulated depreciation; a supplied one is kept. (Both other amounts
   * are floats with defaults, so they are always present.)
   */
  function NetBlock(grossBlock: real, accDep: real, netBlock: Option<real>): (nb: real)
  {
    if netBlock.None? then grossBlock - accDep else netBlock.value
  }

  /** The filled-in net block is kept by a second validation, and a supplied one is never replaced. */
  lemma NetBlockStable(grossBlock: real, accDep: real, netBlock: Option<real>)
    ensures NetBlock(grossBlock, accDep, Some(NetBlock(grossBlock, accDep, netBlock))) ==
            NetBlock(grossBlock, accDep, netBlock)
    ensures netBlock.Some? ==> NetBlock(grossBlock, accDep, netBlock) == netBlock.value
    ensures netBlock.None? ==> NetBlock(grossBlock, accDep, netBlock) + accDep == grossBlock
  {
  }

  /** One year of the payload as it arrives. */
  datatype RawYear = RawYear(
    year: int, gross_block: real, accumulated_depreciation: real, net_block: Option<real>, cwip: Option<real>,
    intangible_assets: real, goodwill: Option<real>, intangible_amortization: Option<real>,
    r_and_d_expense: Option<real>, revenue: real, total_assets: real,
    depreciation: Option<real>, capex: Option<real>, operating_cash_flow: Option<real>,
    material_cost: RawField, manufacturing_cost: RawField, employee_cost: RawField, other_cost: RawField,
    impairment_loss: Option<real>)

  /** YearAssetIntangibleInput once validated: the costs are numbers and the net block is filled in. */
  datatype YearInput = YearInput(
    year: int, gross_block: real, accumulated_depreciation: real, net_block: real, cwip: Option<real>,
    intangible_assets: real, goodwill: Option<real>, intangible_amortization: Option<real>,
    r_and_d_expense: Option<real>, revenue: real, total_assets: real,
    depreciation: Option<real>, capex: Option<real>, operating_cash_flow: Option<real>,
    material_cost: Option<real>, manufacturing_cost: Option<real>, employee_cost: Option<real>,
    other_cost: Option<real>, impairment_loss: Option<real>)

  /** The model's validation of one year; None for the ValueError of a bad percentage. */
  function ValidateYear(r: RawYear): (y: Option<YearInput>)
    ensures y.Some? <==>
              ParsePercentage(r.material_cost).Valid? && ParsePercentage(r.manufacturing_cost).Valid?
              && ParsePercentage(r.employee_cost).Valid? && ParsePercentage(r.other_cost).Valid?
    ensures y.Some? ==> y.value.year == r.year && y.value.net_block == NetBlock(r.gross_block, r.accumulated_depreciation, r.net_block)
  {
    var m := ParsePercentage(r.material_cost);
    var f := ParsePercentage(r.manufacturing_cost);
    var e := ParsePercentage(r.employee_cost);
    var o := ParsePercentage(r.other_cost);
    if m.Invalid? || f.Invalid? || e.Invalid? || o.Invalid? then None
    else
      Some(YearInput(r.year, r.gross_block, r.accumulated_depreciation,
                     NetBlock(r.gross_block, r.accumulated_depreciation, r.net_block), r.cwip,
                     r.intangible_assets, r.goodwill, r.intangible_amortization, r.r_and_d_expense, r.revenue,
                     r.total_assets, r.depreciation, r.capex, r.operating_cash_flow,
                     m.value, f.value, e.value, o.value, r.impairment_loss))
  }

  function Years(fs: seq<YearInput>): (ys: seq<int>)
    ensures |ys| == |fs| && forall i :: 0 <= i < |fs| ==> ys[i] == fs[i].year
  {
    seq(|fs|, i requires 0 <= i < |fs| => fs[i].year)
  }

  /** validate_years_unique: the list of years is as long as the set of years. */
  predicate YearsUnique(years: seq<int>)
  {
    |set y | y in years| == |years|
  }

  /** The length test accepts exactly the lists in which no year repeats. */
  lemma {:induction false} YearsUniqueMeansNoDup(years: seq<int>)
    ensures |set y | y in years| <= |years|
    ensures YearsUnique(years) <==> NoDup(years)
  {
    if years != [] {
      var x := years[0];
      var rest := years[1..];
      YearsUniqueMeansNoDup(rest);
      var s := set y | y in years;
      var t := set y | y in rest;
      assert years == [x] + rest;
      assert s == t + {x};
      NoDupCons(years);
      if x in rest {
        assert s == t;
      } else {
        assert |s| == |t| + 1;
      }
    }
  }

  /** A list has no repeat exactly when its head is not in its tail and its tail has no repeat. */
  lemma NoDupCons(s: seq<int>)
    requires s != []
    ensures NoDup(s) <==> s[0] !in s[1..] && NoDup(s[1..])
  {
    var rest := s[1..];
    if s[0] in rest {
      var k :| 0 <= k < |rest| && rest[k] == s[0];
      assert s[0] == s[k + 1];
    }
    if !NoDup(rest) {
      var i, j :| 0 <= i < j < |rest| && rest[i] == rest[j];
      assert s[i + 1] == s[j + 1];
    }
    if s[0] !in rest && NoDup(rest) {
      forall i, j | 0 <= i < j < |s| ensures s[i] != s[j] {
        assert s[j] == rest[j - 1];
        if i > 0 {
          assert s[i] == rest[i - 1];
        }
      }
    }
  }

  /** The years of the raw records, in their order. */
  function RawYears(raws: seq<RawYear>): (ys: seq<int>)
    ensures |ys| == |raws| && forall i :: 0 <= i < |raws| ==> ys[i] == raws[i].year
  {
    seq(|raws|, i requires 0 <= i < |raws| => raws[i].year)
  }

  /** The validated records of a block whose every year validates. */
  function Validated(raws: seq<RawYear>): (fs: seq<YearInput>)
    requires forall i :: 0 <= i < |raws| ==> ValidateYear(raws[i]).Some?
    ensures |fs| == |raws| && forall i :: 0 <= i < |raws| ==> fs[i] == ValidateYear(raws[i]).value
  {
    seq(|raws|, i requires 0 <= i < |raws| => ValidateYear(raws[i]).value)
  }

  /** Validation keeps each record's year. */
  lemma ValidatedYears(raws: seq<RawYear>)
    requires forall i :: 0 <= i < |raws| ==> ValidateYear(raws[i]).Some?
    ensures Years(Validated(raws)) == RawYears(raws)
  {
    var fs := Validated(raws);
    forall i | 0 <= i < |raws| ensures Years(fs)[i] == RawYears(raws)[i] {
      assert fs[i] == ValidateYear(raws[i]).value;
    }
  }

  /**
   * FinancialDataBlock's validation: every year validated, then the
   * duplicate-year check; None for the ValueError either raises.
   */
  function ValidateBlock(raws: seq<RawYear>): (r: Option<seq<YearInput>>)
    ensures r.Some? ==> |r.value| == |raws| && NoDup(Years(r.value))
  {
    if exists i :: 0 <= i < |raws| && ValidateYear(raws[i]).None? then None
    else
      var fs := Validated(raws);
      YearsUniqueMeansNoDup(Years(fs));
      if YearsUnique(Years(fs)) then Some(fs) else None
  }

  /** A block is accepted exactly when each year validates and no year repeats. */
  lemma ValidateBlockAccepts(raws: seq<RawYear>)
    ensures ValidateBlock(raws).Some? <==>
              (forall i :: 0 <= i < |raws| ==> ValidateYear(raws[i]).Some?) && NoDup(RawYears(raws))
  {
    if forall i :: 0 <= i < |raws| ==> ValidateYear(raws[i]).Some? {
      ValidatedYears(raws);
      YearsUniqueMeansNoDup(RawYears(raws));
    }
  }

  /** AssetIntangibleBenchmarks. */
  datatype Benchmarks = Benchmarks(
    asset_turnover_low: real, asset_turnover_critical: real,
    age_proxy_old_threshold: real, age_proxy_critical: real,
    goodwill_pct_warning: real, goodwill_pct_critical: real,
    impairment_high_threshold: real, impairment_sudden_spike_threshold: real,
    intangible_growth_vs_revenue_warning: real)

  const DefaultBenchmarks := Benchmarks(1.0, 0.7, 0.60, 0.75, 0.25, 0.40, 0.05, 0.30, 0.10)

  /** The tiers a benchmark pair bounds are well ordered. */
  predicate Ordered(b: Benchmarks)
  {
    b.asset_turnover_critical < b.asset_turnover_low && b.age_proxy_old_threshold < b.age_proxy_critical
    && b.goodwill_pct_warning < b.goodwill_pct_critical
  }

  /** The defaults order each pair: turnover 0.7 below 1.0, age 0.60 below 0.75, goodwill 0.25 below 0.40. */
  lemma DefaultsOrdered()
    ensures Ordered(DefaultBenchmarks)
    ensures DefaultBenchmarks.impairment_high_threshold == 0.05 && DefaultBenchmarks.impairment_sudden_spike_threshold == 0.30
  {
  }
}
