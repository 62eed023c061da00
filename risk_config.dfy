/** The risk module's default thresholds and its table of manual related-party values. */
module RiskConfig {

  /**
   * The threshold dictionary's keys. The named constructors stand for the
   * twelve keys of DEFAULT_THRESHOLDS ("interest_overtake_years", …);
   * `Other` stands for any further key a caller may pass.
   */
  datatype Key =
    | InterestOvertakeYears | FakeCashSpike | OneoffProfitJump | ProfitSpikeNoRevenue
    | FixedAssetDeclineYears | DividendHighRatio | LoanRolloverCritical | InterestCapitalized
    | MinimalPrincipalRepayment | RptRevenue | RptAssets | RptRecvSpike
    | Other(name: string)

  /** DEFAULT_THRESHOLDS. */
  const DefaultThresholds: map<Key, real> := map[
    InterestOvertakeYears := 2.0,
    FakeCashSpike := 0.30,
    OneoffProfitJump := 0.20,
    ProfitSpikeNoRevenue := 0.25,
    FixedAssetDeclineYears := 2.0,
    DividendHighRatio := 0.50,
    LoanRolloverCritical := 0.50,
    InterestCapitalized := 0.20,
    MinimalPrincipalRepayment := 0.10,
    RptRevenue := 0.15,
    RptAssets := 0.10,
    RptRecvSpike := 0.25
  ]

  /** The keys the rule engine reads; dividend_high_ratio and rpt_assets_threshold are not among them. */
  predicate IsRuleKey(k: Key)
  {
    !(k.Other? || k == DividendHighRatio || k == RptAssets)
  }

  /** manual_vals: related-party sales and receivables, one entry per input position. */
  const ManualRptSales: seq<real> := [37.21, 21.09, 21.97, 29.23, 20.45]
  const ManualRptReceivables: seq<real> := [18.65, 11.46, 15.87, 13.14, 7.70]

  /**
   * Every rule key has a default, the two year-count thresholds are 2, every
   * ratio threshold lies strictly between 0 and 1, and both manual tables
   * hold exactly five entries.
   */
  lemma DefaultsShape()
    ensures forall k :: IsRuleKey(k) ==> k in DefaultThresholds
    ensures DividendHighRatio in DefaultThresholds && RptAssets in DefaultThresholds
    ensures DefaultThresholds[InterestOvertakeYears] == 2.0 && DefaultThresholds[FixedAssetDeclineYears] == 2.0
    ensures forall k :: k in DefaultThresholds && k != InterestOvertakeYears && k != FixedAssetDeclineYears ==>
              0.0 < DefaultThresholds[k] < 1.0
    ensures |ManualRptSales| == 5 && |ManualRptReceivables| == 5
  {
  }
}
