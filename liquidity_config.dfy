/**
 * The liquidity module's thresholds. There are two tables: the
 * LiquidityRuleThresholds defaults (with the trend cut-offs) behind
 * load_liquidity_config, and the LIQUIDITY_RULES["generic"] constants,
 * which are the ones the rule engine reads.
 */
module LiquidityConfig {
  import opened Common

  /** LiquidityRuleThresholds; its constructor call without arguments is `DefaultThresholds`. */
  datatype Thresholds = Thresholds(
    critical_current_ratio: real, moderate_current_ratio: real,
    critical_quick_ratio: real, moderate_quick_ratio: real,
    critical_cash_ratio: real, moderate_cash_ratio: real,
    dir_critical_days: real, dir_moderate_days: real,
    ocf_cl_critical: real, ocf_cl_moderate: real,
    ocf_debt_critical: real, ocf_debt_moderate: real,
    cash_shrink_yoy_pct: real, receivables_growth_yoy_pct: real, inventory_growth_yoy_pct: real,
    ocf_decline_years: int, cl_rise_yoy_pct: real)

  const DefaultThresholds := Thresholds(0.8, 1.2, 0.5, 1.0, 0.2, 0.5, 15.0, 30.0, 0.0, 0.2, 0.0, 0.15,
                                        -5.0, 10.0, 10.0, 2, 5.0)

  /** LiquidityRuleConfig: the thresholds for the generic industry. */
  datatype RuleConfig = RuleConfig(generic: Thresholds)

  const DefaultLiquidityConfig := RuleConfig(DefaultThresholds)

  /** load_liquidity_config: the industry code is a placeholder and is not read. */
  function LoadLiquidityConfig(industry: Option<string>): (c: RuleConfig)
    ensures forall i :: 0 <= i < 6 ==> ThresholdPairs(c.generic)[i].0 <= ThresholdPairs(c.generic)[i].1
    ensures c.generic.ocf_decline_years == 2
  {
    DefaultLiquidityConfig
  }

  /** The entry "generic" of LIQUIDITY_RULES. */
  datatype RuleBounds = RuleBounds(
    critical_current_ratio: real, moderate_current_ratio: real,
    critical_quick_ratio: real, moderate_quick_ratio: real,
    critical_cash_ratio: real, moderate_cash_ratio: real,
    dir_critical_days: real, dir_moderate_days: real,
    ocf_cl_critical: real, ocf_cl_moderate: real,
    ocf_debt_critical: real, ocf_debt_moderate: real,
    high_receivable_growth: real, high_inventory_growth: real)

  const Generic := RuleBounds(0.8, 1.0, 0.6, 0.8, 0.1, 0.2, 30.0, 45.0, 0.5, 1.0, 0.1, 0.2, 0.25, 0.25)

  /** The six (critical, moderate) pairs of the dataclass, in declaration order. */
  function ThresholdPairs(t: Thresholds): (ps: seq<(real, real)>)
    ensures |ps| == 6
  {
    [(t.critical_current_ratio, t.moderate_current_ratio), (t.critical_quick_ratio, t.moderate_quick_ratio),
     (t.critical_cash_ratio, t.moderate_cash_ratio), (t.dir_critical_days, t.dir_moderate_days),
     (t.ocf_cl_critical, t.ocf_cl_moderate), (t.ocf_debt_critical, t.ocf_debt_moderate)]
  }

  /** The same six pairs in LIQUIDITY_RULES["generic"]. */
  function BoundPairs(b: RuleBounds): (ps: seq<(real, real)>)
    ensures |ps| == 6
  {
    [(b.critical_current_ratio, b.moderate_current_ratio), (b.critical_quick_ratio, b.moderate_quick_ratio),
     (b.critical_cash_ratio, b.moderate_cash_ratio), (b.dir_critical_days, b.dir_moderate_days),
     (b.ocf_cl_critical, b.ocf_cl_moderate), (b.ocf_debt_critical, b.ocf_debt_moderate)]
  }

  /** Every critical bound lies below its moderate bound. */
  predicate StrictlyBelow(ps: seq<(real, real)>)
  {
    forall i :: 0 <= i < |ps| ==> ps[i].0 < ps[i].1
  }

  // ------------------------------------------------------------ properties

  /** load_liquidity_config returns the same configuration whatever industry it is given. */
  lemma LoadIgnoresIndustry(a: Option<string>, b: Option<string>)
    ensures LoadLiquidityConfig(a) == LoadLiquidityConfig(b)
    ensures LoadLiquidityConfig(a).generic == DefaultThresholds
  {
  }

  /** In both tables each critical bound is strictly below its moderate bound. */
  lemma BoundsOrdered()
    ensures StrictlyBelow(BoundPairs(Generic))
    ensures StrictlyBelow(ThresholdPairs(DefaultThresholds))
  {
  }

  /**
   * The two tables agree only on the critical current ratio: every other
   * bound of the six pairs differs, the moderate current ratio being 1.2
   * in the dataclass and 1.0 in the dictionary.
   */
  lemma TablesDisagree()
    ensures DefaultThresholds.moderate_current_ratio == 1.2 && Generic.moderate_current_ratio == 1.0
    ensures ThresholdPairs(DefaultThresholds)[0].0 == BoundPairs(Generic)[0].0
    ensures forall i :: 0 <= i < 6 ==> ThresholdPairs(DefaultThresholds)[i].1 != BoundPairs(Generic)[i].1
    ensures forall i :: 1 <= i < 6 ==> ThresholdPairs(DefaultThresholds)[i].0 != BoundPairs(Generic)[i].0
  {
  }
}
