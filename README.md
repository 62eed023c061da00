# Financial analysis engine — a Dafny model

The system analyses a listed company's last few financial years in six
independent modules:
- risk scenario detection;
- working capital;
- borrowings;
- liquidity;
- capex/CWIP;
- asset & intangible quality.

Every module runs the same chain of stages:
1. It validates and normalises its per-year records.
2. It computes metrics for each year.
3. It derives multi-year trends: growth rates, CAGRs and streak patterns.
4. It evaluates a fixed catalogue of rules. Each rule gives a RED / YELLOW / GREEN flag, and some also give NOT_APPLICABLE, CRITICAL or HIGH.
5. It turns the flags into a sub-score, red flags and positive points.
6. It attaches a narrative. The narrative comes from a language model, or from a deterministic fallback when the module has one.

In front of two of the modules, src/main.py has two HTTP endpoints, `/analyze/liquidity` and `/analyze/borrowings`. Each rebuilds its module's input records from a company's raw figures. A separate scraper cleans up the tables it downloads before saving them.

This project models those deterministic stages in Dafny and proves properties of the model. There is one module per source file:
- `RiskTrend`, `RiskRules`, `RiskMetrics`, `RiskModels`, `RiskConfig`, `RiskOrchestrator` and `RiskFallback`;
- `WcMetrics`, `WcTrend`, `WcRules`, `WcModels` and `WcOrchestrator`;
- `DebtMetrics`, `DebtTrend`, `DebtRules` and `DebtOrchestrator`;
- `LiquidityConfig`, `LiquidityMetrics`, `LiquidityTrend`, `LiquidityRules`, `LiquidityOrchestrator` and `LiquidityFallback`;
- `CapexMetrics`, `CapexTrend`, `CapexRules` and `CapexOrchestrator`;
- `AiqmModels`, `AiqmMetrics`, `AiqmTrend`, `AiqmRules` and `AiqmOrchestrator`;
- `Endpoints` (the normalisation in src/main.py);
- `Screener` (the text helpers of web_scrap_screener.py).

Three modules are shared:
- `Common`: the Option type, flags, findings, null-safe division and CAGR.
- `PyStr`: the pieces of Python's string handling that the year parsers rely on.
- `Sorting`: the stable sort by year.

Where the source changes state step by step, the model does too. Examples are the per-year loops that fill a metrics dictionary, the append cascades of the rule engines, the streak counters and the name de-duplication loop. Each of these is a `method` with loop invariants. The method is proved against a recursive specification function, and the properties are proved about that function as lemmas. The pure helpers are functions with contracts.

Modelling conventions:
- Python's `None` is `Option`.
- Floating-point values are `real`.
- Python's `**` on floats is a parameter `pow: (real, real) -> real`; no property depends on its values.
- Python's `round()` is modelled as rounding half to even (`Common.RoundHalfEven`, and `Common.Round` for a number of decimals). The score and rounding properties depend on that definition.
- Rows whose statement begins "Illustration on one input" check a single concrete input. The general property they illustrate is the member they name.
- Dictionary keys and rule ids that are string literals in the source are datatype constructors. Each constructor stands for the string its name spells.
- Wherever Python raises (ValueError, TypeError, IndexError, KeyError), the model returns an explicit failure value, with these exceptions, where the raise is a precondition instead:
  - a `None` that the source compares with a number;
  - the TypeError of `current - previous` in the borrowings compute_yoy (debt_trend.py:14) for a missing current value against a usable previous one: `DebtTrend.DebtYoy`, and `YoyDefined` on `StDebtGrowth`, `TrendsOf`, `StDebtYoyGrowth` and `ComputeTrendMetrics`;
  - the TypeError of `cwip / total_assets` with a missing CWIP (debt_rules.py:451): `DebtRules.CwipRatio`, and `Evaluable` on `ApplyGroupA` and `ApplyRules`;
  - the ValueError of `max()` over an empty metrics dictionary (debt_rules.py:400): `metrics != []` on `DebtRules.ApplyRules`;
  - the AttributeError of the risk engine's ebit fallback, which reads `f.depreciation` (risk_rules.py:65): `EbitDefined` on the records of `RiskRules`.

## Source behaviour worth knowing

- Growth units are mixed.
  - compute_cagr returns a percentage in the working-capital, borrowings, liquidity, asset-quality and capex trend engines.
  - The series CAGR in the capex metrics engine is a fraction.
  - Year-on-year growth is a fraction in the working-capital module, the asset-quality module and RiskTrendAnalyzer.
  - It is a percentage in the capex trend engine, in the borrowings module, in the liquidity module and in the risk orchestrator's display trends.
  - The working-capital rules nevertheless compare their fractional growth with percentage thresholds.
- A percentage text such as "32.97%" becomes 32.97, not 0.3297 (aiqm_models.py).
- The asset-quality rules leave out a finding whose input is missing, instead of reporting exactly one finding per rule. A2 counts every negative growth in the map, not consecutive ones. F1 can be reported up to three times, or not at all.
- Several stages raise instead of degrading gracefully:
  - the capex evaluate_rules raises KeyError on empty trends;
  - the asset-quality trends raise TypeError for a missing CWIP once there are two years;
  - in the asset-quality module, an empty list of financial years is accepted by validation and then makes run raise ValueError.
- The risk orchestrator's display trends raise TypeError when a numeric string that validation accepted takes part in a growth step whose previous value is not 0 (risk_orchestrator.py:74). A string previous value is not 0; a zero or missing previous value skips the arithmetic.
- The risk rules pass a year to every RuleResult, but RuleResult has no year field, so the reported rules carry no year (risk_rules.py:30-39).
- The liquidity endpoint always rebuilds the operating cash flow from its parts. It ignores the payload's cash_from_operating_activity and interest fields.
- Only the asset-quality and working-capital modules reject a year that occurs twice.
- RiskTrendAnalyzer.cagr returns 0.0, not None, when it cannot compute a rate. The borrowings compute_yoy does the same.
- Each module scores differently:
  - risk: a severity-weighted share of the worst possible total, where a higher score is worse;
  - liquidity: max(0, 100 − 10·RED − 5·YELLOW);
  - borrowings: clamp(70 − 10·RED − 5·YELLOW + GREEN);
  - capex: max(0, 100 − 15·RED − 5·YELLOW).
- Some rules can only ever give one outcome:
  - A3b and D2 of the borrowings module are always GREEN;
  - E1 and E2 of the liquidity module can be RED only when their growth inputs are missing;
  - B3 and D1 of the capex output are always NOT_APPLICABLE, because the latest year is paired with no previous one.
- The two liquidity threshold tables disagree, and the rule engine reads the dictionary LIQUIDITY_RULES. load_liquidity_config ignores its argument.
- The asset-quality run_aiqm_module does not pass the payload's benchmarks on, so the defaults are always used.

## Model

| member | source | states |
|---|---|---|
| Common.SafeDiv | src/app/asset_intangible_quality_module/aiqm_metrics.py:13-15 | None exactly when the numerator is missing or the denominator missing or 0; otherwise the quotient times the denominator is the numerator. |
| Common.Cagr | src/app/working_capital_module/wc_trend.py:4-7 | None exactly when start or end is missing or 0, start is not positive or there are no years; otherwise the compound growth in percent. |
| Common.RoundHalfEven | src/app/risk_scenario_detection_module/risk_orchestrator.py:107 | round() lies within one half of its argument. |
| Common.Round | src/app/working_capital_module/wc_trend.py:62 | round(x, d) lies within half a unit of the d-th decimal of x. |
| Common.LookupAt | src/app/working_capital_module/wc_trend.py:14-20 | In a dictionary without repeated keys each key finds its own entry. |
| Common.LookupAbsent | src/app/working_capital_module/wc_trend.py:14-20 | A key no entry carries is not found. |
| Common.Store | src/app/asset_intangible_quality_module/aiqm_metrics.py:159 | After d[k] = v the key finds v, every other key finds what it found before, the keys gain k and at most one entry is added. |
| Common.StoreAll | src/app/asset_intangible_quality_module/aiqm_metrics.py:97-186 | The dictionary a loop builds by storing pairs in turn has no repeated keys and exactly the pairs' keys. |
| Common.StoreAllLookup | src/app/asset_intangible_quality_module/aiqm_metrics.py:97-186 | After the loop a key holds the value of its last pair. |
| Common.StoreAllDistinct | src/app/asset_intangible_quality_module/aiqm_metrics.py:97-186 | Without repeated keys each pair keeps its own value. |
| Common.KeyListed | src/app/asset_intangible_quality_module/aiqm_metrics.py:159 | Every entry's key is a key of the dictionary. |
| Common.KeyIndex | src/app/asset_intangible_quality_module/aiqm_metrics.py:159 | Every key is carried by some entry. |
| Common.LookupPresent | src/app/asset_intangible_quality_module/aiqm_orchestrator.py:65 | A key of the dictionary finds an entry. |
| Common.LookupMissing | src/app/asset_intangible_quality_module/aiqm_orchestrator.py:65 | A key the dictionary lacks finds nothing. |
| Common.LookupFound | src/app/asset_intangible_quality_module/aiqm_orchestrator.py:65 | Lookup succeeds once an entry carries the key. |
| Common.KeyList | src/app/asset_intangible_quality_module/aiqm_orchestrator.py:64 | The keys in insertion order. |
| Common.KeyListKeys | src/app/asset_intangible_quality_module/aiqm_orchestrator.py:64 | Every listed key is a key of the dictionary. |
| Common.KeyUnlisted | src/app/asset_intangible_quality_module/aiqm_orchestrator.py:64 | A key no entry carries is not a key. |
| Common.StoreNew | src/app/asset_intangible_quality_module/aiqm_metrics.py:159 | Storing a new key appends the pair. |
| Common.StoreAt | src/app/asset_intangible_quality_module/aiqm_metrics.py:159 | Storing a held key replaces that pair in place. |
| Common.StoreTwice | src/app/asset_intangible_quality_module/aiqm_metrics.py:159 | A second store of a key overrides the first. |
| Common.NoDupPerm | src/app/asset_intangible_quality_module/aiqm_metrics.py:92 | A rearrangement of a list without repeats has none. |
| Common.StoreAllAscending | src/app/asset_intangible_quality_module/aiqm_metrics.py:92-159 | Storing pairs with non-decreasing keys builds strictly increasing keys. |
| Common.KeyListNoDup | src/app/asset_intangible_quality_module/aiqm_orchestrator.py:64 | The keys of a dictionary do not repeat. |
| Common.Present | src/app/asset_intangible_quality_module/aiqm_trend.py:31 | The values the None filter keeps are values of the series, no more of them than entries. |
| PyStr.Split | src/app/asset_intangible_quality_module/aiqm_metrics.py:22 | Every token of split() is non-empty and holds no whitespace. |
| PyStr.SplitKeepsText | src/app/asset_intangible_quality_module/aiqm_metrics.py:22 | The tokens glued together are the text without its whitespace. |
| PyStr.SplitWord | src/app/asset_intangible_quality_module/aiqm_metrics.py:22 | A word without whitespace splits into itself. |
| PyStr.SplitAfterSpace | src/app/asset_intangible_quality_module/aiqm_metrics.py:22 | Leading whitespace drops out of the split. |
| PyStr.SplitTwoWords | src/app/asset_intangible_quality_module/aiqm_metrics.py:22 | "Mar 2024" splits into "Mar" and "2024". |
| PyStr.UpperStr | src/main.py:148 | upper() on ASCII letters keeps the length, leaves no lower-case letter, changes exactly the lower-case letters and keeps each letter's case-folded identity. |
| PyStr.LowerStr | web_scrap_screener.py:136 | lower() on ASCII letters keeps the length, leaves no upper-case letter, changes exactly the upper-case letters and keeps each letter's case-folded identity. |
| PyStr.UpperIdempotent | src/main.py:148 | Upper-casing twice is upper-casing once. |
| PyStr.Show | src/app/asset_intangible_quality_module/aiqm_orchestrator.py:21 | str(n) of a natural number is a non-empty digit string. |
| PyStr.ShowValue | src/app/asset_intangible_quality_module/aiqm_orchestrator.py:21-23 | Rendering and reading a number are inverse. |
| PyStr.ParseInt | src/app/asset_intangible_quality_module/aiqm_metrics.py:23 | int(t), without underscores or surrounding whitespace, succeeds exactly on ASCII digits with an optional sign, and reads plain digits as their value. |
| PyStr.ParseShow | src/app/asset_intangible_quality_module/aiqm_metrics.py:22-23 | A number printed and read back, with or without '-', is the number. |
| PyStr.RStrip | src/app/asset_intangible_quality_module/aiqm_models.py:68 | rstrip() removes exactly the trailing whitespace: a prefix, not ending in whitespace, followed only by whitespace. |
| PyStr.LStrip | src/app/asset_intangible_quality_module/aiqm_models.py:68 | lstrip() removes exactly the leading whitespace: a suffix, not starting with whitespace, preceded only by whitespace. |
| PyStr.StripTrimmed | src/app/asset_intangible_quality_module/aiqm_models.py:68 | A text without whitespace at either end is its own strip. |
| PyStr.Without | src/app/asset_intangible_quality_module/aiqm_models.py:68 | replace(c, "") leaves no c, adds no character and is no longer than the text. |
| PyStr.UnsignedDecimal | src/app/asset_intangible_quality_module/aiqm_models.py:68 | A decimal text without sign reads as a non-negative number. |
| PyStr.DecimalValue | src/app/asset_intangible_quality_module/aiqm_models.py:68 | The value of digits either side of a point is non-negative. |
| PyStr.ParseDecimalShow | src/app/asset_intangible_quality_module/aiqm_models.py:68 | A natural number printed by str, with or without '-', reads back as itself. |
| PyStr.WithoutAppend | src/app/asset_intangible_quality_module/aiqm_models.py:68 | Removing a character distributes over concatenation. |
| PyStr.WithoutAbsent | src/app/asset_intangible_quality_module/aiqm_models.py:68 | Removing an absent character changes nothing. |
| PyStr.DecimalParts | src/app/asset_intangible_quality_module/aiqm_models.py:68 | float("w.f") is w plus f over the power of ten. |
| Sorting.Insert | src/app/asset_intangible_quality_module/aiqm_trend.py:42 | Inserting after every element with a key not larger keeps the list sorted and adds exactly x. |
| Sorting.SortBy | src/app/asset_intangible_quality_module/aiqm_trend.py:42 | sorted(key=...) has the input's length, is ordered by key and is a permutation of the input (stability: Sorting.SortStable). |
| Sorting.SortedLastBound | src/app/asset_intangible_quality_module/aiqm_trend.py:42 | No key exceeds the last element's after sorting. |
| Sorting.Reverse | src/app/working_capital_module/wc_trend.py:18 | The reverse has the same length and mirrored elements. |
| Sorting.InsertWithKey | src/app/asset_intangible_quality_module/aiqm_trend.py:42 | Inserting x into a sorted list places it after every element with its key and changes no other key's order. |
| Sorting.SortStable | src/app/asset_intangible_quality_module/aiqm_trend.py:42 | sorted is stable: for every key, the elements with that key keep their input order. |
| RiskConfig.DefaultsShape | src/app/risk_scenario_detection_module/risk_config.py:4-37 | Every rule key has a default; the two year counts are 2; every ratio threshold lies strictly between 0 and 1; both manual related-party tables hold five values. |
| RiskModels.ToYearFinancials | src/app/risk_scenario_detection_module/risk_models.py:6-29 | Building the record succeeds exactly when the dictionary validates; the record's year, ebit and operating_profit are the coerced dictionary values. |
| RiskModels.CoerceYear | src/app/risk_scenario_detection_module/risk_models.py:8 | The int field keeps a whole number and rejects a fraction, null and any other non-string value; a string is read by int() once stripped. |
| RiskModels.YearSpellings | src/app/risk_scenario_detection_module/risk_models.py:8 | A year given as a number, as its decimal text or as that text padded with spaces coerces to the same year. |
| RiskModels.Build | src/app/risk_scenario_detection_module/risk_models.py:6-29 | The record of a validating dictionary carries its year, ebit and operating_profit. |
| RiskMetrics.SafeFloat | src/app/risk_scenario_detection_module/risk_metrics.py:5-9 | None and unconvertible values give None, a number is kept, a string is whatever float() reads from it. |
| RiskMetrics.ComputeDerivedMetrics | src/app/risk_scenario_detection_module/risk_metrics.py:12-42 | Every input key survives and unwritten keys keep their values; rollover and capitalised interest are written only when both operands convert; net_debt is filled from borrowings (or 0) only when missing; operating_cash_flow is filled from cash_from_operating_activity only when missing and that value is present. |
| RiskTrend.YoyAt | src/app/risk_scenario_detection_module/risk_trend.py:42-52 | None exactly for a missing or zero base or a missing current value; otherwise the growth times abs(prev) is curr - prev. |
| RiskTrend.Yoy | src/app/risk_scenario_detection_module/risk_trend.py:35-53 | One entry per adjacent pair (none for fewer than two values), each the growth of that pair. |
| RiskTrend.Cagr | src/app/risk_scenario_detection_module/risk_trend.py:56-62 | 0.0 when the start is missing or zero, the end is missing or periods is not positive; otherwise (end/start)^(1/periods) - 1. |
| RiskTrend.RunEndFacts | src/app/risk_scenario_detection_module/risk_trend.py:65-75 | The run counter after i values is the length of the longest all-True suffix of the first i values. |
| RiskTrend.BestRunFacts | src/app/risk_scenario_detection_module/risk_trend.py:65-75 | The best counter after i values is the length of some all-True stretch and no all-True stretch of the first i values is longer. |
| RiskTrend.LongestRunIsLongest | src/app/risk_scenario_detection_module/risk_trend.py:65-75 | consecutive_true's result is the length of a run of Trues, no run is longer, and it is 0 exactly when no value is True. |
| RiskTrend.ConsecutiveTrue | src/app/risk_scenario_detection_module/risk_trend.py:65-75 | The loop returns the longest run of Trues, bounded by the length, and 0 exactly when no value is True. |
| RiskTrend.BelowFlags | src/app/risk_scenario_detection_module/risk_trend.py:9-13 | One flag per zipped pair, True exactly when both values are present and the first is smaller. |
| RiskTrend.ZombieRunsNeedData | src/app/risk_scenario_detection_module/risk_trend.py:78-85 | Every year inside a counted run has both operands present with the first below the second. |
| RiskTrend.ZombieSignals | src/app/risk_scenario_detection_module/risk_trend.py:78-85 | Both counts are the longest runs of years with ebit (resp. ocf) present and below a present interest. |
| RiskTrend.RatioAt | src/app/risk_scenario_detection_module/risk_trend.py:89-98 | None exactly for a missing numerator or a missing or zero denominator; otherwise the ratio times its denominator gives back the (absolute) numerator. |
| RiskTrend.ZipRatios | src/app/risk_scenario_detection_module/risk_trend.py:150-218 | The ratio list is as long as the shorter input and holds the ratio of each zipped pair. |
| RiskTrend.WindowSignals | src/app/risk_scenario_detection_module/risk_trend.py:87-105 | The window lists are the growth lists of cash, net income and revenue and the one-off ratio list, which is None exactly where net income is missing or zero or the one-off value is missing. |
| RiskTrend.CountNegative | src/app/risk_scenario_detection_module/risk_trend.py:110-111 | The count of declines is at most the number of values and 0 exactly when no present value is negative. |
| RiskTrend.CountNegativeAppend | src/app/risk_scenario_detection_module/risk_trend.py:110-111 | The decline count adds up over any split of the list, so it counts declines anywhere, not consecutive ones. |
| RiskTrend.AssetSignals | src/app/risk_scenario_detection_module/risk_trend.py:107-145 | The decline count is bounded by the number of year pairs; assets_shrinking and debt_rising hold only when at least two values exist and the first and last are present. |
| RiskTrend.EvergreeningSignals | src/app/risk_scenario_detection_module/risk_trend.py:147-184 | The three ratio lists are those of the zipped pairs; each present principal ratio times net debt is the absolute repayment. |
| RiskTrend.CircularSignals | src/app/risk_scenario_detection_module/risk_trend.py:186-227 | The six lists are the three zipped ratio lists and the growth lists of receivables, revenue and ocf. |
| RiskFallback.Dedup | src/app/risk_scenario_detection_module/risk_insight_fallback.py:8-10 | The distinct rule names, each once, and exactly the names that occur. |
| RiskFallback.ByName | src/app/risk_scenario_detection_module/risk_insight_fallback.py:8-10 | Exactly the findings carrying the given rule name. |
| RiskFallback.AddToGroupsKeys | src/app/risk_scenario_detection_module/risk_insight_fallback.py:8-10 | setdefault adds a key only for a rule name not yet present, at the end. |
| RiskFallback.AddToGroupsAt | src/app/risk_scenario_detection_module/risk_insight_fallback.py:8-10 | An existing group receives the finding exactly when its key is the finding's rule name. |
| RiskFallback.AddToGroupsNew | src/app/risk_scenario_detection_module/risk_insight_fallback.py:8-10 | A new rule name opens a one-finding group at the end. |
| RiskFallback.GroupKeysInOrder | src/app/risk_scenario_detection_module/risk_insight_fallback.py:8-10 | The grouping's keys are the distinct rule names in first-occurrence order. |
| RiskFallback.GroupsDistinct | src/app/risk_scenario_detection_module/risk_insight_fallback.py:8-10 | No rule name is grouped twice. |
| RiskFallback.AbsentName | src/app/risk_scenario_detection_module/risk_insight_fallback.py:8-10 | A rule name without a group has no findings. |
| RiskFallback.GroupItemsByName | src/app/risk_scenario_detection_module/risk_insight_fallback.py:8-10 | Each group holds exactly that rule's findings, in input order. |
| RiskFallback.FlagsDescendingSorted | src/app/risk_scenario_detection_module/risk_insight_fallback.py:12 | The fixed flag order is descending by flag name and lists every flag. |
| RiskFallback.SortedFlags | src/app/risk_scenario_detection_module/risk_insight_fallback.py:12 | Exactly the flags the items carry, in descending string order. |
| RiskFallback.KeepSorted | src/app/risk_scenario_detection_module/risk_insight_fallback.py:12 | Filtering a descending list keeps it descending. |
| RiskFallback.Render | src/app/risk_scenario_detection_module/risk_insight_fallback.py:14 | The rendered line starts with the rule name followed by " (". |
| RiskFallback.Group | src/app/risk_scenario_detection_module/risk_insight_fallback.py:8-10 | The grouping loop computes the grouping function. |
| RiskFallback.RenderGroups | src/app/risk_scenario_detection_module/risk_insight_fallback.py:11-14 | One line per group, in the groups' order. |
| RiskFallback.GroupedLines | src/app/risk_scenario_detection_module/risk_insight_fallback.py:5-15 | The lines of a grouping are one per distinct rule name in first-seen order, each with that rule's sorted flags and reasons. |
| RiskFallback.GenerateFallbackNarrative | src/app/risk_scenario_detection_module/risk_insight_fallback.py:5-15 | One line per distinct rule name in first-seen order, with that rule's flags sorted descending and its reasons; no findings give no lines. |
| RiskRules.Merge | src/app/risk_scenario_detection_module/risk_rules.py:47-49 | The merged thresholds hold every default and every override key, an override wins and a default survives when not overridden; the result still satisfies the threshold invariant. |
| RiskRules.ResultForgetsYear | src/app/risk_scenario_detection_module/risk_rules.py:30-39 | _make_rule passes a year that RuleResult has no field for: two findings serialise alike exactly when they differ at most in that year. |
| RiskRules.ResultsOf | src/app/risk_scenario_detection_module/risk_orchestrator.py:39 | rules_serialized has one RuleResult per finding, in order, each with the finding's rule id and flag. |
| RiskRules.HitsMembers | src/app/risk_scenario_detection_module/risk_rules.py:158-290 | One rule loop reports at most one finding per index, and a finding exactly for each index whose values meet the rule's condition, built with the year of that index (the year argument of _make_rule, which the RuleResult drops). |
| RiskRules.AppendHits | src/app/risk_scenario_detection_module/risk_rules.py:158-290 | The loop appends exactly that rule's findings to what was reported before. |
| RiskRules.FirstDividendHit | src/app/risk_scenario_detection_module/risk_rules.py:201-210 | The search returns the first year from i on with a dividend above 0 and fixed assets below the year before, and no earlier year qualifies. |
| RiskRules.WindowOfRecords | src/app/risk_scenario_detection_module/risk_rules.py:114-125 | The growth lists are shorter than the record list and the one-off ratio list is no longer. |
| RiskRules.EvergreeningOfRecords | src/app/risk_scenario_detection_module/risk_rules.py:114-125 | The three ratio lists are no longer than the record list. |
| RiskRules.CircularOfRecords | src/app/risk_scenario_detection_module/risk_rules.py:114-125 | The ratio lists are no longer than the record list; the three growth lists have equal length, shorter than the record list. |
| RiskRules.RiskRulesEngine.constructor | src/app/risk_scenario_detection_module/risk_rules.py:47-49 | The engine's thresholds are the defaults merged with the overrides. |
| RiskRules.RiskRulesEngine.Evaluate | src/app/risk_scenario_detection_module/risk_rules.py:51-293 | evaluate returns the findings of the rule catalogue on the year-sorted records; no records give no findings. |
| RiskRules.RiskRulesEngine.EbitColumn | src/app/risk_scenario_detection_module/risk_rules.py:59-69 | The ebit column is each record's ebit, or None when it has none. |
| RiskRules.RiskRulesEngine.Signals | src/app/risk_scenario_detection_module/risk_rules.py:56-125 | The extracted series and the five detectors' outputs are those of the sorted records. |
| RiskRules.RiskRulesEngine.ZombieRules | src/app/risk_scenario_detection_module/risk_rules.py:131-156 | Z1, Z2 and Z3 are reported as the zombie group specifies. |
| RiskRules.RiskRulesEngine.WindowRules | src/app/risk_scenario_detection_module/risk_rules.py:158-190 | W1, W2 and W3 are reported as the window group specifies. |
| RiskRules.RiskRulesEngine.AssetRules | src/app/risk_scenario_detection_module/risk_rules.py:192-218 | A1, A2 (first qualifying year, then break) and A3 are reported as the asset group specifies. |
| RiskRules.RiskRulesEngine.EvergreeningRules | src/app/risk_scenario_detection_module/risk_rules.py:220-246 | E1, E2 and E3 are reported as the evergreening group specifies. |
| RiskRules.RiskRulesEngine.CircularRules | src/app/risk_scenario_detection_module/risk_rules.py:248-290 | C1, C2, C2b and C3 are reported as the circular group specifies. |
| RiskRules.WithId | src/app/risk_scenario_detection_module/risk_rules.py:51-293 | The findings of one rule are exactly the input's findings with that id. |
| RiskRules.WithIdAppend | src/app/risk_scenario_detection_module/risk_rules.py:51-293 | Filtering by rule commutes with concatenation of the groups. |
| RiskRules.CatalogueOrder | src/app/risk_scenario_detection_module/risk_rules.py:131-290 | Findings come out in catalogue order: Z1, Z2, Z3, W1, W2, W3, A1, A2, A3, E1, E2, E3, C1, C2, C2b, C3. |
| RiskRules.WithIdGroups | src/app/risk_scenario_detection_module/risk_rules.py:131-290 | A rule's findings are the union over the five groups of that rule's findings. |
| RiskRules.ZombieGroupOfRule | src/app/risk_scenario_detection_module/risk_rules.py:131-156 | Z1, Z2 and Z3 findings come only from the zombie group. |
| RiskRules.AssetGroupOfRule | src/app/risk_scenario_detection_module/risk_rules.py:192-218 | A1, A2 and A3 findings come only from the asset group. |
| RiskRules.EbitRunRuleFiresOnce | src/app/risk_scenario_detection_module/risk_rules.py:131-138 | Z1 fires at most once, exactly when the longest EBIT-below-interest run reaches interest_overtake_years. |
| RiskRules.OcfRunRuleFiresOnce | src/app/risk_scenario_detection_module/risk_rules.py:140-147 | Z2 fires at most once, exactly when the longest OCF-below-interest run reaches interest_overtake_years. |
| RiskRules.NetDebtRuleFiresOnce | src/app/risk_scenario_detection_module/risk_rules.py:149-156 | Z3 fires at most once, exactly when the last net income is below the first and the last net debt above the first (all four present), carrying the net-debt increase; _make_rule is passed the latest year, which the RuleResult drops. |
| RiskRules.FirstDividendHitComplete | src/app/risk_scenario_detection_module/risk_rules.py:201-210 | The search finds a year exactly when some year from the second on qualifies. |
| RiskRules.DividendRuleFirstYear | src/app/risk_scenario_detection_module/risk_rules.py:201-210 | A2 fires at most once, exactly when some year has a positive dividend and falling fixed assets, carrying the dividend of the first such year (whose year is passed to _make_rule and dropped by the RuleResult). |
| RiskRules.PerYearFindingsDated | src/app/risk_scenario_detection_module/risk_rules.py:158-290 | The year argument _make_rule receives for a growth-based finding of entry i is that of sorted record i + 1, for a per-year ratio finding that of record i; the RuleResult drops it (see Left out). |
| RiskRules.MissingYoyHandling | src/app/risk_scenario_detection_module/risk_rules.py:176-190 | W3 treats a missing revenue growth as no growth and still fires; C2b skips a year when either growth is missing. |
| RiskRules.RuleKeysDecide | src/app/risk_scenario_detection_module/risk_rules.py:131-290 | Two threshold maps that agree on the ten rule keys give the same findings. |
| RiskRules.UnusedThresholds | src/app/risk_scenario_detection_module/risk_rules.py:131-290 | dividend_high_ratio and rpt_assets_threshold never change the findings. |
| RiskRules.RZ1 | src/app/risk_scenario_detection_module/risk_rules.py:131-138 | Z1 is the CRITICAL rule whose threshold text shows interest_overtake_years. |
| RiskRules.RZ2 | src/app/risk_scenario_detection_module/risk_rules.py:140-147 | Z2 is the HIGH rule whose threshold text shows interest_overtake_years. |
| RiskRules.RW1 | src/app/risk_scenario_detection_module/risk_rules.py:158-165 | W1 is the YELLOW rule whose threshold text shows fake_cash_spike_threshold. |
| RiskRules.RW2 | src/app/risk_scenario_detection_module/risk_rules.py:167-174 | W2 is the YELLOW rule whose threshold text shows oneoff_profit_jump_threshold. |
| RiskRules.RW3 | src/app/risk_scenario_detection_module/risk_rules.py:176-190 | W3 is the YELLOW rule whose threshold text shows profit_spike_no_revenue_threshold. |
| RiskRules.RA1 | src/app/risk_scenario_detection_module/risk_rules.py:192-199 | A1 is the RED rule whose threshold text shows fixed_asset_decline_years. |
| RiskRules.RE1 | src/app/risk_scenario_detection_module/risk_rules.py:220-227 | E1 is the RED rule whose threshold text shows loan_rollover_critical_ratio. |
| RiskRules.RE2 | src/app/risk_scenario_detection_module/risk_rules.py:229-236 | E2 is the YELLOW rule whose threshold text shows interest_capitalized_ratio. |
| RiskRules.RE3 | src/app/risk_scenario_detection_module/risk_rules.py:238-246 | E3 is the YELLOW rule whose threshold text shows minimal_principal_repayment_ratio. |
| RiskRules.RC1 | src/app/risk_scenario_detection_module/risk_rules.py:248-255 | C1 is the RED rule whose threshold text shows rpt_revenue_threshold. |
| RiskRules.RC2 | src/app/risk_scenario_detection_module/risk_rules.py:257-264 | C2 is the YELLOW rule whose threshold text shows rpt_recv_spike_threshold. |
| RiskRules.RC2b | src/app/risk_scenario_detection_module/risk_rules.py:266-279 | C2b is the YELLOW rule whose threshold text shows rpt_recv_spike_threshold, the same key as C2. |
| RiskOrchestrator.EnrichAll | src/app/risk_scenario_detection_module/risk_orchestrator.py:20-24 | Each year is enriched with the manual related-party values of its position, ebit from operating_profit and net_debt from borrowings. |
| RiskOrchestrator.EnrichYears | src/app/risk_scenario_detection_module/risk_orchestrator.py:17-29 | The enrichment loop fails exactly when some enriched year does not validate (including a sixth year, whose manual lookup raises); otherwise it yields every enriched year. |
| RiskOrchestrator.EnrichedKeys | src/app/risk_scenario_detection_module/risk_orchestrator.py:20-24 | Enrichment writes exactly the four keys and keeps every other one. |
| RiskOrchestrator.TooManyYears | src/app/risk_scenario_detection_module/risk_orchestrator.py:21-22 | Six years or more always fail validation, whatever they hold. |
| RiskOrchestrator.SameFieldsSameValidity | src/app/risk_scenario_detection_module/risk_orchestrator.py:25-32 | A dictionary differing only in derived keys, with a net_debt that coerces, validates like the original. |
| RiskOrchestrator.DerivedFrame | src/app/risk_scenario_detection_module/risk_metrics.py:12-42 | compute_derived_metrics writes only its four keys; a present net_debt is kept and a missing one becomes a number or null. |
| RiskOrchestrator.DerivedKeeps | src/app/risk_scenario_detection_module/risk_metrics.py:12-42 | A field compute_derived_metrics does not write keeps its value. |
| RiskOrchestrator.DerivedOcf | src/app/risk_scenario_detection_module/risk_metrics.py:36-39 | The operating cash flow left behind is the input one, a number or null. |
| RiskOrchestrator.DerivedStillValid | src/app/risk_scenario_detection_module/risk_orchestrator.py:31-32 | Rebuilding records from the derived dictionaries of validated years cannot fail, and keeps a defined ebit. |
| RiskOrchestrator.EnrichedEbit | src/app/risk_scenario_detection_module/risk_orchestrator.py:23 | An enriched year has ebit equal to operating_profit. |
| RiskOrchestrator.Rebuilt | src/app/risk_scenario_detection_module/risk_orchestrator.py:32 | The rebuilt record of a validated year with agreeing ebit has a defined ebit. |
| RiskOrchestrator.Records | src/app/risk_scenario_detection_module/risk_orchestrator.py:32 | One record per derived dictionary, in order. |
| RiskOrchestrator.MergeTwice | src/app/risk_scenario_detection_module/risk_orchestrator.py:35-37 | Merging the overrides again inside the engine changes nothing. |
| RiskOrchestrator.LastKeyMetrics | src/app/risk_scenario_detection_module/risk_orchestrator.py:44-53 | The related-party key metrics are the manual values of the last input position. |
| RiskOrchestrator.YoyPct | src/app/risk_scenario_detection_module/risk_orchestrator.py:56-75 | After safe_num, the growth is None exactly when prev is 0; it is the TypeError of `curr - prev` exactly when prev is non-zero and either side is not a number; otherwise it times abs(prev) is (curr - prev) * 100. |
| RiskOrchestrator.SafeNum | src/app/risk_scenario_detection_module/risk_orchestrator.py:56-57 | safe_num turns None into 0 and keeps every other value, a numeric string included, as it is. |
| RiskOrchestrator.ZeroBaseSkipsArithmetic | src/app/risk_scenario_detection_module/risk_orchestrator.py:71-72 | Example: a zero or missing previous value gives None whatever the current value is, a string included. |
| RiskOrchestrator.StringRaises | src/app/risk_scenario_detection_module/risk_orchestrator.py:74 | Example: a string next to a non-zero number raises TypeError. |
| RiskOrchestrator.SlotLabels | src/app/risk_scenario_detection_module/risk_orchestrator.py:63-65 | The labels map "Y", "Y-1", ... to the values, strings included, counted back from the newest. |
| RiskOrchestrator.YoyPairs | src/app/risk_scenario_detection_module/risk_orchestrator.py:67-75 | The loop raises exactly when some adjacent pair raises; otherwise one growth entry per adjacent pair, keyed "Y-(j-1)_vs_Y-j" and holding that pair's growth. |
| RiskOrchestrator.BuildTrend | src/app/risk_scenario_detection_module/risk_orchestrator.py:56-81 | build_trend raises exactly when a growth step of that key raises; otherwise its values are the year values (null as 0) newest first, its growth entries those of the adjacent pairs, and its insight names the key. |
| RiskOrchestrator.TrendValues | src/app/risk_scenario_detection_module/risk_orchestrator.py:59-60 | The trend values are the key's values of the derived years after safe_num, in order. |
| RiskOrchestrator.BuildTrends | src/app/risk_scenario_detection_module/risk_orchestrator.py:83-87 | The trends dictionary raises exactly when one of the four trends raises; otherwise one trend per trend key, in order, each with one value per year. |
| RiskOrchestrator.ShortTrendsNeverRaise | src/app/risk_scenario_detection_module/risk_orchestrator.py:67 | With at most one year there is no growth step, so no trend raises whatever the values are. |
| RiskOrchestrator.DeriveAll | src/app/risk_scenario_detection_module/risk_orchestrator.py:31 | One derived dictionary per year, in order, each that of its year. |
| RiskOrchestrator.DerivedAll | src/app/risk_scenario_detection_module/risk_orchestrator.py:31 | One derived dictionary per year, each that of its year. |
| RiskOrchestrator.RedFlagsOf | src/app/risk_scenario_detection_module/risk_orchestrator.py:94-101 | Every CRITICAL, RED or HIGH finding gives a red flag and only those do; the severity is CRITICAL or HIGH. |
| RiskOrchestrator.PositivesOf | src/app/risk_scenario_detection_module/risk_orchestrator.py:102-103 | Every other finding gives a "name: reason" positive point. |
| RiskOrchestrator.PartitionCounts | src/app/risk_scenario_detection_module/risk_orchestrator.py:94-103 | Every finding lands on exactly one of the two lists. |
| RiskOrchestrator.Partition | src/app/risk_scenario_detection_module/risk_orchestrator.py:90-103 | The loop builds exactly those two lists. |
| RiskOrchestrator.ScenarioScore | src/app/risk_scenario_detection_module/risk_orchestrator.py:105-107 | The score lies between 0 and 100 and is 0 for no findings. |
| RiskOrchestrator.ScoreExtremes | src/app/risk_scenario_detection_module/risk_orchestrator.py:92-107 | All-CRITICAL findings score 100; all-GREEN findings score 0. |
| RiskOrchestrator.AllRank | src/app/risk_scenario_detection_module/risk_orchestrator.py:105 | Findings of one flag add up to that flag's rank times their number. |
| RiskOrchestrator.SummaryColor | src/app/risk_scenario_detection_module/risk_orchestrator.py:109 | RED exactly from 70, YELLOW exactly from 40 below 70, GREEN exactly below 40. |
| RiskOrchestrator.ColorMonotone | src/app/risk_scenario_detection_module/risk_orchestrator.py:109 | A higher score never gets a milder colour. |
| RiskOrchestrator.Narrate | src/app/risk_scenario_detection_module/risk_orchestrator.py:110-119 | The model's text when the call answered; otherwise the fallback narrative, one line per distinct rule name. |
| RiskOrchestrator.Assemble | src/app/risk_scenario_detection_module/risk_orchestrator.py:122-140 | The report's score, colour, flags, points and scenarios are those computed from the findings, and its rules are the findings serialised as RuleResults, without their years. |
| RiskOrchestrator.RecordsEbit | src/app/risk_scenario_detection_module/risk_orchestrator.py:32-38 | Every record handed to the engine has an ebit. |
| RiskOrchestrator.Analyse | src/app/risk_scenario_detection_module/risk_orchestrator.py:31-140 | After a successful enrichment, run raises an index error exactly on empty input, a trend TypeError exactly when a trend raises, and otherwise assembles the report. |
| RiskOrchestrator.ReportRelatedParty | src/app/risk_scenario_detection_module/risk_orchestrator.py:44-53 | The report's related-party key metrics are the manual values of the last position. |
| RiskOrchestrator.Run | src/app/risk_scenario_detection_module/risk_orchestrator.py:16-140 | run reports input_validation_failed exactly when some enriched year fails validation, raises an index error exactly on empty input, raises the trend TypeError exactly when a valid non-empty input has a trend step that raises, and otherwise returns the report of the evaluated findings with the manual related-party values of the last year. |
| RiskOrchestrator.Finish | src/app/risk_scenario_detection_module/risk_orchestrator.py:39-140 | Once the findings are known, run raises the trend TypeError exactly when a trend raises; otherwise the report is the one run assembles, with the key metrics of the last derived year. |
| RiskOrchestrator.EnrichAllFacts | src/app/risk_scenario_detection_module/risk_orchestrator.py:20-25 | Every enriched year has ebit equal to operating_profit. |
| WcModels.MakeYearInput | src/app/working_capital_module/wc_models.py:6-12 | The record carries the year, and every amount left out is 0.0. |
| WcModels.DefaultBenchmarks | src/app/working_capital_module/wc_models.py:33-50 | The default benchmarks, with each moderate bound below its critical one. |
| WcModels.YearSetMembers | src/app/working_capital_module/wc_models.py:83-84 | The set of years holds exactly the years of the list. |
| WcModels.YearSetSize | src/app/working_capital_module/wc_models.py:83-84 | The set of years is as large as the list exactly when no year repeats. |
| WcModels.ParseInput | src/app/working_capital_module/wc_models.py:71-86 | The input is refused with the duplicate-year error exactly when two records share a year; otherwise it is kept as given. |
| WcMetrics.DaysOver | src/app/working_capital_module/wc_metrics.py:13-20 | calc_dso, calc_dio and calc_dpo: None exactly for a zero base; otherwise days times base is amount times 365. |
| WcMetrics.Ccc | src/app/working_capital_module/wc_metrics.py:22-25 | None exactly when one of the three is None; otherwise ccc + dpo == dso + dio. |
| WcMetrics.Nwc | src/app/working_capital_module/wc_metrics.py:27-28 | nwc + payables == receivables + inventory. |
| WcMetrics.NwcRatio | src/app/working_capital_module/wc_metrics.py:30-31 | None exactly for zero revenue; otherwise the ratio times revenue is nwc. |
| WcMetrics.ExtractYearInt | src/app/working_capital_module/wc_metrics.py:33-39 | An int year is itself; a label gives a year exactly when it has a last whitespace-separated token that int() reads. |
| WcMetrics.ExtractYearIntLabel | src/app/working_capital_module/wc_metrics.py:33-39 | A label such as "Mar 2024" gives its year. |
| WcMetrics.MetricsOf | src/app/working_capital_module/wc_metrics.py:54-82 | One year's metrics copy the amounts and derive dso, dio, dpo, ccc, nwc and nwc_ratio from them. |
| WcMetrics.MetricsScenario | src/app/working_capital_module/test_wc_metrics.py:16-47 | Illustration on one input (general: WcMetrics.MetricsOf): the scenario of test_wc_metrics.py (100, 50, 80, 1000, 600) gives dso 36.5, ccc 54.75, nwc 130 and ratio 0.13. |
| WcMetrics.PerYearLookup | src/app/working_capital_module/wc_metrics.py:51-84 | A year's entry is the metrics of the last record of that year. |
| WcMetrics.PerYearKeys | src/app/working_capital_module/wc_metrics.py:51-84 | Every record's year is a key, keys are distinct, and the result is empty only for no records. |
| WcMetrics.ComputePerYearMetrics | src/app/working_capital_module/wc_metrics.py:41-84 | The loop stores each sorted record's metrics under its year. |
| WcMetrics.PerYearSingle | src/app/working_capital_module/wc_metrics.py:41-84 | A single record gives a one-entry dictionary keyed by its year. |
| WcTrend.Yoy | src/app/working_capital_module/wc_trend.py:9-12 | None exactly for a missing or zero previous or a missing current value; otherwise the growth times previous is current - previous. |
| WcTrend.CagrOneYear | src/app/working_capital_module/wc_trend.py:4-12 | Over one year compute_cagr is compute_yoy as a percentage. |
| WcTrend.BuildYearMap | src/app/working_capital_module/wc_trend.py:14-23 | The loop builds the labelled map of the values newest first. |
| WcTrend.YearMapLookup | src/app/working_capital_module/wc_trend.py:14-23 | The n labels are distinct and each finds its value, newest first; later labels find nothing. |
| WcTrend.Round2 | src/app/working_capital_module/wc_trend.py:62 | Rounding keeps None and moves a value by at most 0.005. |
| WcTrend.YoyMapOf | src/app/working_capital_module/wc_trend.py:25-64 | One growth entry per adjacent pair. |
| WcTrend.BuildYoyMap | src/app/working_capital_module/wc_trend.py:25-64 | The loop builds that growth map. |
| WcTrend.LatestYoy | src/app/working_capital_module/wc_trend.py:49-62 | "Y_vs_Y-1" holds the rounded growth of the two newest values and is absent below two values. |
| WcTrend.Classify | src/app/working_capital_module/wc_trend.py:66-88 | No data exactly for no numeric growth; accelerating exactly with three or more and last > 1.2 times first; declining exactly when not accelerating and last < 0.8 times first; mixed otherwise. |
| WcTrend.ClassifyPositiveBase | src/app/working_capital_module/wc_trend.py:75-86 | From a positive first rate, accelerating means a larger last rate and declining a smaller one. |
| WcTrend.ClassifyNegativeBase | src/app/working_capital_module/wc_trend.py:75-86 | Illustration on one input (general: WcTrend.Classify): from a negative first rate a lower last rate reads as accelerating. |
| WcTrend.GenerateInsight | src/app/working_capital_module/wc_trend.py:66-88 | The no-data sentence exactly when no growth is present; otherwise the sentence of the decision, carrying the rounded average. |
| WcTrend.SeriesOf | src/app/working_capital_module/wc_trend.py:101-104 | One amount per sorted record, oldest first. |
| WcTrend.ChronoYoy | src/app/working_capital_module/wc_trend.py:108-111 | One growth per adjacent pair, oldest first. |
| WcTrend.SeriesSummary | src/app/working_capital_module/wc_trend.py:113-133 | One series' values, growth map and insight. |
| WcTrend.ComputeTrendOutput | src/app/working_capital_module/wc_trend.py:90-135 | The summary of the four series of the year-sorted records. |
| WcTrend.TrendLookup | src/app/working_capital_module/wc_trend.py:113-134 | Each of the four series finds its own trend; COGS has none. |
| WcRules.LatestYoyOf | src/app/working_capital_module/wc_rules.py:38-46 | A missing series gives None; otherwise the series' "Y_vs_Y-1" entry, None when absent. |
| WcRules.Tier | src/app/working_capital_module/wc_rules.py:53-70 | Above high is RED, from moderate to high YELLOW, below moderate GREEN, each both ways. |
| WcRules.TierMonotone | src/app/working_capital_module/wc_rules.py:53-70 | A higher value never earns a milder band. |
| WcRules.RuleA1 | src/app/working_capital_module/wc_rules.py:52-70 | A1 carries DSO and is RED exactly above 75, YELLOW exactly from 60 to 75, GREEN exactly below 60. |
| WcRules.RuleA2 | src/app/working_capital_module/wc_rules.py:72-85 | A2 carries the receivables growth and is YELLOW exactly when it exceeds 20 with revenue growth below 10, GREEN otherwise. |
| WcRules.RuleB1 | src/app/working_capital_module/wc_rules.py:91-109 | B1 carries DIO and is RED exactly above 120, YELLOW exactly from 90 to 120, GREEN exactly below 90. |
| WcRules.RuleB2 | src/app/working_capital_module/wc_rules.py:111-124 | B2 carries the inventory growth and is YELLOW exactly when it exceeds 20 with revenue growth below 5, GREEN otherwise. |
| WcRules.RuleC1 | src/app/working_capital_module/wc_rules.py:130-148 | C1 carries DPO and is YELLOW exactly outside 30 to 90 days, GREEN within; never RED. |
| WcRules.RuleC2 | src/app/working_capital_module/wc_rules.py:150-163 | C2 carries the payables growth and is YELLOW exactly when it is below -10 with revenue growth above 5, GREEN otherwise. |
| WcRules.RuleD1 | src/app/working_capital_module/wc_rules.py:169-187 | D1 carries CCC and is RED exactly above 180, YELLOW exactly from 120 to 180, GREEN exactly below 120. |
| WcRules.RuleE1 | src/app/working_capital_module/wc_rules.py:198-217 | E1 carries the NWC ratio and is RED exactly above 0.25, YELLOW exactly from 0.15 to 0.25, GREEN exactly below 0.15. |
| WcRules.RuleE2 | src/app/working_capital_module/wc_rules.py:219-240 | E2 carries the NWC CAGR and is RED exactly when it exceeds the revenue CAGR plus 0.10, GREEN otherwise. |
| WcRules.EmitPair | src/app/working_capital_module/wc_rules.py:73-163 | A growth rule's result is appended exactly when both growths exist. |
| WcRules.EmitRatio | src/app/working_capital_module/wc_rules.py:199 | E1's result is appended exactly when the ratio exists. |
| WcRules.WcRuleEngine | src/app/working_capital_module/wc_rules.py:20-242 | The engine returns the catalogue of the latest metrics and latest growths; the benchmarks are not read. |
| WcRules.CatalogueIds | src/app/working_capital_module/wc_rules.py:52-242 | A1, B1, C1 and D1 always fire; A2, B2 and C2 exactly when both growths exist; E1 exactly when the ratio exists; E2 exactly when both CAGRs exist; in this order. |
| WcRules.ThresholdsAreDefaults | src/app/working_capital_module/wc_models.py:33-50 | The engine's fixed bounds are those of the default benchmarks. |
| WcRules.EngineTestCase | src/app/working_capital_module/test_wc_rules.py:10-43 | Illustration on one input (general: WcRules.CatalogueIds): the rules test's mock gives all nine results in catalogue order with the flags its comments state. |
| WcRules.A2NeedsTwentyfold | src/app/working_capital_module/wc_rules.py:72-85 | Since compute_yoy gives a fraction, A2's growth above 20 means receivables grew more than twentyfold. |
| WcOrchestrator.FirstDigitToken | src/app/working_capital_module/wc_orchestrator.py:14-16 | The first all-digit token from i on, and no earlier token is all digits. |
| WcOrchestrator.FirstFourDigits | src/app/working_capital_module/wc_orchestrator.py:17-18 | Where the first run of four digits from i on starts, and none starts earlier. |
| WcOrchestrator.YearOfKey | src/app/working_capital_module/wc_orchestrator.py:11-19 | An int key is itself; a label never gives a negative year. |
| WcOrchestrator.ExtractYear | src/app/working_capital_module/wc_orchestrator.py:11-19 | The token loop returns what extract_year computes. |
| WcOrchestrator.YearOfLabel | src/app/working_capital_module/wc_orchestrator.py:11-19 | A label such as "Mar 2024" gives its year. |
| WcOrchestrator.YearOfDigitless | src/app/working_capital_module/wc_orchestrator.py:17-19 | A label without digits gives 0. |
| WcOrchestrator.YearOfGlued | src/app/working_capital_module/wc_orchestrator.py:17-19 | A four-digit year glued to a word without digits, such as "FY2024", is found by the digit search. |
| WcOrchestrator.LatestIndex | src/app/working_capital_module/wc_orchestrator.py:52 | The position of the first largest year key. |
| WcOrchestrator.IntKeysUnchanged | src/app/working_capital_module/wc_orchestrator.py:52 | extract_year leaves the dictionary's int keys as they are. |
| WcOrchestrator.KeyMetricsOf | src/app/working_capital_module/wc_orchestrator.py:176-194 | Nothing exactly for no metrics; otherwise the ratios of the latest year. |
| WcOrchestrator.KeyMetricsOfRecords | src/app/working_capital_module/wc_orchestrator.py:176-194 | The key metrics are those of a record with the largest year. |
| WcOrchestrator.Severity | src/app/working_capital_module/wc_orchestrator.py:162 | D1 and E1 are CRITICAL, every other rule HIGH. |
| WcOrchestrator.Summarize | src/app/working_capital_module/wc_orchestrator.py:156-173 | The loop builds the red flags and positive points. |
| WcOrchestrator.SummaryMembers | src/app/working_capital_module/wc_orchestrator.py:160-171 | Red flags come exactly from RED results and positive points exactly from GREEN ones. |
| WcOrchestrator.RedFlagsAppend | src/app/working_capital_module/wc_orchestrator.py:160-171 | Summarising two lists summarises each, in order. |
| WcOrchestrator.CriticalFlags | src/app/working_capital_module/wc_orchestrator.py:161-162 | A CRITICAL red flag exists exactly when a RED D1 or E1 result does. |
| WcOrchestrator.CriticalInCatalogue | src/app/working_capital_module/wc_rules.py:169-217 | The engine's results hold a RED D1 or E1 exactly when CCC exceeds 180 or the NWC ratio exceeds 0.25. |
| WcOrchestrator.CriticalIff | src/app/working_capital_module/wc_orchestrator.py:101 | A CRITICAL red flag appears exactly when CCC exceeds 180 or the NWC ratio exceeds 0.25. |
| WcOrchestrator.NarrativeNotes | src/app/working_capital_module/wc_orchestrator.py:197-213 | At most three notes: the CCC note, the DSO note and the concerns note, each exactly when its input exists. |
| WcOrchestrator.LatestOf | src/app/working_capital_module/wc_orchestrator.py:73-77 | The dictionary handed to the rules has no CAGR entries; the rules can compare exactly when dso, dio, dpo and ccc exist. |
| WcOrchestrator.WorkingCapitalModule.constructor | src/app/working_capital_module/wc_orchestrator.py:23-25 | The benchmarks given, or the defaults. |
| WcOrchestrator.WorkingCapitalModule.Run | src/app/working_capital_module/wc_orchestrator.py:27-149 | run performs the six steps in order. |
| WcOrchestrator.RunWorkingCapitalModule | src/app/working_capital_module/wc_orchestrator.py:219-238 | Parsing refuses duplicate years; otherwise the module's run on the parsed years. |
| WcOrchestrator.LatestRecord | src/app/working_capital_module/wc_orchestrator.py:43-54 | The latest entry holds the metrics of a record whose year is the largest. |
| WcOrchestrator.RunNoMetrics | src/app/working_capital_module/wc_orchestrator.py:45-49 | A run stops for want of metrics exactly when there are no records. |
| WcOrchestrator.RunRuleError | src/app/working_capital_module/wc_orchestrator.py:83-91 | The rules fail exactly when the latest record has no revenue or no COGS. |
| WcOrchestrator.RunDoneParts | src/app/working_capital_module/wc_orchestrator.py:83-149 | A completed run holds the engine's results on the latest metrics and their summary. |
| WcOrchestrator.NoCagrResults | src/app/working_capital_module/wc_rules.py:219-240 | Without CAGRs there is no E2 result, and the CRITICAL flags come from D1 and E1. |
| WcOrchestrator.RunDone | src/app/working_capital_module/wc_orchestrator.py:27-149 | A completed run never holds E2, and holds a CRITICAL red flag exactly when the latest CCC exceeds 180 or the NWC ratio exceeds 0.25. |
| WcOrchestrator.RunSpec | src/app/working_capital_module/wc_orchestrator.py:27-149 | run ends in the LLM error only when the model call failed, and a completed run is module WorkingCapital for the requested company with the model's reply. |
| DebtMetrics.Get | src/app/borrowing_module/debt_metrics.py:58-71 | midd.get gives the number, or None when the key is absent or holds None. |
| DebtMetrics.FloatInput | src/app/borrowing_module/debt_metrics.py:58 | midd.get('floating_rate_debt', 0) gives 0 for an absent key, None exactly for a key holding None, and the number otherwise. |
| DebtMetrics.FloatingShare | src/app/borrowing_module/debt_metrics.py:59-64 | An input in (0, 1] is taken as the share; any other input is divided by total debt, None exactly when total debt is 0. |
| DebtMetrics.MetricsOfFields | src/app/borrowing_module/debt_metrics.py:29-78 | One year's entry: total debt and the asset proxy, the copied amounts, the four ratios (None on a zero or missing denominator) and the midd fields, None unless the year is the latest. |
| DebtMetrics.EntriesAt | src/app/borrowing_module/debt_metrics.py:29-80 | Entry i pairs sorted record i's year with its metrics. |
| DebtMetrics.YearEntry | src/app/borrowing_module/debt_metrics.py:29-80 | The loop body fails with the TypeError exactly for the latest year when the floating-rate entry holds None; otherwise it gives the record's dictionary. |
| DebtMetrics.StoreYears | src/app/borrowing_module/debt_metrics.py:29-82 | The loop over the sorted records fails exactly on that TypeError and otherwise stores every record's metrics under its year. |
| DebtMetrics.ComputePerYearMetrics | src/app/borrowing_module/debt_metrics.py:14-82 | compute_per_year_metrics computes its specification. |
| DebtMetrics.MaxYear | src/app/borrowing_module/debt_metrics.py:23-27 | The largest year is the year of some record and no record has a larger one. |
| DebtMetrics.LastSortedIsMax | src/app/borrowing_module/debt_metrics.py:23-27 | The last sorted record has the largest year. |
| DebtMetrics.PerYearOutcome | src/app/borrowing_module/debt_metrics.py:14-82 | {} exactly for no records; the TypeError exactly for records with a null floating-rate entry; otherwise one entry per year of the records. |
| DebtMetrics.PerYearEntry | src/app/borrowing_module/debt_metrics.py:29-80 | A year's entry is the metrics of its last record, with the midd fields exactly when the year is the largest. |
| DebtMetrics.EarlierYearsHaveNoMidd | src/app/borrowing_module/debt_metrics.py:72-78 | Every year but the latest has None for the floating share, WACD and maturities. |
| DebtMetrics.MissingFloatIsZeroShare | src/app/borrowing_module/debt_metrics.py:58-64 | An absent floating-rate entry counts as 0, a share of 0 unless total debt is 0. |
| DebtTrend.DebtYoy | src/app/borrowing_module/debt_trend.py:11-14 | 0.0 for a missing or zero previous value; otherwise growth times previous is 100 times the change. |
| DebtTrend.YearsOf | src/app/borrowing_module/debt_trend.py:19 | The dictionary's years in ascending order. |
| DebtTrend.StDebtGrowth | src/app/borrowing_module/debt_trend.py:52-62 | One short-term debt growth per consecutive pair of years. |
| DebtTrend.GrowthGap | src/app/borrowing_module/debt_trend.py:79-83 | The gap exists exactly when both CAGRs do and then is their difference. |
| DebtTrend.StDebtYoyGrowth | src/app/borrowing_module/debt_trend.py:52-62 | The loop computes that growth list. |
| DebtTrend.ComputeTrendMetrics | src/app/borrowing_module/debt_trend.py:17-84 | compute_trend_metrics computes its specification; its financials argument is not read. |
| DebtTrend.TrendsShape | src/app/borrowing_module/debt_trend.py:17-84 | {} exactly for fewer than two years; otherwise the growth list and CAGRs over years - 1 periods from the first to the last year. |
| DebtTrend.KeysBetween | src/app/borrowing_module/debt_trend.py:19-24 | Every key lies between the first and the last sorted year. |
| DebtTrend.GapIsDifference | src/app/borrowing_module/debt_trend.py:79-83 | With two or more years the gap exists exactly when both CAGRs do and is their difference. |
| DebtTrend.CagrOnePeriod | src/app/borrowing_module/debt_trend.py:3-14 | Over one period the CAGR equals the borrowings YoY of the same two values. |
| DebtRules.DefaultGreen | src/app/borrowing_module/debt_rules.py:393-394 | default_green gives a GREEN result with the rule id and value. |
| DebtRules.Band | src/app/borrowing_module/debt_rules.py:466-545 | Above high is RED, above moderate up to high YELLOW, otherwise GREEN, each both ways. |
| DebtRules.RuleA1 | src/app/borrowing_module/debt_rules.py:407-421 | A1 is RED exactly when the debt CAGR exceeds the EBITDA CAGR. |
| DebtRules.RuleA2 | src/app/borrowing_module/debt_rules.py:423-433 | A2 is RED exactly when the last two short-term growths both exceed 30. |
| DebtRules.RuleA3 | src/app/borrowing_module/debt_rules.py:435-446 | A3 is YELLOW exactly when the long-term debt CAGR exceeds 10 and the revenue CAGR is below 5. |
| DebtRules.CwipRatio | src/app/borrowing_module/debt_rules.py:449-451 | cwip over total assets, 0 when total assets is 0. |
| DebtRules.RuleA3b | src/app/borrowing_module/debt_rules.py:448-460 | A3b is GREEN either way, in its capex branch exactly when the long-term CAGR is positive and the CWIP ratio exceeds 0.10. |
| DebtRules.RuleB1 | src/app/borrowing_module/debt_rules.py:466-473 | B1 is RED exactly above 1, YELLOW exactly above 0.5 up to 1, GREEN otherwise. |
| DebtRules.RuleB2 | src/app/borrowing_module/debt_rules.py:475-482 | B2 is RED exactly above 4, YELLOW exactly above 2 up to 4, GREEN otherwise. |
| DebtRules.RuleC1 | src/app/borrowing_module/debt_rules.py:488-494 | C1 is RED exactly below 1.5, YELLOW exactly from 1.5 below 3, GREEN otherwise. |
| DebtRules.RuleC2 | src/app/borrowing_module/debt_rules.py:496-501 | C2 is YELLOW exactly when the finance cost CAGR exceeds the debt CAGR by more than 5. |
| DebtRules.RuleD1 | src/app/borrowing_module/debt_rules.py:507-512 | D1 is RED exactly when more than half of the debt matures within a year. |
| DebtRules.RuleD2 | src/app/borrowing_module/debt_rules.py:514-521 | D2 is GREEN either way, balanced exactly when r1 >= 0.3 and r2 >= 0.2. |
| DebtRules.RuleE1 | src/app/borrowing_module/debt_rules.py:527-533 | E1 is RED exactly above 0.6, YELLOW exactly above 0.4 up to 0.6, GREEN otherwise. |
| DebtRules.RuleF1 | src/app/borrowing_module/debt_rules.py:539-545 | F1 is RED exactly above 0.10, YELLOW exactly above 0.07 up to 0.10, GREEN otherwise. |
| DebtRules.TrendGet | src/app/borrowing_module/debt_rules.py:408-497 | trends.get(key, 0) is 0 when the trends are {}. |
| DebtRules.MaxKey | src/app/borrowing_module/debt_rules.py:400-401 | The largest key of the per-year dictionary. |
| DebtRules.ApplyGroupA | src/app/borrowing_module/debt_rules.py:403-460 | The A rules of apply_rules. |
| DebtRules.ApplyGroupBC | src/app/borrowing_module/debt_rules.py:462-501 | The B and C rules of apply_rules. |
| DebtRules.ApplyGroupDF | src/app/borrowing_module/debt_rules.py:503-545 | The D, E and F rules of apply_rules. |
| DebtRules.ApplyRules | src/app/borrowing_module/debt_rules.py:397-547 | apply_rules returns the catalogue on the latest year's metrics and the trends; its financials argument is not read. |
| DebtRules.CatalogueOrder | src/app/borrowing_module/debt_rules.py:397-547 | Exactly twelve results: A1, A2, A3, A3b, B1, B2, C1, C2, D1, D2, E1, F1. |
| DebtRules.CatalogueFlags | src/app/borrowing_module/debt_rules.py:397-547 | A3b and D2 are always GREEN; no rule gives CRITICAL, HIGH or NOT_APPLICABLE. |
| DebtRules.NoTrendsAreGreen | src/app/borrowing_module/debt_rules.py:408-437 | With trends {} A1, A3 and C2 are GREEN and A2 is GREEN with value 0. |
| DebtRules.ReadsLatestYear | src/app/borrowing_module/debt_rules.py:400-401 | The rules read the metrics of the largest year. |
| DebtMetrics.MetricsOf | src/app/borrowing_module/debt_metrics.py:29-78 | One record's metrics keep its year, total assets are equity plus total debt, the D/E ratio times equity is total debt, and only the latest year has the floating share, WACD and maturity entries. |
| DebtOrchestrator.CountFlag | src/app/borrowing_module/debt_orchestrator.py:17 | The Counter of a flag never exceeds the number of results. |
| DebtOrchestrator.Clamp | src/app/borrowing_module/debt_orchestrator.py:24 | max(0, min(100, score)) lies in [0, 100], keeps a score already there and maps scores below and above to 0 and 100. |
| DebtOrchestrator.SubScore | src/app/borrowing_module/debt_orchestrator.py:16-24 | The score lies in [0, 100] and is 70 - 10 per RED - 5 per YELLOW + 1 per GREEN whenever that lies in range. |
| DebtOrchestrator.CountsPartition | src/app/borrowing_module/debt_orchestrator.py:17-22 | When every result is RED, YELLOW or GREEN the three counts add up to the number of results. |
| DebtOrchestrator.CountAppend | src/app/borrowing_module/debt_orchestrator.py:17 | Counting two lists counts each. |
| DebtOrchestrator.GreenCounted | src/app/borrowing_module/debt_orchestrator.py:17-22 | A GREEN result adds one to the GREEN count. |
| DebtOrchestrator.CatalogueScore | src/app/borrowing_module/debt_orchestrator.py:16-24 | On the twelve rule results the score is max(0, 82 - 11 per RED - 6 per YELLOW), with at least two GREEN results. |
| DebtOrchestrator.TwelveScore | src/app/borrowing_module/debt_orchestrator.py:16-24 | Twelve graded results with the fourth and tenth GREEN score max(0, 82 - 11 per RED - 6 per YELLOW). |
| DebtOrchestrator.Summarize | src/app/borrowing_module/debt_orchestrator.py:30-44 | The loop builds the red flags and positive points. |
| DebtOrchestrator.SummaryCounts | src/app/borrowing_module/debt_orchestrator.py:34-42 | As many red flags as RED results and as many positive points as GREEN results. |
| DebtOrchestrator.SummaryMembers | src/app/borrowing_module/debt_orchestrator.py:34-42 | Each red flag comes from a RED result and each positive point from a GREEN one, and every such result gives one. |
| DebtOrchestrator.SummaryAppend | src/app/borrowing_module/debt_orchestrator.py:34-42 | Summarising two lists summarises each, in order. |
| DebtOrchestrator.Items | src/app/borrowing_module/debt_orchestrator.py:58 | metrics.items() lists every key of the year's dictionary in insertion order with its value. |
| DebtOrchestrator.MetricKeysNoDup | src/app/borrowing_module/debt_metrics.py:36-78 | A year's dictionary has no key twice. |
| DebtOrchestrator.DescYears | src/app/borrowing_module/debt_orchestrator.py:54 | The years, latest first, each a key. |
| DebtOrchestrator.PlaceYear | src/app/borrowing_module/debt_orchestrator.py:58-61 | The inner loop stores one year's items. |
| DebtOrchestrator.PlaceNext | src/app/borrowing_module/debt_orchestrator.py:54-61 | One pass of the outer loop stores the next year on top of the earlier ones. |
| DebtOrchestrator.ReshapeMetrics | src/app/borrowing_module/debt_orchestrator.py:50-63 | reshape_metrics computes its specification. |
| DebtOrchestrator.PlaceFresh | src/app/borrowing_module/debt_orchestrator.py:58-61 | The first year's items create one single-label column per key. |
| DebtOrchestrator.PlaceGrows | src/app/borrowing_module/debt_orchestrator.py:58-61 | A later year's items append its label and value to each column. |
| DebtOrchestrator.ReshapeFirst | src/app/borrowing_module/debt_orchestrator.py:54-61 | The first year creates the columns, each holding that year's value. |
| DebtOrchestrator.ReshapeExtend | src/app/borrowing_module/debt_orchestrator.py:54-61 | A later year new to the columns is appended to each of them. |
| DebtOrchestrator.ReshapeTable | src/app/borrowing_module/debt_orchestrator.py:54-61 | Over distinct years the loops build one column per metric key, each listing every year once, in visiting order, with its value. |
| DebtOrchestrator.DescYearsNoDup | src/app/borrowing_module/debt_orchestrator.py:54 | Distinct keys give distinct years. |
| DebtOrchestrator.ReshapeShape | src/app/borrowing_module/debt_orchestrator.py:50-63 | {} for no years; otherwise one entry per metric key whose value lists every year once, latest first, under "Mar <year>", with that year's value. |
| DebtOrchestrator.ReshapeKeeps | src/app/borrowing_module/debt_orchestrator.py:50-63 | Every year's value of every metric is found again under its key and label. |
| DebtOrchestrator.DescYearsCover | src/app/borrowing_module/debt_orchestrator.py:54 | Every key is among the visited years. |
| DebtOrchestrator.TableLookup | src/app/borrowing_module/debt_orchestrator.py:59-61 | Metric k's column is found under k. |
| DebtOrchestrator.ColumnLookup | src/app/borrowing_module/debt_orchestrator.py:55-61 | Over distinct years a column finds each year's value under its label. |
| LiquidityConfig.ThresholdPairs | src/app/liquidity_module/liquidity_config.py:7-35 | The dataclass's six (critical, moderate) pairs, in declaration order. |
| LiquidityConfig.BoundPairs | src/app/liquidity_module/liquidity_config.py:79-98 | The same six pairs of LIQUIDITY_RULES["generic"]. |
| LiquidityConfig.LoadIgnoresIndustry | src/app/liquidity_module/liquidity_config.py:49-57 | load_liquidity_config returns the default configuration whatever industry it is given. |
| LiquidityConfig.BoundsOrdered | src/app/liquidity_module/liquidity_config.py:11-98 | In both tables each critical bound lies strictly below its moderate bound. |
| LiquidityConfig.TablesDisagree | src/app/liquidity_module/liquidity_config.py:11-98 | The two tables agree only on the critical current ratio; the moderate current ratio is 1.2 in the dataclass and 1.0 in the dictionary. |
| LiquidityMetrics.OrZeroFloat | src/app/liquidity_module/liquidity_metrics.py:27-36 | x or 0.0 on a float keeps the value. |
| LiquidityMetrics.Ratio | src/app/liquidity_module/liquidity_metrics.py:7-9 | safe_div on floats is None exactly for a zero denominator; otherwise ratio times denominator is the numerator. |
| LiquidityMetrics.ComputePerYearMetrics | src/app/liquidity_module/liquidity_metrics.py:12-82 | compute_per_year_metrics computes its specification. |
| LiquidityMetrics.RatiosOfYear | src/app/liquidity_module/liquidity_metrics.py:44-54 | Current, quick and cash ratios divide by current liabilities and are None exactly when they are 0; quick excludes inventory. |
| LiquidityMetrics.DefensiveInterval | src/app/liquidity_module/liquidity_metrics.py:38-61 | The defensive interval is cash, securities and receivables over daily expenses, None exactly when those are 0. |
| LiquidityMetrics.CoverageRatios | src/app/liquidity_module/liquidity_metrics.py:64-67 | The four coverage ratios are None exactly when their denominators are 0. |
| LiquidityMetrics.EntriesAt | src/app/liquidity_module/liquidity_metrics.py:23-80 | Entry i pairs sorted record i's year with its metrics. |
| LiquidityMetrics.PerYearKeys | src/app/liquidity_module/liquidity_metrics.py:19-82 | The keys are exactly the years of the records. |
| LiquidityMetrics.PerYearAscending | src/app/liquidity_module/liquidity_metrics.py:21-82 | One entry per year, the years strictly increasing. |
| LiquidityMetrics.PerYearValue | src/app/liquidity_module/liquidity_metrics.py:21-82 | Each year holds the metrics of the last sorted record of that year. |
| LiquidityTrend.SafeYoy | src/app/liquidity_module/liquidity_trend.py:7-10 | None exactly for a missing or zero previous or a missing current value; otherwise growth times previous is 100 times the change. |
| LiquidityTrend.Extract | src/app/liquidity_module/liquidity_trend.py:19-20 | One value per record, in order. |
| LiquidityTrend.SeriesYoy | src/app/liquidity_module/liquidity_trend.py:23-30 | As long as its input; all None below two values; otherwise first None and entry k the growth from value k-1 to k. |
| LiquidityTrend.ComputeSeriesYoy | src/app/liquidity_module/liquidity_trend.py:23-30 | The loop computes that list. |
| LiquidityTrend.HasConsecutive | src/app/liquidity_module/liquidity_trend.py:33-60 | The streak loop with its early return decides the detector. |
| LiquidityTrend.HasConsecutiveDecline | src/app/liquidity_module/liquidity_trend.py:33-45 | _has_consecutive_decline decides the falling detector. |
| LiquidityTrend.HasConsecutiveRise | src/app/liquidity_module/liquidity_trend.py:48-60 | _has_consecutive_rise decides the rising detector. |
| LiquidityTrend.StreakRun | src/app/liquidity_module/liquidity_trend.py:33-60 | The streak at k reaches n exactly when the n pairs ending at k all move in the direction. |
| LiquidityTrend.DetectsThreeInRow | src/app/liquidity_module/liquidity_trend.py:33-60 | With span 3 a detector is true exactly when three consecutive present values move strictly in its direction. |
| LiquidityTrend.RatioEntry | src/app/liquidity_module/liquidity_trend.py:66-71 | None exactly for a missing numerator or a missing or zero denominator; otherwise ratio times denominator is the numerator. |
| LiquidityTrend.ComputeRatioSeries | src/app/liquidity_module/liquidity_trend.py:63-72 | The loop computes one ratio per record. |
| LiquidityTrend.QuickOf | src/app/liquidity_module/liquidity_trend.py:121-129 | None exactly for zero current liabilities; otherwise (current assets - inventory) over them. |
| LiquidityTrend.CashRatioOf | src/app/liquidity_module/liquidity_trend.py:122-130 | None exactly for zero current liabilities; otherwise cash over them. |
| LiquidityTrend.QuickAndCash | src/app/liquidity_module/liquidity_trend.py:117-130 | The loop builds both ratio series together. |
| LiquidityTrend.PatternsOf | src/app/liquidity_module/liquidity_trend.py:139-140 | The stress pattern is the and, the worsening pattern the or, of their detectors. |
| LiquidityTrend.DetectPatterns | src/app/liquidity_module/liquidity_trend.py:133-140 | The pattern block computes the patterns of the sorted records. |
| LiquidityTrend.YoyBlock | src/app/liquidity_module/liquidity_trend.py:101-106 | The six growth series in output order. |
| LiquidityTrend.ComputeLiquidityTrends | src/app/liquidity_module/liquidity_trend.py:75-171 | compute_liquidity_trends computes its specification. |
| LiquidityTrend.TrendsAligned | src/app/liquidity_module/liquidity_trend.py:75-171 | {} exactly for fewer than two records; otherwise ascending years and one entry per record in every series, the quick and cash ratios None exactly for zero current liabilities. |
| LiquidityTrend.PatternMeaning | src/app/liquidity_module/liquidity_trend.py:133-140 | Cash stress is cash falling while current liabilities rise; worsening is receivables or inventory rising; each over three consecutive years. |
| LiquidityTrend.CombinedPatterns | src/app/liquidity_module/liquidity_trend.py:133-140 | The two combined patterns stated as three-year runs. |
| LiquidityConfig.LoadLiquidityConfig | src/app/liquidity_module/liquidity_config.py:51-57 | The configuration loaded has each critical bound at most its moderate bound, and an OCF decline window of 2 years. |
| LiquidityMetrics.MetricsOf | src/app/liquidity_module/liquidity_metrics.py:23-80 | One record's metrics: its year; current, quick and cash ratios times current liabilities give current assets, current assets less inventory, and cash, None exactly for zero liabilities; the defensive interval times daily expenses gives the liquid assets; OCF over total debt is None exactly for zero debt. |
| LiquidityRules.FlagBasic | src/app/liquidity_module/liquidity_rules.py:21-34 | RED exactly for a missing value or one below critical, YELLOW exactly from critical below moderate, GREEN otherwise. |
| LiquidityRules.BasicRule | src/app/liquidity_module/liquidity_rules.py:47-123 | A ratio rule carries its metric and the flag _flag_basic gives on its configured bounds. |
| LiquidityRules.RuleC3 | src/app/liquidity_module/liquidity_rules.py:125-143 | C3 is RED exactly for a missing value or one below 1, GREEN exactly from 3, YELLOW between. |
| LiquidityRules.RuleD1 | src/app/liquidity_module/liquidity_rules.py:148-167 | D1 is RED exactly for a missing value or one below 0.2, GREEN exactly from 1, YELLOW between. |
| LiquidityRules.RuleE1 | src/app/liquidity_module/liquidity_rules.py:174-213 | E1 is RED exactly when a growth is missing, YELLOW exactly when receivables exceed 25 with falling OCF; its serious-collection branch is never taken. |
| LiquidityRules.RuleE2 | src/app/liquidity_module/liquidity_rules.py:217-257 | E2 is RED exactly when the inventory growth is missing, YELLOW exactly when it exceeds 25 without cash improvement; its high-overstock branch is never taken. |
| LiquidityRules.LastOf | src/app/liquidity_module/liquidity_rules.py:182-185 | The last entry of a non-empty list, otherwise None. |
| LiquidityRules.RatioRules | src/app/liquidity_module/liquidity_rules.py:44-167 | Eight ratio results, A1 to D1. |
| LiquidityRules.StressRules | src/app/liquidity_module/liquidity_rules.py:170-257 | Two stress results, E1 and E2. |
| LiquidityRules.RatioBlock | src/app/liquidity_module/liquidity_rules.py:44-167 | The A to D part of the engine computes the ratio rules. |
| LiquidityRules.StressBlock | src/app/liquidity_module/liquidity_rules.py:170-257 | The E part reads the last growth entries, None for an empty list. |
| LiquidityRules.EvaluateRules | src/app/liquidity_module/liquidity_rules.py:40-259 | evaluate_rules computes the catalogue. |
| LiquidityRules.CatalogueOrder | src/app/liquidity_module/liquidity_rules.py:40-259 | Ten results A1, A2, A3, B1, C1, C2, C3, D1, E1, E2, whatever the inputs. |
| LiquidityRules.RatioRulesUseGeneric | src/app/liquidity_module/liquidity_rules.py:42-123 | A1 to C2 classify their metric with _flag_basic on the bounds of LIQUIDITY_RULES["generic"]. |
| LiquidityRules.InlineCutOffs | src/app/liquidity_module/liquidity_rules.py:125-167 | C3 and D1 are _flag_basic with cut-offs 1/3 and 0.2/1 written out. |
| LiquidityRules.FlagBasicMonotone | src/app/liquidity_module/liquidity_rules.py:21-34 | A larger value never gets a worse flag and a missing value gets the worst. |
| LiquidityRules.NoTrendsStressRed | src/app/liquidity_module/liquidity_rules.py:178-236 | Without trends E1 and E2 are RED for lack of data. |
| LiquidityFallback.Title | src/app/liquidity_module/liquidity_insight_fallback.py:18 | replace('_', ' ').title() keeps the length, leaves no underscore and keeps which characters are letters. |
| LiquidityFallback.SeqMax | src/app/liquidity_module/liquidity_insight_fallback.py:22 | max() is a member and bounds every value. |
| LiquidityFallback.SeqMin | src/app/liquidity_module/liquidity_insight_fallback.py:23 | min() is a member and is bounded by every value. |
| LiquidityFallback.MetricOf | src/app/liquidity_module/liquidity_insight_fallback.py:45-87 | A name selects a specific block exactly when it is one of the five metric names. |
| LiquidityFallback.GenericInsight | src/app/liquidity_module/liquidity_insight_fallback.py:100-106 | The generic fallback sentence is one of the generic ones. |
| LiquidityFallback.CashBlock | src/app/liquidity_module/liquidity_insight_fallback.py:45-53 | The cash block appends its sentences as their conditions hold. |
| LiquidityFallback.ReceivablesBlock | src/app/liquidity_module/liquidity_insight_fallback.py:56-64 | The receivables block appends its sentences as their conditions hold. |
| LiquidityFallback.InventoryBlock | src/app/liquidity_module/liquidity_insight_fallback.py:67-73 | The inventory block appends its sentences as their conditions hold. |
| LiquidityFallback.OcfBlock | src/app/liquidity_module/liquidity_insight_fallback.py:76-84 | The OCF block appends its sentences as their conditions hold. |
| LiquidityFallback.ClBlock | src/app/liquidity_module/liquidity_insight_fallback.py:87-95 | The current-liabilities block appends its sentences as their conditions hold. |
| LiquidityFallback.MetricInsights | src/app/liquidity_module/liquidity_insight_fallback.py:44-95 | The if/elif chain on the metric name. |
| LiquidityFallback.Analyse | src/app/liquidity_module/liquidity_insight_fallback.py:20-106 | The statistics, patterns, specific block and generic sentence. |
| LiquidityFallback.GenerateLiquidityFallbackInsight | src/app/liquidity_module/liquidity_insight_fallback.py:8-108 | generate_liquidity_fallback_insight computes its specification; the values per year are not read. |
| LiquidityFallback.InsufficientIffNoValues | src/app/liquidity_module/liquidity_insight_fallback.py:15-18 | The insufficient-data sentence comes exactly when no growth value is present. |
| Common.PresentEmpty | src/app/liquidity_module/liquidity_insight_fallback.py:15 | No value survives the None filter exactly when every value is None (also aiqm_trend.py:31-32). |
| LiquidityFallback.NeverEmpty | src/app/liquidity_module/liquidity_insight_fallback.py:100-108 | Otherwise there is at least one sentence, the generic one only when alone. |
| LiquidityFallback.SpecificNotGeneric | src/app/liquidity_module/liquidity_insight_fallback.py:44-95 | No metric-specific sentence is a generic one. |
| LiquidityFallback.UnknownMetricGeneric | src/app/liquidity_module/liquidity_insight_fallback.py:44-106 | Any other metric name gets exactly the generic sentence. |
| LiquidityFallback.StatsOrdered | src/app/liquidity_module/liquidity_insight_fallback.py:21-24 | The average lies between min and max, so the volatility is never negative. |
| LiquidityFallback.MeanBounds | src/app/liquidity_module/liquidity_insight_fallback.py:21 | A mean lies within any bounds of its values. |
| LiquidityFallback.RecentAverage | src/app/liquidity_module/liquidity_insight_fallback.py:27-29 | recent_avg averages whichever of the two newest growths are present, 0 when neither is. |
| LiquidityOrchestrator.CountFlag | src/app/liquidity_module/liquidity_orchestrator.py:23-27 | The count of a flag never exceeds the number of rules. |
| LiquidityOrchestrator.CountAppend | src/app/liquidity_module/liquidity_orchestrator.py:23-27 | Counting two lists counts each. |
| LiquidityOrchestrator.ScoreRules | src/app/liquidity_module/liquidity_orchestrator.py:22-27 | The loop computes 100 - 10 per RED - 5 per YELLOW. |
| LiquidityOrchestrator.Adjusted | src/app/liquidity_module/liquidity_orchestrator.py:69 | max(score, 0) is at least 0 and the score, and keeps a non-negative score. |
| LiquidityOrchestrator.CountsBounded | src/app/liquidity_module/liquidity_orchestrator.py:23-27 | The RED and YELLOW counts together never exceed the number of rules. |
| LiquidityOrchestrator.ScoreBounds | src/app/liquidity_module/liquidity_orchestrator.py:22-69 | The adjusted score lies in [0, 100], and for at most ten rules the floor never changes it. |
| LiquidityOrchestrator.CollectRedFlags | src/app/liquidity_module/liquidity_orchestrator.py:38-47 | The red-flag loop computes its specification. |
| LiquidityOrchestrator.RedFlagCounts | src/app/liquidity_module/liquidity_orchestrator.py:38-47 | As many red flags as RED and YELLOW rules, each CRITICAL or HIGH. |
| LiquidityOrchestrator.RedFlagMembers | src/app/liquidity_module/liquidity_orchestrator.py:38-47 | Every RED or YELLOW rule is reported under its name and reason. |
| LiquidityOrchestrator.RedFlagSources | src/app/liquidity_module/liquidity_orchestrator.py:38-47 | Every red flag reports a RED rule as CRITICAL or a YELLOW rule as HIGH. |
| LiquidityOrchestrator.RedFlagsAppend | src/app/liquidity_module/liquidity_orchestrator.py:38-47 | Reporting distributes over concatenation, keeping the rules' order. |
| LiquidityOrchestrator.ResultOf | src/app/liquidity_module/liquidity_orchestrator.py:57-64 | A RuleResult keeps the id and flag and reads a missing value as 0.0. |
| LiquidityOrchestrator.ToRuleResult | src/app/liquidity_module/liquidity_orchestrator.py:57-64 | One conversion computes its specification. |
| LiquidityOrchestrator.ResultsOf | src/app/liquidity_module/liquidity_orchestrator.py:55-64 | One RuleResult per rule. |
| LiquidityOrchestrator.ToRuleResults | src/app/liquidity_module/liquidity_orchestrator.py:55-64 | The loop computes the RuleResults. |
| LiquidityOrchestrator.ResultsAt | src/app/liquidity_module/liquidity_orchestrator.py:55-64 | Result i converts rule i: same id and flag, a missing value read as 0.0. |
| LiquidityOrchestrator.Summarize | src/app/liquidity_module/liquidity_orchestrator.py:22-74 | From the rules on: module "Liquidity", the floored score, the red flags, the two fixed positive points and the RuleResults. |
| CapexMetrics.Growth | src/app/capex_cwip_module/metrics_engine.py:5-11 | safe_div of the change over the previous amount: None exactly when that amount is 0, otherwise the growth times it is the change. |
| CapexMetrics.EfficiencyRatios | src/app/capex_cwip_module/metrics_engine.py:33-45 | capex_intensity, asset_turnover and fcf_coverage are None exactly when their numerator or denominator is missing or the denominator is 0, otherwise the quotient. |
| CapexMetrics.CwipShare | src/app/capex_cwip_module/metrics_engine.py:34-35 | cwip_pct exists exactly when CWIP and NFA are both present (and their sum is not 0); nfa_cwip_total counts a missing amount as 0. |
| CapexMetrics.NoPairNoGrowth | src/app/capex_cwip_module/metrics_engine.py:38-52 | Without prev every YoY metric and debt_funded_capex is None. |
| CapexMetrics.PairedGrowth | src/app/capex_cwip_module/metrics_engine.py:38-41 | With prev each YoY metric is the change over prev's value, None exactly when that value is 0. |
| CapexMetrics.DebtFundedCapex | src/app/capex_cwip_module/metrics_engine.py:47-52 | debt_funded_capex is the growth of long-term debt over capex, None when prev's debt is missing or capex missing or 0. |
| CapexMetrics.PresentSnoc | src/app/capex_cwip_module/metrics_engine.py:59 | The None filter keeps exactly the present values in order. |
| CapexMetrics.SeriesCagrIsFraction | src/app/capex_cwip_module/metrics_engine.py:57-66 | The series compute_cagr is a fraction where the trend engine's is a percentage: over the same endpoints they differ by a factor of 100. |
| CapexMetrics.SeriesCagrSkipsMissing | src/app/capex_cwip_module/metrics_engine.py:57-66 | A missing value never changes the series CAGR. |
| CapexTrend.RowsOf | src/app/capex_cwip_module/trend_engine.py:102 | One row per dictionary entry, in sorted year order. |
| CapexTrend.Series | src/app/capex_cwip_module/trend_engine.py:48-50 | _series gives one value per sorted year. |
| CapexTrend.HasConsecutiveTrend | src/app/capex_cwip_module/trend_engine.py:53-76 | The streak loop computes its specification. |
| CapexTrend.YoyColumn | src/app/capex_cwip_module/trend_engine.py:133-140 | One YoY list is computed pair by pair from the sorted series. |
| CapexTrend.YoyLists | src/app/capex_cwip_module/trend_engine.py:128-140 | The four YoY lists, each the YoY of its own field's series. |
| CapexTrend.ComputeTrends | src/app/capex_cwip_module/trend_engine.py:79-178 | compute_trends computes its specification. |
| CapexTrend.GuardRedundant | src/app/capex_cwip_module/trend_engine.py:59-60 | The length guard never changes the answer. |
| CapexTrend.NoneBreaksRun | src/app/capex_cwip_module/trend_engine.py:65-68 | Illustration on one input (general: CapexTrend.IncreasingFlags): in [1, 2, 3, None, 4] the None resets the streak, so there is no four-year rise. |
| CapexTrend.RisingRun | src/app/capex_cwip_module/trend_engine.py:65-72 | Illustration on one input (general: CapexTrend.IncreasingFlags): [1, 2, 3, 4] contains a three-year rise. |
| CapexTrend.IncreasingFlags | src/app/capex_cwip_module/trend_engine.py:145-151 | Each *_increasing_3y holds exactly when three consecutive sorted years are present and strictly rising. |
| CapexTrend.TrendShapes | src/app/capex_cwip_module/trend_engine.py:102-178 | Fewer than two years give {}; otherwise one series entry per year and one YoY entry fewer. |
| CapexTrend.Chronological | src/app/capex_cwip_module/trend_engine.py:102 | The rows run over distinct years from oldest to newest, each the record stored under its year. |
| CapexTrend.YoyPairs | src/app/capex_cwip_module/trend_engine.py:41-45 | YoY entry k compares sorted year k+1 with year k, as a percentage of year k's value, None without that value. |
| CapexTrend.YoyEntry | src/app/capex_cwip_module/trend_engine.py:133-140 | YoY entry k is compute_yoy of rows k+1 and k. |
| CapexTrend.RowLookup | src/app/capex_cwip_module/trend_engine.py:134-135 | Each sorted row is found in the dictionary under its year. |
| CapexTrend.RowsDistinct | src/app/capex_cwip_module/trend_engine.py:102 | Different sorted rows have different years. |
| CapexTrend.DistinctCount | src/app/capex_cwip_module/trend_engine.py:102 | With distinct keys each dictionary entry occurs once. |
| CapexTrend.CagrEndpoints | src/app/capex_cwip_module/trend_engine.py:30-38 | The CAGRs compare the smallest and the largest year over len(years)-1 periods. |
| CapexRules.RuleA1 | src/app/capex_cwip_module/rules_engine.py:20-35 | A1 NOT_APPLICABLE exactly for a missing intensity, RED exactly above high, YELLOW exactly above moderate only. |
| CapexRules.RuleA2 | src/app/capex_cwip_module/rules_engine.py:37-50 | A2 NOT_APPLICABLE exactly for a missing CAGR, YELLOW exactly when capex CAGR exceeds revenue CAGR plus the gap, never RED. |
| CapexRules.RuleB1 | src/app/capex_cwip_module/rules_engine.py:52-66 | B1 NOT_APPLICABLE exactly for a missing share, RED exactly above critical, YELLOW exactly above warning only. |
| CapexRules.RuleB2 | src/app/capex_cwip_module/rules_engine.py:68-76 | B2 is YELLOW exactly when CWIP rose three years running, else GREEN. |
| CapexRules.RuleB3 | src/app/capex_cwip_module/rules_engine.py:78-86 | B3 is GREEN exactly when CWIP YoY is negative and NFA YoY positive, otherwise NOT_APPLICABLE. |
| CapexRules.RuleC1 | src/app/capex_cwip_module/rules_engine.py:88-102 | C1 NOT_APPLICABLE exactly for a missing turnover, RED exactly below critical, YELLOW exactly below low only. |
| CapexRules.RuleC2 | src/app/capex_cwip_module/rules_engine.py:104-119 | C2 NOT_APPLICABLE exactly for a missing CAGR, RED exactly when NFA CAGR exceeds revenue CAGR plus 0.10, never YELLOW. |
| CapexRules.RuleD1 | src/app/capex_cwip_module/rules_engine.py:121-135 | D1 NOT_APPLICABLE exactly for a missing value, RED exactly from 1.0, YELLOW exactly from the warning bound below 1.0. |
| CapexRules.RuleD2 | src/app/capex_cwip_module/rules_engine.py:137-151 | D2 NOT_APPLICABLE exactly for a missing coverage, RED exactly below 0, YELLOW exactly from 0 below 0.5. |
| CapexRules.EvaluateRules | src/app/capex_cwip_module/rules_engine.py:17-153 | evaluate_rules computes the catalogue when trends exist. |
| CapexRules.CatalogueOrder | src/app/capex_cwip_module/rules_engine.py:17-153 | Nine flags in the order A1, A2, B1, B2, B3, C1, C2, D1, D2. |
| CapexRules.NotApplicableMeansMissing | src/app/capex_cwip_module/rules_engine.py:17-153 | A one-metric rule is NOT_APPLICABLE exactly when its metric is missing; B2 never is; B3 is whenever it is not GREEN. |
| CapexRules.A1Monotone | src/app/capex_cwip_module/rules_engine.py:23-32 | A larger capex intensity never gets a better A1 flag. |
| CapexRules.C1Antitone | src/app/capex_cwip_module/rules_engine.py:90-99 | A larger asset turnover never gets a worse C1 flag. |
| CapexRules.C2MarginIsTiny | src/app/capex_cwip_module/rules_engine.py:105-110 | Illustration on one input (general: CapexRules.RuleC2): with percentage CAGRs, NFA at 5.2% against revenue at 5.0% is already RED. |
| CapexOrchestrator.NewestFirst | src/app/capex_cwip_module/orchestrator.py:16 | The sort is a permutation of the records. |
| CapexOrchestrator.YearlyOf | src/app/capex_cwip_module/orchestrator.py:22-29 | One yearly result per record. |
| CapexOrchestrator.YearlyResults | src/app/capex_cwip_module/orchestrator.py:22-29 | The metrics loop succeeds exactly when every record can be computed, and then gives the yearly results. |
| CapexOrchestrator.Tag | src/app/capex_cwip_module/orchestrator.py:42-46 | One tagged flag per finding. |
| CapexOrchestrator.CollectFlags | src/app/capex_cwip_module/orchestrator.py:39-46 | The nested rules loop computes its specification. |
| CapexOrchestrator.MaxYear | src/app/capex_cwip_module/orchestrator.py:51 | max() is one of the years and bounds them all. |
| CapexOrchestrator.YearsOf | src/app/capex_cwip_module/orchestrator.py:51 | One year per yearly result. |
| CapexOrchestrator.OfYear | src/app/capex_cwip_module/orchestrator.py:52 | The comprehension keeps only flags of the given year. |
| CapexOrchestrator.WithFlag | src/app/capex_cwip_module/orchestrator.py:61-67 | A filter keeps no more flags than it gets. |
| CapexOrchestrator.Others | src/app/capex_cwip_module/orchestrator.py:66-67 | The else branch keeps no more flags than it gets. |
| CapexOrchestrator.Partition | src/app/capex_cwip_module/orchestrator.py:57-67 | The classification loop computes the three filters. |
| CapexOrchestrator.Formatted | src/app/capex_cwip_module/orchestrator.py:72-76 | One formatted red flag per red flag. |
| CapexOrchestrator.PositivePoints | src/app/capex_cwip_module/orchestrator.py:79-82 | One positive point per green flag. |
| CapexOrchestrator.SubScore | src/app/capex_cwip_module/orchestrator.py:87-89 | The score lies in [0, 100] and is 100 - 15 per red - 5 per yellow unless floored at 0. |
| CapexOrchestrator.Run | src/app/capex_cwip_module/orchestrator.py:8-111 | run_capex_cwip_module computes its specification, the trends supplied. |
| CapexOrchestrator.Finish | src/app/capex_cwip_module/orchestrator.py:39-109 | The rules, latest-year filter, partition and score compute their specification. |
| CapexOrchestrator.PrevIsLater | src/app/capex_cwip_module/orchestrator.py:16-25 | Position 0 has no prev; the prev of any later position has the same or a later year. |
| CapexOrchestrator.LatestIsFirst | src/app/capex_cwip_module/orchestrator.py:51 | The latest year is the year of the first newest-first record. |
| CapexOrchestrator.FlagsTagged | src/app/capex_cwip_module/orchestrator.py:39-46 | Nine flags per year, each tagged with its year. |
| CapexOrchestrator.FlagsCount | src/app/capex_cwip_module/orchestrator.py:39-46 | Nine findings per item give nine tagged flags per item. |
| CapexOrchestrator.OutputShape | src/app/capex_cwip_module/orchestrator.py:51-109 | Module "CapexCWIP", score in [0, 100], only flags of the latest year, every red flag CRITICAL. |
| CapexOrchestrator.RedOnlyCritical | src/app/capex_cwip_module/orchestrator.py:62-76 | The red list holds only RED flags, so every formatted severity is CRITICAL. |
| CapexOrchestrator.PartitionCounts | src/app/capex_cwip_module/orchestrator.py:57-67 | Every flag is red, yellow or green; none is lost. |
| CapexOrchestrator.NotApplicableIsGreen | src/app/capex_cwip_module/orchestrator.py:66-82 | A NOT_APPLICABLE flag lands among the green ones and becomes a positive point. |
| CapexOrchestrator.OfYearAppend | src/app/capex_cwip_module/orchestrator.py:52 | The year filter distributes over concatenation. |
| CapexOrchestrator.OfYearTag | src/app/capex_cwip_module/orchestrator.py:42-52 | The filter keeps all of one year's tagged flags or none. |
| CapexOrchestrator.OfYearNone | src/app/capex_cwip_module/orchestrator.py:52 | Flags of other years are all dropped. |
| CapexOrchestrator.NoPrevFlags | src/app/capex_cwip_module/orchestrator.py:24-25 | The newest record has no prev, so its B3 and D1 are NOT_APPLICABLE. |
| CapexOrchestrator.LatestHasNoPrev | src/app/capex_cwip_module/orchestrator.py:16-52 | With one record of the latest year, the output rules are its nine flags and B3 and D1 are always NOT_APPLICABLE. |
| CapexOrchestrator.LatestRules | src/app/capex_cwip_module/orchestrator.py:51-52 | With one record of the latest year, the output rules are that record's flags. |
| CapexOrchestrator.KeptFirst | src/app/capex_cwip_module/orchestrator.py:52 | Without another item of the first item's year, the filter keeps exactly its flags. |
| CapexOrchestrator.FlagsAppend | src/app/capex_cwip_module/orchestrator.py:39-46 | Collecting flags distributes over concatenation. |
| CapexMetrics.YearMetricsOf | src/app/capex_cwip_module/metrics_engine.py:13-54 | compute_year_metrics: capex_intensity times revenue is capex, cwip_pct times CWIP plus NFA is CWIP, and without a paired record every YoY metric and debt_funded_capex is None. |
| CapexMetrics.SeriesCagr | src/app/capex_cwip_module/metrics_engine.py:57-66 | The series CAGR is None exactly when fewer than two values are present or the first present value is not above 0. |
| CapexOrchestrator.RunOf | src/app/capex_cwip_module/orchestrator.py:8-111 | run_capex_cwip_module fails exactly for no records, missing trends or a year whose metrics raise; otherwise its output is module CapexCWIP with one yearly entry per record. |
| AiqmModels.ParsePercentage | src/app/asset_intangible_quality_module/aiqm_models.py:52-70 | None stays None, a number is kept, a text is read after removing every '%' and stripping, any other type is rejected. |
| AiqmModels.PercentageSpellings | src/app/asset_intangible_quality_module/aiqm_models.py:54-60 | 32.97, "32.97" and "32.97%" all give 32.97. |
| AiqmModels.PlainSpelling | src/app/asset_intangible_quality_module/aiqm_models.py:67-68 | "32.97" reads as 32.97. |
| AiqmModels.NoPercentSign | src/app/asset_intangible_quality_module/aiqm_models.py:68 | Removing '%' from "32.97" changes nothing. |
| AiqmModels.AlreadyStripped | src/app/asset_intangible_quality_module/aiqm_models.py:68 | Stripping "32.97" changes nothing. |
| AiqmModels.PercentSuffix | src/app/asset_intangible_quality_module/aiqm_models.py:68 | A trailing percent sign never changes the result. |
| AiqmModels.ReadsDecimal | src/app/asset_intangible_quality_module/aiqm_models.py:68 | Illustration on one input (general: PyStr.DecimalParts): float() reads "32.97" as 32.97. |
| AiqmModels.PercentSignsIgnored | src/app/asset_intangible_quality_module/aiqm_models.py:68 | Removing the percent signs beforehand never changes the result. |
| AiqmModels.WithoutTwice | src/app/asset_intangible_quality_module/aiqm_models.py:68 | Removing a character twice is removing it once. |
| AiqmModels.NetBlockStable | src/app/asset_intangible_quality_module/aiqm_models.py:72-84 | A supplied net block is kept, and a second validation keeps the filled-in one. |
| AiqmModels.ValidateYear | src/app/asset_intangible_quality_module/aiqm_models.py:9-84 | A year validates exactly when its four cost fields parse. |
| AiqmModels.Years | src/app/asset_intangible_quality_module/aiqm_models.py:96 | The years of the records, in order. |
| AiqmModels.YearsUniqueMeansNoDup | src/app/asset_intangible_quality_module/aiqm_models.py:95-99 | len(years) == len(set(years)) holds exactly when no year repeats. |
| AiqmModels.NoDupCons | src/app/asset_intangible_quality_module/aiqm_models.py:97 | No repeat exactly when the head is not in the tail and the tail has no repeat. |
| AiqmModels.RawYears | src/app/asset_intangible_quality_module/aiqm_models.py:96 | The years of the raw records, in order. |
| AiqmModels.Validated | src/app/asset_intangible_quality_module/aiqm_models.py:91-92 | One validated record per raw one. |
| AiqmModels.ValidatedYears | src/app/asset_intangible_quality_module/aiqm_models.py:91-99 | Validation keeps each record's year. |
| AiqmModels.ValidateBlock | src/app/asset_intangible_quality_module/aiqm_models.py:91-99 | An accepted block keeps every record and has distinct years. |
| AiqmModels.ValidateBlockAccepts | src/app/asset_intangible_quality_module/aiqm_models.py:91-99 | A block is accepted exactly when each year validates and no year repeats. |
| AiqmModels.DefaultsOrdered | src/app/asset_intangible_quality_module/aiqm_models.py:106-119 | The default benchmarks order each pair, impairment 0.05 and spike 0.30. |
| AiqmMetrics.DeriveAmortization | src/app/asset_intangible_quality_module/aiqm_metrics.py:38-51 | None exactly for a missing or zero depreciation or a zero base, otherwise depreciation times intangibles over the base. |
| AiqmMetrics.AmortizationIsShare | src/app/asset_intangible_quality_module/aiqm_metrics.py:38-51 | With non-negative amounts the derived amortization lies between 0 and depreciation. |
| AiqmMetrics.DeriveRAndD | src/app/asset_intangible_quality_module/aiqm_metrics.py:66-78 | A non-zero given R&D is used; otherwise the change of intangibles, None without a previous year. |
| AiqmMetrics.Entries | src/app/asset_intangible_quality_module/aiqm_metrics.py:97-186 | One stored entry per sorted record. |
| AiqmMetrics.ComputePerYearMetrics | src/app/asset_intangible_quality_module/aiqm_metrics.py:85-189 | The loop carrying the previous intangibles computes its specification. |
| AiqmMetrics.PerYearKeys | src/app/asset_intangible_quality_module/aiqm_metrics.py:159 | The dictionary has one key per distinct input year. |
| AiqmMetrics.PerYearRecord | src/app/asset_intangible_quality_module/aiqm_metrics.py:92-159 | With distinct years, each year's record is computed against the intangibles of the latest earlier input year. |
| AiqmMetrics.EntriesDistinct | src/app/asset_intangible_quality_module/aiqm_metrics.py:159 | Sorted distinct years store distinct keys. |
| AiqmMetrics.PreviousYear | src/app/asset_intangible_quality_module/aiqm_metrics.py:92-154 | In year order the previous record is the latest input year below the current one. |
| AiqmMetrics.SortedNoDup | src/app/asset_intangible_quality_module/aiqm_metrics.py:92 | Sorting keeps the years distinct. |
| AiqmMetrics.FirstYearRecord | src/app/asset_intangible_quality_module/aiqm_metrics.py:120-149 | The first year has no growth and no R&D ratio, and its R&D is the given non-zero one or None. |
| AiqmMetrics.LaterYearRecord | src/app/asset_intangible_quality_module/aiqm_metrics.py:120-149 | With a previous year the growth is the YoY of intangibles; a derived R&D has ratio 1 unless intangibles stayed put; a given one is divided by the addition. |
| AiqmMetrics.YearRatios | src/app/asset_intangible_quality_module/aiqm_metrics.py:112-138 | Turnover, age proxy and intangible share are None exactly for a zero denominator; amortization is the reported non-zero one or derived. |
| AiqmTrend.YoyMapOf | src/app/asset_intangible_quality_module/aiqm_trend.py:19-28 | One rounded growth per consecutive pair. |
| AiqmTrend.BuildYoyMap | src/app/asset_intangible_quality_module/aiqm_trend.py:19-28 | build_yoy_map's loop computes its specification. |
| AiqmTrend.Lift | src/app/asset_intangible_quality_module/aiqm_trend.py:44-47 | A series of present values. |
| AiqmTrend.YoyMapMatchesWorkingCapital | src/app/asset_intangible_quality_module/aiqm_trend.py:8-28 | Without missing values this build_yoy_map equals the working-capital one. |
| AiqmTrend.ChronoYoy | src/app/asset_intangible_quality_module/aiqm_trend.py:50-53 | One growth per consecutive pair, oldest first. |
| AiqmTrend.YoyMapIsRoundedList | src/app/asset_intangible_quality_module/aiqm_trend.py:19-28 | The growth map is the chronological growth list rounded and read newest first. |
| AiqmTrend.LatestEntries | src/app/asset_intangible_quality_module/aiqm_trend.py:13-28 | "Y" is the last value and "Y_vs_Y-1" the growth of the last two. |
| AiqmTrend.Insight | src/app/asset_intangible_quality_module/aiqm_trend.py:30-35 | The no-data sentence exactly when no growth is present, otherwise the rounded average in the mixed-trend sentence. |
| AiqmTrend.NoDataWhenNoPair | src/app/asset_intangible_quality_module/aiqm_trend.py:8-35 | The no-data sentence comes exactly when no consecutive pair gives a growth. |
| AiqmTrend.GrossBlocks | src/app/asset_intangible_quality_module/aiqm_trend.py:44 | The gross blocks in year order. |
| AiqmTrend.Cwips | src/app/asset_intangible_quality_module/aiqm_trend.py:45 | The CWIP values in year order. |
| AiqmTrend.Revenues | src/app/asset_intangible_quality_module/aiqm_trend.py:46 | The revenues in year order. |
| AiqmTrend.IntangibleValues | src/app/asset_intangible_quality_module/aiqm_trend.py:47 | The intangibles in year order. |
| AiqmTrend.AssetTurnovers | src/app/asset_intangible_quality_module/aiqm_trend.py:76-79 | Revenue over net block, None exactly when the net block is 0. |
| AiqmTrend.AgeProxies | src/app/asset_intangible_quality_module/aiqm_trend.py:86-90 | Accumulated depreciation over gross block, None exactly when the gross block is 0. |
| AiqmTrend.CapitalizationOf | src/app/asset_intangible_quality_module/aiqm_trend.py:56-60 | One capitalization per year, None for the first. |
| AiqmTrend.Capitalization | src/app/asset_intangible_quality_module/aiqm_trend.py:56-60 | The capitalization loop computes its specification. |
| AiqmTrend.CapitalizationTelescopes | src/app/asset_intangible_quality_module/aiqm_trend.py:56-60 | Capitalizations of years 1..j add up to the gross block added less the CWIP added since year 0. |
| AiqmTrend.PresentSnocSome | src/app/asset_intangible_quality_module/aiqm_trend.py:31 | Appending a present value appends it to the present values. |
| AiqmTrend.SumSnoc | src/app/asset_intangible_quality_module/aiqm_trend.py:34 | Sums extend by their last term. |
| AiqmTrend.CwipVsCap | src/app/asset_intangible_quality_module/aiqm_trend.py:63-67 | CWIP over capitalization, None exactly where capitalization is missing or 0. |
| AiqmTrend.CagrsOf | src/app/asset_intangible_quality_module/aiqm_trend.py:109-116 | The gap is present exactly when both CAGRs are, and is their difference. |
| AiqmTrend.TrendsOf | src/app/asset_intangible_quality_module/aiqm_trend.py:40-164 | Trends exist exactly for a non-empty list whose CWIPs are complete in year order. |
| AiqmTrend.ComputeTrends | src/app/asset_intangible_quality_module/aiqm_trend.py:40-164 | compute_aiqm_trends computes its specification. |
| AiqmTrend.TrendsDefined | src/app/asset_intangible_quality_module/aiqm_trend.py:40-109 | Trends fail exactly for an empty list or a missing CWIP with two years or more. |
| AiqmTrend.CagrEndpoints | src/app/asset_intangible_quality_module/aiqm_trend.py:109-111 | The CAGRs run from the first to the last year over len-1 periods; one year gives None. |
| AiqmTrend.CapitalizationLatest | src/app/asset_intangible_quality_module/aiqm_trend.py:56-67 | The newest capitalization is the last year's (None for one year), and the oldest year has no CWIP ratio. |
| AiqmRules.DeclineCount | src/app/asset_intangible_quality_module/aiqm_rules.py:75-76 | The declines counted never exceed the entries. |
| AiqmRules.NoDeclines | src/app/asset_intangible_quality_module/aiqm_rules.py:75-76 | No decline is counted exactly when no growth is present and negative. |
| AiqmRules.DepOverCapexCount | src/app/asset_intangible_quality_module/aiqm_rules.py:118-122 | The years counted never exceed the years. |
| AiqmRules.NoDepreciationNoCount | src/app/asset_intangible_quality_module/aiqm_rules.py:118-122 | Years without depreciation are never counted. |
| AiqmRules.RuleA1 | src/app/asset_intangible_quality_module/aiqm_rules.py:51-71 | A1 is absent without a turnover; otherwise RED exactly below critical, YELLOW exactly below low only, else GREEN. |
| AiqmRules.RuleA2 | src/app/asset_intangible_quality_module/aiqm_rules.py:73-89 | A2 is always reported with the decline count, YELLOW exactly from three declines. |
| AiqmRules.RuleB1 | src/app/asset_intangible_quality_module/aiqm_rules.py:95-115 | B1 is absent without an age; otherwise RED exactly above critical, YELLOW exactly above old only, else GREEN. |
| AiqmRules.RuleB2 | src/app/asset_intangible_quality_module/aiqm_rules.py:117-135 | B2 is always reported with the count as a float, YELLOW exactly from three years. |
| AiqmRules.RuleC1 | src/app/asset_intangible_quality_module/aiqm_rules.py:141-146 | C1 is reported, RED, exactly when the impairment share exceeds its threshold. |
| AiqmRules.RuleC2 | src/app/asset_intangible_quality_module/aiqm_rules.py:148-154 | C2 is reported, YELLOW, exactly when the impairment growth exceeds the spike threshold. |
| AiqmRules.RuleC3 | src/app/asset_intangible_quality_module/aiqm_rules.py:156-161 | C3 is reported, YELLOW, exactly when the impairment count is present and at least 3. |
| AiqmRules.RuleD1 | src/app/asset_intangible_quality_module/aiqm_rules.py:167-186 | D1 is absent without a share; otherwise RED exactly above critical, YELLOW exactly above warning only, else GREEN. |
| AiqmRules.RuleD2 | src/app/asset_intangible_quality_module/aiqm_rules.py:188-195 | D2 is reported, YELLOW, exactly when goodwill growth exceeds revenue growth plus 0.10. |
| AiqmRules.RuleD3 | src/app/asset_intangible_quality_module/aiqm_rules.py:197-213 | D3 exists exactly with both CAGRs, YELLOW exactly when the intangible CAGR exceeds the operating one plus 15. |
| AiqmRules.RuleE1 | src/app/asset_intangible_quality_module/aiqm_rules.py:219-231 | E1 is absent without a ratio, YELLOW exactly below 0.02, else GREEN. |
| AiqmRules.RuleE2 | src/app/asset_intangible_quality_module/aiqm_rules.py:233-245 | E2 is absent without a ratio, YELLOW exactly below 0.5, else GREEN. |
| AiqmRules.F1Red | src/app/asset_intangible_quality_module/aiqm_rules.py:258-267 | The red F1 comes exactly when the newest capitalization is negative. |
| AiqmRules.F1Yellow | src/app/asset_intangible_quality_module/aiqm_rules.py:270-278 | The yellow F1 comes exactly when CWIP grew and capitalization growth is missing or negative. |
| AiqmRules.F1Green | src/app/asset_intangible_quality_module/aiqm_rules.py:259-286 | The green F1 comes exactly when the newest CWIP ratio exceeds 0.10. |
| AiqmRules.RuleEngine | src/app/asset_intangible_quality_module/aiqm_rules.py:28-288 | aiqm_rule_engine computes its catalogue, returning early without group F's trends. |
| AiqmRules.AppendAToE | src/app/asset_intangible_quality_module/aiqm_rules.py:47-245 | Groups A to E appended in order. |
| AiqmRules.AppendAB | src/app/asset_intangible_quality_module/aiqm_rules.py:47-135 | Groups A and B appended to the list. |
| AiqmRules.AppendCD | src/app/asset_intangible_quality_module/aiqm_rules.py:137-213 | Groups C and D appended to the list. |
| AiqmRules.AppendE | src/app/asset_intangible_quality_module/aiqm_rules.py:215-245 | Group E appended to the list. |
| AiqmRules.AppendF | src/app/asset_intangible_quality_module/aiqm_rules.py:258-286 | Group F appended to the list. |
| AiqmRules.OrderConcat | src/app/asset_intangible_quality_module/aiqm_rules.py:28-288 | Two ordered blocks in disjoint rank ranges concatenate in order. |
| AiqmRules.Single | src/app/asset_intangible_quality_module/aiqm_rules.py:28-288 | At most one finding of one rule sits at its rank. |
| AiqmRules.GroupFShape | src/app/asset_intangible_quality_module/aiqm_rules.py:258-286 | At most three F1 findings, strictly red before yellow before green. |
| AiqmRules.GroupAOrder | src/app/asset_intangible_quality_module/aiqm_rules.py:51-89 | Group A is in order within ranks 0-1. |
| AiqmRules.GroupBOrder | src/app/asset_intangible_quality_module/aiqm_rules.py:95-135 | Group B is in order within ranks 2-3. |
| AiqmRules.GroupCOrder | src/app/asset_intangible_quality_module/aiqm_rules.py:141-161 | Group C is in order within ranks 4-6. |
| AiqmRules.GroupDOrder | src/app/asset_intangible_quality_module/aiqm_rules.py:167-213 | Group D is in order within ranks 7-9. |
| AiqmRules.GroupEOrder | src/app/asset_intangible_quality_module/aiqm_rules.py:219-245 | Group E is in order within ranks 10-11. |
| AiqmRules.GroupFOrder | src/app/asset_intangible_quality_module/aiqm_rules.py:251-286 | Group F sits at rank 12. |
| AiqmRules.CatalogueOrder | src/app/asset_intangible_quality_module/aiqm_rules.py:28-288 | The results follow the engine's rule order, each rule at most once except F1. |
| AiqmRules.A2CountsScatteredDeclines | src/app/asset_intangible_quality_module/aiqm_rules.py:74-83 | Illustration on one input (general: AiqmRules.NoDeclines and AiqmRules.RuleA2): three scattered declines already make A2's "3 consecutive years" YELLOW. |
| AiqmRules.A1Antitone | src/app/asset_intangible_quality_module/aiqm_rules.py:52-71 | With ordered benchmarks a lower turnover never gets a better A1 flag. |
| AiqmRules.B1Monotone | src/app/asset_intangible_quality_module/aiqm_rules.py:96-115 | With ordered benchmarks an older asset base never gets a better B1 flag. |
| AiqmRules.D1Monotone | src/app/asset_intangible_quality_module/aiqm_rules.py:167-186 | With ordered benchmarks a larger goodwill share never gets a better D1 flag. |
| AiqmOrchestrator.Enrich | src/app/asset_intangible_quality_module/aiqm_orchestrator.py:80-101 | The latest record is kept; goodwill and impairment growths are None; the operating-asset growth is the trends' CAGR. |
| Common.Values | src/app/asset_intangible_quality_module/aiqm_rules.py:75 | .values() lists the dictionary's values in insertion order, one per entry (also liquidity_insight_fallback.py:15). |
| AiqmOrchestrator.RuleInputsOf | src/app/asset_intangible_quality_module/aiqm_orchestrator.py:103-114 | What the rules read in a run always includes the CWIP trends. |
| AiqmOrchestrator.SeverityOf | src/app/asset_intangible_quality_module/aiqm_orchestrator.py:160 | CRITICAL exactly for C1 and D1, otherwise HIGH. |
| AiqmOrchestrator.Summarize | src/app/asset_intangible_quality_module/aiqm_orchestrator.py:153-169 | _summarize's loop computes the red flags and positive points. |
| AiqmOrchestrator.RedFlagMembers | src/app/asset_intangible_quality_module/aiqm_orchestrator.py:158-165 | Red flags come exactly from the RED results. |
| AiqmOrchestrator.PositiveMembers | src/app/asset_intangible_quality_module/aiqm_orchestrator.py:166-167 | Positive points come exactly from the GREEN results. |
| AiqmOrchestrator.NoCriticalWithout | src/app/asset_intangible_quality_module/aiqm_orchestrator.py:160 | Without C1 and D1 results no red flag is CRITICAL. |
| AiqmOrchestrator.KeyMetricsOf | src/app/asset_intangible_quality_module/aiqm_orchestrator.py:172-186 | The key metrics carry the year and the latest record's fields. |
| AiqmOrchestrator.AssetIntangibleQualityModule.constructor | src/app/asset_intangible_quality_module/aiqm_orchestrator.py:35-37 | The benchmarks are the given ones or the defaults. |
| AiqmOrchestrator.AssetIntangibleQualityModule.Run | src/app/asset_intangible_quality_module/aiqm_orchestrator.py:42-147 | run computes its specification, the latest record enriched before the rules. |
| AiqmOrchestrator.RunAiqmModule | src/app/asset_intangible_quality_module/aiqm_orchestrator.py:193-196 | run_aiqm_module validates the payload and runs with default benchmarks. |
| AiqmOrchestrator.RunNoMetrics | src/app/asset_intangible_quality_module/aiqm_orchestrator.py:59-62 | A run stops for want of metrics exactly when there are no records. |
| AiqmOrchestrator.RunTrendError | src/app/asset_intangible_quality_module/aiqm_orchestrator.py:74 | With records the trends fail exactly when two or more years include one without CWIP. |
| AiqmOrchestrator.NoDepreciationRead | src/app/asset_intangible_quality_module/aiqm_rules.py:118-122 | Illustration on one input (general: AiqmRules.NoDepreciationNoCount): for records that read no depreciation and no capex the B2 count is 0. |
| AiqmOrchestrator.OutsideCD | src/app/asset_intangible_quality_module/aiqm_rules.py:137-195 | Findings ranked outside C1 to D2 are none of those rules. |
| AiqmOrchestrator.NoneUnreachableConcat | src/app/asset_intangible_quality_module/aiqm_rules.py:137-195 | Absence of those rules is kept by concatenation. |
| AiqmOrchestrator.RunCatalogue | src/app/asset_intangible_quality_module/aiqm_orchestrator.py:80-114 | On a run's inputs there is no C or D1/D2 result and B2 is GREEN with 0. |
| AiqmOrchestrator.OutcomeDone | src/app/asset_intangible_quality_module/aiqm_orchestrator.py:103-147 | The later steps give no C or D1/D2 result, a GREEN B2 with 0 and no CRITICAL flag. |
| AiqmOrchestrator.RunDone | src/app/asset_intangible_quality_module/aiqm_orchestrator.py:42-147 | A completed run has no C1-C3, D1 or D2 result, a GREEN B2 with 0 and no CRITICAL red flag. |
| AiqmOrchestrator.EnrichedGrowths | src/app/asset_intangible_quality_module/aiqm_orchestrator.py:80-87 | The latest growths are the trends' rounded growths of the two newest years, None with one year. |
| AiqmOrchestrator.LatestKey | src/app/asset_intangible_quality_module/aiqm_orchestrator.py:64-65 | The latest key is the largest input year. |
| AiqmOrchestrator.RunKeyMetricsParts | src/app/asset_intangible_quality_module/aiqm_orchestrator.py:124 | A completed run reports the latest record's key metrics, enriched by the trends. |
| AiqmOrchestrator.RunKeyMetricsYear | src/app/asset_intangible_quality_module/aiqm_orchestrator.py:172-177 | The key metrics report the newest input year. |
| AiqmOrchestrator.RunKeyMetricsGrowth | src/app/asset_intangible_quality_module/aiqm_orchestrator.py:83-84 | The key metrics' intangible growth is the trends' rounded growth of the two newest years. |
| AiqmOrchestrator.RunSpec | src/app/asset_intangible_quality_module/aiqm_orchestrator.py:42-147 | run ends in the LLM error only when the model call failed, and a completed run is module AssetIntangibleQuality for the requested company with the model's reply. |
| Endpoints.LiquidityInput | src/main.py:146-180 | Company upper-cased, industry "GENERAL", one normalised record per request year in order. |
| Endpoints.RecordBalances | src/main.py:154-171 | Current assets are investments plus inventories plus receivables, current liabilities short-term debt plus other items, total debt the five borrowings, OCF profit plus working-capital changes less taxes, daily expenses net of depreciation over 365, interest the financing interest. |
| Endpoints.RecordRatios | src/main.py:159-160 | The current, quick and cash ratios of a normalised year are None exactly when its current liabilities are 0, otherwise scale them to the right raw sums. |
| Endpoints.RecordDefensiveInterval | src/main.py:159-164 | The defensive interval is None exactly when expenses equal depreciation, otherwise covers yearly net expenses by 365 times the liquid assets. |
| Endpoints.RecordInterestCoverage | src/main.py:161-171 | The OCF interest coverage is None exactly when the financing interest is 0, otherwise covers it by the rebuilt OCF. |
| Endpoints.DailyExpenses | src/main.py:162 | A quotient over the daily figure restated over the yearly one. |
| Endpoints.UnreadFields | src/main.py:161-171 | The reported interest and cash from operating activity never reach the record. |
| Endpoints.RequestOf | src/main.py:47-64 | A record reads back as a request year exactly when its ten required amounts are present. |
| Endpoints.DebtRecordRoundTrip | src/main.py:202-219 | The record built from a request year reads back as that year. |
| Endpoints.DebtRecordOnto | src/main.py:202-219 | Every record with its required amounts present is the copy of exactly one request year. |
| Endpoints.BorrowingsModuleInput | src/main.py:196-237 | Company upper-cased, industry "GENERAL", the fixed benchmarks and covenant limits, one record per request year in order. |
| Endpoints.BorrowingsRecordsRoundTrip | src/main.py:200-220 | The records carry the request years back one for one and in order. |
| Endpoints.LiquidityRecord | src/main.py:154-171 | The liquidity record keeps year and cash; current assets are securities plus inventory plus receivables, current liabilities exceed short-term debt by the other liability items, and daily expenses are (expenses - depreciation) / 365. |
| Endpoints.DebtRecord | src/main.py:202-219 | The borrowings record reads back as the request year it was built from. |
| Screener.Filter | web_scrap_screener.py:95 | The character-class substitution keeps exactly the accepted characters, in order. |
| Screener.FilterAll | web_scrap_screener.py:95 | A text of accepted characters is its own filtering. |
| Screener.ReplaceAbsent | web_scrap_screener.py:754-757 | A pattern whose first character the text lacks is not replaced. |
| Screener.ContainsChar | web_scrap_screener.py:750 | A text that holds a character only occurs in texts holding it. |
| Screener.FirstContained | web_scrap_screener.py:147-149 | The position of the first listed text that occurs, or none. |
| Screener.Underscored | web_scrap_screener.py:96 | Each maximal run of whitespace becomes one underscore. |
| Screener.UnderscoredKeeps | web_scrap_screener.py:96 | A property of every character and of '_' holds after the substitution. |
| Screener.StripKeeps | web_scrap_screener.py:96 | A property of every character holds after strip(). |
| Screener.UnderscoredNoSpace | web_scrap_screener.py:96 | A text without whitespace is unchanged by the substitution. |
| Screener.StripNoSpace | web_scrap_screener.py:96 | A text without whitespace is its own strip. |
| Screener.Truncate | web_scrap_screener.py:97 | text[:150] is the prefix of at most that length. |
| Screener.CleanFilename | web_scrap_screener.py:94-97 | clean_filename deletes the forbidden characters, strips, turns whitespace runs into underscores and keeps 150 characters: the result has at most 150 characters, no whitespace and no forbidden character. |
| Screener.CleanFilenameFixpoint | web_scrap_screener.py:94-97 | clean_filename leaves a text unchanged exactly when it is clean. |
| Screener.CleanFilenameIdempotent | web_scrap_screener.py:94-97 | Cleaning a file name twice is cleaning it once. |
| Screener.CheckPaywall | web_scrap_screener.py:134-151 | The page text is lower-cased and the first listed phrase it holds is reported, or (False, None). |
| Screener.PaywallReport | web_scrap_screener.py:134-151 | A reported phrase is listed and occurs, no earlier one occurs; nothing is reported exactly when no phrase occurs. |
| Screener.ConvertFy | web_scrap_screener.py:718-728 | "Mon YYYY" becomes "Mon_YYYY"; anything else is only stripped. |
| Screener.FyLabel | web_scrap_screener.py:722-726 | A matched label has eight characters, no whitespace and '_' fourth. |
| Screener.ConvertFyLabel | web_scrap_screener.py:722-726 | Three letters, whitespace and four digits become the letters, '_' and the digits. |
| Screener.ConvertFyIdempotent | web_scrap_screener.py:718-728 | A converted label is left alone by a second conversion. |
| Screener.StripStripped | web_scrap_screener.py:719 | Stripping a stripped text changes nothing. |
| Screener.ReplacementKeys | web_scrap_screener.py:738-751 | The lower-cased keys clean_col looks for. |
| Screener.WordCharPlain | web_scrap_screener.py:757 | A word character is neither whitespace nor forbidden in file names. |
| Screener.DropUnderscores | web_scrap_screener.py:759 | The text without its leading underscores. |
| Screener.Collapse | web_scrap_screener.py:758 | Each run of underscores becomes one. |
| Screener.CollapseKeeps | web_scrap_screener.py:758 | A property of every character holds after the substitution. |
| Screener.CollapseSingle | web_scrap_screener.py:758 | A text without "__" is unchanged by the substitution. |
| Screener.StripUnderscores | web_scrap_screener.py:759 | strip("_") removes underscores at both ends only. |
| Screener.TrimUnderscores | web_scrap_screener.py:759 | rstrip("_") removes trailing underscores only. |
| Screener.StripUnderscoresTrimmed | web_scrap_screener.py:759 | A text without an underscore at either end is its own strip. |
| Screener.StripUnderscoresClean | web_scrap_screener.py:757-759 | Stripping the underscores of word characters without "__" gives a clean name. |
| Screener.Sanitize | web_scrap_screener.py:753-759 | The generic branch of clean_col (dashes and spaces replaced, non-word characters dropped, underscore runs collapsed and trimmed) yields a clean name. |
| Screener.SanitizeClean | web_scrap_screener.py:753-759 | A clean name is unchanged by the generic branch. |
| Screener.CleanCol | web_scrap_screener.py:735-759 | The stripped name becomes the value of the first key it holds ignoring case, otherwise it is sanitised. |
| Screener.JoinClean | web_scrap_screener.py:810 | A clean name, '_' and a plain part make a clean name. |
| Screener.PairClean | web_scrap_screener.py:739-747 | Two plain parts joined by '_' are clean. |
| Screener.TripleClean | web_scrap_screener.py:745-746 | Three plain parts joined by '_' are clean. |
| Screener.ReplacementsClean | web_scrap_screener.py:738-747 | The table's values are clean names. |
| Screener.KeysSpaced | web_scrap_screener.py:738-747 | Every lower-cased key holds a space. |
| Screener.CleanNameNoKey | web_scrap_screener.py:749-751 | A clean name holds none of the keys. |
| Screener.CleanNameFixed | web_scrap_screener.py:735-759 | clean_col leaves a clean name as it is. |
| Screener.CleanColIdempotent | web_scrap_screener.py:735-759 | Cleaning a column name twice is cleaning it once. |
| Screener.RemoveCommas | web_scrap_screener.py:766-771 | A comma-grouped numeral text becomes its integer, anything else is returned unchanged. |
| Screener.RemoveCommasValue | web_scrap_screener.py:769-770 | A comma-grouped text spelling n becomes n. |
| Screener.RemoveCommasNegative | web_scrap_screener.py:769-770 | The same text after '-' becomes -n. |
| Screener.NumeralPartFacts | web_scrap_screener.py:769 | A matching text is a comma numeral. |
| Screener.RemoveCommasRaises | web_scrap_screener.py:769-770 | A numeral without digits raises. |
| Screener.RemoveCommasConverts | web_scrap_screener.py:769-770 | A numeral with a digit converts: remove_commas raises only on digit-free numerals. |
| Screener.WithoutDigits | web_scrap_screener.py:770 | Deleting the commas of digits and commas leaves digits only. |
| Screener.DigitsKept | web_scrap_screener.py:770 | Deleting commas keeps a digit. |
| Screener.CandidateDistinct | web_scrap_screener.py:807-811 | Different counters give different names. |
| Screener.UniqueName | web_scrap_screener.py:807-811 | The loop picks the first candidate not yet saved, counter one past it. |
| Screener.UniqueBase | web_scrap_screener.py:807-809 | A name not yet saved is kept. |
| Screener.CleanNameFile | web_scrap_screener.py:94-97 | A clean name of at most 150 characters is a clean file name. |
| Screener.TableBaseClean | web_scrap_screener.py:791-805 | Every base name is a clean file name. |
| Screener.Candidate | web_scrap_screener.py:807-810 | The candidate name starts with the base and is the base itself exactly for counter 0. |
| Screener.TableBase | web_scrap_screener.py:791-805 | The base name (the cleaned section title, or a kind guessed from the first column, or Table_<idx>) holds no whitespace. |


## Left out

- Language-model calls and prompt builders (the *_llm.py files, the capex llm_agent.py and src/app/config.py): the model's reply is a parameter. It may be absent, which stands for a failed call.
- The asynchronous wrapper around the model's call in risk_orchestrator.py: only the deterministic stages and the fallback are modelled.
- FastAPI routing, uvicorn and pydantic request parsing: only the arithmetic that builds each normalised record is modelled.
- The browser and HTTP parts of web_scrap_screener.py, because they are I/O with Selenium, requests, BeautifulSoup, pandas and file writes. These are login, download_file, the accordion and show-more clickers, the extract_* walkers, scrape_screener_company and the concall extractors. DataFrame handling and to_numeric are left out too: the cleaners are modelled on single strings.
- Debug printing, the commented-out older rule engine in debt_rules.py and the commented-out trend engine in trend_engine.py: they have no behaviour.
- The type coercion of the pydantic models in liquidity_models.py and src/app/request_model.py: the endpoints receive their fields already typed, so a string given for a number is not modelled there. The risk module's YearFinancials coercion is modelled (`RiskModels.Coerce`, `RiskModels.CoerceYear`).
- ToYearFinancials (RiskModels.ToYearFinancials): a JSON boolean, which pydantic's lax mode accepts as 1 or 0 for int and float fields, is not a `Raw` value of its own. A year string is read by `PyStr.ParseInt` after strip, so the underscores ("2_024") that int() accepts are not modelled.
- PerYearFindingsDated (RiskRules.PerYearFindingsDated): the year it states is the argument passed to `_make_rule`. RuleResult has no year field, so pydantic drops that argument, and no output of the program carries the year. The report's rules are the serialised `RiskRules.RuleResult` values, without it.
- End-to-end wiring of three orchestrators and of src/main.py, which cannot run as written: each stage is modelled on its own instead.
  - debt_orchestrator.py imports a debt_models module that is not in the repository. It also calls compute_per_year_metrics with one argument where two are required.
  - liquidity_orchestrator.py imports compute_year_metrics, compute_trends and flag_color, none of which exist.
  - The capex orchestrator passes a list to compute_trends, which expects a dictionary keyed by year.
  - src/main.py imports `src.app.borrowing_module.debt_models`, which is not in the repository, and `LiquidityModule` from liquidity_orchestrator.py, which defines only `run_liquidity_module`. The endpoints' record building (`Endpoints`) is modelled on its own.
- DEFAULT_CAPEX_CWIP_RULES: the capex rules read it from a configuration module that is not in the repository, so the bounds are a parameter record (`CapexRules.Bounds`).
- CapexOrchestrator.Run takes the trends as supplied, because the call that builds them in the source raises.
- IEEE floating point: values are exact reals. Binary rounding error, overflow, NaN and infinities are not modelled.
- Python's `**` is a parameter, so no property depends on its values; a fractional power of a negative base is not modelled.
- The numbers interpolated into reason and threshold strings are not rendered. A message is its template plus the values it would show.
- The float rendering of a value passed to `str()` or an f-string is not modelled.
- PyStr.ParseDecimal: it models float() on an optional sign and plain decimal digits only. Exponents, "inf", "nan", underscores and surrounding whitespace are not modelled.
- PyStr.IsDigit: it models only the ASCII digits, where Python's `str.isdigit` and the regular expression `\d` also accept other Unicode digits.
- LiquidityFallback.Title: it models upper and lower case for ASCII letters only.
- UpperStr (PyStr.UpperStr): it maps ASCII letters only. Python's upper() also maps other letters, and can change the length ('ß' becomes 'SS').
- LowerStr (PyStr.LowerStr): it maps ASCII capitals only. Python's lower() also maps other capitals ('É' becomes 'é', 'İ' becomes two characters).
- ParseInt (PyStr.ParseInt): it accepts an optional sign and ASCII digits. Python's int() also accepts underscores between digits ("2_024"), surrounding whitespace and other Unicode digits.
- LiquidityInput (Endpoints.LiquidityInput): company_id is UpperStr of the name, so a non-ASCII name is upper-cased on its ASCII letters only, where main.py upper-cases every letter.
- BorrowingsModuleInput (Endpoints.BorrowingsModuleInput): company_id is UpperStr of the name, with the same ASCII-only upper-casing.
- DebtYoy (DebtTrend.DebtYoy): the TypeError that compute_yoy raises for a missing current value against a usable previous one is a precondition, not a failure value.
- StDebtGrowth (DebtTrend.StDebtGrowth): YoyDefined makes the same compute_yoy TypeError a precondition.
- StDebtYoyGrowth (DebtTrend.StDebtYoyGrowth): YoyDefined makes the same compute_yoy TypeError a precondition.
- ComputeTrendMetrics (DebtTrend.ComputeTrendMetrics): YoyDefined makes the same compute_yoy TypeError a precondition.
- CwipRatio (DebtRules.CwipRatio): the TypeError of cwip / total_assets with a missing CWIP and a non-zero total is a precondition.
- ApplyGroupA (DebtRules.ApplyGroupA): Evaluable makes that division's TypeError, and the comparisons with a missing value, preconditions.
- ApplyRules (DebtRules.ApplyRules): `metrics != []` stands for the ValueError of max() over an empty dictionary, and Evaluable for the TypeErrors of group A; neither is a failure value.
- AiqmMetrics.YearRecord: it does not repeat the integer year as "year_label".
- The risk module's threshold keys and record fields: they are datatype constructors standing for the source's strings. Keys outside the defaults are kept as `Other(name)`.
- Concurrency and timing: the source has none in the modelled stages.
