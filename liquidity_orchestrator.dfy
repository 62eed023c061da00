/**
 * The stages of run_liquidity_module that follow the rule engine: the
 * score, the red-flag summary, the fixed positive points and the
 * conversion of the rules into RuleResult records.
 */
module LiquidityOrchestrator {
  import opened Common
  import opened LiquidityRules

  /** The number of rules carrying flag `f`. */
  function CountFlag(rs: seq<Finding>, f: Flag): (n: nat)
    ensures n <= |rs|
  {
    if rs == [] then 0 else CountFlag(rs[..|rs| - 1], f) + (if rs[|rs| - 1].flag == f then 1 else 0)
  }

  lemma {:induction false} CountAppend(a: seq<Finding>, b: seq<Finding>, f: Flag)
    ensures CountFlag(a + b, f) == CountFlag(a, f) + CountFlag(b, f)
  {
    if b != [] {
      assert (a + b)[..|a + b| - 1] == a + b[..|b| - 1];
      CountAppend(a, b[..|b| - 1], f);
    } else {
      assert a + b == a;
    }
  }

  /** The score before the floor: 100, less 10 per RED and 5 per YELLOW rule. */
  function RawScore(rs: seq<Finding>): int
  {
    100 - 10 * CountFlag(rs, RED) - 5 * CountFlag(rs, YELLOW)
  }

  /** The scoring loop of run_liquidity_module. */
  method ScoreRules(rules: seq<Finding>) returns (score: int)
    ensures score == RawScore(rules)
  {
    score := 100;
    var i := 0;
    while i < |rules|
      invariant 0 <= i <= |rules|
      invariant score == RawScore(rules[..i])
    {
      assert rules[..i + 1][..i] == rules[..i];
      if rules[i].flag == RED {
        score := score - 10;
      } else if rules[i].flag == YELLOW {
        score := score - 5;
      }
      i := i + 1;
    }
    assert rules[..i] == rules;
  }

  /** sub_score_adjusted: the score floored at 0. */
  function Adjusted(score: int): (s: int)
    ensures s >= 0 && s >= score
    ensures score >= 0 ==> s == score
  {
    if score < 0 then 0 else score
  }

  /** The red and yellow counts together never exceed the number of rules. */
  lemma {:induction false} CountsBounded(rs: seq<Finding>)
    ensures CountFlag(rs, RED) + CountFlag(rs, YELLOW) <= |rs|
  {
    if rs != [] {
      CountsBounded(rs[..|rs| - 1]);
    }
  }

  /**
   * The adjusted score lies between 0 and 100; for at most ten rules (as
   * evaluate_rules returns) the raw score is already at least 0, so the
   * floor never changes it.
   */
  lemma ScoreBounds(rs: seq<Finding>)
    ensures 0 <= Adjusted(RawScore(rs)) <= 100
    ensures |rs| <= 10 ==> Adjusted(RawScore(rs)) == RawScore(rs)
  {
    CountsBounded(rs);
  }

  // ------------------------------------------------------------ red flags

  /** An entry of red_flags. */
  datatype RedFlag = RedFlag(severity: Flag, title: string, detail: Text)

  function RedFlagOf(r: Finding): RedFlag
  {
    RedFlag(if r.flag == RED then CRITICAL else HIGH, RuleName(r.rule_id), Reason(r))
  }

  /** red_flags: one entry per RED or YELLOW rule, in rule order. */
  function RedFlagsOf(rs: seq<Finding>): seq<RedFlag>
  {
    if rs == [] then []
    else
      var r := rs[|rs| - 1];
      RedFlagsOf(rs[..|rs| - 1]) + (if r.flag == RED || r.flag == YELLOW then [RedFlagOf(r)] else [])
  }

  /** The red-flag loop of run_liquidity_module. */
  method CollectRedFlags(rules: seq<Finding>) returns (redFlags: seq<RedFlag>)
    ensures redFlags == RedFlagsOf(rules)
  {
    redFlags := [];
    var i := 0;
    while i < |rules|
      invariant 0 <= i <= |rules|
      invariant redFlags == RedFlagsOf(rules[..i])
    {
      var r := rules[i];
      assert rules[..i + 1][..i] == rules[..i];
      if r.flag == RED || r.flag == YELLOW {
        var severity := if r.flag == RED then CRITICAL else HIGH;
        redFlags := redFlags + [RedFlag(severity, RuleName(r.rule_id), Reason(r))];
      }
      i := i + 1;
    }
    assert rules[..i] == rules;
  }

  /** There are as many red flags as RED and YELLOW rules, each CRITICAL or HIGH. */
  lemma {:induction false} RedFlagCounts(rs: seq<Finding>)
    ensures |RedFlagsOf(rs)| == CountFlag(rs, RED) + CountFlag(rs, YELLOW)
    ensures forall i :: 0 <= i < |RedFlagsOf(rs)| ==> RedFlagsOf(rs)[i].severity in {CRITICAL, HIGH}
  {
    if rs != [] {
      RedFlagCounts(rs[..|rs| - 1]);
    }
  }

  /** Every RED or YELLOW rule is reported, under its own name and reason. */
  lemma {:induction false} RedFlagMembers(rs: seq<Finding>, r: Finding)
    requires r in rs && (r.flag == RED || r.flag == YELLOW)
    ensures RedFlagOf(r) in RedFlagsOf(rs)
  {
    var init := rs[..|rs| - 1];
    if r != rs[|rs| - 1] {
      assert r in init by { assert rs == init + [rs[|rs| - 1]]; }
      RedFlagMembers(init, r);
    }
  }

  /** Every red flag reports a RED rule as CRITICAL or a YELLOW rule as HIGH. */
  lemma {:induction false} RedFlagSources(rs: seq<Finding>, i: nat)
    requires i < |RedFlagsOf(rs)|
    ensures exists r :: r in rs && (r.flag == RED || r.flag == YELLOW) && RedFlagsOf(rs)[i] == RedFlagOf(r)
  {
    var init := rs[..|rs| - 1];
    var last := rs[|rs| - 1];
    assert rs == init + [last];
    if i < |RedFlagsOf(init)| {
      RedFlagSources(init, i);
      var r :| r in init && (r.flag == RED || r.flag == YELLOW) && RedFlagsOf(init)[i] == RedFlagOf(r);
      assert r in rs;
    } else {
      assert RedFlagsOf(rs)[i] == RedFlagOf(last);
    }
  }

  /** Reporting distributes over concatenation, so the flags keep the rules' order. */
  lemma {:induction false} RedFlagsAppend(a: seq<Finding>, b: seq<Finding>)
    ensures RedFlagsOf(a + b) == RedFlagsOf(a) + RedFlagsOf(b)
  {
    if b != [] {
      assert (a + b)[..|a + b| - 1] == a + b[..|b| - 1];
      RedFlagsAppend(a, b[..|b| - 1]);
    } else {
      assert a + b == a;
    }
  }

  /** positive_points, the same two sentences for any rules. */
  const PositivePoints: seq<string> := [
    "Marketable securities help liquidity strength.",
    "Receivables provide partial operational cushion."
  ]

  // ------------------------------------------------------------ rule results

  /** RuleResult: `value` is a required float, so a missing value becomes 0.0. */
  datatype RuleResult = RuleResult(rule_id: RuleId, rule_name: string, value: real, threshold: Text, flag: Flag,
                                   reason: Text)

  function ResultOf(r: Finding): (rr: RuleResult)
    ensures rr.value == OrZero(r.value) && rr.rule_id == r.rule_id && rr.flag == r.flag
  {
    RuleResult(r.rule_id, RuleName(r.rule_id), OrZero(r.value), Threshold(r), r.flag, Reason(r))
  }

  /** One RuleResult: `r.get("value", 0.0) or 0.0` turns a missing value into 0.0. */
  method ToRuleResult(r: Finding) returns (rr: RuleResult)
    ensures rr == ResultOf(r)
  {
    var value := if r.value.Some? && r.value.value != 0.0 then r.value.value else 0.0;
    rr := RuleResult(r.rule_id, RuleName(r.rule_id), value, Threshold(r), r.flag, Reason(r));
  }

  /** rule_results: one RuleResult per rule, in rule order. */
  function ResultsOf(rs: seq<Finding>): (out: seq<RuleResult>)
    ensures |out| == |rs|
  {
    if rs == [] then [] else ResultsOf(rs[..|rs| - 1]) + [ResultOf(rs[|rs| - 1])]
  }

  /** The RuleResult loop of run_liquidity_module. */
  method ToRuleResults(rules: seq<Finding>) returns (results: seq<RuleResult>)
    ensures results == ResultsOf(rules)
  {
    results := [];
    var i := 0;
    while i < |rules|
      invariant 0 <= i <= |rules|
      invariant results == ResultsOf(rules[..i])
    {
      assert rules[..i + 1][..i] == rules[..i];
      var rr := ToRuleResult(rules[i]);
      results := results + [rr];
      i := i + 1;
    }
    assert rules[..i] == rules;
  }

  /** Result i converts rule i: same id and flag, a missing value read as 0.0. */
  lemma {:induction false} ResultsAt(rs: seq<Finding>, i: nat)
    requires i < |rs|
    ensures ResultsOf(rs)[i] == ResultOf(rs[i])
    ensures ResultsOf(rs)[i].rule_id == rs[i].rule_id && ResultsOf(rs)[i].flag == rs[i].flag
    ensures ResultsOf(rs)[i].value == if rs[i].value.Some? then rs[i].value.value else 0.0
  {
    if i < |rs| - 1 {
      ResultsAt(rs[..|rs| - 1], i);
    }
  }

  /** The parts of LiquidityModuleOutput computed from the rules. */
  datatype Output = Output(module_name: string, sub_score_adjusted: int, red_flags: seq<RedFlag>,
                           positive_points: seq<string>, rules: seq<RuleResult>)

  /** run_liquidity_module from the rules on. */
  method Summarize(rules: seq<Finding>) returns (out: Output)
    ensures out.module_name == "Liquidity"
    ensures out.sub_score_adjusted == Adjusted(RawScore(rules))
    ensures out.red_flags == RedFlagsOf(rules)
    ensures out.positive_points == PositivePoints
    ensures out.rules == ResultsOf(rules)
  {
    var score := ScoreRules(rules);
    var redFlags := CollectRedFlags(rules);
    var positive := PositivePoints;
    var ruleResults := ToRuleResults(rules);
    out := Output("Liquidity", if score < 0 then 0 else score, redFlags, positive, ruleResults);
  }
}
