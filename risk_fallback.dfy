/**
 * generate_fallback_narrative: one line per distinct rule name, in
 * first-occurrence order, listing the rule's distinct flags in descending
 * string order and its distinct non-empty reasons.
 */
module RiskFallback {
  import opened Common
  import opened RiskRules

  /** The rule names of the findings, in order. */
  function Names(rules: seq<Finding>): (r: seq<string>)
    ensures |r| == |rules|
    ensures forall i :: 0 <= i < |rules| ==> r[i] == rules[i].rule_name
  {
    seq(|rules|, i requires 0 <= i < |rules| => rules[i].rule_name)
  }

  /** The distinct names in first-occurrence order. */
  function Dedup(s: seq<string>): (r: seq<string>)
    ensures forall i, j :: 0 <= i < j < |r| ==> r[i] != r[j]
    ensures forall x :: x in r <==> x in s
  {
    if s == [] then []
    else
      var d := Dedup(s[..|s| - 1]);
      assert forall x :: x in s <==> x in s[..|s| - 1] || x == s[|s| - 1];
      if s[|s| - 1] in d then d else d + [s[|s| - 1]]
  }

  /** The findings with a given rule name, in order. */
  function ByName(rules: seq<Finding>, name: string): (r: seq<Finding>)
    ensures forall f :: f in r <==> f in rules && f.rule_name == name
  {
    if rules == [] then []
    else
      assert forall f :: f in rules <==> f in rules[..|rules| - 1] || f == rules[|rules| - 1];
      ByName(rules[..|rules| - 1], name) + (if rules[|rules| - 1].rule_name == name then [rules[|rules| - 1]] else [])
  }

  type Groups = seq<(string, seq<Finding>)>

  /** `grouped.setdefault(k, []).append(r)` on an insertion-ordered dictionary. */
  function AddToGroups(groups: Groups, r: Finding): Groups
  {
    if groups == [] then [(r.rule_name, [r])]
    else if groups[0].0 == r.rule_name then [(groups[0].0, groups[0].1 + [r])] + groups[1..]
    else [groups[0]] + AddToGroups(groups[1..], r)
  }

  /** The `grouped` dictionary after the first loop. */
  function GroupsOf(rules: seq<Finding>): Groups
  {
    if rules == [] then [] else AddToGroups(GroupsOf(rules[..|rules| - 1]), rules[|rules| - 1])
  }

  function Keys(groups: Groups): (r: seq<string>)
    ensures |r| == |groups|
    ensures forall i :: 0 <= i < |groups| ==> r[i] == groups[i].0
  {
    if groups == [] then [] else [groups[0].0] + Keys(groups[1..])
  }

  lemma {:induction false} AddToGroupsKeys(groups: Groups, r: Finding)
    ensures Keys(AddToGroups(groups, r)) == if r.rule_name in Keys(groups) then Keys(groups) else Keys(groups) + [r.rule_name]
    decreases |groups|
  {
    if groups != [] {
      var ks := Keys(groups);
      if groups[0].0 != r.rule_name {
        AddToGroupsKeys(groups[1..], r);
        assert r.rule_name in ks <==> r.rule_name in Keys(groups[1..]);
        var g' := AddToGroups(groups[1..], r);
        assert AddToGroups(groups, r) == [groups[0]] + g';
        assert ([groups[0]] + g')[1..] == g';
      } else {
        assert ks[0] == r.rule_name;
        assert AddToGroups(groups, r)[1..] == groups[1..];
      }
    }
  }

  /** An existing entry receives the finding exactly when its key is the finding's rule name. */
  lemma {:induction false} AddToGroupsAt(groups: Groups, r: Finding, i: nat)
    requires DistinctKeys(groups)
    requires i < |groups|
    ensures |AddToGroups(groups, r)| >= |groups|
    ensures AddToGroups(groups, r)[i] == (groups[i].0, groups[i].1 + (if groups[i].0 == r.rule_name then [r] else []))
    decreases i
  {
    AddToGroupsKeys(groups, r);
    if i > 0 {
      if groups[0].0 != r.rule_name {
        AddToGroupsAt(groups[1..], r, i - 1);
        assert AddToGroups(groups, r) == [groups[0]] + AddToGroups(groups[1..], r);
      } else {
        assert groups[i].0 != groups[0].0;
        assert AddToGroups(groups, r) == [(groups[0].0, groups[0].1 + [r])] + groups[1..];
        assert AddToGroups(groups, r)[i] == groups[1..][i - 1] == groups[i];
        assert groups[i].1 + [] == groups[i].1;
      }
    } else if groups[0].0 != r.rule_name {
      assert AddToGroups(groups, r)[0] == groups[0];
      assert groups[0].1 + [] == groups[0].1;
    }
  }

  /** A new rule name opens a new entry at the end. */
  lemma {:induction false} AddToGroupsNew(groups: Groups, r: Finding)
    requires r.rule_name !in Keys(groups)
    ensures AddToGroups(groups, r) == groups + [(r.rule_name, [r])]
    decreases |groups|
  {
    if groups != [] {
      assert groups[0].0 == Keys(groups)[0];
      assert Keys(groups[1..]) == Keys(groups)[1..];
      AddToGroupsNew(groups[1..], r);
      assert groups == [groups[0]] + groups[1..];
    }
  }

  /** The grouping holds one entry per distinct rule name, in first-occurrence order. */
  lemma {:induction false} GroupKeysInOrder(rules: seq<Finding>)
    ensures Keys(GroupsOf(rules)) == Dedup(Names(rules))
  {
    if rules != [] {
      var init := rules[..|rules| - 1];
      GroupKeysInOrder(init);
      AddToGroupsKeys(GroupsOf(init), rules[|rules| - 1]);
      assert Names(init) == Names(rules)[..|rules| - 1];
    }
  }

  lemma GroupsDistinct(rules: seq<Finding>)
    ensures DistinctKeys(GroupsOf(rules))
  {
    GroupKeysInOrder(rules);
    var g := GroupsOf(rules);
    forall a, b | 0 <= a < b < |g| ensures g[a].0 != g[b].0 {
      assert Keys(g)[a] == g[a].0 && Keys(g)[b] == g[b].0;
    }
  }

  /** ByName on a sequence extended by one finding. */
  lemma ByNameSnoc(init: seq<Finding>, last: Finding, name: string)
    ensures ByName(init + [last], name) == ByName(init, name) + (if last.rule_name == name then [last] else [])
  {
    assert (init + [last])[..|init|] == init;
  }

  /** A name with no entry in the grouping has no findings. */
  lemma {:induction false} AbsentName(rules: seq<Finding>, name: string)
    requires name !in Keys(GroupsOf(rules))
    ensures ByName(rules, name) == []
  {
    if rules != [] {
      var init := rules[..|rules| - 1];
      AddToGroupsKeys(GroupsOf(init), rules[|rules| - 1]);
      AbsentName(init, name);
    }
  }

  /** Every entry of `groups` holds exactly the findings of `rules` with its key. */
  predicate GroupsMatch(rules: seq<Finding>, groups: Groups)
  {
    forall k :: 0 <= k < |groups| ==> groups[k].1 == ByName(rules, groups[k].0)
  }

  /** Entry i of the grouping after one more finding. */
  lemma GroupItemAt(init: seq<Finding>, last: Finding, i: nat)
    requires GroupsMatch(init, GroupsOf(init))
    requires i < |AddToGroups(GroupsOf(init), last)|
    ensures AddToGroups(GroupsOf(init), last)[i].1 == ByName(init + [last], AddToGroups(GroupsOf(init), last)[i].0)
  {
    var g0 := GroupsOf(init);
    AddToGroupsKeys(g0, last);
    if i < |g0| {
      GroupsDistinct(init);
      AddToGroupsAt(g0, last, i);
      ByNameSnoc(init, last, g0[i].0);
    } else {
      AddToGroupsNew(g0, last);
      AbsentName(init, last.rule_name);
      ByNameSnoc(init, last, last.rule_name);
    }
  }

  /** Each entry of the grouping holds exactly that rule's findings, in input order. */
  lemma {:induction false} GroupItemsByName(rules: seq<Finding>)
    ensures GroupsMatch(rules, GroupsOf(rules))
  {
    if rules != [] {
      var init := rules[..|rules| - 1];
      var last := rules[|rules| - 1];
      GroupItemsByName(init);
      assert rules == init + [last];
      var g := GroupsOf(rules);
      assert g == AddToGroups(GroupsOf(init), last);
      forall i | 0 <= i < |g| ensures g[i].1 == ByName(rules, g[i].0) {
        GroupItemAt(init, last, i);
      }
    }
  }

  /** One narrative line; the reasons are a set, so their join order is not fixed. */
  datatype Line = Line(name: string, flags: seq<Flag>, reasons: set<string>)

  /** Every flag, in descending string order. */
  const FlagsDescending: seq<Flag> := [YELLOW, RED, NOT_APPLICABLE, HIGH, GREEN, CRITICAL]

  lemma StrLessFirst(a: string, b: string)
    requires a != [] && b != [] && a[0] < b[0]
    ensures StrLess(a, b)
  {
  }

  lemma FlagsDescendingSorted()
    ensures forall i, j :: 0 <= i < j < |FlagsDescending| ==> StrLess(FlagName(FlagsDescending[j]), FlagName(FlagsDescending[i]))
    ensures forall f: Flag :: f in FlagsDescending
  {
    forall i, j | 0 <= i < j < |FlagsDescending|
      ensures StrLess(FlagName(FlagsDescending[j]), FlagName(FlagsDescending[i]))
    {
      var a := FlagName(FlagsDescending[j]);
      var b := FlagName(FlagsDescending[i]);
      assert a[0] < b[0];
      StrLessFirst(a, b);
    }
    forall f: Flag ensures f in FlagsDescending {
      match f
      case YELLOW => assert FlagsDescending[0] == f;
      case RED => assert FlagsDescending[1] == f;
      case NOT_APPLICABLE => assert FlagsDescending[2] == f;
      case HIGH => assert FlagsDescending[3] == f;
      case GREEN => assert FlagsDescending[4] == f;
      case CRITICAL => assert FlagsDescending[5] == f;
    }
  }

  /** `sorted({it.get("flag") for it in items}, reverse=True)`. */
  function SortedFlags(items: seq<Finding>): (r: seq<Flag>)
    ensures forall f :: f in r <==> exists it :: it in items && it.flag == f
    ensures forall i, j :: 0 <= i < j < |r| ==> StrLess(FlagName(r[j]), FlagName(r[i]))
  {
    FlagsDescendingSorted();
    var r := Keep(FlagsDescending, items);
    KeepSorted(FlagsDescending, items);
    r
  }

  function Keep(fs: seq<Flag>, items: seq<Finding>): (r: seq<Flag>)
    ensures forall f :: f in r <==> f in fs && exists it :: it in items && it.flag == f
  {
    if fs == [] then []
    else (if exists it :: it in items && it.flag == fs[0] then [fs[0]] else []) + Keep(fs[1..], items)
  }

  lemma {:induction false} KeepSorted(fs: seq<Flag>, items: seq<Finding>)
    requires forall i, j :: 0 <= i < j < |fs| ==> StrLess(FlagName(fs[j]), FlagName(fs[i]))
    ensures forall i, j :: 0 <= i < j < |Keep(fs, items)| ==> StrLess(FlagName(Keep(fs, items)[j]), FlagName(Keep(fs, items)[i]))
  {
    if fs != [] {
      KeepSorted(fs[1..], items);
      var k := Keep(fs, items);
      var rest := Keep(fs[1..], items);
      forall i, j | 0 <= i < j < |k| ensures StrLess(FlagName(k[j]), FlagName(k[i])) {
        if k != rest {
          assert k == [fs[0]] + rest;
          if i == 0 {
            assert k[j] == rest[j - 1] && k[j] in fs[1..];
            var m :| 1 <= m < |fs| && fs[m] == k[j];
          } else {
            assert k[i] == rest[i - 1] && k[j] == rest[j - 1];
          }
        }
      }
    }
  }

  /** The distinct non-empty reasons. */
  function Reasons(items: seq<Finding>): set<string>
  {
    set it | it in items && it.reason != "" :: it.reason
  }

  function LineOf(g: (string, seq<Finding>)): Line
  {
    Line(g.0, SortedFlags(g.1), Reasons(g.1))
  }

  /**
   * The line as text, once an order of the reason set is fixed:
   * "name (f1, f2): r1; r2".
   */
  function Render(line: Line, reasonOrder: seq<string>): (r: string)
    requires forall x :: x in reasonOrder <==> x in line.reasons
    requires forall i, j :: 0 <= i < j < |reasonOrder| ==> reasonOrder[i] != reasonOrder[j]
    ensures |r| >= |line.name| + 2 && r[..|line.name| + 2] == line.name + " ("
  {
    var names := seq(|line.flags|, i requires 0 <= i < |line.flags| => FlagName(line.flags[i]));
    var r := line.name + " (" + Join(", ", names) + "): " + Join("; ", reasonOrder);
    assert r == (line.name + " (") + (Join(", ", names) + "): " + Join("; ", reasonOrder));
    r
  }

  method GenerateFallbackNarrative(rules: seq<Finding>) returns (narrative: seq<Line>)
    ensures |narrative| == |Dedup(Names(rules))|
    ensures forall i :: 0 <= i < |narrative| ==>
              var name := Dedup(Names(rules))[i];
              narrative[i] == Line(name, SortedFlags(ByName(rules, name)), Reasons(ByName(rules, name)))
    ensures rules == [] ==> narrative == []
  {
    var grouped := Group(rules);
    narrative := RenderGroups(grouped);
    GroupedLines(rules, narrative);
  }

  /** The grouping loop: `grouped.setdefault(name, []).append(r)`. */
  method Group(rules: seq<Finding>) returns (grouped: Groups)
    ensures grouped == GroupsOf(rules)
  {
    grouped := [];
    var i := 0;
    while i < |rules|
      invariant 0 <= i <= |rules|
      invariant grouped == GroupsOf(rules[..i])
    {
      assert rules[..i + 1][..i] == rules[..i];
      grouped := AddToGroups(grouped, rules[i]);
      i := i + 1;
    }
    assert rules[..|rules|] == rules;
  }

  /** One line per group, in the groups' order. */
  method RenderGroups(grouped: Groups) returns (narrative: seq<Line>)
    ensures |narrative| == |grouped|
    ensures forall k :: 0 <= k < |grouped| ==> narrative[k] == LineOf(grouped[k])
  {
    narrative := [];
    var j := 0;
    while j < |grouped|
      invariant 0 <= j <= |grouped|
      invariant |narrative| == j
      invariant forall k :: 0 <= k < j ==> narrative[k] == LineOf(grouped[k])
    {
      narrative := narrative + [LineOf(grouped[j])];
      j := j + 1;
    }
  }

  /** The lines of the grouped findings are one per distinct name, in first-seen order. */
  lemma GroupedLines(rules: seq<Finding>, narrative: seq<Line>)
    requires |narrative| == |GroupsOf(rules)|
    requires forall k :: 0 <= k < |narrative| ==> narrative[k] == LineOf(GroupsOf(rules)[k])
    ensures |narrative| == |Dedup(Names(rules))|
    ensures forall i :: 0 <= i < |narrative| ==>
              var name := Dedup(Names(rules))[i];
              narrative[i] == Line(name, SortedFlags(ByName(rules, name)), Reasons(ByName(rules, name)))
  {
    var grouped := GroupsOf(rules);
    GroupKeysInOrder(rules);
    GroupItemsByName(rules);
    forall k | 0 <= k < |narrative|
      ensures narrative[k] == Line(Dedup(Names(rules))[k], SortedFlags(ByName(rules, Dedup(Names(rules))[k])),
                                   Reasons(ByName(rules, Dedup(Names(rules))[k])))
    {
      assert Keys(grouped)[k] == grouped[k].0;
    }
  }
}
