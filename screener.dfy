/**
 * The screener scraper's text helpers: the file-name cleaner, the
 * paywall detector, and the table clean-up applied before a table is
 * saved (financial-year labels, column names, comma-grouped numbers and
 * the choice of a file name that no earlier table of the page holds).
 */
module Screener {
  import opened Common
  import opened PyStr

  // ------------------------------------------------------------ generic text operations

  /** `re.sub(r"[...]", "", s)` for a character class: the characters `keep` accepts, in order. */
  function Filter(s: string, keep: char -> bool): (r: string)
    ensures |r| <= |s|
    ensures AllChars(r, keep)
  {
    if s == [] then [] else (if keep(s[0]) then [s[0]] else []) + Filter(s[1..], keep)
  }

  /** Every character of `s` satisfies `p`. */
  predicate AllChars(s: string, p: char -> bool)
  {
    forall i :: 0 <= i < |s| ==> p(s[i])
  }

  /** A text all of whose characters `keep` accepts is its own filtering. */
  lemma {:induction false} FilterAll(s: string, keep: char -> bool)
    requires forall i :: 0 <= i < |s| ==> keep(s[i])
    ensures Filter(s, keep) == s
  {
    if s != [] {
      assert forall i :: 0 <= i < |s[1..]| ==> s[1..][i] == s[i + 1];
      FilterAll(s[1..], keep);
      assert s == [s[0]] + s[1..];
    }
  }

  /** `s.replace(pat, rep)`: occurrences of `pat` replaced from left to right, without overlap. */
  function Replace(s: string, pat: string, rep: string): string
    requires pat != []
    decreases |s|
  {
    if |s| >= |pat| && s[..|pat|] == pat then rep + Replace(s[|pat|..], pat, rep)
    else if s == [] then []
    else [s[0]] + Replace(s[1..], pat, rep)
  }

  /** A pattern whose first character the text lacks is not replaced. */
  lemma {:induction false} ReplaceAbsent(s: string, pat: string, rep: string)
    requires pat != [] && pat[0] !in s
    ensures Replace(s, pat, rep) == s
    decreases |s|
  {
    if s != [] {
      assert s[0] != pat[0];
      assert pat[0] !in s[1..];
      ReplaceAbsent(s[1..], pat, rep);
      assert s == [s[0]] + s[1..];
    }
  }

  /** `sub in s`: `sub` occurs at some position of `s`. */
  predicate Contains(s: string, sub: string)
  {
    exists k :: 0 <= k <= |s| && sub <= s[k..]
  }

  /** A text holding a character only where `s` holds one occurs only in texts holding it. */
  lemma ContainsChar(s: string, sub: string, c: char)
    requires Contains(s, sub) && c in sub
    ensures c in s
  {
    var k :| 0 <= k <= |s| && sub <= s[k..];
    var i :| 0 <= i < |sub| && sub[i] == c;
    assert s[k..][i] == c;
    assert s[k + i] == c;
  }

  /** The position of the first text of `ps` that occurs in `s`. */
  function FirstContained(s: string, ps: seq<string>): (r: Option<nat>)
    ensures r.Some? ==> r.value < |ps| && Contains(s, ps[r.value])
    ensures r.Some? ==> forall j :: 0 <= j < r.value ==> !Contains(s, ps[j])
    ensures r.None? <==> forall j :: 0 <= j < |ps| ==> !Contains(s, ps[j])
  {
    if ps == [] then None
    else if Contains(s, ps[0]) then Some(0)
    else
      var r := FirstContained(s, ps[1..]);
      assert forall j :: 1 <= j < |ps| ==> ps[j] == ps[1..][j - 1];
      if r.Some? then Some(r.value + 1) else None
  }

  // ------------------------------------------------------------ clean_filename

  /** The characters clean_filename deletes. */
  predicate Forbidden(c: char)
  {
    c == '<' || c == '>' || c == ':' || c == '"' || c == '/' || c == '\\' || c == '|' || c == '?' || c == '*'
  }

  predicate Allowed(c: char) { !Forbidden(c) }

  /** `re.sub(r'\s+', '_', s)`: each maximal run of whitespace becomes one underscore. */
  function Underscored(s: string): (r: string)
    ensures |r| <= |s|
    ensures NoSpace(r)
    decreases |s|
  {
    if s == [] then []
    else if IsSpace(s[0]) then
      var t := LStrip(s);
      assert |t| < |s|;
      "_" + Underscored(t)
    else [s[0]] + Underscored(s[1..])
  }

  /** A property of every character, and of the underscore, holds of every character after the substitution. */
  lemma {:induction false} UnderscoredKeeps(s: string, p: char -> bool)
    requires p('_') && AllChars(s, p)
    ensures AllChars(Underscored(s), p)
    decreases |s|
  {
    if s != [] {
      var t := if IsSpace(s[0]) then LStrip(s) else s[1..];
      assert t == s[|s| - |t|..];
      assert AllChars(t, p) by {
        forall i | 0 <= i < |t| ensures p(t[i]) {
          assert t[i] == s[|s| - |t| + i];
        }
      }
      UnderscoredKeeps(t, p);
    }
  }

  /** A property of every character holds of every character of the strip. */
  lemma StripKeeps(s: string, p: char -> bool)
    requires AllChars(s, p)
    ensures AllChars(Strip(s), p)
  {
    var r := RStrip(s);
    assert AllChars(r, p) by {
      forall i | 0 <= i < |r| ensures p(r[i]) {
        assert r[i] == s[i];
      }
    }
    var t := LStrip(r);
    forall i | 0 <= i < |t| ensures p(t[i]) {
      assert t[i] == r[|r| - |t| + i];
    }
  }

  /** A text without whitespace is not changed by the substitution. */
  lemma {:induction false} UnderscoredNoSpace(s: string)
    requires NoSpace(s)
    ensures Underscored(s) == s
  {
    if s != [] {
      assert forall i :: 0 <= i < |s[1..]| ==> s[1..][i] == s[i + 1];
      UnderscoredNoSpace(s[1..]);
      assert s == [s[0]] + s[1..];
    }
  }

  /** A text without whitespace is its own strip. */
  lemma StripNoSpace(s: string)
    requires NoSpace(s)
    ensures Strip(s) == s
  {
    if s != [] {
      StripTrimmed(s);
    }
  }

  /** `s[:n]`. */
  function Truncate(s: string, n: nat): (r: string)
    ensures |r| <= n && r <= s
    ensures |s| <= n ==> r == s
  {
    if |s| <= n then s else s[..n]
  }

  /**
   * clean_filename: the forbidden characters deleted, the text stripped,
   * whitespace runs turned into underscores, and the first 150 characters kept.
   */
  function CleanFilename(text: string): (r: string)
    ensures |r| <= 150 && NoSpace(r) && forall i :: 0 <= i < |r| ==> !Forbidden(r[i])
  {
    var u := Underscored(Strip(Filter(text, Allowed)));
    UnderscoredAllowed(text);
    Truncate(u, 150)
  }

  /** The forbidden characters stay out through the strip and the whitespace replacement. */
  lemma UnderscoredAllowed(text: string)
    ensures AllChars(Underscored(Strip(Filter(text, Allowed))), Allowed)
  {
    var f := Filter(text, Allowed);
    StripKeeps(f, Allowed);
    assert Allowed('_');
    UnderscoredKeeps(Strip(f), Allowed);
  }

  /** The texts clean_filename leaves unchanged are exactly the clean ones. */
  lemma CleanFilenameFixpoint(text: string)
    ensures CleanFilename(text) == text <==>
              |text| <= 150 && NoSpace(text) && forall i :: 0 <= i < |text| ==> !Forbidden(text[i])
  {
    if |text| <= 150 && NoSpace(text) && forall i :: 0 <= i < |text| ==> !Forbidden(text[i]) {
      FilterAll(text, Allowed);
      StripNoSpace(text);
      UnderscoredNoSpace(text);
    }
  }

  /** Cleaning a file name twice is cleaning it once. */
  lemma CleanFilenameIdempotent(text: string)
    ensures CleanFilename(CleanFilename(text)) == CleanFilename(text)
  {
    CleanFilenameFixpoint(CleanFilename(text));
  }

  // ------------------------------------------------------------ check_paywall

  /** The phrases check_paywall looks for, in its order. */
  const PaywallPhrases: seq<string> :=
    ["login to view", "sign in to access", "subscribe to view", "premium members only", "access denied",
     "only available to"]

  /**
   * check_paywall on a page whose text is `pageText`: the text is
   * lower-cased and the first phrase it holds is reported, or none.
   */
  method CheckPaywall(pageText: string) returns (paywalled: bool, phrase: Option<string>)
    ensures var k := FirstContained(LowerStr(pageText), PaywallPhrases);
            && paywalled == k.Some?
            && phrase == (if k.Some? then Some(PaywallPhrases[k.value]) else None)
  {
    var text := LowerStr(pageText);
    for i := 0 to |PaywallPhrases|
      invariant forall j :: 0 <= j < i ==> !Contains(text, PaywallPhrases[j])
    {
      if Contains(text, PaywallPhrases[i]) {
        return true, Some(PaywallPhrases[i]);
      }
    }
    return false, None;
  }

  /**
   * A reported phrase is one of the list that occurs in the lower-cased
   * page, and no earlier phrase occurs; no phrase is reported exactly when
   * none occurs.
   */
  lemma PaywallReport(pageText: string)
    ensures var k := FirstContained(LowerStr(pageText), PaywallPhrases);
            && (k.Some? ==> PaywallPhrases[k.value] in PaywallPhrases
                            && Contains(LowerStr(pageText), PaywallPhrases[k.value])
                            && forall j :: 0 <= j < k.value ==> !Contains(LowerStr(pageText), PaywallPhrases[j]))
            && (k.None? <==> forall p :: p in PaywallPhrases ==> !Contains(LowerStr(pageText), p))
  {
  }

  // ------------------------------------------------------------ convert_fy

  /** `re.match(r"([A-Za-z]{3})\s+(\d{4})$", s)`: three letters, whitespace, then four digits and the end. */
  predicate FyShaped(s: string)
  {
    && |s| >= 8
    && IsLetter(s[0]) && IsLetter(s[1]) && IsLetter(s[2])
    && (forall i :: 3 <= i < |s| - 4 ==> IsSpace(s[i]))
    && AllDigits(s[|s| - 4..])
  }

  /** convert_fy on a text value: "Mar 2014" becomes "Mar_2014"; anything else is only stripped. */
  function ConvertFy(val: string): (r: string)
    ensures FyShaped(Strip(val)) <==> r != Strip(val)
    ensures FyShaped(Strip(val)) ==> |r| == 8 && r[3] == '_' && NoSpace(r)
  {
    var s := Strip(val);
    if FyShaped(s) then
      FyLabel(s);
      s[..3] + "_" + s[|s| - 4..]
    else s
  }

  /** The label a matching text is converted to: eight characters, none blank, an underscore fourth. */
  lemma FyLabel(s: string)
    requires FyShaped(s)
    ensures var r := s[..3] + "_" + s[|s| - 4..];
            |r| == 8 && r[3] == '_' && NoSpace(r) && r != s
  {
    var month := s[..3];
    var year := s[|s| - 4..];
    assert |month| == 3 && |year| == 4 && AllDigits(year);
    var r := month + "_" + year;
    assert IsSpace(s[3]) && r[3] == '_';
    assert r != s by { assert r[3] != s[3]; }
    forall i | 0 <= i < 8 ensures !IsSpace(r[i]) {
      if i < 3 {
        assert r[i] == s[i];
        LetterNotSpace(s[i]);
      } else if i > 3 {
        assert r[i] == year[i - 4];
        DigitNotSpace(year[i - 4]);
      } else {
        UnderscoreNotSpace();
      }
    }
  }

  lemma LetterNotSpace(c: char)
    requires IsLetter(c)
    ensures !IsSpace(c)
  {
  }

  lemma DigitNotSpace(c: char)
    requires IsDigit(c)
    ensures !IsSpace(c)
  {
  }

  lemma UnderscoreNotSpace()
    ensures !IsSpace('_')
  {
  }

  /** Three letters, any run of whitespace and four digits become the letters, an underscore and the digits. */
  lemma ConvertFyLabel(month: string, gap: string, year: string)
    requires |month| == 3 && forall i :: 0 <= i < 3 ==> IsLetter(month[i])
    requires gap != [] && forall i :: 0 <= i < |gap| ==> IsSpace(gap[i])
    requires |year| == 4 && AllDigits(year)
    ensures ConvertFy(month + gap + year) == month + "_" + year
  {
    var s := month + gap + year;
    assert s[..3] == month && s[|s| - 4..] == year;
    assert s[0] == month[0] && s[1] == month[1] && s[2] == month[2];
    forall i | 3 <= i < |s| - 4 ensures IsSpace(s[i]) {
      assert s[i] == gap[i - 3];
    }
    assert FyShaped(s);
    LetterNotSpace(month[0]);
    assert s[|s| - 1] == year[3];
    DigitNotSpace(year[3]);
    StripTrimmed(s);
  }

  /** A converted label is left alone by a second conversion. */
  lemma ConvertFyIdempotent(val: string)
    ensures ConvertFy(ConvertFy(val)) == ConvertFy(val)
  {
    var s := Strip(val);
    if FyShaped(s) {
      var r := ConvertFy(val);
      StripNoSpace(r);
    } else {
      StripStripped(val);
    }
  }

  /** Stripping a stripped text changes nothing. */
  lemma StripStripped(s: string)
    ensures Strip(Strip(s)) == Strip(s)
  {
    var t := Strip(s);
    if t != [] {
      assert t == LStrip(RStrip(s));
      var r := RStrip(s);
      assert t == r[|r| - |t|..];
      assert !IsSpace(t[|t| - 1]) by {
        assert t[|t| - 1] == r[|r| - 1];
      }
      StripTrimmed(t);
    }
  }

  // ------------------------------------------------------------ clean_col

  /** The replacement table of clean_col, in the dictionary's order. */
  const Replacements: seq<(string, string)> :=
    [("Equity Cap", "Equity_Capital"), ("Borrowings -", "Borrowings"),
     ("Other Liabilities +", "Other_Liabilities"), ("Other Liabilities", "Other_Liabilities"),
     ("Fixed Assets +", "Fixed_Assets"), ("Other Assets +", "Other_Assets"),
     ("Short term Borrowings", "Short_term_Borrowings"), ("Long term Borrowings", "Long_term_Borrowings")]

  /** The lower-cased keys clean_col looks for. */
  function ReplacementKeys(): (ks: seq<string>)
    ensures |ks| == |Replacements|
  {
    seq(|Replacements|, i requires 0 <= i < |Replacements| => LowerStr(Replacements[i].0))
  }

  /** The characters `[A-Za-z0-9_]`. */
  predicate IsWordChar(c: char) { IsLetter(c) || IsDigit(c) || c == '_' }

  predicate NoDoubleUnderscore(s: string)
  {
    forall i :: 0 <= i < |s| - 1 ==> !(s[i] == '_' && s[i + 1] == '_')
  }

  /** What clean_col promises of a name: word characters only, no "__", and no underscore at either end. */
  predicate CleanName(s: string)
  {
    && (forall i :: 0 <= i < |s| ==> IsWordChar(s[i]))
    && NoDoubleUnderscore(s)
    && (s != [] ==> s[0] != '_' && s[|s| - 1] != '_')
  }

  /** A word character is neither whitespace nor a character file names forbid. */
  lemma WordCharPlain(c: char)
    requires IsWordChar(c)
    ensures !IsSpace(c) && !Forbidden(c)
  {
    if IsLetter(c) {
      LetterNotSpace(c);
    } else if IsDigit(c) {
      DigitNotSpace(c);
    } else {
      UnderscoreNotSpace();
    }
  }

  lemma CleanNameNoSpace(s: string)
    requires CleanName(s)
    ensures NoSpace(s) && forall i :: 0 <= i < |s| ==> !Forbidden(s[i])
  {
    forall i | 0 <= i < |s| ensures !IsSpace(s[i]) && !Forbidden(s[i]) {
      WordCharPlain(s[i]);
    }
  }

  /** `s` without its leading underscores. */
  function DropUnderscores(s: string): (r: string)
    ensures |r| <= |s| && r == s[|s| - |r|..]
    ensures r != [] ==> r[0] != '_'
  {
    if s != [] && s[0] == '_' then
      var r := DropUnderscores(s[1..]);
      assert s[1..][|s| - 1 - |r|..] == s[|s| - |r|..];
      r
    else s
  }

  /** `re.sub(r"_+", "_", s)`: each run of underscores becomes one. */
  function Collapse(s: string): (r: string)
    ensures |r| <= |s|
    ensures NoDoubleUnderscore(r)
    ensures r == [] <==> s == []
    ensures r != [] ==> (r[0] == '_' <==> s[0] == '_')
    decreases |s|
  {
    if s == [] then []
    else if s[0] == '_' then "_" + Collapse(DropUnderscores(s[1..]))
    else [s[0]] + Collapse(s[1..])
  }

  /** A property of every character holds of every character after the substitution. */
  lemma {:induction false} CollapseKeeps(s: string, p: char -> bool)
    requires AllChars(s, p)
    ensures AllChars(Collapse(s), p)
    decreases |s|
  {
    if s != [] {
      var t := if s[0] == '_' then DropUnderscores(s[1..]) else s[1..];
      assert t == s[|s| - |t|..] by {
        if s[0] == '_' {
          assert s[1..][|s| - 1 - |t|..] == s[|s| - |t|..];
        }
      }
      assert AllChars(t, p) by {
        forall i | 0 <= i < |t| ensures p(t[i]) {
          assert t[i] == s[|s| - |t| + i];
        }
      }
      CollapseKeeps(t, p);
      assert p(s[0]);
    }
  }

  /** A text without "__" is not changed by the substitution. */
  lemma {:induction false} CollapseSingle(s: string)
    requires NoDoubleUnderscore(s)
    ensures Collapse(s) == s
  {
    if s != [] {
      var t := s[1..];
      NoDoubleTail(s);
      CollapseSingle(t);
      if s[0] == '_' {
        assert t == [] || t[0] != '_' by {
          if t != [] {
            assert t[0] == s[1];
          }
        }
        assert DropUnderscores(t) == t;
        assert Collapse(s) == "_" + Collapse(t);
      } else {
        assert Collapse(s) == [s[0]] + Collapse(t);
      }
      assert s == [s[0]] + t;
    }
  }

  lemma NoDoubleTail(s: string)
    requires s != [] && NoDoubleUnderscore(s)
    ensures NoDoubleUnderscore(s[1..])
  {
    var t := s[1..];
    forall i | 0 <= i < |t| - 1 ensures !(t[i] == '_' && t[i + 1] == '_') {
      assert t[i] == s[i + 1] && t[i + 1] == s[i + 2];
    }
  }

  /** `s.strip("_")`. */
  function StripUnderscores(s: string): (r: string)
    ensures r != [] ==> r[0] != '_' && r[|r| - 1] != '_'
  {
    TrimUnderscores(DropUnderscores(s))
  }

  /** `s.rstrip("_")`. */
  function TrimUnderscores(s: string): (r: string)
    ensures |r| <= |s| && r == s[..|r|]
    ensures r != [] ==> r[|r| - 1] != '_'
    ensures s != [] && s[0] != '_' ==> r != [] && r[0] == s[0]
  {
    if s != [] && s[|s| - 1] == '_' then TrimUnderscores(s[..|s| - 1]) else s
  }

  /** A text with no underscore at either end is its own strip. */
  lemma StripUnderscoresTrimmed(s: string)
    requires s != [] ==> s[0] != '_' && s[|s| - 1] != '_'
    ensures StripUnderscores(s) == s
  {
  }

  /** Word characters without "__" stay so in any part of the text. */
  predicate WordsOnce(s: string)
  {
    NoDoubleUnderscore(s) && forall i :: 0 <= i < |s| ==> IsWordChar(s[i])
  }

  lemma WordsOnceSuffix(s: string, t: string)
    requires WordsOnce(s) && |t| <= |s| && t == s[|s| - |t|..]
    ensures WordsOnce(t)
  {
    var k := |s| - |t|;
    forall i | 0 <= i < |t| ensures IsWordChar(t[i]) && (i < |t| - 1 ==> !(t[i] == '_' && t[i + 1] == '_')) {
      assert t[i] == s[k + i];
      if i < |t| - 1 {
        assert t[i + 1] == s[k + i + 1];
      }
    }
  }

  lemma WordsOncePrefix(s: string, t: string)
    requires WordsOnce(s) && |t| <= |s| && t == s[..|t|]
    ensures WordsOnce(t)
  {
    forall i | 0 <= i < |t| ensures IsWordChar(t[i]) && (i < |t| - 1 ==> !(t[i] == '_' && t[i + 1] == '_')) {
      assert t[i] == s[i];
      if i < |t| - 1 {
        assert t[i + 1] == s[i + 1];
      }
    }
  }

  /** Stripping the underscores of word characters without "__" gives a clean name. */
  lemma StripUnderscoresClean(s: string)
    requires WordsOnce(s)
    ensures CleanName(StripUnderscores(s))
  {
    var t := DropUnderscores(s);
    WordsOnceSuffix(s, t);
    WordsOncePrefix(t, TrimUnderscores(t));
  }

  /** The generic branch of clean_col, after its replacement table found nothing; it yields a clean name. */
  function Sanitize(s: string): (r: string)
    ensures CleanName(r)
  {
    var t4 := Replace(Replace(Replace(Replace(s, " -", ""), "-", "_"), " ", "_"), "/", "_");
    var t5 := Filter(t4, IsWordChar);
    CollapseKeeps(t5, IsWordChar);
    StripUnderscoresClean(Collapse(t5));
    StripUnderscores(Collapse(t5))
  }

  /** A clean name is not changed by the generic branch. */
  lemma SanitizeClean(s: string)
    requires CleanName(s)
    ensures Sanitize(s) == s
  {
    assert ' ' !in s && '-' !in s && '/' !in s by {
      forall i | 0 <= i < |s| ensures s[i] != ' ' && s[i] != '-' && s[i] != '/' {
        assert IsWordChar(s[i]);
      }
    }
    ReplaceAbsent(s, " -", "");
    ReplaceAbsent(s, "-", "_");
    ReplaceAbsent(s, " ", "_");
    ReplaceAbsent(s, "/", "_");
    FilterAll(s, IsWordChar);
    CollapseSingle(s);
    StripUnderscoresTrimmed(s);
  }

  /**
   * clean_col: the stripped name is replaced by the value of the first
   * table key it holds, ignoring case; otherwise it is sanitised.
   */
  function CleanCol(col: string): (r: string)
    ensures CleanName(r)
    ensures var k := FirstContained(LowerStr(Strip(col)), ReplacementKeys());
            k.Some? ==> r == Replacements[k.value].1
  {
    var s := Strip(col);
    var k := FirstContained(LowerStr(s), ReplacementKeys());
    if k.Some? then
      ReplacementsClean(k.value);
      Replacements[k.value].1
    else
      Sanitize(s)
  }

  /** A non-empty run of letters and digits: one part of an underscore-joined name. */
  predicate Plain(w: string)
  {
    w != [] && forall i :: 0 <= i < |w| ==> IsLetter(w[i]) || IsDigit(w[i])
  }

  lemma PlainClean(w: string)
    requires Plain(w)
    ensures CleanName(w)
  {
  }

  /** Joining a clean name and a plain part with one underscore keeps the name clean. */
  lemma JoinClean(a: string, b: string)
    requires a != [] && CleanName(a) && Plain(b)
    ensures CleanName(a + "_" + b)
  {
    var r := a + "_" + b;
    forall i | 0 <= i < |r| ensures IsWordChar(r[i]) {
      if i < |a| { assert r[i] == a[i]; } else if i > |a| { assert r[i] == b[i - |a| - 1]; }
    }
    forall i | 0 <= i < |r| - 1 ensures !(r[i] == '_' && r[i + 1] == '_') {
      if i < |a| - 1 {
        assert r[i] == a[i] && r[i + 1] == a[i + 1];
      } else if i == |a| - 1 {
        assert r[i] == a[|a| - 1];
      } else {
        assert r[i + 1] == b[i - |a|];
      }
    }
    assert r[0] == a[0] && r[|r| - 1] == b[|b| - 1];
  }

  /** Two plain parts joined by an underscore. */
  lemma PairClean(a: string, b: string)
    requires Plain(a) && Plain(b)
    ensures CleanName(a + "_" + b)
  {
    PlainClean(a);
    JoinClean(a, b);
  }

  /** Three plain parts joined by underscores. */
  lemma TripleClean(a: string, b: string, c: string)
    requires Plain(a) && Plain(b) && Plain(c)
    ensures CleanName(a + "_" + b + "_" + c)
  {
    PairClean(a, b);
    JoinClean(a + "_" + b, c);
  }

  /** Each of the table's values, and each fixed base name of a scraped table, is a clean name. */
  lemma EquityCapitalClean() ensures CleanName("Equity_Capital")
  {
    assert "Equity_Capital" == "Equity" + "_" + "Capital";
    PairClean("Equity", "Capital");
  }

  lemma OtherLiabilitiesClean() ensures CleanName("Other_Liabilities")
  {
    assert "Other_Liabilities" == "Other" + "_" + "Liabilities";
    PairClean("Other", "Liabilities");
  }

  lemma FixedAssetsClean() ensures CleanName("Fixed_Assets")
  {
    assert "Fixed_Assets" == "Fixed" + "_" + "Assets";
    PairClean("Fixed", "Assets");
  }

  lemma OtherAssetsClean() ensures CleanName("Other_Assets")
  {
    assert "Other_Assets" == "Other" + "_" + "Assets";
    PairClean("Other", "Assets");
  }

  lemma ShortTermClean() ensures CleanName("Short_term_Borrowings")
  {
    assert "Short_term_Borrowings" == "Short" + "_" + "term" + "_" + "Borrowings";
    TripleClean("Short", "term", "Borrowings");
  }

  lemma LongTermClean() ensures CleanName("Long_term_Borrowings")
  {
    assert "Long_term_Borrowings" == "Long" + "_" + "term" + "_" + "Borrowings";
    TripleClean("Long", "term", "Borrowings");
  }

  /** The table's values are clean names. */
  lemma ReplacementsClean(i: nat)
    requires i < |Replacements|
    ensures CleanName(Replacements[i].1)
  {
    if i == 0 {
      EquityCapitalClean();
    } else if i == 1 {
      PlainClean("Borrowings");
    } else if i == 2 || i == 3 {
      OtherLiabilitiesClean();
    } else if i == 4 {
      FixedAssetsClean();
    } else if i == 5 {
      OtherAssetsClean();
    } else if i == 6 {
      ShortTermClean();
    } else {
      LongTermClean();
    }
  }

  /** Every lower-cased key holds a space. */
  lemma KeysSpaced(i: nat)
    requires i < |Replacements|
    ensures ' ' in ReplacementKeys()[i]
  {
    var key := Replacements[i].0;
    var j := if i == 0 then 6 else if i == 1 then 10 else if i == 7 then 4 else 5;
    assert key[j] == ' ';
    assert LowerStr(key)[j] == ' ';
  }

  /** A clean name holds none of the table's keys, since each key holds a space. */
  lemma CleanNameNoKey(s: string)
    requires CleanName(s)
    ensures FirstContained(LowerStr(s), ReplacementKeys()).None?
  {
    var low := LowerStr(s);
    assert ' ' !in low by {
      forall i | 0 <= i < |low| ensures low[i] != ' ' {
        assert IsWordChar(s[i]);
      }
    }
    forall j | 0 <= j < |ReplacementKeys()| ensures !Contains(low, ReplacementKeys()[j]) {
      KeysSpaced(j);
      if Contains(low, ReplacementKeys()[j]) {
        ContainsChar(low, ReplacementKeys()[j], ' ');
      }
    }
  }

  /** clean_col leaves a clean name as it is. */
  lemma CleanNameFixed(r: string)
    requires CleanName(r)
    ensures CleanCol(r) == r
  {
    CleanNameNoSpace(r);
    StripNoSpace(r);
    CleanNameNoKey(r);
    SanitizeClean(r);
  }

  /** Cleaning a column name twice is cleaning it once. */
  lemma CleanColIdempotent(col: string)
    ensures CleanCol(CleanCol(col)) == CleanCol(col)
  {
    CleanNameFixed(CleanCol(col));
  }

  // ------------------------------------------------------------ remove_commas

  /** A cell of the scraped table: a text, an integer, or another value that remove_commas passes through. */
  datatype Cell = TextCell(s: string) | IntCell(n: int) | OtherCell

  predicate DigitsAndCommas(s: string)
  {
    s != [] && forall i :: 0 <= i < |s| ==> IsDigit(s[i]) || s[i] == ','
  }

  /** `-?[0-9,]+` over the whole text. */
  predicate CommaNumeral(s: string)
  {
    DigitsAndCommas(s) || (s != [] && s[0] == '-' && DigitsAndCommas(s[1..]))
  }

  /** `re.match(r"^-?[0-9,]+$", s)`: `$` also matches before one final newline. */
  predicate CommaNumeralMatch(s: string)
  {
    CommaNumeral(s) || (s != [] && s[|s| - 1] == '\n' && CommaNumeral(s[..|s| - 1]))
  }

  /** The numeral a match covers, without the final newline `int` ignores. */
  function NumeralPart(s: string): string
  {
    if CommaNumeral(s) then s else if s != [] then s[..|s| - 1] else s
  }

  /**
   * remove_commas: a comma-grouped numeral text becomes the integer it
   * denotes with its commas removed, and any other value is returned
   * unchanged; None stands for the ValueError `int` raises when only
   * commas (and a sign) are left.
   */
  function RemoveCommas(v: Cell): (r: Option<Cell>)
    ensures !(v.TextCell? && CommaNumeralMatch(v.s)) ==> r == Some(v)
    ensures r.Some? && r != Some(v) ==> r.value.IntCell?
  {
    if v.TextCell? && CommaNumeralMatch(v.s) then
      match ParseInt(Without(NumeralPart(v.s), ','))
      case Some(n) => Some(IntCell(n))
      case None => None
    else Some(v)
  }

  /** A comma-grouped text whose digits spell `n` becomes `n`. */
  lemma RemoveCommasValue(t: string, n: nat)
    requires DigitsAndCommas(t) && Without(t, ',') == Show(n)
    ensures RemoveCommas(TextCell(t)) == Some(IntCell(n))
  {
    assert CommaNumeral(t) && NumeralPart(t) == t;
    ParseShow(n);
  }

  /** The same text after a minus sign becomes `-n`. */
  lemma RemoveCommasNegative(t: string, n: nat)
    requires DigitsAndCommas(t) && Without(t, ',') == Show(n)
    ensures RemoveCommas(TextCell("-" + t)) == Some(IntCell(-(n as int)))
  {
    var m := "-" + t;
    assert m[0] == '-' && m[1..] == t;
    assert CommaNumeral(m) && NumeralPart(m) == m;
    WithoutAppend("-", t, ',');
    assert Without("-", ',') == "-";
    assert Without(m, ',') == "-" + Show(n);
    ParseShow(n);
  }

  /** The numeral a match covers is a comma numeral at the start of the text. */
  lemma NumeralPartFacts(s: string)
    requires CommaNumeralMatch(s)
    ensures var m := NumeralPart(s);
            CommaNumeral(m) && |m| <= |s| && m == s[..|m|] && (|m| < |s| ==> s[|s| - 1] == '\n' && |m| == |s| - 1)
  {
  }

  /** A digit-free numeral (commas and a sign only) raises. */
  lemma RemoveCommasRaises(s: string)
    requires CommaNumeralMatch(s)
    requires forall i :: 0 <= i < |s| ==> !IsDigit(s[i])
    ensures RemoveCommas(TextCell(s)).None?
  {
    NumeralPartFacts(s);
    var m := NumeralPart(s);
    var d := Without(m, ',');
    if |d| > 0 {
      var k :| 0 <= k < |m| && m[k] == d[0];
      assert m[k] == s[k];
    }
  }

  /** A numeral with a digit converts to an integer: remove_commas raises only on digit-free numerals. */
  lemma RemoveCommasConverts(s: string, i: nat)
    requires CommaNumeralMatch(s) && i < |s| && IsDigit(s[i])
    ensures RemoveCommas(TextCell(s)).Some? && RemoveCommas(TextCell(s)).value.IntCell?
  {
    NumeralPartFacts(s);
    var m := NumeralPart(s);
    assert i < |m|;
    assert m[i] == s[i];
    if DigitsAndCommas(m) {
      DigitsKept(m, i);
      WithoutDigits(m);
    } else {
      var body := m[1..];
      assert m[0] == '-' && DigitsAndCommas(body);
      assert i >= 1;
      assert body[i - 1] == m[i];
      DigitsKept(body, i - 1);
      WithoutDigits(body);
      assert m == "-" + body;
      WithoutAppend("-", body, ',');
      assert Without("-", ',') == "-";
      var d := Without(body, ',');
      assert Without(m, ',') == "-" + d;
      assert ("-" + d)[1..] == d;
    }
  }

  /** Deleting the commas of digits and commas leaves digits only. */
  lemma WithoutDigits(s: string)
    requires DigitsAndCommas(s)
    ensures AllDigits(Without(s, ','))
  {
    var d := Without(s, ',');
    forall i | 0 <= i < |d| ensures IsDigit(d[i]) {
      var k :| 0 <= k < |s| && s[k] == d[i];
    }
  }

  /** Deleting the commas of a text with a digit keeps a digit. */
  lemma {:induction false} DigitsKept(s: string, j: nat)
    requires j < |s| && IsDigit(s[j])
    ensures Without(s, ',') != []
  {
    if j > 0 {
      assert s[1..][j - 1] == s[j];
      DigitsKept(s[1..], j - 1);
    }
  }

  // ------------------------------------------------------------ table names

  /** The file name clean-up chooses for the table: `base`, then `base_1`, `base_2`, ... */
  function Candidate(base: string, c: nat): (r: string)
    ensures base <= r
    ensures r == base <==> c == 0
  {
    if c == 0 then base else base + "_" + Show(c)
  }

  /** Different counters give different names. */
  lemma CandidateDistinct(base: string, i: nat, j: nat)
    requires i != j
    ensures Candidate(base, i) != Candidate(base, j)
  {
    if i != 0 && j != 0 && Candidate(base, i) == Candidate(base, j) {
      var a := Candidate(base, i);
      assert a[|base| + 1..] == Show(i);
      assert Candidate(base, j)[|base| + 1..] == Show(j);
      ShowValue(i);
      ShowValue(j);
    }
  }

  /**
   * The de-duplication loop: the first candidate the page's saved tables
   * do not hold yet. `counter` ends one past the chosen candidate.
   */
  method UniqueName(base: string, tablesSaved: set<string>) returns (name: string, ghost k: nat)
    ensures name !in tablesSaved && name == Candidate(base, k)
    ensures forall j :: 0 <= j < k ==> Candidate(base, j) in tablesSaved
  {
    name := base;
    var counter := 1;
    ghost var tried: set<string> := {};
    while name in tablesSaved
      invariant counter >= 1 && name == Candidate(base, counter - 1)
      invariant tried <= tablesSaved
      invariant forall j :: 0 <= j < counter - 1 ==> Candidate(base, j) in tried
      invariant forall x :: x in tried ==> exists j :: 0 <= j < counter - 1 && x == Candidate(base, j)
      decreases tablesSaved - tried
    {
      assert name !in tried by {
        forall j | 0 <= j < counter - 1 ensures name != Candidate(base, j) {
          CandidateDistinct(base, counter - 1, j);
        }
      }
      tried := tried + {name};
      name := base + "_" + Show(counter);
      counter := counter + 1;
    }
    k := counter - 1;
    forall j | 0 <= j < k ensures Candidate(base, j) in tablesSaved {
      assert Candidate(base, j) in tried;
    }
  }

  /** A name the page has not saved yet is kept as it is. */
  lemma UniqueBase(base: string, tablesSaved: set<string>, name: string, k: nat)
    requires base !in tablesSaved
    requires name !in tablesSaved && name == Candidate(base, k)
    requires forall j :: 0 <= j < k ==> Candidate(base, j) in tablesSaved
    ensures name == base
  {
    assert 0 < k ==> Candidate(base, 0) in tablesSaved;
  }

  /**
   * The base name before de-duplication: the cleaned section title, or a kind
   * guessed from the table's text. `firstColText` is the cells of column
   * `df.columns[1]` joined by spaces and already lower-cased, as
   * `" ".join(...).lower()` builds it; the keyword tests below are
   * case-sensitive, so they rely on that lower-casing.
   */
  function TableBase(section: Option<string>, firstColText: string, idx: nat): (r: string)
    ensures NoSpace(r)
  {
    if section.Some? && section.value != [] then CleanFilename(section.value)
    else if Contains(firstColText, "sales") || Contains(firstColText, "revenue") then "Profit_Loss"
    else if Contains(firstColText, "equity") || Contains(firstColText, "assets") then "Balance_Sheet"
    else if Contains(firstColText, "cash") then "Cash_Flow"
    else if Contains(firstColText, "debtor") || Contains(firstColText, "roe") then "Ratios"
    else "Table_" + Show(idx)
  }

  lemma ProfitLossClean() ensures CleanName("Profit_Loss")
  {
    assert "Profit_Loss" == "Profit" + "_" + "Loss";
    PairClean("Profit", "Loss");
  }

  lemma BalanceSheetClean() ensures CleanName("Balance_Sheet")
  {
    assert "Balance_Sheet" == "Balance" + "_" + "Sheet";
    PairClean("Balance", "Sheet");
  }

  lemma CashFlowClean() ensures CleanName("Cash_Flow")
  {
    assert "Cash_Flow" == "Cash" + "_" + "Flow";
    PairClean("Cash", "Flow");
  }

  /** A clean name of at most 150 characters is a clean file name. */
  lemma CleanNameFile(s: string)
    requires CleanName(s) && |s| <= 150
    ensures CleanFilename(s) == s
  {
    CleanNameNoSpace(s);
    CleanFilenameFixpoint(s);
  }

  /** Every base name is already a clean file name (for an index of at most 144 digits). */
  lemma TableBaseClean(section: Option<string>, firstColText: string, idx: nat)
    requires |Show(idx)| <= 144
    ensures CleanFilename(TableBase(section, firstColText, idx)) == TableBase(section, firstColText, idx)
  {
    if section.Some? && section.value != [] {
      CleanFilenameIdempotent(section.value);
    } else if Contains(firstColText, "sales") || Contains(firstColText, "revenue") {
      ProfitLossClean();
      CleanNameFile("Profit_Loss");
    } else if Contains(firstColText, "equity") || Contains(firstColText, "assets") {
      BalanceSheetClean();
      CleanNameFile("Balance_Sheet");
    } else if Contains(firstColText, "cash") {
      CashFlowClean();
      CleanNameFile("Cash_Flow");
    } else if Contains(firstColText, "debtor") || Contains(firstColText, "roe") {
      PlainClean("Ratios");
      CleanNameFile("Ratios");
    } else {
      PairClean("Table", Show(idx));
      assert "Table" + "_" == "Table_";
      CleanNameFile("Table_" + Show(idx));
    }
  }
}
