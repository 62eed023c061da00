/**
 * The few pieces of Python's string handling that the year parsers and the
 * scraper's helpers rely on: `str.isspace`, `str.split()` with no
 * separator, `str.isdigit` on ASCII digits, `int()` on a token, and the
 * decimal rendering of a natural number that `str(n)` produces.
 */
module PyStr {
  import opened Common

  /** `c.isspace()`: the characters Python treats as whitespace. */
  predicate IsSpace(c: char)
  {
    var n := c as int;
    (9 <= n <= 13) || (28 <= n <= 32) || n == 0x85 || n == 0xA0 || n == 0x1680
    || (0x2000 <= n <= 0x200A) || n == 0x2028 || n == 0x2029 || n == 0x202F
    || n == 0x205F || n == 0x3000
  }

  predicate NoSpace(s: string)
  {
    forall i :: 0 <= i < |s| ==> !IsSpace(s[i])
  }

  /** Length of the leading run of non-whitespace characters. */
  function TokenLen(s: string): (n: nat)
    ensures n <= |s|
    ensures NoSpace(s[..n])
    ensures n < |s| ==> IsSpace(s[n])
  {
    if s == [] || IsSpace(s[0]) then 0
    else
      var m := TokenLen(s[1..]);
      assert s[..m + 1] == [s[0]] + s[1..][..m];
      m + 1
  }

  /** `s.split()`: the maximal runs of non-whitespace characters, in order. */
  function Split(s: string): (r: seq<string>)
    ensures forall k :: 0 <= k < |r| ==> r[k] != [] && NoSpace(r[k])
    decreases |s|
  {
    if s == [] then []
    else if IsSpace(s[0]) then Split(s[1..])
    else
      var n := TokenLen(s);
      [s[..n]] + Split(s[n..])
  }

  /** The characters of `s` that are not whitespace. */
  function Squeeze(s: string): (r: string)
    ensures NoSpace(r)
  {
    if s == [] then [] else (if IsSpace(s[0]) then [] else [s[0]]) + Squeeze(s[1..])
  }

  function Concat(parts: seq<string>): string
  {
    if parts == [] then [] else parts[0] + Concat(parts[1..])
  }

  lemma {:induction false} SqueezeAppend(a: string, b: string)
    ensures Squeeze(a + b) == Squeeze(a) + Squeeze(b)
  {
    if a != [] {
      assert (a + b)[1..] == a[1..] + b;
      SqueezeAppend(a[1..], b);
    } else {
      assert a + b == b;
    }
  }

  lemma {:induction false} SqueezeNoSpace(s: string)
    requires NoSpace(s)
    ensures Squeeze(s) == s
  {
    if s != [] {
      SqueezeNoSpace(s[1..]);
    }
  }

  /** Splitting loses exactly the whitespace: the tokens, glued together, are the text without it. */
  lemma {:induction false} SplitKeepsText(s: string)
    ensures Concat(Split(s)) == Squeeze(s)
    decreases |s|
  {
    if s == [] {
    } else if IsSpace(s[0]) {
      SplitKeepsText(s[1..]);
    } else {
      var n := TokenLen(s);
      assert s == s[..n] + s[n..];
      SqueezeAppend(s[..n], s[n..]);
      SqueezeNoSpace(s[..n]);
      SplitKeepsText(s[n..]);
    }
  }

  /** A word without whitespace splits into itself. */
  lemma {:induction false} SplitWord(w: string)
    requires w != [] && NoSpace(w)
    ensures Split(w) == [w]
  {
    WholeToken(w);
    assert w[..|w|] == w;
    assert w[|w|..] == [];
  }

  lemma {:induction false} WholeToken(w: string)
    requires NoSpace(w)
    ensures TokenLen(w) == |w|
  {
    if w != [] {
      WholeToken(w[1..]);
    }
  }

  /** Leading whitespace drops out of the split. */
  lemma {:induction false} SplitAfterSpace(sp: string, w: string)
    requires forall i :: 0 <= i < |sp| ==> IsSpace(sp[i])
    ensures Split(sp + w) == Split(w)
    decreases |sp|
  {
    if sp != [] {
      assert (sp + w)[1..] == sp[1..] + w;
      SplitAfterSpace(sp[1..], w);
    } else {
      assert sp + w == w;
    }
  }

  /** A word, a run of whitespace and a word split into the two words ("Mar 2024" into "Mar" and "2024"). */
  lemma SplitTwoWords(a: string, b: string)
    requires a != [] && NoSpace(a) && b != [] && NoSpace(b)
    ensures Split(a + " " + b) == [a, b]
  {
    var s := a + " " + b;
    assert s == a + (" " + b);
    TokenPrefix(a, " " + b);
    assert s[0] == a[0] && !IsSpace(s[0]);
    assert s[..|a|] == a && s[|a|..] == " " + b;
    assert Split(s) == [a] + Split(" " + b);
    SpaceWord(b);
  }

  lemma SpaceWord(b: string)
    requires b != [] && NoSpace(b)
    ensures Split(" " + b) == [b]
  {
    SplitAfterSpace(" ", b);
    SplitWord(b);
  }

  lemma {:induction false} TokenPrefix(a: string, rest: string)
    requires NoSpace(a) && rest != [] && IsSpace(rest[0])
    ensures TokenLen(a + rest) == |a|
  {
    if a != [] {
      assert (a + rest)[1..] == a[1..] + rest;
      TokenPrefix(a[1..], rest);
    } else {
      assert a + rest == rest;
    }
  }

  // ------------------------------------------------------------ ASCII case

  predicate IsLower(c: char) { 'a' <= c <= 'z' }

  predicate IsUpper(c: char) { 'A' <= c <= 'Z' }

  predicate IsLetter(c: char) { IsLower(c) || IsUpper(c) }

  function Upper(c: char): char { if IsLower(c) then (c as int - 32) as char else c }

  function Lower(c: char): char { if IsUpper(c) then (c as int + 32) as char else c }

  /** `s.upper()` on ASCII letters: no lower-case letter is left and every other character is kept. */
  function UpperStr(s: string): (r: string)
    ensures |r| == |s|
    ensures forall i :: 0 <= i < |r| ==> !IsLower(r[i])
    ensures forall i :: 0 <= i < |r| ==> (IsLower(s[i]) <==> r[i] != s[i])
    ensures forall i :: 0 <= i < |r| ==> Lower(r[i]) == Lower(s[i])
  {
    seq(|s|, i requires 0 <= i < |s| => Upper(s[i]))
  }

  /** `s.lower()` on ASCII letters: no upper-case letter is left and every other character is kept. */
  function LowerStr(s: string): (r: string)
    ensures |r| == |s|
    ensures forall i :: 0 <= i < |r| ==> !IsUpper(r[i])
    ensures forall i :: 0 <= i < |r| ==> (IsUpper(s[i]) <==> r[i] != s[i])
    ensures forall i :: 0 <= i < |r| ==> Upper(r[i]) == Upper(s[i])
  {
    seq(|s|, i requires 0 <= i < |s| => Lower(s[i]))
  }

  /** Upper-casing twice is upper-casing once. */
  lemma UpperIdempotent(s: string)
    ensures UpperStr(UpperStr(s)) == UpperStr(s)
  {
  }

  // ------------------------------------------------------------ digits

  /** `c.isdigit()` restricted to the ASCII digits. */
  predicate IsDigit(c: char) { '0' <= c <= '9' }

  predicate AllDigits(s: string)
  {
    forall i :: 0 <= i < |s| ==> IsDigit(s[i])
  }

  /** `s.isdigit()`: non-empty and all digits. */
  predicate IsDigitStr(s: string) { s != [] && AllDigits(s) }

  /** The number a string of decimal digits denotes. */
  function DigitsValue(s: string): nat
    requires AllDigits(s)
  {
    if s == [] then 0 else 10 * DigitsValue(s[..|s| - 1]) + (s[|s| - 1] as int - '0' as int)
  }

  /** `str(n)` for a natural number. */
  function Show(n: nat): (r: string)
    ensures IsDigitStr(r)
  {
    var d := [(('0' as int) + n % 10) as char];
    if n < 10 then d else Show(n / 10) + d
  }

  /** Rendering and reading a number are inverse. */
  lemma {:induction false} ShowValue(n: nat)
    ensures DigitsValue(Show(n)) == n
  {
    var d := [(('0' as int) + n % 10) as char];
    if n >= 10 {
      ShowValue(n / 10);
      var s := Show(n / 10) + d;
      assert s[..|s| - 1] == Show(n / 10);
    }
  }

  /**
   * `int(t)` for a token without whitespace: an optional sign followed by
   * decimal digits; anything else raises ValueError (None here).
   */
  function ParseInt(t: string): (r: Option<int>)
    ensures r.Some? <==> IsDigitStr(t) || (|t| >= 2 && (t[0] == '+' || t[0] == '-') && AllDigits(t[1..]))
    ensures IsDigitStr(t) ==> r == Some(DigitsValue(t))
  {
    if IsDigitStr(t) then Some(DigitsValue(t))
    else if |t| >= 2 && t[0] == '+' && AllDigits(t[1..]) then Some(DigitsValue(t[1..]))
    else if |t| >= 2 && t[0] == '-' && AllDigits(t[1..]) then Some(-(DigitsValue(t[1..]) as int))
    else None
  }

  /** A number printed and read back, with or without a minus sign, is the number. */
  lemma ParseShow(n: nat)
    ensures ParseInt(Show(n)) == Some(n)
    ensures ParseInt("-" + Show(n)) == Some(-(n as int))
  {
    ShowValue(n);
    var t := "-" + Show(n);
    assert t[1..] == Show(n);
  }

  // ------------------------------------------------------------ strip, replace, float

  /** `s.rstrip()`: trailing whitespace removed. */
  function RStrip(s: string): (r: string)
    ensures |r| <= |s| && r == s[..|r|]
    ensures r == [] || !IsSpace(r[|r| - 1])
    ensures forall i :: |r| <= i < |s| ==> IsSpace(s[i])
  {
    if s == [] || !IsSpace(s[|s| - 1]) then s else RStrip(s[..|s| - 1])
  }

  /** `s.lstrip()`: leading whitespace removed. */
  function LStrip(s: string): (r: string)
    ensures |r| <= |s| && r == s[|s| - |r|..]
    ensures r == [] || !IsSpace(r[0])
    ensures forall i :: 0 <= i < |s| - |r| ==> IsSpace(s[i])
  {
    if s == [] || !IsSpace(s[0]) then s
    else
      var r := LStrip(s[1..]);
      assert s[1..][|s| - 1 - |r|..] == s[|s| - |r|..];
      r
  }

  /** `s.strip()`. */
  function Strip(s: string): string
  {
    LStrip(RStrip(s))
  }

  /** A text with no whitespace at either end is its own strip. */
  lemma StripTrimmed(s: string)
    requires s != [] && !IsSpace(s[0]) && !IsSpace(s[|s| - 1])
    ensures Strip(s) == s
  {
    assert RStrip(s) == s;
  }

  /** `s.replace(c, "")` for a single character `c`. */
  function Without(s: string, c: char): (r: string)
    ensures |r| <= |s|
    ensures forall i :: 0 <= i < |r| ==> r[i] != c && r[i] in s
  {
    if s == [] then []
    else
      var rest := Without(s[1..], c);
      assert forall i :: 0 <= i < |rest| ==> rest[i] in s by {
        forall i | 0 <= i < |rest| ensures rest[i] in s {
          assert rest[i] in s[1..];
        }
      }
      if s[0] == c then rest else [s[0]] + rest
  }

  /** Position of the first '.', or |s| when there is none. */
  function DotIndex(s: string): (d: nat)
    ensures d <= |s|
    ensures forall i :: 0 <= i < d ==> s[i] != '.'
    ensures d < |s| ==> s[d] == '.'
  {
    if s == [] then 0 else if s[0] == '.' then 0 else DotIndex(s[1..]) + 1
  }

  /** An unsigned decimal: digits, optionally a '.' and more digits, with at least one digit. */
  function UnsignedDecimal(s: string): (r: Option<real>)
    ensures r.Some? ==> r.value >= 0.0
  {
    var d := DotIndex(s);
    var whole := s[..d];
    var frac := if d < |s| then s[d + 1..] else [];
    if AllDigits(whole) && AllDigits(frac) && (whole != [] || frac != []) then Some(DecimalValue(whole, frac))
    else None
  }

  /** The value of the digits `whole` and `frac` written either side of a point. */
  function DecimalValue(whole: string, frac: string): (v: real)
    requires AllDigits(whole) && AllDigits(frac)
    ensures v >= 0.0
  {
    DigitsValue(whole) as real + DigitsValue(frac) as real / Pow10(|frac|)
  }

  /**
   * `float(t)` for a plain decimal text: an optional sign and an unsigned
   * decimal; anything else raises ValueError (None here).
   */
  function ParseDecimal(t: string): (r: Option<real>)
  {
    if t != [] && t[0] == '-' then
      var u := UnsignedDecimal(t[1..]);
      if u.Some? then Some(-u.value) else None
    else if t != [] && t[0] == '+' then UnsignedDecimal(t[1..])
    else UnsignedDecimal(t)
  }

  /** A natural number printed by `str` reads back as itself. */
  lemma ParseDecimalShow(n: nat)
    ensures ParseDecimal(Show(n)) == Some(n as real)
    ensures ParseDecimal("-" + Show(n)) == Some(-(n as real))
  {
    ShowValue(n);
    var s := Show(n);
    assert DotIndex(s) == |s| by {
      forall i | 0 <= i < |s| ensures s[i] != '.' {
        assert IsDigit(s[i]);
      }
      DotAbsent(s);
    }
    assert s[..|s|] == s;
    var t := "-" + s;
    assert t[1..] == s;
  }

  lemma {:induction false} DotAbsent(s: string)
    requires forall i :: 0 <= i < |s| ==> s[i] != '.'
    ensures DotIndex(s) == |s|
  {
    if s != [] {
      assert forall i :: 0 <= i < |s[1..]| ==> s[1..][i] == s[i + 1];
      DotAbsent(s[1..]);
    }
  }

  /** Removing a character from a concatenation removes it from each part. */
  lemma {:induction false} WithoutAppend(a: string, b: string, c: char)
    ensures Without(a + b, c) == Without(a, c) + Without(b, c)
  {
    if a == [] {
      assert a + b == b;
    } else {
      assert (a + b)[0] == a[0] && (a + b)[1..] == a[1..] + b;
      WithoutAppend(a[1..], b, c);
    }
  }

  /** Removing a character the text does not hold leaves it unchanged. */
  lemma {:induction false} WithoutAbsent(s: string, c: char)
    requires forall i :: 0 <= i < |s| ==> s[i] != c
    ensures Without(s, c) == s
  {
    if s != [] {
      assert forall i :: 0 <= i < |s[1..]| ==> s[1..][i] == s[i + 1];
      WithoutAbsent(s[1..], c);
      assert s == [s[0]] + s[1..];
    }
  }

  /** The first '.' of a text after a dot-free prefix is found after that prefix. */
  lemma {:induction false} DotAfter(a: string, b: string)
    requires forall i :: 0 <= i < |a| ==> a[i] != '.'
    ensures DotIndex(a + b) == |a| + DotIndex(b)
  {
    if a == [] {
      assert a + b == b;
    } else {
      assert (a + b)[0] == a[0] && (a + b)[1..] == a[1..] + b;
      assert forall i :: 0 <= i < |a[1..]| ==> a[1..][i] == a[i + 1];
      DotAfter(a[1..], b);
    }
  }

  /** `float` of "w.f" for an unsigned whole part w and digits f. */
  lemma DecimalParts(w: string, f: string)
    requires IsDigitStr(w) && AllDigits(f)
    ensures ParseDecimal(w + "." + f) == Some(DecimalValue(w, f))
  {
    var t := w + "." + f;
    assert forall i :: 0 <= i < |w| ==> w[i] != '.' by {
      forall i | 0 <= i < |w| ensures w[i] != '.' {
        assert IsDigit(w[i]);
      }
    }
    assert t == w + ("." + f);
    DotAfter(w, "." + f);
    assert DotIndex(t) == |w|;
    assert t[..|w|] == w && t[|w| + 1..] == f;
    assert IsDigit(t[0]) && t[0] != '-' && t[0] != '+';
    assert ParseDecimal(t) == UnsignedDecimal(t);
    var d := DotIndex(t);
    assert d < |t| && t[..d] == w && t[d + 1..] == f;
  }
}
