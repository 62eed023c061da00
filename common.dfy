/**
 * Vocabulary shared by the six analysis modules: Python's None as an
 * Option, the flag palette of every rule catalogue, message templates,
 * truthiness helpers, the null-safe division every module defines, and
 * Python's built-in round().
 */
module Common {

  datatype Option<T> = None | Some(value: T)

  /** Every flag or severity string a rule catalogue can emit. */
  datatype Flag = RED | YELLOW | GREEN | CRITICAL | HIGH | NOT_APPLICABLE

  /** The flag as the string the modules emit. */
  function FlagName(f: Flag): string
  {
    match f
    case RED => "RED" case YELLOW => "YELLOW" case GREEN => "GREEN"
    case CRITICAL => "CRITICAL" case HIGH => "HIGH" case NOT_APPLICABLE => "NOT_APPLICABLE"
  }

  /** How bad a flag is when rules are compared: GREEN 0, YELLOW 1, RED 2. */
  function Severity(f: Flag): nat
  {
    if f == RED then 2 else if f == YELLOW then 1 else 0
  }

  /** Python's `a < b` on strings: lexicographic by character code. */
  predicate StrLess(a: string, b: string)
  {
    if a == [] then b != []
    else if b == [] then false
    else if a[0] != b[0] then a[0] < b[0]
    else StrLess(a[1..], b[1..])
  }

  /** `sep.join(parts)`. */
  function Join(sep: string, parts: seq<string>): string
  {
    if parts == [] then ""
    else if |parts| == 1 then parts[0]
    else parts[0] + sep + Join(sep, parts[1..])
  }

  /**
   * A message built by an f-string: the template with its placeholders and
   * the numbers interpolated into it. Rendering the numbers is not modelled.
   */
  datatype Text = Text(template: string, args: seq<real>)

  function Lit(s: string): Text { Text(s, []) }

  /** `f"{p}{t}"` for a literal prefix `p`. */
  function Prefixed(p: string, t: Text): Text { Text(p + t.template, t.args) }

  /** Python's `x in (None, 0)`, equivalently `not x`, for an optional amount. */
  predicate Falsy(x: Option<real>) { x.None? || x.value == 0.0 }

  /** Python's `x or 0` for an optional amount. */
  function OrZero(x: Option<real>): real { if x.Some? then x.value else 0.0 }

  function Abs(x: real): real { if x < 0.0 then -x else x }

  function Max(a: real, b: real): real { if a < b then b else a }

  function Min(a: real, b: real): real { if a < b then a else b }

  /**
   * The null-safe division that each module defines with the same meaning:
   * None when the numerator is missing or the denominator is missing or
   * zero, otherwise the quotient.
   */
  function SafeDiv(a: Option<real>, b: Option<real>): (r: Option<real>)
    ensures r.None? <==> a.None? || Falsy(b)
    ensures r.Some? ==> r.value * b.value == a.value
  {
    if a.None? || Falsy(b) then None else Some(a.value / b.value)
  }

  /**
   * compute_cagr, defined with this meaning by the working-capital,
   * borrowings, capex and asset-quality trend engines: None when start or
   * end is missing or zero, when start is negative, or when there are no
   * years; otherwise the compound growth as a percentage. `pow` stands for
   * Python's `**` on floats.
   */
  function Cagr(start: Option<real>, end: Option<real>, years: int, pow: (real, real) -> real): (r: Option<real>)
    ensures r.None? <==> Falsy(start) || Falsy(end) || start.value <= 0.0 || years <= 0
    ensures r.Some? ==> r.value == (pow(end.value / start.value, 1.0 / years as real) - 1.0) * 100.0
  {
    if Falsy(start) || Falsy(end) || start.value <= 0.0 || years <= 0 then None
    else Some((pow(end.value / start.value, 1.0 / years as real) - 1.0) * 100.0)
  }

  /** Python's `a < b` guarded so that a missing operand gives False. */
  predicate SafeLt(a: Option<real>, b: Option<real>) { a.Some? && b.Some? && a.value < b.value }

  /** Python's `a > b` guarded so that a missing operand gives False. */
  predicate SafeGt(a: Option<real>, b: Option<real>) { a.Some? && b.Some? && a.value > b.value }

  /** Python's round(x): nearest integer, ties to the even neighbour. */
  function RoundHalfEven(x: real): (r: int)
    ensures x - 0.5 <= r as real <= x + 0.5
  {
    var f := x.Floor;
    var d := x - f as real;
    if d < 0.5 then f
    else if d > 0.5 then f + 1
    else if f % 2 == 0 then f else f + 1
  }

  function Pow10(d: nat): (r: real)
    ensures r >= 1.0
  {
    if d == 0 then 1.0 else 10.0 * Pow10(d - 1)
  }

  /** Python's round(x, d) on exact decimals (binary floating point is not modelled). */
  function Round(x: real, d: nat): (r: real)
    ensures Abs(r - x) <= 0.5 / Pow10(d)
  {
    var p := Pow10(d);
    var n := RoundHalfEven(x * p);
    assert x * p - 0.5 <= n as real <= x * p + 0.5;
    DivBounds(x * p, n as real, p);
    n as real / p
  }

  lemma DivBounds(y: real, n: real, p: real)
    requires p >= 1.0 && y - 0.5 <= n <= y + 0.5
    ensures Abs(n / p - y / p) <= 0.5 / p
  {
    assert n / p - y / p == (n - y) / p;
  }

  /** The newest-first position labels of the display maps: "Y", "Y-1", "Y-2", … */
  datatype Slot = Y | YMinus(k: nat)

  /** The label of the idx-th value counted from the newest: "Y", "Y-1", … */
  function SlotAt(idx: nat): Slot { if idx == 0 then Y else YMinus(idx) }

  /** A YoY label "<newer>_vs_<older>", e.g. "Y_vs_Y-1". */
  datatype VsKey = Vs(newer: Slot, older: Slot)

  /** First value stored under `k` in an insertion-ordered dictionary. */
  function Lookup<K(==), V>(m: seq<(K, V)>, k: K): Option<V>
  {
    if m == [] then None else if m[0].0 == k then Some(m[0].1) else Lookup(m[1..], k)
  }

  /** No key occurs twice in an insertion-ordered dictionary. */
  predicate DistinctKeys<K(==), V>(m: seq<(K, V)>)
  {
    forall a, b :: 0 <= a < b < |m| ==> m[a].0 != m[b].0
  }

  /** In a dictionary without repeated keys, each key finds its own entry. */
  lemma {:induction false} LookupAt<K, V>(m: seq<(K, V)>, i: nat)
    requires DistinctKeys(m) && i < |m|
    ensures Lookup(m, m[i].0) == Some(m[i].1)
  {
    if i > 0 {
      assert m[0].0 != m[i].0;
      assert m[1..][i - 1] == m[i];
      LookupAt(m[1..], i - 1);
    }
  }

  /** A key no entry carries is not found. */
  lemma {:induction false} LookupAbsent<K, V>(m: seq<(K, V)>, k: K)
    requires forall i :: 0 <= i < |m| ==> m[i].0 != k
    ensures Lookup(m, k) == None
  {
    if m != [] {
      LookupAbsent(m[1..], k);
    }
  }

  /**
   * `d[k] = v` on an insertion-ordered dictionary: an existing key keeps
   * its position and takes the new value, a new key goes last.
   */
  function Store<K(==,!new), V>(m: seq<(K, V)>, k: K, v: V): (r: seq<(K, V)>)
    ensures Lookup(r, k) == Some(v)
    ensures forall j :: j != k ==> Lookup(r, j) == Lookup(m, j)
    ensures KeySet(r) == KeySet(m) + {k}
    ensures DistinctKeys(m) ==> DistinctKeys(r)
    ensures |r| <= |m| + 1
  {
    if m == [] then [(k, v)]
    else if m[0].0 == k then
      var r := [(k, v)] + m[1..];
      assert r[1..] == m[1..];
      assert DistinctKeys(m) ==> DistinctKeys(r) by {
        if DistinctKeys(m) {
          DistinctKeysTail(m);
          ConsDistinct(r);
        }
      }
      r
    else
      var rest := Store(m[1..], k, v);
      var r := [m[0]] + rest;
      assert r[1..] == rest;
      assert DistinctKeys(m) ==> DistinctKeys(r) by {
        if DistinctKeys(m) {
          DistinctKeysTail(m);
          ConsDistinct(r);
        }
      }
      r
  }

  /** The dictionary a loop builds by storing each pair in turn. */
  function StoreAll<K(==,!new), V>(kv: seq<(K, V)>): (m: seq<(K, V)>)
    ensures DistinctKeys(m)
    ensures KeySet(m) == KeySet(kv)
  {
    if kv == [] then []
    else
      KeySetSnoc(kv);
      Store(StoreAll(kv[..|kv| - 1]), kv[|kv| - 1].0, kv[|kv| - 1].1)
  }

  /** After storing every pair, a key holds the value of its last pair. */
  lemma {:induction false} StoreAllLookup<K(!new), V>(kv: seq<(K, V)>, k: K) returns (j: nat)
    requires k in KeySet(kv)
    ensures j < |kv| && kv[j].0 == k
    ensures forall i :: j < i < |kv| ==> kv[i].0 != k
    ensures Lookup(StoreAll(kv), k) == Some(kv[j].1)
  {
    var init := kv[..|kv| - 1];
    KeySetSnoc(kv);
    if kv[|kv| - 1].0 == k {
      j := |kv| - 1;
    } else {
      j := StoreAllLookup(init, k);
      assert init[j] == kv[j];
      forall i | j < i < |kv| ensures kv[i].0 != k {
        if i < |init| {
          assert init[i] == kv[i];
        }
      }
    }
  }

  /** Without repeated keys, storing every pair keeps each pair's own value. */
  lemma StoreAllDistinct<K(!new), V>(kv: seq<(K, V)>, i: nat)
    requires DistinctKeys(kv) && i < |kv|
    ensures Lookup(StoreAll(kv), kv[i].0) == Some(kv[i].1)
  {
    KeyListed(kv, i);
    var j := StoreAllLookup(kv, kv[i].0);
    assert j == i;
  }

  /** The keys of an insertion-ordered dictionary. */
  function KeySet<K, V>(m: seq<(K, V)>): set<K>
  {
    if m == [] then {} else {m[0].0} + KeySet(m[1..])
  }

  lemma {:induction false} KeySetSnoc<K, V>(m: seq<(K, V)>)
    requires m != []
    ensures KeySet(m) == KeySet(m[..|m| - 1]) + {m[|m| - 1].0}
  {
    if |m| > 1 {
      KeySetSnoc(m[1..]);
      assert m[1..][..|m[1..]| - 1] == m[..|m| - 1][1..];
    }
  }

  /** Every entry's key is a key of the dictionary. */
  lemma {:induction false} KeyListed<K, V>(m: seq<(K, V)>, i: nat)
    requires i < |m|
    ensures m[i].0 in KeySet(m)
  {
    if i > 0 {
      KeyListed(m[1..], i - 1);
    }
  }

  /** Every key of the dictionary is carried by some entry. */
  lemma {:induction false} KeyIndex<K, V>(m: seq<(K, V)>, k: K) returns (i: nat)
    requires k in KeySet(m)
    ensures i < |m| && m[i].0 == k
  {
    if m[0].0 == k {
      i := 0;
    } else {
      var j := KeyIndex(m[1..], k);
      i := j + 1;
    }
  }

  /** A key of the dictionary finds an entry. */
  lemma LookupPresent<K, V>(m: seq<(K, V)>, k: K)
    requires k in KeySet(m)
    ensures Lookup(m, k).Some?
  {
    var i := KeyIndex(m, k);
    LookupFound(m, i);
  }

  /** A key the dictionary lacks finds nothing. */
  lemma LookupMissing<K, V>(m: seq<(K, V)>, k: K)
    requires k !in KeySet(m)
    ensures Lookup(m, k) == None
  {
    forall i | 0 <= i < |m| ensures m[i].0 != k {
      KeyListed(m, i);
    }
    LookupAbsent(m, k);
  }

  /** Lookup succeeds once some entry carries the key. */
  lemma {:induction false} LookupFound<K, V>(m: seq<(K, V)>, i: nat)
    requires i < |m|
    ensures Lookup(m, m[i].0).Some?
  {
    if i > 0 && m[0].0 != m[i].0 {
      assert m[1..][i - 1] == m[i];
      LookupFound(m[1..], i - 1);
    }
  }

  /** `list(d.keys())`: the keys in insertion order. */
  function KeyList<K, V>(m: seq<(K, V)>): (ks: seq<K>)
    ensures |ks| == |m|
    ensures forall i :: 0 <= i < |m| ==> ks[i] == m[i].0
  {
    seq(|m|, i requires 0 <= i < |m| => m[i].0)
  }

  /** Every listed key is a key of the dictionary. */
  lemma KeyListKeys<K, V>(m: seq<(K, V)>)
    ensures forall k :: k in KeyList(m) ==> k in KeySet(m)
  {
    forall k | k in KeyList(m) ensures k in KeySet(m) {
      var i :| 0 <= i < |m| && KeyList(m)[i] == k;
      KeyListed(m, i);
    }
  }

  /** A key no entry carries is not a key of the dictionary. */
  lemma {:induction false} KeyUnlisted<K, V>(m: seq<(K, V)>, k: K)
    requires forall i :: 0 <= i < |m| ==> m[i].0 != k
    ensures k !in KeySet(m)
  {
    if m != [] {
      KeyUnlisted(m[1..], k);
    }
  }

  /** Without repeated keys, the first key does not occur again. */
  lemma DistinctKeysTail<K, V>(m: seq<(K, V)>)
    requires DistinctKeys(m) && m != []
    ensures DistinctKeys(m[1..]) && m[0].0 !in KeySet(m[1..])
  {
    var t := m[1..];
    forall i | 0 <= i < |t| ensures t[i].0 != m[0].0 {
      assert t[i] == m[i + 1];
    }
    KeyUnlisted(t, m[0].0);
  }

  /** A dictionary whose first key is new to its tail has no repeated keys if its tail has none. */
  lemma ConsDistinct<K, V>(m: seq<(K, V)>)
    requires m != [] && DistinctKeys(m[1..]) && m[0].0 !in KeySet(m[1..])
    ensures DistinctKeys(m)
  {
    forall a, b | 0 <= a < b < |m| ensures m[a].0 != m[b].0 {
      assert m[b] == m[1..][b - 1];
      KeyListed(m[1..], b - 1);
      if a > 0 {
        assert m[a] == m[1..][a - 1];
      }
    }
  }

  /** Storing a key the dictionary lacks appends the pair. */
  lemma {:induction false} StoreNew<K(!new), V>(m: seq<(K, V)>, k: K, v: V)
    requires k !in KeySet(m)
    ensures Store(m, k, v) == m + [(k, v)]
  {
    if m != [] {
      StoreNew(m[1..], k, v);
      assert m == [m[0]] + m[1..];
    }
  }

  /** Storing a key held at position i replaces that pair in place. */
  lemma {:induction false} StoreAt<K(!new), V>(m: seq<(K, V)>, i: nat, k: K, v: V)
    requires DistinctKeys(m) && i < |m| && m[i].0 == k
    ensures Store(m, k, v) == m[i := (k, v)]
  {
    if i > 0 {
      DistinctKeysTail(m);
      assert m[1..][i - 1].0 == k;
      StoreAt(m[1..], i - 1, k, v);
      assert m[i := (k, v)] == [m[0]] + m[1..][i - 1 := (k, v)];
    }
  }

  /** A second store of the same key overrides the first. */
  lemma {:induction false} StoreTwice<K(!new), V>(m: seq<(K, V)>, k: K, a: V, b: V)
    ensures Store(Store(m, k, a), k, b) == Store(m, k, b)
  {
    if m != [] && m[0].0 != k {
      var once := Store(m, k, a);
      assert once[0] == m[0] && once[1..] == Store(m[1..], k, a);
      StoreTwice(m[1..], k, a, b);
    }
  }

  /** No element occurs twice. */
  predicate NoDup<T(==)>(s: seq<T>)
  {
    forall i, j :: 0 <= i < j < |s| ==> s[i] != s[j]
  }

  lemma {:induction false} NoDupCount<T>(s: seq<T>, x: T)
    requires NoDup(s)
    ensures multiset(s)[x] <= 1
  {
    if s != [] {
      assert s == [s[0]] + s[1..];
      assert NoDup(s[1..]) by {
        forall i, j | 0 <= i < j < |s[1..]| ensures s[1..][i] != s[1..][j] {
          assert s[1..][i] == s[i + 1] && s[1..][j] == s[j + 1];
        }
      }
      NoDupCount(s[1..], x);
      if s[0] == x {
        forall i | 0 <= i < |s[1..]| ensures s[1..][i] != x {
          assert s[1..][i] == s[i + 1];
        }
        assert x !in s[1..];
      }
    }
  }

  /** A rearrangement of a sequence without repetitions has none either. */
  lemma NoDupPerm<T>(a: seq<T>, b: seq<T>)
    requires NoDup(a) && multiset(a) == multiset(b)
    ensures NoDup(b)
  {
    forall i, j | 0 <= i < j < |b| ensures b[i] != b[j] {
      if b[i] == b[j] {
        var x := b[i];
        assert b == b[..j] + b[j..];
        assert x in multiset(b[..j]) by { assert b[..j][i] == x; }
        assert x in multiset(b[j..]) by { assert b[j..][0] == x; }
        assert multiset(b)[x] == multiset(b[..j])[x] + multiset(b[j..])[x];
        NoDupCount(a, x);
        assert false;
      }
    }
  }

  /** Keys strictly increase along the dictionary's insertion order. */
  predicate Ascending<V>(m: seq<(int, V)>)
  {
    forall a, b :: 0 <= a < b < |m| ==> m[a].0 < m[b].0
  }

  /**
   * Storing pairs whose keys never decrease builds a dictionary whose keys
   * strictly increase: a repeated key overwrites in place, a new one is
   * larger than every key so far and goes last.
   */
  lemma {:induction false} StoreAllAscending<V>(kv: seq<(int, V)>)
    requires forall i, j :: 0 <= i < j < |kv| ==> kv[i].0 <= kv[j].0
    ensures Ascending(StoreAll(kv))
  {
    if kv != [] {
      var init := kv[..|kv| - 1];
      var k := kv[|kv| - 1].0;
      var v := kv[|kv| - 1].1;
      var m := StoreAll(init);
      StoreAllAscending(init);
      if k in KeySet(m) {
        var i := KeyIndex(m, k);
        StoreAt(m, i, k, v);
      } else {
        StoreNew(m, k, v);
        forall a | 0 <= a < |m| ensures m[a].0 < k {
          KeyListed(m, a);
          var j := KeyIndex(init, m[a].0);
          assert init[j] == kv[j];
        }
      }
    }
  }

  /** The keys of a dictionary without repeated keys do not repeat. */
  lemma KeyListNoDup<K, V>(m: seq<(K, V)>)
    requires DistinctKeys(m)
    ensures NoDup(KeyList(m))
  {
  }

  /** The values of an optional series that are present, in order. */
  function Present(s: seq<Option<real>>): (r: seq<real>)
    ensures |r| <= |s|
    ensures forall i :: 0 <= i < |r| ==> Some(r[i]) in s
  {
    if s == [] then []
    else (if s[0].Some? then [s[0].value] else []) + Present(s[1..])
  }

  /** A list has no present value exactly when every entry is None. */
  lemma {:induction false} PresentEmpty(s: seq<Option<real>>)
    ensures Present(s) == [] <==> forall i :: 0 <= i < |s| ==> s[i].None?
  {
    if s != [] {
      PresentEmpty(s[1..]);
      assert forall i :: 1 <= i < |s| ==> s[i] == s[1..][i - 1];
    }
  }

  /** The values of a dictionary in insertion order, as `.values()` lists them. */
  function Values<K>(m: seq<(K, Option<real>)>): (v: seq<Option<real>>)
    ensures |v| == |m| && forall i :: 0 <= i < |m| ==> v[i] == m[i].1
  {
    seq(|m|, i requires 0 <= i < |m| => m[i].1)
  }

  function Sum(s: seq<real>): real
  {
    if s == [] then 0.0 else s[0] + Sum(s[1..])
  }
}
