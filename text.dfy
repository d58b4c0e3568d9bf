/** String operations the agents rely on, with Python's meaning:
    `startswith`, slicing `s[:n]`, `w in t`, `str.split(sep)[1]`, `lower()`,
    `strip()`, the code-point order used by `sorted`, and decimal rendering. */
module Text {

  /** `s.startswith(prefix)`. */
  predicate StartsWith(s: string, prefix: string)
    ensures StartsWith(s, prefix) <==> |prefix| <= |s| && s[..|prefix|] == prefix
  {
    prefix <= s
  }

  /** `s[:n]`: Python clamps the slice at the end of the string. */
  function Take(s: string, n: nat): (r: string)
    ensures r <= s
    ensures |r| == if n <= |s| then n else |s|
  {
    if n <= |s| then s[..n] else s
  }

  /** `p == s[:len(p)]` holds exactly when `p` is a prefix of `s`. */
  lemma TakeIsPrefixTest(p: string, s: string)
    ensures (Take(s, |p|) == p) <==> StartsWith(s, p)
  {
    if Take(s, |p|) == p {
      assert p <= s;
    }
    if p <= s {
      assert s[..|p|] == p;
    }
  }

  /** `w in t` for strings: `w` occurs somewhere in `t` (the empty string occurs everywhere). */
  predicate Contains(t: string, w: string)
    decreases |t|
  {
    |w| <= |t| && (w <= t || Contains(t[1..], w))
  }

  /** `w` occurs in `t` starting at index `i`. */
  predicate OccursAt(t: string, w: string, i: nat) {
    i + |w| <= |t| && t[i..i + |w|] == w
  }

  /** `w in t` holds exactly when `w` occurs at some index of `t`. */
  lemma ContainsOccurs(t: string, w: string)
    ensures Contains(t, w) <==> exists i: nat :: OccursAt(t, w, i)
  {
    if Contains(t, w) {
      var i := ContainsWitness(t, w);
      assert OccursAt(t, w, i);
    }
    if exists i: nat :: OccursAt(t, w, i) {
      var i: nat :| OccursAt(t, w, i);
      ContainsAt(t, w, i);
    }
  }

  lemma {:induction false} ContainsAt(t: string, w: string, i: nat)
    requires i + |w| <= |t| && t[i..i + |w|] == w
    ensures Contains(t, w)
    decreases i
  {
    if i == 0 {
      assert t[..|w|] == w;
    } else {
      assert t[1..][i - 1..i - 1 + |w|] == t[i..i + |w|];
      ContainsAt(t[1..], w, i - 1);
    }
  }

  lemma {:induction false} ContainsWitness(t: string, w: string) returns (i: nat)
    requires Contains(t, w)
    ensures i + |w| <= |t| && t[i..i + |w|] == w
    decreases |t|
  {
    if w <= t {
      i := 0;
    } else {
      var j := ContainsWitness(t[1..], w);
      assert t[1..][j..j + |w|] == t[j + 1..j + 1 + |w|];
      i := j + 1;
    }
  }

  /** Index of the first occurrence of `sep` in `s`, or `|s|` when there is none. */
  function Find(s: string, sep: string): (i: nat)
    requires sep != []
    ensures i <= |s|
    ensures i < |s| ==> sep <= s[i..]
    ensures forall j :: 0 <= j < i ==> !(sep <= s[j..])
  {
    if sep <= s then 0
    else if s == [] then 0
    else
      var k := Find(s[1..], sep);
      assert forall j :: 1 <= j < 1 + k ==> s[j..] == s[1..][j - 1..];
      1 + k
  }

  lemma {:induction false} FindAbsent(s: string, sep: string)
    requires sep != [] && !Contains(s, sep)
    ensures Find(s, sep) == |s|
    decreases |s|
  {
    if s != [] {
      FindAbsent(s[1..], sep);
    }
  }

  /** `key.split(sep)[1]` for a key that starts with `sep`: the text between the first
      occurrence of `sep` (at the start) and the next one, or the end. */
  function SplitSecond(key: string, sep: string): (r: string)
    requires sep != [] && StartsWith(key, sep)
    ensures r <= key[|sep|..]
  {
    var rest := key[|sep|..];
    rest[..Find(rest, sep)]
  }

  /** `c.lower()` for ASCII letters. */
  function LowerChar(c: char): char {
    if 'A' <= c <= 'Z' then (c as int + 32) as char else c
  }

  /** `s.lower()`. */
  function Lower(s: string): (r: string)
    ensures |r| == |s|
    ensures forall i :: 0 <= i < |s| ==> r[i] == LowerChar(s[i])
  {
    seq(|s|, i requires 0 <= i < |s| => LowerChar(s[i]))
  }

  /** The characters `str.strip()` removes that lie in the ASCII range. */
  predicate IsSpace(c: char) {
    c == ' ' || '\t' <= c <= '\r' || '\U{1c}' <= c <= '\U{1f}'
  }

  /** Every character of `s` is white space. */
  predicate AllSpace(s: string) {
    forall i :: 0 <= i < |s| ==> IsSpace(s[i])
  }

  /** The index of the first character at or after `i` that is not white space
      (`|s|` when there is none). */
  function SkipSpaces(s: string, i: nat): (j: nat)
    requires i <= |s|
    ensures i <= j <= |s|
    ensures forall k :: i <= k < j ==> IsSpace(s[k])
    ensures j < |s| ==> !IsSpace(s[j])
    decreases |s| - i
  {
    if i < |s| && IsSpace(s[i]) then SkipSpaces(s, i + 1) else i
  }

  /** The index just past the last character before `j` and from `lo` on that is not
      white space (`lo` when there is none). */
  function TrimEnd(s: string, lo: nat, j: nat): (e: nat)
    requires lo <= j <= |s|
    ensures lo <= e <= j
    ensures forall k :: e <= k < j ==> IsSpace(s[k])
    ensures e > lo ==> !IsSpace(s[e - 1])
    decreases j
  {
    if j > lo && IsSpace(s[j - 1]) then TrimEnd(s, lo, j - 1) else j
  }

  /** `r` is `s` with its surrounding white space removed: the slice of `s` after the
      first `a` characters, with only white space before and after it, and with no
      white space at either of its own ends. */
  predicate TrimmedAt(s: string, r: string, a: nat) {
    a + |r| <= |s| && r == s[a..a + |r|] && AllSpace(s[..a]) && AllSpace(s[a + |r|..])
    && (r == [] || (!IsSpace(r[0]) && !IsSpace(r[|r| - 1])))
  }

  /** `s.strip()`. */
  function Strip(s: string): (r: string)
    ensures TrimmedAt(s, r, SkipSpaces(s, 0))
  {
    var a := SkipSpaces(s, 0);
    var e := TrimEnd(s, a, |s|);
    TrimmedSlice(s, a, e);
    s[a..e]
  }

  /** `s.strip()` is empty exactly when `s` is all white space. */
  lemma StripEmpty(s: string)
    ensures Strip(s) == [] <==> AllSpace(s)
  {
    var a := SkipSpaces(s, 0);
    if a < |s| {
      assert s[a..][0] == s[a];
    }
  }

  /** Cutting `s` at the two ends of its non-white text trims `s`. */
  lemma TrimmedSlice(s: string, a: nat, e: nat)
    requires a <= e <= |s|
    requires forall k :: 0 <= k < a ==> IsSpace(s[k])
    requires forall k :: e <= k < |s| ==> IsSpace(s[k])
    requires a < |s| ==> !IsSpace(s[a])
    requires e > a ==> !IsSpace(s[e - 1])
    ensures TrimmedAt(s, s[a..e], a)
  {
    assert forall k :: 0 <= k < a ==> s[..a][k] == s[k];
    assert forall k :: 0 <= k < |s| - e ==> s[e..][k] == s[e + k];
  }

  /** Python's string order: lexicographic by code point, a proper prefix first. */
  predicate Below(a: string, b: string) {
    if a == [] then b != []
    else if b == [] then false
    else a[0] < b[0] || (a[0] == b[0] && Below(a[1..], b[1..]))
  }

  lemma {:induction false} BelowIrreflexive(a: string)
    ensures !Below(a, a)
  {
    if a != [] {
      BelowIrreflexive(a[1..]);
    }
  }

  lemma {:induction false} BelowTransitive(a: string, b: string, c: string)
    requires Below(a, b) && Below(b, c)
    ensures Below(a, c)
  {
    if a != [] && b != [] && c != [] && a[0] == b[0] == c[0] {
      BelowTransitive(a[1..], b[1..], c[1..]);
    }
  }

  lemma {:induction false} BelowTotal(a: string, b: string)
    requires a != b
    ensures Below(a, b) || Below(b, a)
  {
    if a != [] && b != [] && a[0] == b[0] {
      assert a == [a[0]] + a[1..] && b == [b[0]] + b[1..];
      BelowTotal(a[1..], b[1..]);
    }
  }

  lemma BelowAsymmetric(a: string, b: string)
    requires Below(a, b)
    ensures !Below(b, a)
  {
    if Below(b, a) {
      BelowTransitive(a, b, a);
      BelowIrreflexive(a);
    }
  }

  predicate IsLeast(m: string, s: set<string>) {
    m in s && forall x :: x in s && x != m ==> Below(m, x)
  }

  lemma LeastExists(s: set<string>)
    requires s != {}
    ensures exists m :: IsLeast(m, s)
  {
    var m := LeastOf(s);
  }

  lemma {:induction false} LeastOf(s: set<string>) returns (m: string)
    requires s != {}
    ensures IsLeast(m, s)
    decreases |s|
  {
    var x :| x in s;
    if s == {x} {
      m := x;
    } else {
      var rest := LeastOf(s - {x});
      if x != rest && Below(x, rest) {
        m := x;
        forall y | y in s && y != m
          ensures Below(m, y)
        {
          if y != rest {
            BelowTransitive(x, rest, y);
          }
        }
      } else {
        m := rest;
        if x != rest {
          BelowTotal(x, rest);
        }
      }
    }
  }

  lemma LeastUnique(s: set<string>)
    ensures forall a, b :: IsLeast(a, s) && IsLeast(b, s) ==> a == b
  {
    forall a, b | IsLeast(a, s) && IsLeast(b, s)
      ensures a == b
    {
      if a != b {
        BelowAsymmetric(a, b);
      }
    }
  }

  /** `sorted(s)` for a set of strings: every element once, in strictly ascending order. */
  function Sorted(s: set<string>): (r: seq<string>)
    ensures |r| == |s|
    ensures forall x :: x in s <==> x in r
    ensures forall i, j :: 0 <= i < j < |r| ==> Below(r[i], r[j])
    decreases |s|
  {
    if s == {} then []
    else
      LeastExists(s);
      LeastUnique(s);
      var m :| IsLeast(m, s);
      var tail := Sorted(s - {m});
      assert forall j :: 0 <= j < |tail| ==> tail[j] in s - {m};
      [m] + tail
  }

  function DigitChar(d: nat): (c: char)
    requires d < 10
    ensures IsDigit(c) && DigitValue(c) == d
  {
    ('0' as int + d) as char
  }

  predicate IsDigit(c: char) {
    '0' <= c <= '9'
  }

  function DigitValue(c: char): nat
    requires IsDigit(c)
  {
    c as int - '0' as int
  }

  /** The number a string of decimal digits spells, most significant digit first. */
  function DigitsValue(r: string): nat
    requires forall i :: 0 <= i < |r| ==> IsDigit(r[i])
  {
    if r == [] then 0 else DigitsValue(r[..|r| - 1]) * 10 + DigitValue(r[|r| - 1])
  }

  /** `str(n)` for a natural number: decimal digits without a leading zero, spelling `n`. */
  function Decimal(n: nat): (r: string)
    ensures r != []
    ensures forall i :: 0 <= i < |r| ==> IsDigit(r[i])
    ensures DigitsValue(r) == n
    ensures r[0] == '0' ==> r == "0"
  {
    if n < 10 then [DigitChar(n)]
    else
      var r := Decimal(n / 10) + [DigitChar(n % 10)];
      assert r[..|r| - 1] == Decimal(n / 10);
      r
  }
}
