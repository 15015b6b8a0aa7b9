/** String and number helpers shared by the model.

    Each predicate or function restates one JavaScript built-in that the
    service relies on (`startsWith`, `includes`, `substring`, `toLowerCase`,
    `trim`, `replace(/\D/g, '')`, `Number.prototype.toString`, `parseInt`)
    over Dafny strings (`seq<char>`).
 */
module Text {

  datatype Option<+T> = None | Some(value: T)

  /** A JavaScript string value is truthy iff it is present and not empty. */
  predicate TruthyStr(s: Option<string>) {
    s.Some? && s.value != ""
  }

  /** `s || fallback` for an optional string. */
  function OrElse(s: Option<string>, fallback: string): (r: string)
    ensures TruthyStr(s) ==> r == s.value
    ensures !TruthyStr(s) ==> r == fallback
  {
    if TruthyStr(s) then s.value else fallback
  }

  /** `s.startsWith(p)` */
  predicate StartsWith(s: string, p: string) {
    |p| <= |s| && s[..|p|] == p
  }

  /** `s.includes(t)`: `t` occurs in `s` at some position. */
  predicate Contains(s: string, t: string)
    decreases |s|
  {
    StartsWith(s, t) || (|s| > 0 && Contains(s[1..], t))
  }

  /** `s.substring(from)` for a non-negative start: clamps to the end. */
  function SubstringFrom(s: string, from: nat): (r: string)
    ensures from <= |s| ==> r == s[from..]
    ensures from > |s| ==> r == ""
  {
    if from <= |s| then s[from..] else ""
  }

  /** `s.substring(1)` */
  function Rest(s: string): (r: string)
    ensures s != [] ==> r == s[1..]
  {
    if s == [] then [] else s[1..]
  }

  /** `s.substring(0, n)`: the first `n` characters, or all of them. */
  function Prefix(s: string, n: nat): (r: string)
    ensures |r| == if n <= |s| then n else |s|
    ensures StartsWith(s, r)
  {
    if n <= |s| then s[..n] else s
  }

  /** An occurrence at a known position makes `Contains` true. */
  lemma {:induction false} ContainsAt(s: string, t: string, i: nat)
    requires i + |t| <= |s| && s[i..i + |t|] == t
    ensures Contains(s, t)
    decreases i
  {
    if i == 0 {
      assert s[..|t|] == t;
    } else {
      assert s[1..][i - 1..i - 1 + |t|] == s[i..i + |t|];
      ContainsAt(s[1..], t, i - 1);
    }
  }

  /** `Contains` gives back the position of an occurrence. */
  lemma {:induction false} ContainsWitness(s: string, t: string) returns (i: nat)
    requires Contains(s, t)
    ensures i + |t| <= |s| && s[i..i + |t|] == t
    decreases |s|
  {
    if StartsWith(s, t) {
      i := 0;
    } else {
      var j := ContainsWitness(s[1..], t);
      i := j + 1;
      assert s[i..i + |t|] == s[1..][j..j + |t|];
    }
  }

  /** A string always contains each of its prefixes. */
  lemma {:induction false} ContainsPrefix(s: string, p: string)
    requires StartsWith(s, p)
    ensures Contains(s, p)
  {
  }

  /** A concatenation starts with its left part. */
  lemma {:induction false} StartsWithAppend(a: string, b: string)
    ensures StartsWith(a + b, a)
  {
    assert (a + b)[..|a|] == a;
  }

  /** Being a prefix is transitive. */
  lemma {:induction false} StartsWithTrans(s: string, t: string, u: string)
    requires StartsWith(s, t) && StartsWith(t, u)
    ensures StartsWith(s, u)
  {
    assert s[..|u|] == t[..|u|];
  }

  /** A concatenation contains its right part. */
  lemma {:induction false} ContainsSuffix(a: string, b: string)
    ensures Contains(a + b, b)
  {
    assert (a + b)[|a|..|a| + |b|] == b;
    ContainsAt(a + b, b, |a|);
  }

  /** What a string contains, any extension of it contains too. */
  lemma {:induction false} ContainsExtended(s: string, t: string, u: string)
    requires Contains(s, u)
    ensures Contains(s + t, u)
  {
    var i := ContainsWitness(s, u);
    assert (s + t)[i..i + |u|] == s[i..i + |u|];
    ContainsAt(s + t, u, i);
  }

  /** What contains a string contains each of its prefixes. */
  lemma {:induction false} ContainsThroughPrefix(s: string, t: string, u: string)
    requires Contains(s, t) && StartsWith(t, u)
    ensures Contains(s, u)
  {
    var i := ContainsWitness(s, t);
    assert s[i..i + |u|] == t[..|u|];
    ContainsAt(s, u, i);
  }

  // ---------------------------------------------------------------------
  // Case folding (ASCII letters; see README for what is left out)

  predicate IsUpper(c: char) {
    'A' <= c <= 'Z'
  }

  function LowerChar(c: char): (r: char)
    ensures !IsUpper(r)
    ensures !IsUpper(c) ==> r == c
  {
    if IsUpper(c) then (c as int + 32) as char else c
  }

  /** `s.toLowerCase()` */
  function Lower(s: string): (r: string)
    ensures |r| == |s|
    ensures forall i :: 0 <= i < |s| ==> r[i] == LowerChar(s[i])
  {
    seq(|s|, i requires 0 <= i < |s| => LowerChar(s[i]))
  }

  predicate HasUpper(s: string) {
    exists i :: 0 <= i < |s| && IsUpper(s[i])
  }

  /** A lowered string never contains a string that has an upper-case letter. */
  lemma {:induction false} LowerNeverContainsUpper(s: string, t: string)
    requires HasUpper(t)
    ensures !Contains(Lower(s), t)
  {
    var k :| 0 <= k < |t| && IsUpper(t[k]);
    MissingCharNotContained(Lower(s), t, k);
  }

  /** A string none of whose characters is `t[k]` does not contain `t`. */
  lemma {:induction false} MissingCharNotContained(u: string, t: string, k: nat)
    requires k < |t|
    requires forall i :: 0 <= i < |u| ==> u[i] != t[k]
    ensures !Contains(u, t)
    decreases |u|
  {
    if |t| <= |u| {
      assert u[..|t|][k] == u[k];
    }
    if |u| > 0 {
      MissingCharNotContained(u[1..], t, k);
    }
  }

  /** Lowering is idempotent. */
  lemma {:induction false} LowerIdempotent(s: string)
    ensures Lower(Lower(s)) == Lower(s)
  {
  }

  // ---------------------------------------------------------------------
  // Whitespace and trimming

  /** The characters `String.prototype.trim` removes: ECMAScript WhiteSpace
      (TAB, VT, FF, SP, NBSP, ZWNBSP and the Unicode Zs category) and
      LineTerminator (LF, CR, LS, PS). */
  predicate IsJsSpace(c: char) {
    || c == '\t' || c == '\U{B}' || c == '\U{C}' || c == ' ' || c == '\U{A0}' || c == '\U{FEFF}'
    || c == '\U{1680}' || ('\U{2000}' <= c <= '\U{200A}') || c == '\U{202F}' || c == '\U{205F}'
    || c == '\U{3000}'
    || c == '\n' || c == '\r' || c == '\U{2028}' || c == '\U{2029}'
  }

  predicate AllSpace(s: string) {
    forall i :: 0 <= i < |s| ==> IsJsSpace(s[i])
  }

  function TrimStart(s: string): (r: string)
    ensures |r| <= |s| && r == s[|s| - |r|..]
    ensures AllSpace(s[..|s| - |r|])
    ensures r == [] || !IsJsSpace(r[0])
    decreases |s|
  {
    if |s| > 0 && IsJsSpace(s[0]) then TrimStart(s[1..]) else s
  }

  function TrimEnd(s: string): (r: string)
    ensures |r| <= |s| && r == s[..|r|]
    ensures AllSpace(s[|r|..])
    ensures r == [] || !IsJsSpace(r[|r| - 1])
    decreases |s|
  {
    if |s| > 0 && IsJsSpace(s[|s| - 1]) then TrimEnd(s[..|s| - 1]) else s
  }

  /** `s.trim()`: the longest infix of `s` that neither starts nor ends with
      whitespace, obtained by removing only whitespace. */
  function Trim(s: string): (r: string)
    ensures r == [] || (!IsJsSpace(r[0]) && !IsJsSpace(r[|r| - 1]))
    ensures exists a, b :: 0 <= a <= b <= |s| && r == s[a..b] && AllSpace(s[..a]) && AllSpace(s[b..])
  {
    TrimEnds(s);
    TrimInfix(s);
    TrimEnd(TrimStart(s))
  }

  lemma {:induction false} TrimEnds(s: string)
    ensures var r := TrimEnd(TrimStart(s));
      r == [] || (!IsJsSpace(r[0]) && !IsJsSpace(r[|r| - 1]))
  {
    var t := TrimStart(s);
    var r := TrimEnd(t);
    if r != [] {
      assert r[0] == t[0];
    }
  }

  lemma {:induction false} TrimInfix(s: string)
    ensures var r := TrimEnd(TrimStart(s));
      exists a, b :: 0 <= a <= b <= |s| && r == s[a..b] && AllSpace(s[..a]) && AllSpace(s[b..])
  {
    var t := TrimStart(s);
    InfixWitness(s, t, TrimEnd(t));
  }

  /** A suffix `t` of `s` with a space-only lead, and a prefix `r` of `t` with a
      space-only tail, make `r` an infix of `s` with space-only ends. */
  lemma {:induction false} InfixWitness(s: string, t: string, r: string)
    requires |t| <= |s| && t == s[|s| - |t|..] && AllSpace(s[..|s| - |t|])
    requires |r| <= |t| && r == t[..|r|] && AllSpace(t[|r|..])
    ensures exists a, b :: 0 <= a <= b <= |s| && r == s[a..b] && AllSpace(s[..a]) && AllSpace(s[b..])
  {
    var a := |s| - |t|;
    var b := a + |r|;
    assert s[a..b] == t[..|r|];
    assert s[b..] == t[|r|..];
    assert r == s[a..b] && AllSpace(s[b..]);
  }

  /** Trimming a string without leading or trailing whitespace is the identity. */
  lemma {:induction false} TrimUnchanged(s: string)
    requires s == [] || (!IsJsSpace(s[0]) && !IsJsSpace(s[|s| - 1]))
    ensures Trim(s) == s
  {
  }

  /** A string that is all whitespace trims to the empty string. */
  lemma {:induction false} TrimAllSpace(s: string)
    requires AllSpace(s)
    ensures Trim(s) == ""
  {
    TrimStartAllSpace(s);
  }

  lemma {:induction false} TrimStartAllSpace(s: string)
    requires AllSpace(s)
    ensures TrimStart(s) == ""
    decreases |s|
  {
    if |s| > 0 {
      TrimStartAllSpace(s[1..]);
    }
  }

  // ---------------------------------------------------------------------
  // Digits

  predicate IsDigit(c: char) {
    '0' <= c <= '9'
  }

  predicate AllDigits(s: string) {
    forall i :: 0 <= i < |s| ==> IsDigit(s[i])
  }

  /** `s.replace(/\D/g, '')`: keeps exactly the ASCII digits, in order. */
  function DigitsOnly(s: string): (r: string)
    ensures AllDigits(r)
    ensures |r| <= |s|
    ensures AllDigits(s) ==> r == s
    decreases |s|
  {
    if s == [] then []
    else if IsDigit(s[0]) then [s[0]] + DigitsOnly(s[1..])
    else DigitsOnly(s[1..])
  }

  function DigitChar(d: nat): (c: char)
    requires d < 10
    ensures IsDigit(c)
  {
    ('0' as int + d) as char
  }

  function DigitValue(c: char): (d: nat)
    requires IsDigit(c)
    ensures d < 10 && DigitChar(d) == c
  {
    c as int - '0' as int
  }

  /** The decimal text of a natural number (`n.toString()`). */
  function NatToString(n: nat): (r: string)
    ensures |r| >= 1 && AllDigits(r)
    ensures (|r| == 1) == (n < 10)
    ensures r[0] != '0' || n == 0
    decreases n
  {
    if n < 10 then [DigitChar(n)] else NatToString(n / 10) + [DigitChar(n % 10)]
  }

  /** The decimal text of an integer, with a leading `-` when negative. */
  function IntToString(i: int): (r: string)
    ensures |r| >= 1
    ensures i >= 0 ==> r == NatToString(i)
    ensures i < 0 ==> r == "-" + NatToString(-i)
  {
    if i < 0 then "-" + NatToString(-i) else NatToString(i)
  }

  /** The value of a string of decimal digits. */
  function DigitsValue(s: string): (n: nat)
    requires AllDigits(s)
    decreases |s|
  {
    if s == [] then 0 else DigitsValue(s[..|s| - 1]) * 10 + DigitValue(s[|s| - 1])
  }

  /** Reading back the text of a number gives the number. */
  lemma {:induction false} DigitsValueOfNatToString(n: nat)
    ensures DigitsValue(NatToString(n)) == n
    decreases n
  {
    var r := NatToString(n);
    if n >= 10 {
      DigitsValueOfNatToString(n / 10);
      assert r[..|r| - 1] == NatToString(n / 10);
    }
  }

  /** Numbers in [10^(k-1), 10^k) have exactly k digits; stated for the
      widths the model needs. */
  lemma {:induction false} NatToStringLength(n: nat, k: nat)
    requires 1 <= k
    requires Pow10(k - 1) <= n < Pow10(k)
    ensures |NatToString(n)| == k
    decreases k
  {
    if k > 1 {
      assert Pow10(k - 1) == Pow10(k - 2) * 10;
      assert n >= 10;
      NatToStringLength(n / 10, k - 1);
    } else {
      assert n < 10;
    }
  }

  function Pow10(k: nat): (p: nat)
    ensures p >= 1
  {
    if k == 0 then 1 else 10 * Pow10(k - 1)
  }

  // ---------------------------------------------------------------------
  // parseInt (radix 10)

  /** The longest prefix of `s` made of digits. */
  function DigitPrefix(s: string): (r: string)
    ensures StartsWith(s, r) && AllDigits(r)
    ensures |r| == |s| || !IsDigit(s[|r|])
    decreases |s|
  {
    if s != [] && IsDigit(s[0]) then [s[0]] + DigitPrefix(s[1..]) else []
  }

  /** `parseInt(s)` in base 10: leading whitespace, an optional sign, then at
      least one digit; `None` stands for `NaN`. */
  function ParseInt(s: string): (r: Option<int>)
  {
    var t := TrimStart(s);
    var negative := t != [] && t[0] == '-';
    var u := if t != [] && (t[0] == '-' || t[0] == '+') then t[1..] else t;
    var ds := DigitPrefix(u);
    var v: int := DigitsValue(ds);
    if ds == [] then None
    else if negative then Some(-v)
    else Some(v)
  }

  /** `parseInt` reads back the text of every natural number. */
  lemma {:induction false} ParseIntOfNatToString(n: nat)
    ensures ParseInt(NatToString(n)) == Some(n)
  {
    var s := NatToString(n);
    ParseIntOfDigits(s);
    DigitsValueOfNatToString(n);
  }

  /** A non-empty digit string parses to its value. */
  lemma {:induction false} ParseIntOfDigits(s: string)
    requires s != [] && AllDigits(s)
    ensures ParseInt(s) == Some(DigitsValue(s) as int)
  {
    assert IsDigit(s[0]);
    assert TrimStart(s) == s;
    DigitPrefixOfDigits(s);
  }

  /** `parseInt` reads back the text of every integer, negative ones
      included. */
  lemma {:induction false} ParseIntOfIntToString(i: int)
    ensures ParseInt(IntToString(i)) == Some(i)
  {
    if i >= 0 {
      assert IntToString(i) == NatToString(i);
      ParseIntOfNatToString(i);
    } else {
      var n: nat := -i;
      assert IntToString(i) == "-" + NatToString(n);
      ParseIntOfNegative(n);
    }
  }

  lemma {:induction false} ParseIntOfNegative(n: nat)
    ensures ParseInt("-" + NatToString(n)) == Some(-(n as int))
  {
    var d := NatToString(n);
    ParseIntOfNegated(d);
    DigitsValueOfNatToString(n);
  }

  /** A minus sign followed by digits parses to the negated value. */
  lemma {:induction false} ParseIntOfNegated(d: string)
    requires d != [] && AllDigits(d)
    ensures ParseInt("-" + d) == Some(-(DigitsValue(d) as int))
  {
    var s := "-" + d;
    assert s[0] == '-';
    assert !IsJsSpace(s[0]);
    var t := TrimStart(s);
    assert t == s;
    var u := t[1..];
    assert u == d;
    DigitPrefixOfDigits(d);
    assert DigitPrefix(u) == d;
  }

  /** Text whose first non-blank character is neither a sign nor a digit is
      `NaN`. */
  lemma {:induction false} ParseIntNaN(s: string)
    requires var t := TrimStart(s); t == [] || (!IsDigit(t[0]) && t[0] != '-' && t[0] != '+')
    ensures ParseInt(s) == None
  {
  }

  lemma {:induction false} DigitPrefixOfDigits(s: string)
    requires AllDigits(s)
    ensures DigitPrefix(s) == s
    decreases |s|
  {
    if s != [] {
      DigitPrefixOfDigits(s[1..]);
    }
  }
}
