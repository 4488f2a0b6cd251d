/** The few PHP built-ins the query tool relies on, stated on Dafny strings:
    `trim` with its default character list, the truthiness test behind `empty()`
    and `if ($id)`, form-field lookup with `??`, and the `(string)` cast of an int. */
module Php {

  datatype Option<+T> = None | Some(value: T)

  /** The characters `trim` removes by default: space, tab, LF, CR, NUL and vertical tab. */
  predicate IsTrimmed(c: char) {
    c == ' ' || c == '\t' || c == '\n' || c == '\r' || c == '\0' || c == '\U{B}'
  }

  /** `ltrim`: drops the longest prefix of trimmed characters. */
  function TrimLeft(s: string): (r: string)
    ensures |r| <= |s|
    ensures r != [] ==> !IsTrimmed(r[0])
  {
    if s != [] && IsTrimmed(s[0]) then TrimLeft(s[1..]) else s
  }

  /** `rtrim`: drops the longest suffix of trimmed characters. */
  function TrimRight(s: string): (r: string)
    ensures |r| <= |s|
    ensures r != [] ==> !IsTrimmed(r[|r| - 1])
  {
    if s != [] && IsTrimmed(s[|s| - 1]) then TrimRight(s[..|s| - 1]) else s
  }

  /** What `ltrim` keeps is a suffix of its input, and all it drops are trimmed characters. */
  lemma {:induction false} TrimLeftDropsPrefix(s: string)
    ensures var r := TrimLeft(s);
      (forall i :: 0 <= i < |r| ==> r[i] == s[|s| - |r| + i]) &&
      (forall i :: 0 <= i < |s| - |r| ==> IsTrimmed(s[i]))
  {
    if s != [] && IsTrimmed(s[0]) {
      TrimLeftDropsPrefix(s[1..]);
      assert TrimLeft(s) == TrimLeft(s[1..]);
      assert forall i :: 0 <= i < |s| - 1 ==> s[1..][i] == s[i + 1];
    }
  }

  /** What `rtrim` keeps is a prefix of its input, and all it drops are trimmed characters. */
  lemma {:induction false} TrimRightDropsSuffix(s: string)
    ensures var r := TrimRight(s);
      (forall i :: 0 <= i < |r| ==> r[i] == s[i]) &&
      (forall i :: |r| <= i < |s| ==> IsTrimmed(s[i]))
  {
    if s != [] && IsTrimmed(s[|s| - 1]) {
      TrimRightDropsSuffix(s[..|s| - 1]);
      assert TrimRight(s) == TrimRight(s[..|s| - 1]);
      assert forall i :: 0 <= i < |s| - 1 ==> s[..|s| - 1][i] == s[i];
    }
  }

  /** `trim`: both ends. */
  function Trim(s: string): (r: string)
    ensures |r| <= |s|
    ensures r != [] ==> !IsTrimmed(r[0]) && !IsTrimmed(r[|r| - 1])
  {
    var l := TrimLeft(s);
    TrimRightDropsSuffix(l);
    TrimRight(l)
  }

  /** Every character is one that `trim` strips. */
  predicate OnlyTrimmed(s: string) {
    forall i :: 0 <= i < |s| ==> IsTrimmed(s[i])
  }

  /** `trim` yields '' exactly when every character of the input is one it strips. */
  lemma TrimEmptyIff(s: string)
    ensures Trim(s) == [] <==> OnlyTrimmed(s)
  {
    var l := TrimLeft(s);
    TrimLeftDropsPrefix(s);
    TrimRightDropsSuffix(l);
    if Trim(s) != [] {
      var k := |s| - |l|;
      assert l != [] && !IsTrimmed(l[0]) && l[0] == s[k];
    }
  }

  /** Trimming an already trimmed string changes nothing. */
  lemma TrimIdempotent(s: string)
    ensures Trim(Trim(s)) == Trim(s)
  {
    var t := Trim(s);
    if t != [] {
      assert TrimLeft(t) == t;
      assert TrimRight(t) == t;
    }
  }

  /** PHP's `empty()` on a string, and the falsiness behind `if ($id)`:
      both the empty string and the string "0" count. */
  predicate PhpEmpty(s: string): (falsy: bool)
    ensures s == "" ==> falsy
    ensures falsy ==> |s| <= 1
    ensures |s| == 1 ==> (falsy <==> s[0] == '0')
  {
    s == "" || s == "0"
  }

  /** `$m[$k] ?? null` on a form array whose values are all strings. */
  function Lookup(m: map<string, string>, k: string): (r: Option<string>)
    ensures r.Some? <==> k in m
    ensures r.Some? ==> r.value == m[k]
  {
    if k in m then Some(m[k]) else None
  }

  /** `$m[$k] ?? ''`. */
  function Field(m: map<string, string>, k: string): (r: string)
    ensures k in m ==> r == m[k]
    ensures k !in m ==> r == ""
  {
    if k in m then m[k] else ""
  }

  predicate IsDigit(c: char) {
    '0' <= c <= '9'
  }

  function DigitChar(d: nat): (c: char)
    requires d < 10
    ensures IsDigit(c)
  {
    "0123456789"[d]
  }

  function DigitValue(c: char): (d: nat)
    requires IsDigit(c)
    ensures d < 10 && DigitChar(d) == c
  {
    c as int - '0' as int
  }

  /** Decimal digits of a natural number, most significant first, no leading zeros. */
  function NatToString(n: nat): (s: string)
    ensures s != []
    ensures forall i :: 0 <= i < |s| ==> IsDigit(s[i])
    ensures |s| > 1 ==> s[0] != '0'
  {
    if n < 10 then [DigitChar(n)] else NatToString(n / 10) + [DigitChar(n % 10)]
  }

  /** `(string)$n` for an integer `$n`. */
  function IntToString(n: int): (s: string)
    ensures s != []
    ensures s[0] == '-' <==> n < 0
    ensures n < 0 ==> s[1..] == NatToString(-n)
    ensures n >= 0 ==> s == NatToString(n)
  {
    if n < 0 then "-" + NatToString(-n) else NatToString(n)
  }

  /** Reads a string of decimal digits back as a number; the partner of NatToString. */
  function ParseDigits(s: string): nat
    requires forall i :: 0 <= i < |s| ==> IsDigit(s[i])
  {
    if s == [] then 0 else ParseDigits(s[..|s| - 1]) * 10 + DigitValue(s[|s| - 1])
  }

  /** An optional minus sign followed by decimal digits, at least one character. */
  predicate IsIntegerText(s: string) {
    s != [] && (s[0] == '-' || IsDigit(s[0])) && forall i :: 0 < i < |s| ==> IsDigit(s[i])
  }

  /** Reads an optionally negative decimal string back as an integer. */
  function ParseInt(s: string): int
    requires IsIntegerText(s)
  {
    if s[0] == '-' then -(ParseDigits(s[1..]) as int) else ParseDigits(s)
  }

  lemma {:induction false} NatToStringRoundTrip(n: nat)
    ensures ParseDigits(NatToString(n)) == n
  {
    if n >= 10 {
      var s := NatToString(n);
      assert s[..|s| - 1] == NatToString(n / 10);
      NatToStringRoundTrip(n / 10);
    }
  }

  /** The decimal text of an integer determines it: reading it back gives the same number. */
  lemma IntToStringRoundTrip(n: int)
    ensures IsIntegerText(IntToString(n))
    ensures ParseInt(IntToString(n)) == n
  {
    if n < 0 {
      NegativeTextRoundTrip(n);
    } else {
      NatTextRoundTrip(n);
    }
  }

  lemma NatTextRoundTrip(n: nat)
    ensures IsIntegerText(IntToString(n)) && ParseInt(IntToString(n)) == n
  {
    var d := IntToString(n);
    assert d == NatToString(n);
    assert IsDigit(d[0]);
    NatToStringRoundTrip(n);
  }

  lemma NegativeTextRoundTrip(n: int)
    requires n < 0
    ensures IsIntegerText(IntToString(n)) && ParseInt(IntToString(n)) == n
  {
    var m: nat := -n;
    var d := NatToString(m);
    var s := IntToString(n);
    assert s == "-" + d;
    assert s[1..] == d;
    forall i | 0 < i < |s| ensures IsDigit(s[i]) {
      assert s[i] == d[i - 1];
    }
    NatToStringRoundTrip(m);
  }
}
