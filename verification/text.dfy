/**
 * ASCII character classes and string helpers standing in for the Python
 * string methods and regular-expression classes the source relies on
 * (`\d`, `\w`, `\s`, `str.lower`, `str.isalnum`, `in`, `startswith`).
 */
module Text {
  import opened Wrappers

  /** Python truthiness of an optional string: present and non-empty. */
  predicate Truthy(o: Option<string>) { o.Some? && o.value != "" }

  predicate IsDigit(c: char) { '0' <= c <= '9' }

  predicate IsAsciiLetter(c: char) { 'a' <= c <= 'z' || 'A' <= c <= 'Z' }

  /** `str.isalnum` restricted to ASCII. */
  predicate IsAlnum(c: char) { IsDigit(c) || IsAsciiLetter(c) }

  /** The regular-expression class `\w` restricted to ASCII. */
  predicate IsWordChar(c: char) { IsAlnum(c) || c == '_' }

  /** The regular-expression class `\s` restricted to ASCII. */
  predicate IsSpace(c: char) {
    c == ' ' || c == '\t' || c == '\n' || c == '\r' || c == '\U{0B}' || c == '\U{0C}'
  }

  function LowerChar(c: char): (r: char)
    ensures 'A' <= c <= 'Z' ==> 'a' <= r <= 'z'
    ensures !('A' <= c <= 'Z') ==> r == c
  {
    if 'A' <= c <= 'Z' then (c as int - 'A' as int + 'a' as int) as char else c
  }

  /** `str.lower` restricted to ASCII. */
  function Lower(s: string): (r: string)
    ensures |r| == |s|
    ensures forall i :: 0 <= i < |s| ==> r[i] == LowerChar(s[i])
  {
    if |s| == 0 then [] else [LowerChar(s[0])] + Lower(s[1..])
  }

  predicate EqualsIgnoreCase(a: string, b: string) { Lower(a) == Lower(b) }

  predicate AllDigits(s: string) { forall i :: 0 <= i < |s| ==> IsDigit(s[i]) }

  predicate StartsWith(s: string, prefix: string) {
    |prefix| <= |s| && s[..|prefix|] == prefix
  }

  /** `sub` occurs in `s` starting at index `i`. */
  predicate OccursAt(s: string, sub: string, i: int) {
    0 <= i <= |s| - |sub| && s[i..i + |sub|] == sub
  }

  /** Python's `sub in s`. */
  predicate Contains(s: string, sub: string) {
    exists i | 0 <= i <= |s| - |sub| :: OccursAt(s, sub, i)
  }

  function DigitValue(c: char): nat {
    if IsDigit(c) then c as int - '0' as int else 0
  }

  /** Decimal value of a digit string, as Python's `int` reads it. */
  function DigitsValue(s: string): nat {
    if |s| == 0 then 0 else DigitsValue(s[..|s| - 1]) * 10 + DigitValue(s[|s| - 1])
  }

  lemma DigitsValueOne(s: string)
    requires |s| == 1
    ensures DigitsValue(s) == DigitValue(s[0])
  {
    assert s[..0] == [];
  }

  lemma DigitsValueTwo(s: string)
    requires |s| == 2
    ensures DigitsValue(s) == DigitValue(s[0]) * 10 + DigitValue(s[1])
  {
    DigitsValueOne(s[..1]);
  }

  function DigitChar(d: nat): char
    requires d < 10
  {
    ('0' as int + d) as char
  }

  /** Python's `str(n)` for a natural number. */
  function NatToString(n: nat): string
    decreases n
  {
    if n < 10 then [DigitChar(n)] else NatToString(n / 10) + [DigitChar(n % 10)]
  }

  /** `str(n)` printed in a three-character field with leading zeros. */
  function Pad3(n: nat): string
    requires n < 1000
  {
    [DigitChar(n / 100), DigitChar(n / 10 % 10), DigitChar(n % 10)]
  }

  /** Reading back a printed number gives the number. */
  lemma {:induction false} NatToStringRoundTrip(n: nat)
    ensures AllDigits(NatToString(n))
    ensures |NatToString(n)| >= 1
    ensures DigitsValue(NatToString(n)) == n
    decreases n
  {
    var s := NatToString(n);
    if n >= 10 {
      NatToStringRoundTrip(n / 10);
      assert s[..|s| - 1] == NatToString(n / 10);
    }
  }

  /** A printed number never starts with a zero unless it is zero. */
  lemma {:induction false} NatToStringLeading(n: nat)
    ensures (NatToString(n)[0] == '0') <==> n == 0
    decreases n
  {
    if n >= 10 {
      NatToStringLeading(n / 10);
      NatToStringRoundTrip(n / 10);
    }
  }

  /** Printed numbers below 10^k have at most k digits. */
  lemma {:induction false} NatToStringShort(n: nat, k: nat)
    requires 1 <= k && n < Pow10(k)
    ensures |NatToString(n)| <= k
    decreases n
  {
    if n >= 10 {
      assert k != 1;
      assert Pow10(k) == 10 * Pow10(k - 1);
      NatToStringShort(n / 10, k - 1);
    }
  }

  function Pow10(k: nat): nat {
    if k == 0 then 1 else 10 * Pow10(k - 1)
  }

  lemma Pad3RoundTrip(n: nat)
    requires n < 1000
    ensures |Pad3(n)| == 3 && AllDigits(Pad3(n))
    ensures DigitsValue(Pad3(n)) == n
  {
    var s := Pad3(n);
    assert s[..2][..1] == [s[0]];
    assert DigitsValue(s[..1]) == n / 100;
    assert DigitsValue(s[..2]) == n / 100 * 10 + n / 10 % 10;
  }

  /** `s.split(sep)` for a one-character separator. */
  function Split(s: string, sep: char): (r: seq<string>)
    ensures |r| >= 1
    decreases |s|
  {
    if |s| == 0 then [""]
    else
      var rest := Split(s[1..], sep);
      if s[0] == sep then [""] + rest else [[s[0]] + rest[0]] + rest[1..]
  }

  /** Splitting after a separator-free field yields that field first. */
  lemma {:induction false} SplitField(a: string, sep: char, b: string)
    requires forall k :: 0 <= k < |a| ==> a[k] != sep
    ensures Split(a + [sep] + b, sep) == [a] + Split(b, sep)
    decreases |a|
  {
    if |a| == 0 {
      assert (a + [sep] + b)[1..] == b;
    } else {
      SplitField(a[1..], sep, b);
      assert (a + [sep] + b)[1..] == a[1..] + [sep] + b;
      assert [a[0]] + a[1..] == a;
    }
  }

  /** A separator-free string is one field. */
  lemma {:induction false} SplitWhole(a: string, sep: char)
    requires forall k :: 0 <= k < |a| ==> a[k] != sep
    ensures Split(a, sep) == [a]
    decreases |a|
  {
    if |a| > 0 {
      SplitWhole(a[1..], sep);
      assert [a[0]] + a[1..] == a;
    }
  }

  /** The value of a concatenation of digit strings. */
  lemma {:induction false} DigitsValueConcat(a: string, b: string)
    ensures DigitsValue(a + b) == DigitsValue(a) * Pow10(|b|) + DigitsValue(b)
    decreases |b|
  {
    if |b| > 0 {
      var b' := b[..|b| - 1];
      var d := DigitValue(b[|b| - 1]);
      var ab := a + b;
      assert ab[..|ab| - 1] == a + b';
      assert ab[|ab| - 1] == b[|b| - 1];
      assert DigitsValue(ab) == DigitsValue(a + b') * 10 + d;
      DigitsValueConcat(a, b');
      ShiftDigit(DigitsValue(a), Pow10(|b'|), DigitsValue(b'), d);
    } else {
      assert a + b == a;
    }
  }

  /** Appending a digit to `va * p + vb` shifts both parts. */
  lemma ShiftDigit(va: int, p: int, vb: int, d: int)
    ensures (va * p + vb) * 10 + d == va * (p * 10) + (vb * 10 + d)
  {
    assert (va * p) * 10 == va * (p * 10);
  }

  /** A digit string without a leading zero is at least 10^(length - 1). */
  lemma DigitsValueLeading(s: string)
    requires |s| >= 1 && AllDigits(s) && s[0] != '0'
    ensures DigitsValue(s) >= Pow10(|s| - 1)
  {
    assert s == [s[0]] + s[1..];
    DigitsValueConcat([s[0]], s[1..]);
    DigitsValueOne([s[0]]);
  }
}
