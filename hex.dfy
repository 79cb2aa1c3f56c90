/** Lower-case hexadecimal text of a natural number, as JavaScript's
    `n.toString(16)` writes it, with the `0x` prefix JSON-RPC uses for
    quantities; and its inverse, so that a hard-coded hex literal can be
    checked against the decimal value its comment gives. */
module Hex {

  /** The character of a hex digit value: `0`-`9`, then `a`-`f`. */
  function DigitChar(d: nat): (c: char)
    requires d < 16
    ensures IsDigit(c)
  {
    if d < 10 then (48 + d) as char else (97 + d - 10) as char
  }

  predicate IsDigit(c: char)
  {
    '0' <= c <= '9' || 'a' <= c <= 'f'
  }

  /** The value of a lower-case hex digit; the inverse of DigitChar. */
  function DigitValue(c: char): (d: nat)
    requires IsDigit(c)
    ensures d < 16 && DigitChar(d) == c
  {
    if c <= '9' then c as nat - 48 else c as nat - 97 + 10
  }

  lemma DigitValueOfChar(d: nat)
    requires d < 16
    ensures DigitValue(DigitChar(d)) == d
  {
  }

  predicate AllDigits(s: string)
  {
    forall i :: 0 <= i < |s| ==> IsDigit(s[i])
  }

  /** Canonical hex text: at least one digit, and no leading zero unless
      the number is zero itself. */
  predicate Canonical(s: string)
  {
    |s| >= 1 && AllDigits(s) && (|s| > 1 ==> s[0] != '0')
  }

  /** `n.toString(16)`: the most significant digit first. */
  function Digits(n: nat): (s: string)
    ensures Canonical(s)
    decreases n
  {
    if n < 16 then [DigitChar(n)] else Digits(n / 16) + [DigitChar(n % 16)]
  }

  /** `'0x' + n.toString(16)`. */
  function ToHex(n: nat): (s: string)
    ensures |s| >= 3 && s[..2] == "0x" && Canonical(s[2..])
  {
    "0x" + Digits(n)
  }

  /** The number a string of hex digits denotes (most significant first). */
  function Value(s: string): nat
    requires AllDigits(s)
  {
    if s == [] then 0 else Value(s[..|s| - 1]) * 16 + DigitValue(s[|s| - 1])
  }

  /** Decoding the digits of n gives n back. */
  lemma {:induction false} ValueOfDigits(n: nat)
    ensures Value(Digits(n)) == n
    decreases n
  {
    var s := Digits(n);
    if n < 16 {
      assert s[..|s| - 1] == [];
      DigitValueOfChar(n);
    } else {
      ValueOfDigits(n / 16);
      assert s[..|s| - 1] == Digits(n / 16);
      DigitValueOfChar(n % 16);
    }
  }

  /** A canonical digit string of length at least two has a value of at
      least 16. */
  lemma {:induction false} ValueLowerBound(s: string)
    requires Canonical(s)
    ensures s[0] != '0' ==> Value(s) >= 1
    ensures |s| > 1 ==> Value(s) >= 16
    decreases |s|
  {
    if |s| == 1 {
      assert s[..0] == [];
    } else {
      var p := s[..|s| - 1];
      assert p[0] == s[0];
      ValueLowerBound(p);
    }
  }

  /** Every canonical digit string is the text of its own value, so the
      encoding is a bijection between naturals and canonical strings. */
  lemma {:induction false} DigitsOfValue(s: string)
    requires Canonical(s)
    ensures Digits(Value(s)) == s
    decreases |s|
  {
    var last := s[|s| - 1];
    var d := DigitValue(last);
    if |s| == 1 {
      assert s[..0] == [];
      assert Value(s) == d;
    } else {
      var p := s[..|s| - 1];
      assert p[0] == s[0];
      ValueLowerBound(s);
      ValueLowerBound(p);
      DigitsOfValue(p);
      var v := Value(s);
      assert v == Value(p) * 16 + d;
      assert v / 16 == Value(p) && v % 16 == d;
      assert Digits(v) == Digits(Value(p)) + [DigitChar(d)];
      assert s == p + [last];
    }
  }

  /** Hex texts of distinct numbers differ. */
  lemma ToHexInjective(m: nat, n: nat)
    requires ToHex(m) == ToHex(n)
    ensures m == n
  {
    assert Digits(m) == ToHex(m)[2..];
    assert Digits(n) == ToHex(n)[2..];
    ValueOfDigits(m);
    ValueOfDigits(n);
  }
}
