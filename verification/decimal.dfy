/** Decimal numerals of integers: what Python's `str(n)` (and an f-string
    `f"{n}"`) prints for an `int`, and the reading that undoes it. */
module Decimal {
  import opened Wrappers

  predicate IsDigit(c: char)
  {
    '0' <= c <= '9'
  }

  predicate AllDigits(s: string)
  {
    forall i :: 0 <= i < |s| ==> IsDigit(s[i])
  }

  function DigitChar(d: nat): (c: char)
    requires d < 10
    ensures IsDigit(c)
    ensures c == '0' <==> d == 0
  {
    (('0' as int) + d) as char
  }

  function DigitValue(c: char): (d: nat)
    requires IsDigit(c)
    ensures d < 10
    ensures DigitChar(d) == c
  {
    (c as int) - ('0' as int)
  }

  /** The value of a non-empty run of decimal digits, most significant first. */
  function ToNat(s: string): nat
    requires |s| >= 1 && AllDigits(s)
  {
    if |s| == 1 then DigitValue(s[0])
    else ToNat(s[..|s| - 1]) * 10 + DigitValue(s[|s| - 1])
  }

  /** Python's `str(n)` for a non-negative `n`: digits only, no leading
      zero, and reading it back gives `n`. */
  function FromNat(n: nat): (s: string)
    ensures |s| >= 1 && AllDigits(s)
    ensures s[0] == '0' ==> s == "0"
    ensures ToNat(s) == n
  {
    if n < 10 then [DigitChar(n)]
    else
      var prefix := FromNat(n / 10);
      var s := prefix + [DigitChar(n % 10)];
      assert s[..|s| - 1] == prefix;
      s
  }

  /** Python's `str(i)` for any `int`: a minus sign before the digits of a
      negative number. It is a single shell word, and `ToInt` reads it back. */
  function FromInt(i: int): (s: string)
    ensures |s| >= (if i < 0 then 2 else 1) && ' ' !in s
    ensures s[0] == '-' <==> i < 0
    ensures s[if i < 0 then 1 else 0] == '0' ==> s == "0"
    ensures ToInt(s) == Some(i)
  {
    if i < 0 then
      var digits := FromNat(-i);
      var s := "-" + digits;
      assert s[1..] == digits;
      assert forall k :: 1 <= k < |s| ==> s[k] == digits[k - 1];
      s
    else FromNat(i)
  }

  /** Digits as `str` prints them: at least one, and no leading zero
      unless the number is zero. */
  predicate Canonical(s: string)
  {
    |s| >= 1 && AllDigits(s) && (s[0] == '0' ==> s == "0")
  }

  /** A canonical numeral other than `"0"` stands for a positive number. */
  lemma {:induction false} CanonicalPositive(s: string)
    requires Canonical(s) && s != "0"
    ensures ToNat(s) >= 1
    decreases |s|
  {
    if |s| == 1 {
      assert s[0] != '0';
      assert DigitChar(DigitValue(s[0])) == s[0];
    } else {
      var prefix := s[..|s| - 1];
      assert prefix[0] == s[0];
      CanonicalPositive(prefix);
    }
  }

  /** `str(n)` is the only canonical numeral for `n`. */
  lemma {:induction false} NatTextUnique(s: string)
    requires Canonical(s)
    ensures s == FromNat(ToNat(s))
    decreases |s|
  {
    var n := ToNat(s);
    if |s| == 1 {
      assert FromNat(n) == [DigitChar(DigitValue(s[0]))];
    } else {
      var prefix := s[..|s| - 1];
      var last := s[|s| - 1];
      assert prefix[0] == s[0];
      CanonicalPositive(prefix);
      NatTextUnique(prefix);
      assert n / 10 == ToNat(prefix) && n % 10 == DigitValue(last);
      assert FromNat(n) == FromNat(ToNat(prefix)) + [DigitChar(DigitValue(last))];
      assert s == prefix + [last];
    }
  }

  /** `str(i)` is the only numeral for `i` with no leading zero and no
      `"-0"`: any other text that reads as `i` is padded. */
  lemma IntTextUnique(s: string, i: int)
    requires ToInt(s) == Some(i)
    requires s[0] == '-' ==> Canonical(s[1..]) && s[1..] != "0"
    requires s[0] != '-' ==> Canonical(s)
    ensures s == FromInt(i)
  {
    if s[0] == '-' {
      var digits := s[1..];
      NatTextUnique(digits);
      CanonicalPositive(digits);
      assert i == 0 - ToNat(digits) && i < 0;
      assert FromInt(i) == "-" + FromNat(ToNat(digits));
      assert s == "-" + digits;
    } else {
      assert i == ToNat(s);
      NatTextUnique(s);
    }
  }

  /** Reads an optional minus sign followed by at least one digit. */
  function ToInt(s: string): Option<int>
  {
    if |s| >= 2 && s[0] == '-' && AllDigits(s[1..]) then Some(0 - ToNat(s[1..]) as int)
    else if |s| >= 1 && AllDigits(s) then Some(ToNat(s))
    else None
  }
}
