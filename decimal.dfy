/** The decimal text of an integer, as a JavaScript template literal `${n}` writes it for an
    integer-valued number, together with the strict parser that undoes it. */
module Decimal {
  import opened Wrappers

  predicate IsDigit(c: char) {
    '0' <= c <= '9'
  }

  predicate AllDigits(s: string) {
    forall i :: 0 <= i < |s| ==> IsDigit(s[i])
  }

  /** A digit string in canonical form: non-empty, and no leading zero except for "0" itself. */
  predicate Canonical(s: string) {
    |s| > 0 && AllDigits(s) && (s[0] == '0' ==> |s| == 1)
  }

  function DigitChar(d: nat): (c: char)
    requires d < 10
    ensures IsDigit(c)
  {
    ('0' as int + d) as char
  }

  function DigitValue(c: char): (d: nat)
    requires IsDigit(c)
    ensures d < 10 && DigitChar(d) == c
  {
    c as int - '0' as int
  }

  /** The decimal digits of `n`, most significant first. */
  function Digits(n: nat): (s: string)
    ensures |s| > 0 && AllDigits(s)
  {
    if n < 10 then [DigitChar(n)] else Digits(n / 10) + [DigitChar(n % 10)]
  }

  /** The number a string of decimal digits denotes. */
  function ParseNat(s: string): nat
    requires AllDigits(s)
  {
    if s == [] then 0 else ParseNat(s[..|s| - 1]) * 10 + DigitValue(s[|s| - 1])
  }

  /** `${n}` for an integer `n`. */
  function IdString(n: int): (s: string)
    ensures |s| > 0 && (s[0] == '-' <==> n < 0)
    ensures AllDigits(if n < 0 then s[1..] else s)
  {
    if n < 0 then "-" + Digits(-n) else Digits(n)
  }

  /** Reads back exactly the strings `IdString` writes. */
  function ParseId(s: string): Option<int>
  {
    if |s| > 1 && s[0] == '-' && Canonical(s[1..]) && s[1] != '0' then Some(-(ParseNat(s[1..]) as int))
    else if Canonical(s) then Some(ParseNat(s))
    else None
  }

  lemma {:induction false} DigitsCanonical(n: nat)
    ensures Canonical(Digits(n)) && ParseNat(Digits(n)) == n
    ensures Digits(n)[0] == '0' <==> n == 0
    decreases n
  {
    var s := Digits(n);
    if n < 10 {
      assert s[..|s| - 1] == [];
    } else {
      var p := Digits(n / 10);
      DigitsCanonical(n / 10);
      assert s[..|s| - 1] == p;
      assert s[0] == p[0];
    }
  }

  lemma {:induction false} LeadingDigitPositive(s: string)
    requires AllDigits(s) && |s| > 0 && s[0] != '0'
    ensures ParseNat(s) >= 1
    decreases |s|
  {
    if |s| > 1 {
      LeadingDigitPositive(s[..|s| - 1]);
    }
  }

  lemma {:induction false} CanonicalDigits(s: string)
    requires Canonical(s)
    ensures Digits(ParseNat(s)) == s
    decreases |s|
  {
    var p := s[..|s| - 1];
    var d := DigitValue(s[|s| - 1]);
    if |s| == 1 {
      assert p == [];
    } else {
      assert Canonical(p);
      LeadingDigitPositive(p);
      CanonicalDigits(p);
      var n := ParseNat(s);
      assert n / 10 == ParseNat(p) && n % 10 == d;
      assert s == p + [s[|s| - 1]];
    }
  }

  /** `ParseId` reads back what `IdString` writes. */
  lemma IdStringParses(n: int)
    ensures ParseId(IdString(n)) == Some(n)
  {
    var s := IdString(n);
    if n < 0 {
      DigitsCanonical(-n);
      assert s[1..] == Digits(-n);
    } else {
      DigitsCanonical(n);
    }
  }

  /** `ParseId` accepts only the strings `IdString` writes. */
  lemma ParsedIdIsWritten(s: string, n: int)
    requires ParseId(s) == Some(n)
    ensures IdString(n) == s
  {
    if |s| > 1 && s[0] == '-' && Canonical(s[1..]) && s[1] != '0' {
      LeadingDigitPositive(s[1..]);
      CanonicalDigits(s[1..]);
      assert s == "-" + s[1..];
    } else {
      CanonicalDigits(s);
    }
  }

  /** `ParseId` accepts a string exactly when `IdString` writes it, and then returns the id. */
  lemma ParseIdInverse(s: string, n: int)
    ensures ParseId(s) == Some(n) <==> IdString(n) == s
  {
    if IdString(n) == s {
      IdStringParses(n);
    }
    if ParseId(s) == Some(n) {
      ParsedIdIsWritten(s, n);
    }
  }

  /** Distinct ids give distinct strings. */
  lemma IdStringInjective(a: int, b: int)
    ensures IdString(a) == IdString(b) <==> a == b
  {
    ParseIdInverse(IdString(a), a);
    ParseIdInverse(IdString(a), b);
  }
}
