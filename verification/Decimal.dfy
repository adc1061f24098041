/** Decimal text of integers, as Go's fmt and strconv write and read it. */
module Decimal {
  import opened Options

  predicate IsDigit(c: char) {
    '0' <= c <= '9'
  }

  predicate AllDigits(s: string) {
    forall i | 0 <= i < |s| :: IsDigit(s[i])
  }

  function Digit(d: nat): char
    requires d < 10
  {
    '0' + d as char
  }

  function DigitValue(c: char): nat
    requires IsDigit(c)
  {
    (c - '0') as nat
  }

  function Digits(n: nat): (s: string)
    ensures |s| > 0 && AllDigits(s)
  {
    if n < 10 then [Digit(n)] else Digits(n / 10) + [Digit(n % 10)]
  }

  function Value(s: string): nat
    requires AllDigits(s)
  {
    if s == "" then 0 else Value(s[..|s| - 1]) * 10 + DigitValue(s[|s| - 1])
  }

  lemma {:induction false} ValueOfDigits(n: nat)
    ensures Value(Digits(n)) == n
  {
    var s := Digits(n);
    if n < 10 {
      assert s[..|s| - 1] == "";
    } else {
      ValueOfDigits(n / 10);
      assert s[..|s| - 1] == Digits(n / 10);
    }
  }

  lemma DigitsInjective(a: nat, b: nat)
    requires Digits(a) == Digits(b)
    ensures a == b
  {
    ValueOfDigits(a);
    ValueOfDigits(b);
  }

  function Text(i: int): string {
    if i < 0 then "-" + Digits(-i) else Digits(i)
  }

  predicate StartsWithDigit(s: string) {
    s != "" && IsDigit(s[0])
  }

  lemma SplitEqual(x: string, r: string, y: string, q: string)
    requires x + r == y + q && |x| == |y|
    ensures x == y && r == q
  {
    assert x == (x + r)[..|x|] && y == (y + q)[..|y|];
    assert r == (x + r)[|x|..] && q == (y + q)[|y|..];
  }

  lemma ShorterDigits(x: string, r: string, y: string, q: string)
    requires x + r == y + q && |x| < |y| && AllDigits(y)
    ensures StartsWithDigit(r)
  {
    assert (x + r)[|x|] == y[|x|];
  }

  /** A number in front of text that does not go on with a digit can be told apart from it. */
  lemma DigitsThenRest(a: nat, r: string, b: nat, q: string)
    requires Digits(a) + r == Digits(b) + q
    requires !StartsWithDigit(r) && !StartsWithDigit(q)
    ensures a == b && r == q
  {
    var x, y := Digits(a), Digits(b);
    if |x| < |y| {
      ShorterDigits(x, r, y, q);
    } else if |y| < |x| {
      ShorterDigits(y, q, x, r);
    } else {
      SplitEqual(x, r, y, q);
      DigitsInjective(a, b);
    }
  }

  lemma Signed(digits: string, r: string)
    ensures ("-" + digits + r)[0] == '-' && ("-" + digits + r)[1..] == digits + r
  {
  }

  lemma Unsigned(a: nat, r: string)
    ensures (Digits(a) + r)[0] != '-'
  {
    assert IsDigit(Digits(a)[0]);
  }

  lemma TextThenRest(a: int, r: string, b: int, q: string)
    requires Text(a) + r == Text(b) + q
    requires !StartsWithDigit(r) && !StartsWithDigit(q)
    ensures a == b && r == q
  {
    if a < 0 && b < 0 {
      Signed(Digits(-a), r);
      Signed(Digits(-b), q);
      DigitsThenRest(-a, r, -b, q);
    } else if a < 0 {
      Signed(Digits(-a), r);
    } else if b < 0 {
      Signed(Digits(-b), q);
    } else {
      DigitsThenRest(a, r, b, q);
    }
  }

  const MAX_INT64 := 0x7fff_ffff_ffff_ffff

  function Pow10(k: nat): nat {
    if k == 0 then 1 else 10 * Pow10(k - 1)
  }

  lemma {:induction false} DigitsLength(n: nat, k: nat)
    requires k > 0 && n < Pow10(k)
    ensures |Digits(n)| <= k
  {
    if n >= 10 {
      DigitsLength(n / 10, k - 1);
    }
  }

  /** The text of a 64-bit number that is not negative has at most 19 characters. */
  lemma TextLength(i: int)
    requires 0 <= i <= MAX_INT64
    ensures |Text(i)| <= 19
  {
    assert Pow10(10) == 10_000_000_000;
    assert Pow10(19) == 10_000_000_000_000_000_000;
    DigitsLength(i, 19);
  }

  /** strconv.Atoi: an optional sign and at least one digit, within 64 bits. */
  function Atoi(s: string): Option<int> {
    var signed := s != "" && (s[0] == '-' || s[0] == '+');
    var digits := if signed then s[1..] else s;
    if digits == "" || !AllDigits(digits) then None
    else
      var size: int := Value(digits);
      var v := if signed && s[0] == '-' then -size else size;
      if -MAX_INT64 - 1 <= v <= MAX_INT64 then Some(v) else None
  }

  /** Reading back a written number gives the number. */
  lemma AtoiOfText(i: int)
    requires -MAX_INT64 - 1 <= i <= MAX_INT64
    ensures Atoi(Text(i)) == Some(i)
  {
    if i < 0 {
      Signed(Digits(-i), "");
      ValueOfDigits(-i);
      assert Digits(-i) + "" == Digits(-i);
    } else {
      Unsigned(i, "");
      ValueOfDigits(i);
      assert IsDigit(Digits(i)[0]);
    }
  }
}
