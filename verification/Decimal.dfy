/** Integers as text: `std::to_string` and `strtoll` in base ten. */
module Decimal {

  const INT64_MIN := -0x8000_0000_0000_0000
  const INT64_MAX := 0x7FFF_FFFF_FFFF_FFFF

  predicate IsDigit(c: char) {
    '0' <= c <= '9'
  }

  function DigitOf(c: char): (d: nat)
    requires IsDigit(c)
    ensures d < 10
  {
    c as int - '0' as int
  }

  function Digit(d: nat): (c: char)
    requires d < 10
    ensures IsDigit(c) && DigitOf(c) == d
  {
    ('0' as int + d) as char
  }

  function Natural(n: nat): (s: string)
    ensures s != [] && forall c :: c in s ==> IsDigit(c)
  {
    if n < 10 then [Digit(n)] else Natural(n / 10) + [Digit(n % 10)]
  }

  function Print(n: int): string {
    if n < 0 then ['-'] + Natural(-n) else Natural(n)
  }

  // ---------- strtoll ----------

  predicate IsSpace(c: char) {
    c == ' ' || '\t' <= c <= '\r'
  }

  function SkipSpace(s: string): string {
    if s != [] && IsSpace(s[0]) then SkipSpace(s[1..]) else s
  }

  /** The leading digits, on top of what has been read so far. */
  function Digits(s: string, read: nat): nat {
    if s == [] || !IsDigit(s[0]) then read else Digits(s[1..], read * 10 + DigitOf(s[0]))
  }

  function Clamp(n: int): (r: int)
    ensures INT64_MIN <= r <= INT64_MAX
  {
    if n < INT64_MIN then INT64_MIN else if n > INT64_MAX then INT64_MAX else n
  }

  /** Anything after the number is ignored, no number at all reads as 0. */
  function Strtoll(text: string): (r: int)
    ensures INT64_MIN <= r <= INT64_MAX
  {
    var s := SkipSpace(text);
    if s != [] && s[0] == '-' then Clamp(0 - Digits(s[1..], 0))
    else if s != [] && s[0] == '+' then Clamp(Digits(s[1..], 0))
    else Clamp(Digits(s, 0))
  }

  // ---------- reading back what was printed ----------

  lemma {:induction false} DigitsOneMore(s: string, c: char, read: nat)
    requires IsDigit(c) && forall d :: d in s ==> IsDigit(d)
    ensures Digits(s + [c], read) == Digits(s, read) * 10 + DigitOf(c)
    decreases |s|
  {
    if s == [] {
      assert [c][1..] == [];
    } else {
      assert (s + [c])[1..] == s[1..] + [c];
      DigitsOneMore(s[1..], c, read * 10 + DigitOf(s[0]));
    }
  }

  lemma {:induction false} DigitsOfNatural(n: nat)
    ensures Digits(Natural(n), 0) == n
  {
    if n < 10 {
      assert [Digit(n)][1..] == [];
    } else {
      DigitsOfNatural(n / 10);
      DigitsOneMore(Natural(n / 10), Digit(n % 10), 0);
    }
  }

  lemma ReadBack(n: int)
    requires INT64_MIN <= n <= INT64_MAX
    ensures Strtoll(Print(n)) == n
  {
    if n < 0 {
      DigitsOfNatural(-n);
      assert Print(n)[1..] == Natural(-n);
    } else {
      DigitsOfNatural(n);
      assert Natural(n)[0] in Natural(n);
    }
  }

  lemma NaturalInjective(m: nat, n: nat)
    requires Natural(m) == Natural(n)
    ensures m == n
  {
    DigitsOfNatural(m);
    DigitsOfNatural(n);
  }
}
