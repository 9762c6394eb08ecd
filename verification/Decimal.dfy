/** strconv.Itoa and strconv.Atoi on 64-bit integers. */
module Decimal {
  import opened Text

  const MAX_INT64 := 0x7FFF_FFFF_FFFF_FFFF
  const MIN_INT64 := -0x8000_0000_0000_0000

  function Digit(d: nat): char
    requires d < 10
  {
    "0123456789"[d]
  }

  predicate IsDigit(c: char) { '0' <= c <= '9' }

  function DigitValue(c: char): (d: nat)
    requires IsDigit(c)
    ensures d < 10
  {
    c as int - '0' as int
  }

  function Natural(n: nat): (s: string)
    ensures s != "" && forall i :: 0 <= i < |s| ==> IsDigit(s[i])
  {
    if n < 10 then [Digit(n)] else Natural(n / 10) + [Digit(n % 10)]
  }

  /* strconv.Itoa, and fmt's %d. */
  function Itoa(n: int): (s: string)
    ensures s != "" && forall c | c in s :: IsDigit(c) || c == '-'
  {
    if n < 0 then "-" + Natural(-n) else Natural(n)
  }

  predicate AllDigits(s: string) {
    forall i :: 0 <= i < |s| ==> IsDigit(s[i])
  }

  function NaturalValue(s: string): nat
    requires AllDigits(s)
  {
    if s == "" then 0 else 10 * NaturalValue(s[..|s| - 1]) + DigitValue(s[|s| - 1])
  }

  /* An optional sign, then digits. */
  function Integer(s: string): Option<int> {
    var signed := s != "" && (s[0] == '-' || s[0] == '+');
    var digits := if signed then s[1..] else s;
    if digits == "" || !AllDigits(digits) then None
    else
      var magnitude: int := NaturalValue(digits);
      Some(if signed && s[0] == '-' then -magnitude else magnitude)
  }

  /* strconv.ParseInt(s, 10, 64): an integer in range. */
  function Atoi(s: string): Option<int> {
    var n := Integer(s);
    if n.Some? && MIN_INT64 <= n.value <= MAX_INT64 then n else None
  }

  lemma {:induction false} NaturalValueOfNatural(n: nat)
    ensures NaturalValue(Natural(n)) == n
  {
    if n < 10 {
      assert Natural(n)[..0] == "";
    } else {
      NaturalValueOfNatural(n / 10);
      assert Natural(n)[..|Natural(n)| - 1] == Natural(n / 10);
    }
  }

  lemma IntegerOfItoa(n: int)
    ensures Integer(Itoa(n)) == Some(n)
  {
    var digits := Natural(if n < 0 then -n else n);
    NaturalValueOfNatural(if n < 0 then -n else n);
    assert ("-" + digits)[1..] == digits;
    assert IsDigit(digits[0]);
  }

  lemma AtoiOfItoa(n: int)
    requires MIN_INT64 <= n <= MAX_INT64
    ensures Atoi(Itoa(n)) == Some(n)
  {
    IntegerOfItoa(n);
  }

  lemma ItoaInjective(a: int, b: int)
    requires Itoa(a) == Itoa(b)
    ensures a == b
  {
    IntegerOfItoa(a);
    IntegerOfItoa(b);
  }
}
