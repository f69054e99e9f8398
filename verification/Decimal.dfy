/** strconv.Itoa and strconv.Atoi. */
module Decimal {
  import opened Prelude

  const MAX_INT := 0x7FFF_FFFF_FFFF_FFFF

  function Digit(d: nat): char
    requires d < 10
  {
    '0' + (d as char)
  }

  function ItoaNat(n: nat): (s: string)
    ensures s != []
  {
    if n < 10 then [Digit(n)] else ItoaNat(n / 10) + [Digit(n % 10)]
  }

  function Itoa(n: int): string {
    if n < 0 then "-" + ItoaNat(-n) else ItoaNat(n)
  }

  predicate IsDigit(c: char) { '0' <= c <= '9' }

  /** The value of a string of digits. */
  function Value(s: string): nat
    requires forall i :: 0 <= i < |s| ==> IsDigit(s[i])
  {
    if s == [] then 0
    else
      var last := s[|s| - 1];
      assert IsDigit(last);
      Value(s[..|s| - 1]) * 10 + (last as int - '0' as int)
  }

  predicate AllDigits(s: string) {
    s != [] && forall i :: 0 <= i < |s| ==> IsDigit(s[i])
  }

  /** Atoi: an optional sign, then digits, within the range of int. */
  function Atoi(s: string): Option<int> {
    if s == [] then None
    else
      var digits := if s[0] == '-' || s[0] == '+' then s[1..] else s;
      if !AllDigits(digits) then None
      else
        var n: int := Value(digits);
        var v := if s[0] == '-' then 0 - n else n;
        if -MAX_INT - 1 <= v <= MAX_INT then Some(v) else None
  }

  lemma {:induction false} ItoaNatValue(n: nat)
    ensures AllDigits(ItoaNat(n)) && Value(ItoaNat(n)) == n
  {
    if n < 10 {
      assert ItoaNat(n)[..0] == [];
    } else {
      ItoaNatValue(n / 10);
      assert ItoaNat(n)[..|ItoaNat(n)| - 1] == ItoaNat(n / 10);
    }
  }

  /** Parsing undoes printing, so printing is injective. */
  lemma AtoiItoa(n: int)
    requires -MAX_INT - 1 <= n <= MAX_INT
    ensures Atoi(Itoa(n)) == Some(n)
  {
    ItoaNatValue(if n < 0 then -n else n);
    assert n < 0 ==> Itoa(n)[1..] == ItoaNat(-n);
    assert n >= 0 ==> IsDigit(Itoa(n)[0]);
  }
}
