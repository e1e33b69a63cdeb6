/**
 * Decimal rendering and parsing of Go `int` values: `strconv.Itoa`, used by every
 * handler to turn a numeric id into a filter value or a tracked resource id, and
 * `strconv.Atoi`, the parse that turns the tracked id back into a number.
 */
module Decimal {
  import opened Wrappers

  /** Go's `int` on the 64-bit platforms the provider is built for. */
  type GoInt = x: int | -0x8000_0000_0000_0000 <= x <= 0x7fff_ffff_ffff_ffff

  predicate IsGoInt(x: int) {
    -0x8000_0000_0000_0000 <= x <= 0x7fff_ffff_ffff_ffff
  }

  predicate IsDigit(c: char) {
    '0' <= c <= '9'
  }

  predicate AllDigits(s: string) {
    forall i :: 0 <= i < |s| ==> IsDigit(s[i])
  }

  function DigitValue(c: char): (d: nat)
    requires IsDigit(c)
    ensures d < 10
  {
    c as int - '0' as int
  }

  function DigitChar(d: nat): (c: char)
    requires d < 10
    ensures IsDigit(c) && DigitValue(c) == d
  {
    (d + '0' as int) as char
  }

  /** The shortest decimal spelling of `n`: no sign, no leading zero except for 0 itself. */
  function NatDigits(n: nat): string
    decreases n
  {
    if n < 10 then [DigitChar(n)] else NatDigits(n / 10) + [DigitChar(n % 10)]
  }

  /** The value of a string of decimal digits, most significant first. */
  function DigitsValue(s: string): nat
    requires AllDigits(s)
    decreases |s|
  {
    if s == [] then 0 else DigitsValue(s[..|s| - 1]) * 10 + DigitValue(s[|s| - 1])
  }

  /** `strconv.Itoa`: a leading '-' for negative values, then the digits of the magnitude. */
  function Itoa(n: int): string {
    if n < 0 then "-" + NatDigits(-n) else NatDigits(n)
  }

  /**
   * `strconv.Atoi`: an optional '+' or '-', then at least one decimal digit (leading
   * zeros allowed), and the value must fit a Go `int`; anything else is an error.
   */
  function Atoi(s: string): Option<GoInt> {
    if s == [] then None
    else
      var negative := s[0] == '-';
      var digits := if s[0] == '-' || s[0] == '+' then s[1..] else s;
      if digits == [] || !AllDigits(digits) then None
      else
        var magnitude: int := DigitsValue(digits);
        var v := if negative then -magnitude else magnitude;
        if IsGoInt(v) then Some(v) else None
  }

  lemma {:induction false} NatDigitsSpec(n: nat)
    ensures NatDigits(n) != [] && AllDigits(NatDigits(n))
    ensures IsDigit(NatDigits(n)[0])
    ensures DigitsValue(NatDigits(n)) == n
    decreases n
  {
    if n >= 10 {
      NatDigitsSpec(n / 10);
      var prefix := NatDigits(n / 10);
      var s := prefix + [DigitChar(n % 10)];
      assert s[..|s| - 1] == prefix;
    }
  }

  /** `Atoi` undoes `Itoa` on every Go `int`: the tracked id text always parses back to the id. */
  lemma AtoiItoa(n: int)
    requires IsGoInt(n)
    ensures Atoi(Itoa(n)) == Some(n)
  {
    if n < 0 {
      NatDigitsSpec(-n);
      var s := Itoa(n);
      assert s[1..] == NatDigits(-n);
    } else {
      NatDigitsSpec(n);
    }
  }

  /** Distinct ids never share a decimal spelling. */
  lemma ItoaInjective(a: int, b: int)
    requires IsGoInt(a) && IsGoInt(b)
    requires Itoa(a) == Itoa(b)
    ensures a == b
  {
    AtoiItoa(a);
    AtoiItoa(b);
  }

  /** Every spelling `Itoa` produces is non-empty, so a set id is never mistaken for a cleared one. */
  lemma ItoaNonEmpty(n: int)
    ensures Itoa(n) != ""
  {
    if n < 0 { } else { NatDigitsSpec(n); }
  }
}
