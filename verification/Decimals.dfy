/** Numbers as text: decimal with a sign, and fixed-width hexadecimal. */
module Decimals {

  function Digit(d: nat): char
    requires d < 10
  {
    '0' + d as char
  }

  function DigitValue(c: char): nat
    requires '0' <= c <= '9'
  {
    c as int - '0' as int
  }

  predicate AllDigits(s: string) {
    forall i :: 0 <= i < |s| ==> '0' <= s[i] <= '9'
  }

  function Digits(n: nat): (s: string)
    ensures AllDigits(s) && s != []
  {
    if n < 10 then [Digit(n)] else Digits(n / 10) + [Digit(n % 10)]
  }

  function Value(s: string): nat
    requires AllDigits(s)
  {
    if s == [] then 0 else Value(s[..|s| - 1]) * 10 + DigitValue(s[|s| - 1])
  }

  lemma {:induction false} ValueOfDigits(n: nat)
    ensures Value(Digits(n)) == n
  {
    if n < 10 {
      assert Digits(n)[..0] == [];
    } else {
      ValueOfDigits(n / 10);
      assert Digits(n)[..|Digits(n)| - 1] == Digits(n / 10);
    }
  }

  /** The %d verb: digits, after a minus sign when negative. */
  function Decimal(n: int): (s: string)
    ensures forall c :: c in s ==> c == '-' || '0' <= c <= '9'
  {
    if n < 0 then "-" + Digits(-n) else Digits(n)
  }

  /** Reads back what `Decimal` writes; any other text gives some number. */
  function ParseDecimal(s: string): int {
    if s != [] && s[0] == '-' then (if AllDigits(s[1..]) then 0 - Value(s[1..]) else 0)
    else if AllDigits(s) then Value(s) else 0
  }

  lemma ParseOfDecimal(n: int)
    ensures ParseDecimal(Decimal(n)) == n
  {
    if n < 0 {
      ValueOfDigits(-n);
      assert Decimal(n)[1..] == Digits(-n);
    } else {
      ValueOfDigits(n);
      assert Digits(n)[0] != '-';
    }
  }

  function HexDigit(d: nat): (c: char)
    requires d < 16
    ensures c != '/'
  {
    if d < 10 then '0' + d as char else 'a' + (d - 10) as char
  }

  /** The low `n` hexadecimal digits, most significant first. */
  function Hex(x: nat, n: nat): (s: string)
    ensures |s| == n && '/' !in s
  {
    if n == 0 then [] else Hex(x / 16, n - 1) + [HexDigit(x % 16)]
  }

  function Power16(n: nat): nat {
    if n == 0 then 1 else 16 * Power16(n - 1)
  }

  lemma {:induction false} HexInjective(x: nat, y: nat, n: nat)
    requires x < Power16(n) && y < Power16(n) && Hex(x, n) == Hex(y, n)
    ensures x == y
  {
    if n > 0 {
      var p, q := Hex(x / 16, n - 1), Hex(y / 16, n - 1);
      assert Hex(x, n)[..n - 1] == p && Hex(y, n)[..n - 1] == q;
      assert Hex(x, n)[n - 1] == HexDigit(x % 16) && Hex(y, n)[n - 1] == HexDigit(y % 16);
      HexInjective(x / 16, y / 16, n - 1);
    }
  }
}
