/** Decimal notation of integers, as `%d` prints them, and why distinct integers print differently. */
module Decimals {
  function Digit(d: int): char
    requires 0 <= d < 10
  {
    "0123456789"[d]
  }

  function Digits(n: nat): string {
    if n < 10 then [Digit(n)] else Digits(n / 10) + [Digit(n % 10)]
  }

  function Decimal(n: int): string {
    if n < 0 then "-" + Digits(-n) else Digits(n)
  }

  lemma {:induction false} DigitInjective(a: int, b: int)
    requires 0 <= a < 10 && 0 <= b < 10 && Digit(a) == Digit(b)
    ensures a == b
  {
  }

  lemma {:induction false} DigitsInjective(m: nat, n: nat)
    requires Digits(m) == Digits(n)
    ensures m == n
  {
    var s, t := Digits(m), Digits(n);
    DigitsLength(m);
    DigitsLength(n);
    assert s[|s| - 1] == t[|t| - 1];
    DigitInjective(m % 10, n % 10);
    if m >= 10 && n >= 10 {
      assert s[..|s| - 1] == Digits(m / 10) && t[..|t| - 1] == Digits(n / 10);
      DigitsInjective(m / 10, n / 10);
    }
  }

  lemma {:induction false} DigitsLength(n: nat)
    ensures |Digits(n)| >= 1 && (n >= 10 <==> |Digits(n)| >= 2)
    ensures Digits(n)[|Digits(n)| - 1] == Digit(n % 10)
    ensures Digits(n)[0] != '-'
  {
    if n >= 10 {
      DigitsLength(n / 10);
    }
  }

  lemma {:induction false} DecimalInjective(m: int, n: int)
    ensures Decimal(m) == Decimal(n) ==> m == n
  {
    DigitsLength(if m < 0 then -m else m);
    DigitsLength(if n < 0 then -n else n);
    if (m < 0) != (n < 0) {
      assert Decimal(m)[0] != Decimal(n)[0];
    } else if Decimal(m) == Decimal(n) {
      assert m < 0 ==> Decimal(m)[1..] == Digits(-m) && Decimal(n)[1..] == Digits(-n);
      DigitsInjective(if m < 0 then -m else m, if n < 0 then -n else n);
    }
  }

  // What a decimal numeral stands for, digit by digit.
  function Number(s: string): int {
    if s == "" then 0 else Number(s[..|s| - 1]) * 10 + (s[|s| - 1] as int - '0' as int)
  }

  lemma {:induction false} DigitsRead(n: nat)
    ensures Number(Digits(n)) == n && forall c :: c in Digits(n) ==> '0' <= c <= '9'
  {
    DigitReads(n % 10);
    if n < 10 {
      assert [Digit(n)][..0] == "";
    } else {
      DigitsRead(n / 10);
      assert (Digits(n / 10) + [Digit(n % 10)])[..|Digits(n / 10)|] == Digits(n / 10);
    }
  }

  lemma {:induction false} DigitReads(d: int)
    requires 0 <= d < 10
    ensures Digit(d) as int == '0' as int + d
  {
  }

  /** A numeral is its sign and digits that stand for the number, without a leading zero. */
  lemma {:induction false} DecimalReads(n: int)
    ensures if n < 0 then Decimal(n)[0] == '-' && Number(Decimal(n)[1..]) == -n else Number(Decimal(n)) == n
    ensures n > 9 ==> Decimal(n)[0] != '0'
  {
    DigitsRead(if n < 0 then -n else n);
    if n > 9 {
      NoLeadingZero(n);
    }
  }

  lemma {:induction false} NoLeadingZero(n: nat)
    requires n > 0
    ensures Digits(n)[0] != '0'
  {
    if n >= 10 {
      NoLeadingZero(n / 10);
      DigitsLength(n / 10);
    } else {
      DigitReads(n);
    }
  }
}
