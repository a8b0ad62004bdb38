/** Rendering integers the way JavaScript template literals do. */
module Text {

  function DigitChar(d: nat): (c: char)
    requires d < 10
    ensures '0' <= c <= '9'
    ensures c as int - '0' as int == d
  {
    "0123456789"[d]
  }

  /** Decimal digits of a natural number, without leading zeros. */
  function NatToString(n: nat): (s: string)
    ensures |s| >= 1
    ensures forall i :: 0 <= i < |s| ==> '0' <= s[i] <= '9'
    ensures |s| > 1 ==> s[0] != '0'
    decreases n
  {
    if n < 10 then [DigitChar(n)] else NatToString(n / 10) + [DigitChar(n % 10)]
  }

  /** `${i}` for an integer `i`. */
  function IntToString(i: int): (s: string)
    ensures |s| >= 1
  {
    if i < 0 then "-" + NatToString(-i) else NatToString(i)
  }

  predicate AllDigits(s: string) {
    forall i :: 0 <= i < |s| ==> '0' <= s[i] <= '9'
  }

  /** The value of a string of decimal digits, read left to right. */
  function DigitsValue(s: string): (v: nat)
    requires AllDigits(s)
  {
    if s == [] then 0 else DigitsValue(s[..|s| - 1]) * 10 + (s[|s| - 1] as int - '0' as int)
  }

  /** Reading the digits back gives the number. */
  lemma {:induction false} NatToStringRoundTrip(n: nat)
    ensures DigitsValue(NatToString(n)) == n
    decreases n
  {
    var s := NatToString(n);
    if n >= 10 {
      var t := NatToString(n / 10);
      NatToStringRoundTrip(n / 10);
      assert s == t + [DigitChar(n % 10)];
      assert s[..|s| - 1] == t;
      assert DigitsValue(s) == DigitsValue(t) * 10 + n % 10;
      assert (n / 10) * 10 + n % 10 == n;
    }
  }

  /** Exactly the numbers below ten take one digit. */
  lemma OneDigitIffSmall(n: nat)
    ensures |NatToString(n)| == 1 <==> n < 10
  {
    if n >= 10 {
      assert |NatToString(n)| == |NatToString(n / 10)| + 1;
    }
  }
}
