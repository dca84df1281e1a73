/** Decimal rendering of non-negative integers, as a JavaScript template
    literal (`${n}`) renders an integral number. Used for electron ids. */
module Decimal {

  /** The ASCII digit for d. */
  function DigitChar(d: nat): (c: char)
    requires d < 10
    ensures '0' <= c <= '9'
    ensures c as int - '0' as int == d
  {
    ('0' as int + d) as char
  }

  /** The shortest decimal numeral of n, most significant digit first. */
  function NatToString(n: nat): (s: string)
    ensures 1 <= |s|
    ensures forall i :: 0 <= i < |s| ==> '0' <= s[i] <= '9'
    ensures n < 10 <==> |s| == 1
    decreases n
  {
    if n < 10 then [DigitChar(n)] else NatToString(n / 10) + [DigitChar(n % 10)]
  }

  /** Different numbers render to different numerals. */
  lemma {:induction false} NatToStringInjective(m: nat, n: nat)
    requires NatToString(m) == NatToString(n)
    ensures m == n
    decreases n
  {
    var s := NatToString(m);
    if m >= 10 && n >= 10 {
      assert s[|s| - 1] == DigitChar(m % 10) == DigitChar(n % 10);
      assert s[..|s| - 1] == NatToString(m / 10) == NatToString(n / 10);
      NatToStringInjective(m / 10, n / 10);
    }
  }
}
