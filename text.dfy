/** Decimal rendering of non-negative integers, as Rust's `format!` writes
    them into obstacle ids (`p{n}`, `b{n}`) and sprite frame names. */
module Text {

  predicate IsDigit(c: char) { '0' <= c <= '9' }

  predicate AllDigits(s: string) { forall i :: 0 <= i < |s| ==> IsDigit(s[i]) }

  function DigitChar(d: nat): (c: char)
    requires d < 10
    ensures IsDigit(c)
  {
    ('0' as int + d) as char
  }

  function DigitValue(c: char): nat
    requires IsDigit(c)
  {
    c as int - '0' as int
  }

  /** `n` in decimal, without leading zeros (Rust's `{}` for an unsigned value). */
  function NatToString(n: nat): (s: string)
    ensures 1 <= |s|
    ensures AllDigits(s)
    decreases n
  {
    if n < 10 then [DigitChar(n)] else NatToString(n / 10) + [DigitChar(n % 10)]
  }

  /** The number a string of decimal digits denotes: the partner of NatToString. */
  function DigitsValue(s: string): nat
    requires AllDigits(s)
  {
    if s == [] then 0 else 10 * DigitsValue(s[..|s| - 1]) + DigitValue(s[|s| - 1])
  }

  lemma {:induction false} NatToStringRoundTrip(n: nat)
    ensures DigitsValue(NatToString(n)) == n
    decreases n
  {
    if n >= 10 {
      var s := NatToString(n);
      assert s[..|s| - 1] == NatToString(n / 10);
      NatToStringRoundTrip(n / 10);
    }
  }

  /** Different numbers render differently, so counter-based ids never collide. */
  lemma NatToStringInjective(a: nat, b: nat)
    ensures NatToString(a) == NatToString(b) ==> a == b
  {
    NatToStringRoundTrip(a);
    NatToStringRoundTrip(b);
  }

  /** Numbers below 1000 have at most three digits. */
  lemma {:induction false} ThreeDigits(n: nat)
    ensures n < 1000 ==> |NatToString(n)| <= 3
  {
    if 100 <= n < 1000 {
      assert |NatToString(n / 10)| == 2 by { assert 10 <= n / 10 < 100; }
    }
  }

  /** `n` zero-padded to three digits (Rust's `{:03}`): exactly three digits below 1000,
      otherwise the plain rendering. */
  function ZeroPad3(n: nat): (s: string)
    ensures |s| == if |NatToString(n)| >= 3 then |NatToString(n)| else 3
    ensures n < 1000 ==> |s| == 3
    ensures AllDigits(s)
    ensures DigitsValue(s) == n
  {
    var d := NatToString(n);
    NatToStringRoundTrip(n);
    ThreeDigits(n);
    if |d| >= 3 then d
    else
      var s := seq(3 - |d|, _ => '0') + d;
      LeadingZeros(3 - |d|, d);
      s
  }

  lemma {:induction false} LeadingZeros(k: nat, d: string)
    requires AllDigits(d)
    ensures AllDigits(seq(k, _ => '0') + d)
    ensures DigitsValue(seq(k, _ => '0') + d) == DigitsValue(d)
    decreases |d|
  {
    var z := seq(k, _ => '0');
    if d == [] {
      assert z + d == z;
      AllZeros(k);
    } else {
      var s := z + d;
      assert s[..|s| - 1] == z + d[..|d| - 1];
      LeadingZeros(k, d[..|d| - 1]);
    }
  }

  lemma {:induction false} AllZeros(k: nat)
    ensures AllDigits(seq(k, _ => '0'))
    ensures DigitsValue(seq(k, _ => '0')) == 0
  {
    if k > 0 {
      var z := seq(k, _ => '0');
      assert z[..k - 1] == seq(k - 1, _ => '0');
      AllZeros(k - 1);
    }
  }
}
