// Decimal numerals: printing and reading natural numbers.

module Decimal {
  predicate IsDigits(s: string) {
    s != "" && forall i :: 0 <= i < |s| ==> '0' <= s[i] <= '9'
  }

  function Digits(n: nat): (s: string)
    ensures IsDigits(s)
  {
    if n < 10 then ['0' + n as char] else Digits(n / 10) + ['0' + (n % 10) as char]
  }

  function DigitsValue(s: string): nat
    requires forall i :: 0 <= i < |s| ==> '0' <= s[i] <= '9'
  {
    if s == "" then 0 else DigitsValue(s[..|s| - 1]) * 10 + (s[|s| - 1] - '0') as nat
  }

  lemma {:induction false} DigitsRoundTrip(n: nat)
    ensures DigitsValue(Digits(n)) == n
  {
    var s := Digits(n);
    var last := ['0' + (n % 10) as char];
    if n >= 10 {
      assert s == Digits(n / 10) + last;
      assert s[..|s| - 1] == Digits(n / 10);
      DigitsRoundTrip(n / 10);
    } else {
      assert s[..|s| - 1] == "";
    }
  }
}
