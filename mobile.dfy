/** Indian mobile numbers as the login and transfer pages handle them
    (src/pages/Login.jsx, src/pages/SendMoney.jsx). */
module Mobile {
  import opened Text

  const CountryCode := "+91"

  /** `m.startsWith("+91") ? m : "+91" + m` */
  function WithCountryCode(m: string): (r: string)
    ensures StartsWith(r, CountryCode)
    ensures StartsWith(m, CountryCode) ==> r == m
    ensures !StartsWith(m, CountryCode) ==> r == CountryCode + m
  {
    if StartsWith(m, CountryCode) then m else CountryCode + m
  }

  /** `/^\+91[0-9]{10}$/.test(num)` */
  predicate ValidMobile(num: string) {
    |num| == 13 && StartsWith(num, CountryCode) && AllDigits(num[3..])
  }

  lemma WithCountryCodeIdempotent(m: string)
    ensures WithCountryCode(WithCountryCode(m)) == WithCountryCode(m)
  {
  }

  /** A digits-only entry never carries the `+`, so it always gets the prefix. */
  lemma {:induction false} DigitsGetPrefix(m: string)
    requires AllDigits(m)
    ensures WithCountryCode(m) == CountryCode + m
  {
    assert !IsDigit(CountryCode[0]);
  }

  /** For a digits-only entry the login regex accepts exactly the ten-digit numbers, and
      this is the same as the transfer page's length-13 check on the prefixed number. */
  lemma {:induction false} DigitEntryAccepted(m: string)
    requires AllDigits(m)
    ensures ValidMobile(WithCountryCode(m)) <==> |m| == 10
    ensures ValidMobile(WithCountryCode(m)) <==> |WithCountryCode(m)| == 13
  {
    DigitsGetPrefix(m);
    var r := CountryCode + m;
    assert r[3..] == m;
  }

  /** What the login page's input holds after any keystrokes: the digits typed. */
  lemma TypedEntryAccepted(input: string)
    ensures ValidMobile(WithCountryCode(KeepDigits(input))) <==> |KeepDigits(input)| == 10
  {
    KeepDigitsSpec(input);
    DigitEntryAccepted(KeepDigits(input));
  }
}
