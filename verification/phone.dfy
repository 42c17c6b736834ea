/** Normalisation of a local phone number to its international form
    (`cleanPhoneNumber` of the PIN-registration server actions). */
module Phone {
  import opened Text

  /** Kenya's country calling code, the prefix every cleaned number carries. */
  const CountryCode: string := "254"

  /** `phone.replace(/\D/g, '')`: keeps the ASCII digits, in order. */
  function StripNonDigits(s: string): (r: string)
    ensures AllDigits(r)
    ensures |r| <= |s|
    ensures AllDigits(s) ==> r == s
  {
    if s == [] then []
    else if IsDigit(s[0]) then [s[0]] + StripNonDigits(s[1..])
    else StripNonDigits(s[1..])
  }

  /** Exactly the digit characters of the input survive. */
  lemma {:induction false} StripNonDigitsKeepsDigits(s: string, c: char)
    ensures c in StripNonDigits(s) <==> c in s && IsDigit(c)
    decreases |s|
  {
    if s != [] {
      StripNonDigitsKeepsDigits(s[1..], c);
      assert c in s <==> c == s[0] || c in s[1..];
    }
  }

  /** Stripping works piece by piece, so the digits keep their relative
      order: stripping a concatenation concatenates the stripped parts. */
  lemma {:induction false} StripNonDigitsAppend(a: string, b: string)
    ensures StripNonDigits(a + b) == StripNonDigits(a) + StripNonDigits(b)
    decreases |a|
  {
    if a != [] {
      assert (a + b)[0] == a[0];
      assert (a + b)[1..] == a[1..] + b;
      StripNonDigitsAppend(a[1..], b);
    } else {
      assert a + b == b;
    }
  }

  /** `cleanPhoneNumber(phone)`: strip non-digits, replace a leading '0' by
      the country code, and prepend the country code when it is still
      missing. */
  function CleanPhoneNumber(phone: string): (r: string)
    ensures AllDigits(r)
    ensures StartsWith(r, CountryCode)
  {
    var digits := StripNonDigits(phone);
    var local := if |digits| > 0 && digits[0] == '0' then CountryCode + digits[1..] else digits;
    if StartsWith(local, CountryCode) then local else CountryCode + local
  }

  /** The three ways a number is cleaned, by the shape of its digits. */
  lemma CleanPhoneNumberCases(phone: string)
    ensures var d := StripNonDigits(phone);
      && (|d| > 0 && d[0] == '0' ==> CleanPhoneNumber(phone) == CountryCode + d[1..])
      && (StartsWith(d, CountryCode) ==> CleanPhoneNumber(phone) == d)
      && (!StartsWith(d, CountryCode) && !(|d| > 0 && d[0] == '0') ==> CleanPhoneNumber(phone) == CountryCode + d)
  {
  }

  /** Cleaning an already clean number changes nothing. */
  lemma CleanPhoneNumberIdempotent(phone: string)
    ensures CleanPhoneNumber(CleanPhoneNumber(phone)) == CleanPhoneNumber(phone)
  {
    var r := CleanPhoneNumber(phone);
    assert StripNonDigits(r) == r;
    assert r[0] == '2';
  }

  /** A local number, written with its leading '0', trades that '0' for
      the country code. */
  lemma CleanLocalNumber(d: string)
    requires AllDigits(d) && |d| > 0 && d[0] == '0'
    ensures CleanPhoneNumber(d) == CountryCode + d[1..]
  {
    assert StripNonDigits(d) == d;
  }

  /** The usual local form "07..." becomes "2547...". */
  lemma CleanLocalMobileNumber(d: string)
    requires d == "0712345678"
    ensures CleanPhoneNumber(d) == "254712345678"
  {
    assert forall i | 0 <= i < |d| :: IsDigit(d[i]);
    CleanLocalNumber(d);
    assert d[1..] == "712345678";
  }
}
