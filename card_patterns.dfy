/** The three regular expressions of the payment step's rules
    (src/components/CreditCardForm.tsx), each written out as a predicate on
    the characters of the string. `\d` and `[0-9]` are the ASCII digits, and
    `^...$` anchors each pattern to the whole input. */
module CardPatterns {

  predicate IsDigit(c: char)
  {
    '0' <= c <= '9'
  }

  predicate AllDigits(s: string)
  {
    forall i :: 0 <= i < |s| ==> IsDigit(s[i])
  }

  /** `/^\d{16}$/` */
  predicate IsCardNumber(s: string)
  {
    |s| == 16 && AllDigits(s)
  }

  /** `/^(0[1-9]|1[0-2])\/([0-9]{2})$/` */
  predicate IsExpiry(s: string)
  {
    && |s| == 5
    && ((s[0] == '0' && '1' <= s[1] <= '9') || (s[0] == '1' && '0' <= s[1] <= '2'))
    && s[2] == '/'
    && IsDigit(s[3])
    && IsDigit(s[4])
  }

  /** `/^\d{3,4}$/` */
  predicate IsCvv(s: string)
  {
    3 <= |s| <= 4 && AllDigits(s)
  }

  /** The decimal digit character of `d`. */
  function DigitChar(d: int): (c: char)
    requires 0 <= d <= 9
    ensures IsDigit(c)
  {
    ('0' as int + d) as char
  }

  /** The two-digit, zero-padded decimal rendering of `n`. */
  function TwoDigits(n: int): (s: string)
    requires 0 <= n <= 99
    ensures |s| == 2 && AllDigits(s)
  {
    [DigitChar(n / 10), DigitChar(n % 10)]
  }

  function DigitValue(c: char): int
  {
    c as int - '0' as int
  }

  /** Reading two digits back gives the number they render. */
  lemma TwoDigitsOfDigits(a: char, b: char)
    requires IsDigit(a) && IsDigit(b)
    ensures 0 <= 10 * DigitValue(a) + DigitValue(b) <= 99
    ensures TwoDigits(10 * DigitValue(a) + DigitValue(b)) == [a, b]
  {
    var n := 10 * DigitValue(a) + DigitValue(b);
    assert n / 10 == DigitValue(a) && n % 10 == DigitValue(b);
  }

  /** The expiry pattern accepts exactly "MM/YY" with MM a month from 01 to 12
      and YY any two digits; no date is compared. */
  lemma ExpiryIsMonthAndYear(s: string)
    ensures IsExpiry(s) <==>
      exists month, year :: 1 <= month <= 12 && 0 <= year <= 99 && s == TwoDigits(month) + "/" + TwoDigits(year)
  {
    if IsExpiry(s) {
      var month := 10 * DigitValue(s[0]) + DigitValue(s[1]);
      var year := 10 * DigitValue(s[3]) + DigitValue(s[4]);
      TwoDigitsOfDigits(s[0], s[1]);
      TwoDigitsOfDigits(s[3], s[4]);
      assert s == [s[0], s[1]] + "/" + [s[3], s[4]];
      assert 1 <= month <= 12 && 0 <= year <= 99 && s == TwoDigits(month) + "/" + TwoDigits(year);
    }
    if exists month, year :: 1 <= month <= 12 && 0 <= year <= 99 && s == TwoDigits(month) + "/" + TwoDigits(year) {
      var month, year :| 1 <= month <= 12 && 0 <= year <= 99 && s == TwoDigits(month) + "/" + TwoDigits(year);
      assert s[0] == DigitChar(month / 10) && s[1] == DigitChar(month % 10);
      assert s[2] == '/' && s[3] == TwoDigits(year)[0] && s[4] == TwoDigits(year)[1];
    }
  }

  /** Examples from the form: the card number placeholder, which has spaces,
      is rejected; the same digits without spaces are accepted; month 13 is
      rejected; CVVs of 3 and 4 digits pass and of 2 or 5 do not; every pattern
      rejects the empty string. */
  lemma PatternExamples()
    ensures !IsCardNumber("1234 5678 9012 3456")
    ensures IsCardNumber("1234567890123456")
    ensures !IsExpiry("13/29") && !IsExpiry("00/29") && IsExpiry("12/29") && IsExpiry("01/00")
    ensures IsCvv("123") && IsCvv("1234") && !IsCvv("12") && !IsCvv("12345") && !IsCvv("12a")
    ensures !IsCardNumber("") && !IsExpiry("") && !IsCvv("")
  {
    assert !IsDigit("12a"[2]);
  }
}
