/** `ValidationUtils` (src/core/utils/validation.ts): the Luhn checksum of a card
    number and the MM/YY expiry check. The current year and month, which the
    source reads from the clock, are parameters. */
module Validation {
  import opened Wrappers
  import opened Text

  /** The contribution of one digit to the Luhn sum: doubled, and reduced by 9
      when the double is above 9, if `double` is set. */
  function LuhnTerm(v: nat, double: bool): (t: nat)
    requires v <= 9
    ensures t <= 9
  {
    if double then (if 2 * v > 9 then 2 * v - 9 else 2 * v) else v
  }

  /** The Luhn sum of a digit string: every second digit counted from the right
      (second-to-last, fourth-to-last, ...) is doubled. */
  function LuhnSum(ds: string): nat
    requires AllDigits(ds)
  {
    if ds == [] then 0
    else LuhnTerm(DigitValue(ds[0]), (|ds| - 1) % 2 == 1) + LuhnSum(ds[1..])
  }

  /** What `isValidLuhn` decides: at least 13 digits once the non-digits are
      removed, and a Luhn sum that is a multiple of 10. */
  predicate LuhnValid(cardNumber: string) {
    var cleaned := Digits(cardNumber);
    |cleaned| >= 13 && LuhnSum(cleaned) % 10 == 0
  }

  /** `isValidLuhn`: strips the non-digits, then walks the digits from the last
      to the first, doubling every other one. */
  method IsValidLuhn(cardNumber: string) returns (valid: bool)
    ensures valid == LuhnValid(cardNumber)
  {
    var cleaned := Digits(cardNumber);
    if cleaned == [] || |cleaned| < 13 {
      return false;
    }
    var sum := 0;
    var shouldDouble := false;
    var i := |cleaned| - 1;
    while i >= 0
      invariant -1 <= i < |cleaned|
      invariant sum == LuhnSum(cleaned[i + 1..])
      invariant shouldDouble == ((|cleaned| - 1 - i) % 2 == 1)
    {
      assert cleaned[i..] == [cleaned[i]] + cleaned[i + 1..];
      var digit := DigitValue(cleaned[i]);
      if shouldDouble {
        digit := digit * 2;
        if digit > 9 {
          digit := digit - 9;
        }
      }
      sum := sum + digit;
      shouldDouble := !shouldDouble;
      i := i - 1;
    }
    return sum % 10 == 0;
  }

  /** Only the digits matter: the verdict on a string is the verdict on its
      digits alone, so "4242 4242 4242 4242" and "4242-4242-4242-4242" are
      judged as "4242424242424242". */
  lemma LuhnIgnoresNonDigits(cardNumber: string)
    ensures LuhnValid(cardNumber) == LuhnValid(Digits(cardNumber))
  {
    DigitsIdempotent(cardNumber);
  }

  /** Fewer than 13 digits is always invalid; in particular the empty string
      and strings with no digit at all ("abc", "xxxx-xxxx-xxxx-xxxx"). */
  lemma {:induction false} LuhnNeedsThirteenDigits(cardNumber: string)
    ensures |Digits(cardNumber)| < 13 ==> !LuhnValid(cardNumber)
    ensures (forall i :: 0 <= i < |cardNumber| ==> !IsDigit(cardNumber[i])) ==> !LuhnValid(cardNumber)
  {
    if forall i :: 0 <= i < |cardNumber| ==> !IsDigit(cardNumber[i]) {
      NoDigits(cardNumber);
    }
  }

  lemma {:induction false} NoDigits(s: string)
    requires forall i :: 0 <= i < |s| ==> !IsDigit(s[i])
    ensures Digits(s) == []
  {
    if s != [] {
      NoDigits(s[1..]);
    }
  }

  /** Replacing the digit at position `k` changes the sum by the difference of
      the two digits' terms. */
  lemma {:induction false} LuhnSumUpdate(ds: string, k: nat, c: char)
    requires AllDigits(ds) && k < |ds| && IsDigit(c)
    ensures AllDigits(ds[k := c])
    ensures LuhnSum(ds[k := c]) + LuhnTerm(DigitValue(ds[k]), (|ds| - 1 - k) % 2 == 1)
         == LuhnSum(ds) + LuhnTerm(DigitValue(c), (|ds| - 1 - k) % 2 == 1)
  {
    var ds' := ds[k := c];
    if k > 0 {
      assert ds'[1..] == ds[1..][k - 1 := c];
      LuhnSumUpdate(ds[1..], k - 1, c);
    } else {
      assert ds'[1..] == ds[1..];
    }
  }

  /** The doubling-and-reducing step sends the ten digits to ten different values. */
  lemma LuhnTermInjective(v: nat, w: nat, double: bool)
    requires v <= 9 && w <= 9 && v != w
    ensures LuhnTerm(v, double) != LuhnTerm(w, double)
  {
  }

  /** Luhn catches every single-digit typo: changing one digit of a valid
      number (of 13 digits or more) to a different digit makes it invalid. */
  lemma LuhnDetectsSingleDigitError(ds: string, k: nat, c: char)
    requires AllDigits(ds) && k < |ds| && IsDigit(c) && c != ds[k]
    requires LuhnValid(ds)
    ensures !LuhnValid(ds[k := c])
  {
    var double := (|ds| - 1 - k) % 2 == 1;
    DigitsOfDigits(ds);
    LuhnSumUpdate(ds, k, c);
    DigitsOfDigits(ds[k := c]);
    assert DigitValue(c) != DigitValue(ds[k]);
    var before: int, after: int := LuhnTerm(DigitValue(ds[k]), double), LuhnTerm(DigitValue(c), double);
    LuhnTermInjective(DigitValue(c), DigitValue(ds[k]), double);
    NotMultipleAfterShift(LuhnSum(ds), after - before);
  }

  /** A multiple of ten moved by a non-zero amount of less than ten is no
      longer a multiple of ten. */
  lemma NotMultipleAfterShift(x: int, d: int)
    requires x % 10 == 0 && d != 0 && -10 < d < 10
    ensures (x + d) % 10 != 0
  {
    var q := x / 10;
    assert x == 10 * q;
    if d > 0 {
      assert (10 * q + d) % 10 == d;
    } else {
      assert 10 * q + d == 10 * (q - 1) + (10 + d);
      assert (10 * (q - 1) + (10 + d)) % 10 == 10 + d;
    }
  }

  /** The month and year texts `isValidExpiration` reads: the first two pieces of
      `split('/')`; a missing second piece is `undefined`, which the string
      concatenation `'20' + year` turns into the text "20undefined". */
  function ExpirationParts(expiration: string): (string, string) {
    var parts := Split(expiration, '/');
    (parts[0], if |parts| >= 2 then parts[1] else "undefined")
  }

  /** `isValidExpiration` with the clock read as `currentYear`/`currentMonth`:
      exactly five characters, a month that parses into 1..12, and a date
      (2000 + YY, MM) that is not before the current month. */
  function IsValidExpiration(expiration: string, currentYear: int, currentMonth: int): (valid: bool)
    ensures |expiration| != 5 ==> !valid
    ensures valid ==> ParseInt(ExpirationParts(expiration).0).Some?
    ensures valid ==> 1 <= ParseInt(ExpirationParts(expiration).0).value <= 12
  {
    if |expiration| != 5 then false
    else
      var (month, year) := ExpirationParts(expiration);
      var expMonth := ParseInt(month);
      var expYear := ParseInt("20" + year);
      if expMonth.None? || expYear.None? then false
      else if expMonth.value < 1 || expMonth.value > 12 then false
      else if expYear.value < currentYear then false
      else if expYear.value == currentYear && expMonth.value < currentMonth then false
      else true
  }

  lemma TwoDigitValue(a: char, b: char)
    requires IsDigit(a) && IsDigit(b)
    ensures AllDigits([a, b])
    ensures DecimalValue([a, b]) == 10 * DigitValue(a) + DigitValue(b)
  {
    DecimalValueSnoc([], a);
    assert [] + [a] == [a];
    DecimalValueSnoc([a], b);
    assert [a] + [b] == [a, b];
  }

  /** `parseInt` of a two-digit text. */
  lemma ParseTwoDigits(s: string)
    requires |s| == 2 && IsDigit(s[0]) && IsDigit(s[1])
    ensures ParseInt(s) == Some(10 * DigitValue(s[0]) + DigitValue(s[1]))
  {
    var first := s[..1];
    assert first[..0] == [] && first[0] == s[0];
    assert DecimalValue(first) == DigitValue(s[0]);
    ParseIntIs(s, 10 * DigitValue(s[0]) + DigitValue(s[1]));
  }

  /** `parseInt` of a run of digits denoting `v` is `v`. */
  lemma ParseIntIs(s: string, v: nat)
    requires s != [] && AllDigits(s) && DecimalValue(s) == v
    ensures ParseInt(s) == Some(v)
  {
    ParseIntOfDigits(s);
  }

  /** The text "20" denotes twenty. */
  lemma TwentyValue()
    ensures AllDigits("20") && DecimalValue("20") == 20
  {
    TwoDigitValue('2', '0');
    assert ['2', '0'] == "20";
  }

  /** `parseInt('20' + YY)` for a two-digit year. */
  lemma ParseCenturyYear(a: char, b: char)
    requires IsDigit(a) && IsDigit(b)
    ensures ParseInt("20" + [a, b]) == Some(2000 + 10 * DigitValue(a) + DigitValue(b))
  {
    TwentyValue();
    DecimalValueSnoc("20", a);
    DecimalValueSnoc("20" + [a], b);
    assert "20" + [a, b] == "20" + [a] + [b];
    ParseIntIs("20" + [a, b], 2000 + 10 * DigitValue(a) + DigitValue(b));
  }

  /** On a well-formed "MM/YY" the check is exactly: the month is in 1..12 and
      (2000 + YY, MM) is not strictly before the current (year, month); in
      particular the current month is still accepted. */
  lemma {:induction false} WellFormedExpiration(m1: char, m2: char, y1: char, y2: char, currentYear: int, currentMonth: int)
    requires IsDigit(m1) && IsDigit(m2) && IsDigit(y1) && IsDigit(y2)
    ensures var month := 10 * DigitValue(m1) + DigitValue(m2);
            var year := 2000 + 10 * DigitValue(y1) + DigitValue(y2);
            IsValidExpiration([m1, m2, '/', y1, y2], currentYear, currentMonth)
            <==> 1 <= month <= 12 && (year > currentYear || (year == currentYear && month >= currentMonth))
  {
    var e := [m1, m2, '/', y1, y2];
    assert e == [m1, m2] + ['/'] + [y1, y2];
    SplitTwo([m1, m2], [y1, y2], '/');
    assert ExpirationParts(e) == ([m1, m2], [y1, y2]);
    ParseTwoDigits([m1, m2]);
    ParseCenturyYear(y1, y2);
  }

  /** Without a '/', the year text is "undefined" and the year parses as 20,
      so a five-character string with no slash can pass only if the current
      year is 20 or earlier ("12-25" is rejected because 20 < 2025, not because
      of its format). */
  lemma NoSlashParsesYearTwenty(expiration: string, currentYear: int, currentMonth: int)
    requires |expiration| == 5 && '/' !in expiration
    ensures ExpirationParts(expiration).1 == "undefined"
    ensures ParseInt("20" + ExpirationParts(expiration).1) == Some(20)
    ensures IsValidExpiration(expiration, currentYear, currentMonth) ==> currentYear <= 20
  {
    SplitNoSeparator(expiration, '/');
    var s := "20" + "undefined";
    assert s == ['2'] + (['0'] + "undefined");
    assert DigitPrefix("undefined") == [];
    assert DigitPrefix(s) == "20";
    TwentyValue();
    ParseIntDigitsFirst(s);
  }

  /** `parseInt` stops at the first non-digit, so the month text need not be
      two digits: "1a/25" is read as January 2025. */
  lemma ExpirationParsesLeniently()
    ensures IsValidExpiration("1a/25", 2025, 1)
    ensures !IsValidExpiration("1a/25", 2025, 2)
  {
    var e := "1a/25";
    assert e == "1a" + ['/'] + "25";
    SplitTwo("1a", "25", '/');
    assert ExpirationParts(e) == ("1a", "25");
    assert DigitPrefix("1a") == "1";
    assert "1"[..0] == [];
    ParseIntDigitsFirst("1a");
    ParseCenturyYear('2', '5');
  }

  /** The well-formed expiry examples of the unit tests, with the clock at
      June 2025. */
  lemma ExpirationTestDatesJune()
    ensures IsValidExpiration("12/25", 2025, 6) && IsValidExpiration("01/26", 2025, 6)
    ensures IsValidExpiration("06/25", 2025, 6) && IsValidExpiration("07/25", 2025, 6)
    ensures !IsValidExpiration("05/25", 2025, 6) && !IsValidExpiration("12/24", 2025, 6)
    ensures !IsValidExpiration("00/25", 2025, 6) && !IsValidExpiration("13/25", 2025, 6)
  {
    WellFormedExpiration('1', '2', '2', '5', 2025, 6);
    WellFormedExpiration('0', '1', '2', '6', 2025, 6);
    WellFormedExpiration('0', '6', '2', '5', 2025, 6);
    WellFormedExpiration('0', '7', '2', '5', 2025, 6);
    WellFormedExpiration('0', '5', '2', '5', 2025, 6);
    WellFormedExpiration('1', '2', '2', '4', 2025, 6);
    WellFormedExpiration('0', '0', '2', '5', 2025, 6);
    WellFormedExpiration('1', '3', '2', '5', 2025, 6);
  }

  /** The same at the year's last month: December 2025 itself still passes. */
  lemma ExpirationTestDatesDecember()
    ensures IsValidExpiration("12/25", 2025, 12) && IsValidExpiration("01/26", 2025, 12)
    ensures !IsValidExpiration("11/25", 2025, 12)
  {
    WellFormedExpiration('1', '2', '2', '5', 2025, 12);
    WellFormedExpiration('0', '1', '2', '6', 2025, 12);
    WellFormedExpiration('1', '1', '2', '5', 2025, 12);
  }

  /** The malformed examples of the unit tests: wrong length, no slash, and
      letters instead of digits. */
  lemma ExpirationRejectsMalformed()
    ensures !IsValidExpiration("1225", 2025, 6) && !IsValidExpiration("12/2025", 2025, 6)
    ensures !IsValidExpiration("", 2025, 6) && !IsValidExpiration("122", 2025, 6)
    ensures !IsValidExpiration("12-25", 2025, 6)
  {
    NoSlashParsesYearTwenty("12-25", 2025, 6);
  }

  /** A month that is not a number is rejected. */
  lemma ExpirationRejectsLetters()
    ensures !IsValidExpiration("XX/YY", 2025, 6)
  {
    var x := "XX/YY";
    assert x == "XX" + ['/'] + "YY";
    SplitTwo("XX", "YY", '/');
    assert ExpirationParts(x).0 == "XX";
    assert TrimStart("XX") == "XX";
    assert DigitPrefix("XX") == [];
  }
}
