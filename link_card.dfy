/** The card-linking hook (src/presentation/hooks/useLinkCard.ts): the two
    input formatters, the payload `onSubmit` builds from the form, and the
    alert it shows afterwards. */
module LinkCard {
  import opened Wrappers
  import opened Text
  import opened Entities
  import opened AppErrors
  import CardFormRules
  import Validation

  function Min(a: int, b: int): int {
    if a < b then a else b
  }

  /** `cleaned.match(/.{1,4}/g)?.join(' ') || cleaned`: runs of four
      characters, the last one possibly shorter, joined by single spaces; the
      empty string stays empty. */
  function Group4(d: string): string {
    if |d| <= 4 then d else d[..4] + " " + Group4(d[4..])
  }

  /** `formatCardNumber`: the digits in groups of four, cut to 19 characters. */
  function FormatCardNumber(text: string): (formatted: string)
    ensures |formatted| <= 19
  {
    var cleaned := Digits(text);
    var grouped := Group4(cleaned);
    grouped[..Min(19, |grouped|)]
  }

  /** Digits in groups of four separated by single spaces: a space exactly at
      every fifth position, digits elsewhere, and no space at either end. */
  predicate GroupedDigits(f: string) {
    && (forall i :: 0 <= i < |f| ==> (f[i] == ' ' <==> i % 5 == 4))
    && (forall i :: 0 <= i < |f| && i % 5 != 4 ==> IsDigit(f[i]))
    && (f != [] ==> f[|f| - 1] != ' ')
  }

  lemma {:induction false} Group4Shape(d: string)
    requires AllDigits(d)
    ensures GroupedDigits(Group4(d))
  {
    if |d| > 4 {
      var rest := Group4(d[4..]);
      Group4Shape(d[4..]);
      var g := d[..4] + " " + rest;
      assert forall i :: 5 <= i < |g| ==> g[i] == rest[i - 5];
      assert forall i :: 5 <= i < |g| ==> (i % 5 == 4 <==> (i - 5) % 5 == 4);
    }
  }

  /** The number of characters of the grouped form: one space per full group
      of four that is followed by more digits. */
  lemma {:induction false} Group4Length(d: string)
    ensures |Group4(d)| == if d == [] then 0 else |d| + (|d| - 1) / 4
  {
    if |d| > 4 {
      Group4Length(d[4..]);
    }
  }

  /** Cutting the grouped form after `k` whole groups (and before the space
      that follows them) is grouping the first `4k` digits. */
  lemma {:induction false} Group4Take(d: string, k: nat)
    requires 1 <= k && 4 * k < |d|
    ensures 5 * k - 1 <= |Group4(d)|
    ensures Group4(d)[..5 * k - 1] == Group4(d[..4 * k])
  {
    Group4Length(d);
    var rest := d[4..];
    if k > 1 {
      Group4Take(rest, k - 1);
      assert rest[..4 * (k - 1)] == d[..4 * k][4..];
      assert Group4(d)[..5 * k - 1] == d[..4] + " " + Group4(rest)[..5 * (k - 1) - 1];
    }
  }

  /** Removing the spaces of the grouped form gives back the digits. */
  lemma {:induction false} Group4Digits(d: string)
    requires AllDigits(d)
    ensures Digits(Group4(d)) == d
  {
    if |d| <= 4 {
      DigitsOfDigits(d);
    } else {
      Group4Digits(d[4..]);
      DigitsOfDigits(d[..4]);
      DigitsAppend(d[..4] + " ", Group4(d[4..]));
      DigitsAppend(d[..4], " ");
      assert d[..4] + d[4..] == d;
    }
  }

  /** `formatCardNumber` keeps the first sixteen digits and groups them. */
  lemma FormatCardNumberGroupsFirstSixteen(text: string)
    ensures var d := Digits(text);
            FormatCardNumber(text) == Group4(d[..Min(16, |d|)])
  {
    var d := Digits(text);
    Group4Length(d);
    if |d| > 16 {
      Group4Take(d, 4);
    } else {
      assert d[..Min(16, |d|)] == d;
    }
  }

  lemma {:induction false} GroupedPrefix(f: string, k: nat)
    requires GroupedDigits(f) && k <= |f| && (k == 0 || (k - 1) % 5 != 4)
    ensures GroupedDigits(f[..k])
  {
  }

  /** The formatted number is digits in groups of four, at most 19
      characters. */
  lemma FormatCardNumberShape(text: string)
    ensures GroupedDigits(FormatCardNumber(text))
  {
    var d := Digits(text);
    FormatCardNumberGroupsFirstSixteen(text);
    Group4Shape(d[..Min(16, |d|)]);
  }

  lemma {:induction false} SpacesOnlyAreWhitespace(f: string)
    requires forall i :: 0 <= i < |f| ==> IsDigit(f[i]) || f[i] == ' '
    ensures StripWhitespace(f) == Digits(f)
  {
    if f != [] {
      SpacesOnlyAreWhitespace(f[1..]);
    }
  }

  /** Deleting the spaces of the formatted number gives the first sixteen
      digits of the input, in order (all of them when there are fewer). */
  lemma FormatCardNumberKeepsDigits(text: string)
    ensures var d := Digits(text);
            && Digits(FormatCardNumber(text)) == d[..Min(16, |d|)]
            && StripWhitespace(FormatCardNumber(text)) == d[..Min(16, |d|)]
  {
    var d := Digits(text);
    var f := FormatCardNumber(text);
    FormatCardNumberGroupsFirstSixteen(text);
    Group4Digits(d[..Min(16, |d|)]);
    FormatCardNumberShape(text);
    SpacesOnlyAreWhitespace(f);
  }

  /** Formatting an already formatted number changes nothing. */
  lemma FormatCardNumberIdempotent(text: string)
    ensures FormatCardNumber(FormatCardNumber(text)) == FormatCardNumber(text)
  {
    var d := Digits(text);
    var f := FormatCardNumber(text);
    FormatCardNumberKeepsDigits(text);
    FormatCardNumberGroupsFirstSixteen(f);
    FormatCardNumberGroupsFirstSixteen(text);
    var e := d[..Min(16, |d|)];
    assert e[..Min(16, |e|)] == e;
  }

  /** `formatExpiration`: from three digits on, the first two digits, a
      slash and at most two more digits; fewer digits are returned as they are. */
  function FormatExpiration(text: string): (formatted: string)
    ensures |formatted| <= 5
  {
    var cleaned := Digits(text);
    if |cleaned| >= 3 then cleaned[..2] + "/" + cleaned[2..Min(4, |cleaned|)] else cleaned
  }

  /** Fewer than three digits come back alone, without a slash. */
  lemma FormatExpirationShort(text: string)
    requires |Digits(text)| < 3
    ensures FormatExpiration(text) == Digits(text)
    ensures '/' !in FormatExpiration(text)
  {
  }

  /** From three digits on, the text is MM/Y or MM/YY: the slash is the third
      character, and removing it leaves the first four digits at most. */
  lemma FormatExpirationShape(text: string)
    requires |Digits(text)| >= 3
    ensures var f := FormatExpiration(text);
            var d := Digits(text);
            && |f| == Min(4, |d|) + 1 && f[2] == '/'
            && Digits(f) == d[..Min(4, |d|)]
            && Split(f, '/') == [d[..2], d[2..Min(4, |d|)]]
  {
    var d := Digits(text);
    var f := FormatExpiration(text);
    var mm, yy := d[..2], d[2..Min(4, |d|)];
    assert f == mm + ['/'] + yy;
    DigitsAppend(mm + ['/'], yy);
    DigitsAppend(mm, ['/']);
    DigitsOfDigits(mm);
    DigitsOfDigits(yy);
    assert mm + yy == d[..Min(4, |d|)];
    assert '/' !in mm && '/' !in yy;
    SplitTwo(mm, yy, '/');
  }

  /** Formatting an already formatted expiry changes nothing. */
  lemma FormatExpirationIdempotent(text: string)
    ensures FormatExpiration(FormatExpiration(text)) == FormatExpiration(text)
  {
    var d := Digits(text);
    if |d| >= 3 {
      FormatExpirationShape(text);
      var e := d[..Min(4, |d|)];
      assert e[..2] == d[..2] && e[2..Min(4, |e|)] == d[2..Min(4, |d|)];
    } else {
      DigitsIdempotent(text);
    }
  }

  /** A formatted expiry with four digits is exactly what the expiry check
      expects: it passes when its month is 1..12 and it is not before the
      current month. */
  lemma FormattedExpirationCheck(text: string, currentYear: int, currentMonth: int)
    requires |Digits(text)| >= 4
    ensures var d := Digits(text);
            var month := 10 * DigitValue(d[0]) + DigitValue(d[1]);
            var year := 2000 + 10 * DigitValue(d[2]) + DigitValue(d[3]);
            Validation.IsValidExpiration(FormatExpiration(text), currentYear, currentMonth)
            <==> 1 <= month <= 12 && (year > currentYear || (year == currentYear && month >= currentMonth))
  {
    var d := Digits(text);
    assert FormatExpiration(text) == [d[0], d[1], '/', d[2], d[3]];
    Validation.WellFormedExpiration(d[0], d[1], d[2], d[3], currentYear, currentMonth);
  }

  /** The card `onSubmit` hands to the payment use case: the number without
      whitespace, the holder's name upper-cased, cvv and expiry unchanged. */
  function SubmitPayload(data: CardFormRules.CardFormData): (card: CreditCard)
    ensures forall i :: 0 <= i < |card.cardNumber| ==> !IsJsSpace(card.cardNumber[i])
    ensures card.cardNumber == StripWhitespace(data.cardNumber)
    ensures |card.cardHolder| == |data.name|
    ensures forall i :: 0 <= i < |data.name| ==> card.cardHolder[i] == UpperAscii(data.name[i])
    ensures forall i :: 0 <= i < |card.cardHolder| ==> !('a' <= card.cardHolder[i] <= 'z')
    ensures card.cvv == data.cvv && card.expirationDate == data.expiration
  {
    CreditCard(StripWhitespace(data.cardNumber), data.cvv, data.expiration, ToUpperAscii(data.name))
  }

  /** Whitespace typed anywhere in the number never reaches the use case:
      inserting a run of whitespace between any two parts of the number sends
      the same card, and a number typed without whitespace is sent as typed. */
  lemma SubmitIgnoresWhitespace(data: CardFormRules.CardFormData, before: string, spaces: string, after: string)
    requires forall i :: 0 <= i < |spaces| ==> IsJsSpace(spaces[i])
    ensures SubmitPayload(data.(cardNumber := before + spaces + after))
            == SubmitPayload(data.(cardNumber := before + after))
    ensures (forall i :: 0 <= i < |before| ==> !IsJsSpace(before[i]))
            ==> SubmitPayload(data.(cardNumber := before)).cardNumber == before
  {
    StripWhitespaceAppend(before + spaces, after);
    StripWhitespaceAppend(before, spaces);
    StripWhitespaceAppend(before, after);
    StripWhitespaceOfSpaces(spaces);
    if forall i :: 0 <= i < |before| ==> !IsJsSpace(before[i]) {
      CardFormRules.NoSpaceUnchanged(before);
    }
  }

  /** A number typed through the formatter reaches the payment use case as its
      first sixteen digits: the spaces the formatter inserts are exactly the
      ones `onSubmit` removes. */
  lemma FormatThenSubmit(data: CardFormRules.CardFormData, typed: string)
    ensures var d := Digits(typed);
            SubmitPayload(data.(cardNumber := FormatCardNumber(typed))).cardNumber == d[..Min(16, |d|)]
  {
    FormatCardNumberKeepsDigits(typed);
  }

  /** A form that passes its rules yields a card of sixteen non-space
      characters with a three-digit cvv and an unexpired MM/YY. */
  lemma ValidFormPayload(data: CardFormRules.CardFormData, currentYear: int, currentMonth: int)
    requires CardFormRules.FormValid(data, currentYear, currentMonth)
    ensures var card := SubmitPayload(data);
            && |card.cardNumber| == 16
            && CardFormRules.ThreeDigits(card.cvv)
            && Validation.IsValidExpiration(card.expirationDate, currentYear, currentMonth)
  {
    CardFormRules.FormValidMeans(data, currentYear, currentMonth);
  }

  /** A number typed through the formatter passes the form's card-number rule
      exactly when at least sixteen digits were typed. */
  lemma FormattedNumberPassesRule(typed: string)
    ensures CardFormRules.CardNumberRule(FormatCardNumber(typed)).None? <==> |Digits(typed)| >= 16
  {
    FormatCardNumberKeepsDigits(typed);
  }

  /** The alert shown after submitting. On success, pressing OK returns to the
      previous screen. */
  datatype Alert = Alert(title: string, message: string, goesBackOnOk: bool)

  const DEFAULT_FAILURE_MESSAGE := "No se pudo procesar el pago"

  /** The message of a failed submission: an `Error`'s own message, a fixed
      text for anything else thrown. */
  function FailureMessage(thrown: Thrown): (message: string)
    ensures thrown.ErrorThrown? ==> message == thrown.message
    ensures thrown.OtherThrown? ==> message == DEFAULT_FAILURE_MESSAGE
  {
    if thrown.ErrorThrown? then thrown.message else DEFAULT_FAILURE_MESSAGE
  }

  function SubmitAlert(outcome: Either<Thrown, SecurityToken>): (alert: Alert)
    ensures alert.goesBackOnOk <==> outcome.Right?
    ensures outcome.Left? ==> alert == Alert("Transacción Rechazada", FailureMessage(outcome.left), false)
    ensures outcome.Right? ==> alert == Alert("¡Tarjeta Vinculada!", "Ahora tienes acceso ilimitado a favoritos.", true)
  {
    match outcome
    case Right(_) => Alert("¡Tarjeta Vinculada!", "Ahora tienes acceso ilimitado a favoritos.", true)
    case Left(thrown) => Alert("Transacción Rechazada", FailureMessage(thrown), false)
  }
}
