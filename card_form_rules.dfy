/** The react-hook-form rules of the card form (`cardFormRules`). Each rule
    yields `None` when the field passes and `Some(message)` with the message
    shown under the field otherwise. react-hook-form checks `required` first,
    then the length bounds, then `pattern`, then `validate`. */
module CardFormRules {
  import opened Wrappers
  import opened Text
  import Validation

  /** The four fields of the card form. */
  datatype CardFormData = CardFormData(name: string, cardNumber: string, cvv: string, expiration: string)

  const NAME_REQUIRED := "El nombre es requerido"
  const NAME_TOO_SHORT := "Mínimo 3 caracteres"
  const NAME_TOO_LONG := "Máximo 50 caracteres"
  const CARD_NUMBER_REQUIRED := "El número de tarjeta es requerido"
  const CARD_NUMBER_LENGTH := "Debe tener 16 dígitos"
  const CVV_REQUIRED := "El CVV es requerido"
  const CVV_FORMAT := "Debe tener 3 dígitos"
  const EXPIRATION_REQUIRED := "La fecha de expiración es requerida"
  const EXPIRATION_FORMAT := "Formato: MM/YY"
  const EXPIRATION_INVALID := "Fecha inválida o expirada"

  /** `name`: required, at least 3 and at most 50 characters. */
  function NameRule(name: string): (error: Option<string>)
    ensures error.None? <==> 3 <= |name| <= 50
    ensures name == "" ==> error == Some(NAME_REQUIRED)
    ensures error.Some? ==> error.value in {NAME_REQUIRED, NAME_TOO_SHORT, NAME_TOO_LONG}
  {
    if name == "" then Some(NAME_REQUIRED)
    else if |name| > 50 then Some(NAME_TOO_LONG)
    else if |name| < 3 then Some(NAME_TOO_SHORT)
    else None
  }

  /** `cardNumber`: required, and exactly 16 characters once the whitespace
      is removed; the characters themselves are not checked. */
  function CardNumberRule(cardNumber: string): (error: Option<string>)
    ensures error.None? <==> |StripWhitespace(cardNumber)| == 16
    ensures error.Some? ==> error.value in {CARD_NUMBER_REQUIRED, CARD_NUMBER_LENGTH}
  {
    if cardNumber == "" then Some(CARD_NUMBER_REQUIRED)
    else if |StripWhitespace(cardNumber)| == 16 then None
    else Some(CARD_NUMBER_LENGTH)
  }

  /** `/^\d{3}$/`: exactly three ASCII digits. */
  predicate ThreeDigits(s: string) {
    |s| == 3 && AllDigits(s)
  }

  /** `cvv`: required, and matching `/^\d{3}$/`. */
  function CvvRule(cvv: string): (error: Option<string>)
    ensures error.None? <==> ThreeDigits(cvv)
    ensures error.Some? ==> error.value in {CVV_REQUIRED, CVV_FORMAT}
  {
    if cvv == "" then Some(CVV_REQUIRED)
    else if ThreeDigits(cvv) then None
    else Some(CVV_FORMAT)
  }

  /** `expiration`: required; a length other than 5 gets the format message
      and never reaches the date check; a five-character value passes exactly
      when `isValidExpiration` holds for the current year and month. */
  function ExpirationRule(expiration: string, currentYear: int, currentMonth: int): (error: Option<string>)
    ensures expiration == "" ==> error == Some(EXPIRATION_REQUIRED)
    ensures expiration != "" && |expiration| != 5 ==> error == Some(EXPIRATION_FORMAT)
    ensures |expiration| == 5 ==>
      error == (if Validation.IsValidExpiration(expiration, currentYear, currentMonth) then None else Some(EXPIRATION_INVALID))
    ensures error.None? <==> Validation.IsValidExpiration(expiration, currentYear, currentMonth)
  {
    if expiration == "" then Some(EXPIRATION_REQUIRED)
    else if |expiration| != 5 then Some(EXPIRATION_FORMAT)
    else if Validation.IsValidExpiration(expiration, currentYear, currentMonth) then None
    else Some(EXPIRATION_INVALID)
  }

  /** The form is valid (`isValid`) when no field has an error. */
  predicate FormValid(data: CardFormData, currentYear: int, currentMonth: int) {
    && NameRule(data.name).None?
    && CardNumberRule(data.cardNumber).None?
    && CvvRule(data.cvv).None?
    && ExpirationRule(data.expiration, currentYear, currentMonth).None?
  }

  /** A valid form holds a card number of 16 non-space characters, a
      three-digit cvv, a name of 3 to 50 characters and an unexpired MM/YY. */
  lemma FormValidMeans(data: CardFormData, currentYear: int, currentMonth: int)
    requires FormValid(data, currentYear, currentMonth)
    ensures |StripWhitespace(data.cardNumber)| == 16
    ensures ThreeDigits(data.cvv)
    ensures 3 <= |data.name| <= 50
    ensures |data.expiration| == 5 && Validation.IsValidExpiration(data.expiration, currentYear, currentMonth)
  {
  }

  /** The card-number rule checks the length only: sixteen characters of any
      kind pass, letters included, whether or not they pass the Luhn check. */
  lemma {:induction false} CardNumberRuleIgnoresContent(cardNumber: string)
    requires |cardNumber| == 16
    requires forall i :: 0 <= i < |cardNumber| ==> !IsJsSpace(cardNumber[i])
    ensures CardNumberRule(cardNumber) == None
  {
    NoSpaceUnchanged(cardNumber);
  }

  lemma {:induction false} NoSpaceUnchanged(s: string)
    requires forall i :: 0 <= i < |s| ==> !IsJsSpace(s[i])
    ensures StripWhitespace(s) == s
  {
    if s != [] {
      NoSpaceUnchanged(s[1..]);
    }
  }
}
