/** The payment pipeline: the mock processor
    (src/data/remote/PaymentMockService.ts), the repository that turns any of
    its failures into a `PaymentError` (src/data/repositories/PaymentRepositoryImpl.ts),
    the card-number guard in front of the native vault
    (src/domain/usecases/TokenizeCardUseCase.ts) and the use case that
    tokenizes a card and keeps the token in the keychain
    (src/domain/usecases/TokenizePaymentMethodUseCase.ts).
    A promise is an `Either`: `Left` holds what it rejects with. The clock,
    `Math.random` and the keychain's failures are parameters. */
module Payment {
  import opened Wrappers
  import opened Codecs
  import opened Text
  import opened Entities
  import opened AppErrors
  import opened Keychain

  const DECLINED_PREFIX := "0000"
  const DECLINED_MESSAGE := "Tarjeta rechazada por el banco emisor."
  const TOKEN_PREFIX := "tok_live_"
  const INVALID_CARD_MESSAGE := "Invalid Card Number"

  /** `processPayment(card)`. `randomPart` is
      `Math.random().toString(36).substr(2, 9)`; `tokenTime` and `createdTime`
      are the two separate `Date.now()` reads, which may differ. */
  function ProcessPayment(card: CreditCard, randomPart: string, tokenTime: nat, createdTime: int): (r: Either<Thrown, SecurityToken>)
    ensures r.Left? <==> StartsWith(StripWhitespace(card.cardNumber), DECLINED_PREFIX)
    ensures r.Left? ==> r.left == ErrorThrown("Error", DECLINED_MESSAGE)
    ensures r.Right? ==> StartsWith(r.right.accessToken, TOKEN_PREFIX) && r.right.createdAt == createdTime
  {
    if StartsWith(StripWhitespace(card.cardNumber), DECLINED_PREFIX) then
      Left(ErrorThrown("Error", DECLINED_MESSAGE))
    else
      var accessToken := TOKEN_PREFIX + randomPart + "_" + NatToDecimal(tokenTime);
      assert accessToken[..|TOKEN_PREFIX|] == TOKEN_PREFIX;
      Right(SecurityToken(accessToken, createdTime))
  }

  /** Only the card number decides acceptance; its spaces do not count, and
      the cvv, expiry and holder are never looked at. */
  lemma ProcessPaymentReadsOnlyNumber(card: CreditCard, other: CreditCard, randomPart: string, tokenTime: nat, createdTime: int)
    requires StripWhitespace(other.cardNumber) == StripWhitespace(card.cardNumber)
    ensures ProcessPayment(card, randomPart, tokenTime, createdTime) == ProcessPayment(other, randomPart, tokenTime, createdTime)
  {
  }

  /** The access token is "tok_live_", the random part, "_" and the time in
      milliseconds, which `parseInt` reads back from the token's tail. */
  lemma AccessTokenShape(card: CreditCard, randomPart: string, tokenTime: nat, createdTime: int)
    requires !StartsWith(StripWhitespace(card.cardNumber), DECLINED_PREFIX)
    ensures var token := ProcessPayment(card, randomPart, tokenTime, createdTime).right.accessToken;
            var tail := token[|TOKEN_PREFIX| + |randomPart| + 1..];
            && token == TOKEN_PREFIX + randomPart + "_" + tail
            && ParseInt(tail) == Some(tokenTime)
  {
    var tail := NatToDecimal(tokenTime);
    var token := TOKEN_PREFIX + randomPart + "_" + tail;
    assert token[|TOKEN_PREFIX| + |randomPart| + 1..] == tail;
    ParseIntNatToDecimal(tokenTime);
  }

  /** The `catch` of `tokenizeCard`: an `Error` keeps its message, anything
      else gets `PaymentError`'s default message. */
  function ToPaymentError(thrown: Thrown, now: int): (e: AppError)
    ensures e.name == "PaymentError" && e.code == "ERR_PAYMENT_001"
    ensures e.message == if thrown.ErrorThrown? then thrown.message else "Payment was declined"
  {
    PaymentError(if thrown.ErrorThrown? then Some(thrown.message) else None, None, now)
  }

  /** `PaymentRepositoryImpl.tokenizeCard`, over the payment service's
      answer for the card. */
  function TokenizeCard(card: CreditCard, service: CreditCard -> Either<Thrown, SecurityToken>, now: int): (r: Either<AppError, SecurityToken>)
    ensures r.Right? <==> service(card).Right?
    ensures r.Right? ==> r.right == service(card).right
    ensures r.Left? ==> r.left == ToPaymentError(service(card).left, now)
  {
    match service(card)
    case Right(token) => Right(token)
    case Left(thrown) => Left(ToPaymentError(thrown, now))
  }

  /** Over the mock service, a declined card becomes a `PaymentError` with
      the bank's message, and every other card yields a "tok_live_" token. */
  lemma MockTokenizeCard(card: CreditCard, randomPart: string, tokenTime: nat, createdTime: int, now: int)
    ensures var r := TokenizeCard(card, c => ProcessPayment(c, randomPart, tokenTime, createdTime), now);
            && (r.Left? <==> StartsWith(StripWhitespace(card.cardNumber), DECLINED_PREFIX))
            && (r.Left? ==> r.left.name == "PaymentError" && r.left.message == DECLINED_MESSAGE
                            && r.left.userMessage == PAYMENT_USER_MESSAGE)
            && (r.Right? ==> StartsWith(r.right.accessToken, TOKEN_PREFIX))
  {
    var r := TokenizeCard(card, c => ProcessPayment(c, randomPart, tokenTime, createdTime), now);
    if r.Left? {
      assert r.left == ToPaymentError(ErrorThrown("Error", DECLINED_MESSAGE), now);
    }
  }

  /** `TokenizeCardUseCase.execute`: a card number that is empty or shorter
      than 16 characters (any characters, and no upper bound) is refused
      without asking the wallet; any other is handed over unchanged and the
      wallet's answer is returned as it is. */
  function TokenizeCardNumber(cardNumber: string, wallet: string -> Either<Thrown, string>): (r: Either<Thrown, string>)
    ensures |cardNumber| < 16 ==> r == Left(ErrorThrown("Error", INVALID_CARD_MESSAGE))
    ensures |cardNumber| >= 16 ==> r == wallet(cardNumber)
  {
    if cardNumber == "" || |cardNumber| < 16 then Left(ErrorThrown("Error", INVALID_CARD_MESSAGE))
    else wallet(cardNumber)
  }

  /** A refused number never reaches the wallet: the answer is the same
      whatever the wallet would have said. */
  lemma ShortNumberSkipsWallet(cardNumber: string, wallet: string -> Either<Thrown, string>, other: string -> Either<Thrown, string>)
    requires |cardNumber| < 16
    ensures TokenizeCardNumber(cardNumber, wallet) == TokenizeCardNumber(cardNumber, other)
  {
  }

  /** `TokenizePaymentMethodUseCase` over the keychain token store. */
  class TokenizePaymentMethodUseCase {
    const tokens: TokenVault

    constructor (tokens: TokenVault)
      ensures this.tokens == tokens
    {
      this.tokens := tokens;
    }

    /** `execute(card)`: tokenizes the card once, unchanged; on success saves
        that very token and returns it. A tokenization failure is rethrown
        and nothing is saved; a save failure is rethrown and no token is
        returned. */
    method Execute(card: CreditCard, service: CreditCard -> Either<Thrown, SecurityToken>, now: int,
                   saveFault: Option<string>) returns (r: Either<Thrown, SecurityToken>)
      modifies tokens.slot
      ensures var tokenized := TokenizeCard(card, service, now);
              && (tokenized.Left? ==> r == Left(Throw(tokenized.left)) && tokens.slot.credentials == old(tokens.slot.credentials))
              && (tokenized.Right? && saveFault.Some? ==>
                    r == Left(ErrorThrown("Error", saveFault.value)) && tokens.slot.credentials == old(tokens.slot.credentials))
              && (tokenized.Right? && saveFault.None? ==>
                    r == Right(tokenized.right)
                    && tokens.slot.credentials == Some(Credentials(TOKEN_USERNAME, tokens.json.encode(tokenized.right))))
    {
      var tokenized := TokenizeCard(card, service, now);
      if tokenized.Left? {
        return Left(Throw(tokenized.left));
      }
      var token := tokenized.right;
      var saved := tokens.SaveToken(token, saveFault);
      if saved.Rejected? {
        return Left(ErrorThrown("Error", saved.reason));
      }
      r := Right(token);
    }
  }

  /** After a successful payment the keychain holds the new token, so the
      user reads as premium from then on. */
  method PayThenReadToken(useCase: TokenizePaymentMethodUseCase, card: CreditCard, randomPart: string,
                          tokenTime: nat, createdTime: int, now: int) returns (paid: Either<Thrown, SecurityToken>, stored: Option<SecurityToken>)
    requires RoundTrips(useCase.tokens.json)
    requires !StartsWith(StripWhitespace(card.cardNumber), DECLINED_PREFIX)
    modifies useCase.tokens.slot
    ensures paid.Right? && stored == Some(paid.right)
    ensures StartsWith(paid.right.accessToken, TOKEN_PREFIX)
  {
    paid := useCase.Execute(card, c => ProcessPayment(c, randomPart, tokenTime, createdTime), now, None);
    StoredTokenAfterSave(paid.right, useCase.tokens.json);
    stored := useCase.tokens.GetToken(false);
  }
}
