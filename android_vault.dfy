/** The Android native vault (android/app/src/main/java/com/catsapiapp/modules/SecureVaultModule.kt):
    values are encrypted with AES-GCM under a key kept in the Android
    KeyStore and stored in private preferences as the envelope
    `base64(iv) ":" base64(ciphertext)`. The cipher, the KeyStore key and
    Base64 are abstract; the fresh IV, the generated key, the token UUID and
    platform exceptions are parameters. */
module AndroidVault {
  import opened Wrappers
  import opened Codecs
  import opened Text

  type Bytes = seq<bv8>

  const KEY_ALIAS := "MySecureVaultKey"
  const STORAGE_ERROR := "STORAGE_ERROR"
  const TOKENIZATION_ERROR := "TOKENIZATION_ERROR"

  /** A key of the KeyStore, known only by its identity. */
  datatype SecretKey = SecretKey(id: nat)

  /** AES/GCM/NoPadding under a key and an IV, on the UTF-8 bytes of the
      text. Opening fails on a wrong key, IV or tag. */
  datatype Cipher = Cipher(seal: (SecretKey, Bytes, string) -> Bytes, open: (SecretKey, Bytes, Bytes) -> Option<string>)

  /** What the model assumes of the cipher: opening what was sealed under the
      same key and IV gives the text back. */
  ghost predicate CipherRoundTrips(c: Cipher) {
    forall k, iv, s {:trigger c.seal(k, iv, s)} :: c.open(k, iv, c.seal(k, iv, s)) == Some(s)
  }

  /** What the model assumes of Base64: its alphabet (section 4 of RFC 4648)
      and the line breaks of `Base64.DEFAULT` contain no ':'. */
  ghost predicate NoColon(base64: Codec<Bytes, string>) {
    forall b {:trigger base64.encode(b)} :: ':' !in base64.encode(b)
  }

  /** The storage format of `encryptData`: "IV:CIPHERTEXT". */
  function EncodeEnvelope(base64: Codec<Bytes, string>, iv: Bytes, ciphertext: Bytes): string {
    base64.encode(iv) + ":" + base64.encode(ciphertext)
  }

  /** The parse in `decryptData`: exactly two ':'-separated parts, each
      valid Base64. */
  function DecodeEnvelope(base64: Codec<Bytes, string>, stored: string): (r: Option<(Bytes, Bytes)>)
    ensures |Split(stored, ':')| != 2 ==> r.None?
    ensures r.Some? ==> var parts := Split(stored, ':');
                        base64.decode(parts[0]) == Some(r.value.0) && base64.decode(parts[1]) == Some(r.value.1)
  {
    var parts := Split(stored, ':');
    if |parts| != 2 then None
    else
      match (base64.decode(parts[0]), base64.decode(parts[1]))
      case (Some(iv), Some(ciphertext)) => Some((iv, ciphertext))
      case _ => None
  }

  /** The envelope parses back into the IV and the ciphertext it was made of. */
  lemma EnvelopeRoundTrip(base64: Codec<Bytes, string>, iv: Bytes, ciphertext: Bytes)
    requires RoundTrips(base64) && NoColon(base64)
    ensures DecodeEnvelope(base64, EncodeEnvelope(base64, iv, ciphertext)) == Some((iv, ciphertext))
  {
    var a := base64.encode(iv);
    var b := base64.encode(ciphertext);
    assert ':' !in a && ':' !in b;
    assert a + ":" + b == a + [':'] + b;
    SplitTwo(a, b, ':');
    RoundTripAt(base64, iv);
    RoundTripAt(base64, ciphertext);
  }

  /** A stored string with a ':' inside one of its halves, or none at all,
      splits into other than two parts and never decrypts. */
  lemma ExtraColonRejected(base64: Codec<Bytes, string>, a: string, b: string, c: string)
    requires ':' !in a && ':' !in b && ':' !in c
    ensures DecodeEnvelope(base64, a + ":" + b + ":" + c) == None
    ensures DecodeEnvelope(base64, a) == None
  {
    var tail := [':'] + (b + [':'] + c);
    assert a + ":" + b + ":" + c == a + tail;
    SplitPrefix(a, tail, ':');
    assert tail[1..] == b + [':'] + c;
    SplitTwo(b, c, ':');
    assert Split(tail, ':') == [""] + [b, c];
    assert Split(a + tail, ':') == [a + ""] + [b, c];
    SplitNoSeparator(a, ':');
  }

  /** `encryptData(value)` with the fresh IV `iv`: fails when the KeyStore
      has no key under the alias. */
  function Encrypt(keys: map<string, SecretKey>, cipher: Cipher, base64: Codec<Bytes, string>, iv: Bytes, plainText: string): (r: Option<string>)
    ensures r.Some? <==> KEY_ALIAS in keys
  {
    if KEY_ALIAS !in keys then None
    else Some(EncodeEnvelope(base64, iv, cipher.seal(keys[KEY_ALIAS], iv, plainText)))
  }

  /** `decryptData(stored)`: fails on a malformed envelope, a missing key or
      a ciphertext that does not open. */
  function Decrypt(keys: map<string, SecretKey>, cipher: Cipher, base64: Codec<Bytes, string>, stored: string): (r: Option<string>)
    ensures KEY_ALIAS !in keys || DecodeEnvelope(base64, stored).None? ==> r.None?
  {
    var envelope := DecodeEnvelope(base64, stored);
    if envelope.None? || KEY_ALIAS !in keys then None
    else cipher.open(keys[KEY_ALIAS], envelope.value.0, envelope.value.1)
  }

  /** Whatever was encrypted decrypts back under the same key. */
  lemma DecryptEncrypt(keys: map<string, SecretKey>, cipher: Cipher, base64: Codec<Bytes, string>, iv: Bytes, plainText: string)
    requires KEY_ALIAS in keys
    requires CipherRoundTrips(cipher) && RoundTrips(base64) && NoColon(base64)
    ensures Decrypt(keys, cipher, base64, Encrypt(keys, cipher, base64, iv, plainText).value) == Some(plainText)
  {
    var sealed := cipher.seal(keys[KEY_ALIAS], iv, plainText);
    EnvelopeRoundTrip(base64, iv, sealed);
  }

  /** What `getSecureValue(key)` resolves: `null` for a key never stored,
      and `null` too for anything that fails on the way. */
  function StoredValue(prefs: map<string, string>, keys: map<string, SecretKey>, cipher: Cipher,
                       base64: Codec<Bytes, string>, key: string): (value: Option<string>)
    ensures key !in prefs ==> value.None?
  {
    if key !in prefs then None else Decrypt(keys, cipher, base64, prefs[key])
  }

  /** `SecureVaultModule` with its preferences and its KeyStore. */
  class AndroidSecureVault {
    var prefs: map<string, string>
    var keys: map<string, SecretKey>
    const cipher: Cipher
    const base64: Codec<Bytes, string>

    /** The module's `init`: opens the preferences and makes sure the key exists. */
    constructor (prefs: map<string, string>, keys: map<string, SecretKey>, cipher: Cipher,
                 base64: Codec<Bytes, string>, generated: SecretKey, keyStoreFails: bool)
      ensures this.prefs == prefs && this.cipher == cipher && this.base64 == base64
      ensures this.keys == if KEY_ALIAS in keys || keyStoreFails then keys else keys[KEY_ALIAS := generated]
    {
      this.prefs := prefs;
      this.keys := keys;
      this.cipher := cipher;
      this.base64 := base64;
      new;
      CreateKeyIfNotExists(generated, keyStoreFails);
    }

    /** `createKeyIfNotExists`: generates a key only when the alias is
        absent; a KeyStore failure is swallowed and leaves no key. */
    method CreateKeyIfNotExists(generated: SecretKey, keyStoreFails: bool)
      modifies this
      ensures prefs == old(prefs)
      ensures keys == if KEY_ALIAS in old(keys) || keyStoreFails then old(keys) else old(keys)[KEY_ALIAS := generated]
    {
      if keyStoreFails {
        return;
      }
      if KEY_ALIAS !in keys {
        keys := keys[KEY_ALIAS := generated];
      }
    }

    /** `setSecureValue`: stores the envelope under the key (last write
        wins) and resolves `true`; any failure rejects "STORAGE_ERROR" and
        stores nothing. */
    method SetSecureValue(key: string, value: string, iv: Bytes, fails: bool) returns (outcome: Outcome<bool>)
      modifies this
      ensures keys == old(keys)
      ensures var encrypted := Encrypt(keys, cipher, base64, iv, value);
              if fails || encrypted.None? then outcome == Rejected(STORAGE_ERROR) && prefs == old(prefs)
              else outcome == Resolved(true) && prefs == old(prefs)[key := encrypted.value]
    {
      var encrypted := Encrypt(keys, cipher, base64, iv, value);
      if fails || encrypted.None? {
        return Rejected(STORAGE_ERROR);
      }
      prefs := prefs[key := encrypted.value];
      outcome := Resolved(true);
    }

    /** `getSecureValue`: never rejects. */
    method GetSecureValue(key: string, fails: bool) returns (value: Option<string>)
      ensures value == if fails then None else StoredValue(prefs, keys, cipher, base64, key)
    {
      if fails || key !in prefs {
        return None;
      }
      value := Decrypt(keys, cipher, base64, prefs[key]);
    }

    /** `clearSecureValue`: removes the key and resolves `true`. */
    method ClearSecureValue(key: string, fails: bool) returns (outcome: Outcome<bool>)
      modifies this
      ensures keys == old(keys)
      ensures fails ==> outcome == Rejected(STORAGE_ERROR) && prefs == old(prefs)
      ensures !fails ==> outcome == Resolved(true) && prefs == old(prefs) - {key}
    {
      if fails {
        return Rejected(STORAGE_ERROR);
      }
      prefs := prefs - {key};
      outcome := Resolved(true);
    }

    /** `tokenizeCard`: stores the card number's envelope under the fresh
        token and resolves the token; on failure rejects
        "TOKENIZATION_ERROR" and stores nothing. */
    method TokenizeCard(cardNumber: string, token: string, iv: Bytes, fails: bool) returns (outcome: Outcome<string>)
      modifies this
      ensures keys == old(keys)
      ensures var encrypted := Encrypt(keys, cipher, base64, iv, cardNumber);
              if fails || encrypted.None? then outcome == Rejected(TOKENIZATION_ERROR) && prefs == old(prefs)
              else outcome == Resolved(token) && prefs == old(prefs)[token := encrypted.value]
    {
      var encrypted := Encrypt(keys, cipher, base64, iv, cardNumber);
      if fails || encrypted.None? {
        return Rejected(TOKENIZATION_ERROR);
      }
      prefs := prefs[token := encrypted.value];
      outcome := Resolved(token);
    }
  }

  /** With the key in place, a stored value reads back; a second write to
      the same key replaces the first. */
  method SetSetGet(vault: AndroidSecureVault, key: string, first: string, second: string, iv1: Bytes, iv2: Bytes)
      returns (got: Option<string>)
    requires KEY_ALIAS in vault.keys
    requires CipherRoundTrips(vault.cipher) && RoundTrips(vault.base64) && NoColon(vault.base64)
    modifies vault
    ensures got == Some(second)
  {
    var _ := vault.SetSecureValue(key, first, iv1, false);
    var _ := vault.SetSecureValue(key, second, iv2, false);
    DecryptEncrypt(vault.keys, vault.cipher, vault.base64, iv2, second);
    got := vault.GetSecureValue(key, false);
  }

  /** After clearing a key, reading it resolves `null`. */
  method ClearThenGet(vault: AndroidSecureVault, key: string) returns (got: Option<string>)
    modifies vault
    ensures got == None
  {
    var _ := vault.ClearSecureValue(key, false);
    got := vault.GetSecureValue(key, false);
  }

  /** The card number tokenized reads back under the token. */
  method TokenizeThenRead(vault: AndroidSecureVault, cardNumber: string, token: string, iv: Bytes)
      returns (outcome: Outcome<string>, got: Option<string>)
    requires KEY_ALIAS in vault.keys
    requires CipherRoundTrips(vault.cipher) && RoundTrips(vault.base64) && NoColon(vault.base64)
    modifies vault
    ensures outcome == Resolved(token) && got == Some(cardNumber)
  {
    outcome := vault.TokenizeCard(cardNumber, token, iv, false);
    DecryptEncrypt(vault.keys, vault.cipher, vault.base64, iv, cardNumber);
    got := vault.GetSecureValue(token, false);
  }

  /** Initialising twice leaves the first key in place. */
  method CreateKeyTwice(vault: AndroidSecureVault, first: SecretKey, second: SecretKey)
    modifies vault
    ensures KEY_ALIAS in vault.keys
    ensures vault.keys[KEY_ALIAS] == if KEY_ALIAS in old(vault.keys) then old(vault.keys)[KEY_ALIAS] else first
  {
    vault.CreateKeyIfNotExists(first, false);
    vault.CreateKeyIfNotExists(second, false);
  }
}
