/** The JavaScript side of the device keychain. react-native-keychain keeps
    ONE generic-password slot (a username and a password) per app; both
    `SecureStorageImpl` (src/core/local/SecureStorageImpl.ts) and the token
    store of src/data/repositories/StorageRepositoryImpl.ts (and its copy
    `SecureStorageDataSourceImpl`) read and overwrite that same slot. Library
    failures are parameters: `Some(reason)` makes the call reject. */
module Keychain {
  import opened Wrappers
  import opened Codecs
  import opened Entities

  datatype Credentials = Credentials(username: string, password: string)

  /** The keychain's single generic-password slot. */
  class GenericPasswordSlot {
    var credentials: Option<Credentials>

    constructor ()
      ensures credentials.None?
    {
      credentials := None;
    }

    /** `setGenericPassword`: overwrites whatever the slot held. */
    method SetGenericPassword(username: string, password: string, fault: Option<string>) returns (outcome: Outcome<Unit>)
      modifies this
      ensures fault.None? ==> credentials == Some(Credentials(username, password)) && outcome == Resolved(Unit)
      ensures fault.Some? ==> credentials == old(credentials) && outcome == Rejected(fault.value)
    {
      if fault.Some? {
        return Rejected(fault.value);
      }
      credentials := Some(Credentials(username, password));
      outcome := Resolved(Unit);
    }

    /** `getGenericPassword`: the slot's content, `None` (`false`) when empty. */
    method GetGenericPassword(fault: Option<string>) returns (outcome: Outcome<Option<Credentials>>)
      ensures outcome == if fault.Some? then Rejected(fault.value) else Resolved(credentials)
    {
      if fault.Some? {
        return Rejected(fault.value);
      }
      outcome := Resolved(credentials);
    }

    /** `resetGenericPassword`: empties the slot. */
    method ResetGenericPassword(fault: Option<string>) returns (outcome: Outcome<Unit>)
      modifies this
      ensures fault.None? ==> credentials.None? && outcome == Resolved(Unit)
      ensures fault.Some? ==> credentials == old(credentials) && outcome == Rejected(fault.value)
    {
      if fault.Some? {
        return Rejected(fault.value);
      }
      credentials := None;
      outcome := Resolved(Unit);
    }
  }

  /** What `getSecureValue(key)` reads from the slot: the password, only when
      the stored username is that key. */
  function SlotValue(credentials: Option<Credentials>, key: string): (value: Option<string>)
    ensures value.Some? <==> credentials.Some? && credentials.value.username == key
    ensures value.Some? ==> value.value == credentials.value.password
  {
    if credentials.Some? && credentials.value.username == key then Some(credentials.value.password) else None
  }

  /** `SecureStorageImpl`: a key-value facade over the single slot. */
  class SecureStorage {
    const slot: GenericPasswordSlot

    constructor (slot: GenericPasswordSlot)
      ensures this.slot == slot
    {
      this.slot := slot;
    }

    /** `setSecureValue`: the key becomes the slot's username; a library
        failure is not caught. */
    method SetSecureValue(key: string, value: string, fault: Option<string>) returns (outcome: Outcome<Unit>)
      modifies slot
      ensures fault.None? ==> slot.credentials == Some(Credentials(key, value)) && outcome == Resolved(Unit)
      ensures fault.Some? ==> slot.credentials == old(slot.credentials) && outcome == Rejected(fault.value)
    {
      outcome := slot.SetGenericPassword(key, value, fault);
    }

    /** `getSecureValue`: never rejects; a read failure gives `null`. */
    method GetSecureValue(key: string, fault: Option<string>) returns (value: Option<string>)
      ensures value == if fault.Some? then None else SlotValue(slot.credentials, key)
    {
      var read := slot.GetGenericPassword(fault);
      match read
      case Rejected(_) =>
        value := None;
      case Resolved(credentials) =>
        value := if credentials.Some? && credentials.value.username == key then Some(credentials.value.password) else None;
    }

    /** `clearSecureValue`: ignores its key and empties the slot. */
    method ClearSecureValue(key: string, fault: Option<string>) returns (outcome: Outcome<Unit>)
      modifies slot
      ensures fault.None? ==> slot.credentials.None? && outcome == Resolved(Unit)
      ensures fault.Some? ==> slot.credentials == old(slot.credentials) && outcome == Rejected(fault.value)
    {
      outcome := slot.ResetGenericPassword(fault);
    }
  }

  /** A value stored under a key is read back under that key. */
  method SetThenGet(storage: SecureStorage, key: string, value: string) returns (got: Option<string>)
    modifies storage.slot
    ensures got == Some(value)
  {
    var _ := storage.SetSecureValue(key, value, None);
    got := storage.GetSecureValue(key, None);
  }

  /** There is one slot: storing under a second key loses the first. */
  method SecondKeyEvictsFirst(storage: SecureStorage, k1: string, v1: string, k2: string, v2: string)
      returns (first: Option<string>, second: Option<string>)
    requires k1 != k2
    modifies storage.slot
    ensures first == None && second == Some(v2)
  {
    var _ := storage.SetSecureValue(k1, v1, None);
    var _ := storage.SetSecureValue(k2, v2, None);
    first := storage.GetSecureValue(k1, None);
    second := storage.GetSecureValue(k2, None);
  }

  /** Clearing under any key empties the slot for every key. */
  method ClearThenGet(storage: SecureStorage, clearedKey: string, key: string) returns (got: Option<string>)
    modifies storage.slot
    ensures got == None
  {
    var _ := storage.ClearSecureValue(clearedKey, None);
    got := storage.GetSecureValue(key, None);
  }

  /** The username under which the token store writes. */
  const TOKEN_USERNAME := "auth_token"

  /** What `getToken` returns: the parsed password of whatever credential
      the slot holds (its username is not checked), and `null` when the slot
      is empty, the read fails or the password does not parse. */
  function StoredToken(credentials: Option<Credentials>, json: Codec<SecurityToken, string>, readFails: bool): (token: Option<SecurityToken>)
    ensures readFails || credentials.None? ==> token.None?
  {
    if readFails || credentials.None? then None else json.decode(credentials.value.password)
  }

  /** A saved token is read back unchanged. */
  lemma StoredTokenAfterSave(token: SecurityToken, json: Codec<SecurityToken, string>)
    requires RoundTrips(json)
    ensures StoredToken(Some(Credentials(TOKEN_USERNAME, json.encode(token))), json, false) == Some(token)
  {
    RoundTripAt(json, token);
  }

  /** The token half of `StorageRepositoryImpl` (and `SecureStorageDataSourceImpl`). */
  class TokenVault {
    const slot: GenericPasswordSlot
    const json: Codec<SecurityToken, string>

    constructor (slot: GenericPasswordSlot, json: Codec<SecurityToken, string>)
      ensures this.slot == slot && this.json == json
    {
      this.slot := slot;
      this.json := json;
    }

    /** `saveToken`: the token's JSON under the username "auth_token". */
    method SaveToken(token: SecurityToken, fault: Option<string>) returns (outcome: Outcome<Unit>)
      modifies slot
      ensures fault.None? ==> slot.credentials == Some(Credentials(TOKEN_USERNAME, json.encode(token))) && outcome == Resolved(Unit)
      ensures fault.Some? ==> slot.credentials == old(slot.credentials) && outcome == Rejected(fault.value)
    {
      outcome := slot.SetGenericPassword(TOKEN_USERNAME, json.encode(token), fault);
    }

    /** `getToken`: never rejects. */
    method GetToken(readFails: bool) returns (token: Option<SecurityToken>)
      ensures token == StoredToken(slot.credentials, json, readFails)
    {
      var read := slot.GetGenericPassword(if readFails then Some("keychain read failed") else None);
      match read
      case Rejected(_) =>
        token := None;
      case Resolved(credentials) =>
        token := if credentials.Some? then json.decode(credentials.value.password) else None;
    }

    /** `clearToken`: empties the slot. */
    method ClearToken(fault: Option<string>) returns (outcome: Outcome<Unit>)
      modifies slot
      ensures fault.None? ==> slot.credentials.None? && outcome == Resolved(Unit)
      ensures fault.Some? ==> slot.credentials == old(slot.credentials) && outcome == Rejected(fault.value)
    {
      outcome := slot.ResetGenericPassword(fault);
    }
  }

  /** Save then get returns the saved token. */
  method SaveThenGetToken(vault: TokenVault, token: SecurityToken) returns (got: Option<SecurityToken>)
    requires RoundTrips(vault.json)
    modifies vault.slot
    ensures got == Some(token)
  {
    var _ := vault.SaveToken(token, None);
    StoredTokenAfterSave(token, vault.json);
    got := vault.GetToken(false);
  }

  /** Clear then get returns `null`. */
  method ClearThenGetToken(vault: TokenVault) returns (got: Option<SecurityToken>)
    modifies vault.slot
    ensures got == None
  {
    var _ := vault.ClearToken(None);
    got := vault.GetToken(false);
  }
}
