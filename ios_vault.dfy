/** The iOS native vault (ios/CatsApiApp/SecureVaultModule.swift): each
    value is a generic-password Keychain item whose account is the key and
    whose data is the value's UTF-8 bytes (no encryption of its own). The
    Keychain is a map from account to bytes; a failing Keychain call is a
    parameter holding the status it returns. UTF-8 is an abstract codec. */
module IosVault {
  import opened Wrappers
  import opened Codecs

  type Bytes = seq<bv8>

  const errSecSuccess := 0
  const errSecDuplicateItem := -25299
  const errSecItemNotFound := -25300
  const KEYCHAIN_ERROR := "KEYCHAIN_ERROR"

  /** A failure status other than success and "not found". */
  predicate IsFailure(status: Option<int>) {
    status.Some? ==> status.value != errSecSuccess && status.value != errSecItemNotFound
  }

  /** What `getSecureValue(key)` settles to: the decoded item, `nil` when
      there is no item or its bytes are not UTF-8, and a rejection on any
      other Keychain status. */
  function StoredValue(items: map<string, Bytes>, utf8: Codec<string, Bytes>, key: string, fault: Option<int>): (r: Outcome<Option<string>>)
    ensures fault.Some? <==> r.Rejected?
    ensures r.Rejected? ==> r.reason == KEYCHAIN_ERROR
    ensures fault.None? && key !in items ==> r == Resolved(None)
  {
    if fault.Some? then Rejected(KEYCHAIN_ERROR)
    else if key !in items then Resolved(None)
    else Resolved(utf8.decode(items[key]))
  }

  /** A value written as UTF-8 reads back unchanged. */
  lemma StoredValueAfterWrite(items: map<string, Bytes>, utf8: Codec<string, Bytes>, key: string, value: string)
    requires RoundTrips(utf8)
    ensures StoredValue(items[key := utf8.encode(value)], utf8, key, None) == Resolved(Some(value))
  {
    RoundTripAt(utf8, value);
  }

  /** The items after `SecItemDelete` then `SecItemAdd` of `data` under the
      account, the status of the add, and so whether the write took effect.
      A failed delete is ignored, so an existing item then makes the add
      fail as a duplicate and the old value stays. */
  function Replace(items: map<string, Bytes>, account: string, data: Bytes,
                   deleteFault: Option<int>, addFault: Option<int>): (r: (int, map<string, Bytes>))
    requires IsFailure(deleteFault) && IsFailure(addFault)
    ensures r.0 == errSecSuccess ==> r.1 == items[account := data]
    ensures r.0 != errSecSuccess ==> r.1 == (if deleteFault.None? then items - {account} else items)
    ensures deleteFault.None? && addFault.None? ==> r.0 == errSecSuccess
  {
    var afterDelete := if deleteFault.None? then items - {account} else items;
    if addFault.Some? then (addFault.value, afterDelete)
    else if account in afterDelete then (errSecDuplicateItem, afterDelete)
    else
      assert afterDelete[account := data] == items[account := data];
      (errSecSuccess, afterDelete[account := data])
  }

  /** Without Keychain failures, writing is last-write-wins. */
  lemma ReplaceLastWriteWins(items: map<string, Bytes>, account: string, first: Bytes, second: Bytes)
    ensures Replace(Replace(items, account, first, None, None).1, account, second, None, None)
            == (errSecSuccess, items[account := second])
  {
    assert items[account := first] - {account} == items - {account};
    assert (items - {account})[account := second] == items[account := second];
  }

  /** The failed delete is not checked: an existing item then makes the add
      a duplicate, the write is refused and the old value stays. */
  lemma ReplaceAfterFailedDelete(items: map<string, Bytes>, account: string, data: Bytes, deleteStatus: int)
    requires account in items && deleteStatus != errSecSuccess && deleteStatus != errSecItemNotFound
    ensures Replace(items, account, data, Some(deleteStatus), None) == (errSecDuplicateItem, items)
  {
  }

  /** The native vault over the Keychain items. */
  class IosSecureVault {
    var items: map<string, Bytes>
    const utf8: Codec<string, Bytes>

    constructor (items: map<string, Bytes>, utf8: Codec<string, Bytes>)
      ensures this.items == items && this.utf8 == utf8
    {
      this.items := items;
      this.utf8 := utf8;
    }

    /** `SecItemDelete` for the account. */
    method SecItemDelete(account: string, fault: Option<int>) returns (status: int)
      requires IsFailure(fault)
      modifies this
      ensures fault.Some? ==> status == fault.value && items == old(items)
      ensures fault.None? ==> items == old(items) - {account}
                              && status == if account in old(items) then errSecSuccess else errSecItemNotFound
    {
      if fault.Some? {
        return fault.value;
      }
      status := if account in items then errSecSuccess else errSecItemNotFound;
      items := items - {account};
    }

    /** `SecItemAdd` of a new item; an existing account is a duplicate. */
    method SecItemAdd(account: string, data: Bytes, fault: Option<int>) returns (status: int)
      requires IsFailure(fault)
      modifies this
      ensures fault.Some? ==> status == fault.value && items == old(items)
      ensures fault.None? && account in old(items) ==> status == errSecDuplicateItem && items == old(items)
      ensures fault.None? && account !in old(items) ==> status == errSecSuccess && items == old(items)[account := data]
    {
      if fault.Some? {
        return fault.value;
      }
      if account in items {
        return errSecDuplicateItem;
      }
      items := items[account := data];
      status := errSecSuccess;
    }

    /** Delete, then add: the step both `setSecureValue` and `tokenizeCard` take. */
    method DeleteThenAdd(account: string, data: Bytes, deleteFault: Option<int>, addFault: Option<int>) returns (status: int)
      requires IsFailure(deleteFault) && IsFailure(addFault)
      modifies this
      ensures (status, items) == Replace(old(items), account, data, deleteFault, addFault)
    {
      var _ := SecItemDelete(account, deleteFault);
      status := SecItemAdd(account, data, addFault);
    }

    /** `setSecureValue`: resolves `true` exactly when the add succeeds,
        otherwise rejects "KEYCHAIN_ERROR". */
    method SetSecureValue(key: string, value: string, deleteFault: Option<int>, addFault: Option<int>) returns (outcome: Outcome<bool>)
      requires IsFailure(deleteFault) && IsFailure(addFault)
      modifies this
      ensures var (status, after) := Replace(old(items), key, utf8.encode(value), deleteFault, addFault);
              && items == after
              && outcome == if status == errSecSuccess then Resolved(true) else Rejected(KEYCHAIN_ERROR)
    {
      var status := DeleteThenAdd(key, utf8.encode(value), deleteFault, addFault);
      outcome := if status == errSecSuccess then Resolved(true) else Rejected(KEYCHAIN_ERROR);
    }

    /** `getSecureValue`: unlike the Android vault, a Keychain failure
        other than "not found" rejects. */
    method GetSecureValue(key: string, fault: Option<int>) returns (outcome: Outcome<Option<string>>)
      requires IsFailure(fault)
      ensures outcome == StoredValue(items, utf8, key, fault)
    {
      var status := if fault.Some? then fault.value else if key in items then errSecSuccess else errSecItemNotFound;
      if status == errSecSuccess {
        outcome := Resolved(utf8.decode(items[key]));
      } else if status == errSecItemNotFound {
        outcome := Resolved(None);
      } else {
        outcome := Rejected(KEYCHAIN_ERROR);
      }
    }

    /** `clearSecureValue`: success and "not found" both resolve `true`. */
    method ClearSecureValue(key: string, fault: Option<int>) returns (outcome: Outcome<bool>)
      requires IsFailure(fault)
      modifies this
      ensures fault.None? ==> outcome == Resolved(true) && items == old(items) - {key}
      ensures fault.Some? ==> outcome == Rejected(KEYCHAIN_ERROR) && items == old(items)
    {
      var status := SecItemDelete(key, fault);
      if status == errSecSuccess || status == errSecItemNotFound {
        outcome := Resolved(true);
      } else {
        outcome := Rejected(KEYCHAIN_ERROR);
      }
    }

    /** `tokenizeCard`: stores the card number's UTF-8 bytes, unencrypted,
        under the fresh token and resolves the token; a failed add rejects
        and yields no token. */
    method TokenizeCard(cardNumber: string, token: string, deleteFault: Option<int>, addFault: Option<int>) returns (outcome: Outcome<string>)
      requires IsFailure(deleteFault) && IsFailure(addFault)
      modifies this
      ensures var (status, after) := Replace(old(items), token, utf8.encode(cardNumber), deleteFault, addFault);
              && items == after
              && outcome == if status == errSecSuccess then Resolved(token) else Rejected(KEYCHAIN_ERROR)
    {
      var status := DeleteThenAdd(token, utf8.encode(cardNumber), deleteFault, addFault);
      outcome := if status == errSecSuccess then Resolved(token) else Rejected(KEYCHAIN_ERROR);
    }
  }

  /** A stored value reads back; writing the key again replaces it. */
  method SetSetGet(vault: IosSecureVault, key: string, first: string, second: string) returns (got: Outcome<Option<string>>)
    requires RoundTrips(vault.utf8)
    modifies vault
    ensures got == Resolved(Some(second))
  {
    var _ := vault.SetSecureValue(key, first, None, None);
    var _ := vault.SetSecureValue(key, second, None, None);
    StoredValueAfterWrite(vault.items, vault.utf8, key, second);
    got := vault.GetSecureValue(key, None);
  }

  /** Clearing is idempotent: clearing twice succeeds twice, and the key then
      reads `nil`. */
  method ClearTwice(vault: IosSecureVault, key: string) returns (first: Outcome<bool>, second: Outcome<bool>, got: Outcome<Option<string>>)
    modifies vault
    ensures first == Resolved(true) && second == Resolved(true) && got == Resolved(None)
    ensures vault.items == old(vault.items) - {key}
  {
    first := vault.ClearSecureValue(key, None);
    second := vault.ClearSecureValue(key, None);
    got := vault.GetSecureValue(key, None);
  }

  /** A tokenized card number reads back under its token. */
  method TokenizeThenRead(vault: IosSecureVault, cardNumber: string, token: string)
      returns (outcome: Outcome<string>, got: Outcome<Option<string>>)
    requires RoundTrips(vault.utf8)
    modifies vault
    ensures outcome == Resolved(token) && got == Resolved(Some(cardNumber))
  {
    outcome := vault.TokenizeCard(cardNumber, token, None, None);
    StoredValueAfterWrite(old(vault.items) - {token}, vault.utf8, token, cardNumber);
    got := vault.GetSecureValue(token, None);
  }
}
