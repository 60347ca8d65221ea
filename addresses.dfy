/** The address handlers: btc/path_address.go (standard wallets, a
    per-wallet counter read, advanced and overwritten),
    btc/path_segwit_address.go (the same on the segwit namespace) and
    btc/path_multisig_address.go (one fixed P2SH address per wallet). Each
    consumes a single-use token: the token is revoked after the address is
    recorded. */
module Addresses {
  import opened Constants
  import opened Store
  import opened HdWallet
  import opened Wallets
  import opened Credentials

  // -----------------------------------------------------------------------
  // The counter

  /** GetLastUsedAddressIndex on the record at `key`: its Childnum, or 0
      when there is no record. */
  function LastUsedIndex(data: Data, failing: set<Access>, key: string): (r: Result<Uint32>)
    ensures r.Err? <==> Access(GetOp, key) in failing || (key in data && !data[key].AddressEntry?)
    ensures Access(GetOp, key) !in failing && key !in data ==> r == Ok(0)
    ensures r.Ok? && key in data ==> r.value == data[key].address.childnum
  {
    var entry :- Fetch(data, failing, key);
    match entry
    case None => Ok(0)
    case Some(AddressEntry(a)) => Ok(a.childnum)
    case Some(_) => Err(DecodeMismatch)
  }

  /** GetLastUsedAddressIndex on the request's storage; it writes nothing. */
  method GetLastUsedAddressIndex(store: Storage, key: string) returns (r: Result<Uint32>)
    ensures r == LastUsedIndex(store.data, store.failing, key)
  {
    var entry := store.Get(key);
    if entry.Err? {
      return Err(entry.error);
    }
    match entry.value
    case None => r := Ok(0);
    case Some(rec) =>
      if rec.AddressEntry? {
        r := Ok(rec.address.childnum);
      } else {
        r := Err(DecodeMismatch);
      }
  }

  // -----------------------------------------------------------------------
  // Shared steps

  /** The token check of the address and signing handlers: the token must be
      stored in the namespace of `kind` for wallet `owner`; an absent token
      and a token of another wallet are the same error. */
  function CheckToken(data: Data, failing: set<Access>, salt: Salt, kind: WalletKind, t: string, owner: string)
    : (r: Result<Credential>)
    ensures r.Ok? <==>
      && LookupToken(data, failing, salt, kind, t).Ok?
      && LookupToken(data, failing, salt, kind, t).value.Some?
      && LookupToken(data, failing, salt, kind, t).value.value.walletName == owner
    ensures LookupToken(data, failing, salt, kind, t) == Ok(None) ==> r == Err(InvalidToken)
    ensures LookupToken(data, failing, salt, kind, t).Ok? && r.Err? ==> r == Err(InvalidToken)
    ensures r.Ok? ==> r.value == LookupToken(data, failing, salt, kind, t).value.value
  {
    var cred :- LookupToken(data, failing, salt, kind, t);
    if cred.None? || owner != cred.value.walletName then Err(InvalidToken)
    else Ok(cred.value)
  }

  /** The token check on the request's storage. */
  method CheckTokenIn(store: Storage, salt: Salt, kind: WalletKind, t: string, owner: string) returns (r: Result<Credential>)
    ensures r == CheckToken(store.data, store.failing, salt, kind, t, owner)
  {
    var cred := GetToken(store, salt, t, kind);
    if cred.Err? {
      return Err(cred.error);
    }
    if cred.value.None? || owner != cred.value.value.walletName {
      return Err(InvalidToken);
    }
    r := Ok(cred.value.value);
  }

  /** deriveAddress for standard wallets, deriveSegWitAddress for segwit ones. */
  function DeriveFor(c: Crypto, kind: WalletKind, w: Wallet, childnum: Uint32): Result<Address> {
    if kind == SegWit then DeriveSegWitAddress(c, w, childnum) else DeriveAddress(c, w, childnum)
  }

  /** The counter advance of the standard and segwit handlers once the
      token `cred` passed: read the index at `addrKey`, dereference the
      wallet, derive the next address, overwrite the record, revoke. */
  function Advance(
    c: Crypto, data: Data, failing: set<Access>, salt: Salt, kind: WalletKind,
    wallet: Option<Wallet>, addrKey: string, cred: Credential)
    : (s: Step<string>)
    ensures LastUsedIndex(data, failing, addrKey).Err? ==>
      s == Step(Err(LastUsedIndex(data, failing, addrKey).error), data)
    ensures LastUsedIndex(data, failing, addrKey).Ok? && wallet.None? ==> s == Step(Err(NilDereference), data)
    ensures LastUsedIndex(data, failing, addrKey).Ok? && wallet.Some?
      && DeriveFor(c, kind, wallet.value, Inc32(LastUsedIndex(data, failing, addrKey).value)).Err?
      ==> s == Step(Err(DeriveFor(c, kind, wallet.value, Inc32(LastUsedIndex(data, failing, addrKey).value)).error), data)
    ensures s.result.Ok? <==>
      && LastUsedIndex(data, failing, addrKey).Ok? && wallet.Some?
      && DeriveFor(c, kind, wallet.value, Inc32(LastUsedIndex(data, failing, addrKey).value)).Ok?
      && Access(PutOp, addrKey) !in failing
      && salt.available && Access(DeleteOp, TokenKey(salt, kind, cred.token)) !in failing
    ensures s.result.Ok? ==>
      && LastUsedIndex(data, failing, addrKey).Ok? && wallet.Some?
      && var next := Inc32(LastUsedIndex(data, failing, addrKey).value);
      && DeriveFor(c, kind, wallet.value, next) == Ok(Address(next, s.result.value))
      && s.data == (data[addrKey := AddressEntry(Address(next, s.result.value))]) - {TokenKey(salt, kind, cred.token)}
    ensures s.result.Err? ==> s.data == data || (addrKey in s.data && s.data == data[addrKey := s.data[addrKey]])
  {
    match LastUsedIndex(data, failing, addrKey)
    case Err(e) => Step(Err(e), data)
    case Ok(idx) =>
      if wallet.None? then Step(Err(NilDereference), data)
      else
        match DeriveFor(c, kind, wallet.value, Inc32(idx))
        case Err(e) => Step(Err(e), data)
        case Ok(a) =>
          if Access(PutOp, addrKey) in failing then Step(Err(StorageFailure(PutOp, addrKey)), data)
          else
            var written := data[addrKey := AddressEntry(a)];
            var revoked := Revoke(written, failing, salt, kind, Some(cred.token));
            if revoked.result.Err? then Step(Err(revoked.result.error), written)
            else Step(Ok(a.lastAddress), revoked.data)
  }

  /** The counter advance on the request's storage. */
  method RecordNextAddress(
    c: Crypto, store: Storage, salt: Salt, kind: WalletKind,
    wallet: Option<Wallet>, addrKey: string, cred: Credential)
    returns (r: Result<string>)
    modifies store
    ensures Step(r, store.data) == Advance(c, old(store.data), store.failing, salt, kind, wallet, addrKey, cred)
  {
    var childnum := GetLastUsedAddressIndex(store, addrKey);
    if childnum.Err? {
      return Err(childnum.error);
    }
    if wallet.None? {
      return Err(NilDereference);
    }
    var next := Inc32(childnum.value);
    var a := DeriveFor(c, kind, wallet.value, next);
    if a.Err? {
      return Err(a.error);
    }
    var put := store.Put(addrKey, AddressEntry(a.value));
    if put.Fail? {
      return Err(put.error);
    }
    var revoked := RevokeToken(store, salt, cred, kind);
    if revoked.Err? {
      return Err(revoked.error);
    }
    r := Ok(a.value.lastAddress);
  }

  // -----------------------------------------------------------------------
  // Standard wallets

  /** pathAddressWrite. The wallet lookup's error is dropped, so a missing
      wallet is only noticed when it is dereferenced after the index read. */
  function AddressWrite(c: Crypto, data: Data, failing: set<Access>, salt: Salt, name: string, t: string)
    : (s: Step<string>)
    ensures name == "" ==> s == Step(Err(MissingWalletName), data)
    ensures name != "" && t == "" ==> s == Step(Err(MissingToken), data)
    ensures name != "" && t != "" && LookupToken(data, failing, salt, Standard, t).Ok?
      && (LookupToken(data, failing, salt, Standard, t).value.None?
          || LookupToken(data, failing, salt, Standard, t).value.value.walletName != name)
      ==> s == Step(Err(InvalidToken), data)
    ensures s.result.Ok? <==>
      && name != "" && t != ""
      && CheckToken(data, failing, salt, Standard, t, name).Ok?
      && LookupWallet(data, failing, PathWallet + name).Ok?
      && LookupWallet(data, failing, PathWallet + name).value.Some?
      && LastUsedIndex(data, failing, PathAddress + name).Ok?
      && DeriveAddress(c, LookupWallet(data, failing, PathWallet + name).value.value,
                       Inc32(LastUsedIndex(data, failing, PathAddress + name).value)).Ok?
      && Access(PutOp, PathAddress + name) !in failing
      && salt.available
      && Access(DeleteOp, TokenKey(salt, Standard, CheckToken(data, failing, salt, Standard, t, name).value.token)) !in failing
    ensures s.result.Ok? ==>
      && name != "" && t != ""
      && CheckToken(data, failing, salt, Standard, t, name).Ok?
      && LookupWallet(data, failing, PathWallet + name).Ok?
      && LookupWallet(data, failing, PathWallet + name).value.Some?
      && LastUsedIndex(data, failing, PathAddress + name).Ok?
      && var next := Inc32(LastUsedIndex(data, failing, PathAddress + name).value);
      && DeriveAddress(c, LookupWallet(data, failing, PathWallet + name).value.value, next)
         == Ok(Address(next, s.result.value))
      && s.data == (data[PathAddress + name := AddressEntry(Address(next, s.result.value))])
                   - {TokenKey(salt, Standard, CheckToken(data, failing, salt, Standard, t, name).value.token)}
    ensures s.result.Err? ==>
      s.data == data || (PathAddress + name in s.data && s.data == data[PathAddress + name := s.data[PathAddress + name]])
  {
    if name == "" then Step(Err(MissingWalletName), data)
    else if t == "" then Step(Err(MissingToken), data)
    else
      match CheckToken(data, failing, salt, Standard, t, name)
      case Err(e) => Step(Err(e), data)
      case Ok(cred) =>
        var found := LookupWallet(data, failing, PathWallet + name);
        var wallet := if found.Ok? then found.value else None;
        Advance(c, data, failing, salt, Standard, wallet, PathAddress + name, cred)
  }

  /** pathAddressWrite on the request's storage. */
  method PathAddressWrite(c: Crypto, store: Storage, salt: Salt, name: string, t: string) returns (r: Result<string>)
    modifies store
    ensures Step(r, store.data) == AddressWrite(c, old(store.data), store.failing, salt, name, t)
  {
    if name == "" {
      return Err(MissingWalletName);
    }
    if t == "" {
      return Err(MissingToken);
    }
    var cred := CheckTokenIn(store, salt, Standard, t, name);
    if cred.Err? {
      return Err(cred.error);
    }
    var found := GetWallet(store, name);
    var wallet := if found.Ok? then found.value else None;
    r := RecordNextAddress(c, store, salt, Standard, wallet, PathAddress + name, cred.value);
  }

  /** The recorded index moves one step forward in uint32, so it strictly
      grows until it wraps, and the next read of the counter sees it. */
  lemma AddressIndexAdvances(c: Crypto, data: Data, failing: set<Access>, salt: Salt, name: string, t: string)
    requires AddressWrite(c, data, failing, salt, name, t).result.Ok?
    requires Access(GetOp, PathAddress + name) !in failing
    ensures var old_index := LastUsedIndex(data, failing, PathAddress + name).value;
      var after := AddressWrite(c, data, failing, salt, name, t).data;
      && LastUsedIndex(after, failing, PathAddress + name) == Ok(Inc32(old_index))
      && (old_index < Uint32Modulus - 1 ==> LastUsedIndex(after, failing, PathAddress + name).value > old_index)
  {
    var cred := CheckToken(data, failing, salt, Standard, t, name).value;
    assert PathAddress + name != TokenKey(salt, Standard, cred.token) by {
      assert (PathAddress + name)[0] == 'a';
      assert TokenKey(salt, Standard, cred.token)[0] == 'c';
    }
  }

  /** A token works once: after a successful use the same token is refused,
      given that its credential records the token it was issued for. */
  lemma AddressTokenSingleUse(c: Crypto, data: Data, failing: set<Access>, salt: Salt, name: string, t: string)
    requires AddressWrite(c, data, failing, salt, name, t).result.Ok?
    requires CheckToken(data, failing, salt, Standard, t, name).value.token == t
    requires Access(GetOp, TokenKey(salt, Standard, t)) !in failing
    ensures var after := AddressWrite(c, data, failing, salt, name, t).data;
      AddressWrite(c, after, failing, salt, name, t) == Step(Err(InvalidToken), after)
  {
    var after := AddressWrite(c, data, failing, salt, name, t).data;
    assert TokenKey(salt, Standard, t) !in after;
    assert LookupToken(after, failing, salt, Standard, t) == Ok(None);
  }

  /** Issue a token for a wallet, spend it on an address, spend it again:
      the second use is refused and changes nothing. */
  lemma IssueUseReuse(c: Crypto, data: Data, failing: set<Access>, salt: Salt, uuid: string, name: string)
    requires CredsIssue(data, failing, salt, uuid, name).result.Ok?
    requires uuid != ""
    requires Access(GetOp, TokenKey(salt, Standard, uuid)) !in failing
    requires AddressWrite(c, CredsIssue(data, failing, salt, uuid, name).data, failing, salt, name, uuid).result.Ok?
    ensures var issued := CredsIssue(data, failing, salt, uuid, name).data;
      var used := AddressWrite(c, issued, failing, salt, name, uuid).data;
      AddressWrite(c, used, failing, salt, name, uuid) == Step(Err(InvalidToken), used)
  {
    var issued := CredsIssue(data, failing, salt, uuid, name).data;
    IssueThenLookup(data, failing, salt, uuid, name);
    AddressTokenSingleUse(c, issued, failing, salt, name, uuid);
  }

  // -----------------------------------------------------------------------
  // Segwit wallets

  /** pathSegWitAddressWrite with `owner` the name under which the token
      owner, the wallet and the counter are looked up: the code prefixes
      the request's name with SegWitPrefix, while the segwit wallet handler
      and the signing handler use the bare name. */
  function SegWitAddressStep(c: Crypto, data: Data, failing: set<Access>, salt: Salt, name: string, t: string, owner: string)
    : (s: Step<string>)
    ensures name == "" ==> s == Step(Err(MissingWalletName), data)
    ensures name != "" && t == "" ==> s == Step(Err(MissingToken), data)
    ensures name != "" && t != "" && LookupToken(data, failing, salt, SegWit, t).Ok?
      && (LookupToken(data, failing, salt, SegWit, t).value.None?
          || LookupToken(data, failing, salt, SegWit, t).value.value.walletName != owner)
      ==> s == Step(Err(InvalidToken), data)
    ensures name != "" && t != "" && CheckToken(data, failing, salt, SegWit, t, owner).Ok?
      && LookupWallet(data, failing, PathSegWitWallet + owner) == Ok(None)
      && LastUsedIndex(data, failing, PathSegWitAddress + owner).Ok?
      ==> s == Step(Err(NilDereference), data)
    ensures s.result.Ok? <==>
      && name != "" && t != ""
      && CheckToken(data, failing, salt, SegWit, t, owner).Ok?
      && LookupWallet(data, failing, PathSegWitWallet + owner).Ok?
      && LookupWallet(data, failing, PathSegWitWallet + owner).value.Some?
      && LastUsedIndex(data, failing, PathSegWitAddress + owner).Ok?
      && DeriveSegWitAddress(c, LookupWallet(data, failing, PathSegWitWallet + owner).value.value,
                             Inc32(LastUsedIndex(data, failing, PathSegWitAddress + owner).value)).Ok?
      && Access(PutOp, PathSegWitAddress + owner) !in failing
      && salt.available
      && Access(DeleteOp, TokenKey(salt, SegWit, CheckToken(data, failing, salt, SegWit, t, owner).value.token)) !in failing
    ensures s.result.Ok? ==>
      && var key := PathSegWitAddress + owner;
      && CheckToken(data, failing, salt, SegWit, t, owner).Ok?
      && LookupWallet(data, failing, PathSegWitWallet + owner).Ok?
      && LookupWallet(data, failing, PathSegWitWallet + owner).value.Some?
      && LastUsedIndex(data, failing, key).Ok?
      && var next := Inc32(LastUsedIndex(data, failing, key).value);
      && DeriveSegWitAddress(c, LookupWallet(data, failing, PathSegWitWallet + owner).value.value, next)
         == Ok(Address(next, s.result.value))
      && s.data == (data[key := AddressEntry(Address(next, s.result.value))])
                   - {TokenKey(salt, SegWit, CheckToken(data, failing, salt, SegWit, t, owner).value.token)}
    ensures s.result.Err? ==>
      var key := PathSegWitAddress + owner;
      s.data == data || (key in s.data && s.data == data[key := s.data[key]])
  {
    if name == "" then Step(Err(MissingWalletName), data)
    else if t == "" then Step(Err(MissingToken), data)
    else
      match CheckToken(data, failing, salt, SegWit, t, owner)
      case Err(e) => Step(Err(e), data)
      case Ok(cred) =>
        match LookupWallet(data, failing, PathSegWitWallet + owner)
        case Err(e) => Step(Err(e), data)
        case Ok(wallet) => Advance(c, data, failing, salt, SegWit, wallet, PathSegWitAddress + owner, cred)
  }

  /** pathSegWitAddressWrite as written: everything keyed by SegWitPrefix + name. */
  function SegWitAddressWriteAsWritten(c: Crypto, data: Data, failing: set<Access>, salt: Salt, name: string, t: string)
    : (s: Step<string>)
    ensures LastUsedIndex(s.data, failing, PathSegWitAddress + name) == LastUsedIndex(data, failing, PathSegWitAddress + name)
  {
    var key := PathSegWitAddress + name;
    var pre := PathSegWitAddress + (SegWitPrefix + name);
    assert key != pre by {
      assert |key| < |pre|;
    }
    var r := SegWitAddressStep(c, data, failing, salt, name, t, SegWitPrefix + name);
    if r.result.Err? then r
    else
      assert key != TokenKey(salt, SegWit, CheckToken(data, failing, salt, SegWit, t, SegWitPrefix + name).value.token) by {
        assert key[0] == 'a';
      }
      r
  }

  /** pathSegWitAddressWrite as the other segwit handlers need it: the wallet,
      its token and its counter keyed by the bare name. */
  function SegWitAddressWrite(c: Crypto, data: Data, failing: set<Access>, salt: Salt, name: string, t: string)
    : (s: Step<string>)
    ensures s.result.Ok? ==>
      && LastUsedIndex(data, failing, PathSegWitAddress + name).Ok?
      && LastUsedIndex(s.data, failing, PathSegWitAddress + name)
         == Ok(Inc32(LastUsedIndex(data, failing, PathSegWitAddress + name).value))
  {
    var r := SegWitAddressStep(c, data, failing, salt, name, t, name);
    if r.result.Err? then r
    else
      var key := PathSegWitAddress + name;
      assert key != TokenKey(salt, SegWit, CheckToken(data, failing, salt, SegWit, t, name).value.token) by {
        assert key[0] == 'a';
      }
      r
  }

  /** pathSegWitAddressWrite on the request's storage, keyed by the bare name. */
  method PathSegWitAddressWrite(c: Crypto, store: Storage, salt: Salt, name: string, t: string) returns (r: Result<string>)
    modifies store
    ensures Step(r, store.data) == SegWitAddressWrite(c, old(store.data), store.failing, salt, name, t)
  {
    if name == "" {
      return Err(MissingWalletName);
    }
    if t == "" {
      return Err(MissingToken);
    }
    var cred := CheckTokenIn(store, salt, SegWit, t, name);
    if cred.Err? {
      return Err(cred.error);
    }
    var wallet := GetSegWitWallet(store, name);
    if wallet.Err? {
      return Err(wallet.error);
    }
    r := RecordNextAddress(c, store, salt, SegWit, wallet.value, PathSegWitAddress + name, cred.value);
  }

  /** As written, an address request right after a segwit wallet write never
      succeeds: the wallet was stored under the bare name and is looked up
      under the prefixed one. */
  lemma SegWitAddressFailsAfterWalletWrite(
    c: Crypto, data: Data, failing: set<Access>, salt: Salt, mnemonic: string, network: string, name: string, t: string)
    requires SegWitWalletWrite(data, failing, mnemonic, network, name).result.Ok?
    requires PathSegWitWallet + (SegWitPrefix + name) !in data
    ensures var written := SegWitWalletWrite(data, failing, mnemonic, network, name).data;
      SegWitAddressWriteAsWritten(c, written, failing, salt, name, t).result.Err?
  {
    var written := SegWitWalletWrite(data, failing, mnemonic, network, name).data;
    var pre := PathSegWitWallet + (SegWitPrefix + name);
    assert PathSegWitWallet + name != pre by {
      assert |PathSegWitWallet + name| < |pre|;
    }
    assert pre !in written;
  }

  /** As written, with a token issued for the prefixed name, the request
      gets as far as dereferencing the missing wallet. */
  lemma SegWitAddressMissesWallet(
    c: Crypto, data: Data, failing: set<Access>, salt: Salt, mnemonic: string, network: string, name: string, t: string)
    requires SegWitWalletWrite(data, failing, mnemonic, network, name).result.Ok?
    requires PathSegWitWallet + (SegWitPrefix + name) !in data
    requires PathSegWitAddress + (SegWitPrefix + name) !in data
    requires Access(GetOp, PathSegWitWallet + (SegWitPrefix + name)) !in failing
    requires Access(GetOp, PathSegWitAddress + (SegWitPrefix + name)) !in failing
    requires CheckToken(SegWitWalletWrite(data, failing, mnemonic, network, name).data, failing, salt, SegWit, t, SegWitPrefix + name).Ok?
    requires t != ""
    ensures var written := SegWitWalletWrite(data, failing, mnemonic, network, name).data;
      SegWitAddressWriteAsWritten(c, written, failing, salt, name, t) == Step(Err(NilDereference), written)
  {
    var written := SegWitWalletWrite(data, failing, mnemonic, network, name).data;
    var pre := PathSegWitWallet + (SegWitPrefix + name);
    assert PathSegWitWallet + name != pre by {
      assert |PathSegWitWallet + name| < |pre|;
    }
    assert PathSegWitAddress + (SegWitPrefix + name) != PathSegWitWallet + name by {
      assert (PathSegWitAddress + (SegWitPrefix + name))[0] == 'a';
      assert (PathSegWitWallet + name)[0] == 'w';
    }
  }

  /** With one name throughout, the sequence of the segwit address test
      succeeds: write a segwit wallet, hold a token for it, request an
      address; the answer is the segwit address at index 1 and the counter
      records it. */
  lemma SegWitWalletThenAddress(
    c: Crypto, data: Data, failing: set<Access>, salt: Salt, mnemonic: string, network: string, name: string, t: string)
    requires SegWitWalletWrite(data, failing, mnemonic, network, name).result.Ok?
    requires t != ""
    requires CheckToken(SegWitWalletWrite(data, failing, mnemonic, network, name).data, failing, salt, SegWit, t, name).Ok?
    requires PathSegWitAddress + name !in data
    requires Access(GetOp, PathSegWitAddress + name) !in failing
    requires Access(PutOp, PathSegWitAddress + name) !in failing
    requires Access(DeleteOp, TokenKey(salt, SegWit, t)) !in failing
    requires CheckToken(SegWitWalletWrite(data, failing, mnemonic, network, name).data, failing, salt, SegWit, t, name).value.token == t
    requires DeriveSegWitAddress(c, CreateSegWitWallet(mnemonic, network), 1).Ok?
    ensures var written := SegWitWalletWrite(data, failing, mnemonic, network, name).data;
      var after := SegWitAddressWrite(c, written, failing, salt, name, t);
      && after.result == Ok(DeriveSegWitAddress(c, CreateSegWitWallet(mnemonic, network), 1).value.lastAddress)
      && LastUsedIndex(after.data, failing, PathSegWitAddress + name) == Ok(1)
  {
    var written := SegWitWalletWrite(data, failing, mnemonic, network, name).data;
    var key := PathSegWitAddress + name;
    assert key != PathSegWitWallet + name by {
      assert key[0] == 'a' && (PathSegWitWallet + name)[0] == 'w';
    }
    assert key != TokenKey(salt, SegWit, t) by {
      assert key[0] == 'a' && TokenKey(salt, SegWit, t)[0] == 'c';
    }
    assert key !in written;
    assert LastUsedIndex(written, failing, key) == Ok(0);
    assert LookupWallet(written, failing, PathSegWitWallet + name) == Ok(Some(CreateSegWitWallet(mnemonic, network)));
  }

  // -----------------------------------------------------------------------
  // Multisig wallets

  /** pathMultiSigAddressWrite: the P2SH address of the wallet's redeem
      script; no address record is kept, the only write is the revoke. */
  function MultiSigAddressWrite(c: Crypto, data: Data, failing: set<Access>, salt: Salt, name: string, t: string)
    : (s: Step<string>)
    ensures name == "" ==> s == Step(Err(MissingWalletName), data)
    ensures name != "" && t == "" ==> s == Step(Err(MissingToken), data)
    ensures name != "" && t != "" && LookupToken(data, failing, salt, MultiSig, t).Ok?
      && (LookupToken(data, failing, salt, MultiSig, t).value.None?
          || LookupToken(data, failing, salt, MultiSig, t).value.value.walletName != name)
      ==> s == Step(Err(InvalidToken), data)
    ensures s.result.Err? ==> s.data == data
    ensures s.result.Ok? <==>
      && name != "" && t != ""
      && CheckToken(data, failing, salt, MultiSig, t, name).Ok?
      && LookupMultiSig(data, failing, name).Ok? && LookupMultiSig(data, failing, name).value.Some?
      && GetMultiSigAddress(c, LookupMultiSig(data, failing, name).value.value.redeemScript,
                            LookupMultiSig(data, failing, name).value.value.wallet.network).Ok?
      && salt.available
      && Access(DeleteOp, TokenKey(salt, MultiSig, CheckToken(data, failing, salt, MultiSig, t, name).value.token)) !in failing
    ensures s.result.Ok? ==>
      && CheckToken(data, failing, salt, MultiSig, t, name).Ok?
      && LookupMultiSig(data, failing, name).Ok? && LookupMultiSig(data, failing, name).value.Some?
      && var w := LookupMultiSig(data, failing, name).value.value;
      && GetMultiSigAddress(c, w.redeemScript, w.wallet.network) == Ok(s.result.value)
      && s.data == data - {TokenKey(salt, MultiSig, CheckToken(data, failing, salt, MultiSig, t, name).value.token)}
  {
    if name == "" then Step(Err(MissingWalletName), data)
    else if t == "" then Step(Err(MissingToken), data)
    else
      match CheckToken(data, failing, salt, MultiSig, t, name)
      case Err(e) => Step(Err(e), data)
      case Ok(cred) =>
        match LookupMultiSig(data, failing, name)
        case Err(e) => Step(Err(e), data)
        case Ok(None) => Step(Err(NilDereference), data)
        case Ok(Some(w)) =>
          match GetMultiSigAddress(c, w.redeemScript, w.wallet.network)
          case Err(e) => Step(Err(e), data)
          case Ok(address) =>
            var revoked := Revoke(data, failing, salt, MultiSig, Some(cred.token));
            if revoked.result.Err? then Step(Err(revoked.result.error), data)
            else Step(Ok(address), revoked.data)
  }

  /** pathMultiSigAddressWrite on the request's storage. */
  method PathMultiSigAddressWrite(c: Crypto, store: Storage, salt: Salt, name: string, t: string) returns (r: Result<string>)
    modifies store
    ensures Step(r, store.data) == MultiSigAddressWrite(c, old(store.data), store.failing, salt, name, t)
  {
    if name == "" {
      return Err(MissingWalletName);
    }
    if t == "" {
      return Err(MissingToken);
    }
    var cred := CheckTokenIn(store, salt, MultiSig, t, name);
    if cred.Err? {
      return Err(cred.error);
    }
    var w := GetMultiSigWallet(store, name);
    if w.Err? {
      return Err(w.error);
    }
    if w.value.None? {
      return Err(NilDereference);
    }
    var address := GetMultiSigAddress(c, w.value.value.redeemScript, w.value.value.wallet.network);
    if address.Err? {
      return Err(address.error);
    }
    var revoked := RevokeToken(store, salt, cred.value, MultiSig);
    if revoked.Err? {
      return Err(revoked.error);
    }
    r := Ok(address.value);
  }

  /** Two successful address requests on one multisig wallet, the second
      on the storage the first left, answer the same address. */
  lemma MultiSigAddressFixed(c: Crypto, data: Data, failing: set<Access>, salt: Salt, name: string, t1: string, t2: string)
    requires MultiSigAddressWrite(c, data, failing, salt, name, t1).result.Ok?
    requires MultiSigAddressWrite(c, MultiSigAddressWrite(c, data, failing, salt, name, t1).data, failing, salt, name, t2).result.Ok?
    ensures MultiSigAddressWrite(c, MultiSigAddressWrite(c, data, failing, salt, name, t1).data, failing, salt, name, t2).result
      == MultiSigAddressWrite(c, data, failing, salt, name, t1).result
  {
    var cred := CheckToken(data, failing, salt, MultiSig, t1, name).value;
    var key := PathMultiSigWallet + name;
    assert key != TokenKey(salt, MultiSig, cred.token) by {
      assert key[0] == 'w';
      assert TokenKey(salt, MultiSig, cred.token)[0] == 'c';
    }
    var after := MultiSigAddressWrite(c, data, failing, salt, name, t1).data;
    assert LookupMultiSig(after, failing, name) == LookupMultiSig(data, failing, name);
  }
}
