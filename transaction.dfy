/** Transaction signing (btc/path_transaction.go): the mode picks the wallet
    kind, a single-use token of that kind authorises the request, the raw
    transaction is double-hashed and signed with the wallet's key at its
    path extended by the signing index, and the token is revoked once the
    signature exists. */
module Transaction {
  import opened Constants
  import opened Hex
  import opened Store
  import opened HdWallet
  import opened Wallets
  import opened Credentials
  import opened Addresses

  /** parseMode. */
  function ParseMode(mode: string): (r: Result<WalletKind>)
    ensures r == Ok(Standard) <==> mode == "standard"
    ensures r == Ok(MultiSig) <==> mode == "multisig"
    ensures r == Ok(SegWit) <==> mode == "segwit"
    ensures r.Err? <==> mode !in {"standard", "multisig", "segwit"}
    ensures r.Err? ==> r.error == InvalidMode
  {
    if mode == "standard" then Ok(Standard)
    else if mode == "multisig" then Ok(MultiSig)
    else if mode == "segwit" then Ok(SegWit)
    else Err(InvalidMode)
  }

  /** The index of the signing key as the code picks it: the counter of the
      segwit namespace for segwit wallets, of the standard one otherwise. */
  function SigningIndexAsWritten(data: Data, failing: set<Access>, kind: WalletKind, name: string): (r: Result<Uint32>)
    ensures kind == SegWit ==> r == LastUsedIndex(data, failing, PathSegWitAddress + name)
    ensures kind != SegWit ==> r == LastUsedIndex(data, failing, PathAddress + name)
  {
    var key := (if kind == SegWit then PathSegWitAddress else PathAddress) + name;
    LastUsedIndex(data, failing, key)
  }

  /** The index of the signing key: the counter under the bare wallet name
      for standard and segwit wallets (for segwit the counter that the
      bare-name address handler advances, see SegWitSigningSeesLastAddress),
      and for a multisig wallet the index of the vault's own key in its
      redeem script. */
  function SigningIndex(data: Data, failing: set<Access>, kind: WalletKind, name: string): (r: Result<Uint32>)
    ensures kind == MultiSig ==> r == Ok(MultiSigDefaultAddressIndex)
    ensures kind != MultiSig ==> r == SigningIndexAsWritten(data, failing, kind, name)
  {
    if kind == MultiSig then Ok(MultiSigDefaultAddressIndex)
    else SigningIndexAsWritten(data, failing, kind, name)
  }

  /** The signature bytes over the raw transaction with the key of `w` at
      index `index`. A derivation error is dropped by the handler, so it
      surfaces as the dereference of a missing key. */
  function Signature(c: Crypto, w: Wallet, index: Uint32, rawTx: string): (r: Result<seq<Byte>>)
    ensures GetMasterKey(c, c.seed(w.mnemonic), w.network).Err? ==> r == Err(GetMasterKey(c, c.seed(w.mnemonic), w.network).error)
    ensures GetMasterKey(c, c.seed(w.mnemonic), w.network).Ok? && KeyAt(c, w, index).Err? ==> r == Err(NilDereference)
    ensures KeyAt(c, w, index).Ok? && c.ecPrivKey(KeyAt(c, w, index).value).Ok? && Hex.Decode(rawTx).Err?
      ==> r == Err(Hex.Decode(rawTx).error)
    ensures KeyAt(c, w, index).Ok? && c.ecPrivKey(KeyAt(c, w, index).value).Err?
      ==> r == Err(c.ecPrivKey(KeyAt(c, w, index).value).error)
    ensures KeyAt(c, w, index).Ok? && c.ecPrivKey(KeyAt(c, w, index).value).Ok? && Hex.Decode(rawTx).Ok?
      ==> r == c.sign(c.ecPrivKey(KeyAt(c, w, index).value).value, c.doubleHash(Hex.Decode(rawTx).value))
    ensures r.Ok? ==>
      && KeyAt(c, w, index).Ok?
      && c.ecPrivKey(KeyAt(c, w, index).value).Ok?
      && Hex.Decode(rawTx).Ok?
      && c.sign(c.ecPrivKey(KeyAt(c, w, index).value).value, c.doubleHash(Hex.Decode(rawTx).value)) == r
  {
    var master :- GetMasterKey(c, c.seed(w.mnemonic), w.network);
    var derived := Derive(c, master, w.derivationPath + [index]);
    if derived.Err? then Err(NilDereference)
    else
      var priv :- c.ecPrivKey(derived.value);
      var bytes :- Hex.Decode(rawTx);
      c.sign(priv, c.doubleHash(bytes))
  }

  /** pathTransactionWrite with the signing index chosen as written or as
      intended. The checks run in the order name, mode, token, wallet, raw
      transaction; every failure leaves storage as it was, and success
      deletes exactly the spent token. */
  function TransactionStep(
    c: Crypto, data: Data, failing: set<Access>, salt: Salt,
    name: string, mode: string, t: string, rawTx: string, asWritten: bool)
    : (s: Step<string>)
    ensures name == "" ==> s == Step(Err(MissingWalletName), data)
    ensures name != "" && ParseMode(mode).Err? ==> s == Step(Err(InvalidMode), data)
    ensures name != "" && ParseMode(mode).Ok? && t == "" ==> s == Step(Err(MissingToken), data)
    ensures name != "" && ParseMode(mode).Ok? && t != ""
      && LookupToken(data, failing, salt, ParseMode(mode).value, t).Ok?
      && CheckToken(data, failing, salt, ParseMode(mode).value, t, name).Err?
      ==> s == Step(Err(InvalidToken), data)
    ensures name != "" && ParseMode(mode).Ok? && t != ""
      && CheckToken(data, failing, salt, ParseMode(mode).value, t, name).Ok?
      && WalletByType(data, failing, name, ParseMode(mode).value) == Ok(None)
      ==> s == Step(Err(WalletNotFound), data)
    ensures name != "" && ParseMode(mode).Ok? && t != ""
      && CheckToken(data, failing, salt, ParseMode(mode).value, t, name).Ok?
      && WalletByType(data, failing, name, ParseMode(mode).value).Ok?
      && WalletByType(data, failing, name, ParseMode(mode).value).value.Some?
      && rawTx == ""
      ==> s == Step(Err(MissingRawTx), data)
    ensures s.result.Err? ==> s.data == data
    ensures rawTx != "" && Hex.Decode(rawTx).Err? ==> s.result.Err?
    ensures s.result.Ok? <==>
      && name != "" && ParseMode(mode).Ok? && t != "" && rawTx != ""
      && var kind := ParseMode(mode).value;
      && CheckToken(data, failing, salt, kind, t, name).Ok?
      && WalletByType(data, failing, name, kind).Ok? && WalletByType(data, failing, name, kind).value.Some?
      && var w := WalletByType(data, failing, name, kind).value.value;
      && var index := if asWritten then SigningIndexAsWritten(data, failing, kind, name) else SigningIndex(data, failing, kind, name);
      && index.Ok?
      && Signature(c, w, index.value, rawTx).Ok?
      && salt.available
      && Access(DeleteOp, TokenKey(salt, kind, CheckToken(data, failing, salt, kind, t, name).value.token)) !in failing
    ensures s.result.Ok? ==>
      && name != "" && ParseMode(mode).Ok? && t != "" && rawTx != ""
      && var kind := ParseMode(mode).value;
      && CheckToken(data, failing, salt, kind, t, name).Ok?
      && WalletByType(data, failing, name, kind).Ok? && WalletByType(data, failing, name, kind).value.Some?
      && var w := WalletByType(data, failing, name, kind).value.value;
      && var index := if asWritten then SigningIndexAsWritten(data, failing, kind, name) else SigningIndex(data, failing, kind, name);
      && index.Ok?
      && Signature(c, w, index.value, rawTx).Ok?
      && Hex.Decode(s.result.value) == Ok(Signature(c, w, index.value, rawTx).value)
      && s.data == data - {TokenKey(salt, kind, CheckToken(data, failing, salt, kind, t, name).value.token)}
  {
    if name == "" then Step(Err(MissingWalletName), data)
    else
      match ParseMode(mode)
      case Err(e) => Step(Err(e), data)
      case Ok(kind) =>
        if t == "" then Step(Err(MissingToken), data)
        else
          match CheckToken(data, failing, salt, kind, t, name)
          case Err(e) => Step(Err(e), data)
          case Ok(cred) =>
            match WalletByType(data, failing, name, kind)
            case Err(e) => Step(Err(e), data)
            case Ok(None) => Step(Err(WalletNotFound), data)
            case Ok(Some(w)) =>
              if rawTx == "" then Step(Err(MissingRawTx), data)
              else
                match GetMasterKey(c, c.seed(w.mnemonic), w.network)
                case Err(e) => Step(Err(e), data)
                case Ok(_) =>
                  var index := if asWritten then SigningIndexAsWritten(data, failing, kind, name) else SigningIndex(data, failing, kind, name);
                  match index
                  case Err(e) => Step(Err(e), data)
                  case Ok(i) =>
                    match Signature(c, w, i, rawTx)
                    case Err(e) => Step(Err(e), data)
                    case Ok(sig) =>
                      var signature := Hex.Encode(sig);
                      var revoked := Revoke(data, failing, salt, kind, Some(cred.token));
                      if revoked.result.Err? then Step(Err(revoked.result.error), data)
                      else
                        DecodeEncode(sig);
                        Step(Ok(signature), revoked.data)
  }

  /** pathTransactionWrite as intended. */
  function TransactionWrite(c: Crypto, data: Data, failing: set<Access>, salt: Salt, name: string, mode: string, t: string, rawTx: string)
    : (s: Step<string>)
    ensures s.result.Ok? && ParseMode(mode) == Ok(MultiSig) ==>
      && WalletByType(data, failing, name, MultiSig).Ok? && WalletByType(data, failing, name, MultiSig).value.Some?
      && var w := WalletByType(data, failing, name, MultiSig).value.value;
      && Signature(c, w, MultiSigDefaultAddressIndex, rawTx).Ok?
      && Hex.Decode(s.result.value) == Ok(Signature(c, w, MultiSigDefaultAddressIndex, rawTx).value)
  {
    TransactionStep(c, data, failing, salt, name, mode, t, rawTx, false)
  }

  /** pathTransactionWrite as written. */
  function TransactionWriteAsWritten(c: Crypto, data: Data, failing: set<Access>, salt: Salt, name: string, mode: string, t: string, rawTx: string)
    : (s: Step<string>)
    ensures ParseMode(mode) != Ok(MultiSig) ==> s == TransactionWrite(c, data, failing, salt, name, mode, t, rawTx)
  {
    TransactionStep(c, data, failing, salt, name, mode, t, rawTx, true)
  }

  /** pathTransactionWrite on the request's storage, with the corrected
      multisig signing index of TransactionWrite. */
  method PathTransactionWrite(c: Crypto, store: Storage, salt: Salt, name: string, mode: string, t: string, rawTx: string)
    returns (r: Result<string>)
    modifies store
    ensures Step(r, store.data) == TransactionWrite(c, old(store.data), store.failing, salt, name, mode, t, rawTx)
  {
    if name == "" {
      return Err(MissingWalletName);
    }
    var kind := ParseMode(mode);
    if kind.Err? {
      return Err(kind.error);
    }
    if t == "" {
      return Err(MissingToken);
    }
    var cred := CheckTokenIn(store, salt, kind.value, t, name);
    if cred.Err? {
      return Err(cred.error);
    }
    var w := GetWalletByType(store, name, kind.value);
    if w.Err? {
      return Err(w.error);
    }
    if w.value.None? {
      return Err(WalletNotFound);
    }
    var wallet := w.value.value;
    if rawTx == "" {
      return Err(MissingRawTx);
    }
    var master := GetMasterKey(c, c.seed(wallet.mnemonic), wallet.network);
    if master.Err? {
      return Err(master.error);
    }
    var childnum: Result<Uint32>;
    if kind.value == MultiSig {
      childnum := Ok(MultiSigDefaultAddressIndex);
    } else {
      var key := (if kind.value == SegWit then PathSegWitAddress else PathAddress) + name;
      childnum := GetLastUsedAddressIndex(store, key);
    }
    if childnum.Err? {
      return Err(childnum.error);
    }
    var derived := DerivePrivKey(c, master.value, wallet.derivationPath + [childnum.value]);
    if derived.Err? {
      return Err(NilDereference);
    }
    var priv := c.ecPrivKey(derived.value);
    if priv.Err? {
      return Err(priv.error);
    }
    var bytes := Hex.Decode(rawTx);
    if bytes.Err? {
      return Err(bytes.error);
    }
    var sig := c.sign(priv.value, c.doubleHash(bytes.value));
    if sig.Err? {
      return Err(sig.error);
    }
    var signature := Hex.Encode(sig.value);
    var revoked := RevokeToken(store, salt, cred.value, kind.value);
    if revoked.Err? {
      return Err(revoked.error);
    }
    r := Ok(signature);
  }

  /** As written, a multisig request signs with the key at the index of the
      standard address counter of the same name: once a standard wallet of
      that name has handed out address k, the multisig signature is made
      with the key at DerivationPath ++ [k], not with the vault's key in
      the redeem script (index 0). */
  lemma MultiSigSignsWithStandardCounter(
    c: Crypto, data: Data, failing: set<Access>, salt: Salt, name: string, t: string, rawTx: string, k: Uint32)
    requires PathAddress + name in data && data[PathAddress + name].AddressEntry?
    requires data[PathAddress + name].address.childnum == k
    requires Access(GetOp, PathAddress + name) !in failing
    requires k != MultiSigDefaultAddressIndex
    requires TransactionWriteAsWritten(c, data, failing, salt, name, "multisig", t, rawTx).result.Ok?
    ensures var w := WalletByType(data, failing, name, MultiSig).value.value;
      && SigningIndexAsWritten(data, failing, MultiSig, name) == Ok(k)
      && SigningIndexAsWritten(data, failing, MultiSig, name) != Ok(MultiSigDefaultAddressIndex)
      && Hex.Decode(TransactionWriteAsWritten(c, data, failing, salt, name, "multisig", t, rawTx).result.value)
         == Ok(Signature(c, w, k, rawTx).value)
  {
  }

  /** As intended, a multisig wallet signs with the key whose public key is
      the vault's own entry in the redeem script, the last of PublicKeys
      for a wallet the multisig wallet handler stored. */
  lemma MultiSigSignsWithOwnKey(
    c: Crypto, data: Data, failing: set<Access>, salt: Salt, name: string, t: string, rawTx: string)
    requires TransactionWrite(c, data, failing, salt, name, "multisig", t, rawTx).result.Ok?
    requires var ms := LookupMultiSig(data, failing, name);
      ms.Ok? && ms.value.Some? && |ms.value.value.publicKeys| > 0
      && OwnPubKey(c, ms.value.value.wallet) == Ok(ms.value.value.publicKeys[|ms.value.value.publicKeys| - 1])
    ensures var ms := LookupMultiSig(data, failing, name).value.value;
      var key := KeyAt(c, ms.wallet, MultiSigDefaultAddressIndex);
      && key.Ok?
      && c.pubKeyText(key.value, GetNetworkFromString(ms.wallet.network).value) == Ok(ms.publicKeys[|ms.publicKeys| - 1])
      && Hex.Decode(TransactionWrite(c, data, failing, salt, name, "multisig", t, rawTx).result.value)
         == Ok(Signature(c, ms.wallet, MultiSigDefaultAddressIndex, rawTx).value)
  {
  }

  /** A signing token works once: after a successful signature the same
      request is refused with InvalidToken, given that the credential
      records the token it was issued for. */
  lemma SigningTokenSingleUse(c: Crypto, data: Data, failing: set<Access>, salt: Salt, name: string, mode: string, t: string, rawTx: string)
    requires TransactionWrite(c, data, failing, salt, name, mode, t, rawTx).result.Ok?
    requires CheckToken(data, failing, salt, ParseMode(mode).value, t, name).value.token == t
    requires Access(GetOp, TokenKey(salt, ParseMode(mode).value, t)) !in failing
    ensures var after := TransactionWrite(c, data, failing, salt, name, mode, t, rawTx).data;
      TransactionWrite(c, after, failing, salt, name, mode, t, rawTx) == Step(Err(InvalidToken), after)
  {
    var kind := ParseMode(mode).value;
    var after := TransactionWrite(c, data, failing, salt, name, mode, t, rawTx).data;
    assert TokenKey(salt, kind, t) !in after;
    assert LookupToken(after, failing, salt, kind, t) == Ok(None);
  }

  /** A segwit request signs with the key at the index of the last segwit
      address issued under the same name by the bare-name address handler. */
  lemma SegWitSigningSeesLastAddress(c: Crypto, data: Data, failing: set<Access>, salt: Salt, name: string, t: string)
    requires SegWitAddressWrite(c, data, failing, salt, name, t).result.Ok?
    requires Access(GetOp, PathSegWitAddress + name) !in failing
    ensures var after := SegWitAddressWrite(c, data, failing, salt, name, t).data;
      && SigningIndex(after, failing, SegWit, name) == Ok(Inc32(LastUsedIndex(data, failing, PathSegWitAddress + name).value))
  {
    var key := PathSegWitAddress + name;
    assert key != TokenKey(salt, SegWit, CheckToken(data, failing, salt, SegWit, t, name).value.token) by {
      assert key[0] == 'a';
    }
  }

  /** As written, the segwit address handler advances the counter under the
      prefixed name, which signing never reads: the signing index is the
      one before the request. */
  lemma SegWitSigningIgnoresPrefixedCounter(c: Crypto, data: Data, failing: set<Access>, salt: Salt, name: string, t: string)
    requires SegWitAddressWriteAsWritten(c, data, failing, salt, name, t).result.Ok?
    ensures var after := SegWitAddressWriteAsWritten(c, data, failing, salt, name, t).data;
      SigningIndex(after, failing, SegWit, name) == SigningIndex(data, failing, SegWit, name)
  {
    var key := PathSegWitAddress + name;
    var pre := PathSegWitAddress + (SegWitPrefix + name);
    assert key != pre by {
      assert |key| < |pre|;
    }
    assert key != TokenKey(salt, SegWit, CheckToken(data, failing, salt, SegWit, t, SegWitPrefix + name).value.token) by {
      assert key[0] == 'a';
    }
  }
}
