/** The wallet handlers: btc/path_wallet.go (standard BIP 44 wallets),
    btc/path_segwit_wallet.go (native segwit wallets) and
    btc/path_multisig_wallet.go (m-of-n wallets). Each write handler is a
    function from the storage contents to a Step and a method on Storage
    proved to behave as that function says. */
module Wallets {
  import opened Constants
  import opened Store
  import opened HdWallet

  /** The answer of a wallet read: network and xpub, never the mnemonic. */
  datatype WalletInfo = WalletInfo(network: string, xpub: string)

  /** The answer of a multisig wallet read. */
  datatype MultiSigInfo = MultiSigInfo(m: int, n: int, pubkeys: seq<string>, redeemScript: string)

  // -----------------------------------------------------------------------
  // Lookups

  /** GetWallet / GetSegWitWallet on the entry at `key`: an absent entry is
      Ok(None), an entry of another shape a decode error. */
  function LookupWallet(data: Data, failing: set<Access>, key: string): (r: Result<Option<Wallet>>)
    ensures r == Ok(None) <==> Fetch(data, failing, key) == Ok(None)
    ensures r.Ok? && r.value.Some? <==> Access(GetOp, key) !in failing && key in data && data[key].WalletEntry?
    ensures r.Ok? && r.value.Some? ==> data[key] == WalletEntry(r.value.value)
  {
    var entry :- Fetch(data, failing, key);
    match entry
    case None => Ok(None)
    case Some(WalletEntry(w)) => Ok(Some(w))
    case Some(_) => Err(DecodeMismatch)
  }

  /** GetWallet: reads only PathWallet + name. */
  method GetWallet(store: Storage, name: string) returns (r: Result<Option<Wallet>>)
    ensures r == LookupWallet(store.data, store.failing, PathWallet + name)
  {
    var entry := store.Get(PathWallet + name);
    if entry.Err? {
      return Err(entry.error);
    }
    match entry.value
    case None => r := Ok(None);
    case Some(rec) =>
      if rec.WalletEntry? {
        r := Ok(Some(rec.wallet));
      } else {
        r := Err(DecodeMismatch);
      }
  }

  /** GetSegWitWallet: reads only PathSegWitWallet + name. */
  method GetSegWitWallet(store: Storage, name: string) returns (r: Result<Option<Wallet>>)
    ensures r == LookupWallet(store.data, store.failing, PathSegWitWallet + name)
  {
    var entry := store.Get(PathSegWitWallet + name);
    if entry.Err? {
      return Err(entry.error);
    }
    match entry.value
    case None => r := Ok(None);
    case Some(rec) =>
      if rec.WalletEntry? {
        r := Ok(Some(rec.wallet));
      } else {
        r := Err(DecodeMismatch);
      }
  }

  // -----------------------------------------------------------------------
  // The JSON form of a multisig wallet

  predicate InInt64(x: int) {
    -0x8000_0000_0000_0000 <= x < 0x8000_0000_0000_0000
  }

  /** uint32(t) of an int64: two's-complement truncation to 32 bits. */
  function TruncateToUint32(t: int): (u: Uint32)
    ensures 0 <= t < Uint32Modulus ==> u == t
  {
    t % Uint32Modulus
  }

  /** The path elements of toMultiSig: each JSON number is read as an int64
      and truncated to uint32; a number outside the int64 range aborts. */
  function DecodePath(raw: seq<int>): (r: Result<seq<Uint32>>)
    ensures r.Ok? <==> forall i | 0 <= i < |raw| :: InInt64(raw[i])
    ensures r.Err? ==> r.error == JsonNumberRange
    ensures r.Ok? ==> |r.value| == |raw| && forall i | 0 <= i < |raw| :: r.value[i] == TruncateToUint32(raw[i])
  {
    if forall i | 0 <= i < |raw| :: InInt64(raw[i]) then
      Ok(seq(|raw|, i requires 0 <= i < |raw| => TruncateToUint32(raw[i])))
    else
      Err(JsonNumberRange)
  }

  /** toMultiSig: rebuilds the wallet from its decoded JSON map. M and N
      must be int64 numbers; the Segwit flag is not read back. */
  function DecodeMultiSig(raw: MultiSigJson): (r: Result<MultiSigWallet>)
    ensures r.Ok? <==> DecodePath(raw.derivationPath).Ok? && InInt64(raw.m) && InInt64(raw.n)
    ensures r.Ok? ==> r.value.wallet.derivationPath == DecodePath(raw.derivationPath).value
    ensures r.Ok? ==> !r.value.wallet.segwit
  {
    var path :- DecodePath(raw.derivationPath);
    if !InInt64(raw.m) || !InInt64(raw.n) then Err(JsonNumberRange)
    else
      Ok(MultiSigWallet(
        Wallet(raw.network, raw.mnemonic, path, false),
        raw.m, raw.n, raw.redeemScript, raw.publicKeys))
  }

  /** toMultiSig: fills the path and key arrays element by element. */
  method ToMultiSig(raw: MultiSigJson) returns (r: Result<MultiSigWallet>)
    ensures r == DecodeMultiSig(raw)
  {
    var path := new Uint32[|raw.derivationPath|];
    var i := 0;
    while i < path.Length
      invariant 0 <= i <= path.Length
      invariant forall j | 0 <= j < i :: InInt64(raw.derivationPath[j])
      invariant forall j | 0 <= j < i :: path[j] == TruncateToUint32(raw.derivationPath[j])
    {
      var t := raw.derivationPath[i];
      if !InInt64(t) {
        return Err(JsonNumberRange);
      }
      path[i] := TruncateToUint32(t);
      i := i + 1;
    }
    var decoded := path[..];
    assert decoded == DecodePath(raw.derivationPath).value;
    if !InInt64(raw.m) || !InInt64(raw.n) {
      return Err(JsonNumberRange);
    }
    var pubkeys := new string[|raw.publicKeys|];
    i := 0;
    while i < pubkeys.Length
      invariant 0 <= i <= pubkeys.Length
      invariant pubkeys[..i] == raw.publicKeys[..i]
    {
      pubkeys[i] := raw.publicKeys[i];
      i := i + 1;
    }
    assert pubkeys[..] == raw.publicKeys;
    r := Ok(MultiSigWallet(
      Wallet(raw.network, raw.mnemonic, decoded, false),
      raw.m, raw.n, raw.redeemScript, pubkeys[..]));
  }

  /** StorageEntryJSON of a multisig wallet: the embedded wallet's fields
      are flattened next to M, N, RedeemScript and PublicKeys. */
  function EncodeMultiSig(w: MultiSigWallet): (raw: MultiSigJson)
    ensures |raw.derivationPath| == |w.wallet.derivationPath|
    ensures forall i | 0 <= i < |raw.derivationPath| :: raw.derivationPath[i] == w.wallet.derivationPath[i]
  {
    MultiSigJson(
      w.wallet.network, w.wallet.mnemonic,
      seq(|w.wallet.derivationPath|, i requires 0 <= i < |w.wallet.derivationPath| => w.wallet.derivationPath[i] as int),
      w.wallet.segwit, w.m, w.n, w.redeemScript, w.publicKeys)
  }

  /** Storing a multisig wallet and reading it back gives the same wallet,
      except that the Segwit flag comes back false. */
  lemma MultiSigRoundTrip(w: MultiSigWallet)
    requires InInt64(w.m) && InInt64(w.n)
    ensures DecodeMultiSig(EncodeMultiSig(w)) == Ok(w.(wallet := w.wallet.(segwit := false)))
  {
    var raw := EncodeMultiSig(w);
    assert forall i | 0 <= i < |raw.derivationPath| :: InInt64(raw.derivationPath[i]);
    assert DecodePath(raw.derivationPath).value == w.wallet.derivationPath;
  }

  /** GetMultiSigWallet on the entry at PathMultiSigWallet + name. */
  function LookupMultiSig(data: Data, failing: set<Access>, name: string): (r: Result<Option<MultiSigWallet>>)
    ensures r == Ok(None) <==> Fetch(data, failing, PathMultiSigWallet + name) == Ok(None)
    ensures r.Ok? && r.value.Some? ==>
      && PathMultiSigWallet + name in data
      && data[PathMultiSigWallet + name].MultiSigEntry?
      && DecodeMultiSig(data[PathMultiSigWallet + name].json) == Ok(r.value.value)
  {
    var entry :- Fetch(data, failing, PathMultiSigWallet + name);
    match entry
    case None => Ok(None)
    case Some(MultiSigEntry(raw)) =>
      var w :- DecodeMultiSig(raw);
      Ok(Some(w))
    case Some(_) => Err(DecodeMismatch)
  }

  /** GetMultiSigWallet: reads only PathMultiSigWallet + name. */
  method GetMultiSigWallet(store: Storage, name: string) returns (r: Result<Option<MultiSigWallet>>)
    ensures r == LookupMultiSig(store.data, store.failing, name)
  {
    var entry := store.Get(PathMultiSigWallet + name);
    if entry.Err? {
      return Err(entry.error);
    }
    match entry.value
    case None => r := Ok(None);
    case Some(rec) =>
      if rec.MultiSigEntry? {
        var w := ToMultiSig(rec.json);
        if w.Err? {
          return Err(w.error);
        }
        r := Ok(Some(w.value));
      } else {
        r := Err(DecodeMismatch);
      }
  }

  /** getWalletByType: the base wallet of the named wallet of `kind`. A
      missing multisig wallet is dereferenced and aborts the request. */
  function WalletByType(data: Data, failing: set<Access>, name: string, kind: WalletKind): (r: Result<Option<Wallet>>)
    ensures kind == Standard ==> r == LookupWallet(data, failing, PathWallet + name)
    ensures kind == SegWit ==> r == LookupWallet(data, failing, PathSegWitWallet + name)
    ensures kind == MultiSig && LookupMultiSig(data, failing, name) == Ok(None) ==> r == Err(NilDereference)
    ensures kind == MultiSig && r.Ok? ==>
      LookupMultiSig(data, failing, name).Ok? && r.value == Some(LookupMultiSig(data, failing, name).value.value.wallet)
  {
    match kind
    case Standard => LookupWallet(data, failing, PathWallet + name)
    case SegWit => LookupWallet(data, failing, PathSegWitWallet + name)
    case MultiSig =>
      var ms :- LookupMultiSig(data, failing, name);
      if ms.None? then Err(NilDereference) else Ok(Some(ms.value.wallet))
  }

  /** getWalletByType as a read of the request's storage. */
  method GetWalletByType(store: Storage, name: string, kind: WalletKind) returns (r: Result<Option<Wallet>>)
    ensures r == WalletByType(store.data, store.failing, name, kind)
  {
    match kind
    case Standard => r := GetWallet(store, name);
    case SegWit => r := GetSegWitWallet(store, name);
    case MultiSig =>
      var ms := GetMultiSigWallet(store, name);
      if ms.Err? {
        return Err(ms.error);
      }
      if ms.value.None? {
        return Err(NilDereference);
      }
      r := Ok(Some(ms.value.value.wallet));
  }

  // -----------------------------------------------------------------------
  // Standard wallets

  /** pathWalletWrite, with `mnemonic` the fresh mnemonic createWallet draws. */
  function WalletWrite(data: Data, failing: set<Access>, mnemonic: string, network: string, name: string, segwit: bool)
    : (s: Step<string>)
    ensures network == "" ==> s == Step(Err(MissingNetwork), data)
    ensures network != "" && network !in {MainNet, TestNet, RegTest} ==> s == Step(Err(InvalidNetwork), data)
    ensures network in {MainNet, TestNet, RegTest} && name == "" ==> s == Step(Err(MissingWalletName), data)
    ensures name != "" && LookupWallet(data, failing, PathWallet + name).Ok?
      && LookupWallet(data, failing, PathWallet + name).value.Some? && network in {MainNet, TestNet, RegTest}
      ==> s == Step(Err(WalletAlreadyExists), data)
    ensures s.result.Err? ==> s.data == data
    ensures s.result.Ok? <==>
      && network in {MainNet, TestNet, RegTest} && name != ""
      && PathWallet + name !in data
      && Access(GetOp, PathWallet + name) !in failing && Access(PutOp, PathWallet + name) !in failing
    ensures s.result.Ok? ==>
      && s.result.value == mnemonic
      && s.data == data[PathWallet + name := WalletEntry(CreateWallet(mnemonic, network, segwit))]
  {
    if network == "" then Step(Err(MissingNetwork), data)
    else if network != MainNet && network != TestNet && network != RegTest then Step(Err(InvalidNetwork), data)
    else if name == "" then Step(Err(MissingWalletName), data)
    else
      var key := PathWallet + name;
      match LookupWallet(data, failing, key)
      case Err(e) => Step(Err(e), data)
      case Ok(Some(_)) => Step(Err(WalletAlreadyExists), data)
      case Ok(None) =>
        var w := CreateWallet(mnemonic, network, segwit);
        if Access(PutOp, key) in failing then Step(Err(StorageFailure(PutOp, key)), data)
        else Step(Ok(w.mnemonic), data[key := WalletEntry(w)])
  }

  /** pathWalletWrite on the request's storage. */
  method PathWalletWrite(store: Storage, mnemonic: string, network: string, name: string, segwit: bool)
    returns (r: Result<string>)
    modifies store
    ensures Step(r, store.data) == WalletWrite(old(store.data), store.failing, mnemonic, network, name, segwit)
  {
    if network == "" {
      return Err(MissingNetwork);
    }
    if network != MainNet && network != TestNet && network != RegTest {
      return Err(InvalidNetwork);
    }
    if name == "" {
      return Err(MissingWalletName);
    }
    var existing := GetWallet(store, name);
    if existing.Err? {
      return Err(existing.error);
    }
    if existing.value.Some? {
      return Err(WalletAlreadyExists);
    }
    var w := CreateWallet(mnemonic, network, segwit);
    var put := store.Put(PathWallet + name, WalletEntry(w));
    if put.Fail? {
      return Err(put.error);
    }
    r := Ok(w.mnemonic);
  }

  /** pathWalletRead / pathSegWitWalletRead on the wallet at `key`: nothing
      for a missing wallet, else its network and the neutered key at its
      derivation path. */
  function WalletRead(c: Crypto, data: Data, failing: set<Access>, key: string): (r: Result<Option<WalletInfo>>)
    ensures r == Ok(None) <==> LookupWallet(data, failing, key) == Ok(None)
    ensures r.Ok? && r.value.Some? ==>
      && LookupWallet(data, failing, key).Ok? && LookupWallet(data, failing, key).value.Some?
      && r.value.value.network == LookupWallet(data, failing, key).value.value.network
      && XPub(c, LookupWallet(data, failing, key).value.value) == Ok(r.value.value.xpub)
    ensures LookupWallet(data, failing, key).Err? ==> r == Err(LookupWallet(data, failing, key).error)
    ensures LookupWallet(data, failing, key).Ok? && LookupWallet(data, failing, key).value.Some? ==>
      && var w := LookupWallet(data, failing, key).value.value;
      && (XPub(c, w).Ok? ==> r == Ok(Some(WalletInfo(w.network, XPub(c, w).value))))
      && (XPub(c, w).Err? ==> r == Err(XPub(c, w).error))
  {
    var found :- LookupWallet(data, failing, key);
    match found
    case None => Ok(None)
    case Some(w) =>
      var xpub :- XPub(c, w);
      Ok(Some(WalletInfo(w.network, xpub)))
  }

  /** Reading a wallet: derive the xpub from a found wallet. */
  method ReadWallet(c: Crypto, w: Option<Wallet>) returns (r: Result<Option<WalletInfo>>)
    ensures w.None? ==> r == Ok(None)
    ensures w.Some? && XPub(c, w.value).Err? ==> r == Err(XPub(c, w.value).error)
    ensures w.Some? && XPub(c, w.value).Ok? ==> r == Ok(Some(WalletInfo(w.value.network, XPub(c, w.value).value)))
  {
    if w.None? {
      return Ok(None);
    }
    var master := GetMasterKey(c, c.seed(w.value.mnemonic), w.value.network);
    if master.Err? {
      return Err(master.error);
    }
    var xprv := DerivePrivKey(c, master.value, w.value.derivationPath);
    if xprv.Err? {
      return Err(xprv.error);
    }
    var xpub := c.neuter(xprv.value);
    if xpub.Err? {
      return Err(xpub.error);
    }
    r := Ok(Some(WalletInfo(w.value.network, c.serialize(xpub.value))));
  }

  /** pathWalletRead on the request's storage. */
  method PathWalletRead(c: Crypto, store: Storage, name: string) returns (r: Result<Option<WalletInfo>>)
    ensures r == WalletRead(c, store.data, store.failing, PathWallet + name)
  {
    var w := GetWallet(store, name);
    if w.Err? {
      return Err(w.error);
    }
    r := ReadWallet(c, w.value);
  }

  /** A regtest wallet is accepted on write, and reading it back fails,
      because the network parser knows only mainnet and testnet. */
  lemma RegTestWalletUnreadable(c: Crypto, data: Data, failing: set<Access>, mnemonic: string, name: string, segwit: bool)
    requires WalletWrite(data, failing, mnemonic, RegTest, name, segwit).result.Ok?
    requires Access(GetOp, PathWallet + name) !in failing
    ensures WalletRead(c, WalletWrite(data, failing, mnemonic, RegTest, name, segwit).data, failing, PathWallet + name)
      == Err(InvalidNetwork)
  {
  }

  /** A second write under a taken name is refused and changes nothing. */
  lemma WalletWriteTwice(data: Data, failing: set<Access>, m1: string, m2: string, network: string, name: string, s1: bool, s2: bool)
    requires WalletWrite(data, failing, m1, network, name, s1).result.Ok?
    requires Access(GetOp, PathWallet + name) !in failing
    ensures var after := WalletWrite(data, failing, m1, network, name, s1).data;
      WalletWrite(after, failing, m2, network, name, s2) == Step(Err(WalletAlreadyExists), after)
  {
  }

  // -----------------------------------------------------------------------
  // Segwit wallets

  /** pathSegWitWalletWrite: only mainnet and testnet are accepted. */
  function SegWitWalletWrite(data: Data, failing: set<Access>, mnemonic: string, network: string, name: string)
    : (s: Step<string>)
    ensures network == "" ==> s == Step(Err(MissingNetwork), data)
    ensures network != "" && network != MainNet && network != TestNet ==> s == Step(Err(InvalidNetwork), data)
    ensures (network == MainNet || network == TestNet) && name == "" ==> s == Step(Err(MissingWalletName), data)
    ensures name != "" && LookupWallet(data, failing, PathSegWitWallet + name).Ok?
      && LookupWallet(data, failing, PathSegWitWallet + name).value.Some? && (network == MainNet || network == TestNet)
      ==> s == Step(Err(SegWitWalletAlreadyExists), data)
    ensures s.result.Err? ==> s.data == data
    ensures s.result.Ok? <==>
      && (network == MainNet || network == TestNet) && name != ""
      && PathSegWitWallet + name !in data
      && Access(GetOp, PathSegWitWallet + name) !in failing && Access(PutOp, PathSegWitWallet + name) !in failing
    ensures s.result.Ok? ==>
      && s.result.value == mnemonic
      && s.data == data[PathSegWitWallet + name := WalletEntry(CreateSegWitWallet(mnemonic, network))]
  {
    if network == "" then Step(Err(MissingNetwork), data)
    else if network != TestNet && network != MainNet then Step(Err(InvalidNetwork), data)
    else if name == "" then Step(Err(MissingWalletName), data)
    else
      var key := PathSegWitWallet + name;
      match LookupWallet(data, failing, key)
      case Err(e) => Step(Err(e), data)
      case Ok(Some(_)) => Step(Err(SegWitWalletAlreadyExists), data)
      case Ok(None) =>
        var w := CreateSegWitWallet(mnemonic, network);
        if Access(PutOp, key) in failing then Step(Err(StorageFailure(PutOp, key)), data)
        else Step(Ok(w.mnemonic), data[key := WalletEntry(w)])
  }

  /** pathSegWitWalletWrite on the request's storage. */
  method PathSegWitWalletWrite(store: Storage, mnemonic: string, network: string, name: string)
    returns (r: Result<string>)
    modifies store
    ensures Step(r, store.data) == SegWitWalletWrite(old(store.data), store.failing, mnemonic, network, name)
  {
    if network == "" {
      return Err(MissingNetwork);
    }
    if network != TestNet && network != MainNet {
      return Err(InvalidNetwork);
    }
    if name == "" {
      return Err(MissingWalletName);
    }
    var existing := GetSegWitWallet(store, name);
    if existing.Err? {
      return Err(existing.error);
    }
    if existing.value.Some? {
      return Err(SegWitWalletAlreadyExists);
    }
    var w := CreateSegWitWallet(mnemonic, network);
    var put := store.Put(PathSegWitWallet + name, WalletEntry(w));
    if put.Fail? {
      return Err(put.error);
    }
    r := Ok(w.mnemonic);
  }

  /** pathSegWitWalletRead on the request's storage. */
  method PathSegWitWalletRead(c: Crypto, store: Storage, name: string) returns (r: Result<Option<WalletInfo>>)
    ensures r == WalletRead(c, store.data, store.failing, PathSegWitWallet + name)
  {
    var w := GetSegWitWallet(store, name);
    if w.Err? {
      return Err(w.error);
    }
    r := ReadWallet(c, w.value);
  }

  /** Standard and segwit wallets of one name live at different keys:
      writing one leaves a lookup of the other untouched. */
  lemma WalletNamespacesDisjoint(data: Data, failing: set<Access>, mnemonic: string, network: string, name: string)
    ensures LookupWallet(SegWitWalletWrite(data, failing, mnemonic, network, name).data, failing, PathWallet + name)
      == LookupWallet(data, failing, PathWallet + name)
  {
    var key := PathSegWitWallet + name;
    assert key[..|PathWallet|] == PathWallet && key[|PathWallet|] == 's';
    assert PathWallet + name != key by {
      if |name| > 0 {
        assert (PathWallet + name)[|PathWallet|] == name[0];
      }
    }
  }

  // -----------------------------------------------------------------------
  // Multisig wallets

  /** pathMultiSigWalletWrite, with `mnemonic` the fresh mnemonic of the
      base wallet. Every check precedes the first storage access. */
  function MultiSigWalletWrite(
    c: Crypto, data: Data, failing: set<Access>, mnemonic: string,
    network: string, name: string, pubkeys: seq<string>, m: int, n: int)
    : (s: Step<()>)
    ensures network == "" ==> s == Step(Err(MissingNetwork), data)
    ensures network != "" && name == "" ==> s == Step(Err(MissingWalletName), data)
    ensures network != "" && name != "" && pubkeys == [] ==> s == Step(Err(MissingPubKeys), data)
    ensures network != "" && name != "" && pubkeys != [] && m <= 0 ==> s == Step(Err(InvalidM), data)
    ensures network != "" && name != "" && pubkeys != [] && m > 0 && n <= 0 ==> s == Step(Err(InvalidN), data)
    ensures network != "" && name != "" && pubkeys != [] && m > 0 && n > 0 && |pubkeys| != n - 1
      ==> s == Step(Err(WalletKeyCount(|pubkeys|, n - 1)), data)
    ensures network != "" && name != "" && pubkeys != [] && n > 0 && |pubkeys| == n - 1 && m > n
      ==> s == Step(Err(MBiggerThanN), data)
    ensures network != "" && name != "" && pubkeys != [] && 0 < m <= n && |pubkeys| == n - 1
      && LookupMultiSig(data, failing, name).Ok? && LookupMultiSig(data, failing, name).value.Some?
      ==> s == Step(Err(MultiSigWalletAlreadyExists), data)
    ensures network != MainNet && network != TestNet ==> s.result.Err?
    ensures network != "" && name != "" && pubkeys != [] && 0 < m <= n && |pubkeys| == n - 1
      && LookupMultiSig(data, failing, name) == Ok(None)
      && CreateMultiSigWallet(c, mnemonic, network, pubkeys, m, n).Err?
      ==> s == Step(Err(CreateMultiSigWallet(c, mnemonic, network, pubkeys, m, n).error), data)
    ensures s.result.Ok? <==>
      && network != "" && name != "" && pubkeys != [] && 0 < m <= n && |pubkeys| == n - 1
      && LookupMultiSig(data, failing, name) == Ok(None)
      && CreateMultiSigWallet(c, mnemonic, network, pubkeys, m, n).Ok?
      && Access(PutOp, PathMultiSigWallet + name) !in failing
    ensures s.result.Err? ==> s.data == data
    ensures s.result.Ok? ==>
      && PathMultiSigWallet + name !in data
      && 0 < m <= n
      && CreateMultiSigWallet(c, mnemonic, network, pubkeys, m, n).Ok?
      && s.data == data[PathMultiSigWallet + name := MultiSigEntry(EncodeMultiSig(CreateMultiSigWallet(c, mnemonic, network, pubkeys, m, n).value))]
  {
    if network == "" then Step(Err(MissingNetwork), data)
    else if name == "" then Step(Err(MissingWalletName), data)
    else if |pubkeys| == 0 then Step(Err(MissingPubKeys), data)
    else if m <= 0 then Step(Err(InvalidM), data)
    else if n <= 0 then Step(Err(InvalidN), data)
    else if |pubkeys| != n - 1 then Step(Err(WalletKeyCount(|pubkeys|, n - 1)), data)
    else if m > n then Step(Err(MBiggerThanN), data)
    else
      var key := PathMultiSigWallet + name;
      match LookupMultiSig(data, failing, name)
      case Err(e) => Step(Err(e), data)
      case Ok(Some(_)) => Step(Err(MultiSigWalletAlreadyExists), data)
      case Ok(None) =>
        match CreateMultiSigWallet(c, mnemonic, network, pubkeys, m, n)
        case Err(e) => Step(Err(e), data)
        case Ok(w) =>
          if Access(PutOp, key) in failing then Step(Err(StorageFailure(PutOp, key)), data)
          else Step(Ok(()), data[key := MultiSigEntry(EncodeMultiSig(w))])
  }

  /** createMultiSigWallet: the base wallet, the vault's own key at
      DerivationPath ++ [0], then the redeem script over all keys. */
  method NewMultiSigWallet(c: Crypto, mnemonic: string, network: string, pubkeys: seq<string>, m: int, n: int)
    returns (r: Result<MultiSigWallet>)
    ensures r == CreateMultiSigWallet(c, mnemonic, network, pubkeys, m, n)
  {
    var w := CreateWallet(mnemonic, network, false);
    var net := GetNetworkFromString(w.network);
    if net.Err? {
      return Err(net.error);
    }
    var master := c.newMaster(c.seed(w.mnemonic), net.value);
    if master.Err? {
      return Err(master.error);
    }
    var privkey := DerivePrivKey(c, master.value, w.derivationPath + [MultiSigDefaultAddressIndex]);
    if privkey.Err? {
      return Err(privkey.error);
    }
    var own := c.pubKeyText(privkey.value, net.value);
    if own.Err? {
      return Err(own.error);
    }
    var keys := pubkeys + [own.value];
    var script := RedeemScript.NewRedeemScript(m, n, keys);
    if script.Err? {
      return Err(script.error);
    }
    r := Ok(MultiSigWallet(w, m, n, script.value, keys));
  }

  /** pathMultiSigWalletWrite on the request's storage. */
  method PathMultiSigWalletWrite(
    c: Crypto, store: Storage, mnemonic: string,
    network: string, name: string, pubkeys: seq<string>, m: int, n: int)
    returns (r: Result<()>)
    modifies store
    ensures Step(r, store.data) == MultiSigWalletWrite(c, old(store.data), store.failing, mnemonic, network, name, pubkeys, m, n)
  {
    if network == "" {
      return Err(MissingNetwork);
    }
    if name == "" {
      return Err(MissingWalletName);
    }
    if |pubkeys| == 0 {
      return Err(MissingPubKeys);
    }
    if m <= 0 {
      return Err(InvalidM);
    }
    if n <= 0 {
      return Err(InvalidN);
    }
    if |pubkeys| != n - 1 {
      return Err(WalletKeyCount(|pubkeys|, n - 1));
    }
    if m > n {
      return Err(MBiggerThanN);
    }
    var existing := GetMultiSigWallet(store, name);
    if existing.Err? {
      return Err(existing.error);
    }
    if existing.value.Some? {
      return Err(MultiSigWalletAlreadyExists);
    }
    var w := NewMultiSigWallet(c, mnemonic, network, pubkeys, m, n);
    if w.Err? {
      return Err(w.error);
    }
    var put := store.Put(PathMultiSigWallet + name, MultiSigEntry(EncodeMultiSig(w.value)));
    if put.Fail? {
      return Err(put.error);
    }
    r := Ok(());
  }

  /** After a successful multisig write the stored wallet reads back with
      exactly n public keys, the caller's n-1 first and the vault's own
      key last, and the redeem script built over them. */
  lemma MultiSigWriteReadBack(
    c: Crypto, data: Data, failing: set<Access>, mnemonic: string,
    network: string, name: string, pubkeys: seq<string>, m: int, n: int)
    requires MultiSigWalletWrite(c, data, failing, mnemonic, network, name, pubkeys, m, n).result.Ok?
    requires Access(GetOp, PathMultiSigWallet + name) !in failing
    ensures var after := MultiSigWalletWrite(c, data, failing, mnemonic, network, name, pubkeys, m, n).data;
      && LookupMultiSig(after, failing, name).Ok?
      && LookupMultiSig(after, failing, name).value.Some?
      && var w := LookupMultiSig(after, failing, name).value.value;
      && w == CreateMultiSigWallet(c, mnemonic, network, pubkeys, m, n).value
      && |w.publicKeys| == n
      && w.publicKeys[..n - 1] == pubkeys
      && OwnPubKey(c, w.wallet) == Ok(w.publicKeys[n - 1])
      && RedeemScript.BuildRedeemScript(m, n, w.publicKeys) == Ok(w.redeemScript)
  {
    var w := CreateMultiSigWallet(c, mnemonic, network, pubkeys, m, n).value;
    assert n <= MaxMultiSigN by {
      assert RedeemScript.BuildRedeemScript(m, n, w.publicKeys).Ok?;
    }
    MultiSigRoundTrip(w);
  }

  /** pathMultiSigWalletRead on the stored wallet: m, n, keys and script. */
  function MultiSigWalletRead(data: Data, failing: set<Access>, name: string): (r: Result<Option<MultiSigInfo>>)
    ensures r == Ok(None) <==> LookupMultiSig(data, failing, name) == Ok(None)
    ensures r.Ok? && r.value.Some? ==>
      && LookupMultiSig(data, failing, name).Ok? && LookupMultiSig(data, failing, name).value.Some?
      && var w := LookupMultiSig(data, failing, name).value.value;
      r.value.value == MultiSigInfo(w.m, w.n, w.publicKeys, w.redeemScript)
    ensures r.Err? <==> LookupMultiSig(data, failing, name).Err?
  {
    var found :- LookupMultiSig(data, failing, name);
    match found
    case None => Ok(None)
    case Some(w) => Ok(Some(MultiSigInfo(w.m, w.n, w.publicKeys, w.redeemScript)))
  }

  /** pathMultiSigWalletRead on the request's storage. */
  method PathMultiSigWalletRead(store: Storage, name: string) returns (r: Result<Option<MultiSigInfo>>)
    ensures r == MultiSigWalletRead(store.data, store.failing, name)
  {
    var w := GetMultiSigWallet(store, name);
    if w.Err? {
      return Err(w.error);
    }
    if w.value.None? {
      return Ok(None);
    }
    var ms := w.value.value;
    r := Ok(Some(MultiSigInfo(ms.m, ms.n, ms.publicKeys, ms.redeemScript)));
  }
}
