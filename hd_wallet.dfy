/** Wallet creation and key derivation of btc/utils.go. The cryptographic
    library (BIP 39 seeds, hdkeychain, secp256k1, address encodings) is a
    value of type Crypto whose fields are left uninterpreted: every property
    proved here holds for every choice of them. */
module HdWallet {
  import opened Constants
  import opened Hex
  import opened Store
  import RedeemScript

  /** chaincfg network parameters. */
  datatype NetParams = MainNetParams | TestNet3Params

  /** An hdkeychain extended key and an secp256k1 private key, opaque. */
  datatype ExtKey = ExtKey(material: seq<Byte>)
  datatype PrivKey = PrivKey(material: seq<Byte>)

  datatype Crypto = Crypto(
    /** bip39.NewSeed(mnemonic, "") */
    seed: string -> seq<Byte>,
    /** hdkeychain.NewMaster */
    newMaster: (seq<Byte>, NetParams) -> Result<ExtKey>,
    /** ExtendedKey.Child: hardened derivation for indices >= 2^31 */
    child: (ExtKey, Uint32) -> Result<ExtKey>,
    /** ExtendedKey.Neuter */
    neuter: ExtKey -> Result<ExtKey>,
    /** ExtendedKey.String (xpub / xprv text) */
    serialize: ExtKey -> string,
    /** key.Address(net).String(): pay-to-pubkey-hash address */
    p2pkhAddress: (ExtKey, NetParams) -> Result<string>,
    /** native pay-to-witness-pubkey-hash address of a segwit wallet */
    p2wpkhAddress: (ExtKey, NetParams) -> Result<string>,
    /** ECPubKey, then NewAddressPubKey(SerializeUncompressed()).String() */
    pubKeyText: (ExtKey, NetParams) -> Result<string>,
    /** btcutil.NewAddressScriptHash(script, net).String() */
    scriptHashAddress: (seq<Byte>, NetParams) -> Result<string>,
    /** ExtendedKey.ECPrivKey */
    ecPrivKey: ExtKey -> Result<PrivKey>,
    /** chainhash.DoubleHashB */
    doubleHash: seq<Byte> -> seq<Byte>,
    /** PrivateKey.Sign(digest), then Signature.Serialize (DER) */
    sign: (PrivKey, seq<Byte>) -> Result<seq<Byte>>)

  // -----------------------------------------------------------------------
  // Networks and derivation paths

  /** getNetworkFromString: only "mainnet" and "testnet" are known. */
  function GetNetworkFromString(network: string): (r: Result<NetParams>)
    ensures r.Ok? <==> network == MainNet || network == TestNet
    ensures r.Err? ==> r.error == InvalidNetwork
    ensures r == Ok(MainNetParams) <==> network == MainNet
  {
    if network == MainNet then Ok(MainNetParams)
    else if network == TestNet then Ok(TestNet3Params)
    else Err(InvalidNetwork)
  }

  /** The BIP 44 path createWallet stores: m/44'/coin'/0'/0' with the
      change level hardened; no path for any other network. */
  function WalletPath(network: string): (path: seq<Uint32>)
    ensures network == MainNet || network == TestNet ==> |path| == 4
    ensures network != MainNet && network != TestNet ==> path == []
    ensures forall i | 0 <= i < |path| :: IsHardened(path[i])
  {
    if network == MainNet then [Purpose, CoinTypeMainNet, Account, Change]
    else if network == TestNet then [Purpose, CoinTypeTestNet, Account, Change]
    else []
  }

  /** The mainnet and testnet paths differ only in their coin type. */
  lemma WalletPathsDifferInCoinOnly()
    ensures |WalletPath(MainNet)| == |WalletPath(TestNet)| == 4
    ensures WalletPath(MainNet)[0] == WalletPath(TestNet)[0] == Purpose
    ensures WalletPath(MainNet)[1] == CoinTypeMainNet && WalletPath(TestNet)[1] == CoinTypeMainNet + 1
    ensures WalletPath(MainNet)[2..] == WalletPath(TestNet)[2..] == [Account, Change]
  {
  }

  /** The native-segwit (BIP 84) path: m/84'/coin'/0'/0'. */
  function SegWitPath(network: string): (path: seq<Uint32>)
    ensures network == MainNet || network == TestNet ==> |path| == 4 && path[0] == PurposeSegWit
    ensures network != MainNet && network != TestNet ==> path == []
    ensures forall i | 0 <= i < |path| :: IsHardened(path[i])
  {
    if network == MainNet then [PurposeSegWit, CoinTypeMainNet, Account, Change]
    else if network == TestNet then [PurposeSegWit, CoinTypeTestNet, Account, Change]
    else []
  }

  /** createWallet: a fresh mnemonic (the entropy source is a parameter),
      the network as given and the path chosen by the network. */
  function CreateWallet(mnemonic: string, network: string, segwit: bool): (w: Wallet)
    ensures w.mnemonic == mnemonic && w.network == network && w.segwit == segwit
    ensures w.derivationPath == WalletPath(network)
  {
    Wallet(network, mnemonic, WalletPath(network), segwit)
  }

  /** createSegWitWallet: as createWallet, on the BIP 84 path. */
  function CreateSegWitWallet(mnemonic: string, network: string): (w: Wallet)
    ensures w.mnemonic == mnemonic && w.network == network
    ensures w.derivationPath == SegWitPath(network)
  {
    Wallet(network, mnemonic, SegWitPath(network), true)
  }

  // -----------------------------------------------------------------------
  // Key derivation

  /** derivePrivKey as a left fold of Child over the path. */
  function Derive(c: Crypto, key: ExtKey, path: seq<Uint32>): Result<ExtKey>
    decreases |path|
  {
    if path == [] then Ok(key)
    else
      match c.child(key, path[0])
      case Err(e) => Err(e)
      case Ok(k) => Derive(c, k, path[1..])
  }

  /** derivePrivKey: reassigns the derived key once per path element. */
  method DerivePrivKey(c: Crypto, key: ExtKey, path: seq<Uint32>) returns (r: Result<ExtKey>)
    ensures r == Derive(c, key, path)
  {
    var derived := key;
    var i := 0;
    while i < |path|
      invariant 0 <= i <= |path|
      invariant Derive(c, key, path) == Derive(c, derived, path[i..])
    {
      assert path[i..][1..] == path[i + 1..];
      var next := c.child(derived, path[i]);
      if next.Err? {
        return Err(next.error);
      }
      derived := next.value;
      i := i + 1;
    }
    r := Ok(derived);
  }

  /** Deriving along p ++ q is deriving along p, then along q. */
  lemma {:induction false} DeriveAppend(c: Crypto, key: ExtKey, p: seq<Uint32>, q: seq<Uint32>)
    decreases |p|
    ensures Derive(c, key, p + q) ==
      match Derive(c, key, p)
      case Err(e) => Err(e)
      case Ok(k) => Derive(c, k, q)
  {
    if p == [] {
      assert p + q == q;
    } else {
      assert (p + q)[0] == p[0];
      assert (p + q)[1..] == p[1..] + q;
      match c.child(key, p[0])
      case Err(_) =>
      case Ok(k) => DeriveAppend(c, k, p[1..], q);
    }
  }

  /** The first failing Child aborts the derivation with its error, and the
      empty path leaves the key unchanged. */
  lemma DeriveFirstFailure(c: Crypto, key: ExtKey, path: seq<Uint32>, i: nat, e: Error)
    requires i < |path|
    requires Derive(c, key, path[..i]).Ok?
    requires c.child(Derive(c, key, path[..i]).value, path[i]) == Err(e)
    ensures Derive(c, key, path) == Err(e)
    ensures Derive(c, key, []) == Ok(key)
  {
    DeriveAppend(c, key, path[..i], path[i..]);
    assert path[..i] + path[i..] == path;
  }

  /** getMasterKey: hdkeychain.NewMaster on the seed, for a known network. */
  function GetMasterKey(c: Crypto, seed: seq<Byte>, network: string): (r: Result<ExtKey>)
    ensures network != MainNet && network != TestNet ==> r == Err(InvalidNetwork)
    ensures network == MainNet ==> r == c.newMaster(seed, MainNetParams)
    ensures network == TestNet ==> r == c.newMaster(seed, TestNet3Params)
  {
    var net :- GetNetworkFromString(network);
    c.newMaster(seed, net)
  }

  /** The extended private key of wallet `w` at its path extended by `index`. */
  function KeyAt(c: Crypto, w: Wallet, index: Uint32): Result<ExtKey> {
    var master :- GetMasterKey(c, c.seed(w.mnemonic), w.network);
    Derive(c, master, w.derivationPath + [index])
  }

  /** deriveAddress: the P2PKH address of the key at DerivationPath ++
      [childnum]; the record carries exactly that childnum. */
  function DeriveAddress(c: Crypto, w: Wallet, childnum: Uint32): (r: Result<Address>)
    ensures r.Ok? ==> r.value.childnum == childnum
    ensures r.Ok? ==>
      && KeyAt(c, w, childnum).Ok?
      && c.p2pkhAddress(KeyAt(c, w, childnum).value, GetNetworkFromString(w.network).value) == Ok(r.value.lastAddress)
    ensures w.network != MainNet && w.network != TestNet ==> r == Err(InvalidNetwork)
    ensures KeyAt(c, w, childnum).Err? ==> r == Err(KeyAt(c, w, childnum).error)
    ensures KeyAt(c, w, childnum).Ok? ==>
      && GetNetworkFromString(w.network).Ok?
      && var encoded := c.p2pkhAddress(KeyAt(c, w, childnum).value, GetNetworkFromString(w.network).value);
      && (encoded.Ok? ==> r == Ok(Address(childnum, encoded.value)))
      && (encoded.Err? ==> r == Err(encoded.error))
  {
    var net :- GetNetworkFromString(w.network);
    var master :- c.newMaster(c.seed(w.mnemonic), net);
    var key :- Derive(c, master, w.derivationPath + [childnum]);
    var addr :- c.p2pkhAddress(key, net);
    Ok(Address(childnum, addr))
  }

  /** deriveSegWitAddress: as deriveAddress, with the native segwit encoding. */
  function DeriveSegWitAddress(c: Crypto, w: Wallet, childnum: Uint32): (r: Result<Address>)
    ensures r.Ok? ==> r.value.childnum == childnum
    ensures r.Ok? ==>
      && KeyAt(c, w, childnum).Ok?
      && c.p2wpkhAddress(KeyAt(c, w, childnum).value, GetNetworkFromString(w.network).value) == Ok(r.value.lastAddress)
    ensures w.network != MainNet && w.network != TestNet ==> r == Err(InvalidNetwork)
    ensures KeyAt(c, w, childnum).Err? ==> r == Err(KeyAt(c, w, childnum).error)
    ensures KeyAt(c, w, childnum).Ok? ==>
      && GetNetworkFromString(w.network).Ok?
      && var encoded := c.p2wpkhAddress(KeyAt(c, w, childnum).value, GetNetworkFromString(w.network).value);
      && (encoded.Ok? ==> r == Ok(Address(childnum, encoded.value)))
      && (encoded.Err? ==> r == Err(encoded.error))
  {
    var net :- GetNetworkFromString(w.network);
    var master :- c.newMaster(c.seed(w.mnemonic), net);
    var key :- Derive(c, master, w.derivationPath + [childnum]);
    var addr :- c.p2wpkhAddress(key, net);
    Ok(Address(childnum, addr))
  }

  /** The extended public key at the wallet's own path, as the wallet read
      handlers report it. */
  function XPub(c: Crypto, w: Wallet): Result<string> {
    var master :- GetMasterKey(c, c.seed(w.mnemonic), w.network);
    var xprv :- Derive(c, master, w.derivationPath);
    var xpub :- c.neuter(xprv);
    Ok(c.serialize(xpub))
  }

  // -----------------------------------------------------------------------
  // Multisig wallets

  /** The public key text of this vault's own signing key: the key of the
      base wallet at DerivationPath ++ [MultiSigDefaultAddressIndex]. */
  function OwnPubKey(c: Crypto, w: Wallet): Result<string> {
    var net :- GetNetworkFromString(w.network);
    var master :- c.newMaster(c.seed(w.mnemonic), net);
    var key :- Derive(c, master, w.derivationPath + [MultiSigDefaultAddressIndex]);
    c.pubKeyText(key, net)
  }

  /** createMultiSigWallet: a standard base wallet, its own public key
      appended to the caller's keys, and the redeem script over all of them. */
  function CreateMultiSigWallet(c: Crypto, mnemonic: string, network: string, pubkeys: seq<string>, m: int, n: int)
    : (r: Result<MultiSigWallet>)
    ensures r.Ok? ==> r.value.wallet == CreateWallet(mnemonic, network, false)
    ensures r.Ok? ==> |r.value.publicKeys| == |pubkeys| + 1 && r.value.publicKeys[..|pubkeys|] == pubkeys
    ensures r.Ok? ==> OwnPubKey(c, r.value.wallet) == Ok(r.value.publicKeys[|pubkeys|])
    ensures r.Ok? ==> RedeemScript.BuildRedeemScript(m, n, r.value.publicKeys) == Ok(r.value.redeemScript)
    ensures r.Ok? ==> r.value.m == m && r.value.n == n
    ensures network != MainNet && network != TestNet ==> r == Err(InvalidNetwork)
    ensures OwnPubKey(c, CreateWallet(mnemonic, network, false)).Err? ==>
      r == Err(OwnPubKey(c, CreateWallet(mnemonic, network, false)).error)
    ensures OwnPubKey(c, CreateWallet(mnemonic, network, false)).Ok? ==>
      && var script := RedeemScript.BuildRedeemScript(m, n, pubkeys + [OwnPubKey(c, CreateWallet(mnemonic, network, false)).value]);
      && (script.Err? ==> r == Err(script.error))
      && (script.Ok? ==> r.Ok?)
  {
    var w := CreateWallet(mnemonic, network, false);
    // getMasterKey and the later getNetworkFromString parse the same network
    var net :- GetNetworkFromString(w.network);
    var master :- c.newMaster(c.seed(w.mnemonic), net);
    var privkey :- Derive(c, master, w.derivationPath + [MultiSigDefaultAddressIndex]);
    var own :- c.pubKeyText(privkey, net);
    var keys := pubkeys + [own];
    var script :- RedeemScript.BuildRedeemScript(m, n, keys);
    assert keys[..|pubkeys|] == pubkeys;
    Ok(MultiSigWallet(w, m, n, script, keys))
  }

  /** getMultiSigAddress: the P2SH address of the decoded redeem script. An
      error of the address encoder is dropped and gives the empty address. */
  function GetMultiSigAddress(c: Crypto, redeemScript: string, network: string): (r: Result<string>)
    ensures network != MainNet && network != TestNet ==> r == Err(InvalidNetwork)
    ensures (network == MainNet || network == TestNet) && Hex.Decode(redeemScript).Err? ==>
      r == Err(Hex.Decode(redeemScript).error)
    ensures r.Err? <==> (network != MainNet && network != TestNet) || Hex.Decode(redeemScript).Err?
    ensures r.Ok? ==>
      && var encoded := c.scriptHashAddress(Hex.Decode(redeemScript).value, GetNetworkFromString(network).value);
      && (encoded.Ok? ==> r.value == encoded.value)
      && (encoded.Err? ==> r.value == "")
  {
    var net :- GetNetworkFromString(network);
    var script :- Hex.Decode(redeemScript);
    match c.scriptHashAddress(script, net)
    case Err(_) => Ok("")
    case Ok(a) => Ok(a)
  }
}
