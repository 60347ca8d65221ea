/** The records the plugin persists and the key-value storage it persists
    them in (Vault's `logical.Storage`: Get, Put, Delete on string keys). */
module Store {
  import opened Constants

  /** `wallet` (btc/path_wallet.go): the stored form of a standard or
      segwit wallet. */
  datatype Wallet = Wallet(network: string, mnemonic: string, derivationPath: seq<Uint32>, segwit: bool)

  /** `multiSigWallet` (btc/path_multisig_wallet.go): a base wallet with the
      m-of-n parameters, the signers' public keys and the redeem script. */
  datatype MultiSigWallet = MultiSigWallet(wallet: Wallet, m: int, n: int, redeemScript: string, publicKeys: seq<string>)

  /** `address` (btc/path_address.go): the per-wallet address counter. */
  datatype Address = Address(childnum: Uint32, lastAddress: string)

  /** `credential` (btc/path_credentials.go): an issued auth token. */
  datatype Credential = Credential(walletName: string, leaseID: string, token: string)

  /** A multisig wallet as its JSON entry decodes into a generic map: the
      numbers are JSON numbers, read back with json.Number.Int64. */
  datatype MultiSigJson = MultiSigJson(
    network: string, mnemonic: string, derivationPath: seq<int>, segwit: bool,
    m: int, n: int, redeemScript: string, publicKeys: seq<string>)

  /** A storage entry, by the shape of the JSON it holds. */
  datatype Record =
    | WalletEntry(wallet: Wallet)
    | MultiSigEntry(json: MultiSigJson)
    | AddressEntry(address: Address)
    | CredentialEntry(credential: Credential)

  /** One backend access; the backend fails the accesses in its `failing` set. */
  datatype Access = Access(op: StorageOp, key: string)

  type Data = map<string, Record>

  /** What a handler answers and the storage contents it leaves behind. */
  datatype Step<+T> = Step(result: Result<T>, data: Data)

  /** What `Get(key)` returns on `data`: an error when the backend fails
      the read, otherwise the entry or nothing. */
  function Fetch(data: Data, failing: set<Access>, key: string): (r: Result<Option<Record>>)
    ensures r.Err? <==> Access(GetOp, key) in failing
    ensures r == Ok(None) <==> Access(GetOp, key) !in failing && key !in data
  {
    if Access(GetOp, key) in failing then Err(StorageFailure(GetOp, key))
    else if key in data then Ok(Some(data[key]))
    else Ok(None)
  }

  /** Vault storage. Every handler receives it as its request's storage. */
  class Storage {
    var data: Data
    /** The accesses at which the backend reports an error. */
    const failing: set<Access>

    constructor (initial: Data, failures: set<Access>)
      ensures data == initial && failing == failures
    {
      data := initial;
      failing := failures;
    }

    method Get(key: string) returns (r: Result<Option<Record>>)
      ensures r == Fetch(data, failing, key)
    {
      if Access(GetOp, key) in failing {
        r := Err(StorageFailure(GetOp, key));
      } else if key in data {
        r := Ok(Some(data[key]));
      } else {
        r := Ok(None);
      }
    }

    method Put(key: string, entry: Record) returns (o: Outcome)
      modifies this
      ensures Access(PutOp, key) in failing ==> o == Fail(StorageFailure(PutOp, key)) && data == old(data)
      ensures Access(PutOp, key) !in failing ==> o == Pass && data == old(data)[key := entry]
    {
      if Access(PutOp, key) in failing {
        o := Fail(StorageFailure(PutOp, key));
      } else {
        data := data[key := entry];
        o := Pass;
      }
    }

    method Delete(key: string) returns (o: Outcome)
      modifies this
      ensures Access(DeleteOp, key) in failing ==> o == Fail(StorageFailure(DeleteOp, key)) && data == old(data)
      ensures Access(DeleteOp, key) !in failing ==> o == Pass && data == old(data) - {key}
    {
      if Access(DeleteOp, key) in failing {
        o := Fail(StorageFailure(DeleteOp, key));
      } else {
        data := data - {key};
        o := Pass;
      }
    }
  }
}
