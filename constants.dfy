/** Constants of the plugin (btc/constants.go): storage prefixes, error kinds,
    BIP 32 / BIP 44 path levels and the multisig bounds, together with the
    failure-compatible Result type that every operation returns. */
module Constants {

  /** Go's `uint32`. */
  type Uint32 = x: int | 0 <= x < 0x1_0000_0000

  const Uint32Modulus: int := 0x1_0000_0000

  /** Go's wrap-around `uint32` increment `x + 1`. */
  function Inc32(x: Uint32): (r: Uint32)
    ensures x < Uint32Modulus - 1 ==> r == x + 1 && r > x
    ensures x == Uint32Modulus - 1 ==> r == 0
  {
    (x + 1) % Uint32Modulus
  }

  // ---------------------------------------------------------------------
  // Storage prefixes

  const PathAddress: string := "address/"
  const PathCreds: string := "creds/"
  const PathWallet: string := "wallet/"
  const PathMultiSigAddress: string := PathAddress + "multisig/"
  const PathMultiSigCreds: string := PathCreds + "multisig/"
  const PathMultiSigWallet: string := PathWallet + "multisig/"

  // The segwit names are referenced by the handlers but have no definition
  // in the modelled sources; they follow the storage layout of the plugin
  // (a `segwit/` sub-prefix of each namespace).
  const PathSegWitAddress: string := PathAddress + "segwit/"
  const PathSegWitCreds: string := PathCreds + "segwit/"
  const PathSegWitWallet: string := PathWallet + "segwit/"
  const SegWitPrefix: string := "segwit_"

  // ---------------------------------------------------------------------
  // Secret types under which credentials are leased

  const SecretCredsType: string := "creds"
  const MultiSigSecretCredsType: string := "multisig_creds"
  const SegWitSecretCredsType: string := "segwit_creds"

  // ---------------------------------------------------------------------
  // Networks and wallet kinds

  const MainNet: string := "mainnet"
  const TestNet: string := "testnet"
  const RegTest: string := "regtest"

  /** The three wallet kinds (`StandardType`, `MultiSigType`, `SegWitType`). */
  datatype WalletKind = Standard | MultiSig | SegWit

  // ---------------------------------------------------------------------
  // BIP 32 hardened indices and the BIP 44 path levels

  const HardenedKeyStart: Uint32 := 0x8000_0000
  const Purpose: Uint32 := HardenedKeyStart + 44
  const CoinTypeMainNet: Uint32 := HardenedKeyStart
  const CoinTypeTestNet: Uint32 := HardenedKeyStart + 1
  const Account: Uint32 := HardenedKeyStart
  /** Deviates from BIP 44, whose change level is not hardened. */
  const Change: Uint32 := HardenedKeyStart
  const MultiSigDefaultAddressIndex: Uint32 := 0

  /** Purpose level of the native-segwit path (BIP 84, m/84'/coin'/0'/0). */
  const PurposeSegWit: Uint32 := HardenedKeyStart + 84

  const MinMultiSigN: int := 1
  const MaxMultiSigN: int := 7

  /** An index at which BIP 32 uses hardened child derivation. */
  predicate IsHardened(i: Uint32) {
    i >= HardenedKeyStart
  }

  // ---------------------------------------------------------------------
  // Errors

  datatype Error =
    | MissingToken
    | MissingWalletName
    | MissingNetwork
    | MissingPubKeys
    | MissingRawTx
    | MissingInternalData
    | InvalidToken
    | InvalidNetwork
    | InvalidM
    | InvalidN
    | MBiggerThanN
    | NOutOfRange
    | MOutOfRange
      /** "Invalid number of pub keys" of the redeem-script builder */
    | ScriptKeyCount(provided: int, expected: int)
      /** "Invalid number of public keys" of the multisig wallet handler */
    | WalletKeyCount(provided: int, expected: int)
    | InvalidMode
    | UnknownWalletType
      /** a lease whose secret type has no revoke callback */
    | UnknownSecretType
    | WalletNotFound
    | MultiSigWalletNotFound
    | WalletAlreadyExists
    | SegWitWalletAlreadyExists
    | MultiSigWalletAlreadyExists
      /** encoding/hex: a character that is not a hexadecimal digit */
    | HexInvalidByte(c: char)
      /** encoding/hex: an odd number of digits */
    | HexOddLength
      /** json.Number.Int64 on a number outside the int64 range */
    | JsonNumberRange
      /** DecodeJSON of an entry that holds a record of another shape */
    | DecodeMismatch
      /** the storage backend reported an error */
    | StorageFailure(op: StorageOp, key: string)
      /** salt.NewSalt reported an error */
    | SaltUnavailable
      /** an error of a cryptographic primitive (derivation, signing, encoding) */
    | CryptoFailure(reason: string)
      /** a nil wallet or key is dereferenced: the request aborts */
    | NilDereference

  datatype StorageOp = GetOp | PutOp | DeleteOp

  /** The errors that constants.go declares as message strings. */
  predicate IsMessageConstant(e: Error) {
    e.MissingToken? || e.MissingWalletName? || e.MissingNetwork? || e.MissingPubKeys?
    || e.MissingRawTx? || e.MissingInternalData? || e.InvalidToken? || e.InvalidNetwork?
    || e.InvalidM? || e.InvalidN? || e.MBiggerThanN? || e.NOutOfRange? || e.MOutOfRange?
  }

  /** The message text constants.go gives each error constant. */
  function Message(e: Error): string
    requires IsMessageConstant(e)
  {
    match e
    case MissingToken => "Missing auth token"
    case MissingWalletName => "Missing wallet name"
    case MissingNetwork => "Missing network"
    case MissingPubKeys => "Missing public keys"
    case MissingRawTx => "Missing raw transaction to sign"
    case MissingInternalData => "Secret is missing internal data"
    case InvalidToken => "Invalid auth token"
    case InvalidNetwork => "Invalid network"
    case InvalidM => "Missing or invalid m param: it must be a positive number"
    case InvalidN => "Missing or invalid n param: it must be a positive number"
    case MBiggerThanN => "Invalid m param: it must be minor or equal to n"
    case NOutOfRange => "Invalid N param: it must be a value between 1 and 7 (inclusive)"
    case MOutOfRange => "Invalid M param: it must be between 1 and N (inclusive)"
  }

  /** The only error constant whose message can be `s`, told apart by the
      length of `s` and one character. */
  function MessageCandidate(s: string): (r: Error)
    ensures IsMessageConstant(r)
  {
    if |s| == 15 then (if s[0] == 'M' then MissingNetwork else InvalidNetwork)
    else if |s| == 18 then (if s[0] == 'M' then MissingToken else InvalidToken)
    else if |s| == 19 then (if s[8] == 'w' then MissingWalletName else MissingPubKeys)
    else if |s| == 31 then (if s[0] == 'M' then MissingRawTx else MissingInternalData)
    else if |s| == 56 then (if s[19] == 'm' then InvalidM else InvalidN)
    else if |s| == 47 then MBiggerThanN
    else if |s| == 63 then NOutOfRange
    else MOutOfRange
  }

  /** The error constant a message text names, as a caller recognises an
      error by comparing `err.Error()` with the constants. */
  function ErrorOfMessage(s: string): (r: Option<Error>)
    ensures r.Some? ==> IsMessageConstant(r.value) && Message(r.value) == s
  {
    var candidate := MessageCandidate(s);
    if s == Message(candidate) then Some(candidate) else None
  }

  /** The "Missing ..." messages lead back to their constants. */
  lemma CandidateOfMissing(e: Error)
    requires e.MissingToken? || e.MissingWalletName? || e.MissingNetwork? || e.MissingPubKeys?
      || e.MissingRawTx? || e.MissingInternalData?
    ensures MessageCandidate(Message(e)) == e
  {
    var s := Message(e);
    match e
    case MissingToken => assert |s| == 18 && s[0] == 'M';
    case MissingWalletName => assert |s| == 19 && s[8] == 'w';
    case MissingNetwork => assert |s| == 15 && s[0] == 'M';
    case MissingPubKeys => assert |s| == 19 && s[8] == 'p';
    case MissingRawTx => assert |s| == 31 && s[0] == 'M';
    case MissingInternalData => assert |s| == 31 && s[0] == 'S';
  }

  /** The invalid token and network messages lead back to their constants. */
  lemma CandidateOfInvalid(e: Error)
    requires e.InvalidToken? || e.InvalidNetwork?
    ensures MessageCandidate(Message(e)) == e
  {
    var s := Message(e);
    match e
    case InvalidToken => assert |s| == 18 && s[0] == 'I';
    case InvalidNetwork => assert |s| == 15 && s[0] == 'I';
  }

  /** The message of the m parameter check leads back to InvalidM. */
  lemma CandidateOfInvalidM()
    ensures MessageCandidate(Message(InvalidM)) == InvalidM
  {
    var s := Message(InvalidM);
    assert |s| == 56 && s[19] == 'm';
  }

  /** The message of the n parameter check leads back to InvalidN. */
  lemma CandidateOfInvalidN()
    ensures MessageCandidate(Message(InvalidN)) == InvalidN
  {
    var s := Message(InvalidN);
    assert |s| == 56 && s[19] == 'n';
  }

  /** The message of the m <= n check leads back to MBiggerThanN. */
  lemma CandidateOfMBiggerThanN()
    ensures MessageCandidate(Message(MBiggerThanN)) == MBiggerThanN
  {
    assert |Message(MBiggerThanN)| == 47;
  }

  /** The message of the n range check leads back to NOutOfRange. */
  lemma CandidateOfNOutOfRange()
    ensures MessageCandidate(Message(NOutOfRange)) == NOutOfRange
  {
    assert |Message(NOutOfRange)| == 63;
  }

  /** The message of the m range check leads back to MOutOfRange. */
  lemma CandidateOfMOutOfRange()
    ensures MessageCandidate(Message(MOutOfRange)) == MOutOfRange
  {
    assert |Message(MOutOfRange)| == 55;
  }

  /** Every message names its own error back. */
  lemma MessageRoundTrip(e: Error)
    requires IsMessageConstant(e)
    ensures ErrorOfMessage(Message(e)) == Some(e)
  {
    if e.MissingToken? || e.MissingWalletName? || e.MissingNetwork? || e.MissingPubKeys?
      || e.MissingRawTx? || e.MissingInternalData? {
      CandidateOfMissing(e);
    } else if e.InvalidToken? || e.InvalidNetwork? {
      CandidateOfInvalid(e);
    } else if e.InvalidM? {
      CandidateOfInvalidM();
    } else if e.InvalidN? {
      CandidateOfInvalidN();
    } else if e.MBiggerThanN? {
      CandidateOfMBiggerThanN();
    } else if e.NOutOfRange? {
      CandidateOfNOutOfRange();
    } else {
      CandidateOfMOutOfRange();
    }
  }

  /** Different error constants have different messages, so a caller that
      compares `err.Error()` with a constant tells every error apart. */
  lemma MessagesDistinct(e1: Error, e2: Error)
    requires IsMessageConstant(e1) && IsMessageConstant(e2)
    requires e1 != e2
    ensures Message(e1) != Message(e2)
  {
    MessageRoundTrip(e1);
    MessageRoundTrip(e2);
  }

  // ---------------------------------------------------------------------
  // Failure-compatible results

  datatype Result<+T> = Ok(value: T) | Err(error: Error) {
    predicate IsFailure() {
      Err?
    }

    function PropagateFailure<U>(): Result<U>
      requires Err?
    {
      Err(error)
    }

    function Extract(): T
      requires Ok?
    {
      value
    }
  }

  datatype Option<+T> = None | Some(value: T)

  /** The outcome of an operation that returns no value. */
  datatype Outcome = Pass | Fail(error: Error) {
    predicate IsFailure() {
      Fail?
    }

    function PropagateFailure<U>(): Result<U>
      requires Fail?
    {
      Err(error)
    }
  }

  // ---------------------------------------------------------------------
  // Properties of the constants

  /** Every level of a stored derivation path is hardened, the change level
      included; mainnet and testnet coin types are neighbours. */
  lemma PathLevelsHardened()
    ensures IsHardened(Purpose) && IsHardened(CoinTypeMainNet) && IsHardened(CoinTypeTestNet)
    ensures IsHardened(Account) && IsHardened(Change)
    ensures Purpose == 0x8000_0000 + 44 && CoinTypeTestNet == CoinTypeMainNet + 1
    ensures !IsHardened(MultiSigDefaultAddressIndex)
    ensures 1 == MinMultiSigN <= MaxMultiSigN == 7
  {
  }

  /** The multisig namespaces extend the base ones. */
  lemma MultiSigPrefixesExtendBase()
    ensures PathMultiSigAddress == PathAddress + "multisig/"
    ensures PathMultiSigCreds == PathCreds + "multisig/"
    ensures PathMultiSigWallet == PathWallet + "multisig/"
    ensures PathMultiSigAddress[..|PathAddress|] == PathAddress
    ensures PathMultiSigCreds[..|PathCreds|] == PathCreds
    ensures PathMultiSigWallet[..|PathWallet|] == PathWallet
  {
  }
}
