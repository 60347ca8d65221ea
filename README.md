# Bitcoin custodian plugin for Vault: a Dafny model

This project models the core of a HashiCorp Vault plugin that keeps
Bitcoin HD wallets: standard BIP 44 wallets, native segwit wallets and
m-of-n multisig wallets. The plugin hands out single-use auth tokens. A
token buys one receiving address or one transaction signature, and is then
revoked.

The model covers four parts of the plugin:

- **Redeem scripts and derivation paths** (`btc/utils.go`,
  `btc/constants.go`). This covers the m-of-n `OP_CHECKMULTISIG` redeem
  script of BIP 11 and its hex text, and the BIP 32 / BIP 44 paths. The
  change level of every path is hardened. Key derivation is modelled as a
  left fold of an uninterpreted child-key function.
- **Wallet handlers** (`btc/path_wallet.go`, `btc/path_segwit_wallet.go`,
  `btc/path_multisig_wallet.go`). Each write checks its fields, refuses a
  name already in use, and then writes one storage key. Reads never return
  the mnemonic.
- **Tokens and addresses** (`btc/path_credentials.go`,
  `btc/path_multisig_credential.go`, the three `*secret_credentials.go`
  files, and the three `path_*address.go` files). Tokens are issued,
  looked up and revoked. The per-wallet address counter is read, advanced
  in `uint32` and written back before the token is revoked. A multisig
  wallet has one fixed P2SH address.
- **Transaction signing** (`btc/path_transaction.go`). The request mode is
  parsed, then the checks run in order. The signing key is chosen, the
  signature is made, and the token is revoked after signing.

Vault storage is the class `Store.Storage`. Its `data` field is a
`map<string, Record>` that the handlers change through `Get`, `Put` and
`Delete`. A constant set `failing` lists the accesses at which the backend
reports an error, so every error path of the handlers can be stated.

Each state-changing handler has two parts:

- a function from the old storage contents to a `Step`, which holds the
  answer and the new contents;
- a method on `Storage`, proved to produce exactly that `Step`.

The properties are proved about these functions: validation order, error
cases, what is written, single use, the index advance and "nothing else
changes".

Modules, in dependency order: `Constants`, `Hex`, `Store`, `RedeemScript`,
`HdWallet`, `Wallets`, `Credentials`, `Addresses`, `Transaction`.

Several decisions fix one consistent variant where the sources disagree:

- Wallet kinds are the datatype `WalletKind`.
- The address counter is looked up by its namespace prefix plus the wallet
  name.
- `createWallet` takes the `(network, segwit)` form its caller uses and
  stores the flag.
- The segwit names the sources reference but never define are given values
  that follow the storage layout: `address/segwit/`, `creds/segwit/`,
  `wallet/segwit/`, `segwit_` and `segwit_creds`. `createSegWitWallet` uses
  the BIP 84 path `m/84'/coin'/0'/0'`, as the comment in
  `btc/path_segwit_wallet.go:101` describes.
- A Go panic on a nil wallet or key (for example `deriveAddress` on a
  missing wallet) is the error `NilDereference`, and storage is left as the
  request found it.

## Model

| member | source | states |
|---|---|---|
| Constants.Inc32 | btc/path_address.go:68 | `childnum + 1` in `uint32`: one more below 2^32-1, wrapping to 0 at 2^32-1 |
| Constants.Message | btc/constants.go:30-67 | the message text of each error constant |
| Constants.ErrorOfMessage | btc/constants.go:30-67 | a text is recognised only as an error constant whose message it is |
| Constants.MessageRoundTrip | btc/constants.go:30-67 | each constant's message is recognised as that constant |
| Constants.MessagesDistinct | btc/constants.go:30-67 | two different error constants never share a message text, so comparing `err.Error()` with a constant identifies the error |
| Constants.PathLevelsHardened | btc/constants.go:121-151 | Purpose, both coin types, Account and Change are all hardened, Change included; Purpose = 2^31+44; testnet coin = mainnet coin + 1; index 0 is not hardened; 1 = MinMultiSigN <= MaxMultiSigN = 7 |
| Constants.MultiSigPrefixesExtendBase | btc/constants.go:18-25 | the multisig address, creds and wallet prefixes extend the base prefixes with `multisig/` |
| Hex.Encode | btc/utils.go:229 | EncodeToString writes two lower-case hex digits per byte |
| Hex.Decode | btc/utils.go:219 | DecodeString yields one byte per two digits |
| Hex.DecodeCharacterized | btc/utils.go:219 | decoding succeeds exactly on even-length hex text; an odd length is reported only when every character is a digit |
| Hex.DecodeEncode | btc/utils.go:229 | decoding the encoded bytes gives the bytes back |
| Hex.EncodeInjective | btc/utils.go:229 | different byte strings have different hex text |
| Store.Fetch | btc/path_wallet.go:137-144 | Get fails exactly at a failing access and is empty exactly when the key is absent |
| Store.Storage.Get | btc/path_wallet.go:137 | storage read, as `Fetch` says |
| Store.Storage.Put | btc/path_wallet.go:84 | a failing Put changes nothing; otherwise exactly the one key is set |
| Store.Storage.Delete | btc/secret_credentials.go:39 | a failing Delete changes nothing; otherwise exactly the one key is removed |
| RedeemScript.SmallIntOp | btc/utils.go:211-213 | the opcode of a small integer k is 0x50 + k (OP_1 = 0x51) |
| RedeemScript.DecodeAll | btc/utils.go:218-222 | the keys decode one by one, and the first bad key aborts |
| RedeemScript.DecodeAllCharacterized | btc/utils.go:218-222 | every key decodes exactly when every key is hex text, each to its own bytes |
| RedeemScript.BuildRedeemScript | btc/utils.go:197-230 | checks n in [1,7], then m in [1,n], then the key count; a bad key gives its decode error; success exactly when all pass; the output decodes to the OP_m, pushes, OP_n, OP_CHECKMULTISIG layout |
| RedeemScript.PushesSnoc | btc/utils.go:218-225 | writing one more key appends its push |
| RedeemScript.DecodeAllSnoc | btc/utils.go:218-222 | decoding one more key appends its bytes or stops with its error |
| RedeemScript.WriteKeyPushes | btc/utils.go:218-225 | the buffer loop writes the pushes of all keys, or returns the first decode error |
| RedeemScript.NewRedeemScript | btc/utils.go:197-230 | the imperative builder returns exactly what BuildRedeemScript says |
| RedeemScript.DecodeAllPrefixErr | btc/utils.go:219-222 | a decode error in a prefix is the error of the whole list |
| RedeemScript.PushesLength | btc/utils.go:218-225 | the pushes take the sum of 1 + key length bytes |
| RedeemScript.LayoutShape | btc/utils.go:211-227 | the script has length 3 + Σ(1+\|key\|), starts with 0x50+m and ends with 0x50+n, 0xae |
| RedeemScript.ParsePushesInverse | btc/utils.go:218-225 | for keys shorter than 256 bytes, the length-prefixed pushes parse back to the keys in order |
| RedeemScript.ParseLayout | btc/utils.go:211-227 | for keys shorter than 256 bytes, the script parses back to (m, keys, n) |
| HdWallet.GetNetworkFromString | btc/utils.go:171-180 | accepts exactly mainnet and testnet; anything else is InvalidNetwork |
| HdWallet.WalletPath | btc/utils.go:37-43 | four hardened levels for mainnet and testnet, the empty path for any other network |
| HdWallet.WalletPathsDifferInCoinOnly | btc/utils.go:38-43 | the mainnet and testnet paths agree except at the coin level |
| HdWallet.SegWitPath | btc/path_segwit_wallet.go:101 | the BIP 84 path: four hardened levels starting with purpose 84' |
| HdWallet.CreateWallet | btc/utils.go:21-51 | the wallet carries the given mnemonic, network and flag and the path its network selects |
| HdWallet.CreateSegWitWallet | btc/path_segwit_wallet.go:58-61 | a segwit wallet on the BIP 84 path |
| HdWallet.DerivePrivKey | btc/utils.go:112-124 | the loop that reassigns the key per path element computes the left fold `Derive` |
| HdWallet.DeriveAppend | btc/utils.go:112-124 | deriving along p ++ q is deriving along p, then along q from that key |
| HdWallet.DeriveFirstFailure | btc/utils.go:116-120 | the first failing Child aborts the derivation with its error; the empty path returns the key |
| HdWallet.GetMasterKey | btc/utils.go:183-195 | an unknown network fails with InvalidNetwork before any key is made; mainnet and testnet give NewMaster on the seed with their own parameters |
| HdWallet.DeriveAddress | btc/utils.go:138-169 | an error of the key at DerivationPath ++ [childnum] is returned; with that key, the P2PKH encoder's error is returned, and otherwise the answer is {childnum, its address} |
| HdWallet.DeriveSegWitAddress | btc/path_segwit_address.go:68 | the same, with the native segwit encoder |
| HdWallet.CreateMultiSigWallet | btc/utils.go:53-109 | an error of the own key at path ++ [0] is returned, then newRedeemScript's error; otherwise it succeeds, with the base wallet and path of createWallet, PublicKeys the caller's keys plus the own key last, and the script newRedeemScript over them |
| HdWallet.GetMultiSigAddress | btc/utils.go:233-250 | fails exactly on an unknown network or bad hex, with that error; otherwise the answer is the encoder's P2SH address of the decoded script, or the empty text when the encoder fails |
| Wallets.LookupWallet | btc/path_wallet.go:136-151 | absent entry gives nothing, not an error; a found wallet is the stored one |
| Wallets.GetWallet | btc/path_wallet.go:136-151 | reads only `wallet/` + name |
| Wallets.GetSegWitWallet | btc/path_segwit_wallet.go:122-137 | reads only `wallet/segwit/` + name |
| Wallets.TruncateToUint32 | btc/path_multisig_wallet.go:173 | `uint32(t)` keeps values already in range |
| Wallets.DecodePath | btc/path_multisig_wallet.go:166-174 | every element must be an int64, and each is truncated to uint32 in order |
| Wallets.DecodeMultiSig | btc/path_multisig_wallet.go:160-202 | succeeds exactly when the path, M and N are int64 numbers; the path is the decoded one; Segwit is not read back |
| Wallets.ToMultiSig | btc/path_multisig_wallet.go:160-202 | the array-filling loops compute DecodeMultiSig |
| Wallets.EncodeMultiSig | btc/path_multisig_wallet.go:108 | the stored JSON keeps every path element |
| Wallets.MultiSigRoundTrip | btc/path_multisig_wallet.go:160-202 | storing and decoding a multisig wallet gives it back with Segwit false |
| Wallets.LookupMultiSig | btc/path_multisig_wallet.go:143-158 | absent entry gives nothing; a found wallet is the decoding of the stored entry |
| Wallets.GetMultiSigWallet | btc/path_multisig_wallet.go:143-158 | reads only `wallet/multisig/` + name |
| Wallets.WalletByType | btc/path_wallet.go:153-169 | Standard goes to GetWallet, SegWit to GetSegWitWallet; MultiSig returns the embedded wallet, and a missing multisig wallet is dereferenced |
| Wallets.GetWalletByType | btc/path_wallet.go:153-169 | the dispatch on storage computes WalletByType |
| Wallets.WalletWrite | btc/path_wallet.go:46-93 | MissingNetwork, then InvalidNetwork outside mainnet/testnet/regtest, then MissingWalletName, then WalletAlreadyExists, all with storage unchanged; success exactly when all checks and accesses pass; it writes only `wallet/` + name and returns the mnemonic |
| Wallets.PathWalletWrite | btc/path_wallet.go:46-93 | the handler on storage computes WalletWrite |
| Wallets.WalletRead | btc/path_wallet.go:95-133 | a lookup error is returned; a missing wallet gives neither answer nor error; a found wallet gives its network and its xpub at DerivationPath, or the xpub's error; no mnemonic |
| Wallets.ReadWallet | btc/path_wallet.go:107-132 | master key, derivation and neutering compute the xpub, or the first error |
| Wallets.PathWalletRead | btc/path_wallet.go:95-133 | the handler on storage computes WalletRead |
| Wallets.RegTestWalletUnreadable | btc/path_wallet.go:51 | a regtest wallet is accepted on write and its read then fails with InvalidNetwork |
| Wallets.WalletWriteTwice | btc/path_wallet.go:62-69 | a second write of the same name fails and leaves storage unchanged |
| Wallets.SegWitWalletWrite | btc/path_segwit_wallet.go:34-79 | MissingNetwork, InvalidNetwork for anything but mainnet/testnet, MissingWalletName, SegWitWalletAlreadyExists; writes only `wallet/segwit/` + name and returns the mnemonic |
| Wallets.PathSegWitWalletWrite | btc/path_segwit_wallet.go:34-79 | the handler on storage computes SegWitWalletWrite |
| Wallets.PathSegWitWalletRead | btc/path_segwit_wallet.go:81-119 | the read computes WalletRead on `wallet/segwit/` + name |
| Wallets.WalletNamespacesDisjoint | btc/path_segwit_wallet.go:64 | a segwit wallet write never changes the standard wallet of any name |
| Wallets.MultiSigWalletWrite | btc/path_multisig_wallet.go:55-119 | MissingNetwork, MissingWalletName, MissingPubKeys, InvalidM, InvalidN, the key count n-1, then MBiggerThanN, all before storage, then MultiSigWalletAlreadyExists, then the creation error; an unknown network fails; success exactly when all checks pass, no wallet exists, creation succeeds and the Put works; any failure leaves storage unchanged; success writes only `wallet/multisig/` + name with the created wallet |
| Wallets.NewMultiSigWallet | btc/utils.go:53-109 | the step-by-step creation computes CreateMultiSigWallet |
| Wallets.PathMultiSigWalletWrite | btc/path_multisig_wallet.go:55-119 | the handler on storage computes MultiSigWalletWrite |
| Wallets.MultiSigWriteReadBack | btc/path_multisig_wallet.go:85-108 | after a write, the wallet reads back with exactly n keys: the caller's n-1, then the vault's own key last, and the redeem script over them |
| Wallets.MultiSigWalletRead | btc/path_multisig_wallet.go:121-141 | nothing for a missing wallet; otherwise the stored m, n, keys and script, with no mnemonic |
| Wallets.PathMultiSigWalletRead | btc/path_multisig_wallet.go:121-141 | the handler on storage computes MultiSigWalletRead |
| Credentials.CredsPrefix | btc/secret_credentials.go:69-77 | every credential namespace lies under `creds/` |
| Credentials.SecretKind | btc/secret_credentials.go:98-108 | a secret type routes to the kind whose type it is |
| Credentials.SecretTypesRouteBack | btc/secret_credentials.go:98-108 | each kind's secret type routes back to that kind's revoke callback |
| Credentials.TokenNamespacesDisjoint | btc/secret_credentials.go:69-79 | with hex salted ids, tokens of different kinds never share a key |
| Credentials.NewToken | btc/secret_credentials.go:47-59 | the pair is the token and its salted id, which locates the key a lookup reads; salt failure is propagated |
| Credentials.IssueToken | btc/path_credentials.go:49-74 | SaltUnavailable when the salt is missing; success exactly when the salt is available and the Put works; it stores `{name, SaltID(t), t}` at the kind's prefix + SaltID(t) and answers with the lease; a failure changes nothing |
| Credentials.CredsIssue | btc/path_credentials.go:35-75 | MissingWalletName, then the lookup error, then WalletNotFound, with nothing stored; success exactly when the wallet exists, the salt is available and the Put works; it writes exactly the credential key and returns the token in a `creds` lease |
| Credentials.MultiSigCredsIssue | btc/path_multisig_credential.go:29-69 | corrected (see ## Findings): MissingWalletName, then the lookup error, then MultiSigWalletNotFound, with nothing stored; success exactly when the multisig wallet exists, the salt is available and the Put works; it writes the credential under `creds/multisig/` and leases it as `multisig_creds` |
| Credentials.MultiSigCredsIssueAsWritten | btc/path_multisig_credential.go:63-66 | the same storage effect, but the lease is typed `creds` |
| Credentials.IssueKeepsWallets | btc/path_credentials.go:60-67 | issuing leaves every wallet lookup unchanged |
| Credentials.LookupToken | btc/secret_credentials.go:61-95 | reads the kind's prefix + SaltID(token); an absent entry is Ok(None), distinct from an error |
| Credentials.GetToken | btc/secret_credentials.go:61-95 | the read-only lookup on storage computes LookupToken |
| Credentials.IssueThenLookup | btc/path_credentials.go:54-67 | a freshly issued token is found with its wallet name |
| Credentials.MultiSigTokenNotStandard | btc/path_multisig_credential.go:54 | issuing a multisig token changes no lookup of another kind |
| Credentials.Revoke | btc/secret_credentials.go:28-45 | a missing internal token gives MissingInternalData before storage; salt and delete errors are propagated with nothing changed; success removes exactly the kind's prefix + SaltID(id) |
| Credentials.SecretCredsRevoke | btc/secret_credentials.go:28-45 | the standard revoke on storage computes Revoke for `creds/` |
| Credentials.MultisigSecretCredsRevoke | btc/multisig_secret_credentials.go:27-44 | the multisig revoke on storage computes Revoke for `creds/multisig/` |
| Credentials.SegwitSecretCredsRevoke | btc/segwit_secret_credentials.go:27-44 | the segwit revoke on storage computes Revoke for `creds/segwit/` |
| Credentials.RevokeToken | btc/secret_credentials.go:97-123 | routes the credential's token to the revoke callback of its kind and propagates its error |
| Credentials.RevokeThenLookup | btc/secret_credentials.go:39 | a revoked token is no longer found |
| Credentials.RevokeKeepsOtherKinds | btc/multisig_secret_credentials.go:38 | revoking a token of one kind leaves every lookup of the other kinds unchanged |
| Credentials.IssueRevokeLookup | btc/secret_credentials.go:39 | issue, then revoke under the same salt: found before, gone after |
| Credentials.ExpireLease | btc/secret_credentials.go:14-25 | the end of a lease runs the revoke callback of the lease's secret type with its token; an unregistered type revokes nothing |
| Credentials.MultiSigLeaseExpiryKeepsToken | btc/path_multisig_credential.go:63-66 | as written, the end of a multisig token's lease leaves the token valid |
| Credentials.MultiSigLeaseExpiryRevokes | btc/multisig_secret_credentials.go:27-44 | with the multisig lease type, the end of the lease revokes the token |
| Credentials.StoreToken | btc/path_credentials.go:49-67 | the final Put on storage computes IssueToken |
| Credentials.PathCredsRead | btc/path_credentials.go:35-75 | the handler on storage computes CredsIssue |
| Credentials.PathMultiSigCredsRead | btc/path_multisig_credential.go:29-69 | corrected (see ## Findings): the handler on storage computes MultiSigCredsIssue |
| Addresses.LastUsedIndex | btc/path_address.go:98-114 | the stored Childnum, or 0 when there is no record |
| Addresses.GetLastUsedAddressIndex | btc/path_address.go:98-114 | the read-only lookup on storage computes LastUsedIndex |
| Addresses.CheckToken | btc/path_address.go:49-56 | passes exactly when the token is stored for this wallet; absent and wrong-wallet tokens are the same InvalidToken |
| Addresses.CheckTokenIn | btc/path_address.go:49-56 | the check on storage computes CheckToken |
| Addresses.Advance | btc/path_address.go:58-94 | index read errors, a missing wallet and a derivation error change nothing; success exactly when the index read, the derivation, the Put and the revoke all work; it writes {old+1, address} at the counter key, then deletes the token and nothing else; a failure changes at most the counter record |
| Addresses.RecordNextAddress | btc/path_address.go:61-88 | the read-increment-Put-revoke sequence on storage computes Advance |
| Addresses.AddressWrite | btc/path_address.go:38-95 | MissingWalletName, then MissingToken, then InvalidToken, all before storage changes; success exactly when the token is valid for the name, the wallet is found, the index read, the derivation, the Put and the revoke work; it stores the next index and the derived address at `address/` + name, returns that address and removes only the spent token |
| Addresses.PathAddressWrite | btc/path_address.go:38-95 | the handler on storage computes AddressWrite |
| Addresses.AddressIndexAdvances | btc/path_address.go:62-82 | the next counter read sees old+1 in uint32, strictly larger until it wraps |
| Addresses.AddressTokenSingleUse | btc/path_address_test.go:33-44 | a used token is refused with InvalidToken and nothing changes |
| Addresses.IssueUseReuse | btc/path_address_test.go:33-44 | issue, use, reuse: the reuse is InvalidToken |
| Addresses.SegWitAddressStep | btc/path_segwit_address.go:33-92 | the segwit address handler for a given owner name: missing name or token, then InvalidToken, then a nil dereference for a missing wallet; success exactly when the token, the wallet, the index read, the derivation, the Put and the revoke all work; any failure changes at most the counter; success answers the segwit address at the incremented index and removes only the segwit token |
| Addresses.SegWitAddressWriteAsWritten | btc/path_segwit_address.go:33-92 | as written, keyed by `SegWitPrefix` + name: the counter under the bare name, which signing reads, never changes |
| Addresses.SegWitAddressWrite | btc/path_segwit_address.go:33-92 | corrected (see ## Findings), keyed by the bare name: a successful request moves the bare-name counter to old+1 |
| Addresses.PathSegWitAddressWrite | btc/path_segwit_address.go:33-92 | corrected (see ## Findings): the handler on storage computes SegWitAddressWrite, keyed by the bare name |
| Addresses.SegWitAddressFailsAfterWalletWrite | btc/path_segwit_address.go:42-57 | as written, an address request right after a segwit wallet write fails whatever the token, because the write uses the bare name and the lookup the prefixed one |
| Addresses.SegWitAddressMissesWallet | btc/path_segwit_address.go:42-57 | as written, with a token for the prefixed name, the failure is the dereference of the missing wallet |
| Addresses.SegWitWalletThenAddress | btc/path_segwit_address_test.go:11-41 | corrected: wallet write, token, address request answers the segwit address at index 1 and the counter reads 1 |
| Addresses.MultiSigAddressWrite | btc/path_multisig_address.go:33-74 | missing name or token, then InvalidToken; success exactly when the token is valid, the multisig wallet is found, its address computes and the revoke works; any failure changes nothing; success answers the P2SH address of the stored script and network and removes only the token |
| Addresses.PathMultiSigAddressWrite | btc/path_multisig_address.go:33-74 | the handler on storage computes MultiSigAddressWrite |
| Addresses.MultiSigAddressFixed | btc/path_multisig_address.go:57-61 | two successive requests on one multisig wallet answer the same address |
| Transaction.ParseMode | btc/path_transaction.go:136-147 | standard, multisig and segwit map to their kinds; anything else is InvalidMode |
| Transaction.SigningIndexAsWritten | btc/path_transaction.go:90-99 | the segwit counter for segwit requests, the standard counter otherwise |
| Transaction.SigningIndex | btc/path_transaction.go:95 | index 0 for multisig wallets, the last used index otherwise |
| Transaction.Signature | btc/path_transaction.go:83-118 | a master key error is returned; a derivation error becomes a nil dereference; the private key's error is returned; bad hex gives its decode error; with a key and valid hex, the answer is the signer's result on the double hash |
| Transaction.TransactionStep | btc/path_transaction.go:45-134 | checks name, mode, missing token, invalid token, missing wallet, missing rawTx in that order; success exactly when every check passes, the signing index is read, the signature is made and the revoke works; every failure, bad hex included, leaves storage unchanged; success answers hex of the signature and deletes only the spent token |
| Transaction.TransactionWrite | btc/path_transaction.go:45-134 | corrected (see ## Findings): a successful multisig request signs with the key at index 0, the vault's own key |
| Transaction.TransactionWriteAsWritten | btc/path_transaction.go:45-134 | as written: equal to the corrected handler on every request whose mode is not multisig |
| Transaction.PathTransactionWrite | btc/path_transaction.go:45-134 | corrected (see ## Findings): the handler on storage computes TransactionWrite, with the intended signing index |
| Transaction.MultiSigSignsWithStandardCounter | btc/path_transaction.go:90-101 | as written, a multisig request signs with the key at the standard counter's index k, not index 0 |
| Transaction.MultiSigSignsWithOwnKey | btc/path_transaction.go:95 | as intended, a multisig request signs with the key whose public key is the vault's entry in PublicKeys |
| Transaction.SegWitSigningSeesLastAddress | btc/path_transaction.go:90-94 | with the bare-name segwit address handler, segwit signing uses the index of the address just issued |
| Transaction.SegWitSigningIgnoresPrefixedCounter | btc/path_transaction.go:90-94 | as written, the segwit address handler's counter is not the one signing reads: the signing index stays what it was |
| Transaction.SigningTokenSingleUse | btc/path_transaction_test.go:39-78 | a signing token works once; the repeat is InvalidToken |

## Left out

- Vault plumbing is not modelled: `framework.Path` tables, help texts, the
  backend registration in `btc/backend.go` and lease TTLs. The three revoke
  callbacks are taken as registered for their secret types.
- Cryptography is uninterpreted: BIP 39 seeds, hdkeychain
  NewMaster/Child/Neuter, ECDSA and DER, double SHA-256, and the address
  encodings are fields of `HdWallet.Crypto`. Every property holds for
  every choice of them.
- Randomness is a parameter. The fresh mnemonic and the fresh token UUID
  are passed in. The case where the entropy or UUID source fails is not
  modelled.
- The salt is a parameter. `salt.NewSalt` is the flag `available`, and
  `SaltID` is the function `id`. The salt's own storage entry is not
  modelled.
- Lemmas that need tokens of different kinds to live at different keys
  require salted ids to be hexadecimal (`Credentials.DigestIds`).
- JSON encoding is reduced to the shape of each record. If a key holds a
  record of another shape, the model reports `DecodeMismatch`. Go would
  instead fill the fields the shapes share, or panic in `toMultiSig`.
  `json.Number` range errors are modelled for `toMultiSig`.
- A multisig JSON entry always decodes with the Segwit flag false, as
  `toMultiSig` does (`Wallets.MultiSigRoundTrip`).
- `getWalletByType`'s `UnknownWalletTypeError` branch cannot occur, because
  wallet kinds form an enumeration.
- The requests are sequential. The races on the counter's
  read-modify-write and on validate-then-revoke are not modelled.
- The formatting of the key-count messages is not modelled. Go's
  `string(int)` yields a rune, not digits; the model keeps the two numbers
  in `ScriptKeyCount` and `WalletKeyCount`.
- RedeemScript.Push: a key longer than 255 bytes gets its length byte
  truncated modulo 256, as `byte(len)` does. The parse-back lemmas are
  stated only for keys shorter than 256 bytes.
- `btc/path_segwit_credentials.go` (issuing segwit tokens) is not part of
  this model. The segwit address and signing handlers are modelled on
  storage that already holds segwit credentials.
- Credentials.PathMultiSigCredsRead: leases the token as `multisig_creds`,
  the corrected type from ## Findings. The code as written
  (btc/path_multisig_credential.go:63) is
  `Credentials.MultiSigCredsIssueAsWritten`.
- Transaction.PathTransactionWrite: signs for a multisig wallet with index
  0, the corrected choice from ## Findings. The code as written
  (btc/path_transaction.go:90-96) is `Transaction.TransactionWriteAsWritten`.
- Addresses.PathSegWitAddressWrite: keys the token owner, the wallet and
  the counter by the bare name, the correction from ## Findings. The code as
  written (btc/path_segwit_address.go:43) is
  `Addresses.SegWitAddressWriteAsWritten`.
- `SegWitPrefix` is used in btc/path_segwit_address.go:43 but defined in no
  file of this model. It is modelled as `segwit_`, and the finding about it
  holds for any non-empty prefix.
- Addresses.AddressTokenSingleUse and Transaction.SigningTokenSingleUse
  assume the stored credential records the token it was issued for. This
  holds for every credential the issuing handlers write
  (`Addresses.IssueUseReuse`).

## Findings

| source | as written | input that shows it | evidently intended | confidence | as-written member | corrected member |
|---|---|---|---|---|---|---|
| btc/path_transaction.go:90-96 | a multisig signing request takes its key index from the standard counter `address/` + name | a multisig wallet `w` and a standard wallet also named `w` that has handed out address 3: multisig signing derives the key at path ++ [3] | the comment says the multisig index is 0, the index of the vault's own key in the redeem script | medium, not executed | Transaction.MultiSigSignsWithStandardCounter | Transaction.MultiSigSignsWithOwnKey |
| btc/path_multisig_credential.go:63-66 | the multisig token is stored under `creds/multisig/` but leased under the secret type `creds` | issue a multisig token and let its lease end: the standard revoke deletes `creds/` + SaltID(t), and the multisig token stays valid | lease under `multisig_creds`, whose revoke deletes `creds/multisig/` + SaltID(t) | medium, not executed | Credentials.MultiSigLeaseExpiryKeepsToken | Credentials.MultiSigLeaseExpiryRevokes |
| btc/path_segwit_address.go:43 | the segwit address handler prefixes the wallet name with `SegWitPrefix` before the token check, the wallet lookup and the counter key, but the segwit wallet handler stores the wallet under the bare name (btc/path_segwit_wallet.go:64), and signing reads the bare-name counter (btc/path_transaction.go:90-94) | the sequence of btc/path_segwit_address_test.go:11-41: write segwit wallet `test`, take a token, request an address; the lookup of `wallet/segwit/segwit_test` finds nothing | one name for the wallet, its token and its counter, so the request answers the address at index 1, as the test expects | low: depends on the two mixed source versions, since `SegWitPrefix` and the segwit credential handler are not shown; not executed | Addresses.SegWitAddressFailsAfterWalletWrite | Addresses.SegWitWalletThenAddress |
