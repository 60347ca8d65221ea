/** Single-use auth tokens: issue (btc/path_credentials.go,
    btc/path_multisig_credential.go), lookup and revoke
    (btc/secret_credentials.go, btc/multisig_secret_credentials.go,
    btc/segwit_secret_credentials.go). A token is a fresh UUID; it is stored
    under its salted identifier in the namespace of its wallet kind. */
module Credentials {
  import opened Constants
  import opened Hex
  import opened Store
  import opened Wallets

  /** Vault's storage salt: `available` is false when salt.NewSalt fails,
      `id` is SaltID, a keyed digest. */
  datatype Salt = Salt(available: bool, id: string -> string)

  /** A salted identifier is lower-case hexadecimal text. */
  predicate IsDigest(h: string) {
    forall i | 0 <= i < |h| :: IsLowerHexChar(h[i])
  }

  ghost predicate DigestIds(salt: Salt) {
    forall t :: IsDigest(salt.id(t))
  }

  /** The lease a credential read answers with: its secret type and the
      token it carries as data and as internal data. */
  datatype Lease = Lease(secretType: string, token: string)

  /** The credential namespace of each wallet kind. */
  function CredsPrefix(kind: WalletKind): (p: string)
    ensures PathCreds <= p
  {
    match kind
    case Standard => PathCreds
    case MultiSig => PathMultiSigCreds
    case SegWit => PathSegWitCreds
  }

  /** The secret type under which tokens of a wallet kind are revoked. */
  function SecretType(kind: WalletKind): string {
    match kind
    case Standard => SecretCredsType
    case MultiSig => MultiSigSecretCredsType
    case SegWit => SegWitSecretCredsType
  }

  /** The wallet kind whose revoke callback serves a secret type. */
  function SecretKind(secretType: string): (r: Option<WalletKind>)
    ensures r.Some? ==> SecretType(r.value) == secretType
  {
    if secretType == SecretCredsType then Some(Standard)
    else if secretType == MultiSigSecretCredsType then Some(MultiSig)
    else if secretType == SegWitSecretCredsType then Some(SegWit)
    else None
  }

  /** Every kind's secret type routes back to that kind's revoke callback. */
  lemma SecretTypesRouteBack(kind: WalletKind)
    ensures SecretKind(SecretType(kind)) == Some(kind)
  {
  }

  /** The storage key of token `t` of wallet kind `kind`. */
  function TokenKey(salt: Salt, kind: WalletKind, t: string): string {
    CredsPrefix(kind) + salt.id(t)
  }

  /** Tokens of different kinds never share a storage key. */
  lemma TokenNamespacesDisjoint(salt: Salt, k1: WalletKind, k2: WalletKind, t1: string, t2: string)
    requires DigestIds(salt)
    requires k1 != k2
    ensures TokenKey(salt, k1, t1) != TokenKey(salt, k2, t2)
  {
    var a, b := TokenKey(salt, k1, t1), TokenKey(salt, k2, t2);
    var h1, h2 := salt.id(t1), salt.id(t2);
    assert IsDigest(h1) && IsDigest(h2);
    var i := |PathCreds|;
    if k1 == Standard || k2 == Standard {
      // the kind with a sub-prefix has 'm' or 's' where a digest has a digit
      var (h, other) := if k1 == Standard then (h1, b) else (h2, a);
      var std := if k1 == Standard then a else b;
      assert other[i] == 'm' || other[i] == 's';
      if |h| > 0 {
        assert std[i] == h[0];
        assert IsLowerHexChar(h[0]);
      } else {
        assert |std| == i < |other|;
      }
    } else {
      assert a[i] != b[i];
    }
  }

  // -----------------------------------------------------------------------
  // Issue

  /** newToken: the fresh token `uuid` and its salted identifier. */
  function NewToken(salt: Salt, uuid: string): (r: Result<(string, string)>)
    ensures r.Ok? <==> salt.available
    ensures !salt.available ==> r == Err(SaltUnavailable)
    ensures r.Ok? ==> r.value.0 == uuid && CredsPrefix(Standard) + r.value.1 == TokenKey(salt, Standard, uuid)
  {
    if !salt.available then Err(SaltUnavailable) else Ok((uuid, salt.id(uuid)))
  }

  /** Storing a new credential for wallet `name` in the namespace of `kind`
      after its wallet was found; the answer is a lease of type leaseType. */
  function IssueToken(data: Data, failing: set<Access>, salt: Salt, uuid: string, name: string, kind: WalletKind, leaseType: string)
    : (s: Step<Lease>)
    ensures !salt.available ==> s == Step(Err(SaltUnavailable), data)
    ensures s.result.Ok? <==> salt.available && Access(PutOp, TokenKey(salt, kind, uuid)) !in failing
    ensures s.result.Err? ==> s.data == data
    ensures s.result.Ok? ==>
      && s.result.value == Lease(leaseType, uuid)
      && s.data == data[TokenKey(salt, kind, uuid) := CredentialEntry(Credential(name, salt.id(uuid), uuid))]
  {
    match NewToken(salt, uuid)
    case Err(e) => Step(Err(e), data)
    case Ok((token, leaseID)) =>
      var key := CredsPrefix(kind) + leaseID;
      if Access(PutOp, key) in failing then Step(Err(StorageFailure(PutOp, key)), data)
      else Step(Ok(Lease(leaseType, token)), data[key := CredentialEntry(Credential(name, leaseID, token))])
  }

  /** pathCredsRead: issues a standard token for an existing wallet. */
  function CredsIssue(data: Data, failing: set<Access>, salt: Salt, uuid: string, name: string): (s: Step<Lease>)
    ensures name == "" ==> s == Step(Err(MissingWalletName), data)
    ensures name != "" && LookupWallet(data, failing, PathWallet + name) == Ok(None) ==> s == Step(Err(WalletNotFound), data)
    ensures name != "" && LookupWallet(data, failing, PathWallet + name).Err?
      ==> s == Step(Err(LookupWallet(data, failing, PathWallet + name).error), data)
    ensures s.result.Ok? <==>
      && name != "" && LookupWallet(data, failing, PathWallet + name).Ok?
      && LookupWallet(data, failing, PathWallet + name).value.Some?
      && salt.available && Access(PutOp, TokenKey(salt, Standard, uuid)) !in failing
    ensures s.result.Err? ==> s.data == data
    ensures s.result.Ok? ==>
      && LookupWallet(data, failing, PathWallet + name).Ok? && LookupWallet(data, failing, PathWallet + name).value.Some?
      && s.result.value == Lease(SecretCredsType, uuid)
      && s.data == data[TokenKey(salt, Standard, uuid) := CredentialEntry(Credential(name, salt.id(uuid), uuid))]
  {
    if name == "" then Step(Err(MissingWalletName), data)
    else
      match LookupWallet(data, failing, PathWallet + name)
      case Err(e) => Step(Err(e), data)
      case Ok(None) => Step(Err(WalletNotFound), data)
      case Ok(Some(_)) => IssueToken(data, failing, salt, uuid, name, Standard, SecretCredsType)
  }

  /** pathMultiSigCredsRead, corrected: issues a multisig token for an
      existing multisig wallet, leased under the multisig secret type so that
      the end of the lease revokes it in its own namespace. The code as
      written is MultiSigCredsIssueAsWritten. */
  function MultiSigCredsIssue(data: Data, failing: set<Access>, salt: Salt, uuid: string, name: string): (s: Step<Lease>)
    ensures name == "" ==> s == Step(Err(MissingWalletName), data)
    ensures name != "" && LookupMultiSig(data, failing, name) == Ok(None) ==> s == Step(Err(MultiSigWalletNotFound), data)
    ensures name != "" && LookupMultiSig(data, failing, name).Err?
      ==> s == Step(Err(LookupMultiSig(data, failing, name).error), data)
    ensures s.result.Ok? <==>
      && name != "" && LookupMultiSig(data, failing, name).Ok? && LookupMultiSig(data, failing, name).value.Some?
      && salt.available && Access(PutOp, TokenKey(salt, MultiSig, uuid)) !in failing
    ensures s.result.Err? ==> s.data == data
    ensures s.result.Ok? ==>
      && LookupMultiSig(data, failing, name).Ok? && LookupMultiSig(data, failing, name).value.Some?
      && s.result.value == Lease(MultiSigSecretCredsType, uuid)
      && s.data == data[TokenKey(salt, MultiSig, uuid) := CredentialEntry(Credential(name, salt.id(uuid), uuid))]
  {
    if name == "" then Step(Err(MissingWalletName), data)
    else
      match LookupMultiSig(data, failing, name)
      case Err(e) => Step(Err(e), data)
      case Ok(None) => Step(Err(MultiSigWalletNotFound), data)
      case Ok(Some(_)) => IssueToken(data, failing, salt, uuid, name, MultiSig, MultiSigSecretCredsType)
  }

  /** pathMultiSigCredsRead as written: the same storage effect, but the
      lease is typed as a standard credential. */
  function MultiSigCredsIssueAsWritten(data: Data, failing: set<Access>, salt: Salt, uuid: string, name: string)
    : (s: Step<Lease>)
    ensures s.data == MultiSigCredsIssue(data, failing, salt, uuid, name).data
    ensures s.result.Ok? <==> MultiSigCredsIssue(data, failing, salt, uuid, name).result.Ok?
    ensures s.result.Ok? ==> s.result.value == Lease(SecretCredsType, uuid)
  {
    if name == "" then Step(Err(MissingWalletName), data)
    else
      match LookupMultiSig(data, failing, name)
      case Err(e) => Step(Err(e), data)
      case Ok(None) => Step(Err(MultiSigWalletNotFound), data)
      case Ok(Some(_)) => IssueToken(data, failing, salt, uuid, name, MultiSig, SecretCredsType)
  }

  /** Issuing writes one credential key and leaves every wallet lookup as
      it was. */
  lemma IssueKeepsWallets(data: Data, failing: set<Access>, salt: Salt, uuid: string, name: string, key: string)
    requires PathWallet <= key
    ensures LookupWallet(CredsIssue(data, failing, salt, uuid, name).data, failing, key) == LookupWallet(data, failing, key)
    ensures LookupWallet(MultiSigCredsIssue(data, failing, salt, uuid, name).data, failing, key) == LookupWallet(data, failing, key)
  {
    assert key[0] == PathWallet[0] == 'w';
    assert TokenKey(salt, Standard, uuid)[0] == 'c';
    assert TokenKey(salt, MultiSig, uuid)[0] == 'c';
  }

  // -----------------------------------------------------------------------
  // Lookup

  /** GetToken: the credential stored under the salted token in the
      namespace of `kind`; nothing when there is none. */
  function LookupToken(data: Data, failing: set<Access>, salt: Salt, kind: WalletKind, t: string)
    : (r: Result<Option<Credential>>)
    ensures !salt.available ==> r == Err(SaltUnavailable)
    ensures salt.available ==> (r == Ok(None) <==> Fetch(data, failing, TokenKey(salt, kind, t)) == Ok(None))
    ensures r.Ok? && r.value.Some? ==>
      TokenKey(salt, kind, t) in data && data[TokenKey(salt, kind, t)] == CredentialEntry(r.value.value)
  {
    if !salt.available then Err(SaltUnavailable)
    else
      var entry :- Fetch(data, failing, CredsPrefix(kind) + salt.id(t));
      match entry
      case None => Ok(None)
      case Some(CredentialEntry(c)) => Ok(Some(c))
      case Some(_) => Err(DecodeMismatch)
  }

  /** GetToken on the request's storage; it writes nothing. */
  method GetToken(store: Storage, salt: Salt, t: string, kind: WalletKind) returns (r: Result<Option<Credential>>)
    ensures r == LookupToken(store.data, store.failing, salt, kind, t)
  {
    if !salt.available {
      return Err(SaltUnavailable);
    }
    var entry := store.Get(CredsPrefix(kind) + salt.id(t));
    if entry.Err? {
      return Err(entry.error);
    }
    match entry.value
    case None => r := Ok(None);
    case Some(rec) =>
      if rec.CredentialEntry? {
        r := Ok(Some(rec.credential));
      } else {
        r := Err(DecodeMismatch);
      }
  }

  /** A freshly issued token is found by a lookup of its own kind. */
  lemma IssueThenLookup(data: Data, failing: set<Access>, salt: Salt, uuid: string, name: string)
    requires CredsIssue(data, failing, salt, uuid, name).result.Ok?
    requires Access(GetOp, TokenKey(salt, Standard, uuid)) !in failing
    ensures LookupToken(CredsIssue(data, failing, salt, uuid, name).data, failing, salt, Standard, uuid)
      == Ok(Some(Credential(name, salt.id(uuid), uuid)))
  {
  }

  /** A multisig token is invisible to a lookup of another kind: issuing it
      leaves those lookups as they were. */
  lemma MultiSigTokenNotStandard(data: Data, failing: set<Access>, salt: Salt, uuid: string, name: string, t: string, kind: WalletKind)
    requires DigestIds(salt)
    requires kind != MultiSig
    ensures LookupToken(MultiSigCredsIssue(data, failing, salt, uuid, name).data, failing, salt, kind, t)
      == LookupToken(data, failing, salt, kind, t)
  {
    TokenNamespacesDisjoint(salt, MultiSig, kind, uuid, t);
  }

  // -----------------------------------------------------------------------
  // Revoke

  /** The revoke callback of the secret type of `kind`, given the token
      from the secret's internal data (None when absent or not a string). */
  function Revoke(data: Data, failing: set<Access>, salt: Salt, kind: WalletKind, internal: Option<string>)
    : (s: Step<()>)
    ensures internal.None? ==> s == Step(Err(MissingInternalData), data)
    ensures internal.Some? && !salt.available ==> s == Step(Err(SaltUnavailable), data)
    ensures internal.Some? && salt.available && Access(DeleteOp, TokenKey(salt, kind, internal.value)) in failing
      ==> s == Step(Err(StorageFailure(DeleteOp, TokenKey(salt, kind, internal.value))), data)
    ensures s.result.Ok? <==>
      internal.Some? && salt.available && Access(DeleteOp, TokenKey(salt, kind, internal.value)) !in failing
    ensures s.result.Ok? ==> s.data == data - {TokenKey(salt, kind, internal.value)}
  {
    match internal
    case None => Step(Err(MissingInternalData), data)
    case Some(id) =>
      if !salt.available then Step(Err(SaltUnavailable), data)
      else
        var key := CredsPrefix(kind) + salt.id(id);
        if Access(DeleteOp, key) in failing then Step(Err(StorageFailure(DeleteOp, key)), data)
        else Step(Ok(()), data - {key})
  }

  /** secretCredsRevoke: deletes the standard credential of the token. */
  method SecretCredsRevoke(store: Storage, salt: Salt, internal: Option<string>) returns (r: Result<()>)
    modifies store
    ensures Step(r, store.data) == Revoke(old(store.data), store.failing, salt, Standard, internal)
  {
    if internal.None? {
      return Err(MissingInternalData);
    }
    if !salt.available {
      return Err(SaltUnavailable);
    }
    var deleted := store.Delete(PathCreds + salt.id(internal.value));
    if deleted.Fail? {
      return Err(deleted.error);
    }
    r := Ok(());
  }

  /** multisigSecretCredsRevoke: deletes the multisig credential of the token. */
  method MultisigSecretCredsRevoke(store: Storage, salt: Salt, internal: Option<string>) returns (r: Result<()>)
    modifies store
    ensures Step(r, store.data) == Revoke(old(store.data), store.failing, salt, MultiSig, internal)
  {
    if internal.None? {
      return Err(MissingInternalData);
    }
    if !salt.available {
      return Err(SaltUnavailable);
    }
    var deleted := store.Delete(PathMultiSigCreds + salt.id(internal.value));
    if deleted.Fail? {
      return Err(deleted.error);
    }
    r := Ok(());
  }

  /** segwitSecretCredsRevoke: deletes the segwit credential of the token. */
  method SegwitSecretCredsRevoke(store: Storage, salt: Salt, internal: Option<string>) returns (r: Result<()>)
    modifies store
    ensures Step(r, store.data) == Revoke(old(store.data), store.failing, salt, SegWit, internal)
  {
    if internal.None? {
      return Err(MissingInternalData);
    }
    if !salt.available {
      return Err(SaltUnavailable);
    }
    var deleted := store.Delete(PathSegWitCreds + salt.id(internal.value));
    if deleted.Fail? {
      return Err(deleted.error);
    }
    r := Ok(());
  }

  /** RevokeToken: hands the credential's token to the revoke callback of
      the secret type of `kind`. */
  method RevokeToken(store: Storage, salt: Salt, cred: Credential, kind: WalletKind) returns (r: Result<()>)
    modifies store
    ensures Step(r, store.data) == Revoke(old(store.data), store.failing, salt, kind, Some(cred.token))
  {
    SecretTypesRouteBack(kind);
    match SecretKind(SecretType(kind))
    case Some(Standard) => r := SecretCredsRevoke(store, salt, Some(cred.token));
    case Some(MultiSig) => r := MultisigSecretCredsRevoke(store, salt, Some(cred.token));
    case Some(SegWit) => r := SegwitSecretCredsRevoke(store, salt, Some(cred.token));
  }

  /** A revoked token is no longer found. */
  lemma RevokeThenLookup(data: Data, failing: set<Access>, salt: Salt, kind: WalletKind, t: string)
    requires Revoke(data, failing, salt, kind, Some(t)).result.Ok?
    requires Access(GetOp, TokenKey(salt, kind, t)) !in failing
    ensures LookupToken(Revoke(data, failing, salt, kind, Some(t)).data, failing, salt, kind, t) == Ok(None)
  {
  }

  /** Revoking a token of one kind leaves every token of the other kinds
      where it was. */
  lemma RevokeKeepsOtherKinds(data: Data, failing: set<Access>, salt: Salt, kind: WalletKind, id: string, other: WalletKind, t: string)
    requires DigestIds(salt)
    requires other != kind
    ensures LookupToken(Revoke(data, failing, salt, kind, Some(id)).data, failing, salt, other, t)
      == LookupToken(data, failing, salt, other, t)
  {
    TokenNamespacesDisjoint(salt, kind, other, id, t);
  }

  /** Issuing and then revoking a token under the same salt: the token is
      found before the revoke and not after it. */
  lemma IssueRevokeLookup(data: Data, failing: set<Access>, salt: Salt, uuid: string, name: string)
    requires CredsIssue(data, failing, salt, uuid, name).result.Ok?
    requires Access(GetOp, TokenKey(salt, Standard, uuid)) !in failing
    requires Access(DeleteOp, TokenKey(salt, Standard, uuid)) !in failing
    ensures var issued := CredsIssue(data, failing, salt, uuid, name).data;
      && LookupToken(issued, failing, salt, Standard, uuid).Ok?
      && LookupToken(issued, failing, salt, Standard, uuid).value.Some?
      && LookupToken(Revoke(issued, failing, salt, Standard, Some(uuid)).data, failing, salt, Standard, uuid) == Ok(None)
  {
    IssueThenLookup(data, failing, salt, uuid, name);
    RevokeThenLookup(CredsIssue(data, failing, salt, uuid, name).data, failing, salt, Standard, uuid);
  }

  // -----------------------------------------------------------------------
  // Lease expiry

  /** When a lease ends, Vault calls the revoke callback of the lease's
      secret type with the token the lease carries. */
  function ExpireLease(data: Data, failing: set<Access>, salt: Salt, lease: Lease): (s: Step<()>)
    ensures SecretKind(lease.secretType).None? ==> s == Step(Err(UnknownSecretType), data)
    ensures SecretKind(lease.secretType).Some? ==>
      s == Revoke(data, failing, salt, SecretKind(lease.secretType).value, Some(lease.token))
  {
    match SecretKind(lease.secretType)
    case None => Step(Err(UnknownSecretType), data)
    case Some(kind) => Revoke(data, failing, salt, kind, Some(lease.token))
  }

  /** As written, the end of a multisig token's lease runs the standard
      revoke, which deletes a standard key: the multisig token stays valid. */
  lemma MultiSigLeaseExpiryKeepsToken(data: Data, failing: set<Access>, salt: Salt, uuid: string, name: string)
    requires DigestIds(salt)
    requires MultiSigCredsIssueAsWritten(data, failing, salt, uuid, name).result.Ok?
    requires Access(GetOp, TokenKey(salt, MultiSig, uuid)) !in failing
    ensures var issued := MultiSigCredsIssueAsWritten(data, failing, salt, uuid, name);
      var expired := ExpireLease(issued.data, failing, salt, issued.result.value);
      LookupToken(expired.data, failing, salt, MultiSig, uuid) == Ok(Some(Credential(name, salt.id(uuid), uuid)))
  {
    var issued := MultiSigCredsIssueAsWritten(data, failing, salt, uuid, name);
    TokenNamespacesDisjoint(salt, Standard, MultiSig, uuid, uuid);
    assert SecretKind(issued.result.value.secretType) == Some(Standard);
  }

  /** With the corrected lease type the end of the lease revokes the token. */
  lemma MultiSigLeaseExpiryRevokes(data: Data, failing: set<Access>, salt: Salt, uuid: string, name: string)
    requires MultiSigCredsIssue(data, failing, salt, uuid, name).result.Ok?
    requires Access(GetOp, TokenKey(salt, MultiSig, uuid)) !in failing
    ensures var issued := MultiSigCredsIssue(data, failing, salt, uuid, name);
      var expired := ExpireLease(issued.data, failing, salt, issued.result.value);
      expired.result.Ok? ==> LookupToken(expired.data, failing, salt, MultiSig, uuid) == Ok(None)
  {
    var issued := MultiSigCredsIssue(data, failing, salt, uuid, name);
    assert SecretKind(issued.result.value.secretType) == Some(MultiSig);
  }

  // -----------------------------------------------------------------------
  // The issuing handlers on the request's storage

  /** Stores the credential of a new token; the last step of both issuing
      handlers. */
  method StoreToken(store: Storage, salt: Salt, uuid: string, name: string, kind: WalletKind, leaseType: string)
    returns (r: Result<Lease>)
    modifies store
    ensures Step(r, store.data) == IssueToken(old(store.data), store.failing, salt, uuid, name, kind, leaseType)
  {
    if !salt.available {
      return Err(SaltUnavailable);
    }
    var token, leaseID := uuid, salt.id(uuid);
    var put := store.Put(CredsPrefix(kind) + leaseID, CredentialEntry(Credential(name, leaseID, token)));
    if put.Fail? {
      return Err(put.error);
    }
    r := Ok(Lease(leaseType, token));
  }

  /** pathCredsRead on the request's storage. */
  method PathCredsRead(store: Storage, salt: Salt, uuid: string, name: string) returns (r: Result<Lease>)
    modifies store
    ensures Step(r, store.data) == CredsIssue(old(store.data), store.failing, salt, uuid, name)
  {
    if name == "" {
      return Err(MissingWalletName);
    }
    var w := GetWallet(store, name);
    if w.Err? {
      return Err(w.error);
    }
    if w.value.None? {
      return Err(WalletNotFound);
    }
    r := StoreToken(store, salt, uuid, name, Standard, SecretCredsType);
  }

  /** pathMultiSigCredsRead on the request's storage, with the corrected
      lease type of MultiSigCredsIssue. */
  method PathMultiSigCredsRead(store: Storage, salt: Salt, uuid: string, name: string) returns (r: Result<Lease>)
    modifies store
    ensures Step(r, store.data) == MultiSigCredsIssue(old(store.data), store.failing, salt, uuid, name)
  {
    if name == "" {
      return Err(MissingWalletName);
    }
    var w := GetMultiSigWallet(store, name);
    if w.Err? {
      return Err(w.error);
    }
    if w.value.None? {
      return Err(MultiSigWalletNotFound);
    }
    r := StoreToken(store, salt, uuid, name, MultiSig, MultiSigSecretCredsType);
  }
}
