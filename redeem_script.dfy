/** The m-of-n multisig redeem script of BIP 11, as newRedeemScript in
    btc/utils.go writes it: OP_m, each public key behind a one-byte length
    push, OP_n, OP_CHECKMULTISIG, returned as hexadecimal text. */
module RedeemScript {
  import opened Constants
  import opened Hex

  const OP_1: Byte := 0x51
  const OP_CHECKMULTISIG: Byte := 0xae

  /** `OP_1 + (k - 1)`: the opcode pushing the small integer k. */
  function SmallIntOp(k: int): (op: Byte)
    requires MinMultiSigN <= k <= MaxMultiSigN
    ensures op == 0x50 + k
  {
    OP_1 + (k - 1)
  }

  /** One key push: `byte(len(key))`, truncated to 8 bits, then the key. A
      direct push in Bitcoin script only for keys of at most 75 bytes. */
  function Push(key: seq<Byte>): seq<Byte> {
    [|key| % 256] + key
  }

  function Pushes(keys: seq<seq<Byte>>): seq<Byte> {
    if keys == [] then [] else Push(keys[0]) + Pushes(keys[1..])
  }

  /** The script bytes for m, n and the decoded keys. */
  function Layout(m: int, n: int, keys: seq<seq<Byte>>): seq<Byte>
    requires MinMultiSigN <= m <= n <= MaxMultiSigN
  {
    [SmallIntOp(m)] + Pushes(keys) + [SmallIntOp(n), OP_CHECKMULTISIG]
  }

  /** Decodes the hexadecimal keys in order; the first key that is not
      valid hexadecimal aborts with its decode error. */
  function DecodeAll(pubkeys: seq<string>): (r: Result<seq<seq<Byte>>>)
    ensures r.Ok? ==> |r.value| == |pubkeys|
  {
    if pubkeys == [] then Ok([])
    else
      match Hex.Decode(pubkeys[0])
      case Err(e) => Err(e)
      case Ok(k) =>
        match DecodeAll(pubkeys[1..])
        case Err(e) => Err(e)
        case Ok(ks) => Ok([k] + ks)
  }

  /** All keys decode exactly when each is valid hexadecimal, and then the
      i-th decoded key is the decoding of the i-th key. */
  lemma {:induction false} DecodeAllCharacterized(pubkeys: seq<string>)
    ensures DecodeAll(pubkeys).Ok? <==> forall i | 0 <= i < |pubkeys| :: IsHexString(pubkeys[i])
    ensures DecodeAll(pubkeys).Ok? ==>
      forall i | 0 <= i < |pubkeys| :: Hex.Decode(pubkeys[i]) == Ok(DecodeAll(pubkeys).value[i])
  {
    if pubkeys != [] {
      DecodeCharacterized(pubkeys[0]);
      DecodeAllCharacterized(pubkeys[1..]);
      assert forall i | 1 <= i < |pubkeys| :: pubkeys[i] == pubkeys[1..][i - 1];
    }
  }

  /** newRedeemScript as a function of (m, n, pubkeys): n is checked
      first, then m, then the number of keys, then each key's hexadecimal. */
  function BuildRedeemScript(m: int, n: int, pubkeys: seq<string>): (r: Result<string>)
    ensures (n < MinMultiSigN || n > MaxMultiSigN) ==> r == Err(NOutOfRange)
    ensures MinMultiSigN <= n <= MaxMultiSigN && (m < MinMultiSigN || m > n) ==> r == Err(MOutOfRange)
    ensures MinMultiSigN <= m <= n <= MaxMultiSigN && |pubkeys| != n ==> r == Err(ScriptKeyCount(|pubkeys|, n))
    ensures r.Ok? <==> MinMultiSigN <= m <= n <= MaxMultiSigN && |pubkeys| == n && DecodeAll(pubkeys).Ok?
    ensures MinMultiSigN <= m <= n <= MaxMultiSigN && |pubkeys| == n && DecodeAll(pubkeys).Err? ==> r == Err(DecodeAll(pubkeys).error)
    ensures r.Ok? ==> Hex.Decode(r.value) == Ok(Layout(m, n, DecodeAll(pubkeys).value))
  {
    if n < MinMultiSigN || n > MaxMultiSigN then Err(NOutOfRange)
    else if m < MinMultiSigN || m > n then Err(MOutOfRange)
    else if |pubkeys| != n then Err(ScriptKeyCount(|pubkeys|, n))
    else
      match DecodeAll(pubkeys)
      case Err(e) => Err(e)
      case Ok(keys) =>
        DecodeEncode(Layout(m, n, keys));
        Ok(Encode(Layout(m, n, keys)))
  }

  lemma {:induction false} PushesSnoc(keys: seq<seq<Byte>>, k: seq<Byte>)
    ensures Pushes(keys + [k]) == Pushes(keys) + Push(k)
  {
    if keys == [] {
      assert keys + [k] == [k];
    } else {
      assert (keys + [k])[1..] == keys[1..] + [k];
      PushesSnoc(keys[1..], k);
    }
  }

  lemma {:induction false} DecodeAllSnoc(pubkeys: seq<string>, p: string)
    requires DecodeAll(pubkeys).Ok?
    ensures Hex.Decode(p).Err? ==> DecodeAll(pubkeys + [p]) == Err(Hex.Decode(p).error)
    ensures Hex.Decode(p).Ok? ==> DecodeAll(pubkeys + [p]) == Ok(DecodeAll(pubkeys).value + [Hex.Decode(p).value])
  {
    if pubkeys == [] {
      assert pubkeys + [p] == [p];
      assert [p][1..] == [];
      if Hex.Decode(p).Ok? {
        assert [Hex.Decode(p).value] + [] == [] + [Hex.Decode(p).value];
      }
    } else {
      assert (pubkeys + [p])[0] == pubkeys[0];
      assert (pubkeys + [p])[1..] == pubkeys[1..] + [p];
      DecodeAllSnoc(pubkeys[1..], p);
      var k := Hex.Decode(pubkeys[0]).value;
      assert DecodeAll(pubkeys).value == [k] + DecodeAll(pubkeys[1..]).value;
      if Hex.Decode(p).Ok? {
        assert DecodeAll(pubkeys + [p]).value == [k] + (DecodeAll(pubkeys[1..]).value + [Hex.Decode(p).value]);
        assert [k] + (DecodeAll(pubkeys[1..]).value + [Hex.Decode(p).value])
            == ([k] + DecodeAll(pubkeys[1..]).value) + [Hex.Decode(p).value];
      }
    }
  }

  /** The key pushes of the script: the loop of newRedeemScript, writing
      each decoded key behind its length byte. */
  method WriteKeyPushes(script0: seq<Byte>, pubkeys: seq<string>) returns (r: Result<seq<Byte>>)
    ensures DecodeAll(pubkeys).Err? ==> r == Err(DecodeAll(pubkeys).error)
    ensures DecodeAll(pubkeys).Ok? ==> r == Ok(script0 + Pushes(DecodeAll(pubkeys).value))
  {
    var script := script0;
    var i := 0;
    while i < |pubkeys|
      invariant 0 <= i <= |pubkeys|
      invariant DecodeAll(pubkeys[..i]).Ok?
      invariant script == script0 + Pushes(DecodeAll(pubkeys[..i]).value)
    {
      var key := Hex.Decode(pubkeys[i]);
      DecodeAllSnoc(pubkeys[..i], pubkeys[i]);
      assert pubkeys[..i] + [pubkeys[i]] == pubkeys[..i + 1];
      if key.Err? {
        DecodeAllPrefixErr(pubkeys, i + 1);
        return Err(key.error);
      }
      PushesSnoc(DecodeAll(pubkeys[..i]).value, key.value);
      script := script + Push(key.value);
      i := i + 1;
    }
    assert pubkeys[..i] == pubkeys;
    r := Ok(script);
  }

  /** newRedeemScript: validates n, m and the key count, then writes the
      script into a buffer and returns its hexadecimal text. */
  method NewRedeemScript(m: int, n: int, pubkeys: seq<string>) returns (r: Result<string>)
    ensures r == BuildRedeemScript(m, n, pubkeys)
  {
    if n < MinMultiSigN || n > MaxMultiSigN {
      return Err(NOutOfRange);
    }
    if m < MinMultiSigN || m > n {
      return Err(MOutOfRange);
    }
    if |pubkeys| != n {
      return Err(ScriptKeyCount(|pubkeys|, n));
    }
    var pushed := WriteKeyPushes([SmallIntOp(m)], pubkeys);
    if pushed.Err? {
      return Err(pushed.error);
    }
    var script := pushed.value + [SmallIntOp(n), OP_CHECKMULTISIG];
    assert script == Layout(m, n, DecodeAll(pubkeys).value);
    r := Ok(Encode(script));
  }

  /** A failure on a prefix of the keys is the failure of all of them. */
  lemma {:induction false} DecodeAllPrefixErr(pubkeys: seq<string>, j: nat)
    requires j <= |pubkeys| && DecodeAll(pubkeys[..j]).Err?
    ensures DecodeAll(pubkeys) == DecodeAll(pubkeys[..j])
  {
    if pubkeys != [] && j > 0 {
      assert pubkeys[..j][0] == pubkeys[0];
      assert pubkeys[..j][1..] == pubkeys[1..][..j - 1];
      if Hex.Decode(pubkeys[0]).Ok? {
        DecodeAllPrefixErr(pubkeys[1..], j - 1);
      }
    }
  }

  // -----------------------------------------------------------------------
  // The layout's length and its parser

  /** Σ (1 + |key|) over the keys. */
  function PushedLength(keys: seq<seq<Byte>>): nat {
    if keys == [] then 0 else 1 + |keys[0]| + PushedLength(keys[1..])
  }

  lemma {:induction false} PushesLength(keys: seq<seq<Byte>>)
    ensures |Pushes(keys)| == PushedLength(keys)
  {
    if keys != [] {
      PushesLength(keys[1..]);
    }
  }

  /** The script is OP_m, the pushes, OP_n and OP_CHECKMULTISIG: its length
      is 3 + Σ (1 + |key|) and its ends are the fixed opcodes. */
  lemma LayoutShape(m: int, n: int, keys: seq<seq<Byte>>)
    requires MinMultiSigN <= m <= n <= MaxMultiSigN
    ensures |Layout(m, n, keys)| == 3 + PushedLength(keys)
    ensures Layout(m, n, keys)[0] == 0x50 + m
    ensures Layout(m, n, keys)[|Layout(m, n, keys)| - 2] == 0x50 + n
    ensures Layout(m, n, keys)[|Layout(m, n, keys)| - 1] == 0xae
  {
    PushesLength(keys);
  }

  /** Reads back a sequence of length-prefixed pushes that fills `s`. */
  function ParsePushes(s: seq<Byte>): Option<seq<seq<Byte>>>
    decreases |s|
  {
    if s == [] then Some([])
    else if 1 + s[0] > |s| then None
    else
      match ParsePushes(s[1 + s[0]..])
      case None => None
      case Some(keys) => Some([s[1..1 + s[0]]] + keys)
  }

  /** Reads back (m, keys, n) from a BIP 11 multisig script. */
  function ParseScript(s: seq<Byte>): Option<(int, seq<seq<Byte>>, int)> {
    if |s| < 3 || s[|s| - 1] != OP_CHECKMULTISIG then None
    else if !(0x51 <= s[0] <= 0x57) || !(0x51 <= s[|s| - 2] <= 0x57) then None
    else
      match ParsePushes(s[1..|s| - 2])
      case None => None
      case Some(keys) => Some((s[0] - 0x50, keys, s[|s| - 2] - 0x50))
  }

  lemma {:induction false} ParsePushesInverse(keys: seq<seq<Byte>>)
    requires forall i | 0 <= i < |keys| :: |keys[i]| < 256
    ensures ParsePushes(Pushes(keys)) == Some(keys)
  {
    if keys != [] {
      var s := Pushes(keys);
      var k := keys[0];
      assert s == [|k|] + k + Pushes(keys[1..]);
      assert s[0] == |k|;
      assert s[1..1 + |k|] == k;
      assert s[1 + |k|..] == Pushes(keys[1..]);
      ParsePushesInverse(keys[1..]);
      assert [k] + keys[1..] == keys;
    }
  }

  /** For keys shorter than 256 bytes the length byte is exact and the script
      determines m, the keys in input order, and n. */
  lemma ParseLayout(m: int, n: int, keys: seq<seq<Byte>>)
    requires MinMultiSigN <= m <= n <= MaxMultiSigN
    requires forall i | 0 <= i < |keys| :: |keys[i]| < 256
    ensures ParseScript(Layout(m, n, keys)) == Some((m, keys, n))
  {
    var s := Layout(m, n, keys);
    LayoutShape(m, n, keys);
    assert s[1..|s| - 2] == Pushes(keys);
    ParsePushesInverse(keys);
  }
}
