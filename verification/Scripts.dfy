/** Recognising output scripts by their shape. */
module Scripts {
  import opened Options
  import opened Codec

  const OP_RETURN: byte := 0x6a
  const OP_1: byte := 0x51
  const OP_16: byte := 0x60
  const OP_DUP: byte := 0x76
  const OP_EQUAL: byte := 0x87
  const OP_EQUALVERIFY: byte := 0x88
  const OP_HASH160: byte := 0xa9
  const OP_CHECKSIG: byte := 0xac
  const OP_CHECKMULTISIG: byte := 0xae

  /** The kind of a script; the two kinds with an address carry the hash it is made from. */
  datatype Class = P2PKH(hash: bytes) | P2PK | P2SH(hash: bytes) | MultiSig | NullData | Custom

  predicate IsOpN(op: byte) {
    OP_1 <= op <= OP_16
  }

  // ---------------------------------------------------------------- the shapes

  function P2PKHScript(hash: bytes): bytes {
    [0x76, 0xa9, 20] + hash + [0x88, 0xac]
  }

  function P2PKScript(key: bytes): bytes
    requires |key| < 256
  {
    [|key|] + key + [0xac]
  }

  function P2SHScript(hash: bytes): bytes {
    [0xa9, 20] + hash + [0x87]
  }

  // A public key, compressed or not.
  predicate IsKey(key: bytes) {
    |key| == 33 || |key| == 65
  }

  predicate AreKeys(keys: seq<bytes>) {
    forall i | 0 <= i < |keys| :: IsKey(keys[i])
  }

  /** Each key after its length. */
  function Pushes(keys: seq<bytes>): bytes
    requires AreKeys(keys)
  {
    if keys == [] then [] else [|keys[0]|] + keys[0] + Pushes(keys[1..])
  }

  function MultiSigScript(m: byte, keys: seq<bytes>): bytes
    requires AreKeys(keys) && |keys| <= 16
  {
    [m] + Pushes(keys) + [0x50 + |keys|, 0xae]
  }

  ghost predicate IsMultiSig(script: bytes) {
    exists m: byte, keys: seq<bytes> :: 0x51 <= m <= 0x60 && 1 <= |keys| <= 16 && AreKeys(keys) && script == MultiSigScript(m, keys)
  }

  /** What a script is, by its shape alone. */
  ghost predicate Is(script: bytes, c: Class) {
    match c
    case P2PKH(hash) => |hash| == 20 && script == P2PKHScript(hash)
    case P2PK => exists key: bytes :: IsKey(key) && script == P2PKScript(key)
    case P2SH(hash) => |hash| == 20 && script == P2SHScript(hash)
    case MultiSig => IsMultiSig(script)
    case NullData => script != [] && script[0] == 0x6a
    case Custom => false
  }

  // ------------------------------------------------------------------ the scan

  // From ofs on, script holds exactly the pushes of n keys, up to end.
  ghost predicate KeysFrom(script: bytes, ofs: nat, end: nat, n: nat) {
    ofs <= end <= |script| && exists keys: seq<bytes> :: AreKeys(keys) && |keys| == n && script[ofs..end] == Pushes(keys)
  }

  // How far the push at ofs reaches, if a whole key fits.
  function KeyAt(script: bytes, ofs: nat, end: nat): nat
    requires ofs < end <= |script|
  {
    if script[ofs] == 65 && ofs + 66 <= end then 66
    else if script[ofs] == 33 && ofs + 34 <= end then 34 else 0
  }

  lemma NoKeysLeft(script: bytes, ofs: nat, end: nat)
    ensures KeysFrom(script, ofs, end, 0) <==> ofs == end <= |script|
  {
    if ofs == end <= |script| {
      assert Pushes([]) == [] && AreKeys([]) && script[ofs..end] == [];
    }
  }

  lemma PushesHead(keys: seq<bytes>)
    requires AreKeys(keys) && keys != []
    ensures Pushes(keys)[0] == |keys[0]| && Pushes(keys)[1..1 + |keys[0]|] == keys[0] && Pushes(keys)[1 + |keys[0]|..] == Pushes(keys[1..])
  {
    var p := [|keys[0]| as byte] + keys[0];
    assert Pushes(keys) == p + Pushes(keys[1..]);
    assert p[1..] == keys[0];
  }

  // Reading a key that is there.
  lemma FirstKey(script: bytes, ofs: nat, end: nat, keys: seq<bytes>)
    requires ofs < end <= |script| && AreKeys(keys) && keys != [] && script[ofs..end] == Pushes(keys)
    ensures var k := KeyAt(script, ofs, end);
            k == 1 + |keys[0]| && ofs + k <= end && AreKeys(keys[1..]) && script[ofs + k..end] == Pushes(keys[1..])
  {
    var p, k := script[ofs..end], 1 + |keys[0]|;
    PushesHead(keys);
    assert script[ofs] == p[0];
    assert script[ofs + k..end] == p[k..];
  }

  // Putting a key in front of those that follow.
  lemma KeyBefore(script: bytes, ofs: nat, end: nat, keys: seq<bytes>)
    requires ofs < end <= |script| && AreKeys(keys) && KeyAt(script, ofs, end) > 0
    requires script[ofs + KeyAt(script, ofs, end)..end] == Pushes(keys)
    ensures var key := script[ofs + 1..ofs + KeyAt(script, ofs, end)];
            AreKeys([key] + keys) && script[ofs..end] == Pushes([key] + keys)
  {
    var k := KeyAt(script, ofs, end);
    var key := script[ofs + 1..ofs + k];
    var all := [key] + keys;
    assert all[1..] == keys;
    assert script[ofs..end] == [script[ofs]] + key + script[ofs + k..end];
    assert Pushes(all) == [|key| as byte] + key + Pushes(keys);
  }

  /** The length byte decides which key comes next, so reading greedily finds the keys if there are any. */
  lemma NextKey(script: bytes, ofs: nat, end: nat, n: nat)
    requires ofs < end <= |script| && n > 0
    ensures KeysFrom(script, ofs, end, n) <==> KeyAt(script, ofs, end) > 0 && KeysFrom(script, ofs + KeyAt(script, ofs, end), end, n - 1)
  {
    hide Pushes, AreKeys;
    var k := KeyAt(script, ofs, end);
    if KeysFrom(script, ofs, end, n) {
      var keys: seq<bytes> :| AreKeys(keys) && |keys| == n && script[ofs..end] == Pushes(keys);
      FirstKey(script, ofs, end, keys);
      assert |keys[1..]| == n - 1;
    }
    if k > 0 && KeysFrom(script, ofs + k, end, n - 1) {
      var keys: seq<bytes> :| AreKeys(keys) && |keys| == n - 1 && script[ofs + k..end] == Pushes(keys);
      KeyBefore(script, ofs, end, keys);
      assert |[script[ofs + 1..ofs + k]] + keys| == n;
    }
  }

  lemma NoRoom(script: bytes, ofs: nat, end: nat, n: nat)
    requires n > 0 && ofs >= end
    ensures !KeysFrom(script, ofs, end, n)
  {
    forall keys: seq<bytes> | AreKeys(keys) && |keys| == n ensures |Pushes(keys)| > 0 {
      PushesHead(keys);
    }
  }

  /** The scan over the keys of a multisig script. */
  method ScanKeys(script: bytes, count: nat, endKeys: nat) returns (ok: bool)
    requires 1 <= endKeys <= |script|
    ensures ok <==> KeysFrom(script, 1, endKeys, count)
  {
    var ofs: nat, numKeys: nat := 1, count;
    while ofs < endKeys && numKeys > 0
      invariant 1 <= ofs <= endKeys && numKeys <= count
      invariant KeysFrom(script, ofs, endKeys, numKeys) <==> KeysFrom(script, 1, endKeys, count)
      decreases numKeys
    {
      NextKey(script, ofs, endKeys, numKeys);
      if script[ofs] == 65 && ofs + 66 <= endKeys {
        ofs := ofs + 66;
      } else if script[ofs] == 33 && ofs + 34 <= endKeys {
        ofs := ofs + 34;
      } else {
        return false;
      }
      numKeys := numKeys - 1;
    }
    if numKeys == 0 { NoKeysLeft(script, ofs, endKeys); } else { NoRoom(script, ofs, endKeys, numKeys); }
    return ofs == endKeys && numKeys == 0;
  }

  // ----------------------------------------------------------- the classifier

  lemma MultiSigParts(m: byte, keys: seq<bytes>)
    requires AreKeys(keys) && |keys| <= 16
    ensures var s := MultiSigScript(m, keys); var L := |s|;
            L >= 3 && s[0] == m && s[1..L - 2] == Pushes(keys) && s[L - 2] == 0x50 + |keys| && s[L - 1] == 0xae
  {
    var p, s := Pushes(keys), MultiSigScript(m, keys);
    assert s[1..1 + |p|] == p;
  }

  /** A script ending like a multisig script is one exactly when its middle is made of the announced number of keys. */
  lemma MultiSigIff(script: bytes)
    requires |script| >= 3
    ensures var L := |script|;
            IsMultiSig(script) <==> && script[L - 1] == OP_CHECKMULTISIG && IsOpN(script[L - 2]) && IsOpN(script[0])
                                    && KeysFrom(script, 1, L - 2, script[L - 2] - (OP_1 - 1))
  {
    hide Pushes, AreKeys;
    var L := |script|;
    if IsMultiSig(script) {
      var m: byte, keys: seq<bytes> :| IsOpN(m) && 1 <= |keys| <= 16 && AreKeys(keys) && script == MultiSigScript(m, keys);
      MultiSigParts(m, keys);
    }
    if script[L - 1] == OP_CHECKMULTISIG && IsOpN(script[L - 2]) && IsOpN(script[0]) && KeysFrom(script, 1, L - 2, script[L - 2] - (OP_1 - 1)) {
      var keys: seq<bytes> :| AreKeys(keys) && |keys| == script[L - 2] - (OP_1 - 1) && script[1..L - 2] == Pushes(keys);
      assert script == [script[0]] + script[1..L - 2] + [script[L - 2], script[L - 1]];
      assert script == MultiSigScript(script[0], keys);
    }
  }

  /** Every key takes at least 34 bytes, so no multisig script is shorter than 37. */
  lemma MultiSigLong(script: bytes)
    requires IsMultiSig(script)
    ensures |script| >= 37 && IsOpN(script[0])
  {
    var m: byte, keys: seq<bytes> :| IsOpN(m) && 1 <= |keys| <= 16 && AreKeys(keys) && script == MultiSigScript(m, keys);
    PushesHead(keys);
  }

  // ------------------------------------------------- the fixed-length templates

  predicate LooksP2PKH(s: bytes) {
    |s| == 25 && s[0] == OP_DUP && s[1] == OP_HASH160 && s[2] == 20 && s[23] == OP_EQUALVERIFY && s[24] == OP_CHECKSIG
  }

  predicate LooksP2PK(s: bytes) {
    (|s| == 35 && s[0] == 33 && s[34] == OP_CHECKSIG) || (|s| == 67 && s[0] == 65 && s[66] == OP_CHECKSIG)
  }

  predicate LooksP2SH(s: bytes) {
    |s| == 23 && s[0] == OP_HASH160 && s[1] == 20 && s[22] == OP_EQUAL
  }

  lemma P2PKHIff(s: bytes, hash: bytes)
    ensures LooksP2PKH(s) ==> Is(s, P2PKH(s[3..23]))
    ensures Is(s, P2PKH(hash)) ==> LooksP2PKH(s) && hash == s[3..23]
  {
    if LooksP2PKH(s) { assert s == P2PKHScript(s[3..23]); }
    if Is(s, P2PKH(hash)) { assert P2PKHScript(hash)[3..23] == hash; }
  }

  lemma P2SHIff(s: bytes, hash: bytes)
    ensures LooksP2SH(s) ==> Is(s, P2SH(s[2..22]))
    ensures Is(s, P2SH(hash)) ==> LooksP2SH(s) && hash == s[2..22]
  {
    if LooksP2SH(s) { assert s == P2SHScript(s[2..22]); }
    if Is(s, P2SH(hash)) { assert P2SHScript(hash)[2..22] == hash; }
  }

  lemma P2PKIff(s: bytes)
    ensures Is(s, P2PK) <==> LooksP2PK(s)
  {
    if LooksP2PK(s) {
      var key := s[1..|s| - 1];
      assert IsKey(key) && s == P2PKScript(key);
    }
  }

  /** The shapes exclude each other, so the order in which they are tried does not matter. */
  lemma OneClass(s: bytes, c: Class, d: Class)
    requires Is(s, c) && Is(s, d)
    ensures c == d
  {
    P2PKIff(s);
    if c.P2PKH? { P2PKHIff(s, c.hash); }
    if d.P2PKH? { P2PKHIff(s, d.hash); }
    if c.P2SH? { P2SHIff(s, c.hash); }
    if d.P2SH? { P2SHIff(s, d.hash); }
    if c.MultiSig? || d.MultiSig? {
      MultiSigLong(s);
      MultiSigIff(s);
    }
  }

  // What is left when no template but the last two can apply.
  lemma NoneOfThese(s: bytes, c: Class)
    requires !LooksP2PKH(s) && !LooksP2PK(s) && !LooksP2SH(s) && (c.P2PKH? || c.P2PK? || c.P2SH?)
    ensures !Is(s, c)
  {
    P2PKIff(s);
    if c.P2PKH? { P2PKHIff(s, c.hash); }
    if c.P2SH? { P2SHIff(s, c.hash); }
  }

  /** Classify a script: the answer is what the script is, and Custom only if it is none of the shapes. */
  method ClassifyScript(script: bytes) returns (c: Class)
    ensures c != Custom ==> Is(script, c)
    ensures c == Custom ==> forall d: Class :: !Is(script, d)
  {
    var L := |script|;
    if L == 25 && script[0] == OP_DUP && script[1] == OP_HASH160 && script[2] == 20 && script[23] == OP_EQUALVERIFY && script[24] == OP_CHECKSIG {
      P2PKHIff(script, script[3..23]);
      return P2PKH(script[3..23]);
    }
    P2PKIff(script);
    if L == 35 && script[0] == 33 && script[34] == OP_CHECKSIG { return P2PK; }
    if L == 67 && script[0] == 65 && script[66] == OP_CHECKSIG { return P2PK; }
    if L == 23 && script[0] == OP_HASH160 && script[1] == 20 && script[22] == OP_EQUAL {
      P2SHIff(script, script[2..22]);
      return P2SH(script[2..22]);
    }
    forall d: Class | d.P2PKH? || d.P2PK? || d.P2SH? ensures !Is(script, d) { NoneOfThese(script, d); }
    if L >= 3 { MultiSigIff(script); }
    ghost var long := IsMultiSig(script);
    if long { MultiSigLong(script); }
    if L >= 3 + 34 && script[L - 1] == OP_CHECKMULTISIG && IsOpN(script[L - 2]) && IsOpN(script[0]) {
      var numKeys := script[L - 2] - (OP_1 - 1);
      var valid := ScanKeys(script, numKeys, L - 2);
      return if valid then MultiSig else Custom;
    }
    if L > 0 && script[0] == OP_RETURN { return NullData; }
    return Custom;
  }
}
