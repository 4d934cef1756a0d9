/** Where the decoder looks for what: the byte order of numbers, the forms of a count, and the fields of inputs and outputs. */
module Layout {
  import opened Options
  import opened Codec
  import opened Fallback

  function At(b: bytes, i: nat): nat
    requires i < |b|
  {
    b[i]
  }

  /** The least significant byte comes first. */
  lemma LittleEndian(b: bytes)
    requires |b| == 4
    ensures LeValue(b) == At(b, 0) + 0x100 * At(b, 1) + 0x1_0000 * At(b, 2) + 0x100_0000 * At(b, 3)
  {
    var b1, b2, b3 := b[1..], b[2..], b[3..];
    assert b1[1..] == b2 && b2[1..] == b3;
    OneByte(b3);
    assert LeValue(b2) == At(b, 2) + 0x100 * At(b, 3);
    assert LeValue(b1) == At(b, 1) + 0x100 * LeValue(b2);
  }

  lemma TwoBytes(b: bytes)
    requires |b| == 2
    ensures LeValue(b) == At(b, 0) + 0x100 * At(b, 1)
  {
    OneByte(b[1..]);
  }

  lemma OneByte(b: bytes)
    requires |b| == 1
    ensures LeValue(b) == At(b, 0)
  {
    assert b[1..] == [];
  }

  /** In eight bytes the second four count 2^32 times as much. */
  lemma EightBytes(b: bytes)
    requires |b| == 8
    ensures LeValue(b) == LeValue(b[..4]) + 0x1_0000_0000 * LeValue(b[4..])
  {
    var lo, hi := b[..4], b[4..];
    LittleEndian(lo);
    var b1, b2, b3 := b[1..], b[2..], b[3..];
    assert b1[1..] == b2 && b2[1..] == b3 && b3[1..] == hi;
    assert LeValue(b3) == At(b, 3) + 0x100 * LeValue(hi);
    assert LeValue(b2) == At(b, 2) + 0x100 * LeValue(b3);
    assert LeValue(b1) == At(b, 1) + 0x100 * LeValue(b2);
  }

  /** A count below 253 is one byte; 0xfd, 0xfe and 0xff announce two, four and eight more. */
  lemma CountIs(d: bytes)
    requires |d| >= 9
    ensures var got := VarUint(Some(d));
            if d[0] < 0xfd then got == Got(At(d, 0), Some(d[1..]))
            else if d[0] == 0xfd then got == Got(At(d, 1) + 0x100 * At(d, 2), Some(d[3..]))
            else if d[0] == 0xfe
            then got == Got(At(d, 1) + 0x100 * At(d, 2) + 0x1_0000 * At(d, 3) + 0x100_0000 * At(d, 4), Some(d[5..]))
            else got == Got(LeValue(d[1..9]), Some(d[9..]))
  {
    OneByte(d[..1]);
    TwoBytes(d[1..3]);
    LittleEndian(d[1..5]);
    assert d[1..][..2] == d[1..3] && d[1..][2..] == d[3..];
    assert d[1..][..4] == d[1..5] && d[1..][4..] == d[5..];
    assert d[1..][..8] == d[1..9] && d[1..][8..] == d[9..];
  }

  /** An input: the id of the transaction it spends, the number of its output, a script, a sequence number. */
  lemma InputIs(d: bytes)
    requires |d| >= 41 && d[36] < 0xfd && |d| >= 41 + At(d, 36)
    ensures var n := At(d, 36);
            ReadTxIn(Some(d)) == Ok(TxIn(d[..32], LeValue(d[32..36]), d[37..37 + n], LeValue(d[37 + n..41 + n]), []), Some(d[41 + n..]))
  {
    var n := At(d, 36);
    assert d[32..][..4] == d[32..36] && d[32..][4..] == d[36..];
    ShortCount(d[36..]);
    assert d[36..][1..] == d[37..];
    assert d[37..][..n] == d[37..37 + n] && d[37..][n..] == d[37 + n..];
    assert d[37 + n..][..4] == d[37 + n..41 + n] && d[37 + n..][4..] == d[41 + n..];
  }

  lemma ShortCount(d: bytes)
    requires |d| >= 1 && d[0] < 0xfd
    ensures VarUint(Some(d)) == Got(At(d, 0), Some(d[1..]))
  {
    OneByte(d[..1]);
  }

  /** An output: its value in koinu as a signed number of eight bytes, and its script. */
  lemma OutputIs(d: bytes)
    requires |d| >= 9 && d[8] < 0xfd && |d| >= 9 + At(d, 8)
    ensures var n := At(d, 8); var v := LeValue(d[..8]);
            ReadTxOut(Some(d)) == Ok(TxOut(if d[7] < 0x80 then v else v - 0x1_0000_0000_0000_0000, d[9..9 + n]), Some(d[9 + n..]))
  {
    var n := At(d, 8);
    ShortCount(d[8..]);
    assert d[8..][1..] == d[9..];
    assert d[9..][..n] == d[9..9 + n] && d[9..][n..] == d[9 + n..];
    EightBytes(d[..8]);
    LittleEndian(d[..8][..4]);
    LittleEndian(d[..8][4..]);
    assert d[..8][4..][3] == d[7];
  }

  lemma TxEnds(d: bytes)
    requires ReadTx(Some(d)).Ok? && ReadTx(Some(d)).rest.Some?
    ensures |d| >= 4 && ReadBody(Some(d[4..])).Ok? && ReadBody(Some(d[4..])).rest.Some?
    ensures var left, got := ReadBody(Some(d[4..])).rest.value, ReadTx(Some(d));
            && |left| >= 4 && got.rest == Some(left[4..]) && got.value.version == LeValue(d[..4]) && got.value.lockTime == LeValue(left[..4])
            && got.value.hashed == if |left| - 4 <= |d| then d[..|d| - |left| + 4] else []
    ensures var left := ReadBody(Some(d[4..])).rest.value; |left| <= |d| - 4 && left == d[|d| - |left|..]
  {
    BodyTail(Uint(Some(d), 4).rest);
    hide ReadBody, LeValue;
    var left := ReadBody(Some(d[4..])).rest.value;
    assert left == d[4..][|d| - 4 - |left|..] == d[|d| - |left|..];
  }

  lemma Ends(d: bytes, left: bytes)
    requires 4 <= |left| <= |d| - 4 && left == d[|d| - |left|..]
    ensures var own := d[..|d| - |left| + 4];
            |own| >= 8 && d == own + left[4..] && own[..4] == d[..4] && own[|own| - 4..] == left[..4]
  {
  }

  /** A transaction begins with its version and ends with its lock time, and the bytes in between are its own. */
  lemma TxIs(d: bytes)
    requires ReadTx(Some(d)).Ok? && ReadTx(Some(d)).rest.Some?
    ensures var t, rest := ReadTx(Some(d)).value, ReadTx(Some(d)).rest.value;
            && |t.hashed| >= 8 && d == t.hashed + rest
            && t.version == LeValue(t.hashed[..4]) && t.lockTime == LeValue(t.hashed[|t.hashed| - 4..])
  {
    hide *;
    TxEnds(d);
    Ends(d, ReadBody(Some(d[4..])).rest.value);
  }

  // The first n runs of 32 bytes.
  function Runs32(d: bytes, n: nat): seq<bytes>
    requires |d| >= 32 * n
  {
    if n == 0 then [] else [d[..32]] + Runs32(d[32..], n - 1)
  }

  lemma {:induction false} HashesAre(n: nat, d: bytes)
    requires |d| >= 32 * n
    ensures Hashes(n, Some(d)) == Ok(Runs32(d, n), Some(d[32 * n..]))
  {
    if n > 0 {
      HashesAre(n - 1, d[32..]);
      assert d[32..][32 * (n - 1)..] == d[32 * n..];
    }
  }

  /** A branch: a count of hashes, the hashes, and a mask. */
  lemma BranchIs(d: bytes)
    requires |d| >= 1 && d[0] < 0xfd && |d| >= 5 + 32 * At(d, 0)
    ensures var n := At(d, 0);
            ReadBranch(Some(d)) == Ok(Branch(Runs32(d[1..], n), LeValue(d[1 + 32 * n..5 + 32 * n])), Some(d[5 + 32 * n..]))
  {
    var n := At(d, 0);
    ShortCount(d);
    HashesAre(n, d[1..]);
    assert d[1..][32 * n..] == d[1 + 32 * n..];
    assert d[1 + 32 * n..][..4] == d[1 + 32 * n..5 + 32 * n] && d[1 + 32 * n..][4..] == d[5 + 32 * n..];
  }

  /** The AuxPoW: a coinbase transaction of k bytes, the hash of the parent block, the branch to the coinbase, the branch to this
      chain, and the header of the parent block. Here both branches are empty. */
  lemma AuxIs(d: bytes, k: nat)
    requires |d| >= k + 122 && ReadTx(Some(d)).Ok? && ReadTx(Some(d)).rest == Some(d[k..]) && d[k + 32] == 0 && d[k + 37] == 0
    ensures ReadMerkleTx(Some(d)) ==
            Ok(MerkleTx(ReadTx(Some(d)).value, d[k..k + 32], Branch([], LeValue(d[k + 33..k + 37])), Branch([], LeValue(d[k + 38..k + 42])),
                        ReadHeader(Some(d[k + 42..])).value), Some(d[k + 122..]))
  {
    hide ReadTx, ReadHeader, LeValue;
    assert d[k..][..32] == d[k..k + 32] && d[k..][32..] == d[k + 32..];
    EmptyBranch(d, k + 32);
    EmptyBranch(d, k + 37);
    HeaderFields(d[k + 42..]);
    assert d[k + 42..][80..] == d[k + 122..];
  }

  lemma EmptyBranch(d: bytes, i: nat)
    requires |d| >= i + 5 && d[i] == 0
    ensures ReadBranch(Some(d[i..])) == Ok(Branch([], LeValue(d[i + 1..i + 5])), Some(d[i + 5..]))
  {
    BranchIs(d[i..]);
    assert d[i..][1..5] == d[i + 1..i + 5] && d[i..][5..] == d[i + 5..];
  }
}
