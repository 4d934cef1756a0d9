/** A reference encoding of blocks, and the proof that the decoder undoes it. */
module RoundTrip {
  import opened Options
  import opened Codec

  // How a transaction is laid out: section "Serialization" of BIP 144 has the first two; the third is
  // what the decoder also takes, when the flag byte after the zero marker is zero.
  datatype Form = Legacy | Extended | Bare

  datatype RawTx = RawTx(form: Form, version: nat, vin: seq<TxIn>, vout: seq<TxOut>, lockTime: nat)
  datatype RawMerkle = RawMerkle(coinbase: RawTx, parentHash: bytes, coinbaseBranch: Branch, blockchainBranch: Branch, parentBlock: Header)
  datatype RawBlock = RawBlock(header: Header, aux: Option<RawMerkle>, tx: seq<RawTx>)

  // ---------------------------------------------------------------- encoding

  function VarBytes(n: nat): bytes {
    if n < 253 then LeBytes(n, 1)
    else if n < 0x1_0000 then [253] + LeBytes(n, 2)
    else if n < 0x1_0000_0000 then [254] + LeBytes(n, 4)
    else [255] + LeBytes(n, 8)
  }

  function Concat<S>(enc: S -> bytes, xs: seq<S>): bytes {
    if xs == [] then [] else enc(xs[0]) + Concat(enc, xs[1..])
  }

  // A vector: its length, then its elements.
  function Vector<S>(enc: S -> bytes, xs: seq<S>): bytes {
    VarBytes(|xs|) + Concat(enc, xs)
  }

  function Sized(b: bytes): bytes {
    VarBytes(|b|) + b
  }

  function EncodeTxIn(x: TxIn): bytes {
    x.txid + LeBytes(x.vout, 4) + Sized(x.script) + LeBytes(x.sequence, 4)
  }

  function Unsigned64(n: int): nat
    requires n >= -TWO_63
  {
    if n >= 0 then n else n + TWO_64
  }

  function EncodeTxOut(x: TxOut): bytes {
    LeBytes(if x.value >= -TWO_63 then Unsigned64(x.value) else 0, 8) + Sized(x.script)
  }

  function EncodeStack(x: TxIn): bytes {
    Vector(Sized, x.stack)
  }

  function EncodeIo(t: RawTx): bytes {
    Vector(EncodeTxIn, t.vin) + Vector(EncodeTxOut, t.vout)
  }

  function EncodeBody(t: RawTx): bytes {
    match t.form
    case Legacy => EncodeIo(t)
    case Extended => [0] + [1] + EncodeIo(t) + Concat(EncodeStack, t.vin)
    case Bare => [0] + [0]
  }

  function EncodeTx(t: RawTx): bytes {
    LeBytes(t.version, 4) + EncodeBody(t) + LeBytes(t.lockTime, 4)
  }

  function EncodeHeader(h: Header): bytes {
    LeBytes(h.version, 4) + h.prev + h.merkleRoot + LeBytes(h.timestamp, 4) + LeBytes(h.bits, 4) + LeBytes(h.nonce, 4)
  }

  function EncodeHash(h: bytes): bytes { h }

  function EncodeBranch(b: Branch): bytes {
    Vector(EncodeHash, b.hash) + LeBytes(b.sideMask, 4)
  }

  function EncodeMerkle(m: RawMerkle): bytes {
    EncodeTx(m.coinbase) + m.parentHash + EncodeBranch(m.coinbaseBranch) + EncodeBranch(m.blockchainBranch) + EncodeHeader(m.parentBlock)
  }

  function EncodeBlock(b: RawBlock): bytes {
    EncodeHeader(b.header) + (if b.aux.Some? then EncodeMerkle(b.aux.value) else []) + Vector(EncodeTx, b.tx)
  }

  // ----------------------------------------------------- what can be encoded

  predicate U32(n: int) { 0 <= n < 0x1_0000_0000 }
  predicate Countable<T>(s: seq<T>) { |s| < TWO_64 }

  predicate TxInOk(x: TxIn) {
    && |x.txid| == 32 && U32(x.vout) && |x.script| <= 10_000 && U32(x.sequence)
    && Countable(x.stack) && forall i | 0 <= i < |x.stack| :: |x.stack[i]| <= 0x0200_0000
  }

  predicate TxOutOk(x: TxOut) {
    -0x8000_0000_0000_0000 <= x.value < 0x8000_0000_0000_0000 && |x.script| <= 10_000
  }

  predicate TxOk(t: RawTx) {
    && U32(t.version) && U32(t.lockTime) && Countable(t.vin) && Countable(t.vout)
    && (forall i | 0 <= i < |t.vin| :: TxInOk(t.vin[i])) && (forall i | 0 <= i < |t.vout| :: TxOutOk(t.vout[i]))
    && match t.form
       case Legacy => t.vin != [] && forall i | 0 <= i < |t.vin| :: t.vin[i].stack == []
       case Extended => true
       case Bare => t.vin == [] && t.vout == []
  }

  predicate HeaderOk(h: Header) {
    U32(h.version) && |h.prev| == 32 && |h.merkleRoot| == 32 && U32(h.timestamp) && U32(h.bits) && U32(h.nonce)
  }

  predicate BranchOk(b: Branch) {
    Countable(b.hash) && (forall i | 0 <= i < |b.hash| :: |b.hash[i]| == 32) && U32(b.sideMask)
  }

  predicate MerkleOk(m: RawMerkle) {
    TxOk(m.coinbase) && |m.parentHash| == 32 && BranchOk(m.coinbaseBranch) && BranchOk(m.blockchainBranch) && HeaderOk(m.parentBlock)
  }

  predicate BlockOk(b: RawBlock) {
    && HeaderOk(b.header) && (b.aux.Some? <==> b.header.version % 512 >= 256) && (b.aux.Some? ==> MerkleOk(b.aux.value))
    && Countable(b.tx) && forall i | 0 <= i < |b.tx| :: TxOk(b.tx[i])
  }

  // Bit 8 of the version.
  lemma AuxPoWBit(h: Header)
    ensures IsAuxPoW(h) <==> h.version % 512 >= 256
  {
  }

  // ----------------------------------------------- what the decoder returns for it

  function DecodedTx(t: RawTx): Tx {
    Tx(t.version, t.vin, t.vout, t.lockTime, EncodeTx(t))
  }

  function DecodedTxs(txs: seq<RawTx>): seq<Tx> {
    seq(|txs|, i requires 0 <= i < |txs| => DecodedTx(txs[i]))
  }

  function DecodedMerkle(m: RawMerkle): MerkleTx {
    MerkleTx(DecodedTx(m.coinbase), m.parentHash, m.coinbaseBranch, m.blockchainBranch, m.parentBlock)
  }

  function DecodedBlock(b: RawBlock): Block {
    Block(b.header, if b.aux.Some? then Some(DecodedMerkle(b.aux.value)) else None,
          DecodedTxs(b.tx))
  }

  // ------------------------------------------------------------ small readers

  lemma TakeBack(a: bytes, tail: bytes)
    ensures Take(Some(a + tail), |a|) == Got(a, Some(tail))
  {
    assert (a + tail)[..|a|] == a && (a + tail)[|a|..] == tail;
  }

  lemma UintBack(n: nat, k: nat, tail: bytes)
    requires n < Pow256(k)
    ensures Uint(Some(LeBytes(n, k) + tail), k) == Got(n, Some(tail))
  {
    TakeBack(LeBytes(n, k), tail);
    LeRoundTrip(n, k);
  }

  lemma Powers()
    ensures Pow256(1) == 0x100 && Pow256(2) == 0x1_0000 && Pow256(4) == 0x1_0000_0000 && Pow256(8) == TWO_64
  {
    assert Pow256(3) == 0x100_0000;
    assert Pow256(5) == 0x100_0000_0000 && Pow256(6) == 0x1_0000_0000_0000 && Pow256(7) == 0x100_0000_0000_0000;
  }

  lemma U32Back(n: nat, tail: bytes)
    requires U32(n)
    ensures Uint(Some(LeBytes(n, 4) + tail), 4) == Got(n, Some(tail))
  {
    Powers();
    UintBack(n, 4, tail);
  }

  lemma ByteBack(x: byte, tail: bytes)
    ensures Take(Some([x] + tail), 1) == Got([x], Some(tail)) && Uint(Some([x] + tail), 1) == Got(x as nat, Some(tail))
  {
    TakeBack([x], tail);
    assert [x][1..] == [] && LeValue([x][1..]) == 0;
  }

  lemma VarBack(n: nat, tail: bytes)
    requires n < TWO_64
    ensures VarUint(Some(VarBytes(n) + tail)) == Got(n, Some(tail))
  {
    Powers();
    if n < 253 {
      UintBack(n, 1, tail);
    } else {
      var k, mark: byte := if n < 0x1_0000 then 2 else if n < 0x1_0000_0000 then 4 else 8,
                           if n < 0x1_0000 then 253 else if n < 0x1_0000_0000 then 254 else 255;
      assert VarBytes(n) + tail == [mark] + (LeBytes(n, k) + tail);
      ByteBack(mark, LeBytes(n, k) + tail);
      UintBack(n, k, tail);
    }
  }

  lemma SizedBack(b: bytes, tail: bytes)
    requires |b| < TWO_64
    ensures VarUint(Some(Sized(b) + tail)) == Got(|b|, Some(b + tail)) && Take(Some(b + tail), |b|) == Got(b, Some(tail))
  {
    assert Sized(b) + tail == VarBytes(|b|) + (b + tail);
    VarBack(|b|, b + tail);
    TakeBack(b, tail);
  }

  // ------------------------------------------------------------------ vectors

  /** Reading undoes enc on x, whatever follows. */
  ghost predicate Reads<S(!new), T(!new)>(read: Rest -> Outcome<T>, enc: S -> bytes, x: S, y: T) {
    forall tail: bytes :: read(Some(enc(x) + tail)) == Ok(y, Some(tail))
  }

  lemma {:induction false} ManyBack<S(!new), T(!new)>(read: Rest -> Outcome<T>, enc: S -> bytes, xs: seq<S>, ys: seq<T>, tail: bytes)
    requires |xs| == |ys| && forall i | 0 <= i < |xs| :: Reads(read, enc, xs[i], ys[i])
    ensures Many(|xs|, read, Some(Concat(enc, xs) + tail)) == Ok(ys, Some(tail))
    decreases |xs|
  {
    if xs == [] {
      assert Concat(enc, xs) + tail == tail;
    } else {
      assert Concat(enc, xs) + tail == enc(xs[0]) + (Concat(enc, xs[1..]) + tail);
      assert Reads(read, enc, xs[0], ys[0]);
      forall i | 0 <= i < |xs[1..]| ensures Reads(read, enc, xs[1..][i], ys[1..][i]) {
        assert Reads(read, enc, xs[i + 1], ys[i + 1]);
      }
      ManyBack(read, enc, xs[1..], ys[1..], tail);
      assert ys == [ys[0]] + ys[1..];
    }
  }

  lemma VectorBack<S(!new), T(!new)>(read: Rest -> Outcome<T>, enc: S -> bytes, xs: seq<S>, ys: seq<T>, tail: bytes)
    requires Countable(xs) && |xs| == |ys| && forall i | 0 <= i < |xs| :: Reads(read, enc, xs[i], ys[i])
    ensures VarUint(Some(Vector(enc, xs) + tail)) == Got(|xs|, Some(Concat(enc, xs) + tail))
    ensures Many(|xs|, read, Some(Concat(enc, xs) + tail)) == Ok(ys, Some(tail))
  {
    assert Vector(enc, xs) + tail == VarBytes(|xs|) + (Concat(enc, xs) + tail);
    VarBack(|xs|, Concat(enc, xs) + tail);
    ManyBack(read, enc, xs, ys, tail);
  }

  // ------------------------------------------------------------- transactions

  function Unsigned(x: TxIn): TxIn {
    x.(stack := [])
  }

  lemma TxInBack(x: TxIn, tail: bytes)
    requires TxInOk(x)
    ensures ReadTxIn(Some(EncodeTxIn(x) + tail)) == Ok(Unsigned(x), Some(tail))
  {
    var t3 := LeBytes(x.sequence, 4) + tail;
    var t2 := Sized(x.script) + t3;
    var t1 := LeBytes(x.vout, 4) + t2;
    assert EncodeTxIn(x) + tail == x.txid + t1;
    TakeBack(x.txid, t1);
    U32Back(x.vout, t2);
    SizedBack(x.script, t3);
    U32Back(x.sequence, tail);
  }

  lemma TxOutBack(x: TxOut, tail: bytes)
    requires TxOutOk(x)
    ensures ReadTxOut(Some(EncodeTxOut(x) + tail)) == Ok(x, Some(tail))
  {
    var v := Unsigned64(x.value);
    assert EncodeTxOut(x) + tail == LeBytes(v, 8) + (Sized(x.script) + tail);
    Powers();
    UintBack(v, 8, Sized(x.script) + tail);
    SizedBack(x.script, tail);
  }

  lemma ItemBack(item: bytes, tail: bytes)
    requires |item| <= MAX_VARINT_SIZE
    ensures ReadItem(Some(Sized(item) + tail)) == Ok(item, Some(tail))
  {
    SizedBack(item, tail);
  }

  lemma StackBack(x: TxIn, tail: bytes)
    requires TxInOk(x)
    ensures ReadStack(Some(EncodeStack(x) + tail)) == Ok(x.stack, Some(tail))
  {
    forall i | 0 <= i < |x.stack| ensures Reads(ReadItem, Sized, x.stack[i], x.stack[i]) {
      forall tail: bytes { ItemBack(x.stack[i], tail); }
    }
    VectorBack(ReadItem, Sized, x.stack, x.stack, tail);
  }

  lemma IoBack(t: RawTx, tail: bytes)
    requires TxOk(t)
    ensures VarUint(Some(EncodeIo(t) + tail)).value == |t.vin|
    ensures VinVout(|t.vin|, VarUint(Some(EncodeIo(t) + tail)).rest)
         == Ok((seq(|t.vin|, i requires 0 <= i < |t.vin| => Unsigned(t.vin[i])), t.vout), Some(tail))
  {
    var vin := seq(|t.vin|, i requires 0 <= i < |t.vin| => Unsigned(t.vin[i]));
    forall i | 0 <= i < |t.vin| ensures Reads(ReadTxIn, EncodeTxIn, t.vin[i], vin[i]) {
      forall tail: bytes { TxInBack(t.vin[i], tail); }
    }
    forall i | 0 <= i < |t.vout| ensures Reads(ReadTxOut, EncodeTxOut, t.vout[i], t.vout[i]) {
      forall tail: bytes { TxOutBack(t.vout[i], tail); }
    }
    assert EncodeIo(t) + tail == Vector(EncodeTxIn, t.vin) + (Vector(EncodeTxOut, t.vout) + tail);
    VectorBack(ReadTxIn, EncodeTxIn, t.vin, vin, Vector(EncodeTxOut, t.vout) + tail);
    VectorBack(ReadTxOut, EncodeTxOut, t.vout, t.vout, tail);
  }

  lemma StacksBack(t: RawTx, tail: bytes)
    requires TxOk(t)
    ensures Stacks(|t.vin|, Some(Concat(EncodeStack, t.vin) + tail))
         == Ok(seq(|t.vin|, i requires 0 <= i < |t.vin| => t.vin[i].stack), Some(tail))
  {
    var stacks := seq(|t.vin|, i requires 0 <= i < |t.vin| => t.vin[i].stack);
    forall i | 0 <= i < |t.vin| ensures Reads(ReadStack, EncodeStack, t.vin[i], stacks[i]) {
      forall tail: bytes { StackBack(t.vin[i], tail); }
    }
    ManyBack(ReadStack, EncodeStack, t.vin, stacks, tail);
  }

  lemma ExtendedBack(t: RawTx, tail: bytes)
    requires TxOk(t) && t.form == Extended
    ensures ReadBody(Some(EncodeBody(t) + tail)) == Ok(Body(t.vin, t.vout), Some(tail))
  {
    hide VinVout, Stacks, EncodeIo, EncodeStack, LeBytes;
    var t2 := Concat(EncodeStack, t.vin) + tail;
    var t1 := EncodeIo(t) + t2;
    assert EncodeBody(t) + tail == [0] + ([1] + t1);
    ByteBack(0, [1] + t1);
    ByteBack(1, t1);
    IoBack(t, t2);
    StacksBack(t, tail);
    var vin := seq(|t.vin|, i requires 0 <= i < |t.vin| => Unsigned(t.vin[i]));
    var stacks := seq(|t.vin|, i requires 0 <= i < |t.vin| => t.vin[i].stack);
    assert WithWitness(vin, stacks) == t.vin;
  }

  lemma LegacyBack(t: RawTx, tail: bytes)
    requires TxOk(t) && t.form == Legacy
    ensures ReadBody(Some(EncodeBody(t) + tail)) == Ok(Body(t.vin, t.vout), Some(tail))
  {
    IoBack(t, tail);
    assert seq(|t.vin|, i requires 0 <= i < |t.vin| => Unsigned(t.vin[i])) == t.vin;
  }

  lemma BareBack(t: RawTx, tail: bytes)
    requires TxOk(t) && t.form == Bare
    ensures ReadBody(Some(EncodeBody(t) + tail)) == Ok(Body(t.vin, t.vout), Some(tail))
  {
    assert EncodeBody(t) + tail == [0] + ([0] + tail);
    ByteBack(0, [0] + tail);
    ByteBack(0, tail);
  }

  lemma BodyBack(t: RawTx, tail: bytes)
    requires TxOk(t)
    ensures ReadBody(Some(EncodeBody(t) + tail)) == Ok(Body(t.vin, t.vout), Some(tail))
  {
    hide ReadBody, EncodeBody;
    match t.form
    case Legacy => LegacyBack(t, tail);
    case Extended => ExtendedBack(t, tail);
    case Bare => BareBack(t, tail);
  }

  /** Decoding a transaction, in any of its forms, gives it back; its id is the hash of all of its bytes. */
  lemma TxBack(t: RawTx, tail: bytes)
    requires TxOk(t)
    ensures ReadTx(Some(EncodeTx(t) + tail)) == Ok(DecodedTx(t), Some(tail))
  {
    hide ReadBody, EncodeBody, Uint, LeBytes;
    var t2 := LeBytes(t.lockTime, 4) + tail;
    var t1 := EncodeBody(t) + t2;
    assert EncodeTx(t) + tail == LeBytes(t.version, 4) + t1;
    U32Back(t.version, t1);
    BodyBack(t, t2);
    U32Back(t.lockTime, tail);
    assert Consumed(Some(EncodeTx(t) + tail), Some(tail)) == EncodeTx(t);
  }

  /** BIP 144 takes the id of a transaction from its legacy layout, without the witness. The decoder hashes every
      byte, so it finds that id exactly when the transaction is not in the extended form. */
  lemma IdIsStandardIff(t: RawTx)
    requires TxOk(t)
    ensures DecodedTx(t).hashed == EncodeTx(t.(form := Legacy)) <==> t.form != Extended
  {
    if t.form == Extended {
      assert |EncodeTx(t)| >= |EncodeTx(t.(form := Legacy))| + 2;
    } else if t.form == Bare {
      assert LeBytes(0, 1) == [0];
      assert Vector(EncodeTxIn, t.vin) == [0] && Vector(EncodeTxOut, t.vout) == [0];
    }
  }

  // ------------------------------------------------------------------ blocks

  lemma HeaderBack(h: Header, tail: bytes)
    requires HeaderOk(h)
    ensures ReadHeader(Some(EncodeHeader(h) + tail)) == Got(h, Some(tail))
  {
    var t5 := LeBytes(h.nonce, 4) + tail;
    var t4 := LeBytes(h.bits, 4) + t5;
    var t3 := LeBytes(h.timestamp, 4) + t4;
    var t2 := h.merkleRoot + t3;
    var t1 := h.prev + t2;
    assert EncodeHeader(h) + tail == LeBytes(h.version, 4) + t1;
    U32Back(h.version, t1);
    TakeBack(h.prev, t2);
    TakeBack(h.merkleRoot, t3);
    U32Back(h.timestamp, t4);
    U32Back(h.bits, t5);
    U32Back(h.nonce, tail);
  }

  lemma BranchBack(b: Branch, tail: bytes)
    requires BranchOk(b)
    ensures ReadBranch(Some(EncodeBranch(b) + tail)) == Ok(b, Some(tail))
  {
    var t1 := LeBytes(b.sideMask, 4) + tail;
    assert EncodeBranch(b) + tail == Vector(EncodeHash, b.hash) + t1;
    forall i | 0 <= i < |b.hash| ensures Reads(ReadHash, EncodeHash, b.hash[i], b.hash[i]) {
      forall tail: bytes { TakeBack(b.hash[i], tail); }
    }
    VectorBack(ReadHash, EncodeHash, b.hash, b.hash, t1);
    U32Back(b.sideMask, tail);
  }

  lemma MerkleBack(m: RawMerkle, tail: bytes)
    requires MerkleOk(m)
    ensures ReadMerkleTx(Some(EncodeMerkle(m) + tail)) == Ok(DecodedMerkle(m), Some(tail))
  {
    hide ReadTx, ReadBranch, ReadHeader, EncodeTx, EncodeBranch, EncodeHeader, TxOk, BranchOk, HeaderOk;
    var t4 := EncodeHeader(m.parentBlock) + tail;
    var t3 := EncodeBranch(m.blockchainBranch) + t4;
    var t2 := EncodeBranch(m.coinbaseBranch) + t3;
    var t1 := m.parentHash + t2;
    assert EncodeMerkle(m) + tail == EncodeTx(m.coinbase) + t1;
    TxBack(m.coinbase, t1);
    TakeBack(m.parentHash, t2);
    BranchBack(m.coinbaseBranch, t3);
    BranchBack(m.blockchainBranch, t4);
    HeaderBack(m.parentBlock, tail);
  }

  lemma TxsBack(header: Header, aux: Option<MerkleTx>, txs: seq<RawTx>)
    requires Countable(txs) && forall i | 0 <= i < |txs| :: TxOk(txs[i])
    ensures ReadTxs(header, aux, Some(Vector(EncodeTx, txs)))
         == Ok(Block(header, aux, DecodedTxs(txs)), Some([]))
  {
    var out := DecodedTxs(txs);
    forall i | 0 <= i < |txs| ensures Reads(ReadTx, EncodeTx, txs[i], out[i]) {
      forall tail: bytes { TxBack(txs[i], tail); }
    }
    VectorBack(ReadTx, EncodeTx, txs, out, []);
    assert Vector(EncodeTx, txs) + [] == Vector(EncodeTx, txs);
  }

  /** Decoding the encoding of any block returns that block and uses up exactly its bytes. */
  lemma BlockRoundTrip(b: RawBlock)
    requires BlockOk(b)
    ensures Decode(EncodeBlock(b), true) == Ok(DecodedBlock(b), Some([]))
  {
    hide ReadHeader, ReadMerkleTx, ReadTxs, EncodeHeader, EncodeMerkle, Vector, HeaderOk, MerkleOk;
    var txs := Vector(EncodeTx, b.tx);
    if b.aux.Some? {
      assert EncodeBlock(b) == EncodeHeader(b.header) + (EncodeMerkle(b.aux.value) + txs);
      HeaderBack(b.header, EncodeMerkle(b.aux.value) + txs);
      MerkleBack(b.aux.value, txs);
      TxsBack(b.header, Some(DecodedMerkle(b.aux.value)), b.tx);
    } else {
      assert EncodeBlock(b) == EncodeHeader(b.header) + txs;
      HeaderBack(b.header, txs);
      TxsBack(b.header, None, b.tx);
    }
  }

  lemma ExtendedLonger(t: RawTx)
    ensures |EncodeTx(t.(form := Extended))| >= |EncodeTx(t.(form := Legacy))| + 2
    ensures |EncodeTx(t.(form := Extended))| >= |EncodeTx(t.(form := Bare))| + 2
  {
    assert |Vector(EncodeTxIn, t.vin)| >= 1 && |Vector(EncodeTxOut, t.vout)| >= 1;
  }

  /** The bytes of a transaction tell its form, too. */
  lemma FormFromBytes(t: RawTx, t': RawTx)
    requires TxOk(t) && TxOk(t') && DecodedTx(t) == DecodedTx(t')
    ensures t == t'
  {
    hide EncodeTx;
    ExtendedLonger(t);
    assert t' == t.(form := t'.form) && t == t'.(form := t.form);
  }

  /** No two blocks have the same encoding. */
  lemma EncodingInjective(b: RawBlock, c: RawBlock)
    requires BlockOk(b) && BlockOk(c) && EncodeBlock(b) == EncodeBlock(c)
    ensures b == c
  {
    BlockRoundTrip(b);
    BlockRoundTrip(c);
    hide EncodeBlock, Decode, DecodedTx, EncodeTx;
    assert DecodedBlock(b) == DecodedBlock(c);
    var txs, txs' := DecodedTxs(b.tx), DecodedTxs(c.tx);
    forall i | 0 <= i < |b.tx| ensures b.tx[i] == c.tx[i] {
      assert txs[i] == txs'[i];
      FormFromBytes(b.tx[i], c.tx[i]);
    }
    assert b.tx == c.tx;
    if b.aux.Some? {
      FormFromBytes(b.aux.value.coinbase, c.aux.value.coinbase);
    }
  }
}
