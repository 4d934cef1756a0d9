/** The decoder itself: a stream position that every read moves on, whether or not the data is there,
    and one check at the end of a block. */
module Decoder {
  import opened Options
  import opened Codec

  datatype Result<+T> = Good(value: T) | Bad(error: DecodeError)

  ghost predicate Matches<T>(o: Outcome<T>, r: Result<T>, rest: Rest) {
    if o.Ok? then r == Good(o.value) && rest == o.rest else r == Bad(o.error)
  }

  // What is still to come, after what has been read so far.
  ghost function After<T>(done: seq<T>, o: Outcome<seq<T>>): Outcome<seq<T>> {
    if o.Ok? then Ok(done + o.value, o.rest) else o
  }

  lemma NothingRead<T>(o: Outcome<seq<T>>)
    ensures After([], o) == o
  {
    assert o.Ok? ==> [] + o.value == o.value;
  }

  lemma OneMore<T>(done: seq<T>, n: nat, read: Rest -> Outcome<T>, r: Rest)
    requires n > 0
    ensures read(r).Ok? ==> After(done, Many(n, read, r)) == After(done + [read(r).value], Many(n - 1, read, read(r).rest))
    ensures read(r).Fail? ==> After(done, Many(n, read, r)) == Fail(read(r).error)
  {
    if read(r).Ok? && Many(n - 1, read, read(r).rest).Ok? {
      var others := Many(n - 1, read, read(r).rest).value;
      assert done + ([read(r).value] + others) == done + [read(r).value] + others;
    }
  }

  // The bytes between two positions of one piece of data.
  lemma ConsumedIs(buf: bytes, start: nat, end: nat)
    requires start <= end
    ensures end <= |buf| ==> Consumed(Some(buf[start..]), Some(buf[end..])) == buf[start..end]
    ensures forall r: Rest :: Consumed(r, None) == [] && Consumed(None, r) == []
  {
    if end <= |buf| {
      assert |buf[start..]| - |buf[end..]| == end - start;
      assert buf[start..][..end - start] == buf[start..end];
    }
  }

  class Stream {
    const buf: bytes
    var pos: nat
    ghost var overran: bool // some read asked for bytes past the end

    /** Because the position only grows, it is past the end exactly when some read was. */
    ghost predicate Sound()
      reads this
    {
      overran <==> pos > |buf|
    }

    ghost function Rest(): Rest
      reads this
    {
      if pos <= |buf| then Some(buf[pos..]) else None
    }

    constructor (buf: bytes)
      ensures Sound() && this.buf == buf && pos == 0 && !overran
    {
      this.buf, pos, overran := buf, 0, false;
    }

    /** All reads have succeeded. */
    predicate Valid()
      requires Sound()
      reads this
      ensures Valid() <==> !overran
    {
      pos <= |buf|
    }

    predicate Complete()
      reads this
    {
      pos == |buf|
    }

    method Bytes(num: nat) returns (b: bytes)
      requires Sound()
      modifies this
      ensures Sound() && overran == (old(overran) || old(pos) + num > |buf|)
      ensures pos >= old(pos) && Got(b, Rest()) == Take(old(Rest()), num)
    {
      var p := pos;
      pos := pos + num;
      overran := overran || p + num > |buf|;
      if p + num <= |buf| {
        assert buf[p..][..num] == buf[p..p + num] && buf[p..][num..] == buf[p + num..];
        return buf[p..p + num];
      }
      return [];
    }

    method Uint16le() returns (v: nat)
      requires Sound()
      modifies this
      ensures Sound() && pos >= old(pos) && Got(v, Rest()) == Uint(old(Rest()), 2)
    {
      var b := Bytes(2);
      if b == [] { return 0; }
      assert LeValue(b) == b[0] + 256 * LeValue(b[1..]);
      var x: seq<int> := b;
      return x[0] + 0x100 * x[1];
    }

    method Uint32le() returns (v: nat)
      requires Sound()
      modifies this
      ensures Sound() && pos >= old(pos) && Got(v, Rest()) == Uint(old(Rest()), 4)
    {
      var b := Bytes(4);
      if b == [] { return 0; }
      LeValue4(b);
      var x: seq<int> := b;
      return x[0] + 0x100 * x[1] + 0x1_0000 * x[2] + 0x100_0000 * x[3];
    }

    method Uint64le() returns (v: nat)
      requires Sound()
      modifies this
      ensures Sound() && pos >= old(pos) && Got(v, Rest()) == Uint(old(Rest()), 8)
    {
      var b := Bytes(8);
      if b == [] { return 0; }
      LeValue4(b);
      LeValue4(b[4..]);
      var x: seq<int> := b;
      return x[0] + 0x100 * x[1] + 0x1_0000 * x[2] + 0x100_0000 * x[3]
        + 0x1_0000_0000 * (x[4] + 0x100 * x[5] + 0x1_0000 * x[6] + 0x100_0000 * x[7]);
    }

    method VarUint() returns (v: nat)
      requires Sound()
      modifies this
      ensures Sound() && pos >= old(pos) && Got(v, Rest()) == Codec.VarUint(old(Rest()))
    {
      var first := Bytes(1);
      if first == [] { return 0; }
      assert first[1..] == [] && LeValue(first) == first[0];
      if first[0] < 253 { return first[0]; }
      if first[0] == 253 { v := Uint16le(); }
      else if first[0] == 254 { v := Uint32le(); }
      else { v := Uint64le(); }
    }

    // --------------------------------------------------------- transactions

    method NextTxIn() returns (r: Result<TxIn>)
      requires Sound()
      modifies this
      ensures Sound() && pos >= old(pos) && Matches(ReadTxIn(old(Rest())), r, Rest())
    {
      hide Uint, Codec.VarUint, Take;
      var txid := Bytes(32);
      var vout := Uint32le();
      var scriptLen := VarUint();
      if scriptLen > MAX_SCRIPT_SIZE { return Bad(ScriptTooLong); }
      var script := Bytes(scriptLen);
      var sequence := Uint32le();
      return Good(TxIn(txid, vout, script, sequence, []));
    }

    method NextTxOut() returns (r: Result<TxOut>)
      requires Sound()
      modifies this
      ensures Sound() && pos >= old(pos) && Matches(ReadTxOut(old(Rest())), r, Rest())
    {
      hide Uint, Codec.VarUint, Take;
      var value := Uint64le();
      var scriptLen := VarUint();
      if scriptLen > MAX_SCRIPT_SIZE { return Bad(ScriptTooLong); }
      var script := Bytes(scriptLen);
      return Good(TxOut(if value < TWO_63 then value else value - TWO_64, script));
    }

    method NextItem() returns (r: Result<bytes>)
      requires Sound()
      modifies this
      ensures Sound() && pos >= old(pos) && Matches(ReadItem(old(Rest())), r, Rest())
    {
      var itemLen := VarUint();
      if itemLen > MAX_VARINT_SIZE { return Bad(WitnessTooLarge); }
      var item := Bytes(itemLen);
      return Good(item);
    }

    method NextHash() returns (r: Result<bytes>)
      requires Sound()
      modifies this
      ensures Sound() && pos >= old(pos) && Matches(ReadHash(old(Rest())), r, Rest())
    {
      var hash := Bytes(32);
      return Good(hash);
    }

    method NextIns(n: nat) returns (r: Result<seq<TxIn>>)
      requires Sound()
      modifies this
      ensures Sound() && pos >= old(pos) && Matches(Ins(n, old(Rest())), r, Rest())
    {
      hide Codec.ReadTxIn;
      var vin: seq<TxIn> := [];
      NothingRead(Many(n, Codec.ReadTxIn, Rest()));
      for i := 0 to n
        invariant Sound() && pos >= old(pos)
        invariant After(vin, Many(n - i, Codec.ReadTxIn, Rest())) == Ins(n, old(Rest()))
      {
        OneMore(vin, n - i, Codec.ReadTxIn, Rest());
        var x := NextTxIn();
        if x.Bad? { return Bad(x.error); }
        vin := vin + [x.value];
      }
      assert vin + [] == vin;
      return Good(vin);
    }

    method NextOuts(n: nat) returns (r: Result<seq<TxOut>>)
      requires Sound()
      modifies this
      ensures Sound() && pos >= old(pos) && Matches(Outs(n, old(Rest())), r, Rest())
    {
      hide Codec.ReadTxOut;
      var vout: seq<TxOut> := [];
      NothingRead(Many(n, Codec.ReadTxOut, Rest()));
      for i := 0 to n
        invariant Sound() && pos >= old(pos)
        invariant After(vout, Many(n - i, Codec.ReadTxOut, Rest())) == Outs(n, old(Rest()))
      {
        OneMore(vout, n - i, Codec.ReadTxOut, Rest());
        var x := NextTxOut();
        if x.Bad? { return Bad(x.error); }
        vout := vout + [x.value];
      }
      assert vout + [] == vout;
      return Good(vout);
    }

    method NextItems(n: nat) returns (r: Result<seq<bytes>>)
      requires Sound()
      modifies this
      ensures Sound() && pos >= old(pos) && Matches(Items(n, old(Rest())), r, Rest())
    {
      hide Codec.ReadItem;
      var items: seq<bytes> := [];
      NothingRead(Many(n, Codec.ReadItem, Rest()));
      for i := 0 to n
        invariant Sound() && pos >= old(pos)
        invariant After(items, Many(n - i, Codec.ReadItem, Rest())) == Items(n, old(Rest()))
      {
        OneMore(items, n - i, Codec.ReadItem, Rest());
        var x := NextItem();
        if x.Bad? { return Bad(x.error); }
        items := items + [x.value];
      }
      assert items + [] == items;
      return Good(items);
    }

    method NextStack() returns (r: Result<seq<bytes>>)
      requires Sound()
      modifies this
      ensures Sound() && pos >= old(pos) && Matches(ReadStack(old(Rest())), r, Rest())
    {
      var n := VarUint();
      r := NextItems(n);
    }

    method NextHashes(n: nat) returns (r: Result<seq<bytes>>)
      requires Sound()
      modifies this
      ensures Sound() && pos >= old(pos) && Matches(Hashes(n, old(Rest())), r, Rest())
    {
      hide Codec.ReadHash;
      var hashes: seq<bytes> := [];
      NothingRead(Many(n, Codec.ReadHash, Rest()));
      for i := 0 to n
        invariant Sound() && pos >= old(pos)
        invariant After(hashes, Many(n - i, Codec.ReadHash, Rest())) == Hashes(n, old(Rest()))
      {
        OneMore(hashes, n - i, Codec.ReadHash, Rest());
        var x := NextHash();
        if x.Bad? { return Bad(x.error); }
        hashes := hashes + [x.value];
      }
      assert hashes + [] == hashes;
      return Good(hashes);
    }

    method NextVinVout(n: nat) returns (r: Result<(seq<TxIn>, seq<TxOut>)>)
      requires Sound()
      modifies this
      ensures Sound() && pos >= old(pos) && Matches(VinVout(n, old(Rest())), r, Rest())
    {
      var vin := NextIns(n);
      if vin.Bad? { return Bad(vin.error); }
      var m := VarUint();
      var vout := NextOuts(m);
      if vout.Bad? { return Bad(vout.error); }
      return Good((vin.value, vout.value));
    }

    /** One witness stack for each input, stored in the input. */
    method NextWitness(body: Body) returns (r: Result<Body>)
      requires Sound()
      modifies this
      ensures Sound() && pos >= old(pos) && Matches(ReadWitness(body, old(Rest())), r, Rest())
    {
      var vin, n := body.vin, |body.vin|;
      hide ReadStack;
      ghost var stacks: seq<seq<bytes>> := [];
      NothingRead(Many(n, ReadStack, Rest()));
      for i := 0 to n
        invariant Sound() && pos >= old(pos) && |vin| == n && |stacks| == i && vin == WithWitness(body.vin, stacks)
        invariant After(stacks, Many(n - i, ReadStack, Rest())) == Stacks(n, old(Rest()))
      {
        OneMore(stacks, n - i, ReadStack, Rest());
        var x := NextStack();
        if x.Bad? { return Bad(x.error); }
        vin := vin[i := vin[i].(stack := x.value)];
        stacks := stacks + [x.value];
      }
      assert stacks + [] == stacks;
      return Good(body.(vin := vin));
    }

    // The nested cases mirror Core's own decoder.
    method NextBody() returns (r: Result<Body>)
      requires Sound()
      modifies this
      ensures Sound() && pos >= old(pos) && Matches(ReadBody(old(Rest())), r, Rest())
    {
      var n := VarUint();
      var flags := 0;
      var io: Result<(seq<TxIn>, seq<TxOut>)> := Good(([], []));
      if n == 0 {
        var flag := Bytes(1);
        if |flag| == 0 { return Bad(NoFlagByte); } // Go panics here: index out of range of a nil slice
        flags := flag[0];
        if flags != 0 {
          n := VarUint();
          io := NextVinVout(n);
        }
      } else {
        io := NextVinVout(n);
      }
      if io.Bad? { return Bad(io.error); }
      var body := Body(io.value.0, io.value.1);
      if flags % 2 == 1 {
        r := NextWitness(body);
        if r.Bad? { return r; }
        body, flags := r.value, flags - 1;
      }
      if flags != 0 { return Bad(UnknownFlags(flags)); }
      return Good(body);
    }

    method NextTx() returns (r: Result<Tx>)
      requires Sound()
      modifies this
      ensures Sound() && pos >= old(pos) && Matches(ReadTx(old(Rest())), r, Rest())
    {
      hide Uint, ReadBody;
      var start := pos;
      var version := Uint32le();
      var body := NextBody();
      if body.Bad? { return Bad(body.error); }
      var lockTime := Uint32le();
      var hashed := [];
      if Valid() { hashed := buf[start..pos]; }
      ConsumedIs(buf, start, pos);
      return Good(Tx(version, body.value.vin, body.value.vout, lockTime, hashed));
    }

    method NextTxs(n: nat) returns (r: Result<seq<Tx>>)
      requires Sound()
      modifies this
      ensures Sound() && pos >= old(pos) && Matches(Txs(n, old(Rest())), r, Rest())
    {
      hide Codec.ReadTx;
      var txs: seq<Tx> := [];
      NothingRead(Many(n, Codec.ReadTx, Rest()));
      for i := 0 to n
        invariant Sound() && pos >= old(pos)
        invariant After(txs, Many(n - i, Codec.ReadTx, Rest())) == Txs(n, old(Rest()))
      {
        OneMore(txs, n - i, Codec.ReadTx, Rest());
        var x := NextTx();
        if x.Bad? { return Bad(x.error); }
        txs := txs + [x.value];
      }
      assert txs + [] == txs;
      return Good(txs);
    }

    // --------------------------------------------------------------- blocks

    method NextHeader() returns (h: Header)
      requires Sound()
      modifies this
      ensures Sound() && pos >= old(pos) && Got(h, Rest()) == ReadHeader(old(Rest()))
    {
      var version := Uint32le();
      var prev := Bytes(32);
      var root := Bytes(32);
      var time := Uint32le();
      var bits := Uint32le();
      var nonce := Uint32le();
      return Header(version, prev, root, time, bits, nonce);
    }

    method NextBranch() returns (r: Result<Branch>)
      requires Sound()
      modifies this
      ensures Sound() && pos >= old(pos) && Matches(ReadBranch(old(Rest())), r, Rest())
    {
      var n := VarUint();
      var hash := NextHashes(n);
      if hash.Bad? { return Bad(hash.error); }
      var mask := Uint32le();
      return Good(Branch(hash.value, mask));
    }

    method NextMerkleTx() returns (r: Result<MerkleTx>)
      requires Sound()
      modifies this
      ensures Sound() && pos >= old(pos) && Matches(ReadMerkleTx(old(Rest())), r, Rest())
    {
      var coinbase := NextTx();
      if coinbase.Bad? { return Bad(coinbase.error); }
      var parent := Bytes(32);
      var left := NextBranch();
      if left.Bad? { return Bad(left.error); }
      var right := NextBranch();
      if right.Bad? { return Bad(right.error); }
      var header := NextHeader();
      return Good(MerkleTx(coinbase.value, parent, left.value, right.value, header));
    }

    method NextBlock(parseAuxPoW: bool) returns (r: Result<Block>)
      requires Sound()
      modifies this
      ensures Sound() && pos >= old(pos) && Matches(ReadBlock(old(Rest()), parseAuxPoW), r, Rest())
    {
      var header := NextHeader();
      var aux: Option<MerkleTx> := None;
      if IsAuxPoW(header) && parseAuxPoW {
        var m := NextMerkleTx();
        if m.Bad? { return Bad(m.error); }
        aux := Some(m.value);
      }
      var n := VarUint();
      var txs := NextTxs(n);
      if txs.Bad? { return Bad(txs.error); }
      return Good(Block(header, aux, txs.value));
    }
  }

  /** Decode a block. The one check at the end is enough: on success no read ever left the data, and all of it was used. */
  method DecodeBlock(data: bytes, parseAuxPoW: bool) returns (r: Result<Block>, ghost s: Stream)
    ensures r == match Decode(data, parseAuxPoW) case Ok(b, _) => Good(b) case Fail(e) => Bad(e)
    ensures s.buf == data && (r.Good? ==> !s.overran && s.pos == |data|)
  {
    hide ReadBlock;
    var stream := new Stream(data);
    s := stream;
    assert data[0..] == data;
    r := stream.NextBlock(parseAuxPoW);
    if r.Good? && !stream.Complete() {
      return Bad(if stream.Valid() then DataLeft else Overran), s;
    }
  }

  lemma LeValue4(b: bytes)
    requires |b| >= 4
    ensures LeValue(b) == b[0] + 0x100 * b[1] + 0x1_0000 * b[2] + 0x100_0000 * b[3] + 0x1_0000_0000 * LeValue(b[4..])
  {
    var b1, b2, b3 := b[1..], b[2..], b[3..];
    assert b1[1..] == b2 && b2[1..] == b3 && b3[1..] == b[4..];
    assert LeValue(b3) == b[3] + 256 * LeValue(b[4..]);
    assert LeValue(b2) == b[2] + 256 * LeValue(b3);
    assert LeValue(b1) == b[1] + 256 * LeValue(b2);
  }
}
