/** Reading never goes back: what is left after any reader is a tail of what was there before it. Hence the
    deferred check for the end of the data is enough, and a block can also be parsed without its AuxPoW part. */
module Fallback {
  import opened Options
  import opened Codec
  import opened Decoder
  import RoundTrip

  // ------------------------------------------------------- readers only go forward

  /** If anything is left, it is the end of what there was. */
  ghost predicate Tail(r: Rest, r': Rest) {
    r'.Some? ==> r.Some? && |r'.value| <= |r.value| && r.value[|r.value| - |r'.value|..] == r'.value
  }

  lemma TailTrans(a: Rest, b: Rest, c: Rest)
    requires Tail(a, b) && Tail(b, c)
    ensures Tail(a, c)
  {
  }

  lemma TakeTail(r: Rest, n: nat)
    ensures Tail(r, Take(r, n).rest)
  {
  }

  lemma VarTail(r: Rest)
    ensures Tail(r, VarUint(r).rest)
  {
    var t := Uint(r, 1);
    TakeTail(r, 1);
    TakeTail(t.rest, 2);
    TakeTail(t.rest, 4);
    TakeTail(t.rest, 8);
  }

  ghost predicate GoesForward<T>(read: Rest -> Outcome<T>) {
    forall r: Rest :: read(r).Ok? ==> Tail(r, read(r).rest)
  }

  lemma {:induction false} ManyTail<T>(n: nat, read: Rest -> Outcome<T>, r: Rest)
    requires GoesForward(read)
    ensures Many(n, read, r).Ok? ==> Tail(r, Many(n, read, r).rest)
  {
    if n > 0 && read(r).Ok? {
      ManyTail(n - 1, read, read(r).rest);
    }
  }

  lemma TxInForward()
    ensures GoesForward(ReadTxIn)
  {
    forall r: Rest ensures ReadTxIn(r).Ok? ==> Tail(r, ReadTxIn(r).rest) {
      hide Tail, Take, VarUint;
      var txid := Take(r, 32);
      var vout := Uint(txid.rest, 4);
      var len := VarUint(vout.rest);
      var script := Take(len.rest, len.value);
      TakeTail(r, 32);
      TakeTail(txid.rest, 4);
      TailTrans(r, txid.rest, vout.rest);
      VarTail(vout.rest);
      TailTrans(r, vout.rest, len.rest);
      TakeTail(len.rest, len.value);
      TailTrans(r, len.rest, script.rest);
      TakeTail(script.rest, 4);
      TailTrans(r, script.rest, Uint(script.rest, 4).rest);
    }
  }

  lemma TxOutForward()
    ensures GoesForward(ReadTxOut)
  {
    forall r: Rest ensures ReadTxOut(r).Ok? ==> Tail(r, ReadTxOut(r).rest) {
      hide Tail, Take, VarUint;
      var value := Uint(r, 8);
      var len := VarUint(value.rest);
      TakeTail(r, 8);
      VarTail(value.rest);
      TailTrans(r, value.rest, len.rest);
      TakeTail(len.rest, len.value);
      TailTrans(r, len.rest, Take(len.rest, len.value).rest);
    }
  }

  lemma StackForward()
    ensures GoesForward(ReadStack)
  {
    forall r: Rest ensures ReadItem(r).Ok? ==> Tail(r, ReadItem(r).rest) {
      VarTail(r); TakeTail(VarUint(r).rest, VarUint(r).value);
    }
    forall r: Rest ensures ReadStack(r).Ok? ==> Tail(r, ReadStack(r).rest) {
      VarTail(r); ManyTail(VarUint(r).value, ReadItem, VarUint(r).rest);
    }
  }

  lemma IoTail(n: nat, r: Rest)
    ensures VinVout(n, r).Ok? ==> Tail(r, VinVout(n, r).rest)
  {
    TxInForward();
    TxOutForward();
    ManyTail(n, ReadTxIn, r);
    if Ins(n, r).Ok? {
      var r1 := Ins(n, r).rest;
      VarTail(r1); ManyTail(VarUint(r1).value, ReadTxOut, VarUint(r1).rest);
    }
  }

  lemma WitnessTail(body: Body, r: Rest)
    ensures ReadWitness(body, r).Ok? ==> Tail(r, ReadWitness(body, r).rest)
  {
    StackForward();
    ManyTail(|body.vin|, ReadStack, r);
  }

  lemma ExtendedTail(r: Rest)
    ensures ReadExtended(r).Ok? ==> Tail(r, ReadExtended(r).rest)
  {
    hide VinVout, ReadWitness, VarUint, Tail, Take;
    var flag := Take(r, 1);
    var n := VarUint(flag.rest);
    var io := VinVout(n.value, n.rest);
    TakeTail(r, 1);
    VarTail(flag.rest);
    TailTrans(r, flag.rest, n.rest);
    IoTail(n.value, n.rest);
    if io.Ok? {
      TailTrans(r, n.rest, io.rest);
      var body := Body(io.value.0, io.value.1);
      WitnessTail(body, io.rest);
      if ReadWitness(body, io.rest).Ok? { TailTrans(r, io.rest, ReadWitness(body, io.rest).rest); }
    }
  }

  lemma BodyTail(r: Rest)
    ensures ReadBody(r).Ok? ==> Tail(r, ReadBody(r).rest)
  {
    hide VinVout, ReadExtended, VarUint;
    var n := VarUint(r);
    VarTail(r);
    ExtendedTail(n.rest);
    IoTail(n.value, n.rest);
  }

  lemma TxForward()
    ensures GoesForward(ReadTx)
  {
    hide ReadBody;
    forall r: Rest ensures ReadTx(r).Ok? ==> Tail(r, ReadTx(r).rest) {
      TakeTail(r, 4);
      var body := ReadBody(Uint(r, 4).rest);
      BodyTail(Uint(r, 4).rest);
      if body.Ok? { TakeTail(body.rest, 4); }
    }
  }

  lemma BranchTail(r: Rest)
    ensures ReadBranch(r).Ok? ==> Tail(r, ReadBranch(r).rest)
  {
    assert GoesForward(ReadHash) by {
      forall p: Rest { TakeTail(p, 32); }
    }
    hide Tail, Take, VarUint, GoesForward;
    var n := VarUint(r);
    var hash := Hashes(n.value, n.rest);
    VarTail(r);
    ManyTail(n.value, ReadHash, n.rest);
    if hash.Ok? {
      TailTrans(r, n.rest, hash.rest);
      TakeTail(hash.rest, 4);
      TailTrans(r, hash.rest, Uint(hash.rest, 4).rest);
    }
  }

  lemma HeaderTail(r: Rest)
    ensures Tail(r, ReadHeader(r).rest)
  {
    hide Tail, Take;
    var a := Take(r, 4).rest;
    var b := Take(a, 32).rest;
    var c := Take(b, 32).rest;
    var d := Take(c, 4).rest;
    var e := Take(d, 4).rest;
    TakeTail(r, 4); TakeTail(a, 32); TakeTail(b, 32); TakeTail(c, 4); TakeTail(d, 4); TakeTail(e, 4);
    TailTrans(r, a, b); TailTrans(r, b, c); TailTrans(r, c, d); TailTrans(r, d, e); TailTrans(r, e, Take(e, 4).rest);
  }

  lemma MerkleTail(r: Rest)
    ensures ReadMerkleTx(r).Ok? ==> Tail(r, ReadMerkleTx(r).rest)
  {
    hide ReadTx, ReadBranch, ReadHeader;
    TxForward();
    var coinbase := ReadTx(r);
    if coinbase.Ok? {
      var parent := Take(coinbase.rest, 32);
      TakeTail(coinbase.rest, 32); BranchTail(parent.rest);
      var left := ReadBranch(parent.rest);
      if left.Ok? {
        BranchTail(left.rest);
        var right := ReadBranch(left.rest);
        if right.Ok? { HeaderTail(right.rest); }
      }
    }
  }

  // --------------------------------------------------------------- the fallback

  /** The header is the first 80 bytes and does not depend on what follows. */
  lemma HeaderIs80Bytes(data: bytes, tail: bytes)
    requires |data| >= 80
    ensures ReadHeader(Some(data)).rest == Some(data[80..])
    ensures ReadHeader(Some(data[..80] + tail)) == Got(ReadHeader(Some(data)).value, Some(tail))
  {
    HeaderFields(data);
    var d := data[..80] + tail;
    HeaderFields(d);
    assert d[..4] == data[..4] && d[4..36] == data[4..36] && d[36..68] == data[36..68];
    assert d[68..72] == data[68..72] && d[72..76] == data[72..76] && d[76..80] == data[76..80] && d[80..] == tail;
  }

  lemma HeaderFields(d: bytes)
    requires |d| >= 80
    ensures ReadHeader(Some(d)) == Got(Header(LeValue(d[..4]), d[4..36], d[36..68], LeValue(d[68..72]), LeValue(d[72..76]),
                                              LeValue(d[76..80])), Some(d[80..]))
  {
    assert d[4..][..32] == d[4..36] && d[4..][32..] == d[36..];
    assert d[36..][..32] == d[36..68] && d[36..][32..] == d[68..];
    assert d[68..][..4] == d[68..72] && d[68..][4..] == d[72..];
    assert d[72..][..4] == d[72..76] && d[72..][4..] == d[76..];
    assert d[76..][..4] == d[76..80] && d[76..][4..] == d[80..];
  }

  /** The data without what Core's raw header has after its first 80 bytes. */
  function WithoutAux(data: bytes, rawHeader: bytes): bytes
    requires 80 <= |rawHeader| <= |data|
  {
    rawHeader[..80] + data[|rawHeader|..]
  }

  /** rawHeader is the header of the block together with its AuxPoW, if it has one. */
  ghost predicate IsRawHeader(data: bytes, rawHeader: bytes) {
    && 80 <= |rawHeader| && rawHeader <= data
    && var header := ReadHeader(Some(data));
       if IsAuxPoW(header.value)
       then ReadMerkleTx(header.rest).Ok? && ReadMerkleTx(header.rest).rest == Some(data[|rawHeader|..])
       else |rawHeader| == 80
  }

  // The same outcome, apart from the AuxPoW.
  function NoAux(o: Outcome<Block>): Outcome<Block> {
    if o.Ok? then Ok(o.value.(aux := None), o.rest) else o
  }

  /** Whenever the AuxPoW itself can be read, parsing without it comes out the same: the same header and transactions, or the same failure. */
  lemma FallbackAgrees(data: bytes, rawHeader: bytes)
    requires IsRawHeader(data, rawHeader)
    ensures Decode(WithoutAux(data, rawHeader), false) == NoAux(Decode(data, true))
  {
    hide ReadMerkleTx, Txs, ReadHeader;
    HeaderIs80Bytes(data, data[|rawHeader|..]);
    assert rawHeader[..80] == data[..80];
  }

  lemma Has80Bytes(data: bytes)
    requires ReadHeader(Some(data)).rest.Some?
    ensures |data| >= 80
  {
    var a := Take(Some(data), 4).rest;
    var b := Take(a, 32).rest;
    var c := Take(b, 32).rest;
    var d := Take(c, 4).rest;
    var e := Take(d, 4).rest;
    assert Take(e, 4).rest.Some?;
  }

  lemma TxsTail(header: Header, aux: Option<MerkleTx>, r: Rest)
    ensures ReadTxs(header, aux, r).Ok? ==> Tail(r, ReadTxs(header, aux, r).rest)
  {
    VarTail(r);
    TxForward();
    ManyTail(VarUint(r).value, ReadTx, VarUint(r).rest);
  }

  /** After a normal parse that succeeds there is such a raw header: the AuxPoW ends inside the data. */
  lemma RawHeaderExists(data: bytes)
    requires Decode(data, true).Ok?
    ensures exists k | 80 <= k <= |data| :: IsRawHeader(data, data[..k])
  {
    hide ReadMerkleTx, ReadTxs, ReadHeader;
    var header := ReadHeader(Some(data));
    HeaderTail(Some(data));
    TxsTail(header.value, None, header.rest);
    if IsAuxPoW(header.value) {
      var aux := ReadMerkleTx(header.rest);
      TxsTail(header.value, Some(aux.value), aux.rest);
      MerkleTail(header.rest);
      Has80Bytes(data);
      HeaderIs80Bytes(data, []);
      var k := |data| - |aux.rest.value|;
      assert data[80..][|data| - 80 - |aux.rest.value|..] == data[k..];
      assert IsRawHeader(data, data[..k]);
    } else {
      Has80Bytes(data);
      assert IsRawHeader(data, data[..80]);
    }
  }

  /** Whatever stands between the header and the transactions, and whether or not it can be decoded, the fallback
      recovers the header and the transactions. */
  lemma FallbackRecovers(header: Header, between: bytes, txs: seq<RoundTrip.RawTx>)
    requires RoundTrip.HeaderOk(header) && RoundTrip.Countable(txs) && forall i | 0 <= i < |txs| :: RoundTrip.TxOk(txs[i])
    ensures var rawHeader := RoundTrip.EncodeHeader(header) + between;
            var data := rawHeader + RoundTrip.Vector(RoundTrip.EncodeTx, txs);
            && 80 <= |rawHeader| <= |data|
            && Decode(WithoutAux(data, rawHeader), false)
            == Ok(Block(header, None, RoundTrip.DecodedTxs(txs)), Some([]))
  {
    hide ReadTxs, ReadHeader, ReadTx, RoundTrip.EncodeTx, RoundTrip.TxOk, RoundTrip.Vector;
    var rawHeader := RoundTrip.EncodeHeader(header) + between;
    var body := RoundTrip.Vector(RoundTrip.EncodeTx, txs);
    var data := rawHeader + body;
    assert |RoundTrip.EncodeHeader(header)| == 80;
    assert WithoutAux(data, rawHeader) == RoundTrip.EncodeHeader(header) + body;
    RoundTrip.HeaderBack(header, body);
    RoundTrip.TxsBack(header, None, txs);
  }

  /** Decode a block normally, and if that fails try again without the AuxPoW part. */
  method DecodeWithFallback(data: bytes, rawHeader: bytes) returns (r: Result<Block>)
    requires 80 <= |rawHeader| <= |data|
    ensures Decode(data, true).Ok? ==> r == Good(Decode(data, true).value)
    ensures Decode(data, true).Fail? ==>
              r == match Decode(WithoutAux(data, rawHeader), false) case Ok(b, _) => Good(b) case Fail(e) => Bad(e)
  {
    ghost var s;
    r, s := DecodeBlock(data, true);
    if r.Bad? {
      var rawBlock := rawHeader[0..80];
      rawBlock := rawBlock + data[|rawHeader|..];
      assert rawBlock == WithoutAux(data, rawHeader);
      r, s := DecodeBlock(rawBlock, false);
    }
  }
}
