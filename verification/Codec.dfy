/** The block format: what the decoder makes of any bytes, the encoding of a block, and the round trip.

    Readers work on what is left of the data. Once a read goes past the end nothing is left (None),
    every later read yields zeroes, and only the very end of a block checks for that. */
module Codec {
  import opened Options

  type byte = x: int | 0 <= x < 256
  type bytes = seq<byte>
  type Rest = Option<bytes>

  const MAX_SCRIPT_SIZE := 10_000
  const MAX_VARINT_SIZE := 0x0200_0000
  const TWO_63: int := 0x8000_0000_0000_0000
  const TWO_64: int := 0x1_0000_0000_0000_0000

  datatype DecodeError = ScriptTooLong | WitnessTooLarge | NoFlagByte | UnknownFlags(flags: int) | DataLeft | Overran

  datatype Got<+T> = Got(value: T, rest: Rest)
  datatype Outcome<+T> = Ok(value: T, rest: Rest) | Fail(error: DecodeError)

  datatype TxIn = TxIn(txid: bytes, vout: nat, script: bytes, sequence: nat, stack: seq<bytes>)
  datatype TxOut = TxOut(value: int, script: bytes)
  // `hashed` is the byte range the transaction id is the hash of.
  datatype Tx = Tx(version: nat, vin: seq<TxIn>, vout: seq<TxOut>, lockTime: nat, hashed: bytes)
  datatype Header = Header(version: nat, prev: bytes, merkleRoot: bytes, timestamp: nat, bits: nat, nonce: nat)
  datatype Branch = Branch(hash: seq<bytes>, sideMask: nat)
  datatype MerkleTx = MerkleTx(coinbase: Tx, parentHash: bytes, coinbaseBranch: Branch, blockchainBranch: Branch, parentBlock: Header)
  datatype Block = Block(header: Header, aux: Option<MerkleTx>, tx: seq<Tx>)

  // ------------------------------------------------------------------ numbers

  function LeValue(b: bytes): nat {
    if b == [] then 0 else b[0] + 256 * LeValue(b[1..])
  }

  function LeBytes(n: nat, k: nat): (b: bytes)
    ensures |b| == k
  {
    if k == 0 then [] else [n % 256] + LeBytes(n / 256, k - 1)
  }

  function Pow256(k: nat): nat {
    if k == 0 then 1 else 256 * Pow256(k - 1)
  }

  lemma {:induction false} LeRoundTrip(n: nat, k: nat)
    requires n < Pow256(k)
    ensures LeValue(LeBytes(n, k)) == n
  {
    if k > 0 {
      LeRoundTrip(n / 256, k - 1);
    }
  }

  // -------------------------------------------------------------- the readers

  function Take(r: Rest, n: nat): Got<bytes> {
    if r.Some? && n <= |r.value| then Got(r.value[..n], Some(r.value[n..])) else Got([], None)
  }

  function Uint(r: Rest, k: nat): Got<nat> {
    var t := Take(r, k);
    Got(LeValue(t.value), t.rest)
  }

  function VarUint(r: Rest): Got<nat> {
    var t := Uint(r, 1);
    if t.value < 253 then t
    else if t.value == 253 then Uint(t.rest, 2)
    else if t.value == 254 then Uint(t.rest, 4)
    else Uint(t.rest, 8)
  }

  /** n readings in a row; the first failure stops them. */
  function Many<T>(n: nat, read: Rest -> Outcome<T>, r: Rest): Outcome<seq<T>> {
    if n == 0 then Ok([], r)
    else
      var first := read(r);
      if first.Fail? then Fail(first.error)
      else
        var others := Many(n - 1, read, first.rest);
        if others.Fail? then others else Ok([first.value] + others.value, others.rest)
  }

  function ReadTxIn(r: Rest): Outcome<TxIn> {
    var txid := Take(r, 32);
    var vout := Uint(txid.rest, 4);
    var len := VarUint(vout.rest);
    if len.value > MAX_SCRIPT_SIZE then Fail(ScriptTooLong)
    else
      var script := Take(len.rest, len.value);
      var sequence := Uint(script.rest, 4);
      Ok(TxIn(txid.value, vout.value, script.value, sequence.value, []), sequence.rest)
  }

  // A 64-bit pattern as a signed number.
  function Signed64(n: nat): int {
    if n < TWO_63 then n else n - TWO_64
  }

  function ReadTxOut(r: Rest): Outcome<TxOut> {
    var value := Uint(r, 8);
    var len := VarUint(value.rest);
    if len.value > MAX_SCRIPT_SIZE then Fail(ScriptTooLong)
    else
      var script := Take(len.rest, len.value);
      Ok(TxOut(Signed64(value.value), script.value), script.rest)
  }

  function ReadItem(r: Rest): Outcome<bytes> {
    var len := VarUint(r);
    if len.value > MAX_VARINT_SIZE then Fail(WitnessTooLarge)
    else
      var item := Take(len.rest, len.value);
      Ok(item.value, item.rest)
  }

  function Items(n: nat, r: Rest): Outcome<seq<bytes>> { Many(n, ReadItem, r) }

  function ReadStack(r: Rest): Outcome<seq<bytes>> {
    var n := VarUint(r);
    Items(n.value, n.rest)
  }

  function ReadHash(r: Rest): Outcome<bytes> {
    var t := Take(r, 32);
    Ok(t.value, t.rest)
  }

  function Ins(n: nat, r: Rest): Outcome<seq<TxIn>> { Many(n, ReadTxIn, r) }
  function Outs(n: nat, r: Rest): Outcome<seq<TxOut>> { Many(n, ReadTxOut, r) }
  function Stacks(n: nat, r: Rest): Outcome<seq<seq<bytes>>> { Many(n, ReadStack, r) }
  function Hashes(n: nat, r: Rest): Outcome<seq<bytes>> { Many(n, ReadHash, r) }
  function Txs(n: nat, r: Rest): Outcome<seq<Tx>> { Many(n, ReadTx, r) }

  function VinVout(n: nat, r: Rest): Outcome<(seq<TxIn>, seq<TxOut>)> {
    var vin := Ins(n, r);
    if vin.Fail? then Fail(vin.error)
    else
      var m := VarUint(vin.rest);
      var vout := Outs(m.value, m.rest);
      if vout.Fail? then Fail(vout.error) else Ok((vin.value, vout.value), vout.rest)
  }

  function WithWitness(vin: seq<TxIn>, stacks: seq<seq<bytes>>): seq<TxIn> {
    seq(|vin|, i requires 0 <= i < |vin| => if i < |stacks| then vin[i].(stack := stacks[i]) else vin[i])
  }

  // What a transaction has between its version and its lock time.
  datatype Body = Body(vin: seq<TxIn>, vout: seq<TxOut>)

  function ReadWitness(body: Body, r: Rest): Outcome<Body> {
    var stacks := Stacks(|body.vin|, r);
    if stacks.Fail? then Fail(stacks.error) else Ok(body.(vin := WithWitness(body.vin, stacks.value)), stacks.rest)
  }

  // After the zero marker: a flag byte decides what follows.
  function ReadExtended(r: Rest): Outcome<Body> {
    var flag := Take(r, 1);
    if flag.value == [] then Fail(NoFlagByte)
    else
      var flags := flag.value[0];
      if flags == 0 then Ok(Body([], []), flag.rest)
      else
        var n := VarUint(flag.rest);
        var io := VinVout(n.value, n.rest);
        if io.Fail? then Fail(io.error)
        else
          var body := Body(io.value.0, io.value.1);
          if flags % 2 == 1 then
            var full := ReadWitness(body, io.rest);
            if full.Fail? || flags == 1 then full else Fail(UnknownFlags(flags - 1))
          else Fail(UnknownFlags(flags))
  }

  function ReadBody(r: Rest): Outcome<Body> {
    var n := VarUint(r);
    if n.value == 0 then ReadExtended(n.rest)
    else
      var io := VinVout(n.value, n.rest);
      if io.Fail? then Fail(io.error) else Ok(Body(io.value.0, io.value.1), io.rest)
  }

  // The bytes between two positions, if the second was reached.
  function Consumed(r: Rest, r': Rest): bytes {
    if r.Some? && r'.Some? && |r'.value| <= |r.value| then r.value[..|r.value| - |r'.value|] else []
  }

  function ReadTx(r: Rest): Outcome<Tx> {
    var version := Uint(r, 4);
    var body := ReadBody(version.rest);
    if body.Fail? then Fail(body.error)
    else
      var lockTime := Uint(body.rest, 4);
      Ok(Tx(version.value, body.value.vin, body.value.vout, lockTime.value, Consumed(r, lockTime.rest)), lockTime.rest)
  }

  function ReadHeader(r: Rest): Got<Header> {
    var version := Uint(r, 4);
    var prev := Take(version.rest, 32);
    var root := Take(prev.rest, 32);
    var time := Uint(root.rest, 4);
    var bits := Uint(time.rest, 4);
    var nonce := Uint(bits.rest, 4);
    Got(Header(version.value, prev.value, root.value, time.value, bits.value, nonce.value), nonce.rest)
  }

  predicate IsAuxPoW(h: Header) {
    h.version / 256 % 2 == 1
  }

  function ReadBranch(r: Rest): Outcome<Branch> {
    var n := VarUint(r);
    var hash := Hashes(n.value, n.rest);
    if hash.Fail? then Fail(hash.error)
    else
      var mask := Uint(hash.rest, 4);
      Ok(Branch(hash.value, mask.value), mask.rest)
  }

  function ReadMerkleTx(r: Rest): Outcome<MerkleTx> {
    var coinbase := ReadTx(r);
    if coinbase.Fail? then Fail(coinbase.error)
    else
      var parent := Take(coinbase.rest, 32);
      var left := ReadBranch(parent.rest);
      if left.Fail? then Fail(left.error)
      else
        var right := ReadBranch(left.rest);
        if right.Fail? then Fail(right.error)
        else
          var header := ReadHeader(right.rest);
          Ok(MerkleTx(coinbase.value, parent.value, left.value, right.value, header.value), header.rest)
  }

  function ReadTxs(header: Header, aux: Option<MerkleTx>, r: Rest): Outcome<Block> {
    var n := VarUint(r);
    var txs := Txs(n.value, n.rest);
    if txs.Fail? then Fail(txs.error) else Ok(Block(header, aux, txs.value), txs.rest)
  }

  function ReadBlock(r: Rest, parseAuxPoW: bool): Outcome<Block> {
    var header := ReadHeader(r);
    if IsAuxPoW(header.value) && parseAuxPoW then
      var aux := ReadMerkleTx(header.rest);
      if aux.Fail? then Fail(aux.error) else ReadTxs(header.value, Some(aux.value), aux.rest)
    else ReadTxs(header.value, None, header.rest)
  }

  /** All of the data must be used, and no more than there is. */
  function Decode(data: bytes, parseAuxPoW: bool): Outcome<Block> {
    var b := ReadBlock(Some(data), parseAuxPoW);
    if b.Fail? then b
    else if b.rest == None then Fail(Overran)
    else if b.rest.value != [] then Fail(DataLeft)
    else b
  }
}
