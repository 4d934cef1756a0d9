/** The blocks Dogecoin Core knows, as a tree, and what Core answers about one of them.

    A transaction id is the hash of the transaction, so it determines the
    transaction: blocks list ids and `World.txs` maps an id to its content. */
module BlockTree {
  import opened Options

  type Hash = string
  type TxId = string
  type Address = string

  const COINBASE_VOUT: nat := 0xffffffff

  datatype Outpoint = Outpoint(txid: TxId, vout: nat)
  // `payee` is the address of a P2PKH script and None for every other script.
  datatype TxOut = TxOut(value: int, payee: Option<Address>)
  datatype Tx = Tx(vin: seq<Outpoint>, vout: seq<TxOut>)
  datatype Block = Block(prev: Hash, height: nat, txids: seq<TxId>)
  datatype World = World(blocks: map<Hash, Block>, genesis: Hash, txs: map<TxId, Tx>)

  // ---------------------------------------------------------------- the tree

  predicate ValidTree(w: World)
  {
    && w.genesis in w.blocks && w.blocks[w.genesis].height == 0 && "" !in w.blocks
    && (forall h | h in w.blocks && h != w.genesis ::
          && w.blocks[h].prev in w.blocks
          && w.blocks[h].height == w.blocks[w.blocks[h].prev].height + 1)
    && (forall h | h in w.blocks :: forall i | 0 <= i < |w.blocks[h].txids| :: w.blocks[h].txids[i] in w.txs)
  }

  /** The block at height k on the chain that ends in h. */
  function AncestorAt(w: World, h: Hash, k: nat): (a: Hash)
    requires ValidTree(w) && h in w.blocks && k <= w.blocks[h].height
    ensures a in w.blocks && w.blocks[a].height == k
    decreases w.blocks[h].height
  {
    if w.blocks[h].height == k then h else AncestorAt(w, w.blocks[h].prev, k)
  }

  /** a is tip or an ancestor of tip. */
  predicate OnChain(w: World, a: Hash, tip: Hash)
    requires ValidTree(w)
  {
    && a in w.blocks && tip in w.blocks
    && w.blocks[a].height <= w.blocks[tip].height
    && AncestorAt(w, tip, w.blocks[a].height) == a
  }

  lemma {:induction false} AncestorOfAncestor(w: World, h: Hash, j: nat, k: nat)
    requires ValidTree(w) && h in w.blocks && k <= j <= w.blocks[h].height
    ensures AncestorAt(w, AncestorAt(w, h, j), k) == AncestorAt(w, h, k)
    decreases w.blocks[h].height
  {
    if w.blocks[h].height != j {
      AncestorOfAncestor(w, w.blocks[h].prev, j, k);
    }
  }

  lemma OnChainTransitive(w: World, a: Hash, b: Hash, c: Hash)
    requires ValidTree(w) && OnChain(w, a, b) && OnChain(w, b, c)
    ensures OnChain(w, a, c)
  {
    AncestorOfAncestor(w, c, w.blocks[b].height, w.blocks[a].height);
  }

  /** Two ancestors of one block are themselves ordered. */
  lemma OnChainOrdered(w: World, a: Hash, b: Hash, tip: Hash)
    requires ValidTree(w) && OnChain(w, a, tip) && OnChain(w, b, tip)
    requires w.blocks[a].height <= w.blocks[b].height
    ensures OnChain(w, a, b)
  {
    AncestorOfAncestor(w, tip, w.blocks[b].height, w.blocks[a].height);
  }

  lemma ChildExtends(w: World, a: Hash, tip: Hash, b: Hash)
    requires ValidTree(w) && OnChain(w, a, tip)
    requires b in w.blocks && b != w.genesis && w.blocks[b].prev == tip
    ensures OnChain(w, a, b)
  {
  }

  lemma ParentOnChain(w: World, h: Hash)
    requires ValidTree(w) && h in w.blocks && h != w.genesis
    ensures OnChain(w, w.blocks[h].prev, h)
  {
  }

  // ------------------------------------------------------- what Core answers

  // getblockheader: `onChain` is false when Core reports -1 confirmations.
  datatype Header = Header(hash: Hash, height: nat, prev: Hash, next: Hash, onChain: bool)

  /** Core's answer about block h while its active chain ends in tip. */
  function HeaderOf(w: World, h: Hash, tip: Hash): Header
    requires ValidTree(w) && h in w.blocks && tip in w.blocks
  {
    var b := w.blocks[h];
    var on := OnChain(w, h, tip);
    Header(h, b.height, b.prev, if on && h != tip then AncestorAt(w, tip, b.height + 1) else "", on)
  }

  // The block after h on the way to tip is a child of h.
  lemma NextIsChild(w: World, h: Hash, tip: Hash)
    requires ValidTree(w) && OnChain(w, h, tip) && h != tip
    ensures w.blocks[h].height < w.blocks[tip].height
    ensures var n := AncestorAt(w, tip, w.blocks[h].height + 1);
            n in w.blocks && n != w.genesis && w.blocks[n].prev == h && OnChain(w, n, tip)
  {
    var n := AncestorAt(w, tip, w.blocks[h].height + 1);
    AncestorOfAncestor(w, tip, w.blocks[n].height, w.blocks[h].height);
    assert AncestorAt(w, n, w.blocks[h].height) == AncestorAt(w, w.blocks[n].prev, w.blocks[h].height);
  }

  /** The next-block link Core reports always leads to a child, and only the tip has none. */
  lemma HeaderNext(w: World, h: Hash, tip: Hash)
    requires ValidTree(w) && h in w.blocks && tip in w.blocks
    ensures var hdr := HeaderOf(w, h, tip);
            && (hdr.next != "" ==> hdr.next in w.blocks && hdr.next != w.genesis && w.blocks[hdr.next].prev == h
                                   && OnChain(w, hdr.next, tip))
            && (hdr.onChain ==> (hdr.next == "" <==> h == tip))
            && (!hdr.onChain ==> h != w.genesis)
  {
    hide OnChain, AncestorAt;
    if OnChain(w, h, tip) {
      if h != tip { NextIsChild(w, h, tip); }
    } else {
      GenesisOnChain(w, tip);
    }
  }

  lemma {:induction false} GenesisOnChain(w: World, tip: Hash)
    requires ValidTree(w) && tip in w.blocks
    ensures OnChain(w, w.genesis, tip)
    decreases w.blocks[tip].height
  {
    if tip != w.genesis {
      GenesisOnChain(w, w.blocks[tip].prev);
    }
  }

  // ------------------------------------------- searching a chain for an event

  datatype Query = HasTx(id: TxId) | Spends(o: Outpoint)

  predicate SpentBy(w: World, txids: seq<TxId>, o: Outpoint)
    requires forall i | 0 <= i < |txids| :: txids[i] in w.txs
  {
    o.vout != COINBASE_VOUT && exists i | 0 <= i < |txids| :: o in w.txs[txids[i]].vin
  }

  predicate Hits(w: World, h: Hash, q: Query)
    requires ValidTree(w) && h in w.blocks
  {
    match q
    case HasTx(id) => id in w.blocks[h].txids
    case Spends(o) => SpentBy(w, w.blocks[h].txids, o)
  }

  /** The height of the last block above height k, on the chain ending in tip, that answers q. */
  function LastHit(w: World, k: int, tip: Hash, q: Query): (r: Option<int>)
    requires ValidTree(w) && tip in w.blocks
    ensures r.Some? ==> k < r.value <= w.blocks[tip].height && 0 <= r.value
    decreases w.blocks[tip].height
  {
    if w.blocks[tip].height <= k then None
    else if Hits(w, tip, q) then Some(w.blocks[tip].height)
    else if tip == w.genesis then None
    else LastHit(w, k, w.blocks[tip].prev, q)
  }

  lemma {:induction false} LastHitSplit(w: World, k: int, m: Hash, tip: Hash, q: Query)
    requires ValidTree(w) && OnChain(w, m, tip) && k <= w.blocks[m].height
    ensures LastHit(w, k, tip, q) ==
            if LastHit(w, w.blocks[m].height, tip, q).Some? then LastHit(w, w.blocks[m].height, tip, q)
            else LastHit(w, k, m, q)
    decreases w.blocks[tip].height
  {
    if tip != m {
      LastHitSplit(w, k, m, w.blocks[tip].prev, q);
    }
  }

  /** Lowering the floor never loses a hit, and only adds hits at or below the old floor. */
  lemma {:induction false} LastHitFloor(w: World, k: int, k': int, tip: Hash, q: Query)
    requires ValidTree(w) && tip in w.blocks && k' <= k
    ensures LastHit(w, k, tip, q) ==
            if LastHit(w, k', tip, q).Some? && LastHit(w, k', tip, q).value > k then LastHit(w, k', tip, q) else None
    decreases w.blocks[tip].height
  {
    if w.blocks[tip].height > k && !Hits(w, tip, q) && tip != w.genesis {
      LastHitFloor(w, k, k', w.blocks[tip].prev, q);
    }
  }

  // ------------------------------------------------------ consensus validity

  predicate Distinct(ids: seq<TxId>)
  {
    forall i, j | 0 <= i < j < |ids| :: ids[i] != ids[j]
  }

  /** q happens at most once on any chain. */
  ghost predicate AtMostOnce(w: World, q: Query)
    requires ValidTree(w)
  {
    forall h | h in w.blocks && h != w.genesis && Hits(w, h, q) :: LastHit(w, -1, w.blocks[h].prev, q) == None
  }

  ghost predicate InputsKnown(w: World, h: Hash)
    requires ValidTree(w) && h in w.blocks
  {
    var ids := w.blocks[h].txids;
    forall i, o | 0 <= i < |ids| && o in w.txs[ids[i]].vin && o.vout != COINBASE_VOUT ::
      o.txid in ids[..i] || (h != w.genesis && LastHit(w, -1, w.blocks[h].prev, HasTx(o.txid)).Some?)
  }

  /** Every chain is valid: a transaction occurs once, an input spends an output of an
      earlier transaction of the same chain, and no output is spent twice. */
  ghost predicate ValidWorld(w: World)
  {
    && ValidTree(w)
    && (forall h | h in w.blocks :: Distinct(w.blocks[h].txids))
    && (forall id: TxId :: AtMostOnce(w, HasTx(id)))
    && (forall o: Outpoint :: AtMostOnce(w, Spends(o)))
    && (forall h | h in w.blocks :: InputsKnown(w, h))
  }

  /** What has happened on a chain does not happen again above it. */
  lemma {:induction false} NoSecondHit(w: World, k: int, m: Hash, tip: Hash, q: Query)
    requires ValidTree(w) && AtMostOnce(w, q) && OnChain(w, m, tip)
    requires LastHit(w, k, m, q).Some?
    ensures LastHit(w, w.blocks[m].height, tip, q) == None
    decreases w.blocks[tip].height
  {
    if tip != m {
      var p := w.blocks[tip].prev;
      NoSecondHit(w, k, m, p, q);
      if Hits(w, tip, q) {
        var low := if k < -1 then k else -1;
        LastHitSplit(w, low, m, p, q);
        LastHitFloor(w, k, low, m, q);
        LastHitFloor(w, -1, low, p, q);
        assert false;
      }
    }
  }

  lemma LastHitUnfold(w: World, tip: Hash, q: Query)
    requires ValidTree(w) && tip in w.blocks
    ensures Hits(w, tip, q) ==> LastHit(w, -1, tip, q) == Some(w.blocks[tip].height)
    ensures !Hits(w, tip, q) && tip == w.genesis ==> LastHit(w, -1, tip, q) == None
    ensures !Hits(w, tip, q) && tip != w.genesis ==> LastHit(w, -1, tip, q) == LastHit(w, -1, w.blocks[tip].prev, q)
  {
  }

  lemma InputKnown(w: World, tip: Hash, o: Outpoint)
    requires ValidTree(w) && tip in w.blocks && InputsKnown(w, tip) && Hits(w, tip, Spends(o))
    ensures Hits(w, tip, HasTx(o.txid)) || (tip != w.genesis && LastHit(w, -1, w.blocks[tip].prev, HasTx(o.txid)).Some?)
  {
  }

  /** A spent output was created on the same chain, no later than it was spent. */
  lemma {:induction false} SpendImpliesKnown(w: World, tip: Hash, o: Outpoint)
    requires ValidWorld(w) && tip in w.blocks
    requires LastHit(w, -1, tip, Spends(o)).Some?
    ensures LastHit(w, -1, tip, HasTx(o.txid)).Some?
    ensures LastHit(w, -1, tip, HasTx(o.txid)).value <= LastHit(w, -1, tip, Spends(o)).value
    decreases w.blocks[tip].height
  {
    LastHitUnfold(w, tip, Spends(o));
    LastHitUnfold(w, tip, HasTx(o.txid));
    if Hits(w, tip, Spends(o)) {
      InputKnown(w, tip, o);
    } else {
      SpendImpliesKnown(w, w.blocks[tip].prev, o);
      assert AtMostOnce(w, HasTx(o.txid));
    }
  }
}
