/** The heights in the `utxo` table depend only on the chain to the stored best block.

    `Spec` reads the four heights of an output off the block tree alone. The
    lemmas show that a forward batch and a rollback to an ancestor each keep the
    table equal to it, so forks leave no mark. Two parts are kept apart, because
    they need different hypotheses: the added and spendable heights are exact on
    every valid tree, the spending and spent heights need outputs to be spent no
    earlier than they become spendable. */
module Confluence {
  import opened Options
  import opened BlockTree
  import opened Ledger

  // -------------------------------------------------- heights read off the tree

  /** The follower keeps a row for o: its transaction pays a known address there. */
  predicate Owned(w: World, env: Env, o: Outpoint) {
    o.txid in w.txs && Keeps(w.txs[o.txid].vout, o.vout, env.owners)
  }

  function Payee(w: World, env: Env, o: Outpoint): Address
    requires Owned(w, env, o)
  {
    w.txs[o.txid].vout[o.vout].payee.value
  }

  function ConfirmedAt(h: Option<int>, conf: int, tip: int): Option<int> {
    if h.Some? && h.value + conf <= tip then Some(h.value + conf) else None
  }

  function AddedAt(w: World, env: Env, k: int, tip: Hash, o: Outpoint): Option<int>
    requires ValidTree(w) && tip in w.blocks
  {
    if Owned(w, env, o) then LastHit(w, k, tip, HasTx(o.txid)) else None
  }

  function SpendingAt(w: World, env: Env, k: int, tip: Hash, o: Outpoint): Option<int>
    requires ValidTree(w) && tip in w.blocks
  {
    if AddedAt(w, env, k, tip, o).Some? then LastHit(w, k, tip, Spends(o)) else None
  }

  // The four heights of an output created at a and spent at s, once the chain has reached tip.
  function Stages(a: Option<int>, s: Option<int>, conf: int, dflt: int, tip: int): Heights {
    Heights(a, ConfirmedAt(a, conf, tip), s, ConfirmedAt(s, dflt, tip))
  }

  function RowConf(w: World, env: Env, o: Outpoint): int {
    if Owned(w, env, o) then ConfOf(env, Payee(w, env, o)) else env.dflt
  }

  /** The heights of o after following the chain to tip from the block at height k, with no fork on the way. */
  function Spec(w: World, env: Env, k: int, tip: Hash, o: Outpoint): Heights
    requires ValidTree(w) && tip in w.blocks
  {
    Stages(AddedAt(w, env, k, tip, o), SpendingAt(w, env, k, tip, o), RowConf(w, env, o), env.dflt, w.blocks[tip].height)
  }

  /** Once a chain has made an output spendable, it was not spent earlier on that chain. */
  ghost predicate SpentWhenSpendable(w: World, env: Env)
    requires ValidTree(w)
  {
    forall tip, o: Outpoint | tip in w.blocks :: !SpentEarly(w, env, tip, o)
  }

  ghost predicate SpentEarly(w: World, env: Env, tip: Hash, o: Outpoint)
    requires ValidTree(w) && tip in w.blocks
  {
    var h := Spec(w, env, 0, tip, o);
    h.spendable.Some? && h.spending.Some? && h.spending.value < h.spendable.value
  }

  // ---------------------------------------------------------------- invariants

  /** The transaction of o is in a block strictly above the base block. */
  ghost predicate Born(w: World, base: Hash, o: Outpoint)
    requires ValidTree(w) && base in w.blocks
  {
    exists x :: x in w.blocks && OnChain(w, base, x) && w.blocks[base].height < w.blocks[x].height && Hits(w, x, HasTx(o.txid))
  }

  /** Rows the follower created: they hold what the transaction says. Rows in `api` were inserted by a payment. */
  ghost predicate Content(w: World, env: Env, base: Hash, u: UtxoTable, api: set<Outpoint>)
    requires ValidTree(w) && base in w.blocks
  {
    forall o | o in u && o !in api ::
      Owned(w, env, o) && SameContent(u[o], w.txs[o.txid].vout[o.vout], env.owners) && Born(w, base, o)
  }

  /** The table in the middle of a batch: on-chain stages as of `tip`, confirmations as of `last`. */
  ghost predicate AddedExact(w: World, env: Env, base: Hash, last: Hash, tip: Hash, u: UtxoTable, api: set<Outpoint>)
    requires ValidTree(w) && base in w.blocks && last in w.blocks && tip in w.blocks
  {
    var k := w.blocks[base].height;
    forall o | o !in api ::
      && HeightsOf(u, o).added == Spec(w, env, k, tip, o).added
      && HeightsOf(u, o).spendable == Spec(w, env, k, last, o).spendable
  }

  ghost predicate SpendExact(w: World, env: Env, base: Hash, last: Hash, tip: Hash, u: UtxoTable, api: set<Outpoint>)
    requires ValidTree(w) && base in w.blocks && last in w.blocks && tip in w.blocks
  {
    var k := w.blocks[base].height;
    forall o | o !in api ::
      && HeightsOf(u, o).spending == Spec(w, env, k, tip, o).spending
      && HeightsOf(u, o).spent == Spec(w, env, k, last, o).spent
  }

  ghost predicate Mid(w: World, env: Env, base: Hash, last: Hash, tip: Hash, u: UtxoTable, api: set<Outpoint>)
    requires ValidTree(w)
  {
    && OnChain(w, base, last) && OnChain(w, last, tip)
    && Content(w, env, base, u, api) && AddedExact(w, env, base, last, tip, u, api)
  }

  /** After a commit the added and spendable heights are those of the chain to the best block. */
  ghost predicate Exact(w: World, env: Env, base: Hash, best: Hash, u: UtxoTable, api: set<Outpoint>)
    requires ValidTree(w)
  {
    Mid(w, env, base, best, best, u, api)
  }

  /** After a commit all four heights are those of the chain to the best block. */
  ghost predicate AllExact(w: World, env: Env, base: Hash, best: Hash, u: UtxoTable, api: set<Outpoint>)
    requires ValidTree(w)
  {
    Exact(w, env, base, best, u, api) && SpendExact(w, env, base, best, best, u, api)
  }

  lemma AllExactHeights(w: World, env: Env, base: Hash, best: Hash, u: UtxoTable, api: set<Outpoint>, o: Outpoint)
    requires ValidTree(w) && AllExact(w, env, base, best, u, api) && o !in api
    ensures HeightsOf(u, o) == Spec(w, env, w.blocks[base].height, best, o)
  {
  }

  // ------------------------------------------------------------ one more block

  lemma BlockSpendsFollow(w: World, b: Hash, o: Outpoint)
    requires ValidWorld(w) && b in w.blocks && o.vout != COINBASE_VOUT
    ensures SpendsFollow(w, w.blocks[b].txids, o)
  {
    assert InputsKnown(w, b) && AtMostOnce(w, HasTx(o.txid));
  }

  /** An output with a row, not created on the chain above the base, is not spent there either:
      a row left behind by an abandoned fork stays untouched. */
  lemma GhostRowUnspent(w: World, base: Hash, b: Hash, o: Outpoint)
    requires ValidWorld(w) && OnChain(w, base, b) && Born(w, base, o)
    requires LastHit(w, w.blocks[base].height, b, HasTx(o.txid)) == None
    ensures b != base ==> !Hits(w, b, Spends(o))
  {
    var k := w.blocks[base].height;
    if b != base && Hits(w, b, Spends(o)) {
      SpendImpliesKnown(w, b, o);
      LastHitSplit(w, -1, base, b, HasTx(o.txid));
      var x :| x in w.blocks && OnChain(w, base, x) && k < w.blocks[x].height && Hits(w, x, HasTx(o.txid));
      NoSecondHit(w, -1, base, x, HasTx(o.txid));
      assert false;
    }
  }

  /** Nothing is spent before it exists. */
  lemma UnknownUnspent(w: World, k: int, tip: Hash, b: Hash, o: Outpoint)
    requires ValidWorld(w) && tip in w.blocks && -1 <= k
    requires b in w.blocks && b != w.genesis && w.blocks[b].prev == tip && Hits(w, b, HasTx(o.txid))
    ensures LastHit(w, k, tip, HasTx(o.txid)) == None && LastHit(w, k, tip, Spends(o)) == None
  {
    assert AtMostOnce(w, HasTx(o.txid));
    LastHitFloor(w, k, -1, tip, HasTx(o.txid));
    LastHitFloor(w, k, -1, tip, Spends(o));
    if LastHit(w, -1, tip, Spends(o)).Some? {
      SpendImpliesKnown(w, tip, o);
    }
  }

  lemma LastHitStep(w: World, base: Hash, tip: Hash, b: Hash, q: Query)
    requires ValidTree(w) && OnChain(w, base, tip)
    requires b in w.blocks && b != w.genesis && w.blocks[b].prev == tip
    ensures LastHit(w, w.blocks[base].height, b, q) ==
            if Hits(w, b, q) then Some(w.blocks[b].height) else LastHit(w, w.blocks[base].height, tip, q)
  {
  }

  lemma OneRowOneBlock(w: World, env: Env, base: Hash, last: Hash, tip: Hash, b: Hash, u: UtxoTable, api: set<Outpoint>, o: Outpoint)
    requires ValidWorld(w) && Mid(w, env, base, last, tip, u, api) && o !in api
    requires b in w.blocks && b != w.genesis && w.blocks[b].prev == tip
    ensures var u' := Apply(u, env.owners, BlockChanges(w, w.blocks[b].txids, w.blocks[b].height));
            var k := w.blocks[base].height;
            && HeightsOf(u', o).added == AddedAt(w, env, k, b, o)
            && HeightsOf(u', o).spendable == HeightsOf(u, o).spendable
            && HeightsOf(u', o).spent == HeightsOf(u, o).spent
            && (HeightsOf(u, o).spending == SpendingAt(w, env, k, tip, o) ==>
                  HeightsOf(u', o).spending == SpendingAt(w, env, k, b, o))
            && (o in u' ==> Owned(w, env, o) && SameContent(u'[o], w.txs[o.txid].vout[o.vout], env.owners) && Born(w, base, o))
  {
    var k := w.blocks[base].height;
    var ids := w.blocks[b].txids;
    if o.vout != COINBASE_VOUT { BlockSpendsFollow(w, b, o); }
    BlockEffect(w, u, env.owners, ids, w.blocks[b].height, o);
    OnChainTransitive(w, base, last, tip);
    ChildExtends(w, base, tip, b);
    LastHitStep(w, base, tip, b, HasTx(o.txid));
    LastHitStep(w, base, tip, b, Spends(o));
    assert CreatedBy(w, ids, o, env.owners) <==> Owned(w, env, o) && Hits(w, b, HasTx(o.txid));
    if Hits(w, b, HasTx(o.txid)) {
      UnknownUnspent(w, k, tip, b, o);
    } else if o in u && AddedAt(w, env, k, tip, o) == None {
      GhostRowUnspent(w, base, b, o);
    }
  }

  lemma ExtendMid(w: World, env: Env, base: Hash, last: Hash, tip: Hash, b: Hash, u: UtxoTable, api: set<Outpoint>)
    requires ValidWorld(w) && Mid(w, env, base, last, tip, u, api)
    requires b in w.blocks && b != w.genesis && w.blocks[b].prev == tip
    ensures var u' := Apply(u, env.owners, BlockChanges(w, w.blocks[b].txids, w.blocks[b].height));
            && Mid(w, env, base, last, b, u', api)
            && (SpendExact(w, env, base, last, tip, u, api) ==> SpendExact(w, env, base, last, b, u', api))
  {
    ChildExtends(w, last, tip, b);
    forall o | o !in api {
      OneRowOneBlock(w, env, base, last, tip, b, u, api, o);
    }
  }

  // ----------------------------------------------------------------- a batch

  function Tip(from: Hash, path: seq<Hash>): Hash {
    if path == [] then from else path[|path| - 1]
  }

  /** Each block of the batch is a child of the one before it. */
  predicate IsPath(w: World, from: Hash, path: seq<Hash>)
    requires ValidTree(w)
    ensures IsPath(w, from, path) ==> forall h | h in path :: h in w.blocks
  {
    path == [] ||
    (var n := |path| - 1;
     && IsPath(w, from, path[..n])
     && path[n] in w.blocks && path[n] != w.genesis && w.blocks[path[n]].prev == Tip(from, path[..n]))
  }

  /** The changes collected from a batch, in order. */
  function PathChanges(w: World, path: seq<Hash>): seq<Change>
    requires ValidTree(w) && forall h | h in path :: h in w.blocks
  {
    if path == [] then []
    else
      var b := w.blocks[path[|path| - 1]];
      PathChanges(w, path[..|path| - 1]) + BlockChanges(w, b.txids, b.height)
  }

  lemma {:induction false} ApplyPath(w: World, env: Env, base: Hash, from: Hash, path: seq<Hash>, u: UtxoTable, api: set<Outpoint>)
    requires ValidWorld(w) && Exact(w, env, base, from, u, api) && IsPath(w, from, path)
    ensures Mid(w, env, base, from, Tip(from, path), Apply(u, env.owners, PathChanges(w, path)), api)
    ensures SpendExact(w, env, base, from, from, u, api) ==>
              SpendExact(w, env, base, from, Tip(from, path), Apply(u, env.owners, PathChanges(w, path)), api)
  {
    if path != [] {
      var n := |path| - 1;
      var b := w.blocks[path[n]];
      ApplyPath(w, env, base, from, path[..n], u, api);
      ApplyConcat(u, env.owners, PathChanges(w, path[..n]), BlockChanges(w, b.txids, b.height));
      ExtendMid(w, env, base, from, Tip(from, path[..n]), path[n], Apply(u, env.owners, PathChanges(w, path[..n])), api);
    }
  }

  /** What is on a chain stays on every longer chain, at the same height. */
  lemma StillThere(w: World, k: int, a: Hash, tip: Hash, q: Query)
    requires ValidTree(w) && AtMostOnce(w, q) && OnChain(w, a, tip) && k <= w.blocks[a].height
    ensures LastHit(w, k, a, q).Some? ==> LastHit(w, k, tip, q) == LastHit(w, k, a, q)
  {
    LastHitSplit(w, k, a, tip, q);
    if LastHit(w, k, a, q).Some? { NoSecondHit(w, k, a, tip, q); }
  }

  // Row o, if present, holds what its transaction says.
  ghost predicate RowContent(w: World, env: Env, u: UtxoTable, o: Outpoint)
  {
    o in u ==> Owned(w, env, o) && u[o].address == Payee(w, env, o)
  }

  // Confirming at tip, when the confirmed stages were up to date at the height `last`.
  lemma ConfirmValues(r: UtxoRow, aLast: Option<int>, sLast: Option<int>, a: Option<int>, s: Option<int>,
                      conf: int, dflt: int, last: int, tip: int)
    requires last <= tip && (aLast.Some? ==> a == aLast) && (sLast.Some? ==> s == sLast)
    requires r.heights.added == a && r.heights.spendable == ConfirmedAt(aLast, conf, last)
    ensures var h := ConfirmSpent(ConfirmSpendable(r, conf, tip), dflt, tip).heights;
            && h.added == a && h.spendable == ConfirmedAt(a, conf, tip)
            && (r.heights.spending == s && r.heights.spent == ConfirmedAt(sLast, dflt, last) ==> h == Stages(a, s, conf, dflt, tip))
  {
  }

  lemma StillThereRow(w: World, env: Env, k: int, last: Hash, tip: Hash, o: Outpoint)
    requires ValidTree(w) && OnChain(w, last, tip) && k <= w.blocks[last].height
    requires AtMostOnce(w, HasTx(o.txid)) && AtMostOnce(w, Spends(o))
    ensures AddedAt(w, env, k, last, o).Some? ==> AddedAt(w, env, k, tip, o) == AddedAt(w, env, k, last, o)
    ensures SpendingAt(w, env, k, last, o).Some? ==> SpendingAt(w, env, k, tip, o) == SpendingAt(w, env, k, last, o)
  {
    StillThere(w, k, last, tip, HasTx(o.txid));
    StillThere(w, k, last, tip, Spends(o));
  }

  lemma ConfirmRow(w: World, env: Env, k: int, last: Hash, tip: Hash, u: UtxoTable, o: Outpoint)
    requires ValidTree(w) && OnChain(w, last, tip) && k <= w.blocks[last].height
    requires AtMostOnce(w, HasTx(o.txid)) && AtMostOnce(w, Spends(o)) && RowContent(w, env, u, o)
    requires HeightsOf(u, o).added == Spec(w, env, k, tip, o).added
    requires HeightsOf(u, o).spendable == Spec(w, env, k, last, o).spendable
    ensures var h := HeightsOf(Confirm(u, env, w.blocks[tip].height), o);
            && h.added == Spec(w, env, k, tip, o).added && h.spendable == Spec(w, env, k, tip, o).spendable
            && (HeightsOf(u, o).spending == Spec(w, env, k, tip, o).spending && HeightsOf(u, o).spent == Spec(w, env, k, last, o).spent
                ==> h == Spec(w, env, k, tip, o))
  {
    StillThereRow(w, env, k, last, tip, o);
    if o in u {
      ConfirmValues(u[o], AddedAt(w, env, k, last, o), SpendingAt(w, env, k, last, o), AddedAt(w, env, k, tip, o),
                    SpendingAt(w, env, k, tip, o), RowConf(w, env, o), env.dflt, w.blocks[last].height, w.blocks[tip].height);
    }
  }

  /** ConfirmUTXOs once at the end of a batch completes all the confirmations the batch is due. */
  lemma ConfirmExact(w: World, env: Env, base: Hash, last: Hash, tip: Hash, u: UtxoTable, api: set<Outpoint>)
    requires ValidWorld(w) && Mid(w, env, base, last, tip, u, api)
    ensures var u' := Confirm(u, env, w.blocks[tip].height);
            && Exact(w, env, base, tip, u', api)
            && (SpendExact(w, env, base, last, tip, u, api) ==> SpendExact(w, env, base, tip, tip, u', api))
  {
    OnChainTransitive(w, base, last, tip);
    var k := w.blocks[base].height;
    var u' := Confirm(u, env, w.blocks[tip].height);
    forall o | o !in api
      ensures HeightsOf(u', o).added == Spec(w, env, k, tip, o).added && HeightsOf(u', o).spendable == Spec(w, env, k, tip, o).spendable
      ensures HeightsOf(u, o).spending == Spec(w, env, k, tip, o).spending && HeightsOf(u, o).spent == Spec(w, env, k, last, o).spent
              ==> HeightsOf(u', o) == Spec(w, env, k, tip, o)
    {
      assert AtMostOnce(w, HasTx(o.txid)) && AtMostOnce(w, Spends(o));
      ConfirmRow(w, env, k, last, tip, u, o);
    }
    assert Content(w, env, base, u', api);
  }

  /** The table after a forward batch. */
  function Forward(w: World, env: Env, u: UtxoTable, from: Hash, path: seq<Hash>): UtxoTable
    requires ValidTree(w) && from in w.blocks && IsPath(w, from, path)
  {
    Confirm(Apply(u, env.owners, PathChanges(w, path)), env, w.blocks[Tip(from, path)].height)
  }

  /** A forward batch of any length lands on the heights of the longer chain. */
  lemma ForwardExact(w: World, env: Env, base: Hash, from: Hash, path: seq<Hash>, u: UtxoTable, api: set<Outpoint>)
    requires ValidWorld(w) && Exact(w, env, base, from, u, api) && IsPath(w, from, path)
    ensures Exact(w, env, base, Tip(from, path), Forward(w, env, u, from, path), api)
    ensures AllExact(w, env, base, from, u, api) ==> AllExact(w, env, base, Tip(from, path), Forward(w, env, u, from, path), api)
  {
    ApplyPath(w, env, base, from, path, u, api);
    ConfirmExact(w, env, base, from, Tip(from, path), Apply(u, env.owners, PathChanges(w, path)), api);
  }

  // ---------------------------------------------------------------- rollback

  /** The base after a rollback: going below it abandons everything that was followed. */
  function NewBase(w: World, base: Hash, target: Hash): Hash
    requires base in w.blocks && target in w.blocks
  {
    if w.blocks[target].height < w.blocks[base].height then target else base
  }

  lemma BornLower(w: World, base: Hash, lower: Hash, o: Outpoint)
    requires ValidTree(w) && OnChain(w, lower, base) && Born(w, base, o)
    ensures Born(w, lower, o)
  {
    var x :| x in w.blocks && OnChain(w, base, x) && w.blocks[base].height < w.blocks[x].height && Hits(w, x, HasTx(o.txid));
    OnChainTransitive(w, lower, base, x);
  }

  // The hit below the target is the one a rollback to it must bring back.
  lemma HitBelow(w: World, base: Hash, target: Hash, best: Hash, q: Query)
    requires ValidTree(w) && AtMostOnce(w, q) && OnChain(w, base, best) && OnChain(w, target, best)
    ensures var k, m := w.blocks[base].height, w.blocks[target].height;
            LastHit(w, w.blocks[NewBase(w, base, target)].height, target, q) ==
            if LastHit(w, k, best, q).Some? && LastHit(w, k, best, q).value <= m then LastHit(w, k, best, q) else None
  {
    var k, m := w.blocks[base].height, w.blocks[target].height;
    if k <= m {
      LastHitSplit(w, k, target, best, q);
      StillThere(w, k, target, best, q);
    }
  }

  lemma NewBaseOnChain(w: World, base: Hash, best: Hash, target: Hash)
    requires ValidTree(w) && OnChain(w, base, best) && OnChain(w, target, best)
    ensures OnChain(w, NewBase(w, base, target), base) && OnChain(w, NewBase(w, base, target), target)
  {
    if w.blocks[target].height < w.blocks[base].height {
      OnChainOrdered(w, target, base, best);
    } else {
      OnChainOrdered(w, base, target, best);
    }
  }

  // Reverting to height m, against the heights of the same output seen from m.
  lemma RevertValues(r: UtxoRow, a: Option<int>, s: Option<int>, conf: int, dflt: int, tip: int, m: int)
    requires m <= tip && (s.Some? ==> a.Some? && a.value <= s.value)
    requires r.heights.added == a && r.heights.spendable == ConfirmedAt(a, conf, tip)
    ensures var a' := if a.Some? && a.value <= m then a else None;
            var s' := if s.Some? && s.value <= m then s else None;
            var h := RevertRow(r, m).heights;
            && h.added == a' && h.spendable == ConfirmedAt(a', conf, m)
            && (r.heights == Stages(a, s, conf, dflt, tip) ==> (h == Stages(a', s', conf, dflt, m) <==> !Damaged(r.heights, m)))
  {
  }

  lemma RollbackRow(w: World, env: Env, base: Hash, best: Hash, target: Hash, u: UtxoTable, o: Outpoint)
    requires ValidTree(w) && OnChain(w, base, best) && OnChain(w, target, best)
    requires AtMostOnce(w, HasTx(o.txid)) && AtMostOnce(w, Spends(o))
    requires var s := Spec(w, env, w.blocks[base].height, best, o);
             && HeightsOf(u, o).added == s.added && HeightsOf(u, o).spendable == s.spendable
             && (s.spending.Some? ==> s.added.value <= s.spending.value)
    ensures var h := HeightsOf(Revert(u, w.blocks[target].height), o);
            var s := Spec(w, env, w.blocks[NewBase(w, base, target)].height, target, o);
            && h.added == s.added && h.spendable == s.spendable
            && (HeightsOf(u, o) == Spec(w, env, w.blocks[base].height, best, o) ==>
                  (h == s <==> !Damaged(HeightsOf(u, o), w.blocks[target].height)))
  {
    HitBelow(w, base, target, best, HasTx(o.txid));
    HitBelow(w, base, target, best, Spends(o));
    var k := w.blocks[base].height;
    if o in u {
      RevertValues(u[o], AddedAt(w, env, k, best, o), SpendingAt(w, env, k, best, o), RowConf(w, env, o), env.dflt,
                   w.blocks[best].height, w.blocks[target].height);
    }
  }

  lemma RollbackContent(w: World, env: Env, base: Hash, best: Hash, target: Hash, u: UtxoTable, api: set<Outpoint>)
    requires ValidTree(w) && OnChain(w, base, best) && OnChain(w, target, best) && Content(w, env, base, u, api)
    ensures Content(w, env, NewBase(w, base, target), Revert(u, w.blocks[target].height), api)
  {
    NewBaseOnChain(w, base, best, target);
    forall o | o in u && o !in api ensures Born(w, NewBase(w, base, target), o) {
      BornLower(w, base, NewBase(w, base, target), o);
    }
  }

  /** A rollback to an ancestor lands on the added and spendable heights of the shorter chain, with no further hypothesis. */
  lemma RollbackExact(w: World, env: Env, base: Hash, best: Hash, target: Hash, u: UtxoTable, api: set<Outpoint>)
    requires ValidWorld(w) && Exact(w, env, base, best, u, api) && OnChain(w, target, best)
    ensures Exact(w, env, NewBase(w, base, target), target, Revert(u, w.blocks[target].height), api)
  {
    NewBaseOnChain(w, base, best, target);
    RollbackContent(w, env, base, best, target, u, api);
    var k' := w.blocks[NewBase(w, base, target)].height;
    var u' := Revert(u, w.blocks[target].height);
    forall o | o !in api
      ensures HeightsOf(u', o).added == Spec(w, env, k', target, o).added
      ensures HeightsOf(u', o).spendable == Spec(w, env, k', target, o).spendable
    {
      assert AtMostOnce(w, HasTx(o.txid)) && AtMostOnce(w, Spends(o));
      SpentAfterAdded(w, env, w.blocks[base].height, best, o);
      RollbackRow(w, env, base, best, target, u, o);
    }
  }

  // A row a rollback to height m damages: spent on chain by m, but only spendable above it.
  predicate Damaged(h: Heights, m: int) {
    && h.spendable.Some? && h.spendable.value > m
    && h.spending.Some? && h.spending.value <= m
    && h.added.Some? && h.added.value <= m
  }

  /** Rolling back to an ancestor restores all four heights exactly when no row was spent at or
      below the target while becoming spendable only above it. */
  lemma RollbackAllExactIff(w: World, env: Env, base: Hash, best: Hash, target: Hash, u: UtxoTable, api: set<Outpoint>)
    requires ValidWorld(w) && AllExact(w, env, base, best, u, api) && OnChain(w, target, best)
    ensures AllExact(w, env, NewBase(w, base, target), target, Revert(u, w.blocks[target].height), api)
       <==> forall o | o in u && o !in api :: !Damaged(u[o].heights, w.blocks[target].height)
  {
    var m := w.blocks[target].height;
    var k' := w.blocks[NewBase(w, base, target)].height;
    var u' := Revert(u, m);
    RollbackExact(w, env, base, best, target, u, api);
    forall o | o !in api
      ensures HeightsOf(u', o) == Spec(w, env, k', target, o) <==> !(o in u && Damaged(u[o].heights, m))
    {
      AllExactHeights(w, env, base, best, u, api, o);
      assert AtMostOnce(w, HasTx(o.txid)) && AtMostOnce(w, Spends(o));
      SpentAfterAdded(w, env, w.blocks[base].height, best, o);
      RollbackRow(w, env, base, best, target, u, o);
    }
    if AllExact(w, env, NewBase(w, base, target), target, u', api) {
      forall o | o in u && o !in api ensures !Damaged(u[o].heights, m) {
        AllExactHeights(w, env, NewBase(w, base, target), target, u', api, o);
      }
    }
  }

  /** On one chain an output is not spent below its own creation. */
  lemma SpentAfterAdded(w: World, env: Env, k: int, tip: Hash, o: Outpoint)
    requires ValidWorld(w) && tip in w.blocks && -1 <= k
    ensures SpendingAt(w, env, k, tip, o).Some? ==> AddedAt(w, env, k, tip, o).value <= SpendingAt(w, env, k, tip, o).value
  {
    if SpendingAt(w, env, k, tip, o).Some? {
      LastHitFloor(w, k, -1, tip, HasTx(o.txid));
      LastHitFloor(w, k, -1, tip, Spends(o));
      SpendImpliesKnown(w, tip, o);
    }
  }

  /** With outputs spent only once they are spendable, no rollback damages a row. */
  lemma NeverDamaged(w: World, env: Env, base: Hash, best: Hash, u: UtxoTable, api: set<Outpoint>, m: int)
    requires ValidTree(w) && AllExact(w, env, base, best, u, api) && SpentWhenSpendable(w, env)
    ensures forall o | o in u && o !in api :: !Damaged(u[o].heights, m)
  {
    var k := w.blocks[base].height;
    forall o | o in u && o !in api ensures !Damaged(u[o].heights, m) {
      AllExactHeights(w, env, base, best, u, api, o);
      LastHitFloor(w, k, 0, best, HasTx(o.txid));
      LastHitFloor(w, k, 0, best, Spends(o));
      assert !SpentEarly(w, env, best, o);
    }
  }

  /** So it restores everything. */
  lemma RollbackAllExact(w: World, env: Env, base: Hash, best: Hash, target: Hash, u: UtxoTable, api: set<Outpoint>)
    requires ValidWorld(w) && AllExact(w, env, base, best, u, api) && OnChain(w, target, best)
    requires SpentWhenSpendable(w, env)
    ensures AllExact(w, env, NewBase(w, base, target), target, Revert(u, w.blocks[target].height), api)
  {
    NeverDamaged(w, env, base, best, u, api, w.blocks[target].height);
    RollbackAllExactIff(w, env, base, best, target, u, api);
  }
}
