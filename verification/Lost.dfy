/** What the tables hold of spends when outputs are spent before they are spendable: a rollback can lose a spend that stays
    on the chain, and nothing else goes wrong. */
module Lost {
  import opened Options
  import opened BlockTree
  import opened Ledger
  import opened Confluence

  /** The row has lost its spend: the chain spends the output and the table does not say so. */
  predicate SpendLost(w: World, env: Env, k: int, tip: Hash, h: Heights, o: Outpoint)
    requires ValidTree(w) && tip in w.blocks
  {
    h.spending == None && h.spent == None && SpendingAt(w, env, k, tip, o).Some?
  }

  predicate SpendRight(w: World, env: Env, k: int, last: Hash, tip: Hash, h: Heights, o: Outpoint)
    requires ValidTree(w) && last in w.blocks && tip in w.blocks
  {
    h.spending == Spec(w, env, k, tip, o).spending && h.spent == Spec(w, env, k, last, o).spent
  }

  /** The spending and spent heights of every row are those of the chain, or the spend is lost. */
  ghost predicate ExactOrLost(w: World, env: Env, base: Hash, best: Hash, u: UtxoTable, api: set<Outpoint>)
    requires ValidTree(w) && base in w.blocks && best in w.blocks
  {
    var k := w.blocks[base].height;
    forall o | o !in api :: SpendRight(w, env, k, best, best, HeightsOf(u, o), o) || SpendLost(w, env, k, best, HeightsOf(u, o), o)
  }

  lemma ExactIsSound(w: World, env: Env, base: Hash, best: Hash, u: UtxoTable, api: set<Outpoint>)
    requires ValidTree(w) && base in w.blocks && best in w.blocks
    ensures SpendExact(w, env, base, best, best, u, api)
       <==> ExactOrLost(w, env, base, best, u, api) && forall o | o !in api :: !SpendLost(w, env, w.blocks[base].height, best, HeightsOf(u, o), o)
  {
  }

  // ------------------------------------------------------------- forward batches

  // One block, on a row whose spend is on the chain already.
  lemma SpentBlock(w: World, env: Env, base: Hash, tip: Hash, b: Hash, u: UtxoTable, o: Outpoint)
    requires ValidWorld(w) && OnChain(w, base, tip) && b in w.blocks && b != w.genesis && w.blocks[b].prev == tip
    requires SpendingAt(w, env, w.blocks[base].height, tip, o).Some?
    ensures var u' := Apply(u, env.owners, BlockChanges(w, w.blocks[b].txids, w.blocks[b].height)); var k := w.blocks[base].height;
            && HeightsOf(u', o).spending == HeightsOf(u, o).spending && HeightsOf(u', o).spent == HeightsOf(u, o).spent
            && SpendingAt(w, env, k, b, o) == SpendingAt(w, env, k, tip, o)
  {
    var k, ids := w.blocks[base].height, w.blocks[b].txids;
    assert AtMostOnce(w, HasTx(o.txid)) && AtMostOnce(w, Spends(o));
    if o.vout != COINBASE_VOUT { BlockSpendsFollow(w, b, o); }
    BlockEffect(w, u, env.owners, ids, w.blocks[b].height, o);
    ChildExtends(w, base, tip, b);
    LastHitStep(w, base, tip, b, HasTx(o.txid));
    LastHitStep(w, base, tip, b, Spends(o));
    LastHitFloor(w, k, -1, tip, HasTx(o.txid));
    LastHitFloor(w, k, -1, tip, Spends(o));
  }

  lemma {:induction false} SpentPath(w: World, env: Env, base: Hash, from: Hash, path: seq<Hash>, u: UtxoTable, o: Outpoint)
    requires ValidWorld(w) && OnChain(w, base, from) && IsPath(w, from, path)
    requires SpendingAt(w, env, w.blocks[base].height, from, o).Some?
    ensures var u' := Apply(u, env.owners, PathChanges(w, path)); var k := w.blocks[base].height;
            && HeightsOf(u', o).spending == HeightsOf(u, o).spending && HeightsOf(u', o).spent == HeightsOf(u, o).spent
            && OnChain(w, base, Tip(from, path))
            && SpendingAt(w, env, k, Tip(from, path), o) == SpendingAt(w, env, k, from, o)
  {
    if path != [] {
      var n := |path| - 1;
      var b := w.blocks[path[n]];
      SpentPath(w, env, base, from, path[..n], u, o);
      ApplyConcat(u, env.owners, PathChanges(w, path[..n]), BlockChanges(w, b.txids, b.height));
      SpentBlock(w, env, base, Tip(from, path[..n]), path[n], Apply(u, env.owners, PathChanges(w, path[..n])), o);
      ChildExtends(w, base, Tip(from, path[..n]), path[n]);
    }
  }

  // On any other row a path notes the spends of the chain.
  lemma {:induction false} RightPath(w: World, env: Env, base: Hash, from: Hash, path: seq<Hash>, u: UtxoTable, api: set<Outpoint>, o: Outpoint)
    requires ValidWorld(w) && Exact(w, env, base, from, u, api) && IsPath(w, from, path) && o !in api
    requires HeightsOf(u, o).spending == SpendingAt(w, env, w.blocks[base].height, from, o)
    ensures var u' := Apply(u, env.owners, PathChanges(w, path));
            && HeightsOf(u', o).spending == SpendingAt(w, env, w.blocks[base].height, Tip(from, path), o)
            && HeightsOf(u', o).spent == HeightsOf(u, o).spent
  {
    if path != [] {
      var n := |path| - 1;
      var b := w.blocks[path[n]];
      RightPath(w, env, base, from, path[..n], u, api, o);
      ApplyPath(w, env, base, from, path[..n], u, api);
      ApplyConcat(u, env.owners, PathChanges(w, path[..n]), BlockChanges(w, b.txids, b.height));
      OneRowOneBlock(w, env, base, from, Tip(from, path[..n]), path[n], Apply(u, env.owners, PathChanges(w, path[..n])), api, o);
    }
  }

  lemma ConfirmLost(u: UtxoTable, env: Env, tip: int, o: Outpoint)
    requires HeightsOf(u, o).spending == None && HeightsOf(u, o).spent == None
    ensures HeightsOf(Confirm(u, env, tip), o).spending == None && HeightsOf(Confirm(u, env, tip), o).spent == None
  {
  }

  // A path and the confirmations after it, on a row that is right.
  lemma ForwardRight(w: World, env: Env, base: Hash, from: Hash, path: seq<Hash>, u: UtxoTable, api: set<Outpoint>, o: Outpoint)
    requires ValidWorld(w) && Exact(w, env, base, from, u, api) && IsPath(w, from, path) && o !in api
    requires SpendRight(w, env, w.blocks[base].height, from, from, HeightsOf(u, o), o)
    ensures HeightsOf(Forward(w, env, u, from, path), o) == Spec(w, env, w.blocks[base].height, Tip(from, path), o)
  {
    var mid, tip := Apply(u, env.owners, PathChanges(w, path)), Tip(from, path);
    RightPath(w, env, base, from, path, u, api, o);
    ApplyPath(w, env, base, from, path, u, api);
    assert AtMostOnce(w, HasTx(o.txid)) && AtMostOnce(w, Spends(o));
    hide Apply, Confirm, ValidWorld, AncestorAt, LastHit;
    ConfirmRow(w, env, w.blocks[base].height, from, tip, mid, o);
  }

  /** A forward batch notes every spend it holds, whatever was lost before, and what was lost stays lost. */
  lemma ForwardRow(w: World, env: Env, base: Hash, from: Hash, path: seq<Hash>, u: UtxoTable, api: set<Outpoint>, o: Outpoint)
    requires ValidWorld(w) && Exact(w, env, base, from, u, api) && ExactOrLost(w, env, base, from, u, api) && IsPath(w, from, path) && o !in api
    ensures var k, s := w.blocks[base].height, Spec(w, env, w.blocks[base].height, Tip(from, path), o);
            HeightsOf(Forward(w, env, u, from, path), o) ==
            if SpendLost(w, env, k, from, HeightsOf(u, o), o) then s.(spending := None, spent := None) else s
    ensures SpendLost(w, env, w.blocks[base].height, from, HeightsOf(u, o), o) ==>
              SpendLost(w, env, w.blocks[base].height, Tip(from, path), HeightsOf(Forward(w, env, u, from, path), o), o)
  {
    var k, tip := w.blocks[base].height, Tip(from, path);
    var u' := Forward(w, env, u, from, path);
    ForwardExact(w, env, base, from, path, u, api);
    hide ValidWorld, Apply, Confirm, AncestorAt, LastHit;
    if SpendLost(w, env, k, from, HeightsOf(u, o), o) {
      SpentPath(w, env, base, from, path, u, o);
      ConfirmLost(Apply(u, env.owners, PathChanges(w, path)), env, w.blocks[tip].height, o);
      assert HeightsOf(u', o).added == Spec(w, env, k, tip, o).added && HeightsOf(u', o).spendable == Spec(w, env, k, tip, o).spendable;
    } else {
      ForwardRight(w, env, base, from, path, u, api, o);
    }
  }

  lemma ForwardSound(w: World, env: Env, base: Hash, from: Hash, path: seq<Hash>, u: UtxoTable, api: set<Outpoint>)
    requires ValidWorld(w) && Exact(w, env, base, from, u, api) && ExactOrLost(w, env, base, from, u, api) && IsPath(w, from, path)
    ensures ExactOrLost(w, env, base, Tip(from, path), Forward(w, env, u, from, path), api)
  {
    var k, tip, u' := w.blocks[base].height, Tip(from, path), Forward(w, env, u, from, path);
    assert tip in w.blocks;
    forall o | o !in api
      ensures SpendRight(w, env, k, tip, tip, HeightsOf(u', o), o) || SpendLost(w, env, k, tip, HeightsOf(u', o), o)
    {
      hide ValidWorld, Forward, Spec;
      ForwardRow(w, env, base, from, path, u, api, o);
    }
  }

  // -------------------------------------------------------------------- rollback

  // Reverting to height m, on the spend heights.
  lemma RevertSpend(r: UtxoRow, a: Option<int>, s: Option<int>, conf: int, dflt: int, tip: int, m: int)
    requires m <= tip && (s.Some? ==> a.Some? && a.value <= s.value)
    requires r.heights.added == a && r.heights.spendable == ConfirmedAt(a, conf, tip)
    requires (r.heights.spending == s && r.heights.spent == ConfirmedAt(s, dflt, tip))
             || (r.heights.spending == None && r.heights.spent == None && s.Some?)
    ensures var s' := if s.Some? && s.value <= m then s else None; var h := RevertRow(r, m).heights;
            (h.spending == s' && h.spent == ConfirmedAt(s', dflt, m)) || (h.spending == None && h.spent == None && s'.Some?)
  {
  }

  lemma RollbackRowSound(w: World, env: Env, base: Hash, best: Hash, target: Hash, u: UtxoTable, o: Outpoint)
    requires ValidTree(w) && OnChain(w, base, best) && OnChain(w, target, best)
    requires AtMostOnce(w, HasTx(o.txid)) && AtMostOnce(w, Spends(o))
    requires var k, s := w.blocks[base].height, Spec(w, env, w.blocks[base].height, best, o);
             && HeightsOf(u, o).added == s.added && HeightsOf(u, o).spendable == s.spendable
             && (s.spending.Some? ==> s.added.value <= s.spending.value)
             && (SpendRight(w, env, k, best, best, HeightsOf(u, o), o) || SpendLost(w, env, k, best, HeightsOf(u, o), o))
    ensures var k' := w.blocks[NewBase(w, base, target)].height; var h := HeightsOf(Revert(u, w.blocks[target].height), o);
            SpendRight(w, env, k', target, target, h, o) || SpendLost(w, env, k', target, h, o)
  {
    HitBelow(w, base, target, best, HasTx(o.txid));
    HitBelow(w, base, target, best, Spends(o));
    var k := w.blocks[base].height;
    if o in u {
      RevertSpend(u[o], AddedAt(w, env, k, best, o), SpendingAt(w, env, k, best, o), RowConf(w, env, o), env.dflt,
                  w.blocks[best].height, w.blocks[target].height);
    }
  }

  /** A rollback to an ancestor restores every spend or loses it: it never leaves a wrong one. */
  lemma RollbackSound(w: World, env: Env, base: Hash, best: Hash, target: Hash, u: UtxoTable, api: set<Outpoint>)
    requires ValidWorld(w) && Exact(w, env, base, best, u, api) && ExactOrLost(w, env, base, best, u, api) && OnChain(w, target, best)
    ensures NewBase(w, base, target) in w.blocks
    ensures ExactOrLost(w, env, NewBase(w, base, target), target, Revert(u, w.blocks[target].height), api)
  {
    var k' := w.blocks[NewBase(w, base, target)].height;
    var u' := Revert(u, w.blocks[target].height);
    forall o | o !in api
      ensures SpendRight(w, env, k', target, target, HeightsOf(u', o), o) || SpendLost(w, env, k', target, HeightsOf(u', o), o)
    {
      assert AtMostOnce(w, HasTx(o.txid)) && AtMostOnce(w, Spends(o));
      SpentAfterAdded(w, env, w.blocks[base].height, best, o);
      RollbackRowSound(w, env, base, best, target, u, o);
    }
  }
}
