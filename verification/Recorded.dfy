/** Which outputs and inputs of a block are recorded, and that after any clean run all of the chain to the best block are:
    at which height, with which value, and where they are spent. */
module Recorded {
  import opened Options
  import opened BlockTree
  import opened Ledger
  import opened Confluence
  import opened Tables
  import opened Guarantees
  import opened Feed
  import opened Wallet
  import opened Chainstate
  import opened Service
  import Spend

  // ------------------------------------------------------ the changes of a block

  lemma {:induction false} SpendsListed(vin: seq<Outpoint>, height: int, id: TxId, ch: Change)
    ensures ch in SpendChanges(vin, height, id) <==>
            ch.Spent? && ch.height == height && ch.spender == id && ch.o in vin && ch.o.vout != 0xffff_ffff
  {
    if vin != [] {
      var n := |vin| - 1;
      assert vin == vin[..n] + [vin[n]];
      SpendsListed(vin[..n], height, id, ch);
    }
  }

  lemma {:induction false} NewsListed(vout: seq<TxOut>, height: int, id: TxId, ch: Change)
    ensures ch in NewChanges(vout, height, id) <==>
            ch.New? && ch.height == height && ch.o.txid == id && ch.o.vout < |vout|
            && vout[ch.o.vout].value == ch.value > 0 && vout[ch.o.vout].payee == Some(ch.address)
  {
    if vout != [] {
      var n := |vout| - 1;
      assert vout == vout[..n] + [vout[n]];
      NewsListed(vout[..n], height, id, ch);
    }
  }

  /** What a block is to change: an output of positive value to an address, and an input unless it is that of a coinbase
      transaction. */
  predicate IsChange(w: World, ids: seq<TxId>, height: int, ch: Change)
    requires forall i | 0 <= i < |ids| :: ids[i] in w.txs
  {
    match ch
    case New(o, value, address, h) =>
      && h == height && o.txid in ids && o.vout < |w.txs[o.txid].vout|
      && w.txs[o.txid].vout[o.vout].value == value > 0 && w.txs[o.txid].vout[o.vout].payee == Some(address)
    case Spent(o, h, id) => h == height && id in ids && o in w.txs[id].vin && o.vout != 0xffff_ffff
  }

  /** The changes of a block are exactly these. */
  lemma {:induction false} ChangesListed(w: World, ids: seq<TxId>, height: int, ch: Change)
    requires forall i | 0 <= i < |ids| :: ids[i] in w.txs
    ensures ch in BlockChanges(w, ids, height) <==> IsChange(w, ids, height, ch)
  {
    if ids != [] {
      var n := |ids| - 1;
      assert ids == ids[..n] + [ids[n]];
      hide SpendChanges, NewChanges, Pays;
      ChangesListed(w, ids[..n], height, ch);
      SpendsListed(w.txs[ids[n]].vin, height, ids[n], ch);
      NewsListed(w.txs[ids[n]].vout, height, ids[n], ch);
    }
  }

  lemma ChangesAre(w: World, ids: seq<TxId>, height: int, before: seq<Change>)
    requires forall i | 0 <= i < |ids| :: ids[i] in w.txs
    ensures forall ch :: ch in before + BlockChanges(w, ids, height) <==> ch in before || IsChange(w, ids, height, ch)
  {
    hide BlockChanges, IsChange;
    forall ch ensures ch in before + BlockChanges(w, ids, height) <==> ch in before || IsChange(w, ids, height, ch) {
      ChangesListed(w, ids, height, ch);
    }
  }

  // ----------------------------------------------------------- change of payments

  // The row of a payment's change, where the chain has its transaction: added there.
  predicate AddedThere(w: World, k: int, best: Hash, h: Heights, o: Outpoint)
    requires ValidTree(w) && best in w.blocks
  {
    var at := LastHit(w, k, best, HasTx(o.txid));
    at.Some? ==> h.added == at
  }

  // And where the chain spends it: spent there.
  predicate SpentThere(w: World, k: int, best: Hash, h: Heights, o: Outpoint)
    requires ValidTree(w) && best in w.blocks
  {
    var at := LastHit(w, k, best, Spends(o));
    LastHit(w, k, best, HasTx(o.txid)).Some? && at.Some? ==> h.spending == at
  }

  ghost predicate ChangeAdded(w: World, s: State)
    requires ValidTree(w)
  {
    && s.base in w.blocks && s.db.chain.bestHash in w.blocks
    && forall o | o in s.api :: o in s.db.utxo && AddedThere(w, w.blocks[s.base].height, s.db.chain.bestHash, s.db.utxo[o].heights, o)
  }

  ghost predicate ChangeSpent(w: World, s: State)
    requires ValidTree(w)
  {
    && s.base in w.blocks && s.db.chain.bestHash in w.blocks
    && forall o | o in s.api :: o in s.db.utxo && SpentThere(w, w.blocks[s.base].height, s.db.chain.bestHash, s.db.utxo[o].heights, o)
  }

  /** The move is no rollback that meets a row, change included, spent by its target and spendable only above it. */
  predicate Spares(w: World, s: State, mv: Move) {
    (mv.Rollback? || mv.Resync?) && mv.target in w.blocks ==>
      forall o | o in s.db.utxo :: !Damaged(s.db.utxo[o].heights, w.blocks[mv.target].height)
  }

  lemma UnfoldAbove(w: World, k: int, b: Hash, q: Query)
    requires ValidTree(w) && b in w.blocks && b != w.genesis && k < w.blocks[b].height
    ensures LastHit(w, k, b, q) == if Hits(w, b, q) then Some(w.blocks[b].height) else LastHit(w, k, w.blocks[b].prev, q)
  {
  }

  // What the chain creates in b it has not spent before.
  lemma NotSpentBefore(w: World, k: int, b: Hash, o: Outpoint)
    requires ValidWorld(w) && b in w.blocks && b != w.genesis && Hits(w, b, HasTx(o.txid))
    ensures LastHit(w, k, w.blocks[b].prev, Spends(o)) == None
  {
    var p := w.blocks[b].prev;
    var low := if k < -1 then k else -1;
    assert AtMostOnce(w, HasTx(o.txid));
    LastHitFloor(w, k, low, p, Spends(o));
    LastHitFloor(w, -1, low, p, Spends(o));
    if LastHit(w, -1, p, Spends(o)).Some? { SpendImpliesKnown(w, p, o); }
  }

  lemma ChangeBlock(w: World, env: Env, k: int, b: Hash, u: UtxoTable, o: Outpoint)
    requires ValidWorld(w) && b in w.blocks && b != w.genesis && k < w.blocks[b].height && o in u && Owned(w, env, o)
    requires AddedThere(w, k, w.blocks[b].prev, u[o].heights, o)
    ensures var u' := Apply(u, env.owners, BlockChanges(w, w.blocks[b].txids, w.blocks[b].height));
            && o in u' && AddedThere(w, k, b, u'[o].heights, o)
            && (SpentThere(w, k, w.blocks[b].prev, u[o].heights, o) ==> SpentThere(w, k, b, u'[o].heights, o))
  {
    var ids := w.blocks[b].txids;
    if o.vout != COINBASE_VOUT { BlockSpendsFollow(w, b, o); }
    BlockEffect(w, u, env.owners, ids, w.blocks[b].height, o);
    UnfoldAbove(w, k, b, HasTx(o.txid));
    UnfoldAbove(w, k, b, Spends(o));
    if Hits(w, b, HasTx(o.txid)) { NotSpentBefore(w, k, b, o); }
    assert CreatedBy(w, ids, o, env.owners) <==> Hits(w, b, HasTx(o.txid));
  }

  lemma {:induction false} ChangePath(w: World, env: Env, k: int, from: Hash, path: seq<Hash>, u: UtxoTable, o: Outpoint)
    requires ValidWorld(w) && from in w.blocks && IsPath(w, from, path) && k <= w.blocks[from].height
    requires o in u && Owned(w, env, o) && AddedThere(w, k, from, u[o].heights, o)
    ensures w.blocks[from].height <= w.blocks[Tip(from, path)].height
    ensures var u' := Apply(u, env.owners, PathChanges(w, path));
            && o in u' && AddedThere(w, k, Tip(from, path), u'[o].heights, o)
            && (SpentThere(w, k, from, u[o].heights, o) ==> SpentThere(w, k, Tip(from, path), u'[o].heights, o))
  {
    if path != [] {
      var n := |path| - 1;
      var b := w.blocks[path[n]];
      hide ValidWorld, Owned, BlockChanges, AddedThere, SpentThere;
      ChangePath(w, env, k, from, path[..n], u, o);
      ApplyConcat(u, env.owners, PathChanges(w, path[..n]), BlockChanges(w, b.txids, b.height));
      assert w.blocks[path[n]].height == w.blocks[w.blocks[path[n]].prev].height + 1 by { assert ValidTree(w); }
      ChangeBlock(w, env, k, path[n], Apply(u, env.owners, PathChanges(w, path[..n])), o);
    }
  }

  lemma ConfirmSame(u: UtxoTable, env: Env, tip: int, o: Outpoint)
    requires o in u
    ensures var h, h' := u[o].heights, Confirm(u, env, tip)[o].heights; h'.added == h.added && h'.spending == h.spending
  {
  }

  lemma {:induction false} NoSuchTx(w: World, k: int, tip: Hash, id: TxId)
    requires ValidTree(w) && tip in w.blocks && id !in w.txs
    ensures LastHit(w, k, tip, HasTx(id)) == None
    decreases w.blocks[tip].height
  {
    if w.blocks[tip].height > k && tip != w.genesis { NoSuchTx(w, k, w.blocks[tip].prev, id); }
    assert id !in w.blocks[tip].txids;
  }

  lemma ChangeForward(w: World, env: Env, k: int, from: Hash, path: seq<Hash>, u: UtxoTable, api: set<Outpoint>, o: Outpoint)
    requires ValidWorld(w) && from in w.blocks && IsPath(w, from, path) && k <= w.blocks[from].height
    requires RowsOk(w, env, u, api) && o in api && o in u && AddedThere(w, k, from, u[o].heights, o)
    ensures var u' := Confluence.Forward(w, env, u, from, path);
            && o in u' && AddedThere(w, k, Tip(from, path), u'[o].heights, o)
            && (SpentThere(w, k, from, u[o].heights, o) ==> SpentThere(w, k, Tip(from, path), u'[o].heights, o))
  {
    var tip := Tip(from, path);
    ForwardKeepsContent(w, env, from, path, u, api);
    if o.txid in w.txs {
      assert ApiRow(w, env, u[o], o) && Owned(w, env, o);
      hide ValidWorld, Apply, Confirm, IsPath;
      ChangePath(w, env, k, from, path, u, o);
      ConfirmSame(Apply(u, env.owners, PathChanges(w, path)), env, w.blocks[tip].height, o);
    } else {
      NoSuchTx(w, k, tip, o.txid);
    }
  }

  // A rollback to an ancestor: what is above the target goes, the rest stays.
  lemma ChangeRevert(w: World, base: Hash, best: Hash, target: Hash, u: UtxoTable, o: Outpoint)
    requires ValidWorld(w) && OnChain(w, base, best) && OnChain(w, target, best) && o in u
    requires AddedThere(w, w.blocks[base].height, best, u[o].heights, o)
    ensures var k', u' := w.blocks[NewBase(w, base, target)].height, Revert(u, w.blocks[target].height);
            && o in u' && AddedThere(w, k', target, u'[o].heights, o)
            && (SpentThere(w, w.blocks[base].height, best, u[o].heights, o) && !Damaged(u[o].heights, w.blocks[target].height) ==>
                  SpentThere(w, k', target, u'[o].heights, o))
  {
    assert AtMostOnce(w, HasTx(o.txid)) && AtMostOnce(w, Spends(o));
    HitBelow(w, base, target, best, HasTx(o.txid));
    HitBelow(w, base, target, best, Spends(o));
    assert Revert(u, w.blocks[target].height)[o] == RevertRow(u[o], w.blocks[target].height);
  }

  // ---------------------------------------------------------------- moves and runs

  lemma ChangeFollows(w: World, dflt: int, s: State, mv: Move)
    requires ValidWorld(w) && Good(w, dflt, s) && mv.Forward? && Allowed(w, dflt, s, mv) && ChangeAdded(w, s)
    ensures var s' := Next(w, dflt, s, mv); ChangeAdded(w, s') && (ChangeSpent(w, s) ==> ChangeSpent(w, s'))
  {
    assert ValidTree(w) && RowsOk(w, EnvOf(s.db, dflt), s.db.utxo, s.api) && OnChain(w, s.base, s.db.chain.bestHash);
    ForwardShape(w, dflt, s, mv);
    ForwardRows(w, dflt, s, mv);
    hide Good, RowsOk, AddedThere, SpentThere, ValidWorld, ValidTree, Reports, FreshSeqs, Next, AncestorAt, Confluence.Forward;
    var s', from := Next(w, dflt, s, mv), s.db.chain.bestHash;
    forall o | o in s.api
      ensures o in s'.db.utxo && AddedThere(w, w.blocks[s.base].height, s'.db.chain.bestHash, s'.db.utxo[o].heights, o)
      ensures ChangeSpent(w, s) ==> SpentThere(w, w.blocks[s.base].height, s'.db.chain.bestHash, s'.db.utxo[o].heights, o)
    {
      ChangeForward(w, EnvOf(s.db, dflt), w.blocks[s.base].height, from, mv.path, s.db.utxo, s.api, o);
    }
  }

  lemma ChangeRolled(w: World, dflt: int, s: State, mv: Move)
    requires ValidWorld(w) && Good(w, dflt, s) && (mv.Rollback? || mv.Resync?) && Allowed(w, dflt, s, mv) && Clean(w, dflt, s, mv)
    requires ChangeAdded(w, s)
    ensures var s' := Next(w, dflt, s, mv); ChangeAdded(w, s') && (ChangeSpent(w, s) && Spares(w, s, mv) ==> ChangeSpent(w, s'))
  {
    AncestorTarget(w, dflt, s, mv);
    assert OnChain(w, s.base, s.db.chain.bestHash);
    hide Good, AddedThere, SpentThere, ValidWorld, ValidTree, RollbackReports, AncestorAt, Damaged, OnChain, Revert;
    forall o | o in s.api { ChangeRevert(w, s.base, s.db.chain.bestHash, mv.target, s.db.utxo, o); }
  }

  // Change is inserted before the chain has it.
  lemma ChangeInserted(w: World, dflt: int, s: State, mv: Move)
    requires ValidTree(w) && Good(w, dflt, s) && mv.InsertChange? && Allowed(w, dflt, s, mv) && ChangeAdded(w, s)
    ensures LastHit(w, w.blocks[s.base].height, s.db.chain.bestHash, HasTx(mv.o.txid)) == None
  {
    var o, k, best := mv.o, w.blocks[s.base].height, s.db.chain.bestHash;
    if o.txid in w.txs {
      assert Owned(w, EnvOf(s.db, dflt), o) && o !in s.api;
      assert HeightsOf(s.db.utxo, o).added == Spec(w, EnvOf(s.db, dflt), k, best, o).added;
    } else {
      NoSuchTx(w, k, best, o.txid);
    }
  }

  lemma ChangeJoins(w: World, dflt: int, s: State, mv: Move)
    requires ValidTree(w) && Good(w, dflt, s) && mv.InsertChange? && Allowed(w, dflt, s, mv) && ChangeAdded(w, s)
    ensures var s' := Next(w, dflt, s, mv); ChangeAdded(w, s') && (ChangeSpent(w, s) ==> ChangeSpent(w, s'))
  {
    ChangeInserted(w, dflt, s, mv);
    hide Good, ValidTree, LastHit, ApiRow;
  }

  lemma ChangePays(w: World, dflt: int, s: State, mv: Move)
    requires ValidTree(w) && Allowed(w, dflt, s, mv) && ChangeAdded(w, s)
    requires mv.ReserveUtxo? || mv.InsertPayment? || mv.SetTxid?
    ensures var s' := Next(w, dflt, s, mv); ChangeAdded(w, s') && (ChangeSpent(w, s) ==> ChangeSpent(w, s'))
  {
    hide ValidTree, AddedThere, SpentThere;
  }

  lemma ChangeElse(w: World, dflt: int, s: State, mv: Move)
    requires ValidTree(w) && Allowed(w, dflt, s, mv) && ChangeAdded(w, s)
    requires mv.KeeperBatch? || mv.CreateAccount? || mv.CreateInvoice?
    ensures var s' := Next(w, dflt, s, mv); ChangeAdded(w, s') && (ChangeSpent(w, s) ==> ChangeSpent(w, s'))
  {
    hide ValidTree, AddedThere, SpentThere, CalcBalance, KeeperEvents;
  }

  lemma ChangeMove(w: World, dflt: int, s: State, mv: Move)
    requires ValidWorld(w) && Good(w, dflt, s) && Allowed(w, dflt, s, mv) && Clean(w, dflt, s, mv) && ChangeAdded(w, s)
    ensures var s' := Next(w, dflt, s, mv); ChangeAdded(w, s') && (ChangeSpent(w, s) && Spares(w, s, mv) ==> ChangeSpent(w, s'))
  {
    assert ValidTree(w);
    hide ValidWorld, ValidTree, Good, Allowed, Next, Clean, ChangeAdded, ChangeSpent, Spares;
    match mv
    case Forward(_, _, _, _) => ChangeFollows(w, dflt, s, mv);
    case Rollback(_, _, _) => ChangeRolled(w, dflt, s, mv);
    case Resync(_, _, _) => ChangeRolled(w, dflt, s, mv);
    case KeeperBatch(_) => ChangeElse(w, dflt, s, mv);
    case CreateAccount(_, _) => ChangeElse(w, dflt, s, mv);
    case CreateInvoice(_, _, _) => ChangeElse(w, dflt, s, mv);
    case InsertChange(_, _, _, _) => ChangeJoins(w, dflt, s, mv);
    case _ => ChangePays(w, dflt, s, mv);
  }

  ghost predicate SparingRun(w: World, dflt: int, s: State, run: seq<Move>)
    requires ValidTree(w) && AllowedRun(w, dflt, s, run)
    decreases |run|
  {
    run == [] || (Spares(w, s, run[0]) && SparingRun(w, dflt, Next(w, dflt, s, run[0]), run[1..]))
  }

  lemma {:induction false} ChangeRun(w: World, dflt: int, s: State, run: seq<Move>)
    requires ValidWorld(w) && Good(w, dflt, s) && ChangeAdded(w, s) && AllowedRun(w, dflt, s, run) && CleanRun(w, dflt, s, run)
    ensures ChangeAdded(w, RunFrom(w, dflt, s, run))
    ensures ChangeSpent(w, s) && SparingRun(w, dflt, s, run) ==> ChangeSpent(w, RunFrom(w, dflt, s, run))
    ensures SparingRun(w, dflt, s, run) ==> UndamagedRun(w, dflt, s, run)
    decreases |run|
  {
    hide Good, Allowed, Next, Clean, ChangeAdded, ChangeSpent, Damaged;
    if run != [] {
      MoveKeeps(w, dflt, s, run[0]);
      ChangeMove(w, dflt, s, run[0]);
      ChangeRun(w, dflt, Next(w, dflt, s, run[0]), run[1..]);
    }
  }

  // ------------------------------------------------------------- what the tables hold

  lemma HitOnChain(w: World, k: int, x: Hash, best: Hash, q: Query)
    requires ValidTree(w) && AtMostOnce(w, q) && OnChain(w, x, best) && Hits(w, x, q) && k < w.blocks[x].height
    ensures LastHit(w, k, best, q) == Some(w.blocks[x].height)
  {
    LastHitSplit(w, k, x, best, q);
    NoSecondHit(w, k, x, best, q);
  }

  /** Block x is on the chain to the best block, above the block following started at. */
  predicate Followed(w: World, s: State, x: Hash)
    requires ValidTree(w) && s.base in w.blocks
  {
    OnChain(w, x, s.db.chain.bestHash) && w.blocks[x].height > w.blocks[s.base].height
  }

  // Output o of a transaction in x has a positive value and goes to address a.
  predicate PaidIn(w: World, x: Hash, o: Outpoint, a: Address)
    requires ValidTree(w) && x in w.blocks
  {
    && o.txid in w.blocks[x].txids && o.vout < |w.txs[o.txid].vout|
    && w.txs[o.txid].vout[o.vout].value > 0 && w.txs[o.txid].vout[o.vout].payee == Some(a)
  }

  // An input of a transaction in y spends o.
  predicate SpentIn(w: World, y: Hash, o: Outpoint)
    requires ValidTree(w) && y in w.blocks
  {
    o.vout != 0xffff_ffff && exists id | id in w.blocks[y].txids :: o in w.txs[id].vin
  }

  // The confirmations that an output at the address needs.
  function Needed(db: Db, dflt: int, a: Address): int {
    if a in db.invoice then db.invoice[a].confirmations else dflt
  }

  // What a good state says of one followed block, for the table alone.
  lemma FollowedRow(w: World, dflt: int, s: State, x: Hash, o: Outpoint, a: Address)
    requires ValidWorld(w) && Good(w, dflt, s) && ChangeAdded(w, s) && Followed(w, s, x) && a in s.db.address
    ensures var env, best := EnvOf(s.db, dflt), s.db.chain.bestHash;
            && ValidTree(w) && x in w.blocks && s.base in w.blocks && best in w.blocks
            && AtMostOnce(w, HasTx(o.txid)) && Exact(w, env, s.base, best, s.db.utxo, s.api) && RowsOk(w, env, s.db.utxo, s.api)
            && OnChain(w, x, best) && w.blocks[x].height > w.blocks[s.base].height && a in env.owners && ConfOf(env, a) == Needed(s.db, dflt, a)
            && (o in s.api ==> o in s.db.utxo && AddedThere(w, w.blocks[s.base].height, best, s.db.utxo[o].heights, o))
            && s.db.chain.bestHeight == w.blocks[best].height
  {
    hide Exact, RowsOk, AtMostOnce, AncestorAt, AddedThere, TablesOk, Bounded, SeqsOk, NothingMissed, LogOk;
  }

  lemma FollowedSpend(w: World, dflt: int, s: State, x: Hash, y: Hash, o: Outpoint, a: Address)
    requires ValidWorld(w) && Matches(w, dflt, s) && ChangeSpent(w, s) && Followed(w, s, x) && Followed(w, s, y) && a in s.db.address
    ensures var env, best := EnvOf(s.db, dflt), s.db.chain.bestHash;
            && ValidTree(w) && s.base in w.blocks && best in w.blocks && AtMostOnce(w, HasTx(o.txid)) && AtMostOnce(w, Spends(o))
            && SpendExact(w, env, s.base, best, best, s.db.utxo, s.api)
            && x in w.blocks && y in w.blocks
            && OnChain(w, x, best) && w.blocks[x].height > w.blocks[s.base].height && a in env.owners && env.dflt == dflt
            && OnChain(w, y, best) && w.blocks[y].height > w.blocks[s.base].height
            && (o in s.api ==> o in s.db.utxo && SpentThere(w, w.blocks[s.base].height, best, s.db.utxo[o].heights, o))
            && s.db.chain.bestHeight == w.blocks[best].height
  {
    hide Exact, SpendExact, RowsOk, AtMostOnce, AncestorAt, SpentThere, TablesOk, Bounded, SeqsOk, NothingMissed, LogOk;
  }

  // The same of the table alone, given the rows of change.
  lemma PaidRow(w: World, env: Env, base: Hash, best: Hash, u: UtxoTable, api: set<Outpoint>, x: Hash, o: Outpoint, a: Address)
    requires ValidTree(w) && AtMostOnce(w, HasTx(o.txid)) && Exact(w, env, base, best, u, api) && RowsOk(w, env, u, api)
    requires x in w.blocks && base in w.blocks && best in w.blocks
    requires OnChain(w, x, best) && w.blocks[x].height > w.blocks[base].height && PaidIn(w, x, o, a) && a in env.owners
    requires o in api ==> o in u && AddedThere(w, w.blocks[base].height, best, u[o].heights, o)
    ensures && o in u && u[o].heights.added == Some(w.blocks[x].height) && u[o].value == w.txs[o.txid].vout[o.vout].value && u[o].address == a
            && (var due := w.blocks[x].height + ConfOf(env, a);
                o !in api ==> u[o].heights.spendable == if due <= w.blocks[best].height then Some(due) else None)
  {
    hide *;
    var k := w.blocks[base].height;
    PaidOwned(w, env, x, o, a);
    HitOnChain(w, k, x, best, HasTx(o.txid));
    AddedHeights(w, env, k, best, u, o);
    if o !in api { ExactAt(w, env, base, best, u, api, o); }
    PaidContent(w, env, u, api, x, o, a);
  }

  lemma ExactAt(w: World, env: Env, base: Hash, best: Hash, u: UtxoTable, api: set<Outpoint>, o: Outpoint)
    requires ValidTree(w) && Exact(w, env, base, best, u, api) && o !in api
    ensures base in w.blocks && best in w.blocks
    ensures var h := Spec(w, env, w.blocks[base].height, best, o);
            h.added.Some? ==> o in u && u[o].heights.added == h.added && u[o].heights.spendable == h.spendable
  {
    assert HeightsOf(u, o).added == Spec(w, env, w.blocks[base].height, best, o).added;
    assert HeightsOf(u, o).spendable == Spec(w, env, w.blocks[base].height, best, o).spendable;
    hide Spec;
  }

  // What the chain says of an output it creates.
  lemma AddedHeights(w: World, env: Env, k: int, best: Hash, u: UtxoTable, o: Outpoint)
    requires ValidTree(w) && best in w.blocks && Owned(w, env, o) && LastHit(w, k, best, HasTx(o.txid)).Some?
    ensures var h, due := Spec(w, env, k, best, o), LastHit(w, k, best, HasTx(o.txid)).value + RowConf(w, env, o);
            h.added == LastHit(w, k, best, HasTx(o.txid)) && h.spendable == if due <= w.blocks[best].height then Some(due) else None
    ensures o in u ==> (AddedThere(w, k, best, u[o].heights, o) <==> u[o].heights.added == LastHit(w, k, best, HasTx(o.txid)))
  {
    hide LastHit, Owned;
  }

  lemma PaidContent(w: World, env: Env, u: UtxoTable, api: set<Outpoint>, x: Hash, o: Outpoint, a: Address)
    requires ValidTree(w) && x in w.blocks && PaidIn(w, x, o, a) && o in u && RowsOk(w, env, u, api)
    ensures o.txid in w.txs && o.vout < |w.txs[o.txid].vout| && u[o].value == w.txs[o.txid].vout[o.vout].value && u[o].address == a
  {
  }

  /** In every good state: an output to a known address, in a followed block, has a row with the height of that block and
      its value, and if no payment has inserted it as change, it is spendable as soon as it has the confirmations it needs. */
  lemma PaidIsRecorded(w: World, dflt: int, s: State, x: Hash, o: Outpoint, a: Address)
    requires ValidWorld(w) && Good(w, dflt, s) && ChangeAdded(w, s) && Followed(w, s, x) && PaidIn(w, x, o, a) && a in s.db.address
    ensures var u, due := s.db.utxo, w.blocks[x].height + Needed(s.db, dflt, a);
            && o in u && u[o].heights.added == Some(w.blocks[x].height) && u[o].value == w.txs[o.txid].vout[o.vout].value && u[o].address == a
            && (o !in s.api ==> u[o].heights.spendable == if due <= s.db.chain.bestHeight then Some(due) else None)
  {
    hide *;
    FollowedRow(w, dflt, s, x, o, a);
    PaidRow(w, EnvOf(s.db, dflt), s.base, s.db.chain.bestHash, s.db.utxo, s.api, x, o, a);
  }

  /** And no other output has a row that says so. */
  lemma RecordedIsPaid(w: World, dflt: int, s: State, o: Outpoint)
    requires ValidWorld(w) && Good(w, dflt, s) && o in s.db.utxo && o !in s.api && s.db.utxo[o].heights.added.Some?
    ensures exists x :: x in w.blocks && Followed(w, s, x) && PaidIn(w, x, o, s.db.utxo[o].address)
                        && s.db.utxo[o].heights.added == Some(w.blocks[x].height)
  {
    var env, k, best := EnvOf(s.db, dflt), w.blocks[s.base].height, s.db.chain.bestHash;
    assert ValidTree(w);
    assert HeightsOf(s.db.utxo, o).added == Spec(w, env, k, best, o).added;
    var x := HitBlock(w, k, best, HasTx(o.txid));
    assert PaidIn(w, x, o, s.db.utxo[o].address);
  }

  /** With confirmation counts that are not negative every receipt that is spendable became so above height 0. */
  lemma SpendableAboveZero(w: World, dflt: int, s: State)
    requires ValidWorld(w) && Good(w, dflt, s) && dflt >= 0 && forall a | a in s.db.invoice :: s.db.invoice[a].confirmations >= 0
    ensures Spend.NoLowHeights(s.db.utxo)
  {
    var u, env, k, best := s.db.utxo, EnvOf(s.db, dflt), w.blocks[s.base].height, s.db.chain.bestHash;
    forall o | o in u && !u[o].internal && u[o].heights.spendable.Some? ensures u[o].heights.spendable.value > 0 {
      assert o !in s.api;
      assert HeightsOf(u, o).spendable == Spec(w, env, k, best, o).spendable;
    }
  }

  lemma {:induction false} HitBlock(w: World, k: int, best: Hash, q: Query) returns (x: Hash)
    requires ValidTree(w) && best in w.blocks && LastHit(w, k, best, q).Some?
    ensures OnChain(w, x, best) && Hits(w, x, q) && LastHit(w, k, best, q) == Some(w.blocks[x].height) && w.blocks[x].height > k
    decreases w.blocks[best].height
  {
    if Hits(w, best, q) {
      x := best;
    } else {
      x := HitBlock(w, k, w.blocks[best].prev, q);
    }
  }

  lemma SpentHits(w: World, y: Hash, o: Outpoint)
    requires ValidTree(w) && y in w.blocks && SpentIn(w, y, o)
    ensures Hits(w, y, Spends(o))
  {
    var id :| id in w.blocks[y].txids && o in w.txs[id].vin;
    var i :| 0 <= i < |w.blocks[y].txids| && w.blocks[y].txids[i] == id;
  }

  lemma SpentRow(w: World, env: Env, base: Hash, best: Hash, u: UtxoTable, api: set<Outpoint>, x: Hash, y: Hash, o: Outpoint, a: Address)
    requires ValidTree(w) && AtMostOnce(w, HasTx(o.txid)) && AtMostOnce(w, Spends(o)) && base in w.blocks && best in w.blocks
    requires SpendExact(w, env, base, best, best, u, api)
    requires x in w.blocks && OnChain(w, x, best) && w.blocks[x].height > w.blocks[base].height && PaidIn(w, x, o, a) && a in env.owners
    requires y in w.blocks && OnChain(w, y, best) && w.blocks[y].height > w.blocks[base].height && SpentIn(w, y, o)
    requires o in u && (o in api ==> SpentThere(w, w.blocks[base].height, best, u[o].heights, o))
    ensures u[o].heights.spending == Some(w.blocks[y].height)
    ensures var due := w.blocks[y].height + env.dflt;
            o !in api ==> u[o].heights.spent == if due <= w.blocks[best].height then Some(due) else None
  {
    hide *;
    var k := w.blocks[base].height;
    PaidOwned(w, env, x, o, a);
    SpentHits(w, y, o);
    HitOnChain(w, k, x, best, HasTx(o.txid));
    HitOnChain(w, k, y, best, Spends(o));
    SpendHeights(w, env, k, best, u, o);
    if o !in api { SpendExactAt(w, env, base, best, u, api, o); }
  }

  lemma PaidOwned(w: World, env: Env, x: Hash, o: Outpoint, a: Address)
    requires ValidTree(w) && x in w.blocks && PaidIn(w, x, o, a) && a in env.owners
    ensures Owned(w, env, o) && RowConf(w, env, o) == ConfOf(env, a) && Hits(w, x, HasTx(o.txid))
  {
  }

  lemma SpendExactAt(w: World, env: Env, base: Hash, best: Hash, u: UtxoTable, api: set<Outpoint>, o: Outpoint)
    requires ValidTree(w) && base in w.blocks && best in w.blocks && SpendExact(w, env, base, best, best, u, api) && o !in api && o in u
    ensures var h := Spec(w, env, w.blocks[base].height, best, o); u[o].heights.spending == h.spending && u[o].heights.spent == h.spent
  {
    assert HeightsOf(u, o) == u[o].heights;
    hide Spec;
  }

  // What the chain says of an output it creates and spends.
  lemma SpendHeights(w: World, env: Env, k: int, best: Hash, u: UtxoTable, o: Outpoint)
    requires ValidTree(w) && best in w.blocks && Owned(w, env, o) && o in u
    requires LastHit(w, k, best, HasTx(o.txid)).Some? && LastHit(w, k, best, Spends(o)).Some?
    ensures var h, at := Spec(w, env, k, best, o), LastHit(w, k, best, Spends(o)).value;
            h.spending == Some(at) && h.spent == if at + env.dflt <= w.blocks[best].height then Some(at + env.dflt) else None
    ensures SpentThere(w, k, best, u[o].heights, o) <==> u[o].heights.spending == LastHit(w, k, best, Spends(o))
  {
    hide LastHit, Owned;
  }

  lemma SpentInGood(w: World, dflt: int, s: State, x: Hash, y: Hash, o: Outpoint, a: Address)
    requires ValidWorld(w) && Matches(w, dflt, s) && ChangeSpent(w, s) && o in s.db.utxo
    requires Followed(w, s, x) && PaidIn(w, x, o, a) && a in s.db.address && Followed(w, s, y) && SpentIn(w, y, o)
    ensures s.db.utxo[o].heights.spending == Some(w.blocks[y].height)
    ensures var due := w.blocks[y].height + dflt;
            o !in s.api ==> s.db.utxo[o].heights.spent == if due <= s.db.chain.bestHeight then Some(due) else None
  {
    hide *;
    FollowedSpend(w, dflt, s, x, y, o, a);
    SpentRow(w, EnvOf(s.db, dflt), s.base, s.db.chain.bestHash, s.db.utxo, s.api, x, y, o, a);
  }

  lemma MatchesGood(w: World, dflt: int, s: State)
    requires ValidWorld(w) && Matches(w, dflt, s)
    ensures Good(w, dflt, s)
  {
  }

  /** If all spends match, too: an input that spends such an output in a followed block has set its spending height, and if
      no payment has inserted the output, the spend is final as soon as it has the configured confirmations. */
  lemma SpentIsRecorded(w: World, dflt: int, s: State, x: Hash, y: Hash, o: Outpoint, a: Address)
    requires ValidWorld(w) && Matches(w, dflt, s) && ChangeAdded(w, s) && ChangeSpent(w, s)
    requires Followed(w, s, x) && PaidIn(w, x, o, a) && a in s.db.address && Followed(w, s, y) && SpentIn(w, y, o)
    ensures var u, due := s.db.utxo, w.blocks[y].height + dflt;
            && o in u && u[o].heights.spending == Some(w.blocks[y].height)
            && (o !in s.api ==> u[o].heights.spent == if due <= s.db.chain.bestHeight then Some(due) else None)
  {
    hide *;
    MatchesGood(w, dflt, s);
    PaidIsRecorded(w, dflt, s, x, o, a);
    SpentInGood(w, dflt, s, x, y, o, a);
  }

  // ------------------------------------------------------------- who has spent it

  // The row names a transaction that spends it, in a block at its spending height.
  ghost predicate SpenderNamed(w: World, r: UtxoRow, o: Outpoint)
    requires ValidTree(w)
  {
    match r.heights.spending
    case Some(h) => r.spendTx.Some? && exists x | x in w.blocks && w.blocks[x].height == h :: SpendsIn(w, x, r.spendTx.value, o)
    case None => true
  }

  predicate SpendsIn(w: World, x: Hash, id: TxId, o: Outpoint)
    requires ValidTree(w) && x in w.blocks
  {
    id in w.blocks[x].txids && o in w.txs[id].vin
  }

  ghost predicate SpendersNamed(w: World, s: State)
    requires ValidTree(w)
  {
    forall o | o in s.db.utxo :: SpenderNamed(w, s.db.utxo[o], o)
  }

  // Only a spend in the list sets a spending height, and with it the spender.
  lemma {:induction false} SpenderFrom(u: UtxoTable, owners: AddressTable, chs: seq<Change>, o: Outpoint)
    ensures var u' := Apply(u, owners, chs);
            o in u' && u'[o].heights.spending.Some? ==>
              || (o in u && u[o].heights.spending == u'[o].heights.spending && u[o].spendTx == u'[o].spendTx)
              || (u'[o].spendTx.Some? && Spent(o, u'[o].heights.spending.value, u'[o].spendTx.value) in chs)
  {
    if chs != [] {
      var n := |chs| - 1;
      SpenderFrom(u, owners, chs[..n], o);
      assert chs == chs[..n] + [chs[n]];
    }
  }

  lemma {:induction false} PathSpender(w: World, env: Env, from: Hash, path: seq<Hash>, u: UtxoTable, o: Outpoint)
    requires ValidTree(w) && from in w.blocks && IsPath(w, from, path) && (o in u ==> SpenderNamed(w, u[o], o))
    ensures var u' := Apply(u, env.owners, PathChanges(w, path)); o in u' ==> SpenderNamed(w, u'[o], o)
  {
    if path != [] {
      var n := |path| - 1;
      var b := w.blocks[path[n]];
      var chs := BlockChanges(w, b.txids, b.height);
      PathSpender(w, env, from, path[..n], u, o);
      var mid := Apply(u, env.owners, PathChanges(w, path[..n]));
      ApplyConcat(u, env.owners, PathChanges(w, path[..n]), chs);
      SpenderFrom(mid, env.owners, chs, o);
      var u' := Apply(mid, env.owners, chs);
      if o in u' && u'[o].spendTx.Some? && u'[o].heights.spending.Some? {
        var ch := Spent(o, u'[o].heights.spending.value, u'[o].spendTx.value);
        ChangesListed(w, b.txids, b.height, ch);
        if ch in chs { assert SpendsIn(w, path[n], u'[o].spendTx.value, o); }
      }
    }
  }

  lemma ConfirmSpender(w: World, u: UtxoTable, env: Env, tip: int, o: Outpoint)
    requires ValidTree(w) && o in u && SpenderNamed(w, u[o], o)
    ensures SpenderNamed(w, Confirm(u, env, tip)[o], o)
  {
    var r := Confirm(u, env, tip)[o];
    assert r.spendTx == u[o].spendTx && r.heights.spending == u[o].heights.spending;
  }

  lemma ForwardSpenders(w: World, dflt: int, s: State, mv: Move)
    requires ValidWorld(w) && StateOk(w, dflt, s) && mv.Forward? && Allowed(w, dflt, s, mv) && SpendersNamed(w, s)
    ensures SpendersNamed(w, Next(w, dflt, s, mv))
  {
    assert ValidTree(w) && RowsOk(w, EnvOf(s.db, dflt), s.db.utxo, s.api);
    ForwardRows(w, dflt, s, mv);
    hide StateOk, RowsOk, ValidWorld, ValidTree, Next, Allowed, SpenderNamed, Apply, Confirm, Kept;
    var env, from, u' := EnvOf(s.db, dflt), s.db.chain.bestHash, Next(w, dflt, s, mv).db.utxo;
    ForwardPath(w, dflt, s, mv);
    var mid := Apply(s.db.utxo, env.owners, PathChanges(w, mv.path));
    forall o | o in u' ensures SpenderNamed(w, u'[o], o) {
      PathSpender(w, env, from, mv.path, s.db.utxo, o);
      ConfirmKeepsContent(mid, env, w.blocks[Tip(from, mv.path)].height, o);
      ConfirmSpender(w, mid, env, w.blocks[Tip(from, mv.path)].height, o);
    }
  }

  lemma ForwardPath(w: World, dflt: int, s: State, mv: Move)
    requires ValidTree(w) && mv.Forward? && Allowed(w, dflt, s, mv)
    ensures s.db.chain.bestHash in w.blocks && IsPath(w, s.db.chain.bestHash, mv.path)
  {
    hide Reports;
  }

  lemma RevertSpender(w: World, u: UtxoTable, m: int, o: Outpoint)
    requires ValidTree(w) && o in u && SpenderNamed(w, u[o], o)
    ensures SpenderNamed(w, Revert(u, m)[o], o)
  {
    var r := Revert(u, m)[o];
    assert r == RevertRow(u[o], m);
    assert r.spendTx == u[o].spendTx && (r.heights.spending == None || r.heights.spending == u[o].heights.spending);
  }

  lemma ElseSpenders(w: World, dflt: int, s: State, mv: Move)
    requires ValidTree(w) && Allowed(w, dflt, s, mv) && !mv.Forward? && SpendersNamed(w, s)
    ensures SpendersNamed(w, Next(w, dflt, s, mv))
  {
    hide ValidTree, CalcBalance, KeeperEvents, RollbackReports, AncestorAt, Revert, SpendsIn;
    if mv.Rollback? || mv.Resync? {
      hide SpenderNamed;
      forall o | o in s.db.utxo { RevertSpender(w, s.db.utxo, w.blocks[mv.target].height, o); }
      RevertKeys(s.db.utxo, w.blocks[mv.target].height);
    }
  }

  lemma RevertKeys(u: UtxoTable, m: int)
    ensures Revert(u, m).Keys == u.Keys
  {
  }

  /** Over every run at all, every row with a spending height names a transaction that spends it, in a block at that height. */
  lemma {:induction false} RunSpenders(w: World, dflt: int, s: State, run: seq<Move>)
    requires ValidWorld(w) && StateOk(w, dflt, s) && SpendersNamed(w, s) && AllowedRun(w, dflt, s, run)
    ensures SpendersNamed(w, RunFrom(w, dflt, s, run))
    decreases |run|
  {
    hide StateOk, Allowed, Next, SpendersNamed;
    if run != [] {
      assert ValidTree(w);
      MoveStateOk(w, dflt, s, run[0]);
      if run[0].Forward? { ForwardSpenders(w, dflt, s, run[0]); } else { ElseSpenders(w, dflt, s, run[0]); }
      RunSpenders(w, dflt, Next(w, dflt, s, run[0]), run[1..]);
    }
  }

  /** After every clean run from an empty database, every output of positive value to a known address in a followed block has
      its row, with the height of the block and the value; and after every run in which no rollback damages a row, every input
      that spends one of them in a followed block has set its spending height. */
  lemma RunRecords(w: World, dflt: int, start: Hash, nextSeq: int, run: seq<Move>)
    requires ValidWorld(w) && start in w.blocks && nextSeq >= 1
    requires AllowedRun(w, dflt, Start(EmptyDb(w, start, nextSeq), start), run)
    requires CleanRun(w, dflt, Start(EmptyDb(w, start, nextSeq), start), run)
    ensures var s := RunFrom(w, dflt, Start(EmptyDb(w, start, nextSeq), start), run);
            && s.base in w.blocks
            && (forall x, o, a | x in w.blocks && Followed(w, s, x) && PaidIn(w, x, o, a) && a in s.db.address ::
                  && o in s.db.utxo && s.db.utxo[o].heights.added == Some(w.blocks[x].height)
                  && s.db.utxo[o].value == w.txs[o.txid].vout[o.vout].value && s.db.utxo[o].address == a)
            && (SparingRun(w, dflt, Start(EmptyDb(w, start, nextSeq), start), run) ==>
                  forall x, y, o, a | x in w.blocks && y in w.blocks && Followed(w, s, x) && PaidIn(w, x, o, a) && a in s.db.address
                                      && Followed(w, s, y) && SpentIn(w, y, o) ::
                    o in s.db.utxo && s.db.utxo[o].heights.spending == Some(w.blocks[y].height))
  {
    var s0 := Start(EmptyDb(w, start, nextSeq), start);
    var s := RunFrom(w, dflt, s0, run);
    StartGood(w, dflt, EmptyDb(w, start, nextSeq), start);
    assert ChangeAdded(w, s0) && ChangeSpent(w, s0);
    hide Good, SpendsOk, AllowedRun, CleanRun, RunFrom, SparingRun, UndamagedRun, ChangeAdded, ChangeSpent, Followed, PaidIn, SpentIn, ValidWorld;
    ChangeRun(w, dflt, s0, run);
    RunKeeps(w, dflt, s0, run);
    GoodBase(w, dflt, s);
    forall x, o, a | x in w.blocks && Followed(w, s, x) && PaidIn(w, x, o, a) && a in s.db.address
      ensures && o in s.db.utxo && s.db.utxo[o].heights.added == Some(w.blocks[x].height)
              && s.db.utxo[o].value == w.txs[o.txid].vout[o.vout].value && s.db.utxo[o].address == a
    {
      PaidIsRecorded(w, dflt, s, x, o, a);
    }
    if SparingRun(w, dflt, s0, run) {
      RunMatches(w, dflt, s0, run);
      forall x, y, o, a | x in w.blocks && y in w.blocks && Followed(w, s, x) && PaidIn(w, x, o, a) && a in s.db.address
                          && Followed(w, s, y) && SpentIn(w, y, o)
        ensures o in s.db.utxo && s.db.utxo[o].heights.spending == Some(w.blocks[y].height)
      {
        SpentIsRecorded(w, dflt, s, x, y, o, a);
      }
    }
  }
}