/** What every committed batch and every committed rollback keep, for the whole set of tables. */
module Guarantees {
  import opened Options
  import opened BlockTree
  import opened Ledger
  import opened Confluence
  import opened Tables

  // ------------------------------------------------- no height above the tip

  predicate AtMost(h: Option<int>, tip: int) {
    h.Some? ==> h.value <= tip
  }

  predicate HeightsAtMost(h: Heights, tip: int) {
    AtMost(h.added, tip) && AtMost(h.spendable, tip) && AtMost(h.spending, tip) && AtMost(h.spent, tip)
  }

  ghost predicate UtxoBounded(u: UtxoTable, tip: int) {
    forall o | o in u :: HeightsAtMost(u[o].heights, tip)
  }

  /** No recorded height of an output, an invoice or a payment is above the best block. */
  ghost predicate Bounded(db: Db) {
    var H := db.chain.bestHeight;
    && UtxoBounded(db.utxo, H)
    && (forall a | a in db.invoice :: AtMost(db.invoice[a].paidHeight, H))
    && (forall p | p in db.payment :: AtMost(db.payment[p].paidHeight, H) && AtMost(db.payment[p].confirmedHeight, H))
  }

  /** A rollback bounds every height by its target, whatever block that is and whatever the tables held. */
  lemma RollbackBounded(db: Db, best: Hash, height: int, seqs: SeqMap, nextSeq: int)
    ensures Bounded(RollbackDb(db, best, height, seqs, nextSeq))
  {
  }

  // What is at or below height m stays, each height as long as none before it goes.
  predicate StaysBelow(h: Heights, h': Heights, m: int) {
    !Above(h.added, m) ==>
      && h'.added == h.added
      && (!Above(h.spendable, m) ==>
            && h'.spendable == h.spendable
            && (!Above(h.spending, m) ==> h'.spending == h.spending && (!Above(h.spent, m) ==> h' == h)))
  }

  /** And it keeps what is at or below its target: heights of outputs, each as long as none before it goes, paid invoices and
      payments with all that is noted of them. */
  lemma RollbackKeepsBelow(db: Db, best: Hash, m: int, seqs: SeqMap, nextSeq: int)
    ensures var db' := RollbackDb(db, best, m, seqs, nextSeq);
            && db'.utxo.Keys == db.utxo.Keys && db'.invoice.Keys == db.invoice.Keys && db'.payment.Keys == db.payment.Keys
            && (forall o | o in db.utxo ::
                  db'.utxo[o] == db.utxo[o].(heights := db'.utxo[o].heights) && StaysBelow(db.utxo[o].heights, db'.utxo[o].heights, m))
            && (forall a | a in db.invoice && !Above(db.invoice[a].paidHeight, m) :: db'.invoice[a] == db.invoice[a])
            && (forall p | p in db.payment && !Above(db.payment[p].paidHeight, m) ::
                  && db'.payment[p].paidHeight == db.payment[p].paidHeight
                  && (!Above(db.payment[p].confirmedHeight, m) ==> db'.payment[p] == db.payment[p]))
  {
    var db' := RollbackDb(db, best, m, seqs, nextSeq);
    assert forall o | o in db.utxo :: db'.utxo[o] == RevertRow(db.utxo[o], m);
    assert forall a | a in db.invoice :: db'.invoice[a] == RevertInvoiceRow(db.invoice[a], m);
    assert forall p | p in db.payment :: db'.payment[p] == RevertConfirmed(RevertPaid(db.payment[p], m), m);
    assert db'.utxo.Keys == db.utxo.Keys && db'.invoice.Keys == db.invoice.Keys && db'.payment.Keys == db.payment.Keys;
    hide RollbackDb, RevertRow, StaysBelow;
    forall o | o in db.utxo { RowKeepsBelow(db.utxo[o], m); }
  }

  lemma RowKeepsBelow(r: UtxoRow, m: int)
    ensures var r' := RevertRow(r, m); r' == r.(heights := r'.heights) && StaysBelow(r.heights, r'.heights, m)
  {
  }

  predicate ChangesAtMost(chs: seq<Change>, tip: int) {
    forall i | 0 <= i < |chs| :: chs[i].height <= tip
  }

  lemma {:induction false} ApplyBounded(u: UtxoTable, owners: AddressTable, chs: seq<Change>, tip: int)
    requires ChangesAtMost(chs, tip)
    requires UtxoBounded(u, tip)
    ensures UtxoBounded(Apply(u, owners, chs), tip)
  {
    if chs != [] {
      var n := |chs| - 1;
      assert forall i | 0 <= i < n :: chs[..n][i] == chs[i];
      ApplyBounded(u, owners, chs[..n], tip);
      assert chs[n].height <= tip;
    }
  }

  /** A forward batch keeps the bound when it moves the best block up, even after a resync to another branch. */
  lemma ForwardBounded(w: World, dflt: int, db: Db, chs: seq<Change>, txids: seq<TxId>, best: Hash, height: int,
                       seqs: SeqMap, nextSeq: int)
    requires Bounded(db) && db.chain.bestHeight <= height && ChangesAtMost(chs, height)
    ensures Bounded(ForwardDb(w, dflt, db, chs, txids, best, height, seqs, nextSeq))
  {
    assert UtxoBounded(db.utxo, height);
    ApplyBounded(db.utxo, db.address, chs, height);
    var db' := ForwardDb(w, dflt, db, chs, txids, best, height, seqs, nextSeq);
    assert UtxoBounded(db'.utxo, height);
  }

  // ------------------------------------------------------------ stable content

  predicate SameFields(r: UtxoRow, r': UtxoRow) {
    r' == r.(heights := r'.heights, spendTx := r'.spendTx)
  }

  /** A row holds what the chain says about its output, if the chain says anything. */
  ghost predicate Faithful(w: World, env: Env, u: UtxoTable, o: Outpoint) {
    o in u && (Owned(w, env, o) ==> SameContent(u[o], w.txs[o.txid].vout[o.vout], env.owners))
  }

  lemma {:induction false} PathKeepsContent(w: World, env: Env, from: Hash, path: seq<Hash>, u: UtxoTable, o: Outpoint)
    requires ValidWorld(w) && from in w.blocks && IsPath(w, from, path) && (o in u ==> Faithful(w, env, u, o))
    ensures var u' := Apply(u, env.owners, PathChanges(w, path));
            if o in u then o in u' && SameFields(u[o], u'[o]) else o in u' ==> Owned(w, env, o) && Faithful(w, env, u', o)
  {
    if path != [] {
      var n := |path| - 1;
      var b := w.blocks[path[n]];
      PathKeepsContent(w, env, from, path[..n], u, o);
      var mid := Apply(u, env.owners, PathChanges(w, path[..n]));
      ApplyConcat(u, env.owners, PathChanges(w, path[..n]), BlockChanges(w, b.txids, b.height));
      if o.vout != COINBASE_VOUT { BlockSpendsFollow(w, path[n], o); }
      BlockEffect(w, mid, env.owners, b.txids, b.height, o);
    }
  }

  /** If the transaction of a row is in any block, its output is what the row says. */
  predicate Genuine(w: World, r: UtxoRow, o: Outpoint) {
    o.txid in w.txs ==>
      && o.vout < |w.txs[o.txid].vout|
      && (var out := w.txs[o.txid].vout[o.vout]; Pays(out) && r.value == out.value && r.address == out.payee.value)
  }

  /** A row inserted by a payment: change, at an internal address of its owner, and genuine. */
  predicate ApiRow(w: World, env: Env, r: UtxoRow, o: Outpoint) {
    && r.internal && r.address in env.owners && r.address !in env.confs
    && env.owners[r.address] == AddressRow(r.account, r.keyIndex, true) && Genuine(w, r, o)
  }

  ghost predicate ApiClean(w: World, env: Env, u: UtxoTable, api: set<Outpoint>) {
    forall o | o in api :: o in u && ApiRow(w, env, u[o], o)
  }

  /** Every row is of a known address and says what its transaction says, on whatever branch that is. */
  ghost predicate RowsOk(w: World, env: Env, u: UtxoTable, api: set<Outpoint>) {
    && ApiClean(w, env, u, api)
    && forall o | o in u && o !in api :: Owned(w, env, o) && SameContent(u[o], w.txs[o.txid].vout[o.vout], env.owners)
  }

  // No row is lost, and no field but the heights and the spending transaction changes.
  ghost predicate Kept(u: UtxoTable, u': UtxoTable) {
    forall o | o in u :: o in u' && SameFields(u[o], u'[o])
  }

  lemma ConfirmKeepsContent(u: UtxoTable, env: Env, tip: int, o: Outpoint)
    ensures o in Confirm(u, env, tip) <==> o in u
    ensures o in u ==> SameFields(u[o], Confirm(u, env, tip)[o])
  {
  }

  /** Following any path keeps every row, and adds none that is not what its transaction says. */
  lemma ForwardKeepsContent(w: World, env: Env, from: Hash, path: seq<Hash>, u: UtxoTable, api: set<Outpoint>)
    requires ValidWorld(w) && from in w.blocks && IsPath(w, from, path) && RowsOk(w, env, u, api)
    ensures var u' := Forward(w, env, u, from, path); Kept(u, u') && RowsOk(w, env, u', api)
  {
    var mid, u' := Apply(u, env.owners, PathChanges(w, path)), Forward(w, env, u, from, path);
    hide Apply, Confirm, ValidWorld;
    forall o
      ensures o in u ==> o in u' && SameFields(u[o], u'[o])
      ensures o !in u && o in u' ==> Owned(w, env, o) && SameContent(u'[o], w.txs[o.txid].vout[o.vout], env.owners)
    {
      PathKeepsContent(w, env, from, path, u, o);
      ConfirmKeepsContent(mid, env, w.blocks[Tip(from, path)].height, o);
    }
  }

  // ------------------------------------------------- rows that stay as confirmed

  /** No row the follower created is spendable that is not added. */
  ghost predicate SpendableAdded(u: UtxoTable, api: set<Outpoint>) {
    forall o | o in u && o !in api && u[o].heights.spendable.Some? :: u[o].heights.added.Some?
  }

  predicate InPath(w: World, path: seq<Hash>, id: TxId) {
    exists h | h in path :: h in w.blocks && id in w.blocks[h].txids
  }

  lemma {:induction false} PathStages(w: World, env: Env, from: Hash, path: seq<Hash>, u: UtxoTable, o: Outpoint)
    requires ValidWorld(w) && from in w.blocks && IsPath(w, from, path)
    ensures w.blocks[Tip(from, path)].height == w.blocks[from].height + |path|
    ensures var u' := Apply(u, env.owners, PathChanges(w, path));
            && (o in u ==> o in u' && u'[o].heights.spendable == u[o].heights.spendable)
            && (o !in u && o in u' ==> u'[o].heights.spendable == None)
            && (o in u && (!Owned(w, env, o) || !InPath(w, path, o.txid)) ==> u'[o].heights.added == u[o].heights.added)
            && (o in u' && (o in u ==> Owned(w, env, o) && InPath(w, path, o.txid)) ==> Above(u'[o].heights.added, w.blocks[from].height))
  {
    if path != [] {
      var n := |path| - 1;
      var b := w.blocks[path[n]];
      PathStages(w, env, from, path[..n], u, o);
      var mid := Apply(u, env.owners, PathChanges(w, path[..n]));
      ApplyConcat(u, env.owners, PathChanges(w, path[..n]), BlockChanges(w, b.txids, b.height));
      if o.vout != COINBASE_VOUT { BlockSpendsFollow(w, path[n], o); }
      BlockEffect(w, mid, env.owners, b.txids, b.height, o);
      assert path[n] in path && forall h | h in path[..n] :: h in path;
      assert forall h | h in path :: h in path[..n] || h == path[n];
    }
  }

  lemma ConfirmStages(u: UtxoTable, env: Env, tip: int, o: Outpoint)
    requires o in u
    ensures var h, h' := u[o].heights, Confirm(u, env, tip)[o].heights;
            && h'.added == h.added
            && (h.spendable.Some? ==> h'.spendable == h.spendable)
            && (h.spendable == None ==> h'.spendable == ConfirmedAt(h.added, ConfOf(env, u[o].address), tip))
  {
  }

  /** Following a path clears no spendable height, and makes only what was added spendable. */
  lemma ForwardKeepsSpendable(w: World, env: Env, from: Hash, path: seq<Hash>, u: UtxoTable, api: set<Outpoint>)
    requires ValidWorld(w) && from in w.blocks && IsPath(w, from, path) && SpendableAdded(u, api)
    ensures var u' := Forward(w, env, u, from, path);
            && SpendableAdded(u', api)
            && forall o | o in u && u[o].heights.spendable.Some? :: o in u' && u'[o].heights.spendable.Some?
  {
    var mid, u' := Apply(u, env.owners, PathChanges(w, path)), Forward(w, env, u, from, path);
    hide Apply, Confirm, ValidWorld, InPath;
    forall o
      ensures o !in api && o in u' && u'[o].heights.spendable.Some? ==> u'[o].heights.added.Some?
      ensures o in u && u[o].heights.spendable.Some? ==> o in u' && u'[o].heights.spendable.Some?
    {
      PathStages(w, env, from, path, u, o);
      ConfirmKeepsContent(mid, env, w.blocks[Tip(from, path)].height, o);
      if o in mid { ConfirmStages(mid, env, w.blocks[Tip(from, path)].height, o); }
    }
  }

  // ------------------------------------------------------- heights that are right

  /** Every row the follower created was added where the chain to the best block has its transaction. The table may lack
      outputs of that chain: those whose address came to be known too late. */
  ghost predicate Anchored(w: World, best: Hash, u: UtxoTable, api: set<Outpoint>)
    requires ValidTree(w) && best in w.blocks
  {
    forall o | o in u && o !in api :: u[o].heights.added == LastHit(w, -1, best, HasTx(o.txid))
  }

  // One block, seen from one row: it is added by this block, or not at all.
  lemma AnchorBlock(w: World, env: Env, b: Hash, u: UtxoTable, o: Outpoint)
    requires ValidWorld(w) && b in w.blocks && b != w.genesis
    requires o in u ==> Owned(w, env, o) && u[o].heights.added == LastHit(w, -1, w.blocks[b].prev, HasTx(o.txid))
    ensures var u' := Apply(u, env.owners, BlockChanges(w, w.blocks[b].txids, w.blocks[b].height));
            o in u' ==> Owned(w, env, o) && u'[o].heights.added == LastHit(w, -1, b, HasTx(o.txid))
  {
    var ids := w.blocks[b].txids;
    if o.vout != COINBASE_VOUT { BlockSpendsFollow(w, b, o); }
    BlockEffect(w, u, env.owners, ids, w.blocks[b].height, o);
    LastHitUnfold(w, b, HasTx(o.txid));
    assert Owned(w, env, o) ==> (CreatedBy(w, ids, o, env.owners) <==> Hits(w, b, HasTx(o.txid)));
  }

  lemma {:induction false} AnchorPath(w: World, env: Env, from: Hash, path: seq<Hash>, u: UtxoTable, o: Outpoint)
    requires ValidWorld(w) && from in w.blocks && IsPath(w, from, path)
    requires o in u ==> Owned(w, env, o) && u[o].heights.added == LastHit(w, -1, from, HasTx(o.txid))
    ensures var u' := Apply(u, env.owners, PathChanges(w, path));
            o in u' ==> u'[o].heights.added == LastHit(w, -1, Tip(from, path), HasTx(o.txid)) && Owned(w, env, o)
  {
    if path != [] {
      var n := |path| - 1;
      var b := w.blocks[path[n]];
      hide ValidWorld, ValidTree, Owned, BlockChanges;
      AnchorPath(w, env, from, path[..n], u, o);
      ApplyConcat(u, env.owners, PathChanges(w, path[..n]), BlockChanges(w, b.txids, b.height));
      AnchorBlock(w, env, path[n], Apply(u, env.owners, PathChanges(w, path[..n])), o);
    }
  }

  /** Following any path keeps that so. */
  lemma ForwardAnchored(w: World, env: Env, from: Hash, path: seq<Hash>, u: UtxoTable, api: set<Outpoint>)
    requires ValidWorld(w) && from in w.blocks && IsPath(w, from, path) && RowsOk(w, env, u, api) && Anchored(w, from, u, api)
    ensures Anchored(w, Tip(from, path), Forward(w, env, u, from, path), api)
  {
    var mid, u' := Apply(u, env.owners, PathChanges(w, path)), Forward(w, env, u, from, path);
    hide Apply, Confirm, ValidWorld, Owned, LastHit;
    forall o | o in u' && o !in api ensures u'[o].heights.added == LastHit(w, -1, Tip(from, path), HasTx(o.txid)) {
      AnchorPath(w, env, from, path, u, o);
      ConfirmKeepsContent(mid, env, w.blocks[Tip(from, path)].height, o);
      ConfirmStages(mid, env, w.blocks[Tip(from, path)].height, o);
    }
  }

  /** A rollback to any ancestor keeps it so, too. */
  lemma RevertAnchored(w: World, best: Hash, target: Hash, u: UtxoTable, api: set<Outpoint>)
    requires ValidWorld(w) && OnChain(w, target, best) && Anchored(w, best, u, api)
    ensures Anchored(w, target, Revert(u, w.blocks[target].height), api)
  {
    var m := w.blocks[target].height;
    var u' := Revert(u, m);
    forall o | o in u' && o !in api ensures u'[o].heights.added == LastHit(w, -1, target, HasTx(o.txid)) {
      var q := HasTx(o.txid);
      assert AtMostOnce(w, q) && u'[o] == RevertRow(u[o], m);
      LastHitSplit(w, -1, target, best, q);
      if LastHit(w, -1, target, q).Some? { NoSecondHit(w, -1, target, best, q); }
    }
  }

  // What is on a chain is on no path above it.
  lemma {:induction false} NotRepeated(w: World, from: Hash, path: seq<Hash>, id: TxId)
    requires ValidWorld(w) && from in w.blocks && IsPath(w, from, path) && LastHit(w, -1, from, HasTx(id)).Some?
    ensures !InPath(w, path, id) && LastHit(w, -1, Tip(from, path), HasTx(id)).Some?
  {
    if path != [] {
      var n := |path| - 1;
      NotRepeated(w, from, path[..n], id);
      assert AtMostOnce(w, HasTx(id)) && path == path[..n] + [path[n]];
      LastHitUnfold(w, path[n], HasTx(id));
    }
  }

  // ------------------------------------------------ paid invoices stay backed

  /** The rows at address a that were confirmed by height p. */
  function ConfirmedRows(u: UtxoTable, a: Address, p: int): set<Outpoint> {
    set o | o in u && u[o].address == a && u[o].heights.added.Some? && u[o].heights.added.value <= p
            && u[o].heights.spendable.Some? && u[o].heights.spendable.value <= p
  }

  ghost predicate BackedAt(u: UtxoTable, a: Address, total: int, p: int) {
    ConfirmedRows(u, a, p) != {} && Sum(u, ConfirmedRows(u, a, p)) >= total
  }

  /** An invoice with paid_height p is covered by outputs confirmed by height p. */
  ghost predicate Backed(u: UtxoTable, inv: InvoiceTable) {
    forall a | a in inv && inv[a].paidHeight.Some? :: BackedAt(u, a, inv[a].total, inv[a].paidHeight.value)
  }

  /** An invoice is paid exactly when its confirmed sum reaches its total. */
  ghost predicate PaidIff(u: UtxoTable, inv: InvoiceTable) {
    forall a | a in inv :: inv[a].paidHeight.Some? <==> ReachesTotal(u, a, inv[a].total)
  }

  lemma BackedMore(u: UtxoTable, u': UtxoTable, a: Address, total: int, p: int)
    requires BackedAt(u, a, total, p)
    requires forall o | o in ConfirmedRows(u, a, p) :: o in ConfirmedRows(u', a, p) && u'[o].value == u[o].value
    requires forall o | o in ConfirmedRows(u', a, p) :: u'[o].value >= 0
    ensures BackedAt(u', a, total, p)
  {
    SumCongruence(u, u', ConfirmedRows(u, a, p));
    SumMonotone(u', ConfirmedRows(u, a, p), ConfirmedRows(u', a, p));
  }

  /** What is left of those rows once the path is followed: a path that repeats a transaction of theirs adds them again,
      above p; one that is due by then is found confirmed. */
  ghost function LastingRows(w: World, env: Env, path: seq<Hash>, u: UtxoTable, a: Address, p: int): set<Outpoint> {
    set o | o in u && u[o].address == a && AddedBy(u[o].heights, p) && SpendableBy(u[o].heights, ConfOf(env, a), p)
            && !InPath(w, path, o.txid)
  }

  predicate AddedBy(h: Heights, p: int) {
    h.added.Some? && h.added.value <= p
  }

  predicate SpendableBy(h: Heights, conf: int, p: int) {
    if h.spendable.Some? then h.spendable.value <= p else h.added.Some? && h.added.value + conf <= p
  }

  /** Every paid invoice is covered even without the outputs whose transactions the path repeats. */
  ghost predicate BackingLasts(w: World, env: Env, path: seq<Hash>, u: UtxoTable, inv: InvoiceTable) {
    forall a | a in inv && inv[a].paidHeight.Some? ::
      var rows := LastingRows(w, env, path, u, a, inv[a].paidHeight.value);
      rows != {} && Sum(u, rows) >= inv[a].total
  }

  // One row, seen from one paid invoice.
  lemma RowLasts(w: World, env: Env, from: Hash, path: seq<Hash>, u: UtxoTable, api: set<Outpoint>, a: Address, p: int, o: Outpoint)
    requires ValidWorld(w) && from in w.blocks && IsPath(w, from, path) && RowsOk(w, env, u, api)
    requires a in env.confs && p <= w.blocks[from].height
    ensures o in ConfirmedRows(Forward(w, env, u, from, path), a, p) <==> o in LastingRows(w, env, path, u, a, p)
  {
    var mid, u' := Apply(u, env.owners, PathChanges(w, path)), Forward(w, env, u, from, path);
    var H := w.blocks[Tip(from, path)].height;
    ForwardKeepsContent(w, env, from, path, u, api);
    hide Apply, Confirm, ValidWorld, InPath, IsPath;
    PathStages(w, env, from, path, u, o);
    ConfirmKeepsContent(mid, env, H, o);
    if o in mid { ConfirmStages(mid, env, H, o); }
    assert o in u && u[o].address == a ==> Owned(w, env, o);
  }

  /** The rows at a that were confirmed by p, at or below the block the path starts from, are then those. */
  lemma ForwardLasts(w: World, env: Env, from: Hash, path: seq<Hash>, u: UtxoTable, api: set<Outpoint>, a: Address, p: int)
    requires ValidWorld(w) && from in w.blocks && IsPath(w, from, path) && RowsOk(w, env, u, api)
    requires a in env.confs && p <= w.blocks[from].height
    ensures var u' := Forward(w, env, u, from, path);
            ConfirmedRows(u', a, p) == LastingRows(w, env, path, u, a, p) && Sum(u', ConfirmedRows(u', a, p)) == Sum(u, ConfirmedRows(u', a, p))
  {
    var u' := Forward(w, env, u, from, path);
    forall o ensures o in ConfirmedRows(u', a, p) <==> o in LastingRows(w, env, path, u, a, p) {
      RowLasts(w, env, from, path, u, api, a, p, o);
    }
    ForwardKeepsContent(w, env, from, path, u, api);
    hide ValidWorld, Forward, IsPath, RowsOk;
    SumCongruence(u, u', ConfirmedRows(u', a, p));
  }

  /** While every row is where the chain has its transaction, every path leaves the backing as it is. */
  lemma AnchoredLasts(w: World, env: Env, from: Hash, path: seq<Hash>, u: UtxoTable, api: set<Outpoint>, inv: InvoiceTable)
    requires ValidWorld(w) && from in w.blocks && IsPath(w, from, path) && RowsOk(w, env, u, api) && Anchored(w, from, u, api)
    requires inv.Keys == env.confs.Keys && Backed(u, inv)
    ensures BackingLasts(w, env, path, u, inv)
  {
    hide ValidWorld, InPath;
    forall a | a in inv && inv[a].paidHeight.Some?
      ensures var rows := LastingRows(w, env, path, u, a, inv[a].paidHeight.value); rows != {} && Sum(u, rows) >= inv[a].total
    {
      var p := inv[a].paidHeight.value;
      forall o | o in ConfirmedRows(u, a, p) ensures o in LastingRows(w, env, path, u, a, p) {
        assert o !in api;
        NotRepeated(w, from, path, o.txid);
      }
      forall o | o in LastingRows(w, env, path, u, a, p) ensures u[o].value >= 0 {
        assert o !in api;
      }
      SumMonotone(u, ConfirmedRows(u, a, p), LastingRows(w, env, path, u, a, p));
    }
  }

  // Every row ReachesTotal counts was confirmed by the tip.
  lemma PaidRowsConfirmed(u: UtxoTable, a: Address, tip: int)
    requires forall o | o in u && u[o].address == a && u[o].heights.spendable.Some? ::
               u[o].heights.added.Some? && u[o].heights.added.value <= tip && u[o].heights.spendable.value <= tip
    ensures ConfirmedRows(u, a, tip) == PaidRows(u, a)
  {
  }

  /** Every row that counts at an invoice was confirmed by the given height and has a value. */
  ghost predicate CountsBy(u: UtxoTable, inv: InvoiceTable, height: int) {
    forall a, o | a in inv && o in u && u[o].address == a && u[o].heights.spendable.Some? ::
      && u[o].heights.added.Some? && u[o].heights.added.value <= height && u[o].heights.spendable.value <= height
      && u[o].value > 0
  }

  lemma MarkPaidBacked(u: UtxoTable, inv: InvoiceTable, height: int, block: Hash)
    requires CountsBy(u, inv, height)
    ensures Backed(u, MarkPaid(u, inv, height, block)) <==> Backed(u, inv)
  {
    var inv' := MarkPaid(u, inv, height, block);
    forall a | a in inv
      ensures inv[a].paidHeight.Some? ==> inv'[a] == inv[a]
      ensures inv[a].paidHeight == None && inv'[a].paidHeight.Some? ==> BackedAt(u, a, inv'[a].total, inv'[a].paidHeight.value)
    {
      PaidRowsConfirmed(u, a, height);
    }
  }

  // What backed the paid invoices before still counts.
  lemma MarkPaidCovers(u: UtxoTable, u': UtxoTable, inv: InvoiceTable, height: int, block: Hash)
    requires Backed(u, inv) && CountsBy(u', inv, height)
    requires forall o | o in u :: o in u' && u'[o].address == u[o].address && u'[o].value == u[o].value
                                  && (u[o].heights.spendable.Some? ==> u'[o].heights.spendable.Some?)
    ensures PaidIff(u', MarkPaid(u', inv, height, block))
  {
    var inv' := MarkPaid(u', inv, height, block);
    forall a | a in inv' ensures inv'[a].paidHeight.Some? <==> ReachesTotal(u', a, inv'[a].total) {
      if inv[a].paidHeight.Some? {
        var rows := ConfirmedRows(u, a, inv[a].paidHeight.value);
        SumCongruence(u, u', rows);
        SumMonotone(u', rows, PaidRows(u', a));
      }
    }
  }

  lemma ForwardCounts(w: World, env: Env, from: Hash, path: seq<Hash>, u: UtxoTable, api: set<Outpoint>, inv: InvoiceTable)
    requires ValidWorld(w) && from in w.blocks && IsPath(w, from, path) && RowsOk(w, env, u, api) && SpendableAdded(u, api)
    requires inv.Keys == env.confs.Keys
    requires UtxoBounded(Forward(w, env, u, from, path), w.blocks[Tip(from, path)].height)
    ensures CountsBy(Forward(w, env, u, from, path), inv, w.blocks[Tip(from, path)].height)
  {
    var u' := Forward(w, env, u, from, path);
    ForwardKeepsContent(w, env, from, path, u, api);
    ForwardKeepsSpendable(w, env, from, path, u, api);
    hide ValidWorld, Forward, IsPath;
    forall a, o | a in inv && o in u' && u'[o].address == a && u'[o].heights.spendable.Some?
      ensures var H := w.blocks[Tip(from, path)].height;
              && u'[o].heights.added.Some? && u'[o].heights.added.value <= H && u'[o].heights.spendable.value <= H
              && u'[o].value > 0
    {
      assert o !in api;
    }
  }

  /** After a forward batch on tables that back their paid invoices an invoice is paid exactly when its confirmed sum
      reaches its total; and its paid invoices are backed if and only if the old ones are without what the batch repeats.
      The tables need not hold all that the chain pays. */
  lemma ForwardBackedIff(w: World, env: Env, from: Hash, path: seq<Hash>, u: UtxoTable, api: set<Outpoint>, inv: InvoiceTable)
    requires ValidWorld(w) && from in w.blocks && IsPath(w, from, path) && RowsOk(w, env, u, api) && SpendableAdded(u, api)
    requires inv.Keys == env.confs.Keys && forall a | a in inv :: AtMost(inv[a].paidHeight, w.blocks[from].height)
    requires UtxoBounded(Forward(w, env, u, from, path), w.blocks[Tip(from, path)].height)
    ensures var u' := Forward(w, env, u, from, path);
            var inv' := MarkPaid(u', inv, w.blocks[Tip(from, path)].height, Tip(from, path));
            && (Backed(u', inv') <==> BackingLasts(w, env, path, u, inv))
            && (Backed(u, inv) ==> PaidIff(u', inv'))
  {
    var u', H := Forward(w, env, u, from, path), w.blocks[Tip(from, path)].height;
    ForwardCounts(w, env, from, path, u, api, inv);
    ForwardKeepsContent(w, env, from, path, u, api);
    ForwardKeepsSpendable(w, env, from, path, u, api);
    hide ValidWorld, Forward, IsPath, RowsOk, CountsBy, UtxoBounded, LastingRows, ConfirmedRows;
    MarkPaidBacked(u', inv, H, Tip(from, path));
    if Backed(u, inv) { MarkPaidCovers(u, u', inv, H, Tip(from, path)); }
    forall a | a in inv && inv[a].paidHeight.Some?
      ensures var rows := LastingRows(w, env, path, u, a, inv[a].paidHeight.value);
              BackedAt(u', a, inv[a].total, inv[a].paidHeight.value) <==> rows != {} && Sum(u, rows) >= inv[a].total
    {
      ForwardLasts(w, env, from, path, u, api, a, inv[a].paidHeight.value);
    }
  }

  lemma RollbackBacks(u: UtxoTable, a: Address, total: int, p: int, m: int)
    requires BackedAt(u, a, total, p) && p <= m && forall o | o in u && u[o].address == a :: u[o].value >= 0
    ensures BackedAt(Revert(u, m), a, total, p)
  {
    var u' := Revert(u, m);
    forall o | o in ConfirmedRows(u, a, p) ensures o in ConfirmedRows(u', a, p) && u'[o].value == u[o].value {
      assert u'[o] == RevertRow(u[o], m);
    }
    forall o | o in ConfirmedRows(u', a, p) ensures u'[o].value >= 0 {
      assert u'[o] == RevertRow(u[o], m);
    }
    BackedMore(u, u', a, total, p);
  }

  /** A rollback clears every paid_height above the target, and what backs the others stays. */
  lemma RollbackBacked(u: UtxoTable, inv: InvoiceTable, m: int)
    requires Backed(u, inv) && forall o | o in u && u[o].address in inv :: u[o].value >= 0
    ensures Backed(Revert(u, m), RevertInvoices(inv, m))
  {
    var inv' := RevertInvoices(inv, m);
    forall a | a in inv' && inv'[a].paidHeight.Some? ensures BackedAt(Revert(u, m), a, inv'[a].total, inv'[a].paidHeight.value) {
      RollbackBacks(u, a, inv[a].total, inv[a].paidHeight.value, m);
    }
  }

  // What counts towards an invoice after a rollback to height m is what was confirmed by then.
  lemma RevertedPaidRows(u: UtxoTable, a: Address, total: int, m: int)
    requires forall o | o in u && u[o].address == a && u[o].heights.spendable.Some? :: u[o].heights.added.Some?
    ensures ReachesTotal(Revert(u, m), a, total) <==> BackedAt(u, a, total, m)
  {
    var u' := Revert(u, m);
    assert PaidRows(u', a) == ConfirmedRows(u, a, m);
    SumCongruence(u, u', PaidRows(u', a));
  }

  // With values that are not negative, backing lasts.
  lemma BackedLater(u: UtxoTable, a: Address, total: int, p: int, m: int)
    requires BackedAt(u, a, total, p) && p <= m && forall o | o in u && u[o].address == a :: u[o].value >= 0
    ensures BackedAt(u, a, total, m)
  {
    SumMonotone(u, ConfirmedRows(u, a, p), ConfirmedRows(u, a, m));
  }

  /** A batch notes one paid height, its tip, for all that it pays, so a rollback into the batch can clear a paid
      height whose backing it keeps. Paid-iff-covered survives a rollback exactly when that happens to no invoice. */
  lemma RollbackPaidIff(u: UtxoTable, inv: InvoiceTable, m: int)
    requires Backed(u, inv) && PaidIff(u, inv) && forall o | o in u && u[o].address in inv :: u[o].value >= 0
    requires forall o | o in u && u[o].address in inv && u[o].heights.spendable.Some? :: u[o].heights.added.Some?
    ensures PaidIff(Revert(u, m), RevertInvoices(inv, m))
       <==> forall a | a in inv && Above(inv[a].paidHeight, m) :: !BackedAt(u, a, inv[a].total, m)
  {
    var inv' := RevertInvoices(inv, m);
    forall a | a in inv
      ensures (inv'[a].paidHeight.Some? <==> ReachesTotal(Revert(u, m), a, inv'[a].total))
         <==> (Above(inv[a].paidHeight, m) ==> !BackedAt(u, a, inv[a].total, m))
    {
      RevertedPaidRows(u, a, inv[a].total, m);
      if inv[a].paidHeight == None {
        assert !ReachesTotal(u, a, inv[a].total);
        if BackedAt(u, a, inv[a].total, m) { SumMonotone(u, ConfirmedRows(u, a, m), PaidRows(u, a)); }
      } else if inv[a].paidHeight.value <= m {
        BackedLater(u, a, inv[a].total, inv[a].paidHeight.value, m);
      }
    }
  }
}
