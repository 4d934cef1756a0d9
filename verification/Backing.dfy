/** Paid invoices: that each is backed by confirmed outputs, and that after every forward batch an invoice is paid exactly
    when it is covered. Nothing here asks whether accounts and invoices were created in time. */
module Backing {
  import opened Options
  import opened BlockTree
  import opened Ledger
  import opened Confluence
  import opened Tables
  import opened Guarantees
  import opened Feed
  import opened Wallet

  /** Paid invoices are backed. */
  ghost predicate PaidOk(s: State) {
    SpendableAdded(s.db.utxo, s.api) && Backed(s.db.utxo, s.db.invoice)
  }

  /** The rows there are were added where the chain to the best block has their transactions. */
  ghost predicate AnchoredAt(w: World, s: State)
    requires ValidTree(w) && s.db.chain.bestHash in w.blocks
  {
    Anchored(w, s.db.chain.bestHash, s.db.utxo, s.api)
  }

  /** The move stays on the chain to the best block or extends it: any move but a resync to another branch. */
  predicate OnBranch(w: World, s: State, mv: Move)
    requires ValidTree(w)
  {
    mv.Resync? ==> OnChain(w, mv.target, s.db.chain.bestHash)
  }

  /** The move is no forward batch that repeats transactions of outputs that paid invoices need. */
  ghost predicate NeededStay(w: World, dflt: int, s: State, mv: Move) {
    mv.Forward? ==> BackingLasts(w, EnvOf(s.db, dflt), mv.path, s.db.utxo, s.db.invoice)
  }

  lemma StartPaid(w: World, db: Db, start: Hash)
    requires ValidTree(w) && start in w.blocks && db.chain.bestHash == start && Untold(db)
    ensures PaidOk(Start(db, start)) && AnchoredAt(w, Start(db, start))
  {
  }

  /** After a committed forward batch an invoice is paid exactly when its confirmed sum reaches its total, whatever has
      been created before and wherever it was resynced to; and paid invoices stay backed if and only if the batch leaves
      what they need. */
  lemma ForwardPaid(w: World, dflt: int, s: State, mv: Move)
    requires ValidWorld(w) && StateOk(w, dflt, s) && PaidOk(s) && mv.Forward? && Allowed(w, dflt, s, mv)
    ensures var s' := Next(w, dflt, s, mv);
            (PaidOk(s') <==> NeededStay(w, dflt, s, mv)) && PaidIff(s'.db.utxo, s'.db.invoice)
  {
    assert ValidTree(w);
    hide SpendableAdded, BackingLasts, Backed, PaidIff, RowsOk, Apply, Confirm, Reports, FreshSeqs, SeqsOk, NothingMissed, LogOk, TablesOk;
    hide ValidWorld, Bounded;
    var env, from, s' := EnvOf(s.db, dflt), s.db.chain.bestHash, Next(w, dflt, s, mv);
    ForwardRows(w, dflt, s, mv);
    ForwardShape(w, dflt, s, mv);
    ForwardDbBounded(w, dflt, s, mv);
    BoundedRows(s.db);
    BoundedRows(s'.db);
    ForwardKeepsSpendable(w, env, from, mv.path, s.db.utxo, s.api);
    ForwardBackedIff(w, env, from, mv.path, s.db.utxo, s.api, s.db.invoice);
  }

  lemma BoundedRows(db: Db)
    requires Bounded(db)
    ensures UtxoBounded(db.utxo, db.chain.bestHeight)
    ensures forall a | a in db.invoice :: AtMost(db.invoice[a].paidHeight, db.chain.bestHeight)
  {
  }

  lemma RevertSpendable(u: UtxoTable, api: set<Outpoint>, m: int)
    requires SpendableAdded(u, api)
    ensures SpendableAdded(Revert(u, m), api)
  {
  }

  /** A rollback to any block keeps what it does not clear backed. */
  lemma RolledPaid(w: World, dflt: int, s: State, target: Hash, seqs: SeqMap, nextSeq: int)
    requires StateOk(w, dflt, s) && PaidOk(s) && target in w.blocks
    ensures PaidOk(Rolled(w, s, target, seqs, nextSeq))
  {
    hide SpendableAdded, Backed, RowsOk, SeqsOk, NothingMissed, LogOk, TablesOk, Bounded, Revert;
    RowsAtInvoices(w, dflt, s);
    RevertSpendable(s.db.utxo, s.api, w.blocks[target].height);
    RollbackBacked(s.db.utxo, s.db.invoice, w.blocks[target].height);
  }

  lemma BackedByEvents(u: UtxoTable, inv: InvoiceTable, inv': InvoiceTable)
    requires Backed(u, inv) && OnlyEventsChange(inv, inv')
    ensures Backed(u, inv')
  {
  }

  lemma PaymentBacked(u: UtxoTable, u': UtxoTable, inv: InvoiceTable)
    requires Backed(u, inv) && PaymentRows(u, u', inv)
    ensures Backed(u', inv)
  {
    forall a | a in inv && inv[a].paidHeight.Some? ensures BackedAt(u', a, inv[a].total, inv[a].paidHeight.value) {
      var p := inv[a].paidHeight.value;
      assert ConfirmedRows(u', a, p) == ConfirmedRows(u, a, p);
      SumCongruence(u, u', ConfirmedRows(u, a, p));
    }
  }

  lemma UnpaidBacked(u: UtxoTable, inv: InvoiceTable, a: Address, row: InvoiceRow)
    requires Backed(u, inv) && a !in inv && row.paidHeight == None
    ensures Backed(u, inv[a := row])
  {
  }

  // Rows that keep their heights stay right; new ones come from payments.
  lemma SameRows(w: World, best: Hash, u: UtxoTable, u': UtxoTable, api: set<Outpoint>, api': set<Outpoint>)
    requires ValidTree(w) && best in w.blocks && api <= api'
    requires forall o | o in u :: o in u' && u'[o] == u[o].(payment := u'[o].payment)
    requires forall o | o in u' && o !in u :: o in api'
    ensures Anchored(w, best, u, api) ==> Anchored(w, best, u', api')
    ensures SpendableAdded(u, api) ==> SpendableAdded(u', api')
  {
  }

  lemma PaymentPaid(w: World, dflt: int, s: State, mv: Move)
    requires ValidTree(w) && StateOk(w, dflt, s) && Allowed(w, dflt, s, mv) && IsPayment(mv)
    ensures var s' := Next(w, dflt, s, mv);
            s'.db.chain == s.db.chain && (PaidOk(s) ==> PaidOk(s')) && (AnchoredAt(w, s) ==> AnchoredAt(w, s'))
  {
    hide Anchored, SpendableAdded, Backed, RowsOk, SeqsOk, NothingMissed, LogOk, TablesOk, Bounded;
    var s' := Next(w, dflt, s, mv);
    PaymentFrame(w, dflt, s, mv);
    if PaidOk(s) { PaymentBacked(s.db.utxo, s'.db.utxo, s.db.invoice); }
    SameRows(w, s.db.chain.bestHash, s.db.utxo, s'.db.utxo, s.api, s'.api);
  }

  lemma OtherPaid(w: World, dflt: int, s: State, mv: Move)
    requires ValidTree(w) && StateOk(w, dflt, s) && Allowed(w, dflt, s, mv)
    requires mv.KeeperBatch? || mv.CreateAccount? || mv.CreateInvoice?
    ensures var s' := Next(w, dflt, s, mv);
            s'.db.chain == s.db.chain && s'.db.utxo == s.db.utxo && s'.api == s.api && (PaidOk(s) ==> PaidOk(s'))
  {
    hide SpendableAdded, Backed, StateOk, CalcBalance, KeeperEvents;
    if PaidOk(s) && mv.KeeperBatch? {
      BackedByEvents(s.db.utxo, s.db.invoice, Next(w, dflt, s, mv).db.invoice);
    } else if PaidOk(s) && mv.CreateInvoice? {
      UnpaidBacked(s.db.utxo, s.db.invoice, mv.a, mv.invoice);
    }
  }

  /** A move keeps paid invoices backed, resyncs to any branch included, if and only if it is no forward batch that repeats
      what they need; and every forward batch leaves an invoice paid exactly when it is covered. */
  lemma MovePaid(w: World, dflt: int, s: State, mv: Move)
    requires ValidWorld(w) && StateOk(w, dflt, s) && PaidOk(s) && Allowed(w, dflt, s, mv)
    ensures PaidOk(Next(w, dflt, s, mv)) <==> NeededStay(w, dflt, s, mv)
    ensures var db' := Next(w, dflt, s, mv).db; mv.Forward? ==> PaidIff(db'.utxo, db'.invoice)
  {
    assert ValidTree(w);
    hide ValidWorld, StateOk, PaidOk, RollbackReports, PaidIff;
    match mv
    case Forward(_, _, _, _) => ForwardPaid(w, dflt, s, mv);
    case Rollback(target, seqs, nextSeq) => RolledPaid(w, dflt, s, target, seqs, nextSeq);
    case Resync(target, seqs, nextSeq) => RolledPaid(w, dflt, s, target, seqs, nextSeq);
    case KeeperBatch(_) => OtherPaid(w, dflt, s, mv);
    case CreateAccount(_, _) => OtherPaid(w, dflt, s, mv);
    case CreateInvoice(_, _, _) => OtherPaid(w, dflt, s, mv);
    case _ => PaymentPaid(w, dflt, s, mv);
  }

  lemma ForwardStays(w: World, dflt: int, s: State, mv: Move)
    requires ValidWorld(w) && StateOk(w, dflt, s) && AnchoredAt(w, s) && mv.Forward? && Allowed(w, dflt, s, mv)
    ensures Next(w, dflt, s, mv).db.chain.bestHash in w.blocks && AnchoredAt(w, Next(w, dflt, s, mv))
  {
    assert ValidTree(w);
    hide Anchored, RowsOk, Apply, Confirm, Reports, FreshSeqs, SeqsOk, NothingMissed, LogOk, TablesOk, ValidWorld, Bounded;
    ForwardRows(w, dflt, s, mv);
    ForwardShape(w, dflt, s, mv);
    ForwardAnchored(w, EnvOf(s.db, dflt), s.db.chain.bestHash, mv.path, s.db.utxo, s.api);
  }

  /** Every move that stays on its branch leaves the rows there are where the chain has them, so that a forward batch
      repeats nothing. */
  lemma MoveAnchored(w: World, dflt: int, s: State, mv: Move)
    requires ValidWorld(w) && StateOk(w, dflt, s) && AnchoredAt(w, s) && Allowed(w, dflt, s, mv) && OnBranch(w, s, mv)
    ensures Next(w, dflt, s, mv).db.chain.bestHash in w.blocks && AnchoredAt(w, Next(w, dflt, s, mv))
    ensures PaidOk(s) ==> NeededStay(w, dflt, s, mv)
  {
    assert ValidTree(w) && RowsOk(w, EnvOf(s.db, dflt), s.db.utxo, s.api);
    hide ValidWorld, StateOk, Anchored, RollbackReports, SpendableAdded, Backed, BackingLasts, RowsOk;
    match mv
    case Forward(path, _, _, _) =>
      ForwardStays(w, dflt, s, mv);
      if PaidOk(s) { AnchoredLasts(w, EnvOf(s.db, dflt), s.db.chain.bestHash, path, s.db.utxo, s.api, s.db.invoice); }
    case Rollback(target, seqs, nextSeq) => RevertAnchored(w, s.db.chain.bestHash, target, s.db.utxo, s.api);
    case Resync(target, seqs, nextSeq) => RevertAnchored(w, s.db.chain.bestHash, target, s.db.utxo, s.api);
    case KeeperBatch(_) => OtherPaid(w, dflt, s, mv);
    case CreateAccount(_, _) => OtherPaid(w, dflt, s, mv);
    case CreateInvoice(_, _, _) => OtherPaid(w, dflt, s, mv);
    case _ => PaymentPaid(w, dflt, s, mv);
  }

  // ------------------------------------------------- the block an invoice was paid at

  /** A paid invoice names a block at its paid height, an unpaid one none. */
  ghost predicate BlockNamed(w: World, r: InvoiceRow) {
    match r.paidHeight
    case Some(p) => r.blockId.Some? && r.blockId.value in w.blocks && w.blocks[r.blockId.value].height == p
    case None => r.blockId == None
  }

  ghost predicate Named(w: World, s: State) {
    forall a | a in s.db.invoice :: BlockNamed(w, s.db.invoice[a])
  }

  /** The block is on the chain to the best block. */
  ghost predicate NamedOnChain(w: World, s: State)
    requires ValidTree(w)
  {
    forall a | a in s.db.invoice && s.db.invoice[a].blockId.Some? :: OnChain(w, s.db.invoice[a].blockId.value, s.db.chain.bestHash)
  }

  lemma {:induction false} TipAbove(w: World, from: Hash, path: seq<Hash>)
    requires ValidTree(w) && from in w.blocks && IsPath(w, from, path)
    ensures OnChain(w, from, Tip(from, path))
  {
    if path != [] {
      var n := |path| - 1;
      TipAbove(w, from, path[..n]);
      assert OnChain(w, Tip(from, path[..n]), path[n]);
      OnChainTransitive(w, from, Tip(from, path[..n]), path[n]);
    }
  }

  lemma ForwardNamed(w: World, dflt: int, s: State, mv: Move)
    requires ValidTree(w) && mv.Forward? && Allowed(w, dflt, s, mv) && Named(w, s)
    ensures var s' := Next(w, dflt, s, mv); Named(w, s') && (NamedOnChain(w, s) ==> NamedOnChain(w, s'))
  {
    ForwardShape(w, dflt, s, mv);
    TipAbove(w, s.db.chain.bestHash, mv.path);
    hide ValidTree, Next, Allowed, Reports, FreshSeqs, AncestorAt, OnlyPaidChanges, ReachesTotal, IncSeq;
    var s', tip := Next(w, dflt, s, mv), Tip(s.db.chain.bestHash, mv.path);
    forall a | a in s'.db.invoice
      ensures BlockNamed(w, s'.db.invoice[a])
      ensures NamedOnChain(w, s) && s'.db.invoice[a].blockId.Some? ==> OnChain(w, s'.db.invoice[a].blockId.value, tip)
    {
      assert s'.db.invoice[a] == MarkPaidRow(s'.db.utxo, a, s.db.invoice[a], w.blocks[tip].height, tip);
      if NamedOnChain(w, s) && s.db.invoice[a].blockId.Some? { OnChainTransitive(w, s.db.invoice[a].blockId.value, s.db.chain.bestHash, tip); }
    }
  }

  lemma RolledNamed(w: World, s: State, target: Hash, seqs: SeqMap, nextSeq: int)
    requires ValidTree(w) && s.base in w.blocks && target in w.blocks && Named(w, s)
    ensures var s' := Rolled(w, s, target, seqs, nextSeq);
            Named(w, s') && (NamedOnChain(w, s) && OnChain(w, target, s.db.chain.bestHash) ==> NamedOnChain(w, s'))
  {
    var s' := Rolled(w, s, target, seqs, nextSeq);
    hide AncestorAt, Revert, IncSeq;
    forall a | a in s'.db.invoice
      ensures BlockNamed(w, s'.db.invoice[a])
      ensures NamedOnChain(w, s) && OnChain(w, target, s.db.chain.bestHash) && s'.db.invoice[a].blockId.Some? ==>
                OnChain(w, s'.db.invoice[a].blockId.value, target)
    {
      assert s'.db.invoice[a] == RevertInvoiceRow(s.db.invoice[a], w.blocks[target].height);
      if NamedOnChain(w, s) && OnChain(w, target, s.db.chain.bestHash) && s'.db.invoice[a].blockId.Some? {
        OnChainOrdered(w, s.db.invoice[a].blockId.value, target, s.db.chain.bestHash);
      }
    }
  }

  lemma ElseNamed(w: World, dflt: int, s: State, mv: Move)
    requires ValidTree(w) && Allowed(w, dflt, s, mv) && !IsFollower(mv) && Named(w, s)
    ensures var s' := Next(w, dflt, s, mv); Named(w, s') && (NamedOnChain(w, s) ==> NamedOnChain(w, s'))
  {
    hide ValidTree, OnChain, CalcBalance, KeeperEvents, IncomingAmount, PaidAmount;
  }

  /** Every move keeps it so that paid invoices name the block they were paid at, and unpaid ones none; and every move that
      stays on its branch, that this block is on the chain to the best block. */
  lemma MoveNamed(w: World, dflt: int, s: State, mv: Move)
    requires ValidTree(w) && BestOk(w, s) && Allowed(w, dflt, s, mv) && Named(w, s)
    ensures var s' := Next(w, dflt, s, mv); Named(w, s') && (NamedOnChain(w, s) && OnBranch(w, s, mv) ==> NamedOnChain(w, s'))
  {
    hide ValidTree, Named, NamedOnChain, RollbackReports, AncestorAt;
    match mv
    case Forward(_, _, _, _) => ForwardNamed(w, dflt, s, mv);
    case Rollback(target, seqs, nextSeq) => RolledNamed(w, s, target, seqs, nextSeq);
    case Resync(target, seqs, nextSeq) => RolledNamed(w, s, target, seqs, nextSeq);
    case _ => ElseNamed(w, dflt, s, mv);
  }
}
