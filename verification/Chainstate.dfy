/** The stored best block and the tables: that every effect of the chain to the best block is in the tables, the spends
    included, and what each move of the service does to that. */
module Chainstate {
  import opened Options
  import opened BlockTree
  import opened Ledger
  import opened Confluence
  import opened Tables
  import opened Guarantees
  import opened Feed
  import opened Growth
  import opened Wallet
  import opened Lost

  /** The tables hold exactly the effects of the chain to the stored best block, in all four heights, and all else that
      the service promises holds. */
  ghost predicate Matches(w: World, dflt: int, s: State)
    requires ValidTree(w)
  {
    Good(w, dflt, s) && SpendsOk(w, dflt, s)
  }

  /** The move is no rollback that meets a row spent on chain by its target but spendable only above it. */
  predicate Undamaged(w: World, s: State, mv: Move) {
    (mv.Rollback? || mv.Resync?) && mv.target in w.blocks ==>
      forall o | o in s.db.utxo && o !in s.api :: !Damaged(s.db.utxo[o].heights, w.blocks[mv.target].height)
  }

  lemma ForwardSpends(w: World, dflt: int, s: State, mv: Move)
    requires ValidWorld(w) && Matches(w, dflt, s) && mv.Forward? && Allowed(w, dflt, s, mv)
    ensures var s' := Next(w, dflt, s, mv); s'.base == s.base && s'.db.chain.bestHash in w.blocks && SpendsOk(w, dflt, s')
  {
    hide Exact, SpendExact, RowsOk, Bounded, SeqsOk, NothingMissed, AmountsTold, LogOk, Apply, Confirm, Reports;
    var env, from := EnvOf(s.db, dflt), s.db.chain.bestHash;
    ForwardRows(w, dflt, s, mv);
    EnvStays(s.db, Next(w, dflt, s, mv).db, dflt);
    assert AllExact(w, env, s.base, from, s.db.utxo, s.api);
    ForwardExact(w, env, s.base, from, mv.path, s.db.utxo, s.api);
  }

  /** A rollback to an ancestor brings all four heights back to those of the shorter chain if and only if it damages no row. */
  lemma RolledSpendsIff(w: World, dflt: int, s: State, target: Hash, seqs: SeqMap, nextSeq: int)
    requires ValidWorld(w) && Matches(w, dflt, s) && OnChain(w, target, s.db.chain.bestHash)
    ensures var s' := Rolled(w, s, target, seqs, nextSeq);
            && s'.base in w.blocks
            && (SpendsOk(w, dflt, s') <==> forall o | o in s.db.utxo && o !in s.api :: !Damaged(s.db.utxo[o].heights, w.blocks[target].height))
  {
    hide Exact, SpendExact, RowsOk, Bounded, SeqsOk, NothingMissed, AmountsTold, LogOk, Revert, Damaged, AncestorAt;
    var env, best := EnvOf(s.db, dflt), s.db.chain.bestHash;
    EnvStays(s.db, Rolled(w, s, target, seqs, nextSeq).db, dflt);
    assert AllExact(w, env, s.base, best, s.db.utxo, s.api);
    RollbackExact(w, env, s.base, best, target, s.db.utxo, s.api);
    RollbackAllExactIff(w, env, s.base, best, target, s.db.utxo, s.api);
  }

  // Rows that keep their heights stay matched; new ones come from payments.
  lemma SameSpends(w: World, env: Env, base: Hash, best: Hash, u: UtxoTable, u': UtxoTable, api: set<Outpoint>, api': set<Outpoint>)
    requires ValidTree(w) && base in w.blocks && best in w.blocks && SpendExact(w, env, base, best, best, u, api) && api <= api'
    requires forall o | o in u :: o in u' && u'[o] == u[o].(payment := u'[o].payment)
    requires forall o | o in u' && o !in u :: o in api'
    ensures SpendExact(w, env, base, best, best, u', api')
  {
    assert forall o | o !in api' :: HeightsOf(u', o) == HeightsOf(u, o);
  }

  lemma PaymentSpends(w: World, dflt: int, s: State, mv: Move)
    requires ValidTree(w) && Matches(w, dflt, s) && IsPayment(mv) && Allowed(w, dflt, s, mv)
    ensures var s' := Next(w, dflt, s, mv);
            s'.base == s.base && s'.db.chain == s.db.chain && SpendsOk(w, dflt, s')
  {
    hide Exact, SpendExact, RowsOk, Bounded, SeqsOk, NothingMissed, AmountsTold, LogOk, TablesOk;
    var s' := Next(w, dflt, s, mv);
    PaymentFrame(w, dflt, s, mv);
    EnvStays(s.db, s'.db, dflt);
    SameSpends(w, EnvOf(s.db, dflt), s.base, s.db.chain.bestHash, s.db.utxo, s'.db.utxo, s.api, s'.api);
  }

  // How long an invoice waits for its outputs says nothing about spends.
  lemma ConfirmationsSpend(w: World, env: Env, a: Address, conf: int, base: Hash, best: Hash, u: UtxoTable, api: set<Outpoint>)
    requires ValidTree(w) && base in w.blocks && best in w.blocks && SpendExact(w, env, base, best, best, u, api) && a !in env.confs
    ensures SpendExact(w, WithConfirmations(env, a, conf), base, best, best, u, api)
  {
    hide Spec, WithConfirmations;
    forall o: Outpoint | o !in api
      ensures Spec(w, WithConfirmations(env, a, conf), w.blocks[base].height, best, o).spending == Spec(w, env, w.blocks[base].height, best, o).spending
      ensures Spec(w, WithConfirmations(env, a, conf), w.blocks[base].height, best, o).spent == Spec(w, env, w.blocks[base].height, best, o).spent
    {
      SpecWithConfirmations(w, env, a, conf, w.blocks[base].height, best, o);
    }
  }

  lemma AccountSpends(w: World, dflt: int, s: State, acct: AccountId, more: AddressTable)
    requires ValidTree(w) && Matches(w, dflt, s) && AccountFits(s.db, acct, more) && NonePaid(w, s.base, s.db.chain.bestHash, more)
    ensures SpendsOk(w, dflt, AccountAdded(s, acct, more))
  {
    hide Exact, SpendExact, RowsOk, Bounded, SeqsOk, NothingMissed, AmountsTold, LogOk, TablesOk, NonePaid;
    var env, best := EnvOf(s.db, dflt), s.db.chain.bestHash;
    AccountTables(w, dflt, s, acct, more);
    assert AllExact(w, env, s.base, best, s.db.utxo, s.api);
    AddAddressesIff(w, env, more, s.base, best, s.db.utxo, s.api);
  }

  lemma InvoiceSpends(w: World, dflt: int, s: State, a: Address, row: InvoiceRow, more: AddressTable)
    requires ValidTree(w) && Matches(w, dflt, s) && InvoiceFits(s.db, a, row, more)
    requires NonePaid(w, s.base, s.db.chain.bestHash, more)
    requires ConfirmedAlike(w, s.db.chain.bestHash, s.db.utxo, s.api, a, row.confirmations)
    ensures SpendsOk(w, dflt, InvoiceAdded(s, a, row, more))
  {
    hide Exact, SpendExact, RowsOk, Bounded, SeqsOk, NothingMissed, AmountsTold, LogOk, TablesOk, NonePaid, ConfirmedAlike;
    hide WithConfirmations, WithAddresses;
    var env, best := EnvOf(s.db, dflt), s.db.chain.bestHash;
    var env1 := WithConfirmations(env, a, row.confirmations);
    InvoiceTables(w, dflt, s, a, row, more);
    AddInvoiceIff(w, env, a, row.confirmations, s.base, best, s.db.utxo, s.api);
    ConfirmationsSpend(w, env, a, row.confirmations, s.base, best, s.db.utxo, s.api);
    SameOwners(env, a, row.confirmations);
    assert AllExact(w, env1, s.base, best, s.db.utxo, s.api);
    AddAddressesIff(w, env1, more, s.base, best, s.db.utxo, s.api);
  }

  lemma KeeperSpends(w: World, dflt: int, s: State, mv: Move)
    requires ValidTree(w) && Matches(w, dflt, s) && mv.KeeperBatch? && Allowed(w, dflt, s, mv)
    ensures var s' := Next(w, dflt, s, mv); s'.base == s.base && s'.db.chain == s.db.chain && SpendsOk(w, dflt, s')
  {
    hide Exact, SpendExact, RowsOk, Bounded, SeqsOk, NothingMissed, AmountsTold, LogOk, TablesOk, CalcBalance, KeeperEvents, EnvOf;
    KeeperStateOk(w, dflt, s, mv);
  }

  lemma GoodBase(w: World, dflt: int, s: State)
    requires ValidTree(w) && Good(w, dflt, s)
    ensures s.base in w.blocks && s.db.chain.bestHash in w.blocks
  {
  }

  // The moves of the services other than the follower.
  lemma OtherSpends(w: World, dflt: int, s: State, mv: Move)
    requires ValidTree(w) && Matches(w, dflt, s) && Allowed(w, dflt, s, mv) && Clean(w, dflt, s, mv) && !IsFollower(mv)
    ensures var s' := Next(w, dflt, s, mv);
            s'.base == s.base && s'.db.chain.bestHash == s.db.chain.bestHash && s'.base in w.blocks && s'.db.chain.bestHash in w.blocks
            && SpendsOk(w, dflt, s')
  {
    GoodBase(w, dflt, s);
    hide Good, SpendsOk, ValidTree, Matches, NonePaid, ConfirmedAlike, KeeperDb, KeeperEvents;
    match mv
    case KeeperBatch(_) => KeeperSpends(w, dflt, s, mv);
    case CreateAccount(acct, more) => AccountSpends(w, dflt, s, acct, more);
    case CreateInvoice(a, row, more) => InvoiceSpends(w, dflt, s, a, row, more);
    case _ => PaymentSpends(w, dflt, s, mv);
  }

  lemma FollowerSpendsIff(w: World, dflt: int, s: State, mv: Move)
    requires ValidWorld(w) && Matches(w, dflt, s) && Allowed(w, dflt, s, mv) && Clean(w, dflt, s, mv) && IsFollower(mv)
    ensures var s' := Next(w, dflt, s, mv);
            s'.base in w.blocks && s'.db.chain.bestHash in w.blocks && (SpendsOk(w, dflt, s') <==> Undamaged(w, s, mv))
  {
    assert ValidTree(w);
    GoodBase(w, dflt, s);
    hide Good, SpendsOk, ValidWorld, ValidTree, Matches, RollbackReports, Damaged, OnChain, Reports;
    if mv.Forward? {
      ForwardSpends(w, dflt, s, mv);
    } else {
      AncestorTarget(w, dflt, s, mv);
      RolledSpendsIff(w, dflt, s, mv.target, mv.seqs, mv.nextSeq);
    }
  }

  lemma AncestorTarget(w: World, dflt: int, s: State, mv: Move)
    requires ValidTree(w) && (mv.Rollback? || mv.Resync?) && Allowed(w, dflt, s, mv) && Clean(w, dflt, s, mv)
    ensures OnChain(w, mv.target, s.db.chain.bestHash) && mv.target in w.blocks
  {
    hide AncestorAt, RollbackReports;
  }

  /** The committed best block matches the effects in the tables, all of them: every clean move keeps it so, whichever of
      the services makes it, if and only if it is no rollback that damages a row. */
  lemma MoveMatchesIff(w: World, dflt: int, s: State, mv: Move)
    requires ValidWorld(w) && Matches(w, dflt, s) && Allowed(w, dflt, s, mv) && Clean(w, dflt, s, mv)
    ensures Matches(w, dflt, Next(w, dflt, s, mv)) <==> Undamaged(w, s, mv)
  {
    assert ValidTree(w);
    hide Good, SpendsOk, ValidWorld, ValidTree, Allowed, Clean, Next;
    MoveKeeps(w, dflt, s, mv);
    GoodBase(w, dflt, Next(w, dflt, s, mv));
    if IsFollower(mv) { FollowerSpendsIff(w, dflt, s, mv); } else { OtherSpends(w, dflt, s, mv); }
  }

  /** None is, as long as no chain spends an output before the tables call it spendable. */
  lemma TimelyUndamaged(w: World, dflt: int, s: State, mv: Move)
    requires ValidTree(w) && Matches(w, dflt, s) && SpentWhenSpendable(w, EnvOf(s.db, dflt))
    ensures Undamaged(w, s, mv)
  {
    hide Exact, SpendExact, RowsOk, Bounded, SeqsOk, NothingMissed, AmountsTold, LogOk, TablesOk, Damaged, SpentWhenSpendable;
    if (mv.Rollback? || mv.Resync?) && mv.target in w.blocks {
      NeverDamaged(w, EnvOf(s.db, dflt), s.base, s.db.chain.bestHash, s.db.utxo, s.api, w.blocks[mv.target].height);
    }
  }

  /** A commit of the follower knows no new address and no new invoice. */
  lemma FollowerEnv(w: World, dflt: int, s: State, mv: Move)
    requires ValidTree(w) && Allowed(w, dflt, s, mv) && IsFollower(mv)
    ensures EnvOf(Next(w, dflt, s, mv).db, dflt) == EnvOf(s.db, dflt)
  {
    hide Apply, Confirm, Revert, Reports;
    EnvStays(s.db, Next(w, dflt, s, mv).db, dflt);
  }

  /** Then every clean move keeps the match. */
  lemma MoveMatches(w: World, dflt: int, s: State, mv: Move)
    requires ValidWorld(w) && Matches(w, dflt, s) && Allowed(w, dflt, s, mv) && Clean(w, dflt, s, mv)
    requires SpentWhenSpendable(w, EnvOf(s.db, dflt))
    ensures Matches(w, dflt, Next(w, dflt, s, mv))
  {
    assert ValidTree(w);
    hide Matches, ValidWorld, SpentWhenSpendable, Undamaged;
    TimelyUndamaged(w, dflt, s, mv);
    MoveMatchesIff(w, dflt, s, mv);
  }

  // ------------------------------------------------- spends that came too early

  /** Whatever early spends and damage there have been, the tables hold no wrong spend: each is that of the chain to the
      best block, or it is lost. */
  ghost predicate SpendsSound(w: World, dflt: int, s: State)
    requires ValidTree(w) && s.base in w.blocks && s.db.chain.bestHash in w.blocks
  {
    ExactOrLost(w, EnvOf(s.db, dflt), s.base, s.db.chain.bestHash, s.db.utxo, s.api)
  }

  /** What every clean move keeps on every valid world. */
  ghost predicate Sound(w: World, dflt: int, s: State)
    requires ValidTree(w)
  {
    Good(w, dflt, s) && SpendsSound(w, dflt, s)
  }

  lemma OkIsSound(w: World, dflt: int, s: State)
    requires ValidTree(w) && s.base in w.blocks && s.db.chain.bestHash in w.blocks && SpendsOk(w, dflt, s)
    ensures SpendsSound(w, dflt, s)
  {
    ExactIsSound(w, EnvOf(s.db, dflt), s.base, s.db.chain.bestHash, s.db.utxo, s.api);
  }

  lemma FollowerSound(w: World, dflt: int, s: State, mv: Move)
    requires ValidWorld(w) && Good(w, dflt, s) && s.base in w.blocks && s.db.chain.bestHash in w.blocks && SpendsSound(w, dflt, s)
    requires Allowed(w, dflt, s, mv) && Clean(w, dflt, s, mv) && IsFollower(mv)
    ensures var s' := Next(w, dflt, s, mv);
            s'.base in w.blocks && s'.db.chain.bestHash in w.blocks && SpendsSound(w, dflt, s')
  {
    assert ValidTree(w);
    hide Exact, ExactOrLost, RowsOk, Bounded, SeqsOk, NothingMissed, LogOk, TablesOk, Apply, Confirm, Revert, Reports, AncestorAt, ValidWorld;
    var env, best := EnvOf(s.db, dflt), s.db.chain.bestHash;
    FollowerEnv(w, dflt, s, mv);
    if mv.Forward? {
      ForwardRows(w, dflt, s, mv);
      ForwardSound(w, env, s.base, best, mv.path, s.db.utxo, s.api);
    } else {
      AncestorTarget(w, dflt, s, mv);
      RollbackSound(w, env, s.base, best, mv.target, s.db.utxo, s.api);
    }
  }

  lemma SameSound(w: World, env: Env, base: Hash, best: Hash, u: UtxoTable, u': UtxoTable, api: set<Outpoint>, api': set<Outpoint>)
    requires ValidTree(w) && base in w.blocks && best in w.blocks && ExactOrLost(w, env, base, best, u, api) && api <= api'
    requires forall o | o in u :: o in u' && u'[o] == u[o].(payment := u'[o].payment)
    requires forall o | o in u' && o !in u :: o in api'
    ensures ExactOrLost(w, env, base, best, u', api')
  {
    assert forall o | o !in api' :: HeightsOf(u', o) == HeightsOf(u, o);
  }

  // New addresses and new invoices say nothing about the spends of the rows there are.
  lemma GrownSound(w: World, env: Env, env': Env, base: Hash, best: Hash, u: UtxoTable, api: set<Outpoint>)
    requires ValidTree(w) && base in w.blocks && best in w.blocks && ExactOrLost(w, env, base, best, u, api)
    requires forall o: Outpoint | o !in api ::
               && Spec(w, env', w.blocks[base].height, best, o).spending == Spec(w, env, w.blocks[base].height, best, o).spending
               && Spec(w, env', w.blocks[base].height, best, o).spent == Spec(w, env, w.blocks[base].height, best, o).spent
    ensures ExactOrLost(w, env', base, best, u, api)
  {
    var k := w.blocks[base].height;
    forall o | o !in api ensures SpendRight(w, env', k, best, best, HeightsOf(u, o), o) || SpendLost(w, env', k, best, HeightsOf(u, o), o) {
      assert SpendRight(w, env, k, best, best, HeightsOf(u, o), o) || SpendLost(w, env, k, best, HeightsOf(u, o), o);
    }
  }

  lemma AddressesSpend(w: World, env: Env, more: AddressTable, base: Hash, best: Hash, o: Outpoint)
    requires ValidTree(w) && base in w.blocks && best in w.blocks && more.Keys !! env.owners.Keys && NonePaid(w, base, best, more)
    ensures var k := w.blocks[base].height; Spec(w, WithAddresses(env, more), k, best, o) == Spec(w, env, k, best, o)
  {
    hide Spec, WithAddresses;
    SpecWithAddresses(w, env, more, w.blocks[base].height, best, o);
  }

  lemma CreationSound(w: World, dflt: int, s: State, mv: Move)
    requires ValidTree(w) && Good(w, dflt, s) && s.base in w.blocks && s.db.chain.bestHash in w.blocks && SpendsSound(w, dflt, s)
    requires Allowed(w, dflt, s, mv) && Clean(w, dflt, s, mv) && (mv.CreateAccount? || mv.CreateInvoice?)
    ensures SpendsSound(w, dflt, Next(w, dflt, s, mv))
  {
    hide Exact, ExactOrLost, RowsOk, Bounded, SeqsOk, NothingMissed, LogOk, TablesOk, NonePaid, ConfirmedAlike, Spec, WithAddresses, WithConfirmations;
    var env, k, best := EnvOf(s.db, dflt), w.blocks[s.base].height, s.db.chain.bestHash;
    if mv.CreateAccount? {
      AccountTables(w, dflt, s, mv.account, mv.more);
      forall o: Outpoint ensures Spec(w, WithAddresses(env, mv.more), k, best, o) == Spec(w, env, k, best, o) {
        AddressesSpend(w, env, mv.more, s.base, best, o);
      }
      GrownSound(w, env, WithAddresses(env, mv.more), s.base, best, s.db.utxo, s.api);
    } else {
      InvoiceTables(w, dflt, s, mv.a, mv.invoice, mv.more);
      var env1 := WithConfirmations(env, mv.a, mv.invoice.confirmations);
      SameOwners(env, mv.a, mv.invoice.confirmations);
      forall o: Outpoint
        ensures Spec(w, WithAddresses(env1, mv.more), k, best, o).spending == Spec(w, env, k, best, o).spending
        ensures Spec(w, WithAddresses(env1, mv.more), k, best, o).spent == Spec(w, env, k, best, o).spent
      {
        SpecWithConfirmations(w, env, mv.a, mv.invoice.confirmations, k, best, o);
        AddressesSpend(w, env1, mv.more, s.base, best, o);
      }
      GrownSound(w, env, WithAddresses(env1, mv.more), s.base, best, s.db.utxo, s.api);
    }
  }

  lemma RestSound(w: World, dflt: int, s: State, mv: Move)
    requires ValidTree(w) && Good(w, dflt, s) && s.base in w.blocks && s.db.chain.bestHash in w.blocks && SpendsSound(w, dflt, s)
    requires Allowed(w, dflt, s, mv) && (IsPayment(mv) || mv.KeeperBatch?)
    ensures var s' := Next(w, dflt, s, mv); s'.base == s.base && s'.db.chain == s.db.chain && SpendsSound(w, dflt, s')
  {
    hide Exact, ExactOrLost, RowsOk, Bounded, SeqsOk, NothingMissed, LogOk, TablesOk, KeeperEvents, CalcBalance;
    if mv.KeeperBatch? {
      KeeperStateOk(w, dflt, s, mv);
    } else {
      var s' := Next(w, dflt, s, mv);
      PaymentFrame(w, dflt, s, mv);
      EnvStays(s.db, s'.db, dflt);
      SameSound(w, EnvOf(s.db, dflt), s.base, s.db.chain.bestHash, s.db.utxo, s'.db.utxo, s.api, s'.api);
    }
  }

  /** Every clean move keeps that so, early spends or not. */
  lemma MoveSound(w: World, dflt: int, s: State, mv: Move)
    requires ValidWorld(w) && Good(w, dflt, s) && s.base in w.blocks && s.db.chain.bestHash in w.blocks && SpendsSound(w, dflt, s)
    requires Allowed(w, dflt, s, mv) && Clean(w, dflt, s, mv)
    ensures var s' := Next(w, dflt, s, mv);
            s'.base in w.blocks && s'.db.chain.bestHash in w.blocks && SpendsSound(w, dflt, s')
  {
    assert ValidTree(w);
    hide Good, SpendsSound, ValidWorld, ValidTree, Clean;
    if IsFollower(mv) { FollowerSound(w, dflt, s, mv); }
    else if IsPayment(mv) || mv.KeeperBatch? { RestSound(w, dflt, s, mv); }
    else { CreationSound(w, dflt, s, mv); }
  }

  lemma MoveKeepsSound(w: World, dflt: int, s: State, mv: Move)
    requires ValidWorld(w) && Sound(w, dflt, s) && Allowed(w, dflt, s, mv) && Clean(w, dflt, s, mv)
    ensures Sound(w, dflt, Next(w, dflt, s, mv))
  {
    assert ValidTree(w);
    GoodBase(w, dflt, s);
    hide Good, SpendsSound, ValidWorld, ValidTree, Clean, Allowed, Next;
    MoveKeeps(w, dflt, s, mv);
    MoveSound(w, dflt, s, mv);
  }
}
