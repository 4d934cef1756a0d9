/** The whole service as one state machine over committed store transactions: the follower, BalanceKeeper, payments,
    and the calls that create accounts and invoices, in any interleaving. */
module Wallet {
  import opened Options
  import opened BlockTree
  import opened Ledger
  import opened Confluence
  import opened Tables
  import opened Guarantees
  import opened Feed
  import opened Growth

  /** base: the block below everything followed; api: outpoints inserted by payments; log: events of committed
      batches; seen: what each account owned when BalanceKeeper last processed it. */
  datatype State = State(db: Db, base: Hash, api: set<Outpoint>, log: seq<Event>, seen: SeenMap)

  // ------------------------------------------------------------ the invariant

  /** Invoice addresses resolve to their account and key, key indices are distinct, everything belongs to an account
      there is, and no account is nameless. */
  ghost predicate TablesOk(db: Db) {
    && "" !in db.account && KeysDistinct(db.invoice)
    && (forall a | a in db.address :: db.address[a].account in db.account)
    && (forall a | a in db.invoice ::
          a in db.address && db.address[a] == AddressRow(db.invoice[a].account, db.invoice[a].keyIndex, false))
    && (forall p | p in db.payment :: db.payment[p].account in db.account)
  }

  ghost predicate BestOk(w: World, s: State) {
    && s.base in w.blocks && s.db.chain.bestHash in w.blocks
    && s.db.chain.bestHeight == w.blocks[s.db.chain.bestHash].height
  }

  /** What holds in every reachable state, even after a resync to a block on another branch: no height above the tip,
      rows that say what their transactions say, a change feed that misses nothing, events that alternate. */
  ghost predicate StateOk(w: World, dflt: int, s: State) {
    && BestOk(w, s) && TablesOk(s.db) && RowsOk(w, EnvOf(s.db, dflt), s.db.utxo, s.api)
    && Bounded(s.db) && PaidPositive(s.db.invoice)
    && SeqsOk(s.db) && NothingMissed(s.db, s.seen) && LogOk(s.log, s.db.invoice)
  }

  /** The tables hold every output the chain to the stored best block pays, down to the base, with the heights at which it
      was added and became spendable. */
  ghost predicate ChainOk(w: World, dflt: int, s: State)
    requires ValidTree(w)
  {
    Exact(w, EnvOf(s.db, dflt), s.base, s.db.chain.bestHash, s.db.utxo, s.api)
  }

  /** They also hold every spend on that chain: the heights at which an output was spent and became finally so. */
  ghost predicate SpendsOk(w: World, dflt: int, s: State)
    requires ValidTree(w) && s.base in w.blocks && s.db.chain.bestHash in w.blocks
  {
    SpendExact(w, EnvOf(s.db, dflt), s.base, s.db.chain.bestHash, s.db.chain.bestHash, s.db.utxo, s.api)
  }

  /** The invariant that every clean move keeps, on every valid tree; `SpendsOk` is kept besides exactly when no rollback
      damages a row (`Chainstate.MoveMatchesIff`). What holds of invoices does not depend on it; see `Backing`. */
  ghost predicate Good(w: World, dflt: int, s: State)
    requires ValidTree(w)
  {
    StateOk(w, dflt, s) && ChainOk(w, dflt, s)
  }

  lemma Basics(w: World, dflt: int, s: State)
    requires ValidWorld(w) && StateOk(w, dflt, s)
    ensures ValidTree(w) && BestOk(w, s) && SeqsOk(s.db)
  {
  }

  lemma BestOfState(w: World, dflt: int, s: State)
    requires StateOk(w, dflt, s)
    ensures BestOk(w, s)
  {
  }

  // Nothing has been followed and nothing has been told.
  ghost predicate Untold(db: Db) {
    && db.utxo == map[] && db.cursor == 0 && 1 <= db.chain.nextSeq
    && (forall a | a in db.account :: db.account[a] == NEW_ACCOUNT)
    && (forall a | a in db.invoice :: Untouched(db.invoice[a]))
    && (forall p | p in db.payment :: db.payment[p].paidHeight == None && db.payment[p].confirmedHeight == None)
  }

  // An invoice nothing has happened to.
  predicate Untouched(r: InvoiceRow) {
    r.paidHeight == None && r.blockId == None && !r.paidEvent && r.lastIncoming == None && r.lastPaid == None
  }

  const NEW_ACCOUNT := AccountRow(0, 0, 0.0, 0)
  const NOTHING_SEEN := Seen(map[], map[], map[])

  function Start(db: Db, start: Hash): State {
    State(db, start, {}, [], map a | a in db.account :: NOTHING_SEEN)
  }

  lemma NothingIsNothing(acct: AccountId)
    ensures CalcFrom(map[], map[], acct) == Balance(0, 0, 0.0)
  {
    assert AccountIncomingRows(map[], acct) == {} && AccountCurrentRows(map[], acct) == {} && AccountUnconfirmedPayments(map[], acct) == {};
  }

  lemma UntoldTold(db: Db, acct: AccountId)
    requires Untold(db) && acct in db.account
    ensures Told(db, NOTHING_SEEN, acct)
  {
    NothingIsNothing(acct);
    assert RowsOf(db.utxo, acct) == map[];
  }

  lemma UntoldAmounts(db: Db)
    requires Untold(db)
    ensures AmountsTold(db)
  {
    assert forall a :: IncomingRows(db.utxo, a) == {} && PaidRows(db.utxo, a) == {};
  }

  // An empty table matches the chain at its own base.
  lemma EmptyExact(w: World, env: Env, start: Hash, u: UtxoTable)
    requires ValidTree(w) && start in w.blocks && u == map[]
    ensures Exact(w, env, start, start, u, {}) && SpendExact(w, env, start, start, start, u, {})
  {
  }

  lemma StartStateOk(w: World, dflt: int, db: Db, start: Hash)
    requires start in w.blocks && db.chain.bestHash == start && db.chain.bestHeight == w.blocks[start].height
    requires TablesOk(db) && Untold(db)
    ensures StateOk(w, dflt, Start(db, start))
  {
    hide Told, TablesOk;
    forall acct | acct in db.account ensures Told(db, NOTHING_SEEN, acct) {
      UntoldTold(db, acct);
    }
    forall a ensures LogOkAt([], db.invoice, a) {
    }
  }

  /** The invariant holds when the follower starts, from any block of the tree, and so does the match of all heights. */
  lemma StartGood(w: World, dflt: int, db: Db, start: Hash)
    requires ValidTree(w) && start in w.blocks && db.chain.bestHash == start && db.chain.bestHeight == w.blocks[start].height
    requires TablesOk(db) && Untold(db)
    ensures Good(w, dflt, Start(db, start)) && SpendsOk(w, dflt, Start(db, start)) && AmountsTold(db)
  {
    hide StateOk, Exact, SpendExact, AmountsTold, TablesOk;
    StartStateOk(w, dflt, db, start);
    UntoldAmounts(db);
    EmptyExact(w, EnvOf(db, dflt), start, db.utxo);
  }

  // The tables of a new database, with the first chainstate stored.
  function EmptyDb(w: World, start: Hash, nextSeq: int): Db
    requires start in w.blocks
  {
    Db(map[], map[], map[], map[], map[], ChainRow(start, w.blocks[start].height, nextSeq), 0)
  }

  // ---------------------------------------------------------------- the moves

  datatype Move =
    | Forward(path: seq<Hash>, txids: seq<TxId>, seqs: SeqMap, nextSeq: int)
    | Rollback(target: Hash, seqs: SeqMap, nextSeq: int)   // to an ancestor of the best block
    | Resync(target: Hash, seqs: SeqMap, nextSeq: int)     // to any block, on any branch
    | KeeperBatch(account: AccountId)
    | ReserveUtxo(o: Outpoint, payment: int)
    | InsertChange(o: Outpoint, value: int, address: Address, owner: AddressRow)
    | InsertPayment(id: int, row: PaymentRow)
    | SetTxid(id: int, txid: TxId)
    | CreateAccount(account: AccountId, more: AddressTable)
    | CreateInvoice(a: Address, invoice: InvoiceRow, more: AddressTable)

  predicate IsPayment(mv: Move) {
    mv.ReserveUtxo? || mv.InsertChange? || mv.InsertPayment? || mv.SetTxid?
  }

  // The moves of the follower.
  predicate IsFollower(mv: Move) {
    mv.Forward? || mv.Rollback? || mv.Resync?
  }

  /** The state after a committed rollback to any block of the tree. */
  function Rolled(w: World, s: State, target: Hash, seqs: SeqMap, nextSeq: int): State
    requires s.base in w.blocks && target in w.blocks
  {
    s.(db := RollbackDb(s.db, target, w.blocks[target].height, seqs, nextSeq), base := NewBase(w, s.base, target))
  }

  function Keep(s: State, acct: AccountId, db': Db, events: seq<Event>): State {
    s.(db := db', log := s.log + events, seen := s.seen[acct := SeenNow(db', acct)])
  }

  /** A new account, with a full pool of addresses. */
  function AccountAdded(s: State, acct: AccountId, more: AddressTable): State {
    s.(db := s.db.(account := s.db.account[acct := NEW_ACCOUNT], address := s.db.address + more), seen := s.seen[acct := NOTHING_SEEN])
  }

  /** A new invoice, at an address of the pool, and the addresses that fill the pool up again. */
  function InvoiceAdded(s: State, a: Address, row: InvoiceRow, more: AddressTable): State {
    s.(db := s.db.(invoice := s.db.invoice[a := row], address := s.db.address + more))
  }

  ghost function Next(w: World, dflt: int, s: State, mv: Move): State
    requires ValidTree(w) && Allowed(w, dflt, s, mv)
  {
    match mv
    case Forward(path, txids, seqs, nextSeq) =>
      var tip := Tip(s.db.chain.bestHash, path);
      s.(db := ForwardDb(w, dflt, s.db, PathChanges(w, path), txids, tip, w.blocks[tip].height, seqs, nextSeq))
    case Rollback(target, seqs, nextSeq) => Rolled(w, s, target, seqs, nextSeq)
    case Resync(target, seqs, nextSeq) => Rolled(w, s, target, seqs, nextSeq)
    case KeeperBatch(acct) => Keep(s, acct, KeeperDb(s.db, acct), KeeperEvents(s.db, acct))
    case ReserveUtxo(o, p) => s.(db := s.db.(utxo := Reserved(s.db.utxo, o, p)))
    case InsertChange(o, v, a, owner) =>
      s.(db := s.db.(utxo := Upsert(s.db.utxo, o, v, a, owner, 0)), api := s.api + {o})
    case InsertPayment(id, row) => s.(db := s.db.(payment := s.db.payment[id := row]))
    case SetTxid(id, txid) => s.(db := s.db.(payment := s.db.payment[id := s.db.payment[id].(paidTxid := Some(txid))]))
    case CreateAccount(acct, more) => AccountAdded(s, acct, more)
    case CreateInvoice(a, row, more) => InvoiceAdded(s, a, row, more)
  }

  // The name is free, and the pool is made of new addresses.
  ghost predicate AccountFits(db: Db, acct: AccountId, more: AddressTable) {
    && acct != "" && acct !in db.account
    && more.Keys !! db.address.Keys && forall b | b in more :: more[b].account == acct
  }

  // The address is an external one of the account with no invoice yet, and so is its key.
  ghost predicate InvoiceFits(db: Db, a: Address, row: InvoiceRow, more: AddressTable) {
    && a in db.address && db.address[a] == AddressRow(row.account, row.keyIndex, false) && a !in db.invoice && Untouched(row)
    && (forall b | b in db.invoice && db.invoice[b].account == row.account :: db.invoice[b].keyIndex != row.keyIndex)
    && more.Keys !! db.address.Keys && forall b | b in more :: more[b].account == row.account
  }

  /** Nothing has arrived at the address of a new invoice, or else the account is still to be processed. */
  ghost predicate StillToTell(db: Db, a: Address, acct: AccountId)
    requires acct in db.account
  {
    db.account[acct].chainSeq > db.cursor || (IncomingAmount(db.utxo, a) == 0 && PaidAmount(db.utxo, a) == 0)
  }

  /** What each party actually does: the follower moves along the tree and reports the accounts it touches; the keeper
      takes the next account; a payment inserts its change as its transaction has it; new addresses are new. */
  ghost predicate Allowed(w: World, dflt: int, s: State, mv: Move)
    requires ValidTree(w)
  {
    var db := s.db;
    db.chain.bestHash in w.blocks && s.base in w.blocks &&
    match mv
    case Forward(path, txids, seqs, nextSeq) =>
      && path != [] && IsPath(w, db.chain.bestHash, path) && FreshSeqs(seqs, db.chain.nextSeq, nextSeq)
      && (var tip := Tip(db.chain.bestHash, path);
          Reports(db, ForwardDb(w, dflt, db, PathChanges(w, path), txids, tip, w.blocks[tip].height, seqs, nextSeq), seqs))
    case Rollback(target, seqs, nextSeq) => OnChain(w, target, db.chain.bestHash) && RollbackReports(w, db, target, seqs, nextSeq)
    case Resync(target, seqs, nextSeq) => target in w.blocks && RollbackReports(w, db, target, seqs, nextSeq)
    case KeeperBatch(acct) => IsNext(db, acct)
    case ReserveUtxo(_, _) => true
    case InsertChange(o, v, a, owner) =>
      o !in db.utxo && ApiRow(w, EnvOf(db, dflt), UtxoRow(v, a, owner.account, owner.keyIndex, owner.internal, NO_HEIGHTS, None, None), o)
    case InsertPayment(id, row) =>
      id !in db.payment && row.account in db.account && row.paidHeight == None && row.confirmedHeight == None
    case SetTxid(id, _) => id in db.payment
    case CreateAccount(acct, more) => AccountFits(db, acct, more)
    case CreateInvoice(a, row, more) => InvoiceFits(db, a, row, more) && row.account in db.account
  }

  ghost predicate RollbackReports(w: World, db: Db, target: Hash, seqs: SeqMap, nextSeq: int)
    requires target in w.blocks
  {
    && FreshSeqs(seqs, db.chain.nextSeq, nextSeq)
    && Reports(db, RollbackDb(db, target, w.blocks[target].height, seqs, nextSeq), seqs)
  }

  /** No invoice is created at an address whose receipts its account has been told of already. */
  ghost predicate Timely(s: State, mv: Move) {
    mv.CreateInvoice? && mv.invoice.account in s.db.account ==> StillToTell(s.db, mv.a, mv.invoice.account)
  }

  /** The moves after which the tables still match the chain: no resync to another branch, and nothing paid too early. */
  ghost predicate Clean(w: World, dflt: int, s: State, mv: Move)
    requires ValidTree(w) && Allowed(w, dflt, s, mv)
  {
    match mv
    case Resync(target, _, _) => OnChain(w, target, s.db.chain.bestHash)
    case CreateAccount(_, more) => NonePaid(w, s.base, s.db.chain.bestHash, more)
    case CreateInvoice(a, row, more) =>
      NonePaid(w, s.base, s.db.chain.bestHash, more) && ConfirmedAlike(w, s.db.chain.bestHash, s.db.utxo, s.api, a, row.confirmations)
    case _ => true
  }

  // ------------------------------------------------------- commits of the follower

  lemma RowsAtInvoices(w: World, dflt: int, s: State)
    requires TablesOk(s.db) && RowsOk(w, EnvOf(s.db, dflt), s.db.utxo, s.api)
    ensures AccountsAtInvoices(s.db.utxo, s.db.invoice)
    ensures forall o | o in s.db.utxo && s.db.utxo[o].address in s.db.invoice :: s.db.utxo[o].value > 0
  {
    var env := EnvOf(s.db, dflt);
    forall o | o in s.db.utxo && s.db.utxo[o].address in s.db.invoice
      ensures s.db.utxo[o].account == s.db.invoice[s.db.utxo[o].address].account && s.db.utxo[o].value > 0
    {
      assert s.db.utxo[o].address in env.confs;
      assert o !in s.api;
      assert SameContent(s.db.utxo[o], w.txs[o.txid].vout[o.vout], env.owners);
    }
  }

  // The follower changes nothing of an invoice but paid_height and block_id, and gives no payment another account.
  ghost predicate OnlyPaidChanges(db: Db, db': Db) {
    && db'.invoice.Keys == db.invoice.Keys && db'.payment.Keys == db.payment.Keys
    && (forall a | a in db.invoice ::
          db'.invoice[a] == db.invoice[a].(paidHeight := db'.invoice[a].paidHeight, blockId := db'.invoice[a].blockId))
    && forall p | p in db.payment :: db'.payment[p].account == db.payment[p].account
  }

  // An account that is not reported owns what it owned.
  lemma UnreportedSame(db: Db, db': Db, seqs: SeqMap, acct: AccountId)
    requires Reports(db, db', seqs) && acct !in seqs && acct != ""
    requires Kept(db.utxo, db'.utxo) && OnlyPaidChanges(db, db')
    ensures SameFor(db, db', acct)
  {
    SameMap(RowsOf(db'.utxo, acct), RowsOf(db.utxo, acct));
    SameMap(InvoicesOf(db'.invoice, acct), InvoicesOf(db.invoice, acct));
    forall p ensures p in PaymentsOf(db'.payment, acct) <==> p in PaymentsOf(db.payment, acct) {
      assert p in db'.payment.Keys <==> p in db.payment.Keys;
    }
    forall p | p in PaymentsOf(db.payment, acct) ensures PaymentsOf(db'.payment, acct)[p] == PaymentsOf(db.payment, acct)[p] {
      assert p in db'.payment.Keys;
    }
    SameMap(PaymentsOf(db'.payment, acct), PaymentsOf(db.payment, acct));
  }

  /** A follower commit that reports every account it touches leaves nothing missed. */
  lemma FollowerMissesNothing(db: Db, db': Db, seqs: SeqMap, seen: SeenMap)
    requires SeqsOk(db) && NothingMissed(db, seen) && "" !in db.account
    requires FreshSeqs(seqs, db.chain.nextSeq, db'.chain.nextSeq) && Reports(db, db', seqs)
    requires db'.account == IncSeq(db.account, seqs) && db'.cursor == db.cursor
    requires Kept(db.utxo, db'.utxo) && OnlyPaidChanges(db, db')
    ensures SeqsOk(db') && NothingMissed(db', seen)
    ensures AccountsAtInvoices(db.utxo, db.invoice) && AccountsAtInvoices(db'.utxo, db'.invoice) && AmountsTold(db) ==> AmountsTold(db')
  {
    hide Told, AmountsToldTo, Reports, SameFor, Kept, AccountsAtInvoices;
    IncSeqOk(db, db', seqs);
    forall acct | acct in db'.account && db'.account[acct].chainSeq <= db'.cursor ensures acct in seen && Told(db', seen[acct], acct) {
      assert acct !in seqs && acct != "";
      UnreportedSame(db, db', seqs, acct);
      ToldStays(db, db', seen[acct], acct);
    }
    if AccountsAtInvoices(db.utxo, db.invoice) && AccountsAtInvoices(db'.utxo, db'.invoice) && AmountsTold(db) {
      forall acct | acct in db'.account && db'.account[acct].chainSeq <= db'.cursor ensures AmountsToldTo(db', acct) {
        UnreportedSame(db, db', seqs, acct);
        AmountsStay(db, db', acct);
      }
    }
  }

  lemma EnvStays(db: Db, db': Db, dflt: int)
    requires db'.address == db.address && db'.invoice.Keys == db.invoice.Keys
    requires forall a | a in db.invoice :: db'.invoice[a].confirmations == db.invoice[a].confirmations
    ensures EnvOf(db', dflt) == EnvOf(db, dflt)
  {
    SameMap(EnvOf(db', dflt).confs, EnvOf(db, dflt).confs);
  }

  lemma FollowerTables(db: Db, db': Db, log: seq<Event>)
    requires TablesOk(db) && LogOk(log, db.invoice) && OnlyPaidChanges(db, db')
    requires db'.address == db.address && db'.account.Keys == db.account.Keys
    ensures TablesOk(db') && LogOk(log, db'.invoice)
  {
    forall a ensures LogOkAt(log, db'.invoice, a) {
      assert LogOkAt(log, db.invoice, a);
    }
  }

  // Putting the parts together for a commit of the follower.
  lemma FollowerStateOk(w: World, dflt: int, s: State, s': State, seqs: SeqMap)
    requires StateOk(w, dflt, s) && BestOk(w, s')
    requires RowsOk(w, EnvOf(s.db, dflt), s'.db.utxo, s.api) && Kept(s.db.utxo, s'.db.utxo)
    requires Bounded(s'.db) && PaidPositive(s'.db.invoice) && OnlyPaidChanges(s.db, s'.db)
    requires FreshSeqs(seqs, s.db.chain.nextSeq, s'.db.chain.nextSeq) && Reports(s.db, s'.db, seqs)
    requires s'.db.account == IncSeq(s.db.account, seqs) && s'.db.cursor == s.db.cursor && s'.db.address == s.db.address
    requires s'.log == s.log && s'.api == s.api && s'.seen == s.seen
    ensures StateOk(w, dflt, s') && (AmountsTold(s.db) ==> AmountsTold(s'.db))
  {
    hide RowsOk, Bounded, PaidPositive, Reports, FreshSeqs, Kept, SeqsOk, NothingMissed, AmountsTold;
    FollowerTables(s.db, s'.db, s.log);
    EnvStays(s.db, s'.db, dflt);
    RowsAtInvoices(w, dflt, s);
    RowsAtInvoices(w, dflt, s');
    FollowerMissesNothing(s.db, s'.db, seqs, s.seen);
  }

  // ---------------------------------------------------------- a forward batch

  lemma PathHeights(w: World, from: Hash, path: seq<Hash>)
    requires ValidTree(w) && from in w.blocks && IsPath(w, from, path)
    ensures w.blocks[Tip(from, path)].height == w.blocks[from].height + |path|
    ensures ChangesAtMost(PathChanges(w, path), w.blocks[Tip(from, path)].height)
  {
    if path != [] {
      var b := w.blocks[path[|path| - 1]];
      PathHeights(w, from, path[..|path| - 1]);
      BlockChangeHeights(w, b.txids, b.height);
    }
  }

  lemma {:induction false} BlockChangeHeights(w: World, ids: seq<TxId>, height: int)
    requires forall i | 0 <= i < |ids| :: ids[i] in w.txs
    ensures forall c | c in BlockChanges(w, ids, height) :: c.height == height
  {
    if ids != [] {
      var id := ids[|ids| - 1];
      BlockChangeHeights(w, ids[..|ids| - 1], height);
      SpendChangeHeights(w.txs[id].vin, height, id);
      NewChangeHeights(w.txs[id].vout, height, id);
    }
  }

  lemma SpendChangeHeights(vin: seq<Outpoint>, height: int, id: TxId)
    ensures forall c | c in SpendChanges(vin, height, id) :: c.height == height
  {
  }

  lemma NewChangeHeights(vout: seq<TxOut>, height: int, id: TxId)
    ensures forall c | c in NewChanges(vout, height, id) :: c.height == height
  {
  }

  lemma ForwardRows(w: World, dflt: int, s: State, mv: Move)
    requires ValidWorld(w) && mv.Forward? && Allowed(w, dflt, s, mv) && RowsOk(w, EnvOf(s.db, dflt), s.db.utxo, s.api)
    ensures var u' := Next(w, dflt, s, mv).db.utxo; Kept(s.db.utxo, u') && RowsOk(w, EnvOf(s.db, dflt), u', s.api)
    ensures var from := s.db.chain.bestHash;
            Next(w, dflt, s, mv).db.utxo == Confluence.Forward(w, EnvOf(s.db, dflt), s.db.utxo, from, mv.path)
  {
    hide ValidWorld, RowsOk, Kept, Apply, Confirm, Reports;
    ForwardKeepsContent(w, EnvOf(s.db, dflt), s.db.chain.bestHash, mv.path, s.db.utxo, s.api);
  }

  // Invoices paid by a batch are paid above the genesis block.
  lemma ForwardPays(db: Db, db': Db, u: UtxoTable, height: int, block: Hash)
    requires PaidPositive(db.invoice) && height > 0 && db'.invoice == MarkPaid(u, db.invoice, height, block)
    ensures PaidPositive(db'.invoice)
  {
  }

  lemma ForwardShape(w: World, dflt: int, s: State, mv: Move)
    requires ValidTree(w) && mv.Forward? && Allowed(w, dflt, s, mv)
    ensures var db', tip := Next(w, dflt, s, mv).db, Tip(s.db.chain.bestHash, mv.path);
            && OnlyPaidChanges(s.db, db') && Reports(s.db, db', mv.seqs) && FreshSeqs(mv.seqs, s.db.chain.nextSeq, db'.chain.nextSeq)
            && db'.account == IncSeq(s.db.account, mv.seqs) && db'.cursor == s.db.cursor && db'.address == s.db.address
            && Next(w, dflt, s, mv) == s.(db := db')
            && tip in w.blocks && db'.chain == ChainRow(tip, w.blocks[tip].height, mv.nextSeq)
            && db'.invoice == MarkPaid(db'.utxo, s.db.invoice, w.blocks[tip].height, tip)
  {
    hide Reports, Apply, Confirm;
  }

  lemma ForwardDbBounded(w: World, dflt: int, s: State, mv: Move)
    requires ValidTree(w) && mv.Forward? && Allowed(w, dflt, s, mv) && BestOk(w, s) && Bounded(s.db)
    ensures Bounded(Next(w, dflt, s, mv).db) && Next(w, dflt, s, mv).db.chain.bestHeight > 0
  {
    hide Bounded, Reports, Apply, Confirm;
    var c := Next(w, dflt, s, mv).db.chain;
    PathHeights(w, s.db.chain.bestHash, mv.path);
    ForwardBounded(w, dflt, s.db, PathChanges(w, mv.path), mv.txids, c.bestHash, c.bestHeight, mv.seqs, mv.nextSeq);
  }

  /** A committed forward batch, after any resync or none. */
  lemma ForwardStateOk(w: World, dflt: int, s: State, mv: Move)
    requires ValidWorld(w) && StateOk(w, dflt, s) && mv.Forward? && Allowed(w, dflt, s, mv)
    ensures StateOk(w, dflt, Next(w, dflt, s, mv)) && (AmountsTold(s.db) ==> AmountsTold(Next(w, dflt, s, mv).db))
  {
    assert ValidTree(w);
    var from, s' := s.db.chain.bestHash, Next(w, dflt, s, mv);
    var c := s'.db.chain;
    ForwardDbBounded(w, dflt, s, mv);
    hide RowsOk, Bounded, PaidPositive, Reports, FreshSeqs, SeqsOk, NothingMissed, LogOk, TablesOk, Kept, ValidWorld, Apply, Confirm, Next, Allowed;
    ForwardShape(w, dflt, s, mv);
    ForwardRows(w, dflt, s, mv);
    ForwardPays(s.db, s'.db, s'.db.utxo, c.bestHeight, c.bestHash);
    FollowerStateOk(w, dflt, s, s', mv.seqs);
  }

  /** It keeps the match with the chain. */
  lemma ForwardChainOk(w: World, dflt: int, s: State, mv: Move)
    requires ValidWorld(w) && StateOk(w, dflt, s) && ChainOk(w, dflt, s) && mv.Forward? && Allowed(w, dflt, s, mv)
    ensures ChainOk(w, dflt, Next(w, dflt, s, mv))
  {
    hide Exact, RowsOk, Bounded, Apply, Confirm, Reports, FreshSeqs, SeqsOk, NothingMissed, LogOk, TablesOk;
    var env, from := EnvOf(s.db, dflt), s.db.chain.bestHash;
    ForwardRows(w, dflt, s, mv);
    ForwardExact(w, env, s.base, from, mv.path, s.db.utxo, s.api);
    EnvStays(s.db, Next(w, dflt, s, mv).db, dflt);
  }

  /** A committed forward batch keeps the invariant. */
  lemma ForwardKeeps(w: World, dflt: int, s: State, mv: Move)
    requires ValidWorld(w) && Good(w, dflt, s) && mv.Forward? && Allowed(w, dflt, s, mv)
    ensures Good(w, dflt, Next(w, dflt, s, mv))
  {
    hide StateOk, ChainOk, Next, Allowed, ValidWorld, AmountsTold;
    ForwardStateOk(w, dflt, s, mv);
    ForwardChainOk(w, dflt, s, mv);
  }

  // -------------------------------------------------------------- a rollback

  lemma RevertKeepsRows(w: World, env: Env, u: UtxoTable, api: set<Outpoint>, m: int)
    requires RowsOk(w, env, u, api)
    ensures Kept(u, Revert(u, m)) && RowsOk(w, env, Revert(u, m), api)
  {
  }

  lemma RevertPaidPositive(inv: InvoiceTable, m: int)
    requires PaidPositive(inv)
    ensures PaidPositive(RevertInvoices(inv, m))
  {
  }

  /** A committed rollback to any block of the tree, as a reorganisation or a resync asks for: no height is above the tip
      afterwards, and nothing but the match with the chain can be lost. */
  lemma RolledStateOk(w: World, dflt: int, s: State, target: Hash, seqs: SeqMap, nextSeq: int)
    requires StateOk(w, dflt, s) && target in w.blocks && RollbackReports(w, s.db, target, seqs, nextSeq)
    ensures StateOk(w, dflt, Rolled(w, s, target, seqs, nextSeq))
    ensures AmountsTold(s.db) ==> AmountsTold(Rolled(w, s, target, seqs, nextSeq).db)
  {
    hide AmountsTold, RowsOk, Bounded, PaidPositive, Reports, FreshSeqs, SeqsOk, NothingMissed, LogOk, TablesOk, Kept, Revert;
    RollbackBounded(s.db, target, w.blocks[target].height, seqs, nextSeq);
    RevertKeepsRows(w, EnvOf(s.db, dflt), s.db.utxo, s.api, w.blocks[target].height);
    RevertPaidPositive(s.db.invoice, w.blocks[target].height);
    FollowerStateOk(w, dflt, s, Rolled(w, s, target, seqs, nextSeq), seqs);
  }

  /** To an ancestor of the best block, the match with the chain is kept, too. */
  lemma RolledKeeps(w: World, dflt: int, s: State, target: Hash, seqs: SeqMap, nextSeq: int)
    requires ValidWorld(w) && Good(w, dflt, s) && OnChain(w, target, s.db.chain.bestHash)
    requires RollbackReports(w, s.db, target, seqs, nextSeq)
    ensures Good(w, dflt, Rolled(w, s, target, seqs, nextSeq))
  {
    hide AmountsTold, Exact, RowsOk, Bounded, PaidPositive, Reports, FreshSeqs, SeqsOk, NothingMissed, LogOk, Revert, ValidWorld, AncestorAt;
    RolledStateOk(w, dflt, s, target, seqs, nextSeq);
    EnvStays(s.db, Rolled(w, s, target, seqs, nextSeq).db, dflt);
    RollbackExact(w, EnvOf(s.db, dflt), s.base, s.db.chain.bestHash, target, s.db.utxo, s.api);
  }

  // ------------------------------------------------------------ BalanceKeeper

  // BalanceKeeper changes nothing of an invoice but what it remembers of its own events.
  ghost predicate OnlyEventsChange(inv: InvoiceTable, inv': InvoiceTable) {
    && inv.Keys == inv'.Keys
    && forall a | a in inv ::
         inv'[a] == inv[a].(paidEvent := inv'[a].paidEvent, lastIncoming := inv'[a].lastIncoming, lastPaid := inv'[a].lastPaid)
  }

  lemma KeeperTables(w: World, dflt: int, s: State, s': State)
    requires BestOk(w, s) && TablesOk(s.db) && Bounded(s.db)
    requires OnlyEventsChange(s.db.invoice, s'.db.invoice) && s'.db.account.Keys == s.db.account.Keys
    requires s'.db == s.db.(invoice := s'.db.invoice, account := s'.db.account, cursor := s'.db.cursor) && s'.base == s.base
    ensures BestOk(w, s') && TablesOk(s'.db) && Bounded(s'.db) && EnvOf(s'.db, dflt) == EnvOf(s.db, dflt)
  {
    EnvStays(s.db, s'.db, dflt);
  }

  lemma KeysOk(db: Db)
    ensures TablesOk(db) ==> KeysDistinct(db.invoice)
  {
  }

  lemma KeeperStateOk(w: World, dflt: int, s: State, mv: Move)
    requires ValidTree(w) && StateOk(w, dflt, s) && mv.KeeperBatch? && Allowed(w, dflt, s, mv)
    ensures StateOk(w, dflt, Next(w, dflt, s, mv)) && EnvOf(Next(w, dflt, s, mv).db, dflt) == EnvOf(s.db, dflt)
    ensures AmountsTold(s.db) ==> AmountsTold(Next(w, dflt, s, mv).db)
  {
    hide AmountsTold, RowsOk, Bounded, TablesOk, NothingMissed, LogOk, SeqsOk, BestOk, CalcBalance, KeeperEvents;
    KeysOk(s.db);
    KeeperTables(w, dflt, s, Next(w, dflt, s, mv));
    RowsAtInvoices(w, dflt, s);
    KeeperKeeps(s.db, s.seen, mv.account);
    if AmountsTold(s.db) { KeeperTellsAmounts(s.db, mv.account); }
    KeeperLog(s.db, mv.account, s.log);
  }

  lemma KeeperKeepsAll(w: World, dflt: int, s: State, mv: Move)
    requires ValidTree(w) && Good(w, dflt, s) && mv.KeeperBatch? && Allowed(w, dflt, s, mv)
    ensures Good(w, dflt, Next(w, dflt, s, mv))
  {
    hide StateOk, Exact, CalcBalance, KeeperEvents, EnvOf, AmountsTold;
    KeeperStateOk(w, dflt, s, mv);
  }

  // --------------------------------------------------------------- payments

  // What a payment may do to the rows: set a reservation, or add internal rows away from any invoice.
  ghost predicate PaymentRows(u: UtxoTable, u': UtxoTable, inv: InvoiceTable) {
    && (forall o | o in u :: o in u' && u'[o] == u[o].(payment := u'[o].payment))
    && (forall o | o in u' && o !in u ::
          u'[o].internal && u'[o].address !in inv && u'[o].heights == Heights(Some(0), None, None, None))
  }

  // What it may do to the payments: note a transaction id, or add one that no block holds yet.
  ghost predicate PaymentEntries(pay: PaymentTable, pay': PaymentTable) {
    && (forall p | p in pay :: p in pay' && pay'[p] == pay[p].(paidTxid := pay'[p].paidTxid))
    && (forall p | p in pay' && p !in pay :: pay'[p].paidHeight == None && pay'[p].confirmedHeight == None)
  }

  /** A payment changes no height of any output or payment there is, no invoice, no account, no address, and nothing of
      the chainstate, the cursor or the events. */
  lemma PaymentFrame(w: World, dflt: int, s: State, mv: Move)
    requires ValidTree(w) && TablesOk(s.db) && Allowed(w, dflt, s, mv) && IsPayment(mv)
    ensures var s' := Next(w, dflt, s, mv);
            && PaymentRows(s.db.utxo, s'.db.utxo, s.db.invoice) && PaymentEntries(s.db.payment, s'.db.payment)
            && s'.db == s.db.(utxo := s'.db.utxo, payment := s'.db.payment) && s' == s.(db := s'.db, api := s'.api)
  {
    if mv.InsertChange? {
      assert mv.address in EnvOf(s.db, dflt).owners && mv.address !in EnvOf(s.db, dflt).confs;
    }
  }

  lemma PaymentAmounts(u: UtxoTable, u': UtxoTable, inv: InvoiceTable, a: Address)
    requires PaymentRows(u, u', inv) && a in inv
    ensures IncomingAmount(u', a) == IncomingAmount(u, a) && PaidAmount(u', a) == PaidAmount(u, a)
  {
    assert IncomingRows(u', a) == IncomingRows(u, a);
    assert PaidRows(u', a) == PaidRows(u, a);
    SumCongruence(u, u', IncomingRows(u, a));
    SumCongruence(u, u', PaidRows(u, a));
  }

  lemma PaymentStill(db: Db, db': Db, seen: Seen, acct: AccountId)
    requires Still(db, seen, acct) && db'.invoice == db.invoice
    requires PaymentRows(db.utxo, db'.utxo, db.invoice) && PaymentEntries(db.payment, db'.payment)
    ensures Still(db', seen, acct)
  {
    var rows, rows', pays, pays' := RowsOf(db.utxo, acct), RowsOf(db'.utxo, acct), PaymentsOf(db.payment, acct), PaymentsOf(db'.payment, acct);
    forall o | o in seen.utxo ensures o in rows' && rows'[o] == seen.utxo[o].(payment := rows'[o].payment) {
      assert o in rows;
    }
    forall o | o in rows' && o !in seen.utxo ensures rows'[o].internal && rows'[o].heights == Heights(Some(0), None, None, None) {
      assert o in db.utxo ==> o in rows;
    }
    forall p | p in seen.payment ensures p in pays' && pays'[p] == seen.payment[p].(paidTxid := pays'[p].paidTxid) {
      assert p in pays;
    }
    forall p | p in pays' && p !in seen.payment ensures pays'[p].paidHeight == None && pays'[p].confirmedHeight == None {
      assert p in db.payment ==> p in pays;
    }
  }

  lemma PaymentTold(db: Db, db': Db, seen: SeenMap)
    requires NothingMissed(db, seen) && db'.account == db.account && db'.invoice == db.invoice && db'.cursor == db.cursor
    requires PaymentRows(db.utxo, db'.utxo, db.invoice) && PaymentEntries(db.payment, db'.payment)
    ensures NothingMissed(db', seen) && (AmountsTold(db) ==> AmountsTold(db'))
  {
    hide Still, PaymentRows, PaymentEntries, IncomingAmount, PaidAmount;
    forall acct | acct in db'.account && db'.account[acct].chainSeq <= db'.cursor ensures acct in seen && Told(db', seen[acct], acct) {
      assert Told(db, seen[acct], acct);
      PaymentStill(db, db', seen[acct], acct);
    }
    forall a | a in db.invoice ensures AmountTold(db'.utxo, db'.invoice[a], a) <==> AmountTold(db.utxo, db.invoice[a], a) {
      PaymentAmounts(db.utxo, db'.utxo, db.invoice, a);
    }
  }

  lemma PaymentTables(w: World, dflt: int, s: State, mv: Move)
    requires ValidTree(w) && Allowed(w, dflt, s, mv) && IsPayment(mv) && TablesOk(s.db) && BestOk(w, s)
    ensures var s' := Next(w, dflt, s, mv); TablesOk(s'.db) && BestOk(w, s') && EnvOf(s'.db, dflt) == EnvOf(s.db, dflt)
  {
    EnvStays(s.db, Next(w, dflt, s, mv).db, dflt);
  }

  lemma PaymentBounded(db: Db, db': Db)
    requires Bounded(db) && db.chain.bestHeight >= 0 && db'.chain == db.chain && db'.invoice == db.invoice
    requires PaymentRows(db.utxo, db'.utxo, db.invoice) && PaymentEntries(db.payment, db'.payment)
    ensures Bounded(db')
  {
    forall o | o in db'.utxo ensures HeightsAtMost(db'.utxo[o].heights, db.chain.bestHeight) {
      assert o in db.utxo ==> db'.utxo[o].heights == db.utxo[o].heights;
    }
    forall p | p in db'.payment
      ensures AtMost(db'.payment[p].paidHeight, db.chain.bestHeight) && AtMost(db'.payment[p].confirmedHeight, db.chain.bestHeight)
    {
      assert p in db.payment ==> db'.payment[p] == db.payment[p].(paidTxid := db'.payment[p].paidTxid);
    }
  }

  lemma PaymentRowsOk(w: World, dflt: int, s: State, mv: Move)
    requires ValidTree(w) && Allowed(w, dflt, s, mv) && IsPayment(mv) && RowsOk(w, EnvOf(s.db, dflt), s.db.utxo, s.api)
    ensures RowsOk(w, EnvOf(s.db, dflt), Next(w, dflt, s, mv).db.utxo, Next(w, dflt, s, mv).api)
  {
    hide Keeps, EnvOf, ValidTree;
    if mv.ReserveUtxo? {
      ReservedRowsOk(w, EnvOf(s.db, dflt), s.db.utxo, s.api, mv.o, mv.payment);
    }
  }

  lemma ReservedRowsOk(w: World, env: Env, u: UtxoTable, api: set<Outpoint>, o: Outpoint, payment: int)
    requires RowsOk(w, env, u, api)
    ensures RowsOk(w, env, Reserved(u, o, payment), api)
  {
    hide Keeps;
  }

  lemma PaymentStateOk(w: World, dflt: int, s: State, mv: Move)
    requires ValidTree(w) && StateOk(w, dflt, s) && Allowed(w, dflt, s, mv) && IsPayment(mv)
    ensures StateOk(w, dflt, Next(w, dflt, s, mv)) && (AmountsTold(s.db) ==> AmountsTold(Next(w, dflt, s, mv).db))
  {
    hide AmountsTold, RowsOk, Bounded, TablesOk, NothingMissed, LogOk, SeqsOk, BestOk, PaymentRows, PaymentEntries, Allowed, Next;
    PaymentFrame(w, dflt, s, mv);
    PaymentTables(w, dflt, s, mv);
    PaymentRowsOk(w, dflt, s, mv);
    PaymentBounded(s.db, Next(w, dflt, s, mv).db);
    PaymentTold(s.db, Next(w, dflt, s, mv).db, s.seen);
    PaymentSeqs(s.db, Next(w, dflt, s, mv).db);
  }

  lemma PaymentSeqs(db: Db, db': Db)
    requires SeqsOk(db) && db'.account == db.account && db'.cursor == db.cursor && db'.chain == db.chain
    ensures SeqsOk(db')
  {
  }

  lemma PaymentExact(w: World, env: Env, base: Hash, best: Hash, u: UtxoTable, u': UtxoTable, api: set<Outpoint>, api': set<Outpoint>)
    requires ValidTree(w) && Exact(w, env, base, best, u, api) && api <= api'
    requires forall o | o in u :: o in u' && u'[o] == u[o].(payment := u'[o].payment)
    requires forall o | o in u' && o !in u :: o in api'
    ensures Exact(w, env, base, best, u', api')
  {
    assert forall o | o !in api' :: HeightsOf(u', o) == HeightsOf(u, o);
  }

  /** Paying keeps the invariant, and touches what `PaymentFrame` says and nothing else. */
  lemma PaymentKeeps(w: World, dflt: int, s: State, mv: Move)
    requires ValidTree(w) && Good(w, dflt, s) && Allowed(w, dflt, s, mv) && IsPayment(mv)
    ensures Good(w, dflt, Next(w, dflt, s, mv))
    ensures var s' := Next(w, dflt, s, mv);
            && PaymentRows(s.db.utxo, s'.db.utxo, s.db.invoice) && PaymentEntries(s.db.payment, s'.db.payment)
            && s'.db == s.db.(utxo := s'.db.utxo, payment := s'.db.payment) && s' == s.(db := s'.db, api := s'.api)
  {
    hide AmountsTold, RowsOk, Bounded, NothingMissed, LogOk, SeqsOk, Exact, TablesOk;
    var s' := Next(w, dflt, s, mv);
    PaymentStateOk(w, dflt, s, mv);
    PaymentFrame(w, dflt, s, mv);
    EnvStays(s.db, s'.db, dflt);
    PaymentExact(w, EnvOf(s.db, dflt), s.base, s.db.chain.bestHash, s.db.utxo, s'.db.utxo, s.api, s'.api);
  }

  // ------------------------------------------------- new accounts and invoices

  lemma AccountTables(w: World, dflt: int, s: State, acct: AccountId, more: AddressTable)
    requires TablesOk(s.db) && AccountFits(s.db, acct, more) && RowsOk(w, EnvOf(s.db, dflt), s.db.utxo, s.api)
    ensures var s' := AccountAdded(s, acct, more);
            && TablesOk(s'.db) && EnvOf(s'.db, dflt) == WithAddresses(EnvOf(s.db, dflt), more)
            && RowsOk(w, EnvOf(s'.db, dflt), s'.db.utxo, s'.api)
  {
    RowsWithAddresses(w, EnvOf(s.db, dflt), more, s.db.utxo, s.api);
  }

  // Nothing belongs to an account that there is not.
  ghost predicate OwnsNothing(db: Db, acct: AccountId) {
    && (forall o | o in db.utxo :: db.utxo[o].account != acct) && (forall a | a in db.invoice :: db.invoice[a].account != acct)
    && (forall p | p in db.payment :: db.payment[p].account != acct)
  }

  lemma NoAccountOwnsNothing(w: World, dflt: int, s: State, acct: AccountId)
    requires TablesOk(s.db) && acct !in s.db.account && RowsOk(w, EnvOf(s.db, dflt), s.db.utxo, s.api)
    ensures OwnsNothing(s.db, acct)
  {
    forall o | o in s.db.utxo ensures s.db.utxo[o].account != acct {
      assert o !in s.api ==> SameContent(s.db.utxo[o], w.txs[o.txid].vout[o.vout], EnvOf(s.db, dflt).owners);
    }
  }

  lemma NewAccountTold(db: Db, acct: AccountId)
    requires OwnsNothing(db, acct) && acct in db.account && db.account[acct] == NEW_ACCOUNT
    ensures Told(db, NOTHING_SEEN, acct)
  {
    NothingIsNothing(acct);
    assert RowsOf(db.utxo, acct) == map[] && InvoicesOf(db.invoice, acct) == map[];
    assert forall p :: p !in PaymentsOf(db.payment, acct);
  }

  lemma AccountTold(w: World, dflt: int, s: State, acct: AccountId, more: AddressTable)
    requires StateOk(w, dflt, s) && AccountFits(s.db, acct, more)
    ensures var s' := AccountAdded(s, acct, more); NothingMissed(s'.db, s'.seen) && (AmountsTold(s.db) ==> AmountsTold(s'.db))
  {
    hide RowsOk, Bounded, LogOk, TablesOk, Told, SeqsOk;
    var s' := AccountAdded(s, acct, more);
    NoAccountOwnsNothing(w, dflt, s, acct);
    NewAccountTold(s'.db, acct);
    forall b | b in s'.db.account && s'.db.account[b].chainSeq <= s'.db.cursor && b != acct
      ensures b in s'.seen && Told(s'.db, s'.seen[b], b)
    {
      ToldStays(s.db, s'.db, s.seen[b], b);
    }
  }

  lemma AccountStateOk(w: World, dflt: int, s: State, acct: AccountId, more: AddressTable)
    requires StateOk(w, dflt, s) && AccountFits(s.db, acct, more)
    ensures StateOk(w, dflt, AccountAdded(s, acct, more)) && (AmountsTold(s.db) ==> AmountsTold(AccountAdded(s, acct, more).db))
  {
    hide AmountsTold, RowsOk, NothingMissed, TablesOk;
    AccountTables(w, dflt, s, acct, more);
    AccountTold(w, dflt, s, acct, more);
  }

  /** Creating an account keeps the invariant if and only if none of its addresses was paid before. */
  lemma CreateAccountIff(w: World, dflt: int, s: State, acct: AccountId, more: AddressTable)
    requires ValidTree(w) && Good(w, dflt, s) && AccountFits(s.db, acct, more)
    ensures Good(w, dflt, AccountAdded(s, acct, more)) <==> NonePaid(w, s.base, s.db.chain.bestHash, more)
  {
    hide AmountsTold, RowsOk, NothingMissed, TablesOk, Exact, NonePaid, LogOk, Bounded, SeqsOk;
    AccountStateOk(w, dflt, s, acct, more);
    AccountTables(w, dflt, s, acct, more);
    AddAddressesIff(w, EnvOf(s.db, dflt), more, s.base, s.db.chain.bestHash, s.db.utxo, s.api);
  }

  function InvoiceEnv(env: Env, a: Address, row: InvoiceRow, more: AddressTable): Env {
    WithAddresses(WithConfirmations(env, a, row.confirmations), more)
  }

  lemma InvoiceTablesOk(s: State, a: Address, row: InvoiceRow, more: AddressTable)
    requires TablesOk(s.db) && InvoiceFits(s.db, a, row, more)
    ensures TablesOk(InvoiceAdded(s, a, row, more).db)
  {
  }

  // An external address is no change address.
  lemma RowsWithInvoice(w: World, env: Env, a: Address, conf: int, u: UtxoTable, api: set<Outpoint>)
    requires RowsOk(w, env, u, api) && a in env.owners && !env.owners[a].internal
    ensures RowsOk(w, WithConfirmations(env, a, conf), u, api)
  {
    hide Keeps, Genuine;
  }

  lemma InvoiceTables(w: World, dflt: int, s: State, a: Address, row: InvoiceRow, more: AddressTable)
    requires TablesOk(s.db) && InvoiceFits(s.db, a, row, more) && RowsOk(w, EnvOf(s.db, dflt), s.db.utxo, s.api)
    ensures var s', env := InvoiceAdded(s, a, row, more), EnvOf(s.db, dflt);
            && TablesOk(s'.db) && EnvOf(s'.db, dflt) == InvoiceEnv(env, a, row, more)
            && RowsOk(w, WithConfirmations(env, a, row.confirmations), s.db.utxo, s.api)
            && RowsOk(w, EnvOf(s'.db, dflt), s'.db.utxo, s'.api)
  {
    hide RowsOk;
    var env := EnvOf(s.db, dflt);
    InvoiceTablesOk(s, a, row, more);
    SameMap(EnvOf(InvoiceAdded(s, a, row, more).db, dflt).confs, env.confs[a := row.confirmations]);
    RowsWithInvoice(w, env, a, row.confirmations, s.db.utxo, s.api);
    RowsWithAddresses(w, WithConfirmations(env, a, row.confirmations), more, s.db.utxo, s.api);
  }

  // The account of the new invoice: nothing it was told becomes untrue.
  lemma InvoiceToldStays(db: Db, db': Db, seen: Seen, a: Address, row: InvoiceRow)
    requires row.account in db.account && Told(db, seen, row.account) && a !in db.invoice && Untouched(row)
    requires db'.account == db.account && db'.utxo == db.utxo && db'.payment == db.payment && db'.invoice == db.invoice[a := row]
    ensures Told(db', seen, row.account)
  {
    assert InvoicesOf(db'.invoice, row.account) == InvoicesOf(db.invoice, row.account)[a := row];
    assert a !in seen.invoice;
  }

  lemma OthersSame(db: Db, db': Db, b: AccountId, a: Address, row: InvoiceRow)
    requires db'.utxo == db.utxo && db'.payment == db.payment && db'.invoice == db.invoice[a := row]
    requires a !in db.invoice && row.account != b
    ensures SameFor(db, db', b)
  {
    SameMap(InvoicesOf(db'.invoice, b), InvoicesOf(db.invoice, b));
  }

  /** Creating an invoice makes nothing untrue that an account was told of the chain. */
  lemma InvoiceMissesNothing(db: Db, db': Db, seen: SeenMap, a: Address, row: InvoiceRow)
    requires NothingMissed(db, seen) && row.account in db.account && a !in db.invoice && Untouched(row)
    requires db'.account == db.account && db'.utxo == db.utxo && db'.payment == db.payment && db'.invoice == db.invoice[a := row]
    requires db'.cursor == db.cursor
    ensures NothingMissed(db', seen)
  {
    hide Told, SameFor;
    forall b | b in db.account && db.account[b].chainSeq <= db.cursor ensures b in seen && Told(db', seen[b], b) {
      if b == row.account {
        InvoiceToldStays(db, db', seen[b], a, row);
      } else {
        OthersSame(db, db', b, a, row);
        ToldStays(db, db', seen[b], b);
      }
    }
  }

  /** The amounts stay told over it if and only if what has arrived at its address is still to be told. */
  lemma InvoiceAmountsIff(db: Db, db': Db, a: Address, row: InvoiceRow)
    requires AmountsTold(db) && row.account in db.account && a !in db.invoice && Untouched(row)
    requires db'.account == db.account && db'.utxo == db.utxo && db'.invoice == db.invoice[a := row] && db'.cursor == db.cursor
    ensures AmountsTold(db') <==> StillToTell(db, a, row.account)
  {
    hide IncomingAmount, PaidAmount;
    forall b | b in db'.invoice && b != a ensures AmountTold(db'.utxo, db'.invoice[b], b) <==> AmountTold(db.utxo, db.invoice[b], b) {
    }
    if AmountsTold(db') && db.account[row.account].chainSeq <= db.cursor {
      assert AmountsToldTo(db', row.account) && AmountTold(db'.utxo, db'.invoice[a], a);
    }
  }

  lemma InvoiceLog(log: seq<Event>, inv: InvoiceTable, a: Address, row: InvoiceRow)
    requires LogOk(log, inv) && a !in inv && Untouched(row)
    ensures LogOk(log, inv[a := row])
  {
    var inv' := inv[a := row];
    forall b ensures LogOkAt(log, inv', b) {
      assert LogOkAt(log, inv, b);
    }
  }

  lemma InvoiceStateOk(w: World, dflt: int, s: State, a: Address, row: InvoiceRow, more: AddressTable)
    requires StateOk(w, dflt, s) && InvoiceFits(s.db, a, row, more) && row.account in s.db.account
    ensures StateOk(w, dflt, InvoiceAdded(s, a, row, more))
    ensures AmountsTold(s.db) ==> (AmountsTold(InvoiceAdded(s, a, row, more).db) <==> StillToTell(s.db, a, row.account))
  {
    hide RowsOk, NothingMissed, TablesOk, LogOk, StillToTell, AmountsTold;
    InvoiceTables(w, dflt, s, a, row, more);
    InvoiceLog(s.log, s.db.invoice, a, row);
    InvoiceMissesNothing(s.db, InvoiceAdded(s, a, row, more).db, s.seen, a, row);
    if AmountsTold(s.db) { InvoiceAmountsIff(s.db, InvoiceAdded(s, a, row, more).db, a, row); }
  }

  /** Creating an invoice keeps the invariant if and only if none of the addresses that join the pool was paid before, and
      nothing has arrived at its own address that is confirmed otherwise than the invoice asks for. */
  lemma CreateInvoiceIff(w: World, dflt: int, s: State, a: Address, row: InvoiceRow, more: AddressTable)
    requires ValidTree(w) && Good(w, dflt, s) && InvoiceFits(s.db, a, row, more) && row.account in s.db.account
    ensures Good(w, dflt, InvoiceAdded(s, a, row, more))
       <==> NonePaid(w, s.base, s.db.chain.bestHash, more)
            && ConfirmedAlike(w, s.db.chain.bestHash, s.db.utxo, s.api, a, row.confirmations)
  {
    hide AmountsTold, RowsOk, NothingMissed, TablesOk, Exact, NonePaid, LogOk, Bounded, SeqsOk, ConfirmedAlike, StillToTell, WithConfirmations, WithAddresses;
    var env := EnvOf(s.db, dflt);
    InvoiceStateOk(w, dflt, s, a, row, more);
    InvoiceTables(w, dflt, s, a, row, more);
    AddInvoiceIff(w, env, a, row.confirmations, s.base, s.db.chain.bestHash, s.db.utxo, s.api);
    assert WithConfirmations(env, a, row.confirmations).owners == env.owners by { SameOwners(env, a, row.confirmations); }
    AddAddressesIff(w, WithConfirmations(env, a, row.confirmations), more, s.base, s.db.chain.bestHash, s.db.utxo, s.api);
  }

  lemma SameOwners(env: Env, a: Address, conf: int)
    ensures WithConfirmations(env, a, conf).owners == env.owners
  {
  }

  // ------------------------------------------------------------------ any move

  /** Every move keeps what does not depend on the chain, whatever it is a resync to; timely ones leave the amounts told. */
  lemma MoveStateOk(w: World, dflt: int, s: State, mv: Move)
    requires ValidWorld(w) && StateOk(w, dflt, s) && Allowed(w, dflt, s, mv)
    ensures StateOk(w, dflt, Next(w, dflt, s, mv))
    ensures AmountsTold(s.db) && Timely(s, mv) ==> AmountsTold(Next(w, dflt, s, mv).db)
  {
    assert ValidTree(w);
    hide StateOk, ValidWorld, RollbackReports, AmountsTold, StillToTell;
    match mv
    case Forward(_, _, _, _) => ForwardStateOk(w, dflt, s, mv);
    case Rollback(target, seqs, nextSeq) => RolledStateOk(w, dflt, s, target, seqs, nextSeq);
    case Resync(target, seqs, nextSeq) => RolledStateOk(w, dflt, s, target, seqs, nextSeq);
    case KeeperBatch(_) => KeeperStateOk(w, dflt, s, mv);
    case CreateAccount(acct, more) => AccountStateOk(w, dflt, s, acct, more);
    case CreateInvoice(a, row, more) => InvoiceStateOk(w, dflt, s, a, row, more);
    case _ => PaymentStateOk(w, dflt, s, mv);
  }

  /** Every clean move keeps the invariant. */
  lemma MoveKeeps(w: World, dflt: int, s: State, mv: Move)
    requires ValidWorld(w) && Good(w, dflt, s) && Allowed(w, dflt, s, mv) && Clean(w, dflt, s, mv)
    ensures Good(w, dflt, Next(w, dflt, s, mv))
  {
    assert ValidTree(w);
    hide Good, ValidWorld, RollbackReports;
    match mv
    case Forward(_, _, _, _) => ForwardKeeps(w, dflt, s, mv);
    case Rollback(target, seqs, nextSeq) => RolledKeeps(w, dflt, s, target, seqs, nextSeq);
    case Resync(target, seqs, nextSeq) => RolledKeeps(w, dflt, s, target, seqs, nextSeq);
    case KeeperBatch(_) => KeeperKeepsAll(w, dflt, s, mv);
    case CreateAccount(acct, more) => CreateAccountIff(w, dflt, s, acct, more);
    case CreateInvoice(a, row, more) => CreateInvoiceIff(w, dflt, s, a, row, more);
    case _ => PaymentKeeps(w, dflt, s, mv);
  }

  /** A reservation, once made, survives every forward batch, rollback, resync, keeper batch, insertion and creation. */
  lemma OnlyReserveReserves(w: World, dflt: int, s: State, mv: Move, o: Outpoint)
    requires ValidWorld(w) && StateOk(w, dflt, s) && Allowed(w, dflt, s, mv) && o in s.db.utxo
    requires mv.ReserveUtxo? ==> mv.o != o
    ensures o in Next(w, dflt, s, mv).db.utxo && Next(w, dflt, s, mv).db.utxo[o].payment == s.db.utxo[o].payment
  {
    hide RowsOk, NothingMissed, TablesOk, LogOk, Bounded, SeqsOk, Confirm, Apply, Reports, PathChanges, AncestorAt;
    if mv.Forward? {
      ForwardRows(w, dflt, s, mv);
      assert Kept(s.db.utxo, Next(w, dflt, s, mv).db.utxo);
    }
  }
}
