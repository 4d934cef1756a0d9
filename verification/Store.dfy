/** The store: its tables in one field, each UPDATE … WHERE a loop over rows, and
    transactions that either commit whole or leave no trace. */
module Store {
  import opened Options
  import opened BlockTree
  import opened Ledger
  import opened Confluence
  import opened Tables
  import opened Guarantees
  import opened Feed

  /** UPDATE t SET … WHERE …: every matching row is replaced, and its owner is returned, in no particular order. */
  method UpdateRows<K(==), R>(t: map<K, R>, cond: (K, R) -> bool, upd: R -> R, owner: R -> AccountId)
    returns (t': map<K, R>, ids: seq<AccountId>)
    ensures t'.Keys == t.Keys
    ensures forall k | k in t :: t'[k] == if cond(k, t[k]) then upd(t[k]) else t[k]
    ensures forall k | k in t && cond(k, t[k]) :: owner(t[k]) in ids
    ensures forall id | id in ids :: exists k :: k in t && cond(k, t[k]) && owner(t[k]) == id
  {
    t', ids := t, [];
    var todo := t.Keys;
    while todo != {}
      invariant todo <= t.Keys && t'.Keys == t.Keys
      invariant forall k | k in t :: t'[k] == if cond(k, t[k]) && k !in todo then upd(t[k]) else t[k]
      invariant forall k | k in t && cond(k, t[k]) :: k in todo || owner(t[k]) in ids
      invariant forall id | id in ids :: exists k :: k in t && cond(k, t[k]) && owner(t[k]) == id
      decreases todo
    {
      var k :| k in todo;
      if cond(k, t[k]) {
        t' := t'[k := upd(t[k])];
        ids := ids + [owner(t[k])];
      }
      todo := todo - {k};
    }
  }

  /** SELECT SUM(value) FROM utxo WHERE …; found is false when the sum is NULL. */
  method SumWhere(u: UtxoTable, cond: UtxoRow -> bool, ghost all: set<Outpoint>) returns (found: bool, total: int)
    requires forall o :: o in all <==> o in u && cond(u[o])
    ensures found == (all != {}) && total == Sum(u, all)
  {
    found, total := false, 0;
    var todo := u.Keys;
    while todo != {}
      invariant todo <= u.Keys && found == (all - todo != {}) && total == Sum(u, all - todo)
      decreases todo
    {
      var o := Any(todo);
      if cond(u[o]) {
        SumInsert(u, all - todo, o);
        assert all - (todo - {o}) == all - todo + {o};
        found, total := true, total + u[o].value;
      } else {
        assert all - (todo - {o}) == all - todo;
      }
      todo := todo - {o};
    }
    assert all - todo == all;
  }

  lemma ReportedTwice(u: UtxoTable, v: UtxoTable, w: UtxoTable, keys: set<AccountId>)
    requires UtxoReported(u, v, keys) && UtxoReported(v, w, keys)
    ensures UtxoReported(u, w, keys)
  {
  }

  /** Returned ids without the empty one (collectArrayIDs). */
  method WithoutEmpty(ids: seq<AccountId>) returns (r: seq<AccountId>)
    ensures forall id :: id in r <==> id in ids && id != ""
  {
    r := [];
    for i := 0 to |ids|
      invariant forall id :: id in r <==> id in ids[..i] && id != ""
    {
      assert ids[..i + 1] == ids[..i] + [ids[i]];
      if ids[i] != "" { r := r + [ids[i]]; }
    }
    assert ids[..|ids|] == ids;
  }

  /** Number each account once, in the order it first shows up. */
  function NumberAll(accounts: SeqMap, seqNo: int, ids: seq<AccountId>): (SeqMap, int) {
    if ids == [] then (accounts, seqNo)
    else
      var (m, next) := NumberAll(accounts, seqNo, ids[..|ids| - 1]);
      var id := ids[|ids| - 1];
      if id in m then (m, next) else (m[id := next], next + 1)
  }

  lemma NumberNext(accounts: SeqMap, seqNo: int, ids: seq<AccountId>, i: nat)
    requires i < |ids|
    ensures var (m, next) := NumberAll(accounts, seqNo, ids[..i]);
            NumberAll(accounts, seqNo, ids[..i + 1]) == if ids[i] in m then (m, next) else (m[ids[i] := next], next + 1)
  {
    assert ids[..i + 1][..i] == ids[..i];
  }

  lemma FreshOneMore(m: SeqMap, first: int, next: int, id: AccountId)
    requires FreshSeqs(m, first, next) && id !in m
    ensures FreshSeqs(m[id := next], first, next + 1)
  {
  }

  /** Numbers once given stay, and every listed account gets one. */
  lemma {:induction false} NumberAllIs(accounts: SeqMap, first: int, seqNo: int, ids: seq<AccountId>)
    requires FreshSeqs(accounts, first, seqNo)
    ensures var (m, next) := NumberAll(accounts, seqNo, ids);
            && FreshSeqs(m, first, next)
            && (forall a :: a in m <==> a in accounts || a in ids) && (forall a | a in accounts :: m[a] == accounts[a])
  {
    if ids != [] {
      var n := |ids| - 1;
      NumberAllIs(accounts, first, seqNo, ids[..n]);
      assert ids == ids[..n] + [ids[n]];
      hide FreshSeqs;
      var (m, next) := NumberAll(accounts, seqNo, ids[..n]);
      if ids[n] !in m { FreshOneMore(m, first, next, ids[n]); }
    }
  }

  /** Of two accounts without a number, the one that shows up first gets the lower one. */
  lemma {:induction false} NumberedInOrder(accounts: SeqMap, first: int, seqNo: int, ids: seq<AccountId>, i: nat, j: nat)
    requires FreshSeqs(accounts, first, seqNo)
    requires i < j < |ids| && ids[i] !in accounts && ids[j] !in accounts && ids[j] !in ids[..j]
    ensures var m := NumberAll(accounts, seqNo, ids).0; ids[i] in m && ids[j] in m && m[ids[i]] < m[ids[j]]
    decreases |ids|
  {
    var n := |ids| - 1;
    NumberAllIs(accounts, first, seqNo, ids[..n]);
    assert ids[..n][i] == ids[i];
    if j < n {
      assert ids[..n][j] == ids[j] && ids[..n][..j] == ids[..j];
      NumberedInOrder(accounts, first, seqNo, ids[..n], i, j);
    }
  }

  /** collectIDs: the same, account by account. */
  method CollectIds(ids: seq<AccountId>, accounts: SeqMap, ghost first: int, seqNo: int) returns (accounts': SeqMap, seqNo': int)
    requires FreshSeqs(accounts, first, seqNo)
    ensures FreshSeqs(accounts', first, seqNo') && (accounts', seqNo') == NumberAll(accounts, seqNo, ids)
    ensures forall id :: id in accounts' <==> id in accounts || id in ids
    ensures forall id | id in accounts :: accounts'[id] == accounts[id]
  {
    accounts', seqNo' := accounts, seqNo;
    NumberAllIs(accounts, first, seqNo, ids);
    assert NumberAll(accounts, seqNo, ids[..0]) == (accounts, seqNo);
    hide NumberAll, FreshSeqs;
    for i := 0 to |ids|
      invariant (accounts', seqNo') == NumberAll(accounts, seqNo, ids[..i])
    {
      NumberNext(accounts, seqNo, ids, i);
      if ids[i] !in accounts' {
        accounts' := accounts'[ids[i] := seqNo'];
        seqNo' := seqNo' + 1;
      }
    }
    assert ids[..|ids|] == ids;
  }

  /** Account ids with the sequence numbers a batch hands out. */
  class AccountMap {
    var accounts: SeqMap
    var nextSeq: int
    ghost const first: int

    ghost predicate Valid()
      reads this
    {
      FreshSeqs(accounts, first, nextSeq)
    }

    constructor (nextSeq: int)
      ensures Valid() && first == nextSeq && accounts == map[] && this.nextSeq == nextSeq
    {
      accounts, this.nextSeq, first := map[], nextSeq, nextSeq;
    }

    method Add(id: AccountId)
      requires Valid()
      modifies this
      ensures Valid() && accounts == if id in old(accounts) then old(accounts) else old(accounts)[id := old(nextSeq)]
      ensures nextSeq == if id in old(accounts) then old(nextSeq) else old(nextSeq) + 1
    {
      if id !in accounts {
        accounts := accounts[id := nextSeq];
        nextSeq := nextSeq + 1;
      }
    }

    method AddIds(ids: seq<AccountId>)
      requires Valid()
      modifies this
      ensures Valid() && (accounts, nextSeq) == NumberAll(old(accounts), old(nextSeq), ids)
      ensures (forall id :: id in accounts <==> id in old(accounts) || id in ids)
      ensures forall a | a in old(accounts) :: accounts[a] == old(accounts)[a]
    {
      assert NumberAll(accounts, nextSeq, ids[..0]) == (accounts, nextSeq);
      hide NumberAll, FreshSeqs;
      for i := 0 to |ids|
        invariant Valid() && (accounts, nextSeq) == NumberAll(old(accounts), old(nextSeq), ids[..i])
      {
        NumberNext(old(accounts), old(nextSeq), ids, i);
        Add(ids[i]);
      }
      assert ids[..|ids|] == ids;
      NumberAllIs(old(accounts), first, old(nextSeq), ids);
    }
  }

  class SQLiteStore {
    var db: Db            // the tables as this connection sees them
    ghost var saved: Db   // the tables as of the last Begin
    var attempts: nat     // transactions ended so far
    const commits: nat -> bool // whether the n-th transaction commits

    constructor (db: Db, commits: nat -> bool)
      ensures this.db == db && this.commits == commits && attempts == 0
    {
      this.db, this.commits, saved, attempts := db, commits, db, 0;
    }

    // ------------------------------------------------------- transactions

    method Begin() returns (snapshot: Db)
      modifies this`saved
      ensures saved == snapshot == db
    {
      saved, snapshot := db, db;
    }

    /** Commit reports failure by undoing everything since Begin. */
    method Commit(snapshot: Db) returns (ok: bool)
      requires snapshot == saved
      modifies this`db, this`attempts
      ensures attempts == old(attempts) + 1 && ok == commits(old(attempts))
      ensures db == if ok then old(db) else saved
    {
      ok := commits(attempts);
      attempts := attempts + 1;
      if !ok { db := snapshot; }
    }

    // -------------------------------------------------------------- UTXOs

    method CreateUTXO(o: Outpoint, value: int, address: Address, owner: AddressRow, height: int)
      modifies this`db
      ensures db == old(db).(utxo := Upsert(old(db).utxo, o, value, address, owner, height))
    {
      if o in db.utxo {
        var r := db.utxo[o];
        db := db.(utxo := db.utxo[o := r.(value := value, address := address, account := owner.account,
                                          keyIndex := owner.keyIndex, internal := owner.internal,
                                          heights := r.heights.(added := Some(height)))]);
      } else {
        db := db.(utxo := db.utxo[o := UtxoRow(value, address, owner.account, owner.keyIndex, owner.internal,
                                               Heights(Some(height), None, None, None), None, None)]);
      }
    }

    method MarkUTXOSpent(o: Outpoint, height: int, spender: TxId) returns (id: AccountId)
      modifies this`db
      ensures db == old(db).(utxo := MarkSpent(old(db).utxo, o, height, spender))
      ensures id == if o in old(db).utxo then old(db).utxo[o].account else ""
    {
      if o !in db.utxo { return ""; }
      var r := db.utxo[o];
      db := db.(utxo := db.utxo[o := r.(heights := r.heights.(spending := Some(height)), spendTx := Some(spender))]);
      return r.account;
    }

    method MarkUTXOReserved(o: Outpoint, payment: int)
      modifies this`db
      ensures db == old(db).(utxo := Reserved(old(db).utxo, o, payment))
    {
      if o in db.utxo {
        db := db.(utxo := db.utxo[o := db.utxo[o].(payment := Some(payment))]);
      }
    }

    // The statement that makes outputs spendable; an invoice can ask for its own number of confirmations.
    method ConfirmSpendables(confirmations: int, height: int) returns (ids: seq<AccountId>)
      modifies this`db
      ensures db == old(db).(utxo := db.utxo) && db.utxo.Keys == old(db).utxo.Keys
      ensures forall o | o in db.utxo :: db.utxo[o] ==
                ConfirmSpendable(old(db).utxo[o], ConfOf(EnvOf(old(db), confirmations), old(db).utxo[o].address), height)
      ensures UtxoReported(old(db).utxo, db.utxo, set id | id in ids)
    {
      var env := EnvOf(db, confirmations);
      var u', ids' := UpdateRows(db.utxo,
        (o: Outpoint, r: UtxoRow) => r.heights.added.Some? && r.heights.spendable == None
          && r.heights.added.value + ConfOf(env, r.address) <= height,
        (r: UtxoRow) => ConfirmSpendable(r, ConfOf(env, r.address), height),
        (r: UtxoRow) => r.account);
      db := db.(utxo := u');
      ids := ids';
    }

    method ConfirmSpents(confirmations: int, height: int) returns (ids: seq<AccountId>)
      modifies this`db
      ensures db == old(db).(utxo := db.utxo) && db.utxo.Keys == old(db).utxo.Keys
      ensures forall o | o in db.utxo :: db.utxo[o] == ConfirmSpent(old(db).utxo[o], confirmations, height)
      ensures UtxoReported(old(db).utxo, db.utxo, set id | id in ids)
    {
      var u', ids' := UpdateRows(db.utxo,
        (o: Outpoint, r: UtxoRow) => r.heights.spending.Some? && r.heights.spent == None
          && r.heights.spending.value + confirmations <= height,
        (r: UtxoRow) => if r.heights.spending.Some?
          then r.(heights := r.heights.(spent := Some(r.heights.spending.value + confirmations))) else r,
        (r: UtxoRow) => r.account);
      db := db.(utxo := u');
      ids := ids';
    }

    method ConfirmUTXOs(confirmations: int, height: int) returns (ids: seq<AccountId>)
      modifies this`db
      ensures db == old(db).(utxo := Confirm(old(db).utxo, EnvOf(old(db), confirmations), height))
      ensures UtxoReported(old(db).utxo, db.utxo, set id | id in ids)
    {
      ghost var u0 := db.utxo;
      var ids1 := ConfirmSpendables(confirmations, height);
      ghost var u1 := db.utxo;
      var ids2 := ConfirmSpents(confirmations, height);
      SameMap(db.utxo, Confirm(u0, EnvOf(old(db), confirmations), height));
      ids := WithoutEmpty(ids1 + ids2);
      assert forall o | o in db.utxo :: u0[o].account == u1[o].account == db.utxo[o].account;
    }

    // One revert statement on `utxo`.
    method RevertOneStage(st: Stage, m: int, ghost first: int, accounts: SeqMap, seqNo: int)
      returns (accounts': SeqMap, seqNo': int)
      requires FreshSeqs(accounts, first, seqNo)
      modifies this`db
      ensures db == old(db).(utxo := db.utxo) && db.utxo.Keys == old(db).utxo.Keys
      ensures forall o | o in db.utxo :: db.utxo[o] == RevertStage(st, old(db).utxo[o], m)
      ensures FreshSeqs(accounts', first, seqNo') && accounts.Keys <= accounts'.Keys
      ensures UtxoReported(old(db).utxo, db.utxo, accounts'.Keys)
    {
      var u', ids := UpdateRows(db.utxo, (o: Outpoint, r: UtxoRow) => Above(StageHeight(st, r.heights), m),
                                (r: UtxoRow) => r.(heights := Without(st, r.heights)), (r: UtxoRow) => r.account);
      db := db.(utxo := u');
      accounts', seqNo' := CollectIds(ids, accounts, first, seqNo);
    }

    /** The four revert statements on `utxo`, collecting the accounts they touch. */
    method RevertUTXOs(m: int, ghost first: int, accounts: SeqMap, seqNo: int) returns (accounts': SeqMap, seqNo': int)
      requires FreshSeqs(accounts, first, seqNo)
      modifies this`db
      ensures db == old(db).(utxo := Revert(old(db).utxo, m))
      ensures FreshSeqs(accounts', first, seqNo') && UtxoReported(old(db).utxo, db.utxo, accounts'.Keys)
    {
      ghost var u0 := db.utxo;
      accounts', seqNo' := RevertOneStage(Added, m, first, accounts, seqNo);
      ghost var u1 := db.utxo;
      accounts', seqNo' := RevertOneStage(Spendable, m, first, accounts', seqNo');
      ghost var u2 := db.utxo;
      ReportedTwice(u0, u1, u2, accounts'.Keys);
      accounts', seqNo' := RevertOneStage(Spending, m, first, accounts', seqNo');
      ghost var u3 := db.utxo;
      ReportedTwice(u0, u2, u3, accounts'.Keys);
      accounts', seqNo' := RevertOneStage(Final, m, first, accounts', seqNo');
      ReportedTwice(u0, u3, db.utxo, accounts'.Keys);
      SameMap(db.utxo, Revert(u0, m));
    }

    // ----------------------------------------------------------- invoices

    method SumPaid(a: Address) returns (found: bool, total: int)
      ensures found == (PaidRows(db.utxo, a) != {}) && total == Sum(db.utxo, PaidRows(db.utxo, a))
    {
      found, total := SumWhere(db.utxo, (r: UtxoRow) => r.address == a && r.heights.spendable.Some?, PaidRows(db.utxo, a));
    }

    method MarkInvoicesPaid(height: int, block: Hash) returns (ids: seq<AccountId>)
      modifies this`db
      ensures db == old(db).(invoice := MarkPaid(old(db).utxo, old(db).invoice, height, block))
      ensures InvoiceReported(old(db).invoice, db.invoice, set id | id in ids)
    {
      var inv := db.invoice;
      // the subquery: unpaid invoices whose confirmed outputs reach the total
      var due: set<Address> := {};
      var todo := inv.Keys;
      while todo != {}
        invariant todo <= inv.Keys && db == old(db)
        invariant forall a :: a in due <==> a in inv && a !in todo && inv[a].paidHeight == None && ReachesTotal(db.utxo, a, inv[a].total)
        decreases todo
      {
        var a :| a in todo;
        if inv[a].paidHeight == None {
          var found, total := SumPaid(a);
          if found && total >= inv[a].total { due := due + {a}; }
        }
        todo := todo - {a};
      }
      var inv', ids' := UpdateRows(inv, (a: Address, r: InvoiceRow) => a in due,
                                   (r: InvoiceRow) => r.(paidHeight := Some(height), blockId := Some(block)),
                                   (r: InvoiceRow) => r.account);
      SameMap(inv', MarkPaid(db.utxo, inv, height, block));
      db := db.(invoice := inv');
      ids := WithoutEmpty(ids');
    }

    // ----------------------------------------------------------- payments

    // The UPDATE for one index.
    method MarkIndexOnChain(i: nat, height: int) returns (ids: seq<AccountId>)
      modifies this`db
      ensures db == old(db).(payment := MarkIndex(old(db).payment, i, height))
      ensures PaymentReported(old(db).payment, db.payment, set id | id in ids)
    {
      var pay := db.payment;
      var pay', ids' := UpdateRows(pay, (p: int, r: PaymentRow) => r.paidTxid == Some(Decimal(i)),
                                   (r: PaymentRow) => r.(paidHeight := Some(height)), (r: PaymentRow) => r.account);
      ids := WithoutEmpty(ids');
      SameMap(pay', MarkIndex(pay, i, height));
      db := db.(payment := pay');
    }

    /** One UPDATE per index into the list of transaction ids. */
    method MarkPaymentsOnChain(txids: seq<TxId>, height: int) returns (ids: seq<AccountId>)
      modifies this`db
      ensures db == old(db).(payment := MarkOnChain(old(db).payment, |txids|, height))
      ensures PaymentReported(old(db).payment, db.payment, set id | id in ids)
    {
      ids := [];
      ghost var pay := db.payment;
      MarkOnChainNone(pay, height);
      hide MarkOnChain, MarkIndex;
      for i := 0 to |txids|
        invariant db == old(db).(payment := MarkOnChain(pay, i, height))
        invariant PaymentReported(pay, db.payment, set id | id in ids)
      {
        MarkOnChainNext(pay, i, height);
        var ids' := MarkIndexOnChain(i, height);
        ids := ids + ids';
      }
    }

    method ConfirmPayments(confirmations: int, height: int) returns (ids: seq<AccountId>)
      modifies this`db
      ensures db == old(db).(payment := Tables.ConfirmPayments(old(db).payment, confirmations, height))
      ensures PaymentReported(old(db).payment, db.payment, set id | id in ids)
    {
      var pay := db.payment;
      var pay', ids' := UpdateRows(pay,
        (p: int, r: PaymentRow) => r.paidHeight.Some? && r.paidHeight.value + confirmations <= height && r.confirmedHeight == None,
        (r: PaymentRow) => if r.paidHeight.Some? then r.(confirmedHeight := Some(r.paidHeight.value + confirmations)) else r,
        (r: PaymentRow) => r.account);
      forall p | p in pay ensures pay'[p] == ConfirmPaymentRow(pay[p], confirmations, height) {
      }
      SameMap(pay', Tables.ConfirmPayments(pay, confirmations, height));
      db := db.(payment := pay');
      ids := WithoutEmpty(ids');
    }

    // ------------------------------------------------------ chain sequence

    /** One UPDATE per account of the map. */
    method IncChainSeqForAccounts(seqs: SeqMap)
      modifies this`db
      ensures db == old(db).(account := IncSeq(old(db).account, seqs))
    {
      var acc := db.account;
      var todo := seqs.Keys;
      while todo != {}
        invariant db == old(db) && todo <= seqs.Keys && acc.Keys == db.account.Keys
        invariant forall a | a in acc :: acc[a] == if a in seqs && a !in todo then db.account[a].(chainSeq := seqs[a]) else db.account[a]
        decreases todo
      {
        var a :| a in todo;
        if a in acc { acc := acc[a := acc[a].(chainSeq := seqs[a])]; }
        todo := todo - {a};
      }
      SameMap(acc, IncSeq(db.account, seqs));
      db := db.(account := acc);
    }

    method UpdateChainState(best: Hash, height: int, nextSeq: int)
      modifies this`db
      ensures db == old(db).(chain := ChainRow(best, height, nextSeq))
    {
      db := db.(chain := ChainRow(best, height, nextSeq));
    }

    // The revert statement on `invoice`.
    method RevertInvoiceRows(m: int, ghost first: int, accounts: SeqMap, seqNo: int) returns (accounts': SeqMap, seqNo': int)
      requires FreshSeqs(accounts, first, seqNo)
      modifies this`db
      ensures db == old(db).(invoice := RevertInvoices(old(db).invoice, m))
      ensures FreshSeqs(accounts', first, seqNo') && accounts.Keys <= accounts'.Keys
      ensures InvoiceReported(old(db).invoice, db.invoice, accounts'.Keys)
    {
      hide FreshSeqs;
      var inv := db.invoice;
      var inv', ids := UpdateRows(inv, (a: Address, r: InvoiceRow) => Above(r.paidHeight, m),
                                  (r: InvoiceRow) => r.(paidHeight := None, blockId := None), (r: InvoiceRow) => r.account);
      SameMap(inv', RevertInvoices(inv, m));
      accounts', seqNo' := CollectIds(ids, accounts, first, seqNo);
      db := db.(invoice := inv');
    }

    // The two revert statements on `payment`.
    method RevertPaymentRows(m: int, ghost first: int, accounts: SeqMap, seqNo: int) returns (accounts': SeqMap, seqNo': int)
      requires FreshSeqs(accounts, first, seqNo)
      modifies this`db
      ensures db == old(db).(payment := RevertPayments(old(db).payment, m))
      ensures FreshSeqs(accounts', first, seqNo') && accounts.Keys <= accounts'.Keys
      ensures PaymentReported(old(db).payment, db.payment, accounts'.Keys)
    {
      hide FreshSeqs;
      var pay := db.payment;
      var pay1, ids1 := UpdateRows(pay, (p: int, r: PaymentRow) => Above(r.paidHeight, m),
                                   (r: PaymentRow) => r.(paidHeight := None, confirmedHeight := None), (r: PaymentRow) => r.account);
      accounts', seqNo' := CollectIds(ids1, accounts, first, seqNo);
      var pay2, ids2 := UpdateRows(pay1, (p: int, r: PaymentRow) => Above(r.confirmedHeight, m),
                                   (r: PaymentRow) => r.(confirmedHeight := None), (r: PaymentRow) => r.account);
      accounts', seqNo' := CollectIds(ids2, accounts', first, seqNo');
      forall p | p in pay ensures pay2[p] == RevertConfirmed(RevertPaid(pay[p], m), m) {
        assert pay1[p] == RevertPaid(pay[p], m);
      }
      SameMap(pay2, RevertPayments(pay, m));
      db := db.(payment := pay2);
    }

    /** Undo every height above m and number the accounts that changed. */
    method RevertChangesAboveHeight(m: int, seqNo: int) returns (seqNo': int, ghost seqs: SeqMap)
      modifies this`db
      ensures db == old(db).(utxo := Revert(old(db).utxo, m), invoice := RevertInvoices(old(db).invoice, m),
                             payment := RevertPayments(old(db).payment, m), account := IncSeq(old(db).account, seqs))
      ensures FreshSeqs(seqs, seqNo, seqNo')
      ensures Reports(old(db), db, seqs)
    {
      var accounts: SeqMap, next := RevertUTXOs(m, seqNo, map[], seqNo);
      ghost var first := accounts.Keys;
      ghost var u := db.utxo;
      accounts, next := RevertInvoiceRows(m, seqNo, accounts, next);
      ghost var second := accounts.Keys;
      accounts, next := RevertPaymentRows(m, seqNo, accounts, next);
      assert UtxoReported(old(db).utxo, u, first) && first <= accounts.Keys;
      IncChainSeqForAccounts(accounts);
      seqNo', seqs := next, accounts;
    }
  }
}
