/** The tables of the store as values, and what each UPDATE statement makes of them. */
module Tables {
  import opened Options
  import opened BlockTree
  import opened Ledger

  datatype InvoiceRow = InvoiceRow(account: AccountId, total: int, confirmations: int, keyIndex: nat,
                                   paidHeight: Option<int>, blockId: Option<Hash>, paidEvent: bool,
                                   lastIncoming: Option<int>, lastPaid: Option<int>)

  datatype PaymentRow = PaymentRow(account: AccountId, total: real, fee: int, paidTxid: Option<TxId>,
                                   paidHeight: Option<int>, confirmedHeight: Option<int>)

  // The stored balances are the ones BalanceKeeper last wrote. A payment can have asked for fractions of a koinu.
  datatype AccountRow = AccountRow(current: int, incoming: int, outgoing: real, chainSeq: int)

  datatype ChainRow = ChainRow(bestHash: Hash, bestHeight: int, nextSeq: int)

  type InvoiceTable = map<Address, InvoiceRow>
  type PaymentTable = map<int, PaymentRow>
  type AccountTable = map<AccountId, AccountRow>

  // `cursor` is the services row of BalanceKeeper; 0 when there is none.
  datatype Db = Db(utxo: UtxoTable, invoice: InvoiceTable, payment: PaymentTable, account: AccountTable,
                   address: AddressTable, chain: ChainRow, cursor: int)

  function EnvOf(db: Db, dflt: int): Env {
    Env(db.address, map a | a in db.invoice :: db.invoice[a].confirmations, dflt)
  }

  // ------------------------------------------------------------------- sums

  /** SUM(value) over a set of rows. */
  ghost function Sum(u: UtxoTable, s: set<Outpoint>): int
    requires s <= u.Keys
  {
    if s == {} then 0 else
      var o := Pick(s);
      u[o].value + Sum(u, s - {o})
  }

  lemma {:induction false} SumRemove(u: UtxoTable, s: set<Outpoint>, o: Outpoint)
    requires s <= u.Keys && o in s
    ensures Sum(u, s) == u[o].value + Sum(u, s - {o})
    decreases s
  {
    var p := Pick(s);
    if p != o {
      SumRemove(u, s - {p}, o);
      SumRemove(u, s - {o}, p);
      assert s - {p} - {o} == s - {o} - {p};
    }
  }

  lemma SumInsert(u: UtxoTable, s: set<Outpoint>, o: Outpoint)
    requires s <= u.Keys && o in u && o !in s
    ensures Sum(u, s + {o}) == u[o].value + Sum(u, s)
  {
    SumRemove(u, s + {o}, o);
    assert s + {o} - {o} == s;
  }

  /** Two tables that agree on the values of a set of rows agree on its sum. */
  lemma {:induction false} SumCongruence(u: UtxoTable, u': UtxoTable, s: set<Outpoint>)
    requires s <= u.Keys && s <= u'.Keys && forall o | o in s :: u[o].value == u'[o].value
    ensures Sum(u, s) == Sum(u', s)
    decreases s
  {
    if s != {} {
      var o :| o in s;
      SumRemove(u, s, o);
      SumRemove(u', s, o);
      SumCongruence(u, u', s - {o});
    }
  }

  lemma {:induction false} SumMonotone(u: UtxoTable, s: set<Outpoint>, t: set<Outpoint>)
    requires s <= t <= u.Keys && forall o | o in t :: o in s || u[o].value >= 0
    ensures Sum(u, s) <= Sum(u, t)
    decreases t
  {
    if s != t {
      var o :| o in t && o !in s;
      SumRemove(u, t, o);
      SumMonotone(u, s, t - {o});
    }
  }

  // ---------------------------------------------------------------- invoices

  // The rows the invoice's confirmed sum ranges over.
  function PaidRows(u: UtxoTable, a: Address): set<Outpoint> {
    set o | o in u && u[o].address == a && u[o].heights.spendable.Some?
  }

  /** The sum is NULL over no rows, and then no comparison with it holds. */
  ghost predicate ReachesTotal(u: UtxoTable, a: Address, total: int) {
    PaidRows(u, a) != {} && Sum(u, PaidRows(u, a)) >= total
  }

  ghost function MarkPaidRow(u: UtxoTable, a: Address, r: InvoiceRow, height: int, block: Hash): InvoiceRow {
    if r.paidHeight == None && ReachesTotal(u, a, r.total) then r.(paidHeight := Some(height), blockId := Some(block)) else r
  }

  ghost function MarkPaid(u: UtxoTable, inv: InvoiceTable, height: int, block: Hash): InvoiceTable {
    map a | a in inv :: MarkPaidRow(u, a, inv[a], height, block)
  }

  function RevertInvoiceRow(r: InvoiceRow, m: int): InvoiceRow {
    if Above(r.paidHeight, m) then r.(paidHeight := None, blockId := None) else r
  }

  function RevertInvoices(inv: InvoiceTable, m: int): InvoiceTable {
    map a | a in inv :: RevertInvoiceRow(inv[a], m)
  }

  // ---------------------------------------------------------------- payments

  function Digit(n: nat): char
    requires n < 10
  {
    "0123456789"[n]
  }

  function Decimal(n: nat): string {
    if n < 10 then [Digit(n)] else Decimal(n / 10) + [Digit(n % 10)]
  }

  // The statement is run with the index of each transaction id, not with the id.
  predicate MatchesIndex(r: PaymentRow, count: nat) {
    r.paidTxid.Some? && exists i: nat | i < count :: r.paidTxid.value == Decimal(i)
  }

  function OnChainRow(r: PaymentRow, count: nat, height: int): PaymentRow {
    if MatchesIndex(r, count) then r.(paidHeight := Some(height)) else r
  }

  function MarkOnChain(pay: PaymentTable, count: nat, height: int): PaymentTable {
    map id | id in pay :: OnChainRow(pay[id], count, height)
  }

  // The statement for one index.
  function MarkIndex(pay: PaymentTable, i: nat, height: int): PaymentTable {
    map id | id in pay :: if pay[id].paidTxid == Some(Decimal(i)) then pay[id].(paidHeight := Some(height)) else pay[id]
  }

  lemma MarkOnChainNone(pay: PaymentTable, height: int)
    ensures MarkOnChain(pay, 0, height) == pay
  {
    forall id | id in pay ensures OnChainRow(pay[id], 0, height) == pay[id] {
    }
    SameMap(MarkOnChain(pay, 0, height), pay);
  }

  lemma MarkOnChainNext(pay: PaymentTable, i: nat, height: int)
    ensures MarkIndex(MarkOnChain(pay, i, height), i, height) == MarkOnChain(pay, i + 1, height)
    ensures MarkOnChain(pay, i, height).Keys == MarkOnChain(pay, i + 1, height).Keys == pay.Keys
    ensures forall id | id in pay :: MarkOnChain(pay, i, height)[id].account == pay[id].account
  {
    var next := MarkIndex(MarkOnChain(pay, i, height), i, height);
    forall id | id in pay ensures next[id] == OnChainRow(pay[id], i + 1, height) {
    }
    SameMap(next, MarkOnChain(pay, i + 1, height));
  }

  function ConfirmPaymentRow(r: PaymentRow, conf: int, tip: int): PaymentRow {
    if r.paidHeight.Some? && r.paidHeight.value + conf <= tip && r.confirmedHeight == None
    then r.(confirmedHeight := Some(r.paidHeight.value + conf)) else r
  }

  function ConfirmPayments(pay: PaymentTable, conf: int, tip: int): PaymentTable {
    map id | id in pay :: ConfirmPaymentRow(pay[id], conf, tip)
  }

  function RevertPaid(r: PaymentRow, m: int): PaymentRow {
    if Above(r.paidHeight, m) then r.(paidHeight := None, confirmedHeight := None) else r
  }

  function RevertConfirmed(r: PaymentRow, m: int): PaymentRow {
    if Above(r.confirmedHeight, m) then r.(confirmedHeight := None) else r
  }

  function RevertPayments(pay: PaymentTable, m: int): PaymentTable {
    map id | id in pay :: RevertConfirmed(RevertPaid(pay[id], m), m)
  }

  /** What doc/how-it-works.md promises instead: payments whose txid is in the batch. */
  function DocumentedMark(pay: PaymentTable, txids: seq<TxId>, height: int): PaymentTable {
    map id | id in pay ::
      if pay[id].paidTxid.Some? && pay[id].paidTxid.value in txids then pay[id].(paidHeight := Some(height)) else pay[id]
  }

  lemma {:induction false} DecimalShort(n: nat, d: nat)
    requires n < Pow10(d) && d > 0
    ensures |Decimal(n)| <= d
    decreases d
  {
    if n >= 10 {
      DecimalShort(n / 10, d - 1);
    }
  }

  function Pow10(d: nat): nat {
    if d == 0 then 1 else 10 * Pow10(d - 1)
  }

  /** Transaction ids have 64 characters, so unless a batch holds 10^63 transactions, marking payments
      changes nothing at all, and it does what is documented only if no payment is in the batch. */
  lemma MarkOnChainNeverMarks(pay: PaymentTable, txids: seq<TxId>, height: int)
    requires |txids| <= Pow10(63)
    requires forall id | id in pay && pay[id].paidTxid.Some? :: |pay[id].paidTxid.value| == 64
    ensures MarkOnChain(pay, |txids|, height) == pay
    ensures MarkOnChain(pay, |txids|, height) == DocumentedMark(pay, txids, height) <==>
            forall id | id in pay && pay[id].paidTxid.Some? && pay[id].paidTxid.value in txids :: pay[id].paidHeight == Some(height)
  {
    var marked := MarkOnChain(pay, |txids|, height);
    forall id | id in pay ensures marked[id] == pay[id] {
      if MatchesIndex(pay[id], |txids|) {
        var i: nat :| i < |txids| && pay[id].paidTxid.value == Decimal(i);
        DecimalShort(i, 63);
        assert false;
      }
    }
    SameMap(marked, pay);
    var doc := DocumentedMark(pay, txids, height);
    if forall id | id in pay && pay[id].paidTxid.Some? && pay[id].paidTxid.value in txids :: pay[id].paidHeight == Some(height) {
      SameMap(doc, pay);
    } else {
      var id :| id in pay && pay[id].paidTxid.Some? && pay[id].paidTxid.value in txids && pay[id].paidHeight != Some(height);
      assert doc[id] != pay[id];
    }
  }

  // ---------------------------------------------------------------- accounts

  type SeqMap = map<AccountId, int>

  /** IncChainSeqForAccounts: one UPDATE per listed account; unknown accounts match no row. */
  function IncSeq(acc: AccountTable, seqs: SeqMap): AccountTable {
    map a | a in acc :: if a in seqs then acc[a].(chainSeq := seqs[a]) else acc[a]
  }

  /** Fresh sequence numbers: the numbers from lo up to hi, each given to one account. */
  ghost predicate FreshSeqs(seqs: SeqMap, lo: int, hi: int) {
    && |seqs| == hi - lo
    && (forall a | a in seqs :: lo <= seqs[a] < hi)
    && (forall a, b | a in seqs && b in seqs && a != b :: seqs[a] != seqs[b])
  }

  // ------------------------------------------------------- committed batches

  /** A committed forward batch: everything in attemptToApplyChanges, with the sequence numbers it handed out. */
  ghost function ForwardDb(w: World, dflt: int, db: Db, chs: seq<Change>, txids: seq<TxId>, best: Hash, height: int,
                           seqs: SeqMap, nextSeq: int): Db
  {
    var env := EnvOf(db, dflt);
    var u := Confirm(Apply(db.utxo, db.address, chs), env, height);
    db.(utxo := u,
        invoice := MarkPaid(u, db.invoice, height, best),
        payment := ConfirmPayments(MarkOnChain(db.payment, |txids|, height), dflt, height),
        account := IncSeq(db.account, seqs),
        chain := ChainRow(best, height, nextSeq))
  }

  /** A committed rollback: RevertChangesAboveHeight and the new best block. */
  function RollbackDb(db: Db, best: Hash, height: int, seqs: SeqMap, nextSeq: int): Db {
    db.(utxo := Revert(db.utxo, height),
        invoice := RevertInvoices(db.invoice, height),
        payment := RevertPayments(db.payment, height),
        account := IncSeq(db.account, seqs),
        chain := ChainRow(best, height, nextSeq))
  }

  // Rows that differ in anything are owned by a listed account (or by none).
  ghost predicate UtxoReported(u: UtxoTable, u': UtxoTable, keys: set<AccountId>) {
    forall o | o in u' :: (o in u && u[o] == u'[o]) || u'[o].account == "" || u'[o].account in keys
  }

  ghost predicate InvoiceReported(inv: InvoiceTable, inv': InvoiceTable, keys: set<AccountId>) {
    forall a | a in inv && a in inv' :: inv[a] == inv'[a] || inv[a].account == "" || inv[a].account in keys
  }

  ghost predicate PaymentReported(pay: PaymentTable, pay': PaymentTable, keys: set<AccountId>) {
    forall p | p in pay && p in pay' :: pay[p] == pay'[p] || pay[p].account == "" || pay[p].account in keys
  }

  /** Every account that owns a changed row is listed. Rows owned by no account are not reported. */
  ghost predicate Reports(db: Db, db': Db, seqs: SeqMap) {
    && UtxoReported(db.utxo, db'.utxo, seqs.Keys) && InvoiceReported(db.invoice, db'.invoice, seqs.Keys)
    && PaymentReported(db.payment, db'.payment, seqs.Keys)
  }
}
