/** The change feed: sequence numbers handed out by the follower, and what BalanceKeeper makes of them. */
module Feed {
  import opened Options
  import opened BlockTree
  import opened Ledger
  import opened Tables

  // ------------------------------------------------------------- the numbers

  /** Non-zero sequence numbers are pairwise distinct, and everything handed out is below next_seq. */
  ghost predicate SeqsOk(db: Db) {
    && 0 <= db.cursor < db.chain.nextSeq
    && (forall a | a in db.account :: 0 <= db.account[a].chainSeq < db.chain.nextSeq)
    && (forall a, b | a in db.account && b in db.account && a != b && db.account[a].chainSeq != 0 ::
          db.account[a].chainSeq != db.account[b].chainSeq)
  }

  /** Numbering the accounts of one commit keeps the numbers distinct and puts each of those accounts after the cursor. */
  lemma IncSeqOk(db: Db, db': Db, seqs: SeqMap)
    requires SeqsOk(db) && FreshSeqs(seqs, db.chain.nextSeq, db'.chain.nextSeq)
    requires db'.account == IncSeq(db.account, seqs) && db'.cursor == db.cursor
    ensures SeqsOk(db')
    ensures forall a | a in db'.account && db'.account[a].chainSeq <= db'.cursor :: a !in seqs && db'.account[a] == db.account[a]
  {
  }

  // -------------------------------------------------------- what is derived

  function IncomingRows(u: UtxoTable, a: Address): set<Outpoint> {
    set o | o in u && u[o].address == a && u[o].heights.added.Some?
  }

  /** incoming_amount and paid_amount of an invoice; COALESCE turns the NULL sum into 0. */
  ghost function IncomingAmount(u: UtxoTable, a: Address): int { Sum(u, IncomingRows(u, a)) }
  ghost function PaidAmount(u: UtxoTable, a: Address): int { Sum(u, PaidRows(u, a)) }

  function AccountIncomingRows(u: UtxoTable, acct: AccountId): set<Outpoint> {
    set o | o in u && u[o].account == acct && !u[o].internal && u[o].heights.added.Some? && u[o].heights.spendable == None
  }

  function AccountCurrentRows(u: UtxoTable, acct: AccountId): set<Outpoint> {
    set o | o in u && u[o].account == acct && (u[o].internal || u[o].heights.spendable.Some?)
            && u[o].heights.spending == None && u[o].payment == None
  }

  function AccountUnconfirmedPayments(pay: PaymentTable, acct: AccountId): set<int> {
    set p | p in pay && pay[p].account == acct && pay[p].confirmedHeight == None
  }

  ghost function SumTotals(pay: PaymentTable, s: set<int>): real
    requires s <= pay.Keys
  {
    if s == {} then 0.0 else
      var p := Pick(s);
      pay[p].total + SumTotals(pay, s - {p})
  }

  lemma {:induction false} SumTotalsRemove(pay: PaymentTable, s: set<int>, p: int)
    requires s <= pay.Keys && p in s
    ensures SumTotals(pay, s) == pay[p].total + SumTotals(pay, s - {p})
    decreases s
  {
    var q := Pick(s);
    if q != p {
      SumTotalsRemove(pay, s - {q}, p);
      SumTotalsRemove(pay, s - {p}, q);
      assert s - {q} - {p} == s - {p} - {q};
    }
  }

  lemma {:induction false} SumTotalsCongruence(pay: PaymentTable, pay': PaymentTable, s: set<int>)
    requires s <= pay.Keys && s <= pay'.Keys && forall p | p in s :: pay[p].total == pay'[p].total
    ensures SumTotals(pay, s) == SumTotals(pay', s)
    decreases s
  {
    if s != {} {
      SumTotalsCongruence(pay, pay', s - {Pick(s)});
    }
  }

  datatype Balance = Balance(incoming: int, current: int, outgoing: real)

  /** calculateBalanceCommon. */
  ghost function CalcFrom(u: UtxoTable, pay: PaymentTable, acct: AccountId): Balance {
    Balance(Sum(u, AccountIncomingRows(u, acct)), Sum(u, AccountCurrentRows(u, acct)), SumTotals(pay, AccountUnconfirmedPayments(pay, acct)))
  }

  ghost function CalcBalance(db: Db, acct: AccountId): Balance {
    CalcFrom(db.utxo, db.payment, acct)
  }

  // ------------------------------------------------------ what one account owns

  function RowsOf(u: UtxoTable, acct: AccountId): UtxoTable {
    map o | o in u && u[o].account == acct :: u[o]
  }

  function InvoicesOf(inv: InvoiceTable, acct: AccountId): InvoiceTable {
    map a | a in inv && inv[a].account == acct :: inv[a]
  }

  function PaymentsOf(pay: PaymentTable, acct: AccountId): PaymentTable {
    map p | p in pay && pay[p].account == acct :: pay[p]
  }

  /** The balance of an account depends on its own rows only. */
  lemma CalcOfRows(u: UtxoTable, pay: PaymentTable, acct: AccountId)
    ensures CalcFrom(RowsOf(u, acct), PaymentsOf(pay, acct), acct) == CalcFrom(u, pay, acct)
  {
    var mine, mine' := RowsOf(u, acct), PaymentsOf(pay, acct);
    assert AccountIncomingRows(mine, acct) == AccountIncomingRows(u, acct);
    assert AccountCurrentRows(mine, acct) == AccountCurrentRows(u, acct);
    assert AccountUnconfirmedPayments(mine', acct) == AccountUnconfirmedPayments(pay, acct);
    SumCongruence(mine, u, AccountIncomingRows(u, acct));
    SumCongruence(mine, u, AccountCurrentRows(u, acct));
    SumTotalsCongruence(mine', pay, AccountUnconfirmedPayments(pay, acct));
  }

  /** Outputs at an invoice address belong to the account of the invoice. */
  ghost predicate AccountsAtInvoices(u: UtxoTable, inv: InvoiceTable) {
    forall o | o in u && u[o].address in inv :: u[o].account == inv[u[o].address].account
  }

  // Then the amounts of an invoice depend on the rows of its account only.
  lemma AmountsOfRows(u: UtxoTable, inv: InvoiceTable, a: Address)
    requires AccountsAtInvoices(u, inv) && a in inv
    ensures var mine := RowsOf(u, inv[a].account);
            IncomingAmount(mine, a) == IncomingAmount(u, a) && PaidAmount(mine, a) == PaidAmount(u, a)
  {
    var mine := RowsOf(u, inv[a].account);
    assert IncomingRows(mine, a) == IncomingRows(u, a) && PaidRows(mine, a) == PaidRows(u, a);
    SumCongruence(mine, u, IncomingRows(u, a));
    SumCongruence(mine, u, PaidRows(u, a));
  }

  /** Nothing an account owns differs between two states of the tables. */
  ghost predicate SameFor(db: Db, db': Db, acct: AccountId) {
    && RowsOf(db'.utxo, acct) == RowsOf(db.utxo, acct)
    && InvoicesOf(db'.invoice, acct) == InvoicesOf(db.invoice, acct)
    && PaymentsOf(db'.payment, acct) == PaymentsOf(db.payment, acct)
  }

  // ----------------------------------------------------------------- events

  datatype Event =
    | AccountBalanceChange(account: AccountId, balance: Balance)
    | BalanceChanged(a: Address)
    | PartPaymentDetected(a: Address)
    | TotalPaymentDetected(a: Address)
    | OverPaymentDetected(a: Address)
    | TotalPaymentConfirmed(a: Address)
    | PaymentUnconfirmed(a: Address)
    | OverPaymentConfirmed(a: Address)

  // A NULL amount scans as zero, and so does a NULL paid_height.
  function OrZero(x: Option<int>): int {
    if x.Some? then x.value else 0
  }

  // Changed and detected amounts.
  function AmountEvents(a: Address, r: InvoiceRow, incoming: int, paid: int): seq<Event> {
    (if incoming != OrZero(r.lastIncoming) || paid != OrZero(r.lastPaid) then [BalanceChanged(a)] else []) +
    (if incoming > OrZero(r.lastIncoming) && OrZero(r.lastIncoming) < r.total
     then [if incoming >= r.total then TotalPaymentDetected(a) else PartPaymentDetected(a)] else []) +
    (if incoming > OrZero(r.lastIncoming) && incoming > r.total then [OverPaymentDetected(a)] else [])
  }

  // Confirmation, and the loss of it in a fork.
  function FlipEvents(a: Address, r: InvoiceRow): seq<Event> {
    if OrZero(r.paidHeight) != 0 && !r.paidEvent then [TotalPaymentConfirmed(a)]
    else if OrZero(r.paidHeight) == 0 && r.paidEvent then [PaymentUnconfirmed(a)] else []
  }

  function OverpaidEvents(a: Address, r: InvoiceRow, paid: int): seq<Event> {
    if paid > OrZero(r.lastPaid) && paid > r.total then [OverPaymentConfirmed(a)] else []
  }

  /** The events sendInvoiceEvents sends for one invoice, given its incoming and paid amounts. */
  function EventsFor(a: Address, r: InvoiceRow, incoming: int, paid: int): seq<Event> {
    AmountEvents(a, r, incoming, paid) + FlipEvents(a, r) + OverpaidEvents(a, r, paid)
  }

  /** The invoice row after those events are marked as sent. */
  function Notified(r: InvoiceRow, incoming: int, paid: int): InvoiceRow {
    r.(paidEvent := OrZero(r.paidHeight) != 0,
       lastIncoming := if incoming != OrZero(r.lastIncoming) then Some(incoming) else r.lastIncoming,
       lastPaid := if paid != OrZero(r.lastPaid) then Some(paid) else r.lastPaid)
  }

  ghost function NotifyAll(u: UtxoTable, inv: InvoiceTable, acct: AccountId): InvoiceTable {
    map a | a in inv :: if inv[a].account == acct then Notified(inv[a], IncomingAmount(u, a), PaidAmount(u, a)) else inv[a]
  }

  // The confirmed (true) and unconfirmed (false) events of one invoice, in order.
  function Flips(log: seq<Event>, a: Address): seq<bool> {
    if log == [] then []
    else
      Flips(log[..|log| - 1], a) +
      (match log[|log| - 1]
       case TotalPaymentConfirmed(b) => if a == b then [true] else []
       case PaymentUnconfirmed(b) => if a == b then [false] else []
       case _ => [])
  }

  lemma {:induction false} FlipsConcat(x: seq<Event>, y: seq<Event>, a: Address)
    ensures Flips(x + y, a) == Flips(x, a) + Flips(y, a)
  {
    if y == [] {
      assert x + y == x;
    } else {
      assert (x + y)[..|x + y| - 1] == x + y[..|y| - 1];
      FlipsConcat(x, y[..|y| - 1], a);
    }
  }

  lemma {:induction false} NoFlips(e: seq<Event>, b: Address)
    requires forall i | 0 <= i < |e| :: !e[i].TotalPaymentConfirmed? && !e[i].PaymentUnconfirmed?
    ensures Flips(e, b) == []
  {
    if e != [] {
      NoFlips(e[..|e| - 1], b);
    }
  }

  // What processing an invoice adds to its confirmed/unconfirmed log.
  function FlipOf(r: InvoiceRow): seq<bool> {
    if OrZero(r.paidHeight) != 0 && !r.paidEvent then [true]
    else if OrZero(r.paidHeight) == 0 && r.paidEvent then [false] else []
  }

  lemma FlipEventsFlip(a: Address, b: Address, r: InvoiceRow)
    ensures Flips(FlipEvents(a, r), b) == if a == b then FlipOf(r) else []
  {
    var e := FlipEvents(a, r);
    if e != [] {
      assert e[..0] == [];
      assert Flips(e[..0], b) == [];
    }
  }

  lemma FlipsOfOne(a: Address, b: Address, r: InvoiceRow, incoming: int, paid: int)
    ensures Flips(EventsFor(a, r, incoming, paid), b) == if a == b then FlipOf(r) else []
  {
    var before, flip, after := AmountEvents(a, r, incoming, paid), FlipEvents(a, r), OverpaidEvents(a, r, paid);
    assert Flips(before, b) == [] by { NoFlips(before, b); }
    assert Flips(after, b) == [] by { NoFlips(after, b); }
    FlipEventsFlip(a, b, r);
    FlipsConcat(before, flip, b);
    FlipsConcat(before + flip, after, b);
  }

  /** Strict alternation that starts with a confirmation. */
  predicate Alternates(flips: seq<bool>) {
    forall i | 0 <= i < |flips| :: flips[i] <==> i % 2 == 0
  }

  /** The log of every invoice alternates, paid_event records its last entry, and there are no others. */
  ghost predicate LogOk(log: seq<Event>, inv: InvoiceTable) {
    forall a :: LogOkAt(log, inv, a)
  }

  ghost predicate LogOkAt(log: seq<Event>, inv: InvoiceTable, a: Address) {
    if a in inv then Alternates(Flips(log, a)) && (inv[a].paidEvent <==> |Flips(log, a)| % 2 == 1) else Flips(log, a) == []
  }

  // ------------------------------------------ visiting the invoices of an account

  ghost predicate KeysDistinct(inv: InvoiceTable) {
    forall a, b | a in inv && b in inv && a != b && inv[a].account == inv[b].account :: inv[a].keyIndex != inv[b].keyIndex
  }

  // The invoices of an account from key index c upwards.
  function From(inv: InvoiceTable, acct: AccountId, c: nat): set<Address> {
    set a | a in inv && inv[a].account == acct && inv[a].keyIndex >= c
  }

  ghost predicate IsFirst(inv: InvoiceTable, acct: AccountId, c: nat, a: Address) {
    a in From(inv, acct, c) && forall b | b in From(inv, acct, c) :: inv[a].keyIndex <= inv[b].keyIndex
  }

  lemma {:induction false} FirstExists(inv: InvoiceTable, s: set<Address>)
    requires s != {} && s <= inv.Keys
    ensures exists a | a in s :: forall b | b in s :: inv[a].keyIndex <= inv[b].keyIndex
    decreases s
  {
    var x :| x in s;
    if s != {x} {
      FirstExists(inv, s - {x});
      var y :| y in s - {x} && forall b | b in s - {x} :: inv[y].keyIndex <= inv[b].keyIndex;
      assert forall b | b in s :: b == x || b in s - {x};
      var m := if inv[x].keyIndex <= inv[y].keyIndex then x else y;
      assert m in s && forall b | b in s :: inv[m].keyIndex <= inv[b].keyIndex;
    } else {
      assert forall b | b in s :: inv[x].keyIndex <= inv[b].keyIndex;
    }
  }

  ghost function First(inv: InvoiceTable, acct: AccountId, c: nat): (a: Address)
    requires From(inv, acct, c) != {}
    ensures IsFirst(inv, acct, c, a)
  {
    FirstExists(inv, From(inv, acct, c));
    var a :| a in From(inv, acct, c) && forall b | b in From(inv, acct, c) :: inv[a].keyIndex <= inv[b].keyIndex;
    a
  }

  /** The order in which paging with limit 1 visits the invoices of an account. */
  ghost function Visit(inv: InvoiceTable, acct: AccountId, c: nat): seq<Address>
    decreases From(inv, acct, c)
  {
    if From(inv, acct, c) == {} then []
    else
      var a := First(inv, acct, c);
      assert a !in From(inv, acct, inv[a].keyIndex + 1);
      assert From(inv, acct, inv[a].keyIndex + 1) < From(inv, acct, c);
      [a] + Visit(inv, acct, inv[a].keyIndex + 1)
  }

  predicate NoRepeats(s: seq<Address>) {
    forall i, j | 0 <= i < j < |s| :: s[i] != s[j]
  }

  /** Paging visits every invoice of the account exactly once. */
  lemma {:induction false} VisitsEachOnce(inv: InvoiceTable, acct: AccountId, c: nat)
    requires KeysDistinct(inv)
    ensures NoRepeats(Visit(inv, acct, c))
    ensures forall a :: a in Visit(inv, acct, c) <==> a in From(inv, acct, c)
    decreases From(inv, acct, c)
  {
    if From(inv, acct, c) != {} {
      var a := First(inv, acct, c);
      var c' := inv[a].keyIndex + 1;
      assert a !in From(inv, acct, c');
      assert From(inv, acct, c') < From(inv, acct, c);
      VisitsEachOnce(inv, acct, c');
      forall b ensures b in From(inv, acct, c) <==> b == a || b in From(inv, acct, c') {
      }
    }
  }

  /** Without distinct key indices the cursor would skip: of two invoices with one index, one is never visited. */
  lemma VisitNeedsDistinctKeys(inv: InvoiceTable, acct: AccountId, x: Address, y: Address)
    requires x in inv && y in inv && x != y && inv[x].account == inv[y].account == acct && inv[x].keyIndex == inv[y].keyIndex
    ensures !(x in Visit(inv, acct, 0) && y in Visit(inv, acct, 0))
  {
    VisitKeysIncrease(inv, acct, 0);
  }

  ghost predicate KeysIncrease(inv: InvoiceTable, v: seq<Address>, c: nat)
  {
    && (forall a | a in v :: a in inv && inv[a].keyIndex >= c)
    && (forall i, j | 0 <= i < j < |v| :: inv[v[i]].keyIndex < inv[v[j]].keyIndex)
  }

  lemma {:induction false} VisitKeysIncrease(inv: InvoiceTable, acct: AccountId, c: nat)
    ensures KeysIncrease(inv, Visit(inv, acct, c), c)
    decreases From(inv, acct, c)
  {
    if From(inv, acct, c) != {} {
      var a := First(inv, acct, c);
      var c' := inv[a].keyIndex + 1;
      assert a !in From(inv, acct, c');
      assert From(inv, acct, c') < From(inv, acct, c);
      var rest := Visit(inv, acct, c');
      VisitKeysIncrease(inv, acct, c');
      var v := [a] + rest;
      assert Visit(inv, acct, c) == v;
      forall i, j | 0 <= i < j < |v| ensures inv[v[i]].keyIndex < inv[v[j]].keyIndex {
        assert v[j] == rest[j - 1] && rest[j - 1] in rest;
        if i > 0 { assert v[i] == rest[i - 1]; }
      }
    }
  }

  ghost function InvoiceEvents(u: UtxoTable, inv: InvoiceTable, a: Address): seq<Event> {
    if a in inv then EventsFor(a, inv[a], IncomingAmount(u, a), PaidAmount(u, a)) else []
  }

  /** All events of a list of invoices, in order. */
  ghost function EventsOf(u: UtxoTable, inv: InvoiceTable, order: seq<Address>): seq<Event> {
    if order == [] then []
    else EventsOf(u, inv, order[..|order| - 1]) + InvoiceEvents(u, inv, order[|order| - 1])
  }

  lemma InvoiceFlips(u: UtxoTable, inv: InvoiceTable, a: Address, b: Address)
    ensures Flips(InvoiceEvents(u, inv, a), b) == if a == b && a in inv then FlipOf(inv[a]) else []
  {
    if a in inv { FlipsOfOne(a, b, inv[a], IncomingAmount(u, a), PaidAmount(u, a)); }
  }

  lemma LastApart(order: seq<Address>)
    requires NoRepeats(order) && order != []
    ensures var n := |order| - 1; NoRepeats(order[..n]) && order[n] !in order[..n] && forall b :: b in order <==> b in order[..n] || b == order[n]
  {
    assert order == order[..|order| - 1] + [order[|order| - 1]];
  }

  lemma {:induction false} FlipsOfAll(u: UtxoTable, inv: InvoiceTable, order: seq<Address>, b: Address)
    requires NoRepeats(order)
    ensures Flips(EventsOf(u, inv, order), b) == if b in order && b in inv then FlipOf(inv[b]) else []
  {
    if order != [] {
      var n := |order| - 1;
      var a := order[n];
      LastApart(order);
      hide Flips, FlipOf, InvoiceEvents, NoRepeats;
      FlipsOfAll(u, inv, order[..n], b);
      FlipsConcat(EventsOf(u, inv, order[..n]), InvoiceEvents(u, inv, a), b);
      InvoiceFlips(u, inv, a, b);
    }
  }

  // -------------------------------------------------------- one keeper batch

  /** The account a batch processes: the one with the least chain_seq above the cursor. */
  ghost predicate IsNext(db: Db, acct: AccountId) {
    && acct in db.account && db.account[acct].chainSeq > db.cursor
    && forall b | b in db.account && db.account[b].chainSeq > db.cursor :: db.account[acct].chainSeq <= db.account[b].chainSeq
  }

  ghost function BalanceEvent(db: Db, acct: AccountId): seq<Event>
    requires acct in db.account
  {
    var bal, r := CalcBalance(db, acct), db.account[acct];
    if bal == Balance(r.incoming, r.current, r.outgoing) then [] else [AccountBalanceChange(acct, bal)]
  }

  /** The tables after BalanceKeeper has committed a batch for one account. */
  ghost function KeeperDb(db: Db, acct: AccountId): Db
    requires acct in db.account
  {
    var bal := CalcBalance(db, acct);
    db.(account := db.account[acct := db.account[acct].(incoming := bal.incoming, current := bal.current, outgoing := bal.outgoing)],
        invoice := NotifyAll(db.utxo, db.invoice, acct),
        cursor := db.account[acct].chainSeq)
  }

  ghost function KeeperEvents(db: Db, acct: AccountId): seq<Event>
    requires acct in db.account
  {
    BalanceEvent(db, acct) + EventsOf(db.utxo, db.invoice, Visit(db.invoice, acct, 0))
  }

  // ----------------------------------------------------- what has been told

  /** What an account owned when BalanceKeeper last processed it. */
  datatype Seen = Seen(utxo: UtxoTable, invoice: InvoiceTable, payment: PaymentTable)

  type SeenMap = map<AccountId, Seen>

  function SeenNow(db: Db, acct: AccountId): Seen {
    Seen(RowsOf(db.utxo, acct), InvoicesOf(db.invoice, acct), PaymentsOf(db.payment, acct))
  }

  // Payments may since have reserved outputs and added change, but no height has moved.
  ghost predicate RowsStill(was: UtxoTable, now: UtxoTable) {
    && (forall o | o in was :: o in now && now[o] == was[o].(payment := now[o].payment))
    && (forall o | o in now && o !in was :: now[o].internal && now[o].heights == Heights(Some(0), None, None, None))
  }

  ghost predicate PaidStill(was: InvoiceTable, now: InvoiceTable) {
    && was.Keys <= now.Keys
    && forall a | a in now :: now[a].paidHeight == if a in was then was[a].paidHeight else None
  }

  ghost predicate PaymentsStill(was: PaymentTable, now: PaymentTable) {
    && (forall p | p in was :: p in now && now[p] == was[p].(paidTxid := now[p].paidTxid))
    && (forall p | p in now && p !in was :: now[p].paidHeight == None && now[p].confirmedHeight == None)
  }

  /** Everything the chain has to say about an account is as it was: all four heights of each of its outputs, the paid
      heights of its invoices, both heights of its payments; and no output has been added by the follower. */
  ghost predicate Still(db: Db, seen: Seen, acct: AccountId) {
    && RowsStill(seen.utxo, RowsOf(db.utxo, acct)) && PaidStill(seen.invoice, InvoicesOf(db.invoice, acct))
    && PaymentsStill(seen.payment, PaymentsOf(db.payment, acct))
  }

  function Stored(r: AccountRow): Balance {
    Balance(r.incoming, r.current, r.outgoing)
  }

  /** No chain change to the account has come since it was seen, the stored balances are those it had then, and
      its invoices have been called paid exactly if they are. */
  ghost predicate Told(db: Db, seen: Seen, acct: AccountId)
    requires acct in db.account
  {
    && Stored(db.account[acct]) == CalcFrom(seen.utxo, seen.payment, acct) && Still(db, seen, acct)
    && forall a | a in db.invoice && db.invoice[a].account == acct :: db.invoice[a].paidEvent <==> db.invoice[a].paidHeight.Some?
  }

  /** Every account at or below the cursor has been told the truth: no chain change was missed. */
  ghost predicate NothingMissed(db: Db, seen: SeenMap) {
    forall acct | acct in db.account && db.account[acct].chainSeq <= db.cursor :: acct in seen && Told(db, seen[acct], acct)
  }

  // The remembered amounts of an invoice are those of its address.
  ghost predicate AmountTold(u: UtxoTable, r: InvoiceRow, a: Address) {
    OrZero(r.lastIncoming) == IncomingAmount(u, a) && OrZero(r.lastPaid) == PaidAmount(u, a)
  }

  ghost predicate AmountsToldTo(db: Db, acct: AccountId) {
    forall a | a in db.invoice && db.invoice[a].account == acct :: AmountTold(db.utxo, db.invoice[a], a)
  }

  /** Every invoice of an account at or below the cursor has been told what has arrived at its address. */
  ghost predicate AmountsTold(db: Db) {
    forall acct | acct in db.account && db.account[acct].chainSeq <= db.cursor :: AmountsToldTo(db, acct)
  }

  /** What an account has been told stays true as long as nothing it owns changes. */
  lemma ToldStays(db: Db, db': Db, seen: Seen, acct: AccountId)
    requires acct in db.account && acct in db'.account && Stored(db'.account[acct]) == Stored(db.account[acct])
    requires Told(db, seen, acct) && SameFor(db, db', acct)
    ensures Told(db', seen, acct)
  {
    forall a | a in db'.invoice && db'.invoice[a].account == acct ensures db'.invoice[a].paidEvent <==> db'.invoice[a].paidHeight.Some? {
      assert a in InvoicesOf(db'.invoice, acct);
      assert a in InvoicesOf(db.invoice, acct) && db.invoice[a] == db'.invoice[a];
    }
  }

  lemma AmountsStay(db: Db, db': Db, acct: AccountId)
    requires AmountsToldTo(db, acct) && SameFor(db, db', acct)
    requires AccountsAtInvoices(db.utxo, db.invoice) && AccountsAtInvoices(db'.utxo, db'.invoice)
    ensures AmountsToldTo(db', acct)
  {
    forall a | a in db'.invoice && db'.invoice[a].account == acct ensures AmountTold(db'.utxo, db'.invoice[a], a) {
      assert a in InvoicesOf(db'.invoice, acct);
      assert a in InvoicesOf(db.invoice, acct) && db.invoice[a] == db'.invoice[a];
      AmountsOfRows(db.utxo, db.invoice, a);
      AmountsOfRows(db'.utxo, db'.invoice, a);
    }
  }

  // No output of the account was reserved or added as change, and no payment of it made, since it was seen.
  ghost predicate NoPaymentSince(db: Db, seen: Seen, acct: AccountId) {
    RowsOf(db.utxo, acct) == seen.utxo && PaymentsOf(db.payment, acct).Keys == seen.payment.Keys
  }

  lemma IncomingStill(was: UtxoTable, now: UtxoTable, acct: AccountId)
    requires RowsStill(was, now)
    ensures Sum(now, AccountIncomingRows(now, acct)) == Sum(was, AccountIncomingRows(was, acct))
  {
    assert AccountIncomingRows(now, acct) == AccountIncomingRows(was, acct);
    SumCongruence(was, now, AccountIncomingRows(was, acct));
  }

  lemma OutgoingStill(was: PaymentTable, now: PaymentTable, acct: AccountId)
    requires PaymentsStill(was, now) && now.Keys == was.Keys
    ensures SumTotals(now, AccountUnconfirmedPayments(now, acct)) == SumTotals(was, AccountUnconfirmedPayments(was, acct))
  {
    forall p ensures p in AccountUnconfirmedPayments(now, acct) <==> p in AccountUnconfirmedPayments(was, acct) {
      assert p in now.Keys <==> p in was.Keys;
    }
    assert AccountUnconfirmedPayments(now, acct) == AccountUnconfirmedPayments(was, acct);
    SumTotalsCongruence(was, now, AccountUnconfirmedPayments(was, acct));
  }

  /** Of an account at or below the cursor the stored incoming balance is the true one; so are the current and the
      outgoing balance, unless a payment has been made from it since. */
  lemma StoredBalances(db: Db, seen: SeenMap, acct: AccountId)
    requires NothingMissed(db, seen) && acct in db.account && db.account[acct].chainSeq <= db.cursor
    ensures db.account[acct].incoming == CalcBalance(db, acct).incoming
    ensures acct in seen && (NoPaymentSince(db, seen[acct], acct) ==> Stored(db.account[acct]) == CalcBalance(db, acct))
  {
    CalcOfRows(db.utxo, db.payment, acct);
    assert Told(db, seen[acct], acct);
    IncomingStill(seen[acct].utxo, RowsOf(db.utxo, acct), acct);
    if NoPaymentSince(db, seen[acct], acct) {
      OutgoingStill(seen[acct].payment, PaymentsOf(db.payment, acct), acct);
    }
  }

  ghost predicate PaidPositive(inv: InvoiceTable) {
    forall a | a in inv && inv[a].paidHeight.Some? :: inv[a].paidHeight.value > 0
  }

  // A keeper batch changes nothing that another account owns.
  lemma KeeperSameFor(db: Db, acct: AccountId, b: AccountId)
    requires acct in db.account && b in db.account && b != acct
    ensures SameFor(db, KeeperDb(db, acct), b) && KeeperDb(db, acct).account[b] == db.account[b]
  {
    var inv' := KeeperDb(db, acct).invoice;
    SameMap(InvoicesOf(inv', b), InvoicesOf(db.invoice, b));
  }

  // The account itself is told everything.
  lemma KeeperTells(db: Db, acct: AccountId)
    requires acct in db.account && PaidPositive(db.invoice)
    ensures var db' := KeeperDb(db, acct); Told(db', SeenNow(db', acct), acct) && AmountsToldTo(db', acct)
  {
    CalcOfRows(db.utxo, db.payment, acct);
  }

  /** A committed keeper batch skips no account and leaves everything it has passed told. */
  lemma KeeperKeeps(db: Db, seen: SeenMap, acct: AccountId)
    requires SeqsOk(db) && NothingMissed(db, seen) && PaidPositive(db.invoice) && IsNext(db, acct)
    ensures var db' := KeeperDb(db, acct);
            SeqsOk(db') && NothingMissed(db', seen[acct := SeenNow(db', acct)]) && PaidPositive(db'.invoice)
  {
    hide Told, SameFor, CalcBalance, AmountsToldTo;
    var db' := KeeperDb(db, acct);
    KeeperTells(db, acct);
    forall b | b in db'.account && db'.account[b].chainSeq <= db'.cursor && b != acct ensures b in seen && Told(db', seen[b], b) {
      assert db.account[b].chainSeq <= db.cursor;
      KeeperSameFor(db, acct, b);
      ToldStays(db, db', seen[b], b);
    }
  }

  /** It also leaves their invoices told what has arrived. */
  lemma KeeperTellsAmounts(db: Db, acct: AccountId)
    requires SeqsOk(db) && AmountsTold(db) && PaidPositive(db.invoice) && IsNext(db, acct) && AccountsAtInvoices(db.utxo, db.invoice)
    ensures AmountsTold(KeeperDb(db, acct))
  {
    hide Told, SameFor, CalcBalance, AmountsToldTo;
    var db' := KeeperDb(db, acct);
    KeeperTells(db, acct);
    forall b | b in db'.account && db'.account[b].chainSeq <= db'.cursor && b != acct ensures AmountsToldTo(db', b) {
      assert db.account[b].chainSeq <= db.cursor;
      KeeperSameFor(db, acct, b);
      AmountsStay(db, db', b);
    }
  }

  /** The accounts BalanceKeeper has still to come to. */
  function Behind(db: Db): set<AccountId> {
    set a | a in db.account && db.account[a].chainSeq > db.cursor
  }

  /** A keeper batch takes exactly one account off that set. */
  lemma KeeperCatchesUp(db: Db, acct: AccountId)
    requires SeqsOk(db) && IsNext(db, acct)
    ensures acct in Behind(db) && Behind(KeeperDb(db, acct)) == Behind(db) - {acct}
  {
  }

  lemma VisitedFlips(u: UtxoTable, inv: InvoiceTable, acct: AccountId, order: seq<Address>, a: Address)
    requires order == Visit(inv, acct, 0) && KeysDistinct(inv)
    ensures Flips(EventsOf(u, inv, order), a) == if a in inv && inv[a].account == acct then FlipOf(inv[a]) else []
  {
    VisitsEachOnce(inv, acct, 0);
    FlipsOfAll(u, inv, order, a);
    assert a in From(inv, acct, 0) <==> a in inv && inv[a].account == acct;
  }

  lemma QuietFirst(log: seq<Event>, first: seq<Event>, rest: seq<Event>, a: Address)
    requires forall i | 0 <= i < |first| :: first[i].AccountBalanceChange?
    ensures Flips(log + (first + rest), a) == Flips(log, a) + Flips(rest, a)
  {
    FlipsConcat(log, first + rest, a);
    FlipsConcat(first, rest, a);
    NoFlips(first, a);
    assert [] + Flips(rest, a) == Flips(rest, a);
  }

  lemma KeeperFlips(db: Db, acct: AccountId, log: seq<Event>, a: Address)
    requires acct in db.account && KeysDistinct(db.invoice)
    ensures Flips(log + KeeperEvents(db, acct), a) ==
            Flips(log, a) + if a in db.invoice && db.invoice[a].account == acct then FlipOf(db.invoice[a]) else []
  {
    var order := Visit(db.invoice, acct, 0);
    VisitedFlips(db.utxo, db.invoice, acct, order, a);
    QuietFirst(log, BalanceEvent(db, acct), EventsOf(db.utxo, db.invoice, order), a);
  }

  lemma OneMoreFlip(flips: seq<bool>, r: InvoiceRow)
    requires Alternates(flips) && (r.paidEvent <==> |flips| % 2 == 1)
    ensures Alternates(flips + FlipOf(r)) && (OrZero(r.paidHeight) != 0 <==> |flips + FlipOf(r)| % 2 == 1)
  {
  }

  /** Confirmed and unconfirmed events keep alternating, and end on the invoice's state. */
  lemma KeeperLog(db: Db, acct: AccountId, log: seq<Event>)
    requires acct in db.account && KeysDistinct(db.invoice) && LogOk(log, db.invoice)
    ensures LogOk(log + KeeperEvents(db, acct), KeeperDb(db, acct).invoice)
  {
    var inv' := KeeperDb(db, acct).invoice;
    forall a ensures LogOkAt(log + KeeperEvents(db, acct), inv', a) {
      assert LogOkAt(log, db.invoice, a);
      KeeperFlips(db, acct, log, a);
      if a in db.invoice { OneMoreFlip(Flips(log, a), db.invoice[a]); }
    }
  }

  lemma LastFlip(flips: seq<bool>)
    requires Alternates(flips)
    ensures |flips| % 2 == 1 <==> flips != [] && flips[|flips| - 1]
  {
    if flips != [] { assert flips[|flips| - 1] <==> (|flips| - 1) % 2 == 0; }
  }

  /** For an account the cursor has reached, the last event of each invoice says whether it is paid. */
  lemma CaughtUp(db: Db, seen: SeenMap, log: seq<Event>, a: Address)
    requires NothingMissed(db, seen) && LogOk(log, db.invoice)
    requires a in db.invoice && db.invoice[a].account in db.account
    requires db.account[db.invoice[a].account].chainSeq <= db.cursor
    ensures var flips := Flips(log, a);
            db.invoice[a].paidHeight.Some? <==> flips != [] && flips[|flips| - 1]
  {
    assert db.invoice[a].paidEvent <==> db.invoice[a].paidHeight.Some? by {
      assert Told(db, seen[db.invoice[a].account], db.invoice[a].account);
    }
    assert LogOkAt(log, db.invoice, a);
    LastFlip(Flips(log, a));
  }
}
