/** BalanceKeeper: follows the change feed with a cursor, one account to a transaction,
    rewrites stored balances, sends events, and remembers what it has told. */
module Keeper {
  import opened Options
  import opened BlockTree
  import opened Ledger
  import opened Tables
  import opened Feed
  import opened Store
  import opened Announced

  const ACCOUNT_BATCH_SIZE: nat := 1

  // ------------------------------------------------------------------- paging

  /** SELECT … ORDER BY … LIMIT: `keys` holds the candidate rows with the values they are ordered by. */
  ghost predicate IsPage<K(!new)>(keys: map<K, int>, ids: seq<K>, limit: nat) {
    && |ids| <= limit
    && (forall i | 0 <= i < |ids| :: ids[i] in keys)
    && (forall i, j | 0 <= i < j < |ids| :: ids[i] != ids[j] && keys[ids[i]] <= keys[ids[j]])
    && (forall k | k in keys && k !in ids :: |ids| == limit && forall i | 0 <= i < |ids| :: keys[ids[i]] <= keys[k])
  }

  method Least<K(==, !new)>(keys: map<K, int>) returns (k: K)
    requires keys != map[]
    ensures k in keys && forall k' | k' in keys :: keys[k] <= keys[k']
  {
    k :| k in keys;
    var todo := keys.Keys - {k};
    while todo != {}
      invariant k in keys && todo <= keys.Keys
      invariant forall k' | k' in keys && k' !in todo :: keys[k] <= keys[k']
      decreases todo
    {
      var k' :| k' in todo;
      if keys[k'] < keys[k] { k := k'; }
      todo := todo - {k'};
    }
  }

  method Page<K(==, !new)>(keys: map<K, int>, limit: nat) returns (ids: seq<K>)
    ensures IsPage(keys, ids, limit)
  {
    ids := [];
    var rest := keys;
    while |ids| < limit && rest != map[]
      invariant |ids| <= limit && (forall i | 0 <= i < |ids| :: ids[i] in keys)
      invariant forall i, j | 0 <= i < j < |ids| :: ids[i] != ids[j] && keys[ids[i]] <= keys[ids[j]]
      invariant forall k :: k in rest <==> k in keys && k !in ids
      invariant forall k | k in rest :: rest[k] == keys[k] && forall i | 0 <= i < |ids| :: keys[ids[i]] <= keys[k]
    {
      var k := Least(rest);
      ids, rest := ids + [k], rest - {k};
    }
  }

  lemma PageOrder<K(!new)>(keys: map<K, int>, ids: seq<K>, limit: nat, i: nat)
    requires IsPage(keys, ids, limit) && i <= |ids|
    ensures |ids| <= limit && (i < |ids| ==> ids[i] in keys) && (0 < i < |ids| ==> ids[i - 1] in keys && keys[ids[i - 1]] <= keys[ids[i]])
  {
  }

  /** With distinct keys a page skips nothing below its last row. */
  lemma PageComplete<K(!new)>(keys: map<K, int>, ids: seq<K>, limit: nat, k: K, i: nat)
    requires IsPage(keys, ids, limit) && i < |ids| && k in keys && keys[k] <= keys[ids[i]]
    requires forall a, b | a in keys && b in keys && a != b :: keys[a] != keys[b]
    ensures k in ids
  {
  }

  /** A tie at the end of a page is skipped by a cursor that moves past it: with page size 1, of two
      accounts that share the least number one is never listed. */
  lemma TieSkips<K(!new)>(keys: map<K, int>, ids: seq<K>, x: K, y: K)
    requires IsPage(keys, ids, 1) && x in keys && y in keys && x != y && keys[x] == keys[y]
    requires forall k | k in keys :: keys[x] <= keys[k]
    ensures |ids| == 1 && exists k | k in keys :: k !in ids && keys[k] <= keys[ids[0]]
  {
    assert x in ids || |ids| == 1;
    var k := if ids[0] == x then y else x;
    assert k !in ids;
  }

  function ModifiedSince(acc: AccountTable, cursor: int): map<AccountId, int> {
    map a | a in acc && acc[a].chainSeq > cursor :: acc[a].chainSeq
  }

  /** No account the cursor moves past is left out of the page, whatever the page size, because the numbers are distinct. */
  lemma CursorSkipsNothing(db: Db, ids: seq<AccountId>, limit: nat, a: AccountId)
    requires SeqsOk(db) && IsPage(ModifiedSince(db.account, db.cursor), ids, limit)
    requires a in db.account && db.account[a].chainSeq > db.cursor
    requires exists i | 0 <= i < |ids| :: ids[i] in db.account && db.account[a].chainSeq <= db.account[ids[i]].chainSeq
    ensures a in ids
  {
    var i :| 0 <= i < |ids| && ids[i] in db.account && db.account[a].chainSeq <= db.account[ids[i]].chainSeq;
    PageComplete(ModifiedSince(db.account, db.cursor), ids, limit, a, i);
  }

  function InvoicesFrom(inv: InvoiceTable, acct: AccountId, c: int): map<Address, int> {
    map a | a in inv && inv[a].account == acct && inv[a].keyIndex >= c :: inv[a].keyIndex
  }

  // What one listed invoice carries: the stored row and its two computed amounts.
  datatype Listed = Listed(a: Address, row: InvoiceRow, incoming: int, paid: int)

  ghost function Addresses(items: seq<Listed>): seq<Address> {
    seq(|items|, i requires 0 <= i < |items| => items[i].a)
  }

  lemma AddressesAre(items: seq<Listed>, more: seq<Listed>)
    ensures Addresses([]) == [] && (|more| == 1 ==> Addresses(items + more) == Addresses(items) + [more[0].a])
  {
  }

  ghost predicate ListedOk(db: Db, l: Listed) {
    l.a in db.invoice && l.row == db.invoice[l.a] && l.incoming == IncomingAmount(db.utxo, l.a) && l.paid == PaidAmount(db.utxo, l.a)
  }

  // ------------------------------------------------------------- the invariant of a visit

  // Invoices of the account below the cursor have been notified, and no other.
  ghost predicate NotifiedBelow(u: UtxoTable, inv: InvoiceTable, inv': InvoiceTable, acct: AccountId, c: int) {
    && inv'.Keys == inv.Keys
    && forall a | a in inv :: inv'[a] == if inv[a].account == acct && inv[a].keyIndex < c
                                         then Notified(inv[a], IncomingAmount(u, a), PaidAmount(u, a)) else inv[a]
  }

  lemma EventsOfOne(u: UtxoTable, inv: InvoiceTable, order: seq<Address>, a: Address)
    ensures EventsOf(u, inv, order + [a]) == EventsOf(u, inv, order) + InvoiceEvents(u, inv, a)
  {
    assert (order + [a])[..|order|] == order;
  }

  // The page of one invoice from the cursor on is the next one of the visit.
  lemma NextVisited(inv: InvoiceTable, acct: AccountId, c: nat, a: Address)
    requires IsPage(InvoicesFrom(inv, acct, c), [a], 1)
    ensures IsFirst(inv, acct, c, a)
  {
    var keys := InvoicesFrom(inv, acct, c);
    assert [a][0] in keys;
    forall b | b in From(inv, acct, c) ensures inv[a].keyIndex <= inv[b].keyIndex {
      assert b in keys && (b in [a] || keys[[a][0]] <= keys[b]);
    }
  }

  lemma NoneVisited(inv: InvoiceTable, acct: AccountId, c: nat)
    requires IsPage(InvoicesFrom(inv, acct, c), [], 1)
    ensures From(inv, acct, c) == {}
  {
    assert forall a | a in From(inv, acct, c) :: a in InvoicesFrom(inv, acct, c);
  }

  lemma NotifiedOneMore(u: UtxoTable, inv: InvoiceTable, mid: InvoiceTable, inv': InvoiceTable, acct: AccountId, c: nat, a: Address)
    requires KeysDistinct(inv) && IsFirst(inv, acct, c, a) && NotifiedBelow(u, inv, mid, acct, c)
    requires inv' == mid[a := Notified(inv[a], IncomingAmount(u, a), PaidAmount(u, a))]
    ensures NotifiedBelow(u, inv, inv', acct, inv[a].keyIndex + 1)
  {
    assert forall b | b in inv && inv[b].account == acct && c <= inv[b].keyIndex :: b in From(inv, acct, c);
  }

  lemma NotifiedEverywhere(u: UtxoTable, inv: InvoiceTable, inv': InvoiceTable, acct: AccountId, c: nat)
    requires NotifiedBelow(u, inv, inv', acct, c) && From(inv, acct, c) == {}
    ensures inv' == NotifyAll(u, inv, acct)
  {
    assert forall b | b in inv && inv[b].account == acct && c <= inv[b].keyIndex :: b in From(inv, acct, c);
    SameMap(inv', NotifyAll(u, inv, acct));
  }

  // From the cursor on nothing is notified yet.
  lemma NotYetNotified(u: UtxoTable, inv: InvoiceTable, mid: InvoiceTable, acct: AccountId, c: nat)
    requires NotifiedBelow(u, inv, mid, acct, c)
    ensures InvoicesFrom(mid, acct, c) == InvoicesFrom(inv, acct, c)
    ensures forall a | a in From(inv, acct, c) :: a in mid && mid[a] == inv[a]
  {
  }

  lemma NothingNotified(u: UtxoTable, inv: InvoiceTable, acct: AccountId)
    ensures NotifiedBelow(u, inv, inv, acct, 0) && EventsOf(u, inv, []) == []
  {
  }

  lemma VisitUnfold(inv: InvoiceTable, acct: AccountId, c: nat, a: Address)
    requires KeysDistinct(inv) && IsFirst(inv, acct, c, a)
    ensures Visit(inv, acct, c) == [a] + Visit(inv, acct, inv[a].keyIndex + 1)
    ensures From(inv, acct, inv[a].keyIndex + 1) < From(inv, acct, c)
  {
    assert First(inv, acct, c) == a;
    assert a !in From(inv, acct, inv[a].keyIndex + 1);
  }

  // One step of the visit, on its order and its events.
  lemma VisitStep(u: UtxoTable, inv: InvoiceTable, acct: AccountId, c: nat, order: seq<Address>, a: Address)
    requires KeysDistinct(inv) && IsFirst(inv, acct, c, a)
    ensures var c' := inv[a].keyIndex + 1;
            && order + [a] + Visit(inv, acct, c') == order + Visit(inv, acct, c)
            && EventsOf(u, inv, order + [a]) == EventsOf(u, inv, order) + InvoiceEvents(u, inv, a)
            && From(inv, acct, c') < From(inv, acct, c)
  {
    hide EventsOf, InvoiceEvents, Visit, KeysDistinct;
    var rest := Visit(inv, acct, inv[a].keyIndex + 1);
    VisitUnfold(inv, acct, c, a);
    EventsOfOne(u, inv, order, a);
    assert order + [a] + rest == order + ([a] + rest);
  }

  lemma VisitDone(inv: InvoiceTable, acct: AccountId, c: nat, order: seq<Address>)
    requires From(inv, acct, c) == {}
    ensures order + Visit(inv, acct, c) == order
  {
  }

  lemma EventsAppended(bus: seq<Event>, inv: Listed)
    ensures var events := EventsFor(inv.a, inv.row, inv.incoming, inv.paid);
            && bus + AmountEvents(inv.a, inv.row, inv.incoming, inv.paid) + FlipEvents(inv.a, inv.row) + OverpaidEvents(inv.a, inv.row, inv.paid)
               == bus + events
            && (bus + events)[|bus|..] == events
  {
    hide AmountEvents, FlipEvents, OverpaidEvents;
  }

  // --------------------------------------------------------------- the service

  class BalanceKeeper {
    const store: SQLiteStore
    var bus: seq<Event>   // every event sent, also by batches that failed to commit

    constructor (store: SQLiteStore)
      ensures this.store == store && bus == []
    {
      this.store, bus := store, [];
    }

    method Send(e: Event)
      modifies this`bus
      ensures bus == old(bus) + [e]
    {
      bus := bus + [e];
    }

    // ----------------------------------------------------------- queries

    method SumUnconfirmed(acct: AccountId) returns (total: real)
      ensures total == SumTotals(store.db.payment, AccountUnconfirmedPayments(store.db.payment, acct))
    {
      total := 0.0;
      var pay := store.db.payment;
      var todo := pay.Keys;
      ghost var all := AccountUnconfirmedPayments(pay, acct);
      while todo != {}
        invariant todo <= pay.Keys && total == SumTotals(pay, all - todo)
        decreases todo
      {
        var p := Any(todo);
        if pay[p].account == acct && pay[p].confirmedHeight == None {
          assert all - (todo - {p}) - {p} == all - todo;
          SumTotalsRemove(pay, all - (todo - {p}), p);
          total := total + pay[p].total;
        } else {
          assert all - (todo - {p}) == all - todo;
        }
        todo := todo - {p};
      }
      assert all - todo == all;
    }

    method CalculateBalance(acct: AccountId) returns (bal: Balance)
      ensures bal == CalcBalance(store.db, acct)
    {
      var u := store.db.utxo;
      var _, incoming := SumWhere(u, (r: UtxoRow) => r.account == acct && !r.internal && r.heights.added.Some?
                                                    && r.heights.spendable == None, AccountIncomingRows(u, acct));
      var _, current := SumWhere(u, (r: UtxoRow) => r.account == acct && (r.internal || r.heights.spendable.Some?)
                                                   && r.heights.spending == None && r.payment == None, AccountCurrentRows(u, acct));
      var outgoing := SumUnconfirmed(acct);
      bal := Balance(incoming, current, outgoing);
    }

    method ListAccountsModifiedSince(cursor: int, limit: nat) returns (ids: seq<AccountId>, nextCursor: int)
      ensures IsPage(ModifiedSince(store.db.account, cursor), ids, limit)
      ensures forall i | 0 <= i < |ids| :: store.db.account[ids[i]].chainSeq <= nextCursor
      ensures if ids == [] then nextCursor == cursor
              else exists i :: 0 <= i < |ids| && nextCursor == store.db.account[ids[i]].chainSeq
    {
      ids := Page(ModifiedSince(store.db.account, cursor), limit);
      nextCursor := cursor;
      for i := 0 to |ids|
        invariant forall j | 0 <= j < i :: store.db.account[ids[j]].chainSeq <= nextCursor
        invariant if i == 0 then nextCursor == cursor
                  else exists j :: 0 <= j < i && nextCursor == store.db.account[ids[j]].chainSeq
      {
        if store.db.account[ids[i]].chainSeq > nextCursor { nextCursor := store.db.account[ids[i]].chainSeq; }
      }
    }

    method ListInvoice(a: Address) returns (item: Listed)
      requires a in store.db.invoice
      ensures item.a == a && item.row == store.db.invoice[a] && ListedOk(store.db, item)
    {
      var u := store.db.utxo;
      var _, incoming := SumWhere(u, (r: UtxoRow) => r.address == a && r.heights.added.Some?, IncomingRows(u, a));
      var _, paid := SumWhere(u, (r: UtxoRow) => r.address == a && r.heights.spendable.Some?, PaidRows(u, a));
      item := Listed(a, store.db.invoice[a], incoming, paid);
    }

    /** A next cursor of 0 says that there are no more rows. */
    method ListInvoices(acct: AccountId, cursor: int, limit: nat) returns (items: seq<Listed>, nextCursor: int)
      requires limit > 0
      ensures IsPage(InvoicesFrom(store.db.invoice, acct, cursor), Addresses(items), limit)
      ensures forall i | 0 <= i < |items| :: ListedOk(store.db, items[i])
      ensures nextCursor == if |items| < limit then 0 else items[limit - 1].row.keyIndex + 1
    {
      hide ListedOk, IsPage, Addresses;
      var keys := InvoicesFrom(store.db.invoice, acct, cursor);
      var page := Page(keys, limit);
      items, nextCursor := [], 0;
      AddressesAre(items, []);
      for i := 0 to |page|
        invariant |items| == i && Addresses(items) == page[..i]
        invariant forall j | 0 <= j < i :: ListedOk(store.db, items[j]) && items[j].row == store.db.invoice[page[j]]
        invariant nextCursor == if i == 0 then 0 else keys[page[i - 1]] + 1
      {
        var item := ListInvoice(page[i]);
        PageOrder(keys, page, limit, i);
        AddressesAre(items, [item]);
        assert page[..i + 1] == page[..i] + [page[i]];
        items := items + [item];
        var afterThis := item.row.keyIndex + 1;
        if afterThis > nextCursor { nextCursor := afterThis; }
      }
      assert page[..|page|] == page;
      PageOrder(keys, page, limit, |page|);
      if |items| < limit { nextCursor := 0; }
    }

    // ---------------------------------------------------- invoice events

    method SetInvoice(a: Address, row: InvoiceRow)
      requires a in store.db.invoice
      modifies store`db
      ensures store.db == old(store.db).(invoice := old(store.db).invoice[a := row])
    {
      store.db := store.db.(invoice := store.db.invoice[a := row]);
    }

    method SendAmountEvents(inv: Listed)
      modifies this`bus
      ensures bus == old(bus) + AmountEvents(inv.a, inv.row, inv.incoming, inv.paid)
    {
      var a, total := inv.a, inv.row.total;
      var lastIncoming, lastPaid := OrZero(inv.row.lastIncoming), OrZero(inv.row.lastPaid);
      if inv.incoming != lastIncoming || inv.paid != lastPaid { Send(BalanceChanged(a)); }
      if inv.incoming > lastIncoming {
        if lastIncoming < total {
          if inv.incoming >= total { Send(TotalPaymentDetected(a)); } else { Send(PartPaymentDetected(a)); }
        }
        if inv.incoming > total { Send(OverPaymentDetected(a)); }
      }
    }

    // Each confirmation, or loss of it, is marked as sent at once.
    method SendFlipEvents(a: Address)
      requires a in store.db.invoice
      modifies this`bus, store`db
      ensures bus == old(bus) + FlipEvents(a, old(store.db).invoice[a])
      ensures var row := old(store.db).invoice[a];
              store.db == old(store.db).(invoice := old(store.db).invoice[a := row.(paidEvent := OrZero(row.paidHeight) != 0)])
    {
      var row := store.db.invoice[a];
      if OrZero(row.paidHeight) != 0 && !row.paidEvent {
        Send(TotalPaymentConfirmed(a));
        SetInvoice(a, row.(paidEvent := true));
      } else if OrZero(row.paidHeight) == 0 && row.paidEvent {
        Send(PaymentUnconfirmed(a));
        SetInvoice(a, row.(paidEvent := false));
      }
      SameMap(store.db.invoice, old(store.db).invoice[a := row.(paidEvent := OrZero(row.paidHeight) != 0)]);
    }

    /** All events one invoice calls for, in order; the amounts are remembered at the end. */
    method NotifyInvoice(inv: Listed)
      requires ListedOk(store.db, inv)
      modifies this`bus, store`db
      ensures bus == old(bus) + EventsFor(inv.a, inv.row, inv.incoming, inv.paid)
      ensures Tells(bus[|old(bus)|..], inv.a, inv.row, inv.incoming, inv.paid)
      ensures store.db == old(store.db).(invoice := old(store.db).invoice[inv.a := Notified(inv.row, inv.incoming, inv.paid)])
    {
      hide AmountEvents, FlipEvents, EventsFor, IncomingAmount, PaidAmount, Tells;
      EventsTell(inv.a, inv.row, inv.incoming, inv.paid);
      var a, lastPaid := inv.a, OrZero(inv.row.lastPaid);
      SendAmountEvents(inv);
      SendFlipEvents(a);
      if inv.paid > lastPaid && inv.paid > inv.row.total { Send(OverPaymentConfirmed(a)); }
      if inv.incoming != OrZero(inv.row.lastIncoming) {
        SetInvoice(a, store.db.invoice[a].(lastIncoming := Some(inv.incoming)));
      }
      if inv.paid != lastPaid {
        SetInvoice(a, store.db.invoice[a].(lastPaid := Some(inv.paid)));
      }
      SameMap(store.db.invoice, old(store.db).invoice[a := Notified(inv.row, inv.incoming, inv.paid)]);
      EventsAppended(old(bus), inv);
    }

    /** Notify the next invoice of a visit; done when the page is empty. */
    method NotifyNext(acct: AccountId, cursor: int, ghost inv0: InvoiceTable) returns (nextCursor: int, ghost a: Option<Address>)
      requires cursor >= 0 && KeysDistinct(inv0) && NotifiedBelow(store.db.utxo, inv0, store.db.invoice, acct, cursor)
      modifies this`bus, store`db
      ensures store.db == old(store.db).(invoice := store.db.invoice) && nextCursor >= 0
      ensures a.None? ==> nextCursor == 0 && bus == old(bus) && From(inv0, acct, cursor) == {} && store.db == old(store.db)
      ensures a.Some? ==> IsFirst(inv0, acct, cursor, a.value) && nextCursor == inv0[a.value].keyIndex + 1
      ensures a.Some? ==> bus == old(bus) + InvoiceEvents(store.db.utxo, inv0, a.value)
      ensures a.Some? ==> NotifiedBelow(store.db.utxo, inv0, store.db.invoice, acct, nextCursor)
    {
      hide KeysDistinct, EventsFor, Notified, IncomingAmount, PaidAmount, IsPage, NotifiedBelow, InvoicesFrom;
      NotYetNotified(store.db.utxo, inv0, store.db.invoice, acct, cursor);
      var invoices; invoices, nextCursor := ListInvoices(acct, cursor, ACCOUNT_BATCH_SIZE);
      PageOrder(InvoicesFrom(inv0, acct, cursor), Addresses(invoices), ACCOUNT_BATCH_SIZE, 0);
      a := None;
      if |invoices| > 0 {
        var inv := invoices[0];
        assert Addresses(invoices) == [inv.a];
        NextVisited(inv0, acct, cursor, inv.a);
        NotifyInvoice(inv);
        a := Some(inv.a);
        NotifiedOneMore(store.db.utxo, inv0, old(store.db).invoice, store.db.invoice, acct, cursor, inv.a);
      } else {
        assert Addresses(invoices) == [];
        NoneVisited(inv0, acct, cursor);
      }
    }

    /** Page through the invoices of one account: each is notified exactly once, in key order, and the loop ends. */
    method SendInvoiceEvents(acct: AccountId)
      requires KeysDistinct(store.db.invoice)
      modifies this`bus, store`db
      ensures bus == old(bus) + EventsOf(old(store.db).utxo, old(store.db).invoice, Visit(old(store.db).invoice, acct, 0))
      ensures store.db == old(store.db).(invoice := NotifyAll(old(store.db).utxo, old(store.db).invoice, acct))
    {
      hide NotifiedBelow, NotifyAll, EventsOf, InvoiceEvents, Visit, IsFirst, KeysDistinct, From;
      ghost var u, inv0 := store.db.utxo, store.db.invoice;
      NothingNotified(u, inv0, acct);
      ghost var order: seq<Address> := [];
      assert [] + Visit(inv0, acct, 0) == Visit(inv0, acct, 0);
      var cursor, more := 0, true;
      while more
        invariant cursor >= 0 && store.db == old(store.db).(invoice := store.db.invoice)
        invariant bus == old(bus) + EventsOf(u, inv0, order)
        invariant more ==> NotifiedBelow(u, inv0, store.db.invoice, acct, cursor) && order + Visit(inv0, acct, cursor) == Visit(inv0, acct, 0)
        invariant !more ==> store.db.invoice == NotifyAll(u, inv0, acct) && order == Visit(inv0, acct, 0)
        decreases more, From(inv0, acct, cursor)
      {
        ghost var before, a := cursor, None;
        cursor, a := NotifyNext(acct, cursor, inv0);
        more := cursor > 0;
        if a.Some? {
          VisitStep(u, inv0, acct, before, order, a.value);
          order := order + [a.value];
        } else {
          VisitDone(inv0, acct, before, order);
          NotifiedEverywhere(u, inv0, store.db.invoice, acct, before);
        }
      }
    }

    // ------------------------------------------------------------ batches

    method UpdateAccountBalance(acct: AccountId)
      requires acct in store.db.account && KeysDistinct(store.db.invoice)
      modifies this`bus, store`db
      ensures bus == old(bus) + KeeperEvents(old(store.db), acct)
      ensures store.db == KeeperDb(old(store.db), acct).(cursor := old(store.db).cursor)
    {
      hide CalcBalance, NotifyAll, EventsOf, Visit, KeysDistinct;
      var acc := store.db.account[acct];
      var bal := CalculateBalance(acct);
      if !(bal.current == acc.current && bal.incoming == acc.incoming && bal.outgoing == acc.outgoing) {
        store.db := store.db.(account := store.db.account[acct := acc.(current := bal.current, incoming := bal.incoming, outgoing := bal.outgoing)]);
        Send(AccountBalanceChange(acct, bal));
      }
      SameMap(store.db.account, KeeperDb(old(store.db), acct).account);
      SendInvoiceEvents(acct);
    }

    /** One transaction: process the next modified account and advance the stored cursor, or leave no trace. */
    method RunBatch(cursor: int) returns (newCursor: int, ghost batch: Option<AccountId>)
      requires KeysDistinct(store.db.invoice) && cursor == store.db.cursor
      modifies this`bus, store`db, store`saved, store`attempts
      ensures newCursor == store.db.cursor && old(bus) <= bus
      ensures batch.None? ==> store.db == old(store.db)
      ensures batch.Some? ==> IsNext(old(store.db), batch.value) && store.db == KeeperDb(old(store.db), batch.value)
      ensures batch.Some? ==> bus == old(bus) + KeeperEvents(old(store.db), batch.value)
      ensures batch.Some? ==> TellsAll(old(store.db), batch.value, bus[|old(bus)|..])
      ensures batch.None? ==> !store.commits(old(store.attempts)) || Behind(store.db) == {}
      ensures batch.Some? && SeqsOk(old(store.db)) ==> Behind(store.db) == Behind(old(store.db)) - {batch.value}
      ensures batch.Some? && SeqsOk(old(store.db)) ==> |Behind(store.db)| == |Behind(old(store.db))| - 1
    {
      hide TellsAll, KeysDistinct, CalcBalance, NotifyAll, KeeperEvents;
      var snapshot := store.Begin();
      var ids, next := ListAccountsModifiedSince(cursor, ACCOUNT_BATCH_SIZE);
      batch := None;
      if |ids| > 0 {
        assert IsNext(store.db, ids[0]) by { assert ModifiedSince(store.db.account, cursor)[ids[0]] > cursor; PageLeast(store.db, ids); }
        UpdateAccountBalance(ids[0]);
        batch := Some(ids[0]);
        BatchTellsAll(snapshot, ids[0]);
        assert bus[|old(bus)|..] == KeeperEvents(snapshot, ids[0]);
        if SeqsOk(snapshot) { KeeperCatchesUp(snapshot, ids[0]); }
      } else {
        assert forall a | a in store.db.account :: a in ModifiedSince(store.db.account, cursor) ==> a !in ids;
      }
      if next > cursor { store.db := store.db.(cursor := next); }
      var ok := store.Commit(snapshot);
      if ok { newCursor := next; } else { newCursor, batch := cursor, None; }
    }
  }

  lemma PageLeast(db: Db, ids: seq<AccountId>)
    requires IsPage(ModifiedSince(db.account, db.cursor), ids, 1) && |ids| > 0
    ensures IsNext(db, ids[0])
  {
    var keys := ModifiedSince(db.account, db.cursor);
    forall b | b in db.account && db.account[b].chainSeq > db.cursor ensures db.account[ids[0]].chainSeq <= db.account[b].chainSeq {
      assert b in keys;
      if b != ids[0] { assert b !in ids; }
    }
  }
}
