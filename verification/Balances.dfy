/** How each statement moves the balances of an account, and the amounts of an invoice. */
module Balances {
  import opened Options
  import opened BlockTree
  import opened Ledger
  import opened Tables
  import opened Feed

  // ------------------------------------------------------------------- sums

  lemma {:induction false} SumUnion(u: UtxoTable, s: set<Outpoint>, t: set<Outpoint>)
    requires s <= u.Keys && t <= u.Keys && s !! t
    ensures Sum(u, s + t) == Sum(u, s) + Sum(u, t)
    decreases t
  {
    if t == {} {
      assert s + t == s;
    } else {
      var o :| o in t;
      SumUnion(u, s, t - {o});
      assert s + t == s + (t - {o}) + {o};
      SumInsert(u, s + (t - {o}), o);
      SumRemove(u, t, o);
    }
  }

  // Rows that leave a sum and rows that join it.
  lemma SumMoves(u: UtxoTable, u': UtxoTable, s: set<Outpoint>, s': set<Outpoint>, gone: set<Outpoint>, more: set<Outpoint>)
    requires s <= u.Keys && s' <= u'.Keys && gone <= s && more <= s' && more !! s
    requires forall o | o in u :: o in u' && u'[o].value == u[o].value
    requires forall o :: o in s' <==> o in more || (o in s && o !in gone)
    ensures Sum(u', s') == Sum(u, s) - Sum(u, gone) + Sum(u', more)
  {
    var kept := s - gone;
    assert kept <= u'.Keys && kept !! more;
    assert s == kept + gone && s' == kept + more;
    hide Sum;
    SumUnion(u, kept, gone);
    SumUnion(u', kept, more);
    SumCongruence(u, u', kept);
  }

  lemma SumNone(u: UtxoTable)
    ensures Sum(u, {}) == 0
  {
  }

  lemma SumOne(u: UtxoTable, o: Outpoint)
    requires o in u
    ensures Sum(u, {o}) == u[o].value
  {
    SumRemove(u, {o}, o);
    assert {o} - {o} == {};
  }

  // ------------------------------------------------------ an output that arrives

  /** An output found at an address of the account raises the incoming balance; change, found or just made, raises the
      current one. No other balance moves. */
  lemma ArrivalMoves(u: UtxoTable, pay: PaymentTable, o: Outpoint, value: int, a: Address, owner: AddressRow, height: int, acct: AccountId)
    requires o !in u
    ensures var bal, bal' := CalcFrom(u, pay, acct), CalcFrom(Upsert(u, o, value, a, owner, height), pay, acct);
            && bal'.incoming == bal.incoming + (if owner.account == acct && !owner.internal then value else 0)
            && bal'.current == bal.current + (if owner.account == acct && owner.internal then value else 0)
            && bal'.outgoing == bal.outgoing
  {
    var u' := Upsert(u, o, value, a, owner, height);
    var mine: set<Outpoint> := if owner.account == acct then {o} else {};
    var inc, cur := if owner.internal then {} else mine, if owner.internal then mine else {};
    SumMoves(u, u', AccountIncomingRows(u, acct), AccountIncomingRows(u', acct), {}, inc);
    SumMoves(u, u', AccountCurrentRows(u, acct), AccountCurrentRows(u', acct), {}, cur);
    SumNone(u);
    SumNone(u');
    SumOne(u', o);
  }

  /** An output a rollback has taken back raises the incoming balance again when it is found again; change was never gone. */
  lemma ReturnMoves(u: UtxoTable, pay: PaymentTable, o: Outpoint, owner: AddressRow, height: int)
    requires o in u && owner == AddressRow(u[o].account, u[o].keyIndex, u[o].internal)
    requires u[o].heights.added == None && u[o].heights.spendable == None
    ensures var bal, bal' := CalcFrom(u, pay, owner.account), CalcFrom(Upsert(u, o, u[o].value, u[o].address, owner, height), pay, owner.account);
            bal' == bal.(incoming := bal.incoming + if owner.internal then 0 else u[o].value)
  {
    var u', acct := Upsert(u, o, u[o].value, u[o].address, owner, height), owner.account;
    var inc: set<Outpoint> := if owner.internal then {} else {o};
    SumMoves(u, u', AccountIncomingRows(u, acct), AccountIncomingRows(u', acct), {}, inc);
    SumMoves(u, u', AccountCurrentRows(u, acct), AccountCurrentRows(u', acct), {}, {});
    SumNone(u);
    SumNone(u');
    SumOne(u', o);
  }

  // ------------------------------------------------------- rows that change in place

  // The output is confirmed, or change, and nothing has used it.
  predicate IsFree(r: UtxoRow) {
    (r.internal || r.heights.spendable != None) && r.heights.spending == None && r.payment == None
  }

  // One row is used, and nothing else changes.
  ghost predicate OnlyUsed(u: UtxoTable, u': UtxoTable, o: Outpoint) {
    && o in u && u'.Keys == u.Keys && (forall p | p in u && p != o :: u'[p] == u[p])
    && u'[o].account == u[o].account && u'[o].value == u[o].value && u'[o].internal == u[o].internal
    && u'[o].heights.added == u[o].heights.added && u'[o].heights.spendable == u[o].heights.spendable && !IsFree(u'[o])
  }

  lemma UsedIncoming(u: UtxoTable, u': UtxoTable, o: Outpoint, acct: AccountId)
    requires OnlyUsed(u, u', o)
    ensures Sum(u', AccountIncomingRows(u', acct)) == Sum(u, AccountIncomingRows(u, acct))
  {
    assert AccountIncomingRows(u', acct) == AccountIncomingRows(u, acct);
    SumCongruence(u, u', AccountIncomingRows(u, acct));
  }

  lemma UsedCurrent(u: UtxoTable, u': UtxoTable, o: Outpoint, acct: AccountId)
    requires OnlyUsed(u, u', o)
    ensures Sum(u', AccountCurrentRows(u', acct))
         == Sum(u, AccountCurrentRows(u, acct)) - if u[o].account == acct && IsFree(u[o]) then u[o].value else 0
  {
    var rows := AccountCurrentRows(u, acct);
    assert AccountCurrentRows(u', acct) == rows - {o};
    assert o in rows <==> u[o].account == acct && IsFree(u[o]);
    hide Sum, IsFree, AccountCurrentRows;
    SumCongruence(u, u', rows - {o});
    if o in rows { SumRemove(u, rows, o); } else { assert rows - {o} == rows; }
  }

  /** A spend on chain, and a reservation for a payment, take the value off the current balance, unless something has used the
      output before or it is not confirmed yet. */
  lemma UseMoves(u: UtxoTable, u': UtxoTable, pay: PaymentTable, o: Outpoint, acct: AccountId, height: int, spender: TxId, payment: int)
    requires o in u && (u' == MarkSpent(u, o, height, spender) || u' == Reserved(u, o, payment))
    ensures var bal, bal' := CalcFrom(u, pay, acct), CalcFrom(u', pay, acct);
            bal' == bal.(current := bal.current - if u[o].account == acct && IsFree(u[o]) then u[o].value else 0)
  {
    assert OnlyUsed(u, u', o);
    hide Sum, AccountIncomingRows, AccountCurrentRows, OnlyUsed, IsFree;
    UsedIncoming(u, u', o, acct);
    UsedCurrent(u, u', o, acct);
  }

  // ---------------------------------------------------------------- confirmations

  lemma ConfirmedRow(u: UtxoTable, env: Env, tip: int, o: Outpoint)
    requires o in u
    ensures var r, r' := u[o], Confirm(u, env, tip)[o];
            && r'.account == r.account && r'.value == r.value && r'.internal == r.internal && r'.payment == r.payment && r'.address == r.address
            && r'.heights.added == r.heights.added && r'.heights.spending == r.heights.spending
            && (r.heights.spendable != None ==> r'.heights.spendable == r.heights.spendable)
            && (r'.heights.spendable != None && r.heights.spendable == None ==> r.heights.added != None)
  {
  }

  lemma ConfirmedIncoming(u: UtxoTable, env: Env, tip: int, acct: AccountId)
    ensures var u' := Confirm(u, env, tip);
            var due := set o | o in u && u[o].account == acct && !u[o].internal && u[o].heights.spendable == None && u'[o].heights.spendable != None;
            Sum(u', AccountIncomingRows(u', acct)) == Sum(u, AccountIncomingRows(u, acct)) - Sum(u, due)
  {
    var u' := Confirm(u, env, tip);
    assert u'.Keys == u.Keys;
    hide Confirm, Sum;
    forall o | o in u { ConfirmedRow(u, env, tip, o); }
    var due := set o | o in u && u[o].account == acct && !u[o].internal && u[o].heights.spendable == None && u'[o].heights.spendable != None;
    SumMoves(u, u', AccountIncomingRows(u, acct), AccountIncomingRows(u', acct), due, {});
    SumNone(u');
  }

  lemma ConfirmedCurrent(u: UtxoTable, env: Env, tip: int, acct: AccountId)
    ensures var u' := Confirm(u, env, tip);
            var free := set o | o in u && u[o].account == acct && !u[o].internal && u[o].heights.spendable == None && u'[o].heights.spendable != None
                                && u[o].heights.spending == None && u[o].payment == None;
            Sum(u', AccountCurrentRows(u', acct)) == Sum(u, AccountCurrentRows(u, acct)) + Sum(u, free)
  {
    var u' := Confirm(u, env, tip);
    assert u'.Keys == u.Keys;
    hide Confirm, Sum;
    forall o | o in u { ConfirmedRow(u, env, tip, o); }
    var free := set o | o in u && u[o].account == acct && !u[o].internal && u[o].heights.spendable == None && u'[o].heights.spendable != None
                        && u[o].heights.spending == None && u[o].payment == None;
    SumMoves(u, u', AccountCurrentRows(u, acct), AccountCurrentRows(u', acct), {}, free);
    SumNone(u);
    SumCongruence(u, u', free);
  }

  /** A confirmation pass takes the outputs that become spendable off the incoming balance, change apart, and adds those of
      them that nothing has used to the current one. */
  lemma ConfirmMoves(u: UtxoTable, pay: PaymentTable, env: Env, tip: int, acct: AccountId)
    ensures var u' := Confirm(u, env, tip);
            var due := set o | o in u && u[o].account == acct && !u[o].internal && u[o].heights.spendable == None && u'[o].heights.spendable != None;
            var free := set o | o in u && u[o].account == acct && !u[o].internal && u[o].heights.spendable == None && u'[o].heights.spendable != None
                                && u[o].heights.spending == None && u[o].payment == None;
            var bal, bal' := CalcFrom(u, pay, acct), CalcFrom(u', pay, acct);
            && bal'.incoming == bal.incoming - Sum(u, due)
            && bal'.current == bal.current + Sum(u, free)
            && bal'.outgoing == bal.outgoing
  {
    ConfirmedIncoming(u, env, tip, acct);
    ConfirmedCurrent(u, env, tip, acct);
    hide Confirm, Sum, AccountIncomingRows, AccountCurrentRows;
  }

  // -------------------------------------------------------------------- rollbacks

  lemma RevertedRow(u: UtxoTable, m: int, o: Outpoint)
    requires o in u
    ensures var r, r' := u[o], Revert(u, m)[o];
            var gone := r.heights.added.Some? && r.heights.added.value > m;
            var late := r.heights.spendable.Some? && r.heights.spendable.value > m;
            && r'.account == r.account && r'.value == r.value && r'.internal == r.internal && r'.payment == r.payment && r'.address == r.address
            && r'.heights.added == (if gone then None else r.heights.added)
            && r'.heights.spendable == (if gone || late then None else r.heights.spendable)
            && r'.heights.spending == (if gone || late || (r.heights.spending.Some? && r.heights.spending.value > m) then None else r.heights.spending)
  {
    assert Revert(u, m)[o] == RevertRow(u[o], m);
  }

  lemma RevertedIncoming(u: UtxoTable, m: int, acct: AccountId)
    requires forall o | o in u && !u[o].internal && u[o].heights.spendable.Some? :: u[o].heights.added.Some?
    ensures var u' := Revert(u, m);
            var off := set o | o in u && u[o].account == acct && !u[o].internal && u[o].heights.spendable == None && Above(u[o].heights.added, m);
            var back := set o | o in u && u[o].account == acct && !u[o].internal && Above(u[o].heights.spendable, m) && !Above(u[o].heights.added, m);
            Sum(u', AccountIncomingRows(u', acct)) == Sum(u, AccountIncomingRows(u, acct)) - Sum(u, off) + Sum(u, back)
  {
    var u' := Revert(u, m);
    assert u'.Keys == u.Keys;
    hide Revert, Sum;
    forall o | o in u { RevertedRow(u, m, o); }
    var off := set o | o in u && u[o].account == acct && !u[o].internal && u[o].heights.spendable == None && Above(u[o].heights.added, m);
    var back := set o | o in u && u[o].account == acct && !u[o].internal && Above(u[o].heights.spendable, m) && !Above(u[o].heights.added, m);
    SumMoves(u, u', AccountIncomingRows(u, acct), AccountIncomingRows(u', acct), off, back);
    SumCongruence(u, u', back);
  }

  // Nothing uses the output, and it is no change.
  predicate IsFreeReceipt(r: UtxoRow) {
    IsFree(r) && !r.internal
  }

  // A rollback to m takes the spend back: it is above m, or goes with the height before it.
  predicate SpendUndone(r: UtxoRow, m: int) {
    r.heights.spending.Some? && (Above(r.heights.spending, m) || Above(r.heights.spendable, m) || Above(r.heights.added, m))
  }

  // The output is still confirmed after it, or is change.
  predicate StaysConfirmed(r: UtxoRow, m: int) {
    r.internal || (r.heights.spendable.Some? && !Above(r.heights.spendable, m) && !Above(r.heights.added, m))
  }

  lemma RevertedUse(u: UtxoTable, m: int, o: Outpoint)
    requires o in u && (!u[o].internal && u[o].heights.spendable.Some? ==> u[o].heights.added.Some?)
    ensures var r, r' := u[o], Revert(u, m)[o];
            && r'.account == r.account && r'.value == r.value
            && (IsFree(r') <==> StaysConfirmed(r, m) && r.payment == None && (r.heights.spending == None || SpendUndone(r, m)))
  {
    RevertedRow(u, m, o);
  }

  lemma RevertedCurrent(u: UtxoTable, m: int, acct: AccountId)
    requires forall o | o in u && !u[o].internal && u[o].heights.spendable.Some? :: u[o].heights.added.Some?
    ensures var u' := Revert(u, m);
            var lost := set o | o in u && u[o].account == acct && IsFreeReceipt(u[o]) && !StaysConfirmed(u[o], m);
            var freed := set o | o in u && u[o].account == acct && u[o].payment == None && SpendUndone(u[o], m) && StaysConfirmed(u[o], m);
            Sum(u', AccountCurrentRows(u', acct)) == Sum(u, AccountCurrentRows(u, acct)) - Sum(u, lost) + Sum(u, freed)
  {
    var u' := Revert(u, m);
    assert u'.Keys == u.Keys;
    var lost := set o | o in u && u[o].account == acct && IsFreeReceipt(u[o]) && !StaysConfirmed(u[o], m);
    var freed := set o | o in u && u[o].account == acct && u[o].payment == None && SpendUndone(u[o], m) && StaysConfirmed(u[o], m);
    var rows, rows' := AccountCurrentRows(u, acct), AccountCurrentRows(u', acct);
    assert forall o :: o in rows <==> o in u && u[o].account == acct && IsFree(u[o]);
    assert forall o :: o in rows' <==> o in u' && u'[o].account == acct && IsFree(u'[o]);
    hide Revert, Sum, AccountCurrentRows;
    forall o
      ensures o in rows' <==> o in freed || (o in rows && o !in lost)
      ensures o in u ==> u'[o].value == u[o].value
    {
      if o in u { RevertedUse(u, m, o); }
    }
    hide IsFree, StaysConfirmed, SpendUndone;
    SumMoves(u, u', rows, rows', lost, freed);
    SumCongruence(u, u', freed);
  }

  /** A rollback takes outputs added above its target off the balance they count in, moves those that were only confirmed above
      it from the current balance back to the incoming one, and gives back to the current one what was spent above it, or
      whose spend it loses. */
  lemma RevertMoves(u: UtxoTable, pay: PaymentTable, m: int, acct: AccountId)
    requires forall o | o in u && !u[o].internal && u[o].heights.spendable.Some? :: u[o].heights.added.Some?
    ensures var off := set o | o in u && u[o].account == acct && !u[o].internal && u[o].heights.spendable == None && Above(u[o].heights.added, m);
            var back := set o | o in u && u[o].account == acct && !u[o].internal && Above(u[o].heights.spendable, m) && !Above(u[o].heights.added, m);
            var lost := set o | o in u && u[o].account == acct && IsFreeReceipt(u[o]) && !StaysConfirmed(u[o], m);
            var freed := set o | o in u && u[o].account == acct && u[o].payment == None && SpendUndone(u[o], m) && StaysConfirmed(u[o], m);
            var bal, bal' := CalcFrom(u, pay, acct), CalcFrom(Revert(u, m), pay, acct);
            && bal'.incoming == bal.incoming - Sum(u, off) + Sum(u, back)
            && bal'.current == bal.current - Sum(u, lost) + Sum(u, freed)
            && bal'.outgoing == bal.outgoing
  {
    RevertedIncoming(u, m, acct);
    RevertedCurrent(u, m, acct);
    hide Revert, Sum, AccountIncomingRows, AccountCurrentRows;
  }

  // ------------------------------------------------------------------ each once

  /** No output counts in both balances: they add up to all the account owns, but for what something has used and what no block
      holds. */
  lemma EachCountsOnce(u: UtxoTable, pay: PaymentTable, acct: AccountId)
    ensures var all := set o | o in u && u[o].account == acct;
            var used := set o | o in all && (u[o].internal || u[o].heights.spendable != None) && !IsFree(u[o]);
            var nowhere := set o | o in all && !u[o].internal && u[o].heights.spendable == None && u[o].heights.added == None;
            CalcFrom(u, pay, acct).incoming + CalcFrom(u, pay, acct).current == Sum(u, all) - Sum(u, used) - Sum(u, nowhere)
  {
    var all := set o | o in u && u[o].account == acct;
    var used := set o | o in all && (u[o].internal || u[o].heights.spendable != None) && !IsFree(u[o]);
    var nowhere := set o | o in all && !u[o].internal && u[o].heights.spendable == None && u[o].heights.added == None;
    var incoming, current := AccountIncomingRows(u, acct), AccountCurrentRows(u, acct);
    assert all == incoming + current + used + nowhere;
    SumUnion(u, incoming, current);
    SumUnion(u, incoming + current, used);
    SumUnion(u, incoming + current + used, nowhere);
  }

  // -------------------------------------------------------------------- payments

  lemma {:induction false} TotalsUnion(pay: PaymentTable, s: set<int>, t: set<int>)
    requires s <= pay.Keys && t <= pay.Keys && s !! t
    ensures SumTotals(pay, s + t) == SumTotals(pay, s) + SumTotals(pay, t)
    decreases t
  {
    if t == {} {
      assert s + t == s;
    } else {
      var p := Pick(t);
      TotalsUnion(pay, s, t - {p});
      assert s + t - {p} == s + (t - {p});
      SumTotalsRemove(pay, s + t, p);
      SumTotalsRemove(pay, t, p);
    }
  }

  /** The outgoing balance loses exactly the payments a batch confirms. Nothing else of a balance moves. */
  lemma PaymentsConfirm(u: UtxoTable, pay: PaymentTable, conf: int, tip: int, acct: AccountId)
    ensures var due := set p | p in pay && pay[p].account == acct && pay[p].confirmedHeight == None
                               && pay[p].paidHeight.Some? && pay[p].paidHeight.value + conf <= tip;
            var bal := CalcFrom(u, pay, acct);
            CalcFrom(u, ConfirmPayments(pay, conf, tip), acct) == bal.(outgoing := bal.outgoing - SumTotals(pay, due))
  {
    var pay' := ConfirmPayments(pay, conf, tip);
    var open, open' := AccountUnconfirmedPayments(pay, acct), AccountUnconfirmedPayments(pay', acct);
    var due := set p | p in pay && pay[p].account == acct && pay[p].confirmedHeight == None
                       && pay[p].paidHeight.Some? && pay[p].paidHeight.value + conf <= tip;
    forall p ensures p in open' <==> p in open && p !in due {
      assert p in pay ==> pay'[p] == ConfirmPaymentRow(pay[p], conf, tip);
    }
    assert open == open' + due && forall p | p in open' :: pay'[p].total == pay[p].total;
    hide SumTotals, Tables.ConfirmPayments;
    TotalsUnion(pay, open', due);
    SumTotalsCongruence(pay, pay', open');
  }

  /** A rollback gives back to it exactly those confirmed or paid above its target. */
  lemma PaymentsRevert(u: UtxoTable, pay: PaymentTable, m: int, acct: AccountId)
    ensures var back := set p | p in pay && pay[p].account == acct && pay[p].confirmedHeight.Some?
                                && (pay[p].confirmedHeight.value > m || (pay[p].paidHeight.Some? && pay[p].paidHeight.value > m));
            var bal := CalcFrom(u, pay, acct);
            CalcFrom(u, RevertPayments(pay, m), acct) == bal.(outgoing := bal.outgoing + SumTotals(pay, back))
  {
    var pay' := RevertPayments(pay, m);
    var open, open' := AccountUnconfirmedPayments(pay, acct), AccountUnconfirmedPayments(pay', acct);
    var back := set p | p in pay && pay[p].account == acct && pay[p].confirmedHeight.Some?
                        && (pay[p].confirmedHeight.value > m || (pay[p].paidHeight.Some? && pay[p].paidHeight.value > m));
    forall p ensures p in open' <==> p in open || p in back {
      assert p in pay ==> pay'[p] == RevertConfirmed(RevertPaid(pay[p], m), m);
    }
    assert open' == open + back && forall p | p in open' :: pay'[p].total == pay[p].total;
    hide SumTotals, RevertPayments;
    TotalsUnion(pay, open, back);
    SumTotalsCongruence(pay, pay', open');
  }

  // --------------------------------------------------------- amounts of an invoice

  /** What arrives at an address counts towards its invoice at once, and once it is spendable as paid. */
  lemma AmountsMove(u: UtxoTable, o: Outpoint, value: int, a: Address, owner: AddressRow, height: int, b: Address)
    requires o !in u
    ensures var u' := Upsert(u, o, value, a, owner, height);
            && IncomingAmount(u', b) == IncomingAmount(u, b) + (if a == b then value else 0)
            && PaidAmount(u', b) == PaidAmount(u, b)
  {
    var u' := Upsert(u, o, value, a, owner, height);
    SumMoves(u, u', IncomingRows(u, b), IncomingRows(u', b), {}, if a == b then {o} else {});
    SumMoves(u, u', PaidRows(u, b), PaidRows(u', b), {}, {});
    SumNone(u);
    SumNone(u');
    SumOne(u', o);
  }

  lemma AmountsConfirm(u: UtxoTable, env: Env, tip: int, a: Address)
    ensures var u' := Confirm(u, env, tip);
            var due := set o | o in u && u[o].address == a && u[o].heights.spendable == None && u'[o].heights.spendable != None;
            IncomingAmount(u', a) == IncomingAmount(u, a) && PaidAmount(u', a) == PaidAmount(u, a) + Sum(u, due)
  {
    var u' := Confirm(u, env, tip);
    assert u'.Keys == u.Keys;
    hide Confirm;
    forall o | o in u { ConfirmedRow(u, env, tip, o); }
    var due := set o | o in u && u[o].address == a && u[o].heights.spendable == None && u'[o].heights.spendable != None;
    SumMoves(u, u', IncomingRows(u, a), IncomingRows(u', a), {}, {});
    SumMoves(u, u', PaidRows(u, a), PaidRows(u', a), {}, due);
    SumNone(u);
    SumNone(u');
    SumCongruence(u, u', due);
  }

  /** A rollback takes off what was added above its target, and off the paid amount what was confirmed above it. */
  lemma AmountsRevert(u: UtxoTable, m: int, a: Address)
    requires forall o | o in u && u[o].address == a && u[o].heights.spendable.Some? :: u[o].heights.added.Some?
    ensures var u' := Revert(u, m);
            var off := set o | o in u && u[o].address == a && u[o].heights.added.Some? && u[o].heights.added.value > m;
            var undone := set o | o in u && u[o].address == a && u[o].heights.spendable.Some?
                                  && (u[o].heights.spendable.value > m || u[o].heights.added.value > m);
            IncomingAmount(u', a) == IncomingAmount(u, a) - Sum(u, off) && PaidAmount(u', a) == PaidAmount(u, a) - Sum(u, undone)
  {
    var u' := Revert(u, m);
    assert u'.Keys == u.Keys;
    hide Revert;
    forall o | o in u { RevertedRow(u, m, o); }
    var off := set o | o in u && u[o].address == a && u[o].heights.added.Some? && u[o].heights.added.value > m;
    var undone := set o | o in u && u[o].address == a && u[o].heights.spendable.Some?
                          && (u[o].heights.spendable.value > m || u[o].heights.added.value > m);
    SumMoves(u, u', IncomingRows(u, a), IncomingRows(u', a), off, {});
    SumMoves(u, u', PaidRows(u, a), PaidRows(u', a), undone, {});
    SumNone(u);
    SumNone(u');
  }
}
