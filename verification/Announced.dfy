/** Which events a batch of BalanceKeeper sends for which invoice, and that over a whole run no part or total payment is
    announced again after a total one, unless payments have gone in between. */
module Announced {
  import opened Options
  import opened BlockTree
  import opened Ledger
  import opened Tables
  import opened Feed
  import opened Wallet
  import opened Service

  // ----------------------------------------------------------------- one batch

  function Last(amount: Option<int>): int {
    match amount
    case Some(x) => x
    case None => 0
  }

  // How often the event is sent.
  function Times(events: seq<Event>, e: Event): nat {
    multiset(events)[e]
  }

  function Once(sent: bool): nat {
    if sent then 1 else 0
  }

  /** The events about invoice a, whose row is r, given what has arrived at its address and what of it is confirmed: each is
      sent once or not at all. */
  ghost predicate Tells(events: seq<Event>, a: Address, r: InvoiceRow, incoming: int, paid: int) {
    var told, toldPaid := Last(r.lastIncoming), Last(r.lastPaid);
    && Times(events, BalanceChanged(a)) == Once(incoming != told || paid != toldPaid)
    && Times(events, PartPaymentDetected(a)) == Once(told < incoming < r.total)
    && Times(events, TotalPaymentDetected(a)) == Once(told < r.total <= incoming)
    && Times(events, OverPaymentDetected(a)) == Once(told < incoming && r.total < incoming)
    && Times(events, OverPaymentConfirmed(a)) == Once(toldPaid < paid && r.total < paid)
    && Times(events, TotalPaymentConfirmed(a)) == Once(Last(r.paidHeight) != 0 && !r.paidEvent)
    && Times(events, PaymentUnconfirmed(a)) == Once(Last(r.paidHeight) == 0 && r.paidEvent)
  }

  // No event is about invoice a.
  ghost predicate Silent(events: seq<Event>, a: Address) {
    forall e | e in events :: !About(e, a)
  }

  predicate About(e: Event, a: Address) {
    !e.AccountBalanceChange? && e.a == a
  }

  lemma TimesConcat(x: seq<Event>, y: seq<Event>, e: Event)
    ensures Times(x + y, e) == Times(x, e) + Times(y, e)
  {
    assert multiset(x + y) == multiset(x) + multiset(y);
  }

  lemma TimesIf(sent: bool, e: Event, e': Event)
    ensures Times(if sent then [e] else [], e') == Once(sent && e == e')
  {
  }

  lemma AmountTimes(a: Address, r: InvoiceRow, incoming: int, paid: int, e: Event)
    ensures var told, toldPaid := Last(r.lastIncoming), Last(r.lastPaid);
            Times(AmountEvents(a, r, incoming, paid), e) ==
            Once((incoming != told || paid != toldPaid) && e == BalanceChanged(a)) +
            Once(told < r.total <= incoming && e == TotalPaymentDetected(a)) +
            Once(told < incoming < r.total && e == PartPaymentDetected(a)) +
            Once(told < incoming && r.total < incoming && e == OverPaymentDetected(a))
  {
    var told, toldPaid := OrZero(r.lastIncoming), OrZero(r.lastPaid);
    var changed, more, over := incoming != told || paid != toldPaid, incoming > told && told < r.total, incoming > told && incoming > r.total;
    var found := if incoming >= r.total then TotalPaymentDetected(a) else PartPaymentDetected(a);
    var e1, e2, e3 := if changed then [BalanceChanged(a)] else [], if more then [found] else [], if over then [OverPaymentDetected(a)] else [];
    assert AmountEvents(a, r, incoming, paid) == e1 + e2 + e3;
    hide AmountEvents, Times;
    TimesConcat(e1 + e2, e3, e);
    TimesConcat(e1, e2, e);
    TimesIf(changed, BalanceChanged(a), e);
    TimesIf(more, found, e);
    TimesIf(over, OverPaymentDetected(a), e);
  }

  lemma FlipTimes(a: Address, r: InvoiceRow, e: Event)
    ensures Times(FlipEvents(a, r), e)
         == Once(Last(r.paidHeight) != 0 && !r.paidEvent && e == TotalPaymentConfirmed(a))
            + Once(Last(r.paidHeight) == 0 && r.paidEvent && e == PaymentUnconfirmed(a))
  {
    TimesIf(true, TotalPaymentConfirmed(a), e);
    TimesIf(true, PaymentUnconfirmed(a), e);
    TimesIf(false, e, e);
  }

  lemma OverpaidTimes(a: Address, r: InvoiceRow, paid: int, e: Event)
    ensures Times(OverpaidEvents(a, r, paid), e) == Once(Last(r.lastPaid) < paid && r.total < paid && e == OverPaymentConfirmed(a))
  {
    TimesIf(paid > OrZero(r.lastPaid) && paid > r.total, OverPaymentConfirmed(a), e);
  }

  lemma EventTimes(a: Address, r: InvoiceRow, incoming: int, paid: int, e: Event)
    ensures Times(EventsFor(a, r, incoming, paid), e)
         == Times(AmountEvents(a, r, incoming, paid), e) + Times(FlipEvents(a, r), e) + Times(OverpaidEvents(a, r, paid), e)
  {
    TimesConcat(AmountEvents(a, r, incoming, paid) + FlipEvents(a, r), OverpaidEvents(a, r, paid), e);
    TimesConcat(AmountEvents(a, r, incoming, paid), FlipEvents(a, r), e);
  }

  /** What is sent for one invoice tells of it what is to be told. */
  lemma EventsTell(a: Address, r: InvoiceRow, incoming: int, paid: int)
    ensures Tells(EventsFor(a, r, incoming, paid), a, r, incoming, paid)
  {
    hide Times, EventsFor, AmountEvents, FlipEvents, OverpaidEvents;
    TimesOfAll(a, r, incoming, paid, BalanceChanged(a));
    TimesOfAll(a, r, incoming, paid, PartPaymentDetected(a));
    TimesOfAll(a, r, incoming, paid, TotalPaymentDetected(a));
    TimesOfAll(a, r, incoming, paid, OverPaymentDetected(a));
    TimesOfAll(a, r, incoming, paid, OverPaymentConfirmed(a));
    TimesOfAll(a, r, incoming, paid, TotalPaymentConfirmed(a));
    TimesOfAll(a, r, incoming, paid, PaymentUnconfirmed(a));
  }

  lemma TimesOfAll(a: Address, r: InvoiceRow, incoming: int, paid: int, e: Event)
    ensures var told, toldPaid := Last(r.lastIncoming), Last(r.lastPaid);
            Times(EventsFor(a, r, incoming, paid), e) ==
            Once((incoming != told || paid != toldPaid) && e == BalanceChanged(a)) +
            Once(told < r.total <= incoming && e == TotalPaymentDetected(a)) +
            Once(told < incoming < r.total && e == PartPaymentDetected(a)) +
            Once(told < incoming && r.total < incoming && e == OverPaymentDetected(a)) +
            Once(Last(r.paidHeight) != 0 && !r.paidEvent && e == TotalPaymentConfirmed(a)) +
            Once(Last(r.paidHeight) == 0 && r.paidEvent && e == PaymentUnconfirmed(a)) +
            Once(toldPaid < paid && r.total < paid && e == OverPaymentConfirmed(a))
  {
    hide Times, EventsFor, AmountEvents, FlipEvents, OverpaidEvents;
    EventTimes(a, r, incoming, paid, e);
    AmountTimes(a, r, incoming, paid, e);
    FlipTimes(a, r, e);
    OverpaidTimes(a, r, paid, e);
  }

  lemma EventsAbout(a: Address, r: InvoiceRow, incoming: int, paid: int, b: Address)
    requires a != b
    ensures Silent(EventsFor(a, r, incoming, paid), b)
  {
  }

  // ------------------------------------------------------- all invoices of an account

  lemma SilentTimes(events: seq<Event>, a: Address, e: Event)
    requires Silent(events, a) && About(e, a)
    ensures Times(events, e) == 0
  {
    assert e !in events;
  }

  // Events about an invoice are those of its own turn.
  lemma {:induction false} OwnTurn(u: UtxoTable, inv: InvoiceTable, order: seq<Address>, a: Address, e: Event)
    requires NoRepeats(order) && About(e, a)
    ensures Times(EventsOf(u, inv, order), e) == if a in order then Times(InvoiceEvents(u, inv, a), e) else 0
  {
    if order != [] {
      var n := |order| - 1;
      var b := order[n];
      LastApart(order);
      OwnTurn(u, inv, order[..n], a, e);
      hide Times, EventsFor, InvoiceEvents, NoRepeats;
      TimesConcat(EventsOf(u, inv, order[..n]), InvoiceEvents(u, inv, b), e);
      if b != a { OtherTurn(u, inv, b, a, e); }
    }
  }

  lemma OtherTurn(u: UtxoTable, inv: InvoiceTable, b: Address, a: Address, e: Event)
    requires a != b && About(e, a)
    ensures Times(InvoiceEvents(u, inv, b), e) == 0
  {
    if b in inv {
      EventsAbout(b, inv[b], IncomingAmount(u, b), PaidAmount(u, b), a);
      SilentTimes(InvoiceEvents(u, inv, b), a, e);
    }
  }

  /** A batch tells of every invoice of its account what is to be told, of no other invoice anything, and of the account that
      its balance has changed, if it has. */
  lemma BatchTells(db: Db, acct: AccountId, a: Address)
    requires acct in db.account && KeysDistinct(db.invoice)
    ensures var events := KeeperEvents(db, acct);
            if a in db.invoice && db.invoice[a].account == acct
            then Tells(events, a, db.invoice[a], IncomingAmount(db.utxo, a), PaidAmount(db.utxo, a))
            else Silent(events, a)
  {
    var order := Visit(db.invoice, acct, 0);
    VisitsEachOnce(db.invoice, acct, 0);
    assert a in order <==> a in db.invoice && db.invoice[a].account == acct;
    hide KeysDistinct, Visit, CalcBalance, Times, EventsFor, NoRepeats, InvoiceEvents, EventsOf;
    forall e | About(e, a)
      ensures Times(KeeperEvents(db, acct), e) == if a in order then Times(InvoiceEvents(db.utxo, db.invoice, a), e) else 0
    {
      OwnTurn(db.utxo, db.invoice, order, a, e);
      TimesConcat(BalanceEvent(db, acct), EventsOf(db.utxo, db.invoice, order), e);
      NoneOfBalance(db, acct, a, e);
    }
    if a in order { TurnTells(db, acct, a); } else { NoTimes(KeeperEvents(db, acct), a); }
  }

  /** Every invoice of the account is told of, and no other; and the account of its balance, if it has changed. */
  ghost predicate TellsAll(db: Db, acct: AccountId, events: seq<Event>) {
    && acct in db.account
    && (forall a | a in db.invoice && db.invoice[a].account == acct ::
          Tells(events, a, db.invoice[a], IncomingAmount(db.utxo, a), PaidAmount(db.utxo, a)))
    && (forall a | a !in db.invoice || db.invoice[a].account != acct :: Silent(events, a))
    && (var r, bal := db.account[acct], CalcBalance(db, acct);
        forall b, bal' :: Times(events, AccountBalanceChange(b, bal')) ==
                          Once(b == acct && bal' == bal && (bal.incoming != r.incoming || bal.current != r.current || bal.outgoing != r.outgoing)))
  }

  lemma BatchTellsAll(db: Db, acct: AccountId)
    requires acct in db.account && KeysDistinct(db.invoice)
    ensures TellsAll(db, acct, KeeperEvents(db, acct))
  {
    var events := KeeperEvents(db, acct);
    hide Tells, Silent, KeeperEvents, KeysDistinct, CalcBalance, Times;
    forall a
      ensures if a in db.invoice && db.invoice[a].account == acct
              then Tells(events, a, db.invoice[a], IncomingAmount(db.utxo, a), PaidAmount(db.utxo, a)) else Silent(events, a)
    {
      BatchTells(db, acct, a);
    }
    forall b, bal' { BatchTellsBalance(db, acct, b, bal'); }
  }

  lemma NoneOfBalance(db: Db, acct: AccountId, a: Address, e: Event)
    requires acct in db.account && About(e, a)
    ensures Times(BalanceEvent(db, acct), e) == 0
  {
  }

  lemma NoTimes(events: seq<Event>, a: Address)
    requires forall e | About(e, a) :: Times(events, e) == 0
    ensures Silent(events, a)
  {
    forall e | e in events ensures !About(e, a) {
      assert Times(events, e) > 0;
    }
  }

  lemma TurnTells(db: Db, acct: AccountId, a: Address)
    requires acct in db.account && a in db.invoice
    requires forall e | About(e, a) :: Times(KeeperEvents(db, acct), e) == Times(InvoiceEvents(db.utxo, db.invoice, a), e)
    ensures Tells(KeeperEvents(db, acct), a, db.invoice[a], IncomingAmount(db.utxo, a), PaidAmount(db.utxo, a))
  {
    EventsTell(a, db.invoice[a], IncomingAmount(db.utxo, a), PaidAmount(db.utxo, a));
    hide KeeperEvents, EventsFor, Times;
    assert About(BalanceChanged(a), a) && About(PartPaymentDetected(a), a) && About(TotalPaymentDetected(a), a) && About(OverPaymentDetected(a), a)
           && About(OverPaymentConfirmed(a), a) && About(TotalPaymentConfirmed(a), a) && About(PaymentUnconfirmed(a), a);
  }

  lemma BatchTellsBalance(db: Db, acct: AccountId, b: AccountId, bal: Balance)
    requires acct in db.account
    ensures var r := db.account[acct];
            Times(KeeperEvents(db, acct), AccountBalanceChange(b, bal)) ==
            Once(b == acct && bal == CalcBalance(db, acct) && bal != Balance(r.incoming, r.current, r.outgoing))
  {
    var order := Visit(db.invoice, acct, 0);
    hide Visit, CalcBalance;
    TimesConcat(BalanceEvent(db, acct), EventsOf(db.utxo, db.invoice, order), AccountBalanceChange(b, bal));
    NoBalance(db.utxo, db.invoice, order, AccountBalanceChange(b, bal));
  }

  lemma {:induction false} NoBalance(u: UtxoTable, inv: InvoiceTable, order: seq<Address>, e: Event)
    requires e.AccountBalanceChange?
    ensures e !in EventsOf(u, inv, order)
  {
    if order != [] {
      NoBalance(u, inv, order[..|order| - 1], e);
      NoBalanceFor(u, inv, order[|order| - 1], e);
      hide InvoiceEvents;
    }
  }

  lemma NoBalanceFor(u: UtxoTable, inv: InvoiceTable, a: Address, e: Event)
    requires e.AccountBalanceChange?
    ensures e !in InvoiceEvents(u, inv, a)
  {
    hide IncomingAmount, PaidAmount;
  }

  // ------------------------------------------------------------------- whole runs

  // Whenever its account is processed, what has arrived for the invoice reaches its total.
  ghost predicate NeverBelow(w: World, dflt: int, s: State, run: seq<Move>, a: Address)
    requires ValidTree(w) && AllowedRun(w, dflt, s, run)
    decreases |run|
  {
    run == [] ||
      (&& (a in s.db.invoice && run[0] == KeeperBatch(s.db.invoice[a].account) ==> IncomingAmount(s.db.utxo, a) >= s.db.invoice[a].total)
       && NeverBelow(w, dflt, Next(w, dflt, s, run[0]), run[1..], a))
  }

  // The invoice has been told of its total.
  ghost predicate ToldTotal(s: State, a: Address) {
    a in s.db.invoice && Last(s.db.invoice[a].lastIncoming) >= s.db.invoice[a].total
  }

  ghost predicate NoneDetected(events: seq<Event>, a: Address) {
    PartPaymentDetected(a) !in events && TotalPaymentDetected(a) !in events
  }

  // Only a batch of its account touches what an invoice has been told, and it sends events.
  lemma QuietElse(w: World, dflt: int, s: State, mv: Move, a: Address)
    requires ValidTree(w) && Allowed(w, dflt, s, mv) && !mv.KeeperBatch? && ToldTotal(s, a)
    ensures ToldTotal(Next(w, dflt, s, mv), a) && Next(w, dflt, s, mv).log == s.log
  {
    hide ValidTree, Confirm, Apply, Revert;
  }

  lemma QuietBatch(w: World, dflt: int, s: State, mv: Move, a: Address)
    requires ValidTree(w) && KeysDistinct(s.db.invoice) && mv.KeeperBatch? && Allowed(w, dflt, s, mv) && ToldTotal(s, a)
    requires mv.account == s.db.invoice[a].account ==> IncomingAmount(s.db.utxo, a) >= s.db.invoice[a].total
    ensures ToldTotal(Next(w, dflt, s, mv), a)
    ensures mv.account in s.db.account
    ensures Next(w, dflt, s, mv).log == s.log + KeeperEvents(s.db, mv.account) && NoneDetected(KeeperEvents(s.db, mv.account), a)
  {
    hide ValidTree, IncomingAmount, PaidAmount, CalcBalance, KeeperEvents;
    var events := KeeperEvents(s.db, mv.account);
    BatchTells(s.db, mv.account, a);
    assert About(PartPaymentDetected(a), a) && About(TotalPaymentDetected(a), a);
  }

  lemma DistinctKeys(w: World, dflt: int, s: State)
    requires StateOk(w, dflt, s)
    ensures KeysDistinct(s.db.invoice)
  {
  }

  /** Once an invoice has been told of its total, no part and no total payment is announced for it again, unless what has
      arrived falls below the total in between. */
  lemma {:induction false} RunQuiet(w: World, dflt: int, s: State, run: seq<Move>, a: Address)
    requires ValidWorld(w) && StateOk(w, dflt, s) && ToldTotal(s, a) && AllowedRun(w, dflt, s, run) && NeverBelow(w, dflt, s, run, a)
    ensures var log := RunFrom(w, dflt, s, run).log; s.log <= log && NoneDetected(log[|s.log|..], a)
    decreases |run|
  {
    if run != [] {
      var s' := Next(w, dflt, s, run[0]);
      assert ValidTree(w);
      hide StateOk, ToldTotal, Allowed, Next, IncomingAmount, NoneDetected, ValidWorld, ValidTree;
      DistinctKeys(w, dflt, s);
      MoveStateOk(w, dflt, s, run[0]);
      QuietMove(w, dflt, s, run[0], a);
      RunQuiet(w, dflt, s', run[1..], a);
      QuietJoins(s.log, s'.log, RunFrom(w, dflt, s, run).log, a);
    }
  }

  lemma QuietMove(w: World, dflt: int, s: State, mv: Move, a: Address)
    requires ValidTree(w) && KeysDistinct(s.db.invoice) && Allowed(w, dflt, s, mv) && ToldTotal(s, a)
    requires mv == KeeperBatch(s.db.invoice[a].account) ==> IncomingAmount(s.db.utxo, a) >= s.db.invoice[a].total
    ensures var s' := Next(w, dflt, s, mv); ToldTotal(s', a) && s.log <= s'.log && NoneDetected(s'.log[|s.log|..], a)
  {
    if mv.KeeperBatch? {
      hide ValidTree, Allowed, Next, IncomingAmount, KeeperEvents;
      QuietBatch(w, dflt, s, mv, a);
      assert (s.log + KeeperEvents(s.db, mv.account))[|s.log|..] == KeeperEvents(s.db, mv.account);
    } else {
      hide ValidTree, Allowed, Next, IncomingAmount;
      QuietElse(w, dflt, s, mv, a);
    }
  }

  lemma QuietJoins(x: seq<Event>, y: seq<Event>, z: seq<Event>, a: Address)
    requires x <= y <= z && NoneDetected(y[|x|..], a) && NoneDetected(z[|y|..], a)
    ensures x <= z && NoneDetected(z[|x|..], a)
  {
    assert z[|x|..] == y[|x|..] + z[|y|..];
  }

  /** After a batch has announced the total payment of an invoice, no part and no total payment is announced for it again,
      unless what has arrived falls below the total in between. */
  lemma TotalOnce(w: World, dflt: int, s: State, acct: AccountId, run: seq<Move>, a: Address)
    requires ValidWorld(w) && StateOk(w, dflt, s) && Allowed(w, dflt, s, KeeperBatch(acct))
    requires TotalPaymentDetected(a) in KeeperEvents(s.db, acct)
    requires var s' := Next(w, dflt, s, KeeperBatch(acct)); AllowedRun(w, dflt, s', run) && NeverBelow(w, dflt, s', run, a)
    ensures var s' := Next(w, dflt, s, KeeperBatch(acct)); var log := RunFrom(w, dflt, s', run).log;
            s'.log <= log && PartPaymentDetected(a) !in log[|s'.log|..] && TotalPaymentDetected(a) !in log[|s'.log|..]
  {
    assert ValidTree(w);
    DistinctKeys(w, dflt, s);
    MoveStateOk(w, dflt, s, KeeperBatch(acct));
    TotalTold(w, dflt, s, acct, a);
    hide StateOk, ToldTotal, Allowed, Next, KeeperEvents, ValidWorld, ValidTree, AllowedRun, RunFrom, NeverBelow;
    RunQuiet(w, dflt, Next(w, dflt, s, KeeperBatch(acct)), run, a);
  }

  lemma TotalTold(w: World, dflt: int, s: State, acct: AccountId, a: Address)
    requires ValidTree(w) && KeysDistinct(s.db.invoice) && Allowed(w, dflt, s, KeeperBatch(acct))
    requires TotalPaymentDetected(a) in KeeperEvents(s.db, acct)
    ensures ToldTotal(Next(w, dflt, s, KeeperBatch(acct)), a)
  {
    hide ValidTree, IncomingAmount, PaidAmount, CalcBalance, KeeperEvents;
    BatchTells(s.db, acct, a);
    assert About(TotalPaymentDetected(a), a);
    assert Times(KeeperEvents(s.db, acct), TotalPaymentDetected(a)) > 0;
  }
}
