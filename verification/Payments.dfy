/** Sending funds: reserve the inputs, record the payment and its change in one
    transaction, then hand the transaction to the network. */
module Payments {
  import opened Options
  import opened BlockTree
  import opened Ledger
  import opened Guarantees
  import opened Tables
  import opened Feed
  import opened Store
  import opened Fees
  import opened Spend
  import Wallet
  import Service
  import Chainstate
  import Backing

  // ------------------------------------------------ what a payment does to the tables

  /** Every listed output is reserved for a payment. */
  function ReserveAll(u: UtxoTable, inputs: seq<Utxo>, payment: int): UtxoTable {
    if inputs == [] then u else ReserveAll(Reserved(u, inputs[0].o, payment), inputs[1..], payment)
  }

  // The change a transaction pays back: value 0 when there is none.
  datatype ChangeOutput = ChangeOutput(o: Outpoint, value: int, address: Address, owner: AddressRow)

  function WithChange(u: UtxoTable, c: ChangeOutput): UtxoTable {
    if c.value == 0 then u else Upsert(u, c.o, c.value, c.address, c.owner, 0)
  }

  /** The tables after the first transaction of a payment has committed. */
  function PaidDb(db: Db, id: int, row: PaymentRow, inputs: seq<Utxo>, c: ChangeOutput): Db {
    db.(utxo := WithChange(ReserveAll(db.utxo, inputs, id), c), payment := db.payment[id := row])
  }

  // The inputs are rows the account can spend, each once, with the values of the table.
  ghost predicate InputsOk(u: UtxoTable, account: AccountId, inputs: seq<Utxo>) {
    && DistinctOutpoints(inputs)
    && forall i | 0 <= i < |inputs| :: inputs[i].o in Eligible(u, account) && inputs[i].value == u[inputs[i].o].value
  }

  // ------------------------------------------------------------- conservation

  lemma ReserveOne(u: UtxoTable, account: AccountId, inputs: seq<Utxo>, payment: int)
    requires InputsOk(u, account, inputs) && inputs != []
    ensures var u' := Reserved(u, inputs[0].o, payment);
            && InputsOk(u', account, inputs[1..])
            && AccountCurrentRows(u', account) == AccountCurrentRows(u, account) - {inputs[0].o}
            && Sum(u', AccountCurrentRows(u', account)) == Sum(u, AccountCurrentRows(u, account)) - inputs[0].value
            && AccountIncomingRows(u', account) == AccountIncomingRows(u, account)
  {
    var o := inputs[0].o;
    var u' := Reserved(u, o, payment);
    var rows := AccountCurrentRows(u, account);
    assert o in rows;
    SumRemove(u, rows, o);
    SumCongruence(u, u', rows - {o});
    assert AccountCurrentRows(u', account) == rows - {o};
    assert AccountIncomingRows(u', account) == AccountIncomingRows(u, account);
  }

  lemma TotalHead(us: seq<Utxo>)
    requires us != []
    ensures Total(us) == us[0].value + Total(us[1..])
  {
    if |us| > 1 {
      TotalHead(us[..|us| - 1]);
      assert us[1..][..|us| - 2] == us[..|us| - 1][1..];
    }
  }

  lemma {:induction false} ReserveConserves(u: UtxoTable, account: AccountId, inputs: seq<Utxo>, payment: int)
    requires InputsOk(u, account, inputs)
    ensures var u' := ReserveAll(u, inputs, payment);
            && u'.Keys == u.Keys && (forall o | o in u :: u'[o] == u[o].(payment := u'[o].payment))
            && Sum(u', AccountCurrentRows(u', account)) == Sum(u, AccountCurrentRows(u, account)) - Total(inputs)
            && Sum(u', AccountIncomingRows(u', account)) == Sum(u, AccountIncomingRows(u, account))
    decreases |inputs|
  {
    if inputs != [] {
      var mid := Reserved(u, inputs[0].o, payment);
      ReserveOne(u, account, inputs, payment);
      ReserveConserves(mid, account, inputs[1..], payment);
      TotalHead(inputs);
      SumCongruence(u, mid, AccountIncomingRows(u, account));
    }
  }

  lemma ChangeConserves(u: UtxoTable, account: AccountId, c: ChangeOutput)
    requires c.o !in u && c.owner.internal && c.owner.account == account
    ensures var u' := WithChange(u, c);
            && Sum(u', AccountCurrentRows(u', account)) == Sum(u, AccountCurrentRows(u, account)) + c.value
            && Sum(u', AccountIncomingRows(u', account)) == Sum(u, AccountIncomingRows(u, account))
  {
    if c.value != 0 {
      var u' := WithChange(u, c);
      var rows, incoming := AccountCurrentRows(u, account), AccountIncomingRows(u, account);
      assert AccountCurrentRows(u', account) == rows + {c.o} && AccountIncomingRows(u', account) == incoming;
      SumInsert(u', rows, c.o);
      SumCongruence(u, u', rows);
      SumCongruence(u, u', incoming);
    }
  }

  lemma OutgoingConserves(pay: PaymentTable, account: AccountId, id: int, row: PaymentRow)
    requires id !in pay && row.account == account && row.confirmedHeight == None
    ensures var pay' := pay[id := row];
            SumTotals(pay', AccountUnconfirmedPayments(pay', account)) == SumTotals(pay, AccountUnconfirmedPayments(pay, account)) + row.total
  {
    var pay' := pay[id := row];
    var open := AccountUnconfirmedPayments(pay, account);
    assert AccountUnconfirmedPayments(pay', account) == open + {id};
    SumTotalsRemove(pay', open + {id}, id);
    assert open + {id} - {id} == open;
    SumTotalsCongruence(pay, pay', open);
  }

  /** A payment lowers the current balance by exactly its inputs less its change, which is what it pays out and its fee
      when these add up; it adds what it pays out to the outgoing balance, and leaves the incoming balance alone. */
  lemma PaymentConserves(db: Db, account: AccountId, id: int, row: PaymentRow, inputs: seq<Utxo>, c: ChangeOutput)
    requires InputsOk(db.utxo, account, inputs) && id !in db.payment && row.account == account && row.confirmedHeight == None
    requires c.o !in db.utxo && c.owner.internal && c.owner.account == account
    ensures var bal, bal' := CalcBalance(db, account), CalcBalance(PaidDb(db, id, row, inputs, c), account);
            && bal'.current == bal.current - Total(inputs) + c.value
            && (Total(inputs) as real == row.total + row.fee as real + c.value as real ==>
                  bal'.current as real == bal.current as real - (row.total + row.fee as real))
            && bal'.outgoing == bal.outgoing + row.total
            && bal'.incoming == bal.incoming
  {
    ReserveConserves(db.utxo, account, inputs, id);
    ChangeConserves(ReserveAll(db.utxo, inputs, id), account, c);
    OutgoingConserves(db.payment, account, id, row);
  }

  // --------------------------------------------- a payment as moves of the whole service

  function ReserveRun(inputs: seq<Utxo>, payment: int): seq<Wallet.Move> {
    if inputs == [] then [] else [Wallet.ReserveUtxo(inputs[0].o, payment)] + ReserveRun(inputs[1..], payment)
  }

  function ChangeRun(c: ChangeOutput): seq<Wallet.Move> {
    if c.value == 0 then [] else [Wallet.InsertChange(c.o, c.value, c.address, c.owner)]
  }

  function SendRun(id: int, row: PaymentRow, inputs: seq<Utxo>, c: ChangeOutput): seq<Wallet.Move> {
    [Wallet.InsertPayment(id, row)] + (ReserveRun(inputs, id) + ChangeRun(c))
  }

  lemma {:induction false} ReserveRunIs(w: World, dflt: int, s: Wallet.State, inputs: seq<Utxo>, payment: int, rest: seq<Wallet.Move>)
    requires ValidTree(w) && s.db.chain.bestHash in w.blocks && s.base in w.blocks
    requires Service.AllowedRun(w, dflt, s.(db := s.db.(utxo := ReserveAll(s.db.utxo, inputs, payment))), rest)
    ensures Service.AllowedRun(w, dflt, s, ReserveRun(inputs, payment) + rest)
    ensures Service.RunFrom(w, dflt, s, ReserveRun(inputs, payment) + rest)
         == Service.RunFrom(w, dflt, s.(db := s.db.(utxo := ReserveAll(s.db.utxo, inputs, payment))), rest)
    decreases |inputs|
  {
    hide ValidTree, Service.AllowedRun, Service.RunFrom;
    if inputs == [] {
      assert ReserveRun(inputs, payment) + rest == rest;
    } else {
      var mv := Wallet.ReserveUtxo(inputs[0].o, payment);
      var others := ReserveRun(inputs[1..], payment);
      ReserveRunIs(w, dflt, Wallet.Next(w, dflt, s, mv), inputs[1..], payment, rest);
      Service.RunCons(w, dflt, s, mv, others + rest);
      assert ReserveRun(inputs, payment) + rest == [mv] + (others + rest);
    }
  }

  // The change is a row the chain will agree with, once it has the transaction.
  ghost predicate ChangeOk(w: World, dflt: int, db: Db, c: ChangeOutput)
    requires ValidTree(w)
  {
    c.value != 0 ==>
      && c.o !in db.utxo
      && ApiRow(w, EnvOf(db, dflt), UtxoRow(c.value, c.address, c.owner.account, c.owner.keyIndex, c.owner.internal, NO_HEIGHTS, None, None), c.o)
  }

  lemma {:induction false} ReserveKeys(u: UtxoTable, inputs: seq<Utxo>, payment: int)
    ensures ReserveAll(u, inputs, payment).Keys == u.Keys
    decreases |inputs|
  {
    if inputs != [] {
      ReserveKeys(Reserved(u, inputs[0].o, payment), inputs[1..], payment);
    }
  }

  lemma {:induction false} PaymentRunClean(w: World, dflt: int, s: Wallet.State, run: seq<Wallet.Move>)
    requires ValidTree(w) && Service.AllowedRun(w, dflt, s, run) && forall mv | mv in run :: Wallet.IsPayment(mv)
    ensures Service.CleanRun(w, dflt, s, run) && Service.TimelyRun(w, dflt, s, run) && Service.UndamagedRun(w, dflt, s, run)
    ensures Service.NeededStayRun(w, dflt, s, run)
    decreases |run|
  {
    hide Wallet.Allowed, Wallet.Next;
    if run != [] {
      assert run[0] in run && forall mv | mv in run[1..] :: mv in run;
      assert Backing.NeededStay(w, dflt, s, run[0]) && Wallet.Clean(w, dflt, s, run[0]) && Wallet.Timely(s, run[0]) && Chainstate.Undamaged(w, s, run[0]);
      PaymentRunClean(w, dflt, Wallet.Next(w, dflt, s, run[0]), run[1..]);
    }
  }

  lemma {:induction false} ReservesOnly(inputs: seq<Utxo>, payment: int)
    ensures forall mv | mv in ReserveRun(inputs, payment) :: mv.ReserveUtxo?
    decreases |inputs|
  {
    if inputs != [] {
      ReservesOnly(inputs[1..], payment);
    }
  }

  function Paid(s: Wallet.State, id: int, row: PaymentRow, inputs: seq<Utxo>, c: ChangeOutput): Wallet.State {
    s.(db := PaidDb(s.db, id, row, inputs, c), api := if c.value == 0 then s.api else s.api + {c.o})
  }

  lemma SendRunIs(w: World, dflt: int, s: Wallet.State, id: int, row: PaymentRow, inputs: seq<Utxo>, c: ChangeOutput)
    requires ValidTree(w) && Wallet.BestOk(w, s) && ChangeOk(w, dflt, s.db, c)
    requires id !in s.db.payment && row.account in s.db.account && row.paidHeight == None && row.confirmedHeight == None
    ensures var run := SendRun(id, row, inputs, c);
            && Service.AllowedRun(w, dflt, s, run) && Service.RunFrom(w, dflt, s, run) == Paid(s, id, row, inputs, c)
            && forall mv | mv in run :: Wallet.IsPayment(mv)
  {
    hide ValidTree, Service.AllowedRun, Service.RunFrom, ReserveAll, ReserveRun, ChangeOk;
    assert ChangeOk(w, dflt, s.db, c);
    var s1 := Wallet.Next(w, dflt, s, Wallet.InsertPayment(id, row));
    var s2 := s1.(db := s1.db.(utxo := ReserveAll(s1.db.utxo, inputs, id)));
    ReserveKeys(s1.db.utxo, inputs, id);
    ChangeStaysOk(w, dflt, s.db, s2.db, c);
    ChangeRunIs(w, dflt, s2, c);
    ReserveRunIs(w, dflt, s1, inputs, id, ChangeRun(c));
    Service.RunCons(w, dflt, s, Wallet.InsertPayment(id, row), ReserveRun(inputs, id) + ChangeRun(c));
    ReservesOnly(inputs, id);
  }

  lemma ChangeStaysOk(w: World, dflt: int, db: Db, db': Db, c: ChangeOutput)
    requires ValidTree(w) && ChangeOk(w, dflt, db, c)
    requires db'.utxo.Keys == db.utxo.Keys && db'.address == db.address && db'.invoice == db.invoice
    ensures ChangeOk(w, dflt, db', c)
  {
  }

  /** A committed payment keeps every invariant of the service: it is a run of allowed moves. */
  lemma PaymentKeepsGood(w: World, dflt: int, s: Wallet.State, id: int, row: PaymentRow, inputs: seq<Utxo>, c: ChangeOutput)
    requires ValidWorld(w) && Wallet.StateOk(w, dflt, s) && ChangeOk(w, dflt, s.db, c)
    requires id !in s.db.payment && row.account in s.db.account && row.paidHeight == None && row.confirmedHeight == None
    ensures var s' := Paid(s, id, row, inputs, c);
            && Wallet.StateOk(w, dflt, s') && (AmountsTold(s.db) ==> AmountsTold(s'.db))
            && (Wallet.Good(w, dflt, s) ==> Wallet.Good(w, dflt, s')) && (Backing.PaidOk(s) ==> Backing.PaidOk(s'))
            && (Chainstate.Matches(w, dflt, s) ==> Chainstate.Matches(w, dflt, s'))
  {
    assert ValidTree(w) && Wallet.BestOk(w, s);
    hide ValidWorld, ValidTree, Wallet.StateOk, Wallet.Good, Chainstate.Matches, AmountsTold, SendRun, ChangeOk;
    hide Service.AllowedRun, Service.RunFrom, Service.CleanRun, Service.TimelyRun, Service.UndamagedRun, Service.NeededStayRun, Backing.PaidOk;
    var run := SendRun(id, row, inputs, c);
    SendRunIs(w, dflt, s, id, row, inputs, c);
    Service.RunStateOk(w, dflt, s, run);
    PaymentRunClean(w, dflt, s, run);
    if Backing.PaidOk(s) { Service.RunPaid(w, dflt, s, run); }
    if AmountsTold(s.db) { Service.RunAmounts(w, dflt, s, run); }
    if Wallet.Good(w, dflt, s) { Service.RunKeeps(w, dflt, s, run); }
    if Chainstate.Matches(w, dflt, s) { Service.RunMatches(w, dflt, s, run); }
  }

  lemma ChangeRunIs(w: World, dflt: int, s: Wallet.State, c: ChangeOutput)
    requires ValidTree(w) && s.db.chain.bestHash in w.blocks && s.base in w.blocks && ChangeOk(w, dflt, s.db, c)
    ensures Service.AllowedRun(w, dflt, s, ChangeRun(c))
    ensures Service.RunFrom(w, dflt, s, ChangeRun(c)) ==
            s.(db := s.db.(utxo := WithChange(s.db.utxo, c)), api := if c.value == 0 then s.api else s.api + {c.o})
  {
    if c.value != 0 {
      var mv := Wallet.InsertChange(c.o, c.value, c.address, c.owner);
      Service.RunCons(w, dflt, s, mv, []);
      assert ChangeRun(c) == [mv] + [];
    }
  }

  // ----------------------------------------------------------------- the call

  // What the library and the account's keys make of a transaction; changeValue counts when an output has a fraction of a koinu.
  datatype Made = Made(txid: TxId, changeVout: nat, changeAddress: Address, changeOwner: AddressRow, changeValue: int)

  datatype SendError = NoAccount | Rejected(reason: TxError) | NotReserved | NotSent | TxidNotSaved

  datatype SendResult = Sent(txid: TxId, total: real, paid: real, fee: int) | Failed(error: SendError)

  // The first transaction of a payment, as it was committed.
  datatype Committed = Committed(id: int, row: PaymentRow, tx: NewTxn, change: ChangeOutput)

  function RuleFor(explicitFee: real, maxFee: real, perKB: Option<real>, payTo: seq<PayTo>): FeeRule {
    FeeRule(perKB, explicitFee, if maxFee > 0.0 then maxFee else RECOMMENDED_MAX_FEE as real, |payTo|)
  }

  /** What the caller's settings mean for the fee of a transaction: a fee that is given is taken; otherwise it is at least 0.01
      coins, unless the maximum is less, and at most the caller's maximum, or one coin without any. All up to rounding, and to
      half a koinu more for every payee when the payees pay. */
  ghost predicate FeeRespects(explicitFee: real, maxFee: real, payTo: seq<PayTo>, fee: int) {
    var slack := 0.5 + if Deducts(payTo) then |payTo| as real / 2.0 else 0.0;
    var limit := if maxFee > 0.0 then maxFee else 100_000_000.0;
    if explicitFee > 0.0 then -slack <= fee as real - explicitFee <= slack
    else fee as real <= limit + slack && (limit >= 1_000_000.0 ==> fee as real >= 1_000_000.0 - slack)
  }

  lemma FeeOfSent(explicitFee: real, maxFee: real, perKB: Option<real>, payTo: seq<PayTo>, list: seq<Utxo>, tx: NewTxn)
    requires TxnOk(payTo, RuleFor(explicitFee, maxFee, perKB, payTo), list, tx)
    ensures FeeRespects(explicitFee, maxFee, payTo, tx.fee)
  {
    var rule := RuleFor(explicitFee, maxFee, perKB, payTo);
    if explicitFee <= 0.0 { FeeBounds(rule, |tx.inputs|); }
  }

  lemma FeeIsRule(explicitFee: real, maxFee: real, perKB: Option<real>, payTo: seq<PayTo>, list: seq<Utxo>, tx: NewTxn)
    requires TxnOk(payTo, RuleFor(explicitFee, maxFee, perKB, payTo), list, tx) && !Deducts(payTo)
    ensures var rule := RuleFor(explicitFee, maxFee, perKB, payTo);
            && rule.fixedFee == explicitFee && rule.perKB == perKB && rule.nOut == |tx.outputs| && tx.fee == rule.Fee(|tx.inputs|)
            && rule.maxFee == if maxFee > 0.0 then maxFee else 100_000_000.0
  {
    hide FeeRule.Fee, Total, RealSum, Selected;
  }

  /** Within the limits, what is paid for a transaction that the payees do not pay for is Core's estimate for its own size, the
      change output included, to half a koinu. */
  lemma FeeOfSize(explicitFee: real, maxFee: real, k: real, payTo: seq<PayTo>, list: seq<Utxo>, tx: NewTxn)
    requires TxnOk(payTo, RuleFor(explicitFee, maxFee, Some(k), payTo), list, tx) && !Deducts(payTo)
    requires explicitFee <= 0.0 && k >= 1_000_000.0 && 1_000_000 < tx.fee
    requires tx.fee as real < (if maxFee > 0.0 then maxFee else 100_000_000.0) - 0.5
    ensures var size := 10 + 148 * |tx.inputs| + 34 * (|tx.outputs| + 1);
            -500.0 <= 1000.0 * tx.fee as real - k * size as real <= 500.0
  {
    hide *;
    FeeIsRule(explicitFee, maxFee, Some(k), payTo, list, tx);
    FeeIs(RuleFor(explicitFee, maxFee, Some(k), payTo), |tx.inputs|);
  }

  predicate WholeOutputs(tx: NewTxn) {
    forall i | 0 <= i < |tx.outputs| :: Whole(tx.outputs[i].amount)
  }

  /** What the change output of the transaction holds: the change, when everything is in whole koinu. */
  function ChangeValue(tx: NewTxn, made: Made): int {
    if WholeOutputs(tx) then tx.change.Floor else made.changeValue
  }

  // With whole amounts requested, what is paid out, the fee and the change add up to the inputs.
  lemma WholeTxn(payTo: seq<PayTo>, rule: FeeRule, list: seq<Utxo>, tx: NewTxn, made: Made)
    requires TxnOk(payTo, rule, list, tx)
    ensures tx.inputs <= list
    ensures (forall i | 0 <= i < |payTo| :: Whole(payTo[i].amount)) ==> WholeOutputs(tx)
    ensures WholeOutputs(tx) ==> Total(tx.inputs) as real == RealSum(Values(tx.outputs)) + tx.fee as real + ChangeValue(tx, made) as real
  {
    FloorsAgreeIff(Values(tx.outputs));
    if WholeOutputs(tx) {
      assert tx.change == (Total(tx.inputs) - Floors(Values(tx.outputs)) - tx.fee) as real;
    }
    if forall i | 0 <= i < |payTo| :: Whole(payTo[i].amount) {
      WholeShares(payTo, rule.Fee(|tx.inputs|));
    }
  }

  lemma InputsAreFirst(payTo: seq<PayTo>, rule: FeeRule, list: seq<Utxo>, tx: NewTxn)
    requires TxnOk(payTo, rule, list, tx)
    ensures tx.inputs <= list
  {
  }

  lemma WholeShares(payTo: seq<PayTo>, fee: int)
    requires forall i | 0 <= i < |payTo| :: Whole(payTo[i].amount)
    ensures forall i | 0 <= i < |payTo| :: Whole(Reduced(payTo, fee)[i].amount) && Whole(Requested(payTo)[i].amount)
  {
    forall i | 0 <= i < |payTo| ensures Whole(Reduced(payTo, fee)[i].amount) {
      var share := Share(fee, payTo[i].deductFeePercent);
      assert payTo[i].amount - share as real == (payTo[i].amount.Floor - share) as real;
    }
  }

  lemma ChosenSpendable(u: UtxoTable, account: AccountId, unspent: seq<Utxo>, noMore: bool, inputs: seq<Utxo>)
    requires inputs <= Usable(unspent)
    requires if noMore then Listing(u, account, unspent) else unspent == []
    ensures InputsOk(u, account, inputs)
  {
    if noMore { AllUsable(unspent); }
  }

  // The list the inputs come from is the account's spendable rows, as the store held them.
  lemma ListIsListing(u: UtxoTable, account: AccountId, unspent: seq<Utxo>, noMore: bool)
    requires if noMore then Listing(u, account, unspent) else unspent == []
    ensures Usable(unspent) == [] || Listing(u, account, Usable(unspent))
  {
    if noMore { AllUsable(unspent); }
  }

  /** When the payees pay the fee, the current balance of the account does not reach the amounts. */
  ghost predicate BalanceFallsShort(db: Db, account: AccountId, payTo: seq<PayTo>) {
    Deducts(payTo) && NoLowHeights(db.utxo) && (forall o | o in db.utxo :: db.utxo[o].value >= 0) ==>
      CalcBalance(db, account).current < Floors(Amounts(payTo))
  }

  // When the payees pay the fee, funds are lacking only if the current balance is below the amounts.
  lemma LacksFunds(db: Db, account: AccountId, payTo: seq<PayTo>, rule: FeeRule, unspent: seq<Utxo>)
    requires Listing(db.utxo, account, unspent) && Justified(InsufficientFunds, payTo, rule, Usable(unspent))
    ensures BalanceFallsShort(db, account, payTo)
  {
    AllUsable(unspent);
    if Deducts(payTo) && NoLowHeights(db.utxo) && forall o | o in db.utxo :: db.utxo[o].value >= 0 {
      FundsIff(payTo, rule, db.utxo, db.payment, account, unspent);
    }
  }

  class API {
    const store: SQLiteStore

    constructor (store: SQLiteStore)
      ensures this.store == store
    {
      this.store := store;
    }

    method NextPaymentId() returns (id: int)
      ensures id !in store.db.payment
    {
      id := 1;
      var todo := store.db.payment.Keys;
      while todo != {}
        invariant todo <= store.db.payment.Keys && forall p | p in store.db.payment && p !in todo :: p < id
        decreases todo
      {
        var p := Any(todo);
        if p >= id { id := p + 1; }
        todo := todo - {p};
      }
    }

    method ReserveInputs(inputs: seq<Utxo>, payment: int)
      modifies store`db
      ensures store.db == old(store.db).(utxo := ReserveAll(old(store.db).utxo, inputs, payment))
    {
      for i := 0 to |inputs|
        invariant ReserveAll(store.db.utxo, inputs[i..], payment) == ReserveAll(old(store.db).utxo, inputs, payment)
        invariant store.db == old(store.db).(utxo := store.db.utxo)
      {
        assert inputs[i..][1..] == inputs[i + 1..];
        store.MarkUTXOReserved(inputs[i].o, payment);
      }
    }

    /** Record the payment, reserve its inputs and add its change: all of it, or no trace. */
    method Reserve(id: int, row: PaymentRow, tx: NewTxn, c: ChangeOutput) returns (ok: bool)
      modifies store`db, store`saved, store`attempts
      ensures store.db == if ok then PaidDb(old(store.db), id, row, tx.inputs, c) else old(store.db)
    {
      var snapshot := store.Begin();
      store.db := store.db.(payment := store.db.payment[id := row]);
      ReserveInputs(tx.inputs, id);
      if c.value != 0 { store.CreateUTXO(c.o, c.value, c.address, c.owner, 0); }
      ok := store.Commit(snapshot);
    }

    method UpdatePaymentWithTxID(id: int, txid: TxId) returns (ok: bool)
      requires id in store.db.payment
      modifies store`db, store`saved, store`attempts
      ensures store.db == if ok then old(store.db).(payment := old(store.db).payment[id := old(store.db).payment[id].(paidTxid := Some(txid))])
                          else old(store.db)
    {
      var snapshot := store.Begin();
      store.db := store.db.(payment := store.db.payment[id := store.db.payment[id].(paidTxid := Some(txid))]);
      ok := store.Commit(snapshot);
    }

    // The transaction for a request, from what the account can spend.
    method Build(account: AccountId, payTo: seq<PayTo>, explicitFee: real, maxFee: real, perKB: Option<real>)
      returns (built: Spend.Result<NewTxn>, ghost list: seq<Utxo>)
      ensures list == [] || Listing(store.db.utxo, account, list)
      ensures built.Err? ==> Justified(built.error, payTo, RuleFor(explicitFee, maxFee, perKB, payTo), list)
      ensures built == Err(InsufficientFunds) ==> BalanceFallsShort(store.db, account, payTo)
      ensures built.Ok? ==> TxnOk(payTo, RuleFor(explicitFee, maxFee, perKB, payTo), list, built.value)
      ensures built.Ok? ==> InputsOk(store.db.utxo, account, built.value.inputs) && FeeRespects(explicitFee, maxFee, payTo, built.value.fee)
    {
      hide TxnOk, Justified, Listing, Usable, InputsOk, FeeRespects, Deducts, NoLowHeights, BalanceFallsShort;
      var rule := RuleFor(explicitFee, maxFee, perKB, payTo);
      var source := new StoreUTXOSource.FromStore(store, account);
      built := CreateTxn(payTo, explicitFee, rule.maxFee, perKB, source);
      list := Usable(source.unspent);
      ListIsListing(store.db.utxo, account, source.unspent, source.noMore);
      if built.Ok? {
        InputsAreFirst(payTo, rule, list, built.value);
        FeeOfSent(explicitFee, maxFee, perKB, payTo, list, built.value);
        ChosenSpendable(store.db.utxo, account, source.unspent, source.noMore, built.value.inputs);
      } else if built.error == InsufficientFunds {
        LacksFunds(store.db, account, payTo, rule, source.unspent);
      }
    }

    /** Select, reserve, send, and note the transaction id. Once the reservation is committed it stays, whatever follows. */
    method SendFundsToAddress(account: AccountId, payTo: seq<PayTo>, explicitFee: real, maxFee: real, perKB: Option<real>,
                              sendTx: bool, coreAccepts: bool, made: Made)
      returns (r: SendResult, ghost done: Option<Committed>, ghost list: seq<Utxo>)
      requires forall n: nat :: Outpoint(made.txid, n) !in store.db.utxo
      requires made.changeOwner.internal && made.changeOwner.account == account
      modifies store`db, store`saved, store`attempts
      ensures list == [] || Listing(old(store.db).utxo, account, list)
      ensures done.None? ==> store.db == old(store.db) && r.Failed? && r.error !in {NotSent, TxidNotSaved}
      ensures r == Failed(NoAccount) <==> account !in old(store.db).account
      ensures r.Failed? && r.error.Rejected? ==> Justified(r.error.reason, payTo, RuleFor(explicitFee, maxFee, perKB, payTo), list)
      ensures r == Failed(Rejected(InsufficientFunds)) ==> BalanceFallsShort(old(store.db), account, payTo)
      ensures done.Some? ==> var d := done.value; var db := old(store.db);
                && d.id !in db.payment && InputsOk(db.utxo, account, d.tx.inputs)
                && d.row.account == account && d.row.paidHeight == None && d.row.confirmedHeight == None
                && store.db == PaidDb(db, d.id, d.row, d.tx.inputs, d.change)
                && d.row.total == RealSum(Values(d.tx.outputs)) && d.row.fee == d.tx.fee && d.change.value == ChangeValue(d.tx, made)
                && d.change == ChangeOutput(Outpoint(made.txid, made.changeVout), d.change.value, made.changeAddress, made.changeOwner)
                && TxnOk(payTo, RuleFor(explicitFee, maxFee, perKB, payTo), list, d.tx)
                && FeeRespects(explicitFee, maxFee, payTo, d.tx.fee)
      ensures r.Sent? ==> done.Some? && done.value.row.paidTxid == Some(made.txid) && r.txid == made.txid
      ensures r.Sent? ==> r.paid == done.value.row.total && r.fee == done.value.row.fee && r.total == r.paid + r.fee as real
      ensures done.Some? ==> var bal, bal' := CalcBalance(old(store.db), account), CalcBalance(store.db, account);
                && bal'.current == bal.current - Total(done.value.tx.inputs) + done.value.change.value
                && ((forall i | 0 <= i < |payTo| :: Whole(payTo[i].amount)) ==>
                      bal'.current as real == bal.current as real - (done.value.row.total + done.value.row.fee as real))
                && bal'.outgoing == bal.outgoing + done.value.row.total && bal'.incoming == bal.incoming
    {
      hide TxnOk, Justified, Listing, CalcBalance, PaidDb, InputsOk, Total, FeeRespects, Deducts, NoLowHeights, BalanceFallsShort;
      done, list := None, [];
      ghost var db0 := store.db;
      if account !in store.db.account { return Failed(NoAccount), None, []; }
      var built;
      built, list := Build(account, payTo, explicitFee, maxFee, perKB);
      if built.Err? { return Failed(Rejected(built.error)), None, list; }
      var tx := built.value;
      WholeTxn(payTo, RuleFor(explicitFee, maxFee, perKB, payTo), list, tx, made);
      var total := TotalOut(tx.outputs);
      var change := ChangeOutput(Outpoint(made.txid, made.changeVout), ChangeValue(tx, made), made.changeAddress, made.changeOwner);
      var id := NextPaymentId();
      var row := PaymentRow(account, total, tx.fee, None, None, None);
      PaymentConserves(store.db, account, id, row, tx.inputs, change);
      PaymentConserves(store.db, account, id, row.(paidTxid := Some(made.txid)), tx.inputs, change);
      var ok := Reserve(id, row, tx, change);
      if !ok { return Failed(NotReserved), None, list; }
      done := Some(Committed(id, row, tx, change));
      if sendTx && !coreAccepts { return Failed(NotSent), done, list; }
      PaidPayment(db0, id, row, tx.inputs, change, made.txid);
      ok := UpdatePaymentWithTxID(id, made.txid);
      if !ok { return Failed(TxidNotSaved), done, list; }
      done := Some(Committed(id, row.(paidTxid := Some(made.txid)), tx, change));
      return Sent(made.txid, total + tx.fee as real, total, tx.fee), done, list;
    }
  }

  lemma PaidPayment(db: Db, id: int, row: PaymentRow, inputs: seq<Utxo>, c: ChangeOutput, txid: TxId)
    ensures var db' := PaidDb(db, id, row, inputs, c);
            && id in db'.payment && db'.payment[id] == row
            && db'.(payment := db'.payment[id := row.(paidTxid := Some(txid))]) == PaidDb(db, id, row.(paidTxid := Some(txid)), inputs, c)
  {
    assert db.payment[id := row][id := row.(paidTxid := Some(txid))] == db.payment[id := row.(paidTxid := Some(txid))];
  }
}
