/** Building a transaction: where inputs come from, how many are used, who pays the fee. */
module Spend {
  import opened Options
  import opened BlockTree
  import opened Ledger
  import opened Tables
  import opened Feed
  import opened Store
  import opened Fees
  import opened FeeRounds

  datatype PayTo = PayTo(address: Address, amount: real, deductFeePercent: real)

  datatype TxError =
    | AmountBelowDust | NegativePercent | PercentsNot100 | InsufficientFunds | MissingAddress | AmountNotPositive
    | TooManyAttempts | OutputBelowDust | NothingToSpend | InputsDoNotCover | ChangeBelowDust

  datatype NewTxOut = NewTxOut(address: Address, amount: real)

  datatype NewTxn = NewTxn(inputs: seq<Utxo>, outputs: seq<NewTxOut>, fee: int, change: real)

  datatype Result<+T> = Ok(value: T) | Err(error: TxError)

  // ---------------------------------------------------------- the UTXO source

  /** The outputs of a list that a P2PKH key can spend, in the order of the list. */
  function Usable(us: seq<Utxo>): seq<Utxo> {
    if us == [] then []
    else Usable(us[..|us| - 1]) + if us[|us| - 1].p2pkh then [us[|us| - 1]] else []
  }

  predicate DistinctOutpoints(us: seq<Utxo>) {
    forall i, j | 0 <= i < j < |us| :: us[i].o != us[j].o
  }

  function Outpoints(us: seq<Utxo>): set<Outpoint> {
    set i | 0 <= i < |us| :: us[i].o
  }

  lemma {:induction false} UsablePrefix(us: seq<Utxo>, i: nat)
    requires i <= |us|
    ensures Usable(us[..i]) <= Usable(us)
    decreases |us| - i
  {
    if i == |us| {
      assert us[..i] == us;
    } else {
      assert us[..i + 1][..i] == us[..i];
      UsablePrefix(us, i + 1);
    }
  }

  lemma UsableStep(us: seq<Utxo>, i: nat)
    requires i < |us|
    ensures Usable(us[..i + 1]) == Usable(us[..i]) + if us[i].p2pkh then [us[i]] else []
  {
    assert us[..i + 1][..i] == us[..i];
  }

  method FirstUntaken(us: seq<Utxo>, taken: set<Outpoint>, ghost inputs: seq<Utxo>) returns (r: Option<Utxo>)
    requires DistinctOutpoints(Usable(us)) && inputs <= Usable(us) && taken == Outpoints(inputs)
    ensures r.Some? ==> |inputs| < |Usable(us)| && r.value == Usable(us)[|inputs|]
    ensures r.None? ==> inputs == Usable(us)
  {
    for i := 0 to |us|
      invariant Usable(us[..i]) <= inputs
    {
      UsableStep(us, i);
      UsablePrefix(us, i + 1);
      if us[i].p2pkh {
        ghost var c := |Usable(us[..i])|;
        assert us[i] == Usable(us)[c];
        assert forall k | 0 <= k < |inputs| :: inputs[k].o in taken;
        if us[i].o !in taken {
          return Some(us[i]);
        }
        ghost var j :| 0 <= j < |inputs| && inputs[j].o == us[i].o;
        assert inputs[j] == Usable(us)[j];
      }
    }
    assert us[..|us|] == us;
    return None;
  }

  class StoreUTXOSource {
    const store: SQLiteStore
    const account: AccountId
    var unspent: seq<Utxo>
    var noMore: bool

    ghost predicate Valid()
      reads this
    {
      DistinctOutpoints(Usable(unspent)) && (!noMore ==> unspent == [])
    }

    // What was fetched is what the store holds now.
    ghost predicate Current()
      reads this, store
    {
      noMore ==> Listing(store.db.utxo, account, unspent)
    }

    constructor FromStore(store: SQLiteStore, account: AccountId)
      ensures Valid() && Current() && !noMore && this.store == store && this.account == account
    {
      this.store, this.account, unspent, noMore := store, account, [], false;
    }

    method FetchMoreUTXOs()
      requires Valid() && !noMore
      modifies this
      ensures Valid() && noMore && Current()
    {
      var utxos := GetAllUnreservedUTXOs(store.db.utxo, account);
      noMore := true;
      unspent := unspent + utxos;
      hide Listing, NoLowHeights, CalcFrom, Total, Usable;
      ListedUsable(store.db.utxo, account, utxos);
      assert unspent == utxos;
    }

    /** The first usable output that is not taken yet. */
    method NextUnspentUTXO(taken: set<Outpoint>, ghost inputs: seq<Utxo>) returns (r: Option<Utxo>)
      requires Valid() && inputs <= Usable(unspent) && taken == Outpoints(inputs)
      modifies this
      ensures Valid() && noMore && inputs <= Usable(unspent) && (old(Current()) ==> Current())
      ensures old(noMore) ==> unspent == old(unspent)
      ensures r.Some? ==> |inputs| < |Usable(unspent)| && r.value == Usable(unspent)[|inputs|]
      ensures r.None? ==> inputs == Usable(unspent)
    {
      if !noMore { FetchMoreUTXOs(); }
      r := FirstUntaken(unspent, taken, inputs);
    }
  }

  // The rows an account can spend: confirmed or change, not spent and not reserved.
  function Eligible(u: UtxoTable, account: AccountId): set<Outpoint> {
    set o | o in u && u[o].account == account
            && ((u[o].heights.spendable.Some? && u[o].heights.spendable.value > 0) || u[o].internal)
            && u[o].heights.spending == None && u[o].payment == None
  }

  // External rows before change, oldest first, unconfirmed last.
  predicate Before(r: UtxoRow, r': UtxoRow) {
    if r.internal != r'.internal then r'.internal
    else r'.heights.spendable == None
         || (r.heights.spendable.Some? && r.heights.spendable.value <= r'.heights.spendable.value)
  }

  /** The rows an account can spend, each once, in that order. */
  ghost predicate Listing(u: UtxoTable, account: AccountId, us: seq<Utxo>) {
    && DistinctOutpoints(us)
    && (forall i | 0 <= i < |us| :: us[i].o in Eligible(u, account) && us[i] == Utxo(us[i].o, u[us[i].o].value, true))
    && (forall o | o in Eligible(u, account) :: o in Outpoints(us))
    && (forall i, j | 0 <= i < j < |us| :: Before(u[us[i].o], u[us[j].o]))
  }

  method EarliestRow(u: UtxoTable, s: set<Outpoint>) returns (o: Outpoint)
    requires s != {} && s <= u.Keys
    ensures o in s && forall p | p in s :: Before(u[o], u[p])
  {
    o :| o in s;
    var todo := s - {o};
    while todo != {}
      invariant o in s && todo <= s && forall p | p in s - todo :: Before(u[o], u[p])
      decreases todo
    {
      var p :| p in todo;
      if !Before(u[o], u[p]) { o := p; }
      todo := todo - {p};
    }
  }

  /** Every receipt that is spendable became so above the genesis block. */
  ghost predicate NoLowHeights(u: UtxoTable) {
    forall o | o in u && !u[o].internal && u[o].heights.spendable.Some? :: u[o].heights.spendable.value > 0
  }

  method GetAllUnreservedUTXOs(u: UtxoTable, account: AccountId) returns (us: seq<Utxo>)
    ensures Listing(u, account, us)
    ensures forall i, j | 0 <= i < j < |us| :: var r, r' := u[us[i].o], u[us[j].o];
              && (r.internal ==> r'.internal)
              && (r.internal == r'.internal && r'.heights.spendable.Some? ==>
                    r.heights.spendable.Some? && r.heights.spendable.value <= r'.heights.spendable.value)
    ensures NoLowHeights(u) ==> forall pay :: Total(us) == CalcFrom(u, pay, account).current
  {
    us := [];
    var rest := Eligible(u, account);
    while rest != {}
      invariant rest <= Eligible(u, account) && DistinctOutpoints(us)
      invariant forall i | 0 <= i < |us| :: us[i].o in Eligible(u, account) && us[i].o !in rest
      invariant forall i | 0 <= i < |us| :: us[i] == Utxo(us[i].o, u[us[i].o].value, true)
      invariant forall o | o in Eligible(u, account) :: o in rest || o in Outpoints(us)
      invariant forall i, j | 0 <= i < j < |us| :: Before(u[us[i].o], u[us[j].o])
      invariant forall i, o | 0 <= i < |us| && o in rest :: Before(u[us[i].o], u[o])
      decreases rest
    {
      var o := EarliestRow(u, rest);
      ghost var us0 := us;
      us := us + [Utxo(o, u[o].value, true)];
      OutpointsAdd(us0, us[|us0|]);
      rest := rest - {o};
    }
    assert Listing(u, account, us);
    forall pay | NoLowHeights(u) ensures Total(us) == CalcFrom(u, pay, account).current {
      ListedIsCurrent(u, pay, account, us);
    }
  }

  lemma ListedUsable(u: UtxoTable, account: AccountId, us: seq<Utxo>)
    requires Listing(u, account, us)
    ensures Usable(us) == us && DistinctOutpoints(us)
  {
    AllUsable(us);
  }

  lemma {:induction false} TotalIsSum(u: UtxoTable, us: seq<Utxo>)
    requires DistinctOutpoints(us) && forall i | 0 <= i < |us| :: us[i].o in u && us[i].value == u[us[i].o].value
    ensures Outpoints(us) <= u.Keys && Total(us) == Sum(u, Outpoints(us))
  {
    if us == [] {
      assert Outpoints(us) == {};
    } else {
      var n := |us| - 1;
      TotalIsSum(u, us[..n]);
      assert us == us[..n] + [us[n]];
      OutpointsAdd(us[..n], us[n]);
      assert us[n].o !in Outpoints(us[..n]);
      SumInsert(u, Outpoints(us[..n]), us[n].o);
    }
  }

  /** What an account can spend is worth its current balance: nothing that counts is left out. */
  lemma ListedIsCurrent(u: UtxoTable, pay: PaymentTable, account: AccountId, us: seq<Utxo>)
    requires Listing(u, account, us) && NoLowHeights(u)
    ensures Total(us) == CalcFrom(u, pay, account).current
  {
    TotalIsSum(u, us);
    forall o ensures o in Outpoints(us) <==> o in AccountCurrentRows(u, account) {
      if o in Outpoints(us) { var i :| 0 <= i < |us| && us[i].o == o; }
    }
    assert Outpoints(us) == AccountCurrentRows(u, account);
  }

  lemma OutpointsAdd(us: seq<Utxo>, x: Utxo)
    ensures Outpoints(us + [x]) == Outpoints(us) + {x.o}
  {
    forall o | o in Outpoints(us) ensures o in Outpoints(us + [x]) {
      var i :| 0 <= i < |us| && us[i].o == o;
      assert (us + [x])[i].o == o;
    }
    assert (us + [x])[|us|] == x;
  }

  lemma {:induction false} AllUsable(us: seq<Utxo>)
    requires forall i | 0 <= i < |us| :: us[i].p2pkh
    ensures Usable(us) == us
  {
    if us != [] {
      AllUsable(us[..|us| - 1]);
    }
  }

  // ------------------------------------------------------- checking the request

  function Amounts(payTo: seq<PayTo>): seq<real> {
    seq(|payTo|, i requires 0 <= i < |payTo| => payTo[i].amount)
  }

  function Percents(payTo: seq<PayTo>): seq<real> {
    seq(|payTo|, i requires 0 <= i < |payTo| => payTo[i].deductFeePercent)
  }

  predicate AmountsOk(payTo: seq<PayTo>) {
    forall i | 0 <= i < |payTo| :: payTo[i].amount.Floor >= DUST_LIMIT && payTo[i].deductFeePercent >= 0.0
  }

  predicate PercentsOk(payTo: seq<PayTo>) {
    RealSum(Percents(payTo)) == 0.0 || RealSum(Percents(payTo)) == 100.0
  }

  // The first payee that is refused.
  predicate FirstBad(error: TxError, payTo: seq<PayTo>, i: nat) {
    && i < |payTo| && AmountsOk(payTo[..i])
    && if error == AmountBelowDust then payTo[i].amount.Floor < DUST_LIMIT
       else payTo[i].amount.Floor >= DUST_LIMIT && payTo[i].deductFeePercent < 0.0
  }

  /** Why a request is refused before any input is looked for. */
  ghost predicate BadRequest(error: TxError, payTo: seq<PayTo>) {
    match error
    case AmountBelowDust => exists i: nat :: FirstBad(error, payTo, i)
    case NegativePercent => exists i: nat :: FirstBad(error, payTo, i)
    case PercentsNot100 => AmountsOk(payTo) && !PercentsOk(payTo)
    case _ => false
  }

  lemma PayToStep(payTo: seq<PayTo>, i: nat)
    requires i < |payTo|
    ensures Floors(Amounts(payTo[..i + 1])) == Floors(Amounts(payTo[..i])) + payTo[i].amount.Floor
    ensures RealSum(Amounts(payTo[..i + 1])) == RealSum(Amounts(payTo[..i])) + payTo[i].amount
    ensures RealSum(Percents(payTo[..i + 1])) == RealSum(Percents(payTo[..i])) + payTo[i].deductFeePercent
    ensures AmountsOk(payTo[..i + 1]) <==>
              AmountsOk(payTo[..i]) && payTo[i].amount.Floor >= DUST_LIMIT && payTo[i].deductFeePercent >= 0.0
    ensures AmountsOk(payTo) ==> AmountsOk(payTo[..i + 1])
  {
    assert payTo[..i + 1] == payTo[..i] + [payTo[i]];
    assert Amounts(payTo[..i + 1])[..i] == Amounts(payTo[..i]);
    assert Percents(payTo[..i + 1])[..i] == Percents(payTo[..i]);
  }

  /** The whole-koinu sum to select inputs for, and whether payees pay the fee. */
  method SumPayTo(payTo: seq<PayTo>) returns (r: Result<(int, bool)>)
    ensures r.Err? ==> BadRequest(r.error, payTo)
    ensures r.Ok? <==> AmountsOk(payTo) && PercentsOk(payTo)
    ensures r.Ok? <==> (forall i | 0 <= i < |payTo| :: payTo[i].amount >= 1_000_000.0 && payTo[i].deductFeePercent >= 0.0)
                       && (RealSum(Percents(payTo)) == 0.0 || RealSum(Percents(payTo)) == 100.0)
    ensures r.Ok? ==> r.value.0 == Floors(Amounts(payTo)) && (r.value.1 <==> RealSum(Percents(payTo)) == 100.0)
  {
    RequestIs(payTo);
    var total, deduct := 0, 0.0;
    assert payTo[..0] == [] && AmountsOk([]) && Floors(Amounts([])) == 0 && RealSum(Percents([])) == 0.0;
    hide AmountsOk, Floors, RealSum, Amounts, Percents;
    for i := 0 to |payTo|
      invariant total == Floors(Amounts(payTo[..i])) && deduct == RealSum(Percents(payTo[..i]))
      invariant AmountsOk(payTo[..i])
    {
      PayToStep(payTo, i);
      var amount := payTo[i].amount.Floor;
      total := total + amount;
      if amount < DUST_LIMIT {
        assert FirstBad(AmountBelowDust, payTo, i);
        return Err(AmountBelowDust);
      }
      if payTo[i].deductFeePercent < 0.0 {
        assert FirstBad(NegativePercent, payTo, i);
        return Err(NegativePercent);
      }
      deduct := deduct + payTo[i].deductFeePercent;
    }
    assert payTo[..|payTo|] == payTo;
    if deduct != 0.0 && deduct != 100.0 { return Err(PercentsNot100); }
    return Ok((total, deduct != 0.0));
  }

  lemma RequestIs(payTo: seq<PayTo>)
    ensures AmountsOk(payTo) <==> forall i | 0 <= i < |payTo| :: payTo[i].amount >= 1_000_000.0 && payTo[i].deductFeePercent >= 0.0
  {
    forall i | 0 <= i < |payTo| ensures payTo[i].amount.Floor >= 1_000_000 <==> payTo[i].amount >= 1_000_000.0 {
      assert payTo[i].amount.Floor as real <= payTo[i].amount < (payTo[i].amount.Floor + 1) as real;
    }
  }

  // ----------------------------------------------------- who pays the fee

  /** One payee's share of the fee, rounded to a whole koinu. */
  function Share(fee: int, percent: real): int {
    RoundedPart(fee as real, percent / 100.0)
  }

  function RoundedPart(x: real, factor: real): int {
    Round(x * factor)
  }

  function Shares(fee: int, percents: seq<real>): int {
    if percents == [] then 0 else Shares(fee, percents[..|percents| - 1]) + Share(fee, percents[|percents| - 1])
  }

  function AfterShare(amount: real, fee: int, percent: real): real {
    if Share(fee, percent) > 0 then amount - Share(fee, percent) as real else amount
  }

  lemma ShareNonNegative(fee: int, percent: real)
    requires fee >= 0 && percent >= 0.0
    ensures Share(fee, percent) >= 0
  {
    assert fee as real * (percent / 100.0) >= 0.0;
  }

  function PercentOf(fee: int, percent: real): real {
    fee as real * (percent / 100.0)
  }

  lemma ShareNear(fee: int, percent: real)
    ensures -0.5 <= Share(fee, percent) as real - PercentOf(fee, percent) <= 0.5
  {
  }

  /** The shares miss the fee they split by at most half a koinu each. */
  lemma {:induction false} SharesNear(fee: int, percents: seq<real>)
    ensures -(|percents| as real) / 2.0 <= Shares(fee, percents) as real - PercentOf(fee, RealSum(percents)) <= |percents| as real / 2.0
  {
    if percents != [] {
      var n := |percents| - 1;
      SharesNear(fee, percents[..n]);
      ShareNear(fee, percents[n]);
      SplitPercent(fee, RealSum(percents[..n]), percents[n]);
      hide PercentOf, Share;
    } else {
      assert PercentOf(fee, 0.0) == 0.0;
    }
  }

  lemma SplitPercent(fee: int, p: real, q: real)
    ensures PercentOf(fee, p + q) == PercentOf(fee, p) + PercentOf(fee, q)
  {
    assert (p + q) / 100.0 == p / 100.0 + q / 100.0;
  }

  // ------------------------------------------------------------- building it

  function Values(outputs: seq<NewTxOut>): seq<real> {
    seq(|outputs|, i requires 0 <= i < |outputs| => outputs[i].amount)
  }

  function Requested(payTo: seq<PayTo>): seq<NewTxOut> {
    seq(|payTo|, i requires 0 <= i < |payTo| => NewTxOut(payTo[i].address, payTo[i].amount))
  }

  // The outputs once every payee has paid a share of the fee.
  function Reduced(payTo: seq<PayTo>, fee: int): seq<NewTxOut> {
    seq(|payTo|, i requires 0 <= i < |payTo| =>
      NewTxOut(payTo[i].address, AfterShare(payTo[i].amount, fee, payTo[i].deductFeePercent)))
  }

  predicate StaysAboveDust(pay: PayTo, fee: int) {
    AfterShare(pay.amount, fee, pay.deductFeePercent) >= DUST_LIMIT as real
  }

  /** What the payees are left with and what was taken from them add up to what was requested. */
  lemma {:induction false} ReducedConserves(payTo: seq<PayTo>, fee: int)
    requires fee >= 0 && forall i | 0 <= i < |payTo| :: payTo[i].deductFeePercent >= 0.0
    ensures RealSum(Values(Reduced(payTo, fee))) + Shares(fee, Percents(payTo)) as real == RealSum(Amounts(payTo))
  {
    if payTo != [] {
      var n := |payTo| - 1;
      ReducedConserves(payTo[..n], fee);
      assert Values(Reduced(payTo, fee))[..n] == Values(Reduced(payTo[..n], fee));
      assert Percents(payTo)[..n] == Percents(payTo[..n]) && Amounts(payTo)[..n] == Amounts(payTo[..n]);
      ShareNonNegative(fee, payTo[n].deductFeePercent);
    }
  }

  // The loop over the payees: outputs before i are reduced, the others are not.
  lemma DeductNone(payTo: seq<PayTo>, fee: int)
    ensures |Percents(payTo)| == |Requested(payTo)| == |payTo|
    ensures Shares(fee, Percents(payTo)[..0]) == 0 && Reduced(payTo[..0], fee) + Requested(payTo)[0..] == Requested(payTo)
  {
  }

  lemma DeductOne(payTo: seq<PayTo>, fee: int, i: nat, outputs: seq<NewTxOut>)
    requires i < |payTo| && outputs == Reduced(payTo[..i], fee) + Requested(payTo)[i..]
    ensures i < |outputs| && outputs[i].amount == payTo[i].amount
    ensures outputs[i := outputs[i].(amount := AfterShare(payTo[i].amount, fee, payTo[i].deductFeePercent))]
         == Reduced(payTo[..i + 1], fee) + Requested(payTo)[i + 1..]
    ensures Shares(fee, Percents(payTo)[..i + 1]) == Shares(fee, Percents(payTo)[..i]) + Share(fee, payTo[i].deductFeePercent)
  {
    assert Percents(payTo)[..i + 1][..i] == Percents(payTo)[..i];
  }

  lemma DeductAll(payTo: seq<PayTo>, fee: int)
    ensures Reduced(payTo[..|payTo|], fee) + Requested(payTo)[|payTo|..] == Reduced(payTo, fee)
    ensures Shares(fee, Percents(payTo)[..|payTo|]) == Shares(fee, Percents(payTo))
  {
    assert payTo[..|payTo|] == payTo && Percents(payTo)[..|payTo|] == Percents(payTo);
  }

  class TxState {
    var inputs: seq<Utxo>
    var outputs: seq<NewTxOut>
    const outputSum: int
    var used: set<Outpoint>
    const source: StoreUTXOSource

    ghost predicate Valid()
      reads this, source
    {
      source.Valid() && inputs <= Usable(source.unspent) && used == Outpoints(inputs)
    }

    ghost function Available(): seq<Utxo>
      reads source
    {
      Usable(source.unspent)
    }

    constructor (outputSum: int, source: StoreUTXOSource)
      requires source.Valid()
      ensures Valid() && inputs == [] && outputs == [] && this.outputSum == outputSum && this.source == source
    {
      inputs, outputs, used := [], [], {};
      this.outputSum, this.source := outputSum, source;
    }

    method SumInputs() returns (total: int)
      ensures total == Total(inputs)
    {
      total := 0;
      for i := 0 to |inputs|
        invariant total == Total(inputs[..i])
      {
        TotalGrows(inputs, i);
        total := total + inputs[i].value;
      }
      assert inputs[..|inputs|] == inputs;
    }

    // Take one more output from the source.
    method AddInput() returns (added: bool)
      requires Valid()
      modifies this`inputs, this`used, source
      ensures Valid() && source.noMore && (old(source.Current()) ==> source.Current())
      ensures old(source.noMore) ==> source.unspent == old(source.unspent)
      ensures Available() == old(Available()) || old(inputs) == []
      ensures added ==> |old(inputs)| < |Available()| && inputs == old(inputs) + [Available()[|old(inputs)|]]
      ensures !added ==> inputs == old(inputs) == Available()
    {
      hide Listing, Outpoints, DistinctOutpoints;
      var utxo := source.NextUnspentUTXO(used, inputs);
      if utxo.None? { return false; }
      OutpointsAdd(inputs, utxo.value);
      inputs := inputs + [utxo.value];
      used := used + {utxo.value.o};
      return true;
    }

    /** Take outputs from the source until the inputs reach an amount. */
    method AddUTXOsUpToAmount(amount: int) returns (ok: bool)
      requires Valid()
      modifies this`inputs, this`used, source
      ensures Valid() && old(inputs) <= inputs && (old(source.Current()) ==> source.Current())
      ensures Available() == old(Available()) || old(inputs) == []
      ensures ok ==> FirstReaching(Available(), |old(inputs)|, amount, |inputs|)
      ensures !ok ==> NoneReaching(Available(), |old(inputs)|, amount) && inputs == Available() && source.noMore
    {
      hide Listing, Usable, Outpoints, DistinctOutpoints, StoreUTXOSource.Valid, StoreUTXOSource.Current, Total;
      var current := SumInputs();
      while current < amount
        invariant Valid() && old(inputs) <= inputs && (old(source.Current()) ==> source.Current())
        invariant Available() == old(Available()) || old(inputs) == []
        invariant |inputs| > |old(inputs)| ==> source.noMore
        invariant current == Total(inputs) && inputs == Available()[..|inputs|]
        invariant forall m | |old(inputs)| <= m < |inputs| :: Total(Available()[..m]) < amount
        decreases !source.noMore, |Available()| - |inputs|
      {
        ghost var before := inputs;
        var added := AddInput();
        if !added { return false; }
        TotalGrows(Available(), |before|);
        assert before == Available()[..|before|] && inputs == Available()[..|inputs|];
        current := current + inputs[|inputs| - 1].value;
      }
      return true;
    }

    method AddOutput(pay: PayTo) returns (error: Option<TxError>)
      modifies this`outputs
      ensures error == if pay.address == "" then Some(MissingAddress)
                       else if pay.amount <= 0.0 then Some(AmountNotPositive) else None
      ensures outputs == if error.None? then old(outputs) + [NewTxOut(pay.address, pay.amount)] else old(outputs)
    {
      if pay.address == "" { return Some(MissingAddress); }
      if pay.amount <= 0.0 { return Some(AmountNotPositive); }
      outputs := outputs + [NewTxOut(pay.address, pay.amount)];
      return None;
    }

    /** Add inputs until they cover the fee for their own number. */
    method CalculateFee(rule: FeeRule) returns (r: Result<int>)
      requires Valid() && rule.maxFee >= 0.0 && NoneBelow(Available(), outputSum, rule, |inputs|)
      modifies this`inputs, this`used, source
      ensures Valid() && (old(source.Current()) ==> source.Current())
      ensures Available() == old(Available()) || old(inputs) == []
      ensures r.Ok? ==> r.value == rule.Fee(|inputs|) && LeastFeasible(Available(), outputSum, rule, |inputs|)
      ensures r == Err(InsufficientFunds) ==> source.noMore && forall m: nat :: !Feasible(Available(), outputSum, rule, m)
      ensures r == Err(TooManyAttempts) ==> rule.fixedFee <= 0.0 && NoneBelow(Available(), outputSum, rule, |old(inputs)| + 11)
      ensures r == Err(TooManyAttempts) <==> Rounds(Available(), outputSum, rule, |old(inputs)|) > 10
      ensures r.Err? ==> r.error == InsufficientFunds || r.error == TooManyAttempts
    {
      hide Listing, Usable, Outpoints, DistinctOutpoints, FeeRule.Fee, StoreUTXOSource.Valid, StoreUTXOSource.Current, Total, Rounds;
      var attempt := 0;
      while true
        invariant Valid() && 0 <= attempt <= MAX_ATTEMPTS && (old(source.Current()) ==> source.Current())
        invariant Available() == old(Available()) || old(inputs) == []
        invariant NoneBelow(Available(), outputSum, rule, |inputs|) && |inputs| >= |old(inputs)| + attempt
        invariant attempt > 0 && rule.fixedFee > 0.0 ==> Feasible(Available(), outputSum, rule, |inputs|)
        invariant if attempt == 0 then inputs == old(inputs)
                  else Rounds(Available(), outputSum, rule, |old(inputs)|) == attempt + Rounds(Available(), outputSum, rule, |inputs|)
        decreases MAX_ATTEMPTS - attempt
      {
        ghost var list := Available();
        var fee := rule.Fee(|inputs|);
        var prevInputs := |inputs|;
        var ok := AddUTXOsUpToAmount(outputSum + fee);
        assert NoneBelow(Available(), outputSum, rule, prevInputs);
        OneRound(Available(), outputSum, rule, prevInputs, |inputs|);
        if !ok {
          forall m: nat ensures !Feasible(Available(), outputSum, rule, m) {
            NoneReachingNoneFeasible(Available(), outputSum, rule, prevInputs, m);
          }
          return Err(InsufficientFunds);
        }
        GrowSkipsNothing(Available(), outputSum, rule, prevInputs, |inputs|);
        assert inputs == Available()[..|inputs|];
        FixedFee(rule, prevInputs, |inputs|);
        if |inputs| > prevInputs {
          attempt := attempt + 1;
          if attempt > MAX_ATTEMPTS { return Err(TooManyAttempts); }
        } else {
          return Ok(fee);
        }
      }
    }

    /** Take one payee's share of the fee, unless that leaves dust. */
    method SubtractFeeFromOutput(i: nat, fee: int, percent: real) returns (r: Result<int>)
      requires i < |outputs|
      modifies this`outputs
      ensures var left := AfterShare(old(outputs)[i].amount, fee, percent);
              if Share(fee, percent) > 0 && left < DUST_LIMIT as real then r == Err(OutputBelowDust) && outputs == old(outputs)
              else r == Ok(Share(fee, percent)) && outputs == old(outputs)[i := old(outputs)[i].(amount := left)]
    {
      var feeAmount := RoundedPart(fee as real, percent / 100.0);
      if feeAmount > 0 {
        var newAmount := outputs[i].amount - feeAmount as real;
        if newAmount < DUST_LIMIT as real { return Err(OutputBelowDust); }
        outputs := outputs[i := outputs[i].(amount := newAmount)];
      }
      return Ok(feeAmount);
    }

    /** Take the whole fee from the outputs. */
    method CalculateAndDeductFee(rule: FeeRule, payTo: seq<PayTo>) returns (r: Result<int>)
      requires AmountsOk(payTo) && outputs == Requested(payTo)
      modifies this`outputs
      ensures var fee := rule.Fee(|inputs|);
              if forall i | 0 <= i < |payTo| :: StaysAboveDust(payTo[i], fee)
              then r == Ok(Shares(fee, Percents(payTo))) && outputs == Reduced(payTo, fee)
              else r == Err(OutputBelowDust)
    {
      hide Reduced, Requested, Shares, FeeRule.Fee, Percents;
      var fee := rule.Fee(|inputs|);
      DeductNone(payTo, fee);
      var deducted := 0;
      for i := 0 to |payTo|
        invariant deducted == Shares(fee, Percents(payTo)[..i])
        invariant outputs == Reduced(payTo[..i], fee) + Requested(payTo)[i..]
        invariant forall j | 0 <= j < i :: StaysAboveDust(payTo[j], fee)
      {
        DeductOne(payTo, fee, i, outputs);
        var amt := SubtractFeeFromOutput(i, fee, payTo[i].deductFeePercent);
        if amt.Err? {
          assert !StaysAboveDust(payTo[i], fee);
          return Err(amt.error);
        }
        deducted := deducted + amt.value;
      }
      DeductAll(payTo, fee);
      return Ok(deducted);
    }
  }

  // --------------------------------------------------------- the whole thing

  ghost predicate Deducts(payTo: seq<PayTo>) {
    RealSum(Percents(payTo)) == 100.0
  }

  /** How many outputs of the list are used: just enough for the outputs when the payees pay the fee,
      and otherwise just enough for the outputs and the fee. */
  ghost predicate Selected(payTo: seq<PayTo>, rule: FeeRule, list: seq<Utxo>, n: nat) {
    if Deducts(payTo) then FirstReaching(list, 0, Floors(Amounts(payTo)), n)
    else LeastFeasible(list, Floors(Amounts(payTo)), rule, n)
  }

  ghost function ChangeFor(payTo: seq<PayTo>, rule: FeeRule, list: seq<Utxo>, n: nat): real
    requires n <= |list|
  {
    Total(list[..n]) as real - RealSum(Amounts(payTo)) - if Deducts(payTo) then 0.0 else rule.Fee(n) as real
  }

  /** What a transaction that uses the first outputs of the list must meet, however many it uses. */
  ghost predicate TxnRules(payTo: seq<PayTo>, rule: FeeRule, list: seq<Utxo>, tx: NewTxn) {
    var n := |tx.inputs|;
    && tx.inputs <= list
    // nothing is lost and nothing is made up
    && Total(tx.inputs) as real == RealSum(Values(tx.outputs)) + tx.fee as real + tx.change
    && tx.change == ChangeFor(payTo, rule, list, n) && (tx.change == 0.0 || tx.change >= 1_000_000.0)
    && (forall i | 0 <= i < |tx.outputs| :: tx.outputs[i].amount >= 1_000_000.0)
    && if Deducts(payTo)
       then && tx.outputs == Reduced(payTo, rule.Fee(n))
            && RealSum(Values(tx.outputs)) + tx.fee as real == RealSum(Amounts(payTo))
            && -(|payTo| as real) / 2.0 <= tx.fee as real - rule.Fee(n) as real <= |payTo| as real / 2.0
       else tx.outputs == Requested(payTo) && tx.fee == rule.Fee(n)
  }

  /** What the transactions that are built meet besides: they use the fewest inputs. */
  ghost predicate TxnOk(payTo: seq<PayTo>, rule: FeeRule, list: seq<Utxo>, tx: NewTxn) {
    TxnRules(payTo, rule, list, tx) && Selected(payTo, rule, list, |tx.inputs|)
  }

  /** From the first selection on, inputs have to be added more often than the source is willing to. */
  ghost predicate TooManyRounds(payTo: seq<PayTo>, rule: FeeRule, list: seq<Utxo>) {
    var outputSum := Floors(Amounts(payTo));
    exists n: nat :: FirstReaching(list, 0, outputSum, n) && Rounds(list, outputSum, rule, n) > 10
  }

  /** Exactly when building a transaction ends with too many attempts. */
  ghost predicate GivesUp(payTo: seq<PayTo>, rule: FeeRule, list: seq<Utxo>) {
    && AmountsOk(payTo) && PercentsOk(payTo) && !Deducts(payTo) && (forall i | 0 <= i < |payTo| :: payTo[i].address != "")
    && TooManyRounds(payTo, rule, list)
  }

  /** The only reasons for which building a transaction fails. */
  ghost predicate Justified(error: TxError, payTo: seq<PayTo>, rule: FeeRule, list: seq<Utxo>) {
    var outputSum := Floors(Amounts(payTo));
    match error
    case AmountBelowDust => BadRequest(error, payTo)
    case NegativePercent => BadRequest(error, payTo)
    case PercentsNot100 => BadRequest(error, payTo)
    case InsufficientFunds => forall n: nat :: !Selected(payTo, rule, list, n)
    case MissingAddress => exists i :: 0 <= i < |payTo| && payTo[i].address == ""
    case AmountNotPositive => false
    case TooManyAttempts => !Deducts(payTo) && rule.fixedFee <= 0.0 && TooManyRounds(payTo, rule, list)
                            && exists n: nat :: FirstReaching(list, 0, outputSum, n) && NoneBelow(list, outputSum, rule, n + 11)
    case OutputBelowDust => Deducts(payTo) && exists n: nat, i: nat ::
                              FirstReaching(list, 0, outputSum, n) && i < |payTo| && !StaysAboveDust(payTo[i], rule.Fee(n))
    case NothingToSpend => payTo == []
    case InputsDoNotCover => exists n: nat :: n <= |list| && Selected(payTo, rule, list, n) && ChangeFor(payTo, rule, list, n) < 0.0
    case ChangeBelowDust => exists n: nat :: n <= |list| && Selected(payTo, rule, list, n)
                              && 0.0 < ChangeFor(payTo, rule, list, n) < 1_000_000.0
  }

  /** Every payee is paid, in order: what it asked for, or, when the payees pay the fee, that less its percentage of the fee,
      to half a koinu, and never more than it asked for. */
  lemma PaysAsAsked(payTo: seq<PayTo>, rule: FeeRule, list: seq<Utxo>, tx: NewTxn)
    requires TxnOk(payTo, rule, list, tx) && rule.maxFee >= 0.0 && forall i | 0 <= i < |payTo| :: payTo[i].deductFeePercent >= 0.0
    ensures |tx.outputs| == |payTo|
    ensures forall i | 0 <= i < |payTo| ::
              && tx.outputs[i].address == payTo[i].address && 1_000_000.0 <= tx.outputs[i].amount <= payTo[i].amount
              && var taken := payTo[i].amount - tx.outputs[i].amount;
                 if Deducts(payTo) then -0.5 <= taken - PercentOf(rule.Fee(|tx.inputs|), payTo[i].deductFeePercent) <= 0.5 else taken == 0.0
  {
    var fee := rule.Fee(|tx.inputs|);
    FeeMonotone(rule, |tx.inputs|, |tx.inputs|);
    OutputsAre(payTo, rule, list, tx);
    hide *;
    forall i | 0 <= i < |payTo|
      ensures tx.outputs[i].address == payTo[i].address && tx.outputs[i].amount <= payTo[i].amount
      ensures var taken := payTo[i].amount - tx.outputs[i].amount;
              if Deducts(payTo) then -0.5 <= taken - PercentOf(fee, payTo[i].deductFeePercent) <= 0.5 else taken == 0.0
    {
      ReducedAt(payTo, fee, i);
    }
  }

  lemma OutputsAre(payTo: seq<PayTo>, rule: FeeRule, list: seq<Utxo>, tx: NewTxn)
    requires TxnOk(payTo, rule, list, tx)
    ensures tx.outputs == if Deducts(payTo) then Reduced(payTo, rule.Fee(|tx.inputs|)) else Requested(payTo)
    ensures forall i | 0 <= i < |tx.outputs| :: tx.outputs[i].amount >= 1_000_000.0
  {
    hide FeeRule.Fee, Total, RealSum, Selected, Deducts, Reduced, Requested;
  }

  lemma ReducedAt(payTo: seq<PayTo>, fee: int, i: nat)
    requires i < |payTo| && payTo[i].deductFeePercent >= 0.0 && fee >= 0
    ensures |Reduced(payTo, fee)| == |Requested(payTo)| == |payTo|
    ensures Requested(payTo)[i] == NewTxOut(payTo[i].address, payTo[i].amount) && Reduced(payTo, fee)[i].address == payTo[i].address
    ensures var taken := payTo[i].amount - Reduced(payTo, fee)[i].amount;
            0.0 <= taken && -0.5 <= taken - PercentOf(fee, payTo[i].deductFeePercent) <= 0.5
  {
    ShareNonNegative(fee, payTo[i].deductFeePercent);
  }

  method TotalOut(outputs: seq<NewTxOut>) returns (total: real)
    ensures total == RealSum(Values(outputs))
  {
    total := 0.0;
    for i := 0 to |outputs|
      invariant total == RealSum(Values(outputs)[..i])
    {
      assert Values(outputs)[..i + 1][..i] == Values(outputs)[..i];
      total := total + outputs[i].amount;
    }
    assert Values(outputs)[..|outputs|] == Values(outputs);
  }

  /** The amount check of the library, and the change it pays back. */
  method MakeTransaction(state: TxState, fee: int) returns (r: Result<real>)
    requires state.Valid()
    ensures var change := Total(state.inputs) as real - RealSum(Values(state.outputs)) - fee as real;
            r == if state.inputs == [] || state.outputs == [] then Err(NothingToSpend)
                 else if change < 0.0 then Err(InputsDoNotCover) else Ok(change)
  {
    if |state.inputs| < 1 || |state.outputs| < 1 { return Err(NothingToSpend); }
    var totalIn := state.SumInputs();
    var totalOut := TotalOut(state.outputs);
    if totalIn as real < totalOut + fee as real { return Err(InputsDoNotCover); }
    return Ok(totalIn as real - totalOut - fee as real);
  }

  // The outputs of a request, as long as every payee has an address and an amount.
  method AddOutputs(payTo: seq<PayTo>, state: TxState) returns (error: Option<TxError>)
    requires state.outputs == [] && AmountsOk(payTo)
    modifies state`outputs
    ensures error.None? ==> state.outputs == Requested(payTo)
    ensures error.Some? ==> error.value == MissingAddress
    ensures error.Some? <==> exists i :: 0 <= i < |payTo| && payTo[i].address == ""
  {
    for i := 0 to |payTo|
      invariant state.outputs == Requested(payTo)[..i] && forall j | 0 <= j < i :: payTo[j].address != ""
    {
      error := state.AddOutput(payTo[i]);
      if error.Some? { return; }
    }
    return None;
  }

  // The outputs and the fee for n inputs.
  ghost predicate Priced(payTo: seq<PayTo>, rule: FeeRule, n: nat, outputs: seq<NewTxOut>, fee: int) {
    if Deducts(payTo)
    then && fee == Shares(rule.Fee(n), Percents(payTo)) && outputs == Reduced(payTo, rule.Fee(n))
         && forall i | 0 <= i < |payTo| :: StaysAboveDust(payTo[i], rule.Fee(n))
    else fee == rule.Fee(n) && outputs == Requested(payTo)
  }

  // Pick the inputs for the request; fee is what is left to the network.
  method ChooseInputs(payTo: seq<PayTo>, rule: FeeRule, deductFee: bool, state: TxState) returns (r: Result<int>)
    requires state.Valid() && AmountsOk(payTo) && state.outputSum == Floors(Amounts(payTo)) && rule.maxFee >= 0.0
    requires deductFee <==> Deducts(payTo)
    requires state.outputs == Requested(payTo) && FirstReaching(state.Available(), 0, state.outputSum, |state.inputs|)
    modifies state`inputs, state`used, state`outputs, state.source
    ensures state.Valid() && (old(state.source.Current()) ==> state.source.Current())
    ensures r.Err? ==> r.error != AmountNotPositive && Justified(r.error, payTo, rule, state.Available())
    ensures r == Err(InsufficientFunds) ==> state.source.noMore
    ensures r.Ok? ==> Selected(payTo, rule, state.Available(), |state.inputs|)
    ensures r.Ok? ==> Priced(payTo, rule, |state.inputs|, state.outputs, r.value)
    ensures r == Err(TooManyAttempts) <==> !deductFee && TooManyRounds(payTo, rule, state.Available())
  {
    hide Listing, Usable, Outpoints, StoreUTXOSource.Valid, StoreUTXOSource.Current, Total, FeeRule.Fee, Rounds;
    if deductFee {
      r := state.CalculateAndDeductFee(rule, payTo);
    } else {
      FirstSelection(state.Available(), state.outputSum, rule, |state.inputs|);
      ghost var n0, list0 := |state.inputs|, state.Available();
      r := state.CalculateFee(rule);
      assert list0[..0] == state.Available()[..0] == [];
      assert FirstReaching(state.Available(), 0, state.outputSum, n0);
    }
  }

  lemma PricedSum(payTo: seq<PayTo>, rule: FeeRule, n: nat, outputs: seq<NewTxOut>, fee: int)
    requires AmountsOk(payTo) && rule.maxFee >= 0.0 && Priced(payTo, rule, n, outputs, fee)
    ensures RealSum(Values(outputs)) + fee as real == RealSum(Amounts(payTo)) + if Deducts(payTo) then 0.0 else rule.Fee(n) as real
    ensures |outputs| == |payTo| && forall i | 0 <= i < |outputs| :: outputs[i].amount >= DUST_LIMIT as real
  {
    FeeMonotone(rule, n, n);
    if Deducts(payTo) {
      ReducedConserves(payTo, rule.Fee(n));
    } else {
      assert Values(Requested(payTo)) == Amounts(payTo);
    }
  }

  /** What the payees pay together is the fee, to within half a koinu for each of them. */
  lemma DeductedNear(payTo: seq<PayTo>, fee: int)
    requires Deducts(payTo)
    ensures -(|payTo| as real) / 2.0 <= Shares(fee, Percents(payTo)) as real - fee as real <= |payTo| as real / 2.0
  {
    SharesNear(fee, Percents(payTo));
  }

  /** Unless an amount has a fraction of a koinu, the selected inputs cover the outputs and the fee. */
  lemma SelectedCovers(payTo: seq<PayTo>, rule: FeeRule, list: seq<Utxo>, n: nat)
    requires n <= |list| && Selected(payTo, rule, list, n)
    ensures ChangeFor(payTo, rule, list, n) < 0.0 ==> exists i :: 0 <= i < |payTo| && !Whole(payTo[i].amount)
  {
    FloorsAgreeIff(Amounts(payTo));
    if forall i | 0 <= i < |payTo| :: Whole(payTo[i].amount) {
      assert Floors(Amounts(payTo)) as real == RealSum(Amounts(payTo));
    }
  }

  lemma AmountsPositive(payTo: seq<PayTo>)
    requires AmountsOk(payTo) && payTo != []
    ensures Floors(Amounts(payTo)) > 0
  {
    assert Amounts(payTo)[..|payTo| - 1] == Amounts(payTo[..|payTo| - 1]);
    if |payTo| > 1 {
      AmountsPositive(payTo[..|payTo| - 1]);
    } else {
      assert Amounts(payTo)[..0] == [];
    }
  }

  lemma NothingToSpendIff(payTo: seq<PayTo>, rule: FeeRule, list: seq<Utxo>, n: nat)
    requires AmountsOk(payTo) && rule.maxFee >= 0.0 && Selected(payTo, rule, list, n) && n <= |list|
    ensures payTo != [] ==> n > 0
  {
    FeeMonotone(rule, n, n);
    if payTo != [] { AmountsPositive(payTo); }
    assert list[..0] == [];
  }

  lemma SelectedOnce(payTo: seq<PayTo>, rule: FeeRule, list: seq<Utxo>, m: nat, n: nat)
    requires Selected(payTo, rule, list, m) && Selected(payTo, rule, list, n)
    ensures m == n
  {
    assert Deducts(payTo) || (Feasible(list, Floors(Amounts(payTo)), rule, m) && Feasible(list, Floors(Amounts(payTo)), rule, n));
  }

  // Prefixes of outputs of value are worth no more than all of them.
  lemma {:induction false} PrefixTotal(list: seq<Utxo>, n: nat)
    requires n <= |list| && forall i | 0 <= i < |list| :: list[i].value >= 0
    ensures Total(list[..n]) <= Total(list)
    decreases |list| - n
  {
    if n == |list| {
      assert list[..n] == list;
    } else {
      TotalGrows(list, n);
      PrefixTotal(list, n + 1);
    }
  }

  /** Funds are lacking if and only if the current balance is below what is asked for, when the payees pay the fee; and when they
      do not, only if it is below that and the fee of spending all there is. */
  lemma FundsIff(payTo: seq<PayTo>, rule: FeeRule, u: UtxoTable, pay: PaymentTable, account: AccountId, list: seq<Utxo>)
    requires Listing(u, account, list) && NoLowHeights(u) && forall o | o in u :: u[o].value >= 0
    ensures var current, asked := CalcFrom(u, pay, account).current, Floors(Amounts(payTo));
            if Deducts(payTo) then Justified(InsufficientFunds, payTo, rule, list) <==> current < asked
            else Justified(InsufficientFunds, payTo, rule, list) ==> current < asked + rule.Fee(|list|)
  {
    ListedIsCurrent(u, pay, account, list);
    var asked := Floors(Amounts(payTo));
    assert list[..|list|] == list;
    hide Listing, FeeRule.Fee, Total, CalcFrom;
    if Deducts(payTo) {
      if Total(list) < asked {
        forall n: nat ensures !FirstReaching(list, 0, asked, n) {
          if n <= |list| { ListedValues(u, account, list); PrefixTotal(list, n); }
        }
      } else {
        var n := FirstReach(list, asked, |list|);
        assert Selected(payTo, rule, list, n);
      }
    } else if Feasible(list, asked, rule, |list|) {
      var n := LeastReach(list, asked, rule, |list|);
      assert Selected(payTo, rule, list, n);
    }
  }

  lemma ListedValues(u: UtxoTable, account: AccountId, list: seq<Utxo>)
    requires Listing(u, account, list) && forall o | o in u :: u[o].value >= 0
    ensures forall i | 0 <= i < |list| :: list[i].value >= 0
  {
  }

  lemma {:induction false} FirstReach(list: seq<Utxo>, amount: int, m: nat) returns (n: nat)
    requires m <= |list| && Total(list[..m]) >= amount
    ensures FirstReaching(list, 0, amount, n)
  {
    if k: nat :| k < m && Total(list[..k]) >= amount {
      n := FirstReach(list, amount, k);
    } else {
      n := m;
    }
  }

  lemma {:induction false} LeastReach(list: seq<Utxo>, amount: int, rule: FeeRule, m: nat) returns (n: nat)
    requires Feasible(list, amount, rule, m)
    ensures LeastFeasible(list, amount, rule, n)
  {
    if k: nat :| k < m && Feasible(list, amount, rule, k) {
      n := LeastReach(list, amount, rule, k);
    } else {
      n := m;
    }
  }

  // Balance the chosen inputs against the outputs and the fee.
  method Finish(payTo: seq<PayTo>, rule: FeeRule, state: TxState, fee: int) returns (r: Result<NewTxn>)
    requires state.Valid() && AmountsOk(payTo) && rule.maxFee >= 0.0
    requires Selected(payTo, rule, state.Available(), |state.inputs|) && Priced(payTo, rule, |state.inputs|, state.outputs, fee)
    ensures r.Ok? ==> TxnOk(payTo, rule, state.Available(), r.value)
    ensures r.Err? ==> r.error != TooManyAttempts && r.error != InsufficientFunds && Justified(r.error, payTo, rule, state.Available())
  {
    hide Listing, Usable, Outpoints, Total, FeeRule.Fee, RealSum, Values, Reduced, AmountsOk, FirstReaching, LeastFeasible;
    ghost var list, n := state.Available(), |state.inputs|;
    assert state.inputs == list[..n];
    PricedSum(payTo, rule, n, state.outputs, fee);
    NothingToSpendIff(payTo, rule, list, n);
    var change := MakeTransaction(state, fee);
    if change.Err? { return Err(change.error); }
    if 0.0 < change.value < DUST_LIMIT as real { return Err(ChangeBelowDust); }
    if Deducts(payTo) { DeductedNear(payTo, rule.Fee(n)); }
    return Ok(NewTxn(state.inputs, state.outputs, fee, change.value));
  }

  /** Build a transaction: either it is balanced, dust-free and uses the fewest inputs in order, or there is a reason not to. */
  method CreateTxn(payTo: seq<PayTo>, fixedFee: real, maxFee: real, perKB: Option<real>, source: StoreUTXOSource) returns (r: Result<NewTxn>)
    requires source.Valid() && maxFee >= 0.0
    modifies source
    ensures source.Valid() && (old(source.Current()) ==> source.Current())
    ensures r.Ok? ==> TxnOk(payTo, FeeRule(perKB, fixedFee, maxFee, |payTo|), Usable(source.unspent), r.value)
    ensures r.Err? ==> Justified(r.error, payTo, FeeRule(perKB, fixedFee, maxFee, |payTo|), Usable(source.unspent))
    ensures r == Err(TooManyAttempts) <==> GivesUp(payTo, FeeRule(perKB, fixedFee, maxFee, |payTo|), Usable(source.unspent))
    ensures r == Err(InsufficientFunds) ==> source.noMore
  {
    hide Rounds, Listing, Usable, Outpoints, StoreUTXOSource.Current, Total, FeeRule.Fee, RealSum, Values, Reduced;
    var rule := FeeRule(perKB, fixedFee, maxFee, |payTo|);
    var sums := SumPayTo(payTo);
    if sums.Err? { return Err(sums.error); }
    var state := new TxState(sums.value.0, source);
    var ok := state.AddUTXOsUpToAmount(sums.value.0);
    if !ok {
      forall n: nat ensures !Selected(payTo, rule, state.Available(), n) {
        FirstSelection(state.Available(), sums.value.0, rule, n);
      }
      return Err(InsufficientFunds);
    }
    var error := AddOutputs(payTo, state);
    if error.Some? { return Err(error.value); }
    var fee := ChooseInputs(payTo, rule, sums.value.1, state);
    if fee.Err? { return Err(fee.error); }
    r := Finish(payTo, rule, state, fee.value);
  }
}
