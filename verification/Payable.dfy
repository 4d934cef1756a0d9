/** Which requests can be paid at all, and which of them are refused. */
module Payable {
  import opened Options
  import opened BlockTree
  import opened Fees
  import opened FeeRounds
  import opened Spend

  // ------------------------------------------------------- what can be paid

  ghost predicate RequestOk(payTo: seq<PayTo>) {
    payTo != [] && AmountsOk(payTo) && PercentsOk(payTo) && forall i | 0 <= i < |payTo| :: payTo[i].address != ""
  }

  // No change, or change that is not dust.
  predicate CleanChange(change: real) {
    change == 0.0 || change >= 1_000_000.0
  }

  /** The request can be paid from the first m outputs of the list, whether or not fewer would do. */
  ghost predicate Payable(payTo: seq<PayTo>, rule: FeeRule, list: seq<Utxo>, m: nat) {
    && RequestOk(payTo) && m <= |list| && CleanChange(ChangeFor(payTo, rule, list, m))
    && (Deducts(payTo) ==> forall i | 0 <= i < |payTo| :: StaysAboveDust(payTo[i], rule.Fee(m)))
  }

  /** That is: there is a balanced transaction of these inputs, without dust, that pays what is asked for and the fee. */
  lemma PayableIff(payTo: seq<PayTo>, rule: FeeRule, list: seq<Utxo>, m: nat)
    requires RequestOk(payTo) && rule.maxFee >= 0.0
    ensures Payable(payTo, rule, list, m) <==> exists tx: NewTxn :: |tx.inputs| == m && TxnRules(payTo, rule, list, tx)
  {
    hide FeeRule.Fee, Total, RealSum, Shares, AfterShare, Share;
    if Payable(payTo, rule, list, m) {
      var outputs := if Deducts(payTo) then Reduced(payTo, rule.Fee(m)) else Requested(payTo);
      var fee := if Deducts(payTo) then Shares(rule.Fee(m), Percents(payTo)) else rule.Fee(m);
      var tx := NewTxn(list[..m], outputs, fee, ChangeFor(payTo, rule, list, m));
      PricedSum(payTo, rule, m, outputs, fee);
      if Deducts(payTo) { DeductedNear(payTo, rule.Fee(m)); }
      assert |tx.inputs| == m && TxnRules(payTo, rule, list, tx);
    }
    if tx: NewTxn :| |tx.inputs| == m && TxnRules(payTo, rule, list, tx) {
      assert list[..m] == tx.inputs;
      if Deducts(payTo) {
        forall i | 0 <= i < |payTo| ensures StaysAboveDust(payTo[i], rule.Fee(m)) {
          assert tx.outputs[i].amount == AfterShare(payTo[i].amount, rule.Fee(m), payTo[i].deductFeePercent);
        }
      }
    }
  }

  // ----------------------------------------------------- failures that are definite

  /** Fewer inputs than the selected number never pay. */
  lemma TooFew(payTo: seq<PayTo>, rule: FeeRule, list: seq<Utxo>, n: nat, m: nat)
    requires Selected(payTo, rule, list, n) && m < n && m <= |list|
    ensures !Payable(payTo, rule, list, m)
  {
    hide FeeRule.Fee, Total;
    FloorsAgreeIff(Amounts(payTo));
    assert !Deducts(payTo) ==> !Feasible(list, Floors(Amounts(payTo)), rule, m);
  }

  lemma {:induction false} LeastExists(us: seq<Utxo>, outputSum: int, rule: FeeRule, m: nat)
    requires Feasible(us, outputSum, rule, m)
    ensures exists n: nat :: LeastFeasible(us, outputSum, rule, n)
    decreases m
  {
    if k: nat :| k < m && Feasible(us, outputSum, rule, k) {
      LeastExists(us, outputSum, rule, k);
    } else {
      assert LeastFeasible(us, outputSum, rule, m);
    }
  }

  /** If some number of inputs covers the request, some number is selected. */
  lemma CoveredSelected(payTo: seq<PayTo>, rule: FeeRule, list: seq<Utxo>, m: nat)
    requires m <= |list| && ChangeFor(payTo, rule, list, m) >= 0.0
    ensures exists n: nat :: Selected(payTo, rule, list, n)
  {
    hide FeeRule.Fee, Total, Reach;
    var outputSum := Floors(Amounts(payTo));
    FloorsAgreeIff(Amounts(payTo));
    if Deducts(payTo) {
      ReachIs(list, 0, outputSum);
      assert Selected(payTo, rule, list, Reach(list, 0, outputSum).value);
    } else {
      LeastExists(list, outputSum, rule, m);
      var n: nat :| LeastFeasible(list, outputSum, rule, n);
      assert Selected(payTo, rule, list, n);
    }
  }

  lemma PartGrows(x: real, y: real, factor: real)
    requires x <= y && factor >= 0.0
    ensures RoundedPart(x, factor) <= RoundedPart(y, factor)
  {
    hide Round;
    ProductMonotone(x, y, factor);
    RoundMonotone(x * factor, y * factor);
  }

  lemma ShareGrows(fee: int, fee': int, percent: real)
    requires fee <= fee' && percent >= 0.0
    ensures Share(fee, percent) <= Share(fee', percent)
  {
    hide RoundedPart;
    PartGrows(fee as real, fee' as real, percent / 100.0);
  }

  /** A payee whom the fee leaves with dust is left with dust by every higher fee. */
  lemma DustStays(pay: PayTo, fee: int, fee': int)
    requires fee <= fee' && pay.deductFeePercent >= 0.0 && pay.amount.Floor >= DUST_LIMIT && !StaysAboveDust(pay, fee)
    ensures !StaysAboveDust(pay, fee')
  {
    hide Share;
    ShareGrows(fee, fee', pay.deductFeePercent);
  }

  lemma PayeeLeftWithDust(payTo: seq<PayTo>, rule: FeeRule, list: seq<Utxo>, n: nat, i: nat, m: nat)
    requires Deducts(payTo) && FirstReaching(list, 0, Floors(Amounts(payTo)), n) && i < |payTo| && !StaysAboveDust(payTo[i], rule.Fee(n))
    ensures !Payable(payTo, rule, list, m)
  {
    hide FeeRule.Fee, Total, StaysAboveDust;
    if m < n {
      if m <= |list| { TooFew(payTo, rule, list, n, m); }
    } else if AmountsOk(payTo) {
      FeeMonotone(rule, n, m);
      DustStays(payTo[i], rule.Fee(n), rule.Fee(m));
    }
  }

  /** These failures are definite: no number of inputs pays the request. */
  lemma FailureIsDefinite(error: TxError, payTo: seq<PayTo>, rule: FeeRule, list: seq<Utxo>, m: nat)
    requires Justified(error, payTo, rule, list)
    requires !error.ChangeBelowDust? && !error.InputsDoNotCover? && !error.TooManyAttempts?
    ensures !Payable(payTo, rule, list, m)
  {
    hide FeeRule.Fee, Total, ChangeFor, Selected, StaysAboveDust;
    match error
    case InsufficientFunds =>
      if Payable(payTo, rule, list, m) { CoveredSelected(payTo, rule, list, m); }
    case OutputBelowDust =>
      var n: nat, i: nat :| FirstReaching(list, 0, Floors(Amounts(payTo)), n) && i < |payTo| && !StaysAboveDust(payTo[i], rule.Fee(n));
      PayeeLeftWithDust(payTo, rule, list, n, i, m);
    case _ =>
  }

  // ------------------------------------------------ failures that hide a payment

  /** Dust as change, or a shortfall of a fraction: the failure is for the number of inputs that was picked, and the request
      can be paid if and only if it can with more of them. */
  lemma HidesIff(error: TxError, payTo: seq<PayTo>, rule: FeeRule, list: seq<Utxo>, n: nat)
    requires Justified(error, payTo, rule, list) && (error.ChangeBelowDust? || error.InputsDoNotCover?)
    requires Selected(payTo, rule, list, n) && RequestOk(payTo)
    ensures (exists m: nat :: Payable(payTo, rule, list, m))
       <==> exists m: nat :: n < m <= |list| && CleanChange(ChangeFor(payTo, rule, list, m))
                             && (Deducts(payTo) ==> forall i | 0 <= i < |payTo| :: StaysAboveDust(payTo[i], rule.Fee(m)))
  {
    hide FeeRule.Fee, Total, Selected, StaysAboveDust;
    var k: nat :| k <= |list| && Selected(payTo, rule, list, k) && ChangeFor(payTo, rule, list, k) != 0.0
                  && ChangeFor(payTo, rule, list, k) < DUST_LIMIT as real;
    SelectedOnce(payTo, rule, list, k, n);
    if m: nat :| Payable(payTo, rule, list, m) {
      if m < n { TooFew(payTo, rule, list, n, m); }
      assert n < m <= |list|;
    }
    if m: nat :| n < m <= |list| && CleanChange(ChangeFor(payTo, rule, list, m))
                 && (Deducts(payTo) ==> forall i | 0 <= i < |payTo| :: StaysAboveDust(payTo[i], rule.Fee(m))) {
      assert Payable(payTo, rule, list, m);
    }
  }

  // With outputs that are worth what they add to the fee, the change only grows.
  lemma ChangeGrows(payTo: seq<PayTo>, rule: FeeRule, list: seq<Utxo>, step: int, n: nat, m: nat)
    requires !Deducts(payTo) && FeeStep(rule, step) && n <= m <= |list| && WorthAtLeast(list, n, step)
    ensures ChangeFor(payTo, rule, list, n) <= ChangeFor(payTo, rule, list, m)
  {
    hide FeeRule.Fee, Total, RealSum;
    FeeSteps(rule, step, n, m);
    TotalAtLeast(list, step, n, m);
  }

  // No change at all needs a whole sum.
  lemma ZeroIsWhole(payTo: seq<PayTo>, rule: FeeRule, list: seq<Utxo>, m: nat)
    requires m <= |list| && ChangeFor(payTo, rule, list, m) == 0.0
    ensures Whole(RealSum(Amounts(payTo)))
  {
    hide FeeRule.Fee, Total, RealSum;
    var n := Total(list[..m]) - if Deducts(payTo) then 0 else rule.Fee(m);
    assert RealSum(Amounts(payTo)) == n as real;
  }

  /** When every further output is worth what it adds to the fee, all outputs together decide: a request refused for its
      change or its fraction can be paid if and only if they leave change that is not dust, or some number of them leaves
      none at all, which it never does after dust or with a fraction in the sum. */
  lemma RestDecides(payTo: seq<PayTo>, rule: FeeRule, list: seq<Utxo>, step: int, n: nat)
    requires RequestOk(payTo) && !Deducts(payTo) && Selected(payTo, rule, list, n) && n <= |list|
    requires ChangeFor(payTo, rule, list, n) != 0.0 && ChangeFor(payTo, rule, list, n) < DUST_LIMIT as real
    requires FeeStep(rule, step) && WorthAtLeast(list, n, step)
    ensures (exists m: nat :: Payable(payTo, rule, list, m))
       <==> ChangeFor(payTo, rule, list, |list|) >= DUST_LIMIT as real
            || exists m: nat :: n < m <= |list| && ChangeFor(payTo, rule, list, m) == 0.0
    ensures ChangeFor(payTo, rule, list, n) > 0.0 || !Whole(RealSum(Amounts(payTo))) ==>
              forall m: nat | n < m <= |list| :: ChangeFor(payTo, rule, list, m) != 0.0
  {
    hide FeeRule.Fee, Total, Selected, ChangeFor;
    ChangeGrows(payTo, rule, list, step, n, |list|);
    if m: nat :| Payable(payTo, rule, list, m) {
      if m < n { TooFew(payTo, rule, list, n, m); }
      ChangeGrows(payTo, rule, list, step, m, |list|);
      assert n < m <= |list|;
    }
    if ChangeFor(payTo, rule, list, |list|) >= DUST_LIMIT as real { assert Payable(payTo, rule, list, |list|); }
    if m: nat :| n < m <= |list| && ChangeFor(payTo, rule, list, m) == 0.0 { assert Payable(payTo, rule, list, m); }
    forall m: nat | n < m <= |list| && (ChangeFor(payTo, rule, list, n) > 0.0 || !Whole(RealSum(Amounts(payTo))))
      ensures ChangeFor(payTo, rule, list, m) != 0.0
    {
      ChangeGrows(payTo, rule, list, step, n, m);
      if ChangeFor(payTo, rule, list, m) == 0.0 { ZeroIsWhole(payTo, rule, list, m); }
    }
  }

  // The least whole amount that leaves change above dust when the payees pay the fee.
  function CleanTotal(payTo: seq<PayTo>): int {
    -((-(RealSum(Amounts(payTo)) + DUST_LIMIT as real)).Floor)
  }

  lemma CleanFrom(payTo: seq<PayTo>, rule: FeeRule, list: seq<Utxo>, m: nat)
    requires m <= |list| && Deducts(payTo)
    ensures ChangeFor(payTo, rule, list, m) >= DUST_LIMIT as real <==> Total(list[..m]) >= CleanTotal(payTo)
  {
    hide FeeRule.Fee, Total, RealSum;
    var x := RealSum(Amounts(payTo)) + DUST_LIMIT as real;
    assert Total(list[..m]) as real >= x <==> Total(list[..m]) >= -((-x).Floor);
  }

  lemma DeductedGrows(payTo: seq<PayTo>, rule: FeeRule, list: seq<Utxo>, n: nat, m: nat)
    requires Deducts(payTo) && n <= m <= |list| && WorthAtLeast(list, n, 0)
    ensures ChangeFor(payTo, rule, list, n) <= ChangeFor(payTo, rule, list, m)
  {
    hide FeeRule.Fee, Total, RealSum;
    TotalAtLeast(list, 0, n, m);
  }

  /** When the payees pay the fee, the first inputs that leave change above dust decide: the request can be paid if and only
      if there are such, and with the fee for that many every payee stays above dust. */
  lemma FirstCleanDecides(payTo: seq<PayTo>, rule: FeeRule, list: seq<Utxo>, n: nat)
    requires RequestOk(payTo) && Deducts(payTo) && Selected(payTo, rule, list, n) && n <= |list| && WorthAtLeast(list, n, 0)
    requires ChangeFor(payTo, rule, list, n) != 0.0 && ChangeFor(payTo, rule, list, n) < DUST_LIMIT as real
    requires ChangeFor(payTo, rule, list, n) > 0.0 || !Whole(RealSum(Amounts(payTo)))
    ensures (exists m: nat :: Payable(payTo, rule, list, m))
       <==> match Reach(list, n, CleanTotal(payTo))
            case Some(k) => forall i | 0 <= i < |payTo| :: StaysAboveDust(payTo[i], rule.Fee(k))
            case None => false
  {
    ReachIs(list, n, CleanTotal(payTo));
    hide FeeRule.Fee, Total, Selected, ChangeFor, StaysAboveDust, Reach, CleanTotal, RealSum;
    if m: nat :| Payable(payTo, rule, list, m) {
      if m < n { TooFew(payTo, rule, list, n, m); }
      DeductedGrows(payTo, rule, list, n, m);
      if ChangeFor(payTo, rule, list, m) == 0.0 { ZeroIsWhole(payTo, rule, list, m); }
      CleanFrom(payTo, rule, list, m);
      var k := Reach(list, n, CleanTotal(payTo)).value;
      FeeMonotone(rule, k, m);
      forall i | 0 <= i < |payTo| ensures StaysAboveDust(payTo[i], rule.Fee(k)) {
        if !StaysAboveDust(payTo[i], rule.Fee(k)) { DustStays(payTo[i], rule.Fee(k), rule.Fee(m)); }
      }
    }
    match Reach(list, n, CleanTotal(payTo))
    case Some(k) =>
      CleanFrom(payTo, rule, list, k);
      if forall i | 0 <= i < |payTo| :: StaysAboveDust(payTo[i], rule.Fee(k)) { assert Payable(payTo, rule, list, k); }
    case None =>
  }

  /** Giving up comes after at least eleven more inputs than the first selection, and the request can be paid if and only
      if it can with at least that many. */
  lemma GivingUpIff(payTo: seq<PayTo>, rule: FeeRule, list: seq<Utxo>, n: nat)
    requires Justified(TooManyAttempts, payTo, rule, list) && FirstReaching(list, 0, Floors(Amounts(payTo)), n) && RequestOk(payTo)
    ensures (exists m: nat :: Payable(payTo, rule, list, m))
       <==> exists m: nat :: n + MAX_ATTEMPTS < m <= |list| && CleanChange(ChangeFor(payTo, rule, list, m))
  {
    hide FeeRule.Fee, Total;
    FloorsAgreeIff(Amounts(payTo));
    assert NoneBelow(list, Floors(Amounts(payTo)), rule, n + MAX_ATTEMPTS + 1);
    if m: nat :| Payable(payTo, rule, list, m) {
      assert m <= n + MAX_ATTEMPTS ==> !Feasible(list, Floors(Amounts(payTo)), rule, m);
      assert n + MAX_ATTEMPTS < m <= |list|;
    }
    if m: nat :| n + MAX_ATTEMPTS < m <= |list| && CleanChange(ChangeFor(payTo, rule, list, m)) {
      assert Payable(payTo, rule, list, m);
    }
  }

  /** Then, too, all outputs together decide when every one past the first selection is worth what it adds to the fee. */
  lemma RestDecidesGivingUp(payTo: seq<PayTo>, rule: FeeRule, list: seq<Utxo>, step: int, n: nat)
    requires Justified(TooManyAttempts, payTo, rule, list) && FirstReaching(list, 0, Floors(Amounts(payTo)), n) && RequestOk(payTo)
    requires FeeStep(rule, step) && WorthAtLeast(list, n, step)
    ensures (exists m: nat :: Payable(payTo, rule, list, m))
       <==> ChangeFor(payTo, rule, list, |list|) >= DUST_LIMIT as real
            || exists m: nat :: n < m <= |list| && ChangeFor(payTo, rule, list, m) == 0.0
  {
    GivingUpIff(payTo, rule, list, n);
    hide FeeRule.Fee, Total, ChangeFor, FirstReaching;
    if m: nat :| n + MAX_ATTEMPTS < m <= |list| && CleanChange(ChangeFor(payTo, rule, list, m)) {
      ChangeGrows(payTo, rule, list, step, m, |list|);
      assert n < m;
    }
    if ChangeFor(payTo, rule, list, |list|) >= DUST_LIMIT as real { assert Payable(payTo, rule, list, |list|); }
    if m: nat :| n < m <= |list| && ChangeFor(payTo, rule, list, m) == 0.0 { assert Payable(payTo, rule, list, m); }
  }

  // ------------------------------------------------------- requests refused so

  const TRAP_REQUEST := [PayTo("payee", 100_000_000.0, 0.0)]

  lemma TrapRequest()
    ensures AmountsOk(TRAP_REQUEST) && Floors(Amounts(TRAP_REQUEST)) == 100_000_000 && RealSum(Amounts(TRAP_REQUEST)) == 100_000_000.0
    ensures RealSum(Percents(TRAP_REQUEST)) == 0.0 && Values(Requested(TRAP_REQUEST)) == Amounts(TRAP_REQUEST)
  {
    var amounts, percents := Amounts(TRAP_REQUEST), Percents(TRAP_REQUEST);
    assert amounts[..0] == [] && percents[..0] == [];
  }

  /** Giving up hides a transaction that meets every rule: a request for 100,000,000 koinu at the default rate, with forty
      small outputs, each worth what it adds to the fee or a little less, before a large one. */
  lemma GivingUpHidesTxn(v: int)
    requires 147_000 <= v <= 148_000
    ensures GivesUp(TRAP_REQUEST, DEFAULT_RULE, Trap(v))
    ensures exists tx :: TxnOk(TRAP_REQUEST, DEFAULT_RULE, Trap(v), tx)
  {
    hide Rounds, Trap, Total, FirstReaching;
    TooFewRounds(v);
    TrapRequest();
    assert TooManyRounds(TRAP_REQUEST, DEFAULT_RULE, Trap(v));
    TrapSize(v);
    DefaultFee(42);
    var fee := DEFAULT_RULE.Fee(42);
    assert Trap(v)[..42] == Trap(v);
    var change := (Total(Trap(v)) - 100_000_000 - fee) as real;
    assert TxnOk(TRAP_REQUEST, DEFAULT_RULE, Trap(v), NewTxn(Trap(v), Requested(TRAP_REQUEST), fee, change));
  }

  /** It never comes to that when every output past the first selection is worth twice what an input adds to the fee,
      and the fee for the first selection is no more than 512 times that. */
  lemma NoGivingUp(payTo: seq<PayTo>, rule: FeeRule, list: seq<Utxo>, n: nat)
    requires rule.maxFee >= 0.0 && FirstReaching(list, 0, Floors(Amounts(payTo)), n)
    requires WorthAtLeast(list, n, 2 * StepOf(rule)) && rule.Fee(n) <= 512 * StepOf(rule)
    ensures !GivesUp(payTo, rule, list)
  {
    hide StepOf, FeeRule.Fee, Total, Rounds;
    TenRoundsSuffice(list, Floors(Amounts(payTo)), rule, n);
    assert forall m: nat | FirstReaching(list, 0, Floors(Amounts(payTo)), m) :: m == n;
  }

  /** Dust as change hides a payment: the first output leaves change of 500,000, the first two leave 50,500,000. */
  lemma DustHides()
    ensures var list := [Utxo(Outpoint("", 0), 101_500_000, true), Utxo(Outpoint("", 1), 50_000_000, true)];
            Justified(ChangeBelowDust, TRAP_REQUEST, DEFAULT_RULE, list) && Payable(TRAP_REQUEST, DEFAULT_RULE, list, 2)
  {
    hide FeeRule.Fee, Amounts, RealSum, Floors, Percents;
    var list := [Utxo(Outpoint("", 0), 101_500_000, true), Utxo(Outpoint("", 1), 50_000_000, true)];
    TrapRequest();
    TwoTotals(list);
    assert LeastFeasible(list, 100_000_000, DEFAULT_RULE, 1);
    assert Selected(TRAP_REQUEST, DEFAULT_RULE, list, 1) && ChangeFor(TRAP_REQUEST, DEFAULT_RULE, list, 1) == 500_000.0;
    assert ChangeFor(TRAP_REQUEST, DEFAULT_RULE, list, 2) == 50_500_000.0;
  }

  // The same request, with the fee to be taken from the payee.
  const DEDUCTED_REQUEST := [PayTo("payee", 100_000_000.0, 100.0)]

  /** So it does when the payee pays the fee. */
  lemma DustHidesDeducted()
    ensures var list := [Utxo(Outpoint("", 0), 100_500_000, true), Utxo(Outpoint("", 1), 50_000_000, true)];
            Justified(ChangeBelowDust, DEDUCTED_REQUEST, DEFAULT_RULE, list) && Payable(DEDUCTED_REQUEST, DEFAULT_RULE, list, 2)
  {
    hide FeeRule.Fee, RealSum, Floors;
    var list := [Utxo(Outpoint("", 0), 100_500_000, true), Utxo(Outpoint("", 1), 50_000_000, true)];
    OnePayee(DEDUCTED_REQUEST);
    TwoTotals(list);
    RoundWhole(1_000_000);
    assert FirstReaching(list, 0, 100_000_000, 1) && Selected(DEDUCTED_REQUEST, DEFAULT_RULE, list, 1);
    assert ChangeFor(DEDUCTED_REQUEST, DEFAULT_RULE, list, 1) == 500_000.0;
    assert ChangeFor(DEDUCTED_REQUEST, DEFAULT_RULE, list, 2) == 50_500_000.0;
    assert 1_000_000.0 * (100.0 / 100.0) == 1_000_000.0;
    assert AfterShare(100_000_000.0, 1_000_000, 100.0) == 99_000_000.0;
  }

  // The same request, with half a koinu more.
  const FRACTION_REQUEST := [PayTo("payee", 100_000_000.5, 0.0)]

  /** And so does the amount check of the library: inputs are selected for the whole koinu only, and one output lacks the half. */
  lemma FractionHides()
    ensures var list := [Utxo(Outpoint("", 0), 101_000_000, true), Utxo(Outpoint("", 1), 50_000_000, true)];
            Justified(InputsDoNotCover, FRACTION_REQUEST, DEFAULT_RULE, list) && Payable(FRACTION_REQUEST, DEFAULT_RULE, list, 2)
  {
    hide FeeRule.Fee, RealSum, Floors;
    var list := [Utxo(Outpoint("", 0), 101_000_000, true), Utxo(Outpoint("", 1), 50_000_000, true)];
    OnePayee(FRACTION_REQUEST);
    TwoTotals(list);
    assert LeastFeasible(list, 100_000_000, DEFAULT_RULE, 1) && Selected(FRACTION_REQUEST, DEFAULT_RULE, list, 1);
    assert ChangeFor(FRACTION_REQUEST, DEFAULT_RULE, list, 1) == -0.5;
    assert ChangeFor(FRACTION_REQUEST, DEFAULT_RULE, list, 2) == 49_999_999.5;
  }

  lemma OnePayee(payTo: seq<PayTo>)
    requires |payTo| == 1
    ensures Floors(Amounts(payTo)) == payTo[0].amount.Floor && RealSum(Amounts(payTo)) == payTo[0].amount
    ensures RealSum(Percents(payTo)) == payTo[0].deductFeePercent
  {
    var amounts, percents := Amounts(payTo), Percents(payTo);
    assert amounts[..0] == [] && percents[..0] == [];
  }

  lemma TwoTotals(list: seq<Utxo>)
    requires |list| == 2
    ensures Total(list[..0]) == 0 && Total(list[..1]) == list[0].value && Total(list[..2]) == list[0].value + list[1].value
    ensures forall n: nat | n <= 2 :: DEFAULT_RULE.Fee(n) == 1_000_000
  {
    assert list[..0] == [];
    TotalGrows(list, 0);
    TotalGrows(list, 1);
    forall n: nat | n <= 2 ensures DEFAULT_RULE.Fee(n) == 1_000_000 {
      DefaultFee(n);
    }
  }

  // ----------------------------------------------------------- other choices of inputs

  /** us is what is left of the list when some outputs are passed over. */
  ghost predicate Choice(us: seq<Utxo>, list: seq<Utxo>) {
    us == [] ||
    (list != [] && ((us[|us| - 1] == list[|list| - 1] && Choice(us[..|us| - 1], list[..|list| - 1])) || Choice(us, list[..|list| - 1])))
  }

  lemma {:induction false} ChoiceTotal(us: seq<Utxo>, list: seq<Utxo>, v: int)
    requires Choice(us, list) && WorthAtLeast(list, 0, v)
    ensures |us| <= |list| && Total(list) >= Total(us) + v * (|list| - |us|)
    decreases |list|
  {
    if us == [] {
      TotalAtLeast(list, v, 0, |list|);
      assert list[..|list|] == list && list[..0] == [];
    } else {
      var n := |list| - 1;
      if us[|us| - 1] == list[n] && Choice(us[..|us| - 1], list[..n]) {
        ChoiceTotal(us[..|us| - 1], list[..n], v);
      } else {
        ChoiceTotal(us, list[..n], v);
        assert v * (|list| - |us|) == v * (n - |us|) + v;
      }
    }
  }

  /** Inputs are taken in the order of the list. When every output is worth what it adds to the fee, lack of funds is
      definite for every other choice of inputs, too. */
  lemma NoChoicePays(payTo: seq<PayTo>, rule: FeeRule, list: seq<Utxo>, us: seq<Utxo>, step: int)
    requires Justified(InsufficientFunds, payTo, rule, list) && !Deducts(payTo) && Choice(us, list)
    requires FeeStep(rule, step) && WorthAtLeast(list, 0, step)
    ensures !Payable(payTo, rule, us, |us|)
  {
    hide FeeRule.Fee, Total, RealSum, Floors, Choice;
    ChoiceTotal(us, list, step);
    FeeSteps(rule, step, |us|, |list|);
    assert us[..|us|] == us && list[..|list|] == list;
    if ChangeFor(payTo, rule, list, |list|) >= 0.0 { CoveredSelected(payTo, rule, list, |list|); }
  }

  /** Otherwise it need not be: forty outputs of 1,000 koinu stand before one that pays the request alone. */
  function Crumbs(): seq<Utxo> {
    seq(41, i requires 0 <= i < 41 => Utxo(Outpoint("", i), if i < 40 then 1_000 else 102_000_000, true))
  }

  lemma {:induction false} CrumbsTotal(n: nat)
    requires n <= 41
    ensures Total(Crumbs()[..n]) == 1_000 * (if n < 41 then n else 40) + if n < 41 then 0 else 102_000_000
  {
    if n == 0 {
      assert Crumbs()[..0] == [];
    } else {
      TotalGrows(Crumbs(), n - 1);
      CrumbsTotal(n - 1);
    }
  }

  lemma CrumbsHide()
    ensures Justified(InsufficientFunds, TRAP_REQUEST, DEFAULT_RULE, Crumbs())
    ensures Choice(Crumbs()[40..], Crumbs()) && Payable(TRAP_REQUEST, DEFAULT_RULE, Crumbs()[40..], 1)
  {
    hide FeeRule.Fee, Amounts, RealSum, Floors, Percents;
    TrapRequest();
    forall n: nat ensures !Selected(TRAP_REQUEST, DEFAULT_RULE, Crumbs(), n) {
      if n <= 41 {
        CrumbsTotal(n);
        DefaultFee(n);
      }
    }
    var us := Crumbs()[40..];
    DefaultFee(1);
    assert us[..1] == us && us[..0] == [];
    TotalGrows(us, 0);
    assert ChangeFor(TRAP_REQUEST, DEFAULT_RULE, us, 1) == 1_000_000.0;
  }
}
