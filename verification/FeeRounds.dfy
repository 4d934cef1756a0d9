/** How often inputs are added before they cover the fee for their own number: when that settles, and when it does not. */
module FeeRounds {
  import opened Options
  import opened BlockTree
  import opened Fees

  // --------------------------------------------------- how often inputs are added

  /** The first prefix, from k inputs upwards, that reaches an amount, if there is one. */
  function Reach(us: seq<Utxo>, k: nat, amount: int): Option<nat>
    decreases |us| - k
  {
    if k > |us| then None
    else if Total(us[..k]) >= amount then Some(k)
    else if k == |us| then None
    else Reach(us, k + 1, amount)
  }

  lemma {:induction false} ReachIs(us: seq<Utxo>, k: nat, amount: int)
    ensures match Reach(us, k, amount)
            case Some(n) => FirstReaching(us, k, amount, n)
            case None => NoneReaching(us, k, amount)
    decreases |us| - k
  {
    if k < |us| && Total(us[..k]) < amount {
      ReachIs(us, k + 1, amount);
    }
  }

  lemma ReachUnique(us: seq<Utxo>, k: nat, amount: int, n: nat)
    ensures FirstReaching(us, k, amount, n) ==> Reach(us, k, amount) == Some(n)
    ensures NoneReaching(us, k, amount) ==> Reach(us, k, amount) == None
  {
    ReachIs(us, k, amount);
  }

  /** How often inputs have to be added, starting with k of them, before they cover the fee for their own number
      or the list runs out. */
  function Rounds(us: seq<Utxo>, outputSum: int, rule: FeeRule, k: nat): nat
    decreases |us| - k
  {
    match Reach(us, k, outputSum + rule.Fee(k))
    case None => 0
    case Some(n) => ReachIs(us, k, outputSum + rule.Fee(k)); if n == k then 0 else 1 + Rounds(us, outputSum, rule, n)
  }

  lemma OneRound(us: seq<Utxo>, outputSum: int, rule: FeeRule, k: nat, n: nat)
    ensures FirstReaching(us, k, outputSum + rule.Fee(k), n) ==>
              Rounds(us, outputSum, rule, k) == if n == k then 0 else 1 + Rounds(us, outputSum, rule, n)
    ensures NoneReaching(us, k, outputSum + rule.Fee(k)) ==> Rounds(us, outputSum, rule, k) == 0
  {
    ReachUnique(us, k, outputSum + rule.Fee(k), n);
  }

  /** By how much k inputs fall short. */
  function Shortfall(us: seq<Utxo>, outputSum: int, rule: FeeRule, k: nat): int
    requires k <= |us|
  {
    outputSum + rule.Fee(k) - Total(us[..k])
  }

  /** One more input never raises the fee by more than this. */
  ghost predicate FeeStep(rule: FeeRule, step: int) {
    forall n: nat :: rule.Fee(n + 1) <= rule.Fee(n) + step
  }

  lemma OnceMore(v: int, d: int)
    ensures v * (d + 1) == v * d + v
  {
  }

  lemma {:induction false} FeeSteps(rule: FeeRule, step: int, k: nat, n: nat)
    requires FeeStep(rule, step) && k <= n
    ensures rule.Fee(n) <= rule.Fee(k) + step * (n - k)
    decreases n - k
  {
    hide FeeRule.Fee;
    if k < n {
      FeeSteps(rule, step, k, n - 1);
      assert rule.Fee(n - 1 + 1) <= rule.Fee(n - 1) + step;
      OnceMore(step, n - 1 - k);
    }
  }

  predicate WorthAtLeast(us: seq<Utxo>, k: nat, v: int) {
    forall i | k <= i < |us| :: us[i].value >= v
  }

  lemma {:induction false} TotalAtLeast(us: seq<Utxo>, v: int, k: nat, n: nat)
    requires WorthAtLeast(us, k, v) && k <= n <= |us|
    ensures Total(us[..n]) >= Total(us[..k]) + v * (n - k)
    decreases n - k
  {
    hide Total;
    if k < n {
      TotalAtLeast(us, v, k, n - 1);
      TotalGrows(us, n - 1);
      OnceMore(v, n - 1 - k);
    }
  }

  // The shortfall after a round that adds outputs worth at least `gain` and fees of at most half of it.
  lemma HalvesBy(before: int, fee: int, gain: int, x: int, after: int)
    requires gain >= before && gain >= 2 * x && fee <= x && after == before + fee - gain
    ensures 2 * after <= before
    ensures before <= x ==> after <= 0
  {
  }

  // Adding inputs for a shortfall at least halves it, when each is worth twice what it costs.
  lemma Products(step: int, d: int)
    requires step > 0 && d >= 1
    ensures step * d >= step && 2 * step * d == 2 * (step * d)
  {
  }

  lemma ShortfallHalves(us: seq<Utxo>, outputSum: int, rule: FeeRule, step: int, k: nat, n: nat)
    requires step > 0 && FeeStep(rule, step) && WorthAtLeast(us, k, 2 * step)
    requires k < n && FirstReaching(us, k, outputSum + rule.Fee(k), n)
    ensures 2 * Shortfall(us, outputSum, rule, n) <= Shortfall(us, outputSum, rule, k)
    ensures Shortfall(us, outputSum, rule, k) <= step ==> Shortfall(us, outputSum, rule, n) <= 0
  {
    hide Total, FeeRule.Fee;
    FeeSteps(rule, step, k, n);
    TotalAtLeast(us, 2 * step, k, n);
    var x := step * (n - k);
    assert x >= step && 2 * step * (n - k) == 2 * x by { Products(step, n - k); }
    HalvesBy(Shortfall(us, outputSum, rule, k), rule.Fee(n) - rule.Fee(k), Total(us[..n]) - Total(us[..k]), x,
             Shortfall(us, outputSum, rule, n));
  }

  function Pow2(r: nat): nat {
    if r == 0 then 1 else 2 * Pow2(r - 1)
  }

  /** When every further output is worth at least twice what it adds to the fee, the rounds are few: one more than
      it takes to halve the shortfall down to what one input adds. */
  lemma {:induction false} RoundsBounded(us: seq<Utxo>, outputSum: int, rule: FeeRule, step: int, k: nat, r: nat)
    requires step > 0 && FeeStep(rule, step) && k <= |us| && WorthAtLeast(us, k, 2 * step)
    requires Shortfall(us, outputSum, rule, k) <= step * Pow2(r)
    ensures Rounds(us, outputSum, rule, k) <= r + 1
    decreases r, |us| - k
  {
    hide Total, FeeRule.Fee;
    var need := outputSum + rule.Fee(k);
    ReachIs(us, k, need);
    if Reach(us, k, need).Some? && Reach(us, k, need).value > k {
      var n := Reach(us, k, need).value;
      ShortfallHalves(us, outputSum, rule, step, k, n);
      if r == 0 {
        assert Total(us[..n]) >= outputSum + rule.Fee(n);
        OneRound(us, outputSum, rule, n, n);
      } else {
        assert 2 * (step * Pow2(r - 1)) == step * Pow2(r);
        RoundsBounded(us, outputSum, rule, step, n, r - 1);
      }
    }
  }

  // What one more input adds to the fee at the most, in whole koinu.
  function StepOf(rule: FeeRule): int {
    -((-148.0 * rule.PerByte()).Floor)
  }

  lemma RoundStep(x: real, y: real, z: real)
    requires 0.0 <= x <= y <= x + z
    ensures Round(y) <= Round(x) - (-z).Floor
  {
    assert (y + 0.5).Floor <= (x + 0.5).Floor - (-z).Floor;
  }

  lemma FeeStepOf(rule: FeeRule)
    requires rule.maxFee >= 0.0
    ensures FeeStep(rule, StepOf(rule)) && StepOf(rule) >= 148 * FEE_PER_BYTE
  {
    var p := rule.PerByte();
    assert p >= FEE_PER_BYTE as real;
    assert -148.0 * p <= -148_000.0;
    forall n: nat ensures rule.Fee(n + 1) <= rule.Fee(n) + StepOf(rule) {
      if rule.fixedFee <= 0.0 {
        var a, b := ForSize(p, SizeOfP2PKH(n, rule.nOut + 1)), ForSize(p, SizeOfP2PKH(n + 1, rule.nOut + 1));
        assert b == a + 148.0 * p;
        RoundStep(Limited(a, rule.maxFee), Limited(b, rule.maxFee), 148.0 * p);
      }
    }
  }

  /** Ten rounds are always enough when every output past the first selection is worth at least twice what one input
      adds to the fee, and the first selection falls short by at most 512 times that. At the least
      rate of 1000 koinu a byte these are 296,000 and 75,776,000 koinu. */
  lemma TenRoundsSuffice(us: seq<Utxo>, outputSum: int, rule: FeeRule, k: nat)
    requires rule.maxFee >= 0.0 && k <= |us| && WorthAtLeast(us, k, 2 * StepOf(rule))
    requires Shortfall(us, outputSum, rule, k) <= 512 * StepOf(rule)
    ensures Rounds(us, outputSum, rule, k) <= MAX_ATTEMPTS
  {
    hide Total, FeeRule.Fee, StepOf;
    FeeStepOf(rule);
    assert Pow2(9) == 512;
    RoundsBounded(us, outputSum, rule, StepOf(rule), k, 9);
  }

  // ------------------------------------------------ giving up beside a feasible number

  /** One large output, forty that barely pay for themselves, and a very large one. */
  function Trap(v: int): seq<Utxo> {
    seq(42, i requires 0 <= i < 42 => Utxo(Outpoint("", i), if i == 0 then 100_000_000 else if i < 41 then v else 10_000_000_000, true))
  }

  const DEFAULT_RULE := FeeRule(None, 0.0, RECOMMENDED_MAX_FEE as real, 1)

  lemma DefaultFee(n: nat)
    requires n <= 42
    ensures DEFAULT_RULE.Fee(n) == if n <= 6 then 1_000_000 else 78_000 + 148_000 * n
  {
    var size := SizeOfP2PKH(n, 2);
    assert ForSize(1_000.0, size) == (78_000 + 148_000 * n) as real;
    RoundWhole(1_000_000);
    RoundWhole(78_000 + 148_000 * n);
  }

  lemma {:induction false} TrapTotal(v: int, n: nat)
    requires 1 <= n <= 42
    ensures Total(Trap(v)[..n]) == 100_000_000 + v * (if n < 42 then n - 1 else 40) + if n < 42 then 0 else 10_000_000_000
  {
    TotalGrows(Trap(v), n - 1);
    if n > 1 {
      TrapTotal(v, n - 1);
    }
  }

  lemma TrapSize(v: int)
    ensures |Trap(v)| == 42
  {
  }

  lemma FirstIs(us: seq<Utxo>, k: nat, amount: int, n: nat)
    requires k <= n <= |us| && forall m | k <= m <= n :: Total(us[..m]) >= amount <==> m == n
    ensures FirstReaching(us, k, amount, n)
  {
  }

  lemma TrapAmounts(v: int, k: nat, m: nat)
    requires 147_000 <= v <= 148_000
    ensures k == 1 && 1 <= m <= 8 ==> (v * (m - 1) >= 1_000_000 <==> m == 8)
    ensures 8 <= k <= 26 && k <= m <= k + 2 ==> (v * (m - 1) >= 78_000 + 148_000 * k <==> m == k + 2)
  {
    if k == 1 && 1 <= m <= 7 { assert v * (m - 1) <= 148_000 * (m - 1); }
    if 8 <= k <= 26 && m <= k + 1 && m >= k { assert v * (m - 1) <= 148_000 * (m - 1); }
    if 8 <= k <= 26 && m == k + 2 { assert v * (k + 1) >= 147_000 * (k + 1); }
  }

  // Each round adds two inputs, and the fee for them asks for two more.
  lemma TrapRound(v: int, k: nat)
    requires 147_000 <= v <= 148_000 && (k == 1 || 8 <= k <= 26)
    ensures FirstReaching(Trap(v), k, 100_000_000 + DEFAULT_RULE.Fee(k), if k == 1 then 8 else k + 2)
  {
    var n := if k == 1 then 8 else k + 2;
    hide *;
    DefaultFee(k);
    TrapSize(v);
    forall m | k <= m <= n
      ensures Total(Trap(v)[..m]) >= 100_000_000 + DEFAULT_RULE.Fee(k) <==> m == n
    {
      TrapTotal(v, m);
      TrapAmounts(v, k, m);
    }
    FirstIs(Trap(v), k, 100_000_000 + DEFAULT_RULE.Fee(k), n);
  }

  lemma TrapRounds(v: int, k: nat, r: nat)
    requires 147_000 <= v <= 148_000 && 8 <= k && k + 2 * r == 28
    ensures Rounds(Trap(v), 100_000_000, DEFAULT_RULE, k) >= r
    decreases r
  {
    if r > 0 {
      TrapRound(v, k);
      OneRound(Trap(v), 100_000_000, DEFAULT_RULE, k, k + 2);
      TrapRounds(v, k + 2, r - 1);
    }
  }

  lemma TrapFeasible(v: int, m: nat)
    requires 147_000 <= v <= 148_000 && m <= 42
    ensures Feasible(Trap(v), 100_000_000, DEFAULT_RULE, m) <==> m == 42
  {
    hide Total, FeeRule.Fee, Trap;
    TrapSize(v);
    DefaultFee(m);
    if m > 0 {
      TrapTotal(v, m);
      if m < 42 { assert v * (m - 1) <= 148_000 * (m - 1); }
    } else {
      assert Trap(v)[..0] == [] && Total([]) == 0 by { NoneTotal(); }
    }
  }

  lemma NoneTotal()
    ensures Total([]) == 0
  {
  }

  /** Giving up can hide a feasible number of inputs, even when every output is worth what it adds to the fee (148,000):
      eleven rounds end at 28 inputs, and 42 are feasible. */
  lemma TooFewRounds(v: int)
    requires 147_000 <= v <= 148_000
    ensures FirstReaching(Trap(v), 0, 100_000_000, 1) && Rounds(Trap(v), 100_000_000, DEFAULT_RULE, 1) > MAX_ATTEMPTS
    ensures LeastFeasible(Trap(v), 100_000_000, DEFAULT_RULE, 42) && Total(Trap(v)) > 10_100_000_000
  {
    TrapTotal(v, 1);
    hide FeeRule.Fee;
    assert Trap(v)[..0] == [];
    TrapRound(v, 1);
    OneRound(Trap(v), 100_000_000, DEFAULT_RULE, 1, 8);
    TrapRounds(v, 8, 10);
    forall m: nat | m <= 42 ensures Feasible(Trap(v), 100_000_000, DEFAULT_RULE, m) <==> m == 42 {
      TrapFeasible(v, m);
    }
    TrapTotal(v, 42);
    assert Trap(v)[..42] == Trap(v);
  }
}
