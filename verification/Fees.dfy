/** Fees and rounding, in koinu (10^-8 of a coin), and the inputs a fee calls for. */
module Fees {
  import opened Options
  import opened BlockTree

  const DUST_LIMIT: int := 1_000_000
  const RECOMMENDED_MIN_FEE: int := 1_000_000
  const RECOMMENDED_MAX_FEE: int := 100_000_000
  const FEE_PER_BYTE: int := 1_000
  const MAX_ATTEMPTS := 10

  // --------------------------------------------------------------- rounding

  /** Round to a whole koinu, halves away from zero. */
  function Round(x: real): (n: int)
    ensures -0.5 <= n as real - x <= 0.5
  {
    if x >= 0.0 then (x + 0.5).Floor else -((-x + 0.5).Floor)
  }

  lemma RoundMonotone(x: real, y: real)
    requires x <= y
    ensures Round(x) <= Round(y)
  {
  }

  lemma RoundWhole(n: int)
    ensures Round(n as real) == n
  {
  }

  // -------------------------------------------------------------------- fees

  // Size of a P2PKH transaction.
  function SizeOfP2PKH(nIn: nat, nOut: nat): int {
    10 + 148 * nIn + 34 * nOut
  }

  function ForSize(perByte: real, size: int): real {
    perByte * size as real
  }

  function Max(x: real, y: real): real { if x < y then y else x }
  function Min(x: real, y: real): real { if y < x then y else x }

  // At least the recommended minimum, at most maxFee.
  function Limited(fee: real, maxFee: real): real {
    Min(Max(fee, RECOMMENDED_MIN_FEE as real), maxFee)
  }

  /** What decides a fee besides the inputs; perKB is Core's estimate, if it gave one. */
  datatype FeeRule = FeeRule(perKB: Option<real>, fixedFee: real, maxFee: real, nOut: nat) {
    function PerByte(): real {
      if perKB.Some? then Max(perKB.value / 1000.0, FEE_PER_BYTE as real) else FEE_PER_BYTE as real
    }

    /** The fee of a transaction with nIn inputs, and a change output besides the nOut outputs. */
    function Fee(nIn: nat): int {
      if fixedFee > 0.0 then Round(fixedFee)
      else
        Round(Limited(ForSize(PerByte(), SizeOfP2PKH(nIn, nOut + 1)), maxFee))
    }
  }

  lemma ProductMonotone(x: real, y: real, factor: real)
    requires x <= y && factor >= 0.0
    ensures x * factor <= y * factor
  {
    ProductNonNegative(y - x, factor);
    assert y * factor - x * factor == (y - x) * factor;
  }

  lemma ProductNonNegative(x: real, y: real)
    requires x >= 0.0 && y >= 0.0
    ensures x * y >= 0.0
  {
  }

  lemma ForSizeMonotone(perByte: real, m: nat, n: nat, nOut: nat)
    requires perByte >= 0.0 && m <= n
    ensures ForSize(perByte, SizeOfP2PKH(m, nOut)) <= ForSize(perByte, SizeOfP2PKH(n, nOut))
  {
    var x, y := SizeOfP2PKH(m, nOut), SizeOfP2PKH(n, nOut);
    ProductMonotone(x as real, y as real, perByte);
    assert perByte * x as real == x as real * perByte && perByte * y as real == y as real * perByte;
  }

  lemma RoundedMonotone(x: real, y: real, maxFee: real)
    requires x <= y
    ensures Round(Limited(x, maxFee)) <= Round(Limited(y, maxFee))
    ensures maxFee >= 0.0 ==> Round(Limited(x, maxFee)) >= 0
  {
    RoundMonotone(Limited(x, maxFee), Limited(y, maxFee));
  }

  /** More inputs never cost less, and no fee is negative. */
  lemma FeeMonotone(rule: FeeRule, m: nat, n: nat)
    requires m <= n
    ensures rule.Fee(m) <= rule.Fee(n)
    ensures rule.maxFee >= 0.0 ==> rule.Fee(m) >= 0
  {
    hide Round, Limited, SizeOfP2PKH, ForSize;
    if rule.fixedFee > 0.0 {
      RoundWhole(0);
      RoundMonotone(0.0, rule.fixedFee);
    } else {
      var p, nOut := rule.PerByte(), rule.nOut + 1;
      ForSizeMonotone(p, m, n, nOut);
      RoundedMonotone(ForSize(p, SizeOfP2PKH(m, nOut)), ForSize(p, SizeOfP2PKH(n, nOut)), rule.maxFee);
    }
  }

  /** Without a fixed fee, a fee lies between the recommended minimum and the maximum, whichever is less stopping it. */
  lemma FeeBounds(rule: FeeRule, n: nat)
    requires rule.fixedFee <= 0.0
    ensures rule.Fee(n) <= Round(rule.maxFee)
    ensures rule.maxFee >= RECOMMENDED_MIN_FEE as real ==> rule.Fee(n) >= RECOMMENDED_MIN_FEE
  {
    var fee := Limited(ForSize(rule.PerByte(), SizeOfP2PKH(n, rule.nOut + 1)), rule.maxFee);
    RoundMonotone(fee, rule.maxFee);
    RoundWhole(RECOMMENDED_MIN_FEE);
    if rule.maxFee >= RECOMMENDED_MIN_FEE as real { RoundMonotone(RECOMMENDED_MIN_FEE as real, fee); }
  }

  // Dividing by 1000 before or after multiplying.
  lemma PerThousand(x: real, y: real, n: int)
    requires x == y / 1000.0
    ensures 1000.0 * (x * n as real) == y * n as real
  {
    assert y == 1000.0 * x;
    assert (1000.0 * x) * n as real == 1000.0 * (x * n as real);
  }

  lemma RateIs(rule: FeeRule, size: int)
    requires size >= 0
    ensures match rule.perKB
            case Some(k) => 1000.0 * ForSize(rule.PerByte(), size) == (if k >= 1_000_000.0 then k else 1_000_000.0) * size as real
            case None => ForSize(rule.PerByte(), size) == 1000.0 * size as real
  {
    match rule.perKB
    case Some(k) =>
      var rate := if k >= 1_000_000.0 then k else 1_000_000.0;
      assert rule.PerByte() == rate / 1000.0;
      PerThousand(rule.PerByte(), rate, size);
    case None =>
  }

  /** What a fee is, in koinu. A fixed one is rounded. Otherwise, between the limits of 0.01 coins and the given maximum, it is
      Core's estimate per 1000 bytes for 10 bytes and 148 for each input and 34 for each output, to half a koinu; without an
      estimate, or with one below 1000 koinu per byte, it is exactly that rate. */
  lemma FeeIs(rule: FeeRule, n: nat)
    ensures var size := 10 + 148 * n + 34 * (rule.nOut + 1);
            if rule.fixedFee > 0.0 then rule.Fee(n) == (rule.fixedFee + 0.5).Floor
            else 1_000_000 < rule.Fee(n) && rule.Fee(n) as real < rule.maxFee - 0.5 ==>
              match rule.perKB
              case Some(k) =>
                if k >= 1_000_000.0 then -500.0 <= 1000.0 * rule.Fee(n) as real - k * size as real <= 500.0 else rule.Fee(n) == 1000 * size
              case None => rule.Fee(n) == 1000 * size
  {
    if rule.fixedFee <= 0.0 {
      var size := SizeOfP2PKH(n, rule.nOut + 1);
      var raw := ForSize(rule.PerByte(), size);
      RateIs(rule, size);
      hide ForSize;
      RoundWhole(1_000_000);
      RoundWhole(1000 * size);
    }
  }

  /** At the limits: below 0.01 coins the fee is that, unless the maximum is less; and above the maximum it is the maximum. */
  lemma FeeAtLimits(rule: FeeRule, n: nat)
    requires rule.fixedFee <= 0.0
    ensures var size := 10 + 148 * n + 34 * (rule.nOut + 1);
            var perKB := if rule.perKB.Some? && rule.perKB.value >= 1_000_000.0 then rule.perKB.value else 1_000_000.0;
            && (perKB * size as real <= 1_000_000_000.0 && rule.maxFee >= 1_000_000.0 ==> rule.Fee(n) == 1_000_000)
            && (perKB * size as real >= 1000.0 * rule.maxFee || rule.maxFee < 1_000_000.0 ==>
                  -0.5 <= rule.Fee(n) as real - rule.maxFee <= 0.5)
  {
    var size := SizeOfP2PKH(n, rule.nOut + 1);
    RateIs(rule, size);
    hide ForSize;
    RoundWhole(1_000_000);
  }

  lemma FixedFee(rule: FeeRule, m: nat, n: nat)
    ensures rule.fixedFee > 0.0 ==> rule.Fee(m) == rule.Fee(n)
  {
  }

  // --------------------------------------------------------- which inputs to use

  datatype Utxo = Utxo(o: Outpoint, value: int, p2pkh: bool)

  function Total(us: seq<Utxo>): int {
    if us == [] then 0 else Total(us[..|us| - 1]) + us[|us| - 1].value
  }

  lemma TotalGrows(us: seq<Utxo>, n: nat)
    requires n < |us|
    ensures Total(us[..n + 1]) == Total(us[..n]) + us[n].value
  {
    assert us[..n + 1][..n] == us[..n];
  }

  /** The n first outputs of the list pay for the outputs and for the fee of a transaction with n inputs. */
  predicate Feasible(us: seq<Utxo>, outputSum: int, rule: FeeRule, n: nat) {
    n <= |us| && Total(us[..n]) >= outputSum + rule.Fee(n)
  }

  ghost predicate LeastFeasible(us: seq<Utxo>, outputSum: int, rule: FeeRule, n: nat) {
    Feasible(us, outputSum, rule, n) && forall m: nat | m < n :: !Feasible(us, outputSum, rule, m)
  }

  /** The first prefix, from k inputs upwards, that reaches an amount. */
  ghost predicate FirstReaching(us: seq<Utxo>, k: nat, amount: int, n: nat) {
    k <= n <= |us| && Total(us[..n]) >= amount && forall m | k <= m < n :: Total(us[..m]) < amount
  }

  ghost predicate NoneReaching(us: seq<Utxo>, k: nat, amount: int) {
    forall m | k <= m <= |us| :: Total(us[..m]) < amount
  }

  // No prefix with fewer than n inputs is feasible.
  ghost predicate NoneBelow(us: seq<Utxo>, outputSum: int, rule: FeeRule, n: nat) {
    forall m: nat | m < n :: !Feasible(us, outputSum, rule, m)
  }

  /** Growing from k inputs until the fee for k inputs is covered passes over no feasible prefix. */
  lemma GrowSkipsNothing(us: seq<Utxo>, outputSum: int, rule: FeeRule, k: nat, n: nat)
    requires NoneBelow(us, outputSum, rule, k) && FirstReaching(us, k, outputSum + rule.Fee(k), n)
    ensures NoneBelow(us, outputSum, rule, n)
  {
    forall m: nat | m < n ensures !Feasible(us, outputSum, rule, m) {
      if k <= m { FeeMonotone(rule, k, m); }
    }
  }

  /** When the whole list does not cover the fee for k inputs, no prefix is feasible at all. */
  lemma NoneReachingNoneFeasible(us: seq<Utxo>, outputSum: int, rule: FeeRule, k: nat, m: nat)
    requires NoneBelow(us, outputSum, rule, k) && NoneReaching(us, k, outputSum + rule.Fee(k))
    ensures !Feasible(us, outputSum, rule, m)
  {
    if k <= m { FeeMonotone(rule, k, m); }
  }

  /** The first selection covers the outputs only; it passes over no feasible prefix either. */
  lemma FirstSelection(us: seq<Utxo>, outputSum: int, rule: FeeRule, n: nat)
    requires rule.maxFee >= 0.0
    ensures FirstReaching(us, 0, outputSum, n) ==> NoneBelow(us, outputSum, rule, n)
    ensures NoneReaching(us, 0, outputSum) ==> !Feasible(us, outputSum, rule, n)
  {
    forall m: nat ensures rule.Fee(m) >= 0 {
      FeeMonotone(rule, m, m);
    }
  }

  // -------------------------------------------------------------- whole amounts

  function Floors(amounts: seq<real>): int {
    if amounts == [] then 0 else Floors(amounts[..|amounts| - 1]) + amounts[|amounts| - 1].Floor
  }

  function RealSum(amounts: seq<real>): real {
    if amounts == [] then 0.0 else RealSum(amounts[..|amounts| - 1]) + amounts[|amounts| - 1]
  }

  predicate Whole(x: real) {
    x.Floor as real == x
  }

  /** The sum that inputs are selected for and the sum that is paid out agree exactly when every amount is whole. */
  lemma {:induction false} FloorsAgreeIff(amounts: seq<real>)
    ensures Floors(amounts) as real <= RealSum(amounts)
    ensures Floors(amounts) as real == RealSum(amounts) <==> forall i | 0 <= i < |amounts| :: Whole(amounts[i])
  {
    if amounts != [] {
      var n := |amounts| - 1;
      FloorsAgreeIff(amounts[..n]);
      assert forall i | 0 <= i < n :: amounts[..n][i] == amounts[i];
    }
  }
}
