/** The size that fees are computed from, against the encoding of the transactions it stands for. */
module Sizes {
  import opened Options
  import opened Codec
  import opened RoundTrip
  import Fees

  // A signature and a compressed public key, each after its length: the largest script that spends a P2PKH output.
  const SPEND_SCRIPT := 107
  const P2PKH_SCRIPT := 25

  /** A transaction that pays P2PKH outputs from P2PKH outputs. */
  predicate IsP2PKH(t: RawTx) {
    && t.form == Legacy
    && (forall i | 0 <= i < |t.vin| :: |t.vin[i].txid| == 32 && |t.vin[i].script| <= SPEND_SCRIPT)
    && (forall i | 0 <= i < |t.vout| :: |t.vout[i].script| == P2PKH_SCRIPT)
  }

  /** By how many bytes the signatures together fall short of their full length. */
  function Missing(vin: seq<TxIn>): int {
    if vin == [] then 0 else SPEND_SCRIPT - |vin[0].script| + Missing(vin[1..])
  }

  /** The bytes a count takes beyond the first. */
  function ExtraBytes(n: nat): nat {
    if n < 253 then 0 else if n < 0x1_0000 then 2 else if n < 0x1_0000_0000 then 4 else 8
  }

  lemma {:induction false} InsLength(vin: seq<TxIn>)
    requires forall i | 0 <= i < |vin| :: |vin[i].txid| == 32 && |vin[i].script| <= SPEND_SCRIPT
    ensures |Concat(EncodeTxIn, vin)| == 148 * |vin| - Missing(vin) && Missing(vin) >= 0
    ensures Missing(vin) == 0 <==> forall i | 0 <= i < |vin| :: |vin[i].script| == SPEND_SCRIPT
  {
    if vin != [] {
      InsLength(vin[1..]);
      assert |EncodeTxIn(vin[0])| == 41 + |vin[0].script|;
      assert |Concat(EncodeTxIn, vin)| == |EncodeTxIn(vin[0])| + |Concat(EncodeTxIn, vin[1..])|;
      assert forall i | 0 <= i < |vin| - 1 :: vin[1..][i] == vin[i + 1];
      if forall i | 0 <= i < |vin[1..]| :: |vin[1..][i].script| == SPEND_SCRIPT {
        assert forall i | 0 < i < |vin| :: vin[i] == vin[1..][i - 1];
      }
    }
  }

  lemma {:induction false} OutsLength(vout: seq<TxOut>)
    requires forall i | 0 <= i < |vout| :: |vout[i].script| == P2PKH_SCRIPT
    ensures |Concat(EncodeTxOut, vout)| == 34 * |vout|
  {
    if vout != [] {
      OutsLength(vout[1..]);
      assert |EncodeTxOut(vout[0])| == 34;
      assert |Concat(EncodeTxOut, vout)| == |EncodeTxOut(vout[0])| + |Concat(EncodeTxOut, vout[1..])|;
    }
  }

  /** How far the size fees are computed from is off: it counts every signature in full and one byte for each count. It is
      the size of the encoding if and only if the signatures fall short by as much as the counts take beyond one byte each;
      for up to 252 inputs and outputs it is never too small, and exact if and only if every signature has its full length. */
  lemma SizeIsEncoding(t: RawTx)
    requires IsP2PKH(t)
    ensures |EncodeTx(t)| == Fees.SizeOfP2PKH(|t.vin|, |t.vout|) - Missing(t.vin) + ExtraBytes(|t.vin|) + ExtraBytes(|t.vout|)
    ensures |EncodeTx(t)| == Fees.SizeOfP2PKH(|t.vin|, |t.vout|) <==> Missing(t.vin) == ExtraBytes(|t.vin|) + ExtraBytes(|t.vout|)
    ensures |t.vin| <= 252 && |t.vout| <= 252 ==>
              && |EncodeTx(t)| <= Fees.SizeOfP2PKH(|t.vin|, |t.vout|)
              && (|EncodeTx(t)| == Fees.SizeOfP2PKH(|t.vin|, |t.vout|)
                  <==> forall i | 0 <= i < |t.vin| :: |t.vin[i].script| == SPEND_SCRIPT)
  {
    InsLength(t.vin);
    OutsLength(t.vout);
    hide Concat, EncodeTxIn, EncodeTxOut, LeBytes;
    assert |EncodeTx(t)| == 8 + |VarBytes(|t.vin|)| + |Concat(EncodeTxIn, t.vin)| + |VarBytes(|t.vout|)| + |Concat(EncodeTxOut, t.vout)|;
  }

  lemma SmallSize(t: RawTx)
    requires IsP2PKH(t) && |t.vin| <= 252 && |t.vout| <= 252
    ensures |EncodeTx(t)| + Missing(t.vin) == 10 + 148 * |t.vin| + 34 * |t.vout|
    ensures (forall i | 0 <= i < |t.vin| :: |t.vin[i].script| == 107) ==> Missing(t.vin) == 0
  {
    SizeIsEncoding(t);
    InsLength(t.vin);
    hide EncodeTx, Missing;
  }

  /** So, within the limits, the fee of a transaction with up to 252 inputs and outputs and full signatures is Core's estimate
      for its encoded size, to half a koinu; with shorter signatures it is for so many bytes more. */
  lemma FeeIsForEncoding(rule: Fees.FeeRule, t: RawTx, k: real)
    requires IsP2PKH(t) && |t.vin| <= 252 && |t.vout| == rule.nOut + 1 <= 252
    requires rule.fixedFee <= 0.0 && rule.perKB == Some(k) && k >= 1_000_000.0
    requires 1_000_000 < rule.Fee(|t.vin|) && rule.Fee(|t.vin|) as real < rule.maxFee - 0.5
    ensures -500.0 <= 1000.0 * rule.Fee(|t.vin|) as real - k * (|EncodeTx(t)| + Missing(t.vin)) as real <= 500.0
    ensures (forall i | 0 <= i < |t.vin| :: |t.vin[i].script| == 107) ==>
              -500.0 <= 1000.0 * rule.Fee(|t.vin|) as real - k * |EncodeTx(t)| as real <= 500.0
  {
    hide *;
    SmallSize(t);
    Fees.FeeIs(rule, |t.vin|);
  }
}
