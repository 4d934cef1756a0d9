/** The four-height life cycle of a row of the `utxo` table, and what one block,
    one confirmation pass and one rollback do to the whole table. */
module Ledger {
  import opened Options
  import opened BlockTree

  type AccountId = string

  // added_height, spendable_height, spending_height, spent_height
  datatype Heights = Heights(added: Option<int>, spendable: Option<int>, spending: Option<int>, spent: Option<int>)

  const NO_HEIGHTS := Heights(None, None, None, None)

  datatype UtxoRow = UtxoRow(value: int, address: Address, account: AccountId, keyIndex: nat, internal: bool,
                             heights: Heights, spendTx: Option<TxId>, payment: Option<int>)

  datatype AddressRow = AddressRow(account: AccountId, keyIndex: nat, internal: bool)

  type UtxoTable = map<Outpoint, UtxoRow>
  type AddressTable = map<Address, AddressRow>

  /** What decides the heights besides the chain: who owns an address, how many
      confirmations an invoice asks for, and the configured number of confirmations. */
  datatype Env = Env(owners: AddressTable, confs: map<Address, int>, dflt: int)

  function ConfOf(env: Env, a: Address): int {
    if a in env.confs then env.confs[a] else env.dflt
  }

  function HeightsOf(u: UtxoTable, o: Outpoint): Heights {
    if o in u then u[o].heights else NO_HEIGHTS
  }

  // ------------------------------------------------ the changes in one block

  datatype Change =
    | New(o: Outpoint, value: int, address: Address, height: int)
    | Spent(o: Outpoint, height: int, spender: TxId)

  function SpendChanges(vin: seq<Outpoint>, height: int, id: TxId): seq<Change> {
    if vin == [] then []
    else
      var last := vin[|vin| - 1];
      SpendChanges(vin[..|vin| - 1], height, id) +
      if last.vout != COINBASE_VOUT then [Spent(last, height, id)] else []
  }

  predicate Pays(out: TxOut) {
    out.value > 0 && out.payee.Some?
  }

  function NewChanges(vout: seq<TxOut>, height: int, id: TxId): seq<Change> {
    if vout == [] then []
    else
      var n := |vout| - 1;
      NewChanges(vout[..n], height, id) +
      if Pays(vout[n]) then [New(Outpoint(id, n), vout[n].value, vout[n].payee.value, height)] else []
  }

  /** The changes of a block, in the order the block lists its transactions. */
  function BlockChanges(w: World, ids: seq<TxId>, height: int): seq<Change>
    requires forall i | 0 <= i < |ids| :: ids[i] in w.txs
  {
    if ids == [] then []
    else
      var id := ids[|ids| - 1];
      BlockChanges(w, ids[..|ids| - 1], height)
      + (SpendChanges(w.txs[id].vin, height, id) + NewChanges(w.txs[id].vout, height, id))
  }

  // ------------------------------------------------------ applying the changes

  /** CreateUTXO: insert, or on conflict overwrite everything but the later heights and the reservation. */
  function Upsert(u: UtxoTable, o: Outpoint, value: int, address: Address, owner: AddressRow, height: int): UtxoTable {
    var base := if o in u then u[o] else UtxoRow(0, "", "", 0, false, NO_HEIGHTS, None, None);
    u[o := base.(value := value, address := address, account := owner.account, keyIndex := owner.keyIndex,
                 internal := owner.internal, heights := base.heights.(added := Some(height)))]
  }

  function MarkSpent(u: UtxoTable, o: Outpoint, height: int, spender: TxId): UtxoTable {
    if o in u then u[o := u[o].(heights := u[o].heights.(spending := Some(height)), spendTx := Some(spender))] else u
  }

  /** MarkUTXOReserved: note the payment an output is kept for. */
  function Reserved(u: UtxoTable, o: Outpoint, payment: int): UtxoTable {
    if o in u then u[o := u[o].(payment := Some(payment))] else u
  }

  function ApplyOne(u: UtxoTable, owners: AddressTable, ch: Change): UtxoTable {
    match ch
    case New(o, value, address, height) =>
      if address in owners then Upsert(u, o, value, address, owners[address], height) else u
    case Spent(o, height, spender) => MarkSpent(u, o, height, spender)
  }

  function Apply(u: UtxoTable, owners: AddressTable, chs: seq<Change>): UtxoTable {
    if chs == [] then u
    else ApplyOne(Apply(u, owners, chs[..|chs| - 1]), owners, chs[|chs| - 1])
  }

  lemma {:induction false} ApplyConcat(u: UtxoTable, owners: AddressTable, a: seq<Change>, b: seq<Change>)
    ensures Apply(u, owners, a + b) == Apply(Apply(u, owners, a), owners, b)
  {
    if b == [] {
      assert a + b == a;
    } else {
      var n := |b| - 1;
      assert (a + b)[..|a + b| - 1] == a + b[..n];
      ApplyConcat(u, owners, a, b[..n]);
    }
  }

  // ----------------------------------------------------------- confirmation

  function ConfirmSpendable(r: UtxoRow, conf: int, tip: int): UtxoRow {
    if r.heights.added.Some? && r.heights.added.value + conf <= tip && r.heights.spendable == None
    then r.(heights := r.heights.(spendable := Some(r.heights.added.value + conf)))
    else r
  }

  function ConfirmSpent(r: UtxoRow, conf: int, tip: int): UtxoRow {
    if r.heights.spending.Some? && r.heights.spending.value + conf <= tip && r.heights.spent == None
    then r.(heights := r.heights.(spent := Some(r.heights.spending.value + conf)))
    else r
  }

  /** ConfirmUTXOs at the given height: outputs become spendable, spends become final. */
  function Confirm(u: UtxoTable, env: Env, tip: int): UtxoTable {
    map o | o in u :: ConfirmSpent(ConfirmSpendable(u[o], ConfOf(env, u[o].address), tip), env.dflt, tip)
  }

  // --------------------------------------------------------------- rollback

  predicate Above(h: Option<int>, m: int) {
    h.Some? && h.value > m
  }

  datatype Stage = Added | Spendable | Spending | Final

  function StageHeight(st: Stage, h: Heights): Option<int> {
    match st
    case Added => h.added
    case Spendable => h.spendable
    case Spending => h.spending
    case Final => h.spent
  }

  /** The heights once a stage is undone: undoing a stage undoes every later one. */
  function Without(st: Stage, h: Heights): Heights {
    match st
    case Added => NO_HEIGHTS
    case Spendable => h.(spendable := None, spending := None, spent := None)
    case Spending => h.(spending := None, spent := None)
    case Final => h.(spent := None)
  }

  /** One revert UPDATE on one row. */
  function RevertStage(st: Stage, r: UtxoRow, m: int): UtxoRow {
    if Above(StageHeight(st, r.heights), m) then r.(heights := Without(st, r.heights)) else r
  }

  /** The four revert UPDATEs, in order. */
  function RevertRow(r: UtxoRow, m: int): UtxoRow {
    RevertStage(Final, RevertStage(Spending, RevertStage(Spendable, RevertStage(Added, r, m), m), m), m)
  }

  function Revert(u: UtxoTable, m: int): UtxoTable {
    map o | o in u :: RevertRow(u[o], m)
  }

  // ------------------------------- the effect of a block on one row of the table

  /** What row o may become: unchanged, or with the given stage set to `height`. */
  ghost predicate RowEffect(u: UtxoTable, u': UtxoTable, o: Outpoint, created: bool, spends: bool, height: int)
  {
    && (o in u' <==> o in u || created)
    && HeightsOf(u', o) == HeightsOf(u, o).(
                             added := if created then Some(height) else HeightsOf(u, o).added,
                             spending := if spends && (o in u || created) then Some(height) else HeightsOf(u, o).spending)
    && (o in u && !created ==> u'[o] == u[o].(heights := u'[o].heights, spendTx := u'[o].spendTx))
    && (o in u ==> u'[o].payment == u[o].payment)
    && (o !in u && o in u' ==> u'[o].payment == None)
  }

  ghost predicate SameContent(r: UtxoRow, out: TxOut, owners: AddressTable)
  {
    && Pays(out) && r.value == out.value && r.address == out.payee.value && r.address in owners
    && AddressRow(r.account, r.keyIndex, r.internal) == owners[r.address]
  }

  /** Effects compose, as long as no row is spent before it is created. */
  lemma EffectTrans(u: UtxoTable, v: UtxoTable, w: UtxoTable, o: Outpoint, c1: bool, s1: bool, c2: bool, s2: bool, height: int)
    requires RowEffect(u, v, o, c1, s1, height) && RowEffect(v, w, o, c2, s2, height)
    requires s1 && c2 ==> o in u || c1
    ensures RowEffect(u, w, o, c1 || c2, s1 || s2, height)
  {
  }

  lemma ApplySingle(u: UtxoTable, owners: AddressTable, ch: Change)
    ensures Apply(u, owners, [ch]) == ApplyOne(u, owners, ch)
  {
    assert [ch][..0] == [];
    assert Apply(u, owners, [ch][..0]) == u;
  }

  lemma SpentOne(u: UtxoTable, owners: AddressTable, p: Outpoint, height: int, id: TxId, o: Outpoint)
    ensures RowEffect(u, Apply(u, owners, [Spent(p, height, id)]), o, false, o == p, height)
  {
    ApplySingle(u, owners, Spent(p, height, id));
  }

  lemma NewOne(u: UtxoTable, owners: AddressTable, p: Outpoint, out: TxOut, height: int, o: Outpoint)
    requires Pays(out)
    ensures var u' := Apply(u, owners, [New(p, out.value, out.payee.value, height)]);
            && RowEffect(u, u', o, o == p && out.payee.value in owners, false, height)
            && (o == p && out.payee.value in owners ==> SameContent(u'[o], out, owners))
  {
    ApplySingle(u, owners, New(p, out.value, out.payee.value, height));
  }

  lemma {:induction false} SpendEffect(u: UtxoTable, owners: AddressTable, vin: seq<Outpoint>, height: int, id: TxId, o: Outpoint)
    ensures RowEffect(u, Apply(u, owners, SpendChanges(vin, height, id)), o, false, o.vout != COINBASE_VOUT && o in vin, height)
  {
    if vin != [] {
      var n := |vin| - 1;
      var front := SpendChanges(vin[..n], height, id);
      SpendEffect(u, owners, vin[..n], height, id, o);
      assert vin == vin[..n] + [vin[n]];
      if vin[n].vout != COINBASE_VOUT {
        var last := [Spent(vin[n], height, id)];
        assert SpendChanges(vin, height, id) == front + last;
        ApplyConcat(u, owners, front, last);
        SpentOne(Apply(u, owners, front), owners, vin[n], height, id, o);
      } else {
        assert SpendChanges(vin, height, id) == front;
      }
    }
  }

  /** The follower keeps a row for output n of a transaction: it pays a known address. */
  predicate Keeps(vout: seq<TxOut>, n: int, owners: AddressTable) {
    0 <= n < |vout| && Pays(vout[n]) && vout[n].payee.value in owners
  }

  lemma {:induction false} NewEffect(u: UtxoTable, owners: AddressTable, vout: seq<TxOut>, height: int, id: TxId, o: Outpoint)
    ensures var u' := Apply(u, owners, NewChanges(vout, height, id));
            && RowEffect(u, u', o, o.txid == id && Keeps(vout, o.vout, owners), false, height)
            && (o.txid == id && Keeps(vout, o.vout, owners) ==> SameContent(u'[o], vout[o.vout], owners))
  {
    if vout != [] {
      var n := |vout| - 1;
      var front := NewChanges(vout[..n], height, id);
      var mid := Apply(u, owners, front);
      NewEffect(u, owners, vout[..n], height, id, o);
      assert Keeps(vout[..n], o.vout, owners) <==> Keeps(vout, o.vout, owners) && o.vout != n;
      if Pays(vout[n]) {
        var last := [New(Outpoint(id, n), vout[n].value, vout[n].payee.value, height)];
        assert NewChanges(vout, height, id) == front + last;
        ApplyConcat(u, owners, front, last);
        NewOne(mid, owners, Outpoint(id, n), vout[n], height, o);
        var c1 := o.txid == id && Keeps(vout[..n], o.vout, owners);
        EffectTrans(u, mid, Apply(mid, owners, last), o, c1, false, o == Outpoint(id, n) && Keeps(vout, n, owners), false, height);
      } else {
        assert NewChanges(vout, height, id) == front;
      }
    }
  }

  // Row o is created by one of the listed transactions.
  predicate CreatedBy(w: World, ids: seq<TxId>, o: Outpoint, owners: AddressTable)
  {
    o.txid in ids && o.txid in w.txs && Keeps(w.txs[o.txid].vout, o.vout, owners)
  }

  // Inside one block, a spend of a row the block creates comes after its creation.
  ghost predicate SpendsFollow(w: World, ids: seq<TxId>, o: Outpoint)
    requires forall i | 0 <= i < |ids| :: ids[i] in w.txs
  {
    o.txid in ids ==> forall i | 0 <= i < |ids| && o in w.txs[ids[i]].vin :: o.txid in ids[..i]
  }

  /** One block, seen from one outpoint: it sets at most the two on-chain stages. */
  lemma {:induction false} BlockEffect(w: World, u: UtxoTable, owners: AddressTable, ids: seq<TxId>, height: int, o: Outpoint)
    requires forall i | 0 <= i < |ids| :: ids[i] in w.txs
    requires Distinct(ids) && (o.vout != COINBASE_VOUT ==> SpendsFollow(w, ids, o))
    ensures var u' := Apply(u, owners, BlockChanges(w, ids, height));
            && RowEffect(u, u', o, CreatedBy(w, ids, o, owners), SpentBy(w, ids, o), height)
            && (CreatedBy(w, ids, o, owners) ==> SameContent(u'[o], w.txs[o.txid].vout[o.vout], owners))
  {
    if ids == [] {
    } else {
      var n := |ids| - 1;
      var id := ids[n];
      var tx := w.txs[id];
      assert ids == ids[..n] + [id];
      forall i | o.txid in ids[..n] && o.vout != COINBASE_VOUT && 0 <= i < n && o in w.txs[ids[..n][i]].vin
        ensures o.txid in ids[..n][..i]
      {
        assert ids[..n][i] == ids[i] && ids[..n][..i] == ids[..i];
      }
      BlockEffect(w, u, owners, ids[..n], height, o);
      var mid := Apply(u, owners, BlockChanges(w, ids[..n], height));
      var spends, news := SpendChanges(tx.vin, height, id), NewChanges(tx.vout, height, id);
      ApplyConcat(u, owners, BlockChanges(w, ids[..n], height), spends + news);
      ApplyConcat(mid, owners, spends, news);
      SpendEffect(mid, owners, tx.vin, height, id, o);
      NewEffect(Apply(mid, owners, spends), owners, tx.vout, height, id, o);
      SpentBySplit(w, ids, o);
    }
  }

  lemma SpentBySplit(w: World, ids: seq<TxId>, o: Outpoint)
    requires forall i | 0 <= i < |ids| :: ids[i] in w.txs
    requires ids != []
    ensures SpentBy(w, ids, o) <==>
            SpentBy(w, ids[..|ids| - 1], o) || (o.vout != COINBASE_VOUT && o in w.txs[ids[|ids| - 1]].vin)
  {
    var n := |ids| - 1;
    if SpentBy(w, ids, o) {
      var i :| 0 <= i < |ids| && o in w.txs[ids[i]].vin;
      assert i < n ==> ids[..n][i] == ids[i];
    }
    if SpentBy(w, ids[..n], o) {
      var i :| 0 <= i < n && o in w.txs[ids[..n][i]].vin;
      assert ids[..n][i] == ids[i];
    }
  }
}
