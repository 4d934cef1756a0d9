/** A run in which a batch repeats the transaction a paid invoice needs: after a resync to another branch that has it higher. */
module Repeats {
  import opened Options
  import opened BlockTree
  import opened Ledger
  import opened Confluence
  import opened Tables
  import opened Guarantees
  import opened Feed
  import opened Wallet
  import opened Backing
  import opened Service
  import Examples

  const DFLT := 2
  const O := Outpoint("t", 0)
  const POOL: AddressTable := map["A" := AddressRow("acct", 0, false)]
  const OPEN := InvoiceRow("acct", 5, 0, 0, None, None, false, None, None)
  const PAID := OPEN.(paidHeight := Some(1), blockId := Some("a"))

  const BLOCKS: map<Hash, Block> :=
    map["g" := Block("", 0, []), "a" := Block("g", 1, ["t"]), "b" := Block("g", 1, []), "c" := Block("b", 2, ["t"])]

  // Block a pays 5 koinu to the address of an invoice that asks for no confirmations; on the other branch block c does.
  function TheWorld(): World {
    World(BLOCKS, "g", map["t" := Tx([], [TxOut(5, Some("A"))])])
  }

  lemma TreeOk()
    ensures var w := TheWorld(); ValidTree(w) && forall h | h in w.blocks :: h == "g" || h == "a" || h == "b" || h == "c"
  {
    Examples.Names();
  }

  lemma WhenHit(q: Query)
    requires ValidTree(TheWorld())
    ensures var w := TheWorld();
            && LastHit(w, -1, "g", q) == None && LastHit(w, -1, "b", q) == None
            && forall h | h in w.blocks && Hits(w, h, q) :: h == "a" || h == "c"
  {
    var w := TheWorld();
    Examples.Names();
    forall h | h in w.blocks ensures Hits(w, h, q) <==> (h == "a" || h == "c") && q == HasTx("t") {
      assert h == "g" || h == "a" || h == "b" || h == "c";
    }
    hide Hits, LastHit, ValidTree;
    LastHitUnfold(w, "g", q);
    LastHitUnfold(w, "b", q);
  }

  lemma HappensOnce(q: Query)
    requires ValidTree(TheWorld())
    ensures AtMostOnce(TheWorld(), q)
  {
    WhenHit(q);
    hide LastHit, Hits;
    Examples.Names();
  }

  lemma InputsOk(h: Hash)
    requires ValidTree(TheWorld()) && h in TheWorld().blocks
    ensures InputsKnown(TheWorld(), h) && Distinct(TheWorld().blocks[h].txids)
  {
    hide LastHit, Hits;
    Examples.Names();
  }

  lemma WorldOk()
    ensures ValidWorld(TheWorld())
  {
    TreeOk();
    hide TheWorld, InputsKnown, AtMostOnce, Distinct, ValidTree;
    forall q: Query { HappensOnce(q); }
    forall h | h in TheWorld().blocks { InputsOk(h); }
  }

  // ---------------------------------------------------------------- the states

  function Row(added: int): UtxoRow {
    UtxoRow(5, "A", "acct", 0, false, Heights(Some(added), Some(1), None, None), None, None)
  }

  function Begin(): State { Start(EmptyDb(TheWorld(), "g", 1), "g") }

  // The tables once account and invoice are created.
  function Before(): Db {
    Db(map[], map["A" := OPEN], map[], map["acct" := AccountRow(0, 0, 0.0, 0)], POOL, ChainRow("g", 0, 1), 0)
  }

  function After(added: int, chainSeq: int, chain: ChainRow): Db {
    Db(map[O := Row(added)], map["A" := PAID], map[], map["acct" := AccountRow(0, 0, 0.0, chainSeq)], POOL, chain, 0)
  }

  ghost predicate Reached(w: World, start: State, s: State)
    requires ValidTree(w)
  {
    exists run :: AllowedRun(w, DFLT, start, run) && RunFrom(w, DFLT, start, run) == s
  }

  lemma NoStep(w: World, start: State)
    requires ValidTree(w)
    ensures Reached(w, start, start)
  {
    RunNone(w, DFLT, start);
  }

  lemma Step(w: World, start: State, s: State, mv: Move)
    requires ValidTree(w) && Reached(w, start, s) && Allowed(w, DFLT, s, mv)
    ensures Reached(w, start, Next(w, DFLT, s, mv))
  {
    hide ValidTree, AllowedRun, RunFrom, Allowed, Next;
    var run :| AllowedRun(w, DFLT, start, run) && RunFrom(w, DFLT, start, run) == s;
    RunNone(w, DFLT, Next(w, DFLT, s, mv));
    RunCons(w, DFLT, s, mv, []);
    RunsConcat(w, DFLT, start, run, [mv] + []);
  }

  lemma CreatedReached(w: World) returns (s: State)
    requires w == TheWorld() && ValidTree(w)
    ensures s.db == Before() && s.base in w.blocks && Reached(w, Begin(), s)
  {
    hide Reached;
    assert "acct" != "" by { assert "acct"[0] == 'a'; }
    NoStep(w, Begin());
    Step(w, Begin(), Begin(), CreateAccount("acct", POOL));
    Step(w, Begin(), AccountAdded(Begin(), "acct", POOL), CreateInvoice("A", OPEN, map[]));
    s := InvoiceAdded(AccountAdded(Begin(), "acct", POOL), "A", OPEN, map[]);
  }

  // ------------------------------------------------- following a block that holds t

  lemma ChangesOfT(h: int)
    ensures BlockChanges(TheWorld(), ["t"], h) == [New(O, 5, "A", h)]
  {
    var w, ids := TheWorld(), ["t"];
    var vout := w.txs["t"].vout;
    assert vout[..0] == [] && ids[..0] == [];
    assert NewChanges(vout, h, "t") == [New(O, 5, "A", h)];
  }

  lemma ChangesOf(w: World, from: Hash, b: Hash, h: int)
    requires w == TheWorld() && ValidTree(w) && ((from, b, h) == ("g", "a", 1) || (from, b, h) == ("b", "c", 2))
    ensures IsPath(w, from, [b]) && PathChanges(w, [b]) == [New(O, 5, "A", h)]
  {
    Examples.Names();
    ChangesOfT(h);
    assert [b][..0] == [];
    assert w.blocks[b].txids == ["t"] && w.blocks[b].height == h;
    hide BlockChanges;
    assert PathChanges(w, [b][..0]) == [];
  }

  // The row is added at the block's height, and spendable at once or as before.
  lemma RowsAfter(u: UtxoTable, env: Env, h: int)
    requires h >= 1 && ((u == map[] && h == 1) || u == map[O := Row(1)]) && env == Env(POOL, map["A" := 0], DFLT)
    ensures Confirm(Apply(u, POOL, [New(O, 5, "A", h)]), env, h) == map[O := Row(h)]
  {
    ApplySingle(u, POOL, New(O, 5, "A", h));
    assert "A" in POOL;
    var mid := Upsert(u, O, 5, "A", POOL["A"], h);
    assert mid.Keys == {O};
    SameMap(Confirm(mid, env, h), map[O := Row(h)]);
  }

  lemma PaidByRow(h: int, inv: InvoiceRow, block: Hash)
    requires inv == OPEN || inv == PAID
    ensures MarkPaid(map[O := Row(h)], map["A" := inv], 1, "a")["A"] == PAID
    ensures inv == PAID ==> MarkPaid(map[O := Row(h)], map["A" := inv], 2, block) == map["A" := PAID]
  {
    var u: UtxoTable := map[O := Row(h)];
    assert PaidRows(u, "A") == {O};
    SumRemove(u, {O}, O);
    assert {O} - {O} == {};
  }

  // ------------------------------------------------------------- the three commits

  function Seqs(n: int): SeqMap { map["acct" := n] }

  lemma FirstReport()
    ensures var db, db' := Before(), After(1, 1, ChainRow("a", 1, 2));
            db.chain == ChainRow("g", 0, 1) && FreshSeqs(Seqs(1), 1, 2) && Reports(db, db', Seqs(1))
  {
    assert |Seqs(1)| == 1;
  }

  lemma LastReport()
    ensures var db, db' := After(1, 1, ChainRow("b", 1, 2)), After(2, 2, ChainRow("c", 2, 3));
            db.chain == ChainRow("b", 1, 2) && FreshSeqs(Seqs(2), 2, 3) && Reports(db, db', Seqs(2))
  {
    assert |Seqs(2)| == 1;
  }

  lemma FirstDb(w: World)
    ensures ForwardDb(w, DFLT, Before(), [New(O, 5, "A", 1)], ["t"], "a", 1, Seqs(1), 2) == After(1, 1, ChainRow("a", 1, 2))
  {
    var db := Before();
    SameMap(EnvOf(db, DFLT).confs, map["A" := 0]);
    hide Apply, Confirm, MarkPaid;
    RowsAfter(map[], EnvOf(db, DFLT), 1);
    PaidByRow(1, OPEN, "a");
    SameMap(IncSeq(db.account, Seqs(1)), map["acct" := AccountRow(0, 0, 0.0, 1)]);
  }

  lemma OneBlock(w: World, s: State, b: Hash, height: int, chs: seq<Change>, seqs: SeqMap, nextSeq: int, db': Db)
    requires ValidTree(w) && s.db.chain.bestHash in w.blocks && s.base in w.blocks
    requires b in w.blocks && w.blocks[b].height == height && IsPath(w, s.db.chain.bestHash, [b]) && PathChanges(w, [b]) == chs
    requires ForwardDb(w, DFLT, s.db, chs, ["t"], b, height, seqs, nextSeq) == db'
    requires FreshSeqs(seqs, s.db.chain.nextSeq, nextSeq) && Reports(s.db, db', seqs)
    ensures var mv := Forward([b], ["t"], seqs, nextSeq); Allowed(w, DFLT, s, mv) && Next(w, DFLT, s, mv) == s.(db := db')
  {
    hide ValidTree, ForwardDb, Reports, FreshSeqs, IsPath, PathChanges;
  }

  // What the commits need of the world.
  lemma HeightsHere(w: World)
    requires w == TheWorld()
    ensures {"g", "a", "b", "c"} <= w.blocks.Keys && w.blocks["a"].height == 1 && w.blocks["b"].height == 1 && w.blocks["c"].height == 2
  {
    Examples.Names();
  }

  lemma FollowsA(w: World, s: State)
    requires w == TheWorld() && ValidTree(w) && s.db == Before() && s.base in w.blocks
    ensures var mv := Forward(["a"], ["t"], Seqs(1), 2);
            Allowed(w, DFLT, s, mv) && Next(w, DFLT, s, mv) == s.(db := After(1, 1, ChainRow("a", 1, 2)))
  {
    hide *;
    HeightsHere(w);
    ChangesOf(w, "g", "a", 1);
    FirstDb(w);
    FirstReport();
    OneBlock(w, s, "a", 1, [New(O, 5, "A", 1)], Seqs(1), 2, After(1, 1, ChainRow("a", 1, 2)));
  }

  lemma RolledDb()
    ensures var db, db' := After(1, 1, ChainRow("a", 1, 2)), After(1, 1, ChainRow("b", 1, 2));
            RollbackDb(db, "b", 1, map[], 2) == db' && Reports(db, db', map[]) && FreshSeqs(map[], 2, 2)
  {
    var db := After(1, 1, ChainRow("a", 1, 2));
    var db' := RollbackDb(db, "b", 1, map[], 2);
    assert db'.utxo == db.utxo && db'.invoice == db.invoice && db'.account == db.account && db'.payment == db.payment;
  }

  lemma ResyncsToB(w: World, s: State)
    requires w == TheWorld() && ValidTree(w) && s.db == After(1, 1, ChainRow("a", 1, 2)) && s.base in w.blocks
    ensures var mv := Resync("b", map[], 2);
            && Allowed(w, DFLT, s, mv)
            && (var s' := Next(w, DFLT, s, mv); s'.db == After(1, 1, ChainRow("b", 1, 2)) && s'.base in w.blocks && s'.api == s.api)
  {
    HeightsHere(w);
    RolledDb();
    hide TheWorld, ValidTree, RollbackDb, Reports, FreshSeqs;
  }

  lemma LastDb(w: World)
    ensures ForwardDb(w, DFLT, After(1, 1, ChainRow("b", 1, 2)), [New(O, 5, "A", 2)], ["t"], "c", 2, Seqs(2), 3)
         == After(2, 2, ChainRow("c", 2, 3))
  {
    var db := After(1, 1, ChainRow("b", 1, 2));
    SameMap(EnvOf(db, DFLT).confs, map["A" := 0]);
    hide Apply, Confirm, MarkPaid;
    RowsAfter(map[O := Row(1)], EnvOf(db, DFLT), 2);
    PaidByRow(2, PAID, "c");
    SameMap(IncSeq(db.account, Seqs(2)), map["acct" := AccountRow(0, 0, 0.0, 2)]);
  }

  lemma FollowsC(w: World, s: State)
    requires w == TheWorld() && ValidTree(w) && s.db == After(1, 1, ChainRow("b", 1, 2)) && s.base in w.blocks
    ensures var mv := Forward(["c"], ["t"], Seqs(2), 3);
            Allowed(w, DFLT, s, mv) && Next(w, DFLT, s, mv) == s.(db := After(2, 2, ChainRow("c", 2, 3)))
  {
    hide *;
    HeightsHere(w);
    ChangesOf(w, "b", "c", 2);
    LastDb(w);
    LastReport();
    OneBlock(w, s, "c", 2, [New(O, 5, "A", 2)], Seqs(2), 3, After(2, 2, ChainRow("c", 2, 3)));
  }

  // The invoice was paid at height 1, and its one output is now added at height 2.
  lemma NotBacked()
    ensures !Backed(map[O := Row(2)], map["A" := PAID])
  {
    var u: UtxoTable, inv: InvoiceTable := map[O := Row(2)], map["A" := PAID];
    assert ConfirmedRows(u, "A", 1) == {};
    assert "A" in inv && !BackedAt(u, "A", inv["A"].total, inv["A"].paidHeight.value);
  }

  /** From an empty database: the invoice is paid by block a, its output is taken over to block b by a resync, and block c
      adds it again above the height the invoice was paid at. */
  lemma RepeatUnbacks()
    ensures var w := TheWorld();
            && ValidWorld(w)
            && exists s :: Reached(w, Begin(), s) && !PaidOk(s)
  {
    WorldOk();
    var w := TheWorld();
    assert ValidTree(w);
    var s1 := CreatedReached(w);
    FollowsA(w, s1);
    NotBacked();
    hide TheWorld, ValidWorld, ValidTree, Reached, Allowed, Next, Begin, Before, Backed;
    Step(w, Begin(), s1, Forward(["a"], ["t"], Seqs(1), 2));
    var s2 := s1.(db := After(1, 1, ChainRow("a", 1, 2)));
    ResyncsToB(w, s2);
    Step(w, Begin(), s2, Resync("b", map[], 2));
    var s3 := Next(w, DFLT, s2, Resync("b", map[], 2));
    FollowsC(w, s3);
    Step(w, Begin(), s3, Forward(["c"], ["t"], Seqs(2), 3));
  }
}
