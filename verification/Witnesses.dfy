/** Runs that show what the conditions on new accounts and invoices are for: each ends in a good state in which a creation
    that fits the tables breaks what the service promises. */
module Witnesses {
  import opened Options
  import opened BlockTree
  import opened Ledger
  import opened Confluence
  import opened Tables
  import opened Feed
  import opened Growth
  import opened Wallet
  import opened Service
  import Examples

  const DFLT := 2
  const POOL: AddressTable := map["A" := AddressRow("acct", 0, false)]

  // The row of the output that block a pays to the pool.
  const PAID_ROW := UtxoRow(5, "A", "acct", 0, false, Heights(Some(1), None, None, None), None, None)

  function Begin(): State {
    Start(EmptyDb(Examples.TheWorld(), "g", 1), "g")
  }

  lemma ChangesOfA(w: World)
    requires w == Examples.TheWorld() && ValidTree(w)
    ensures IsPath(w, "g", ["a"]) && PathChanges(w, ["a"]) == [New(Examples.O, 5, "A", 1)]
  {
    Examples.Names();
    var vout, ids := w.txs["t"].vout, w.blocks["a"].txids;
    assert ["a"][..0] == [] && vout[..0] == [] && ids[..0] == [];
    assert NewChanges(vout, 1, "t") == [New(Examples.O, 5, "A", 1)];
    assert BlockChanges(w, ids, 1) == [New(Examples.O, 5, "A", 1)];
    assert PathChanges(w, ["a"][..0]) == [];
  }

  // Following block a finds the output exactly if its address is known.
  lemma FollowA(w: World, env: Env)
    requires w == Examples.TheWorld() && ValidTree(w) && env.confs == map[] && env.dflt == DFLT && (env.owners == map[] || env.owners == POOL)
    ensures IsPath(w, "g", ["a"])
    ensures Confluence.Forward(w, env, map[], "g", ["a"]) == if "A" in env.owners then map[Examples.O := PAID_ROW] else map[]
  {
    ChangesOfA(w);
    var ch := New(Examples.O, 5, "A", 1);
    hide Confirm;
    ApplySingle(map[], env.owners, ch);
    var u: UtxoTable := if "A" in env.owners then map[Examples.O := PAID_ROW] else map[];
    assert Apply(map[], env.owners, [ch]) == u;
    ConfirmNothing(env, u);
  }

  lemma ConfirmNothing(env: Env, u: UtxoTable)
    requires env.confs == map[] && env.dflt == DFLT && (u == map[] || u == map[Examples.O := PAID_ROW])
    ensures Confirm(u, env, 1) == u
  {
    SameMap(Confirm(u, env, 1), u);
  }

  lemma BeginGood(w: World)
    requires w == Examples.TheWorld() && ValidTree(w)
    ensures Good(w, DFLT, Begin())
  {
    StartGood(w, DFLT, EmptyDb(w, "g", 1), "g");
  }

  /** A state that clean moves reach from an empty database. */
  ghost predicate Reached(w: World, s: State)
    requires ValidTree(w)
  {
    exists run :: AllowedRun(w, DFLT, Begin(), run) && CleanRun(w, DFLT, Begin(), run) && RunFrom(w, DFLT, Begin(), run) == s
  }

  lemma ReachedGood(w: World, run: seq<Move>)
    requires w == Examples.TheWorld() && ValidWorld(w) && AllowedRun(w, DFLT, Begin(), run) && CleanRun(w, DFLT, Begin(), run)
    ensures Reached(w, RunFrom(w, DFLT, Begin(), run)) && Good(w, DFLT, RunFrom(w, DFLT, Begin(), run))
  {
    BeginGood(w);
    hide Examples.TheWorld, ValidWorld, ValidTree, Good, AllowedRun, CleanRun, RunFrom, Begin;
    RunKeeps(w, DFLT, Begin(), run);
  }

  lemma OneMove(w: World, s: State, mv: Move)
    requires ValidTree(w) && Allowed(w, DFLT, s, mv) && Clean(w, DFLT, s, mv)
    ensures AllowedRun(w, DFLT, s, [mv]) && CleanRun(w, DFLT, s, [mv]) && RunFrom(w, DFLT, s, [mv]) == Next(w, DFLT, s, mv)
  {
    hide Allowed, Next, Clean;
    assert [mv][1..] == [];
  }

  lemma MoreMoves(w: World, s: State, mv: Move, rest: seq<Move>)
    requires ValidTree(w) && Allowed(w, DFLT, s, mv) && Clean(w, DFLT, s, mv)
    requires AllowedRun(w, DFLT, Next(w, DFLT, s, mv), rest) && CleanRun(w, DFLT, Next(w, DFLT, s, mv), rest)
    ensures AllowedRun(w, DFLT, s, [mv] + rest) && CleanRun(w, DFLT, s, [mv] + rest)
    ensures RunFrom(w, DFLT, s, [mv] + rest) == RunFrom(w, DFLT, Next(w, DFLT, s, mv), rest)
  {
    hide Allowed, Next, Clean;
    assert ([mv] + rest)[1..] == rest;
  }

  // -------------------------------------------------- an account that comes too late

  function Followed(): State { Begin().(db := Begin().db.(chain := ChainRow("a", 1, 1))) }

  lemma FollowEmpty(w: World)
    requires w == Examples.TheWorld() && ValidTree(w)
    ensures var mv := Forward(["a"], ["t"], map[], 1);
            && Allowed(w, DFLT, Begin(), mv) && Clean(w, DFLT, Begin(), mv)
            && Next(w, DFLT, Begin(), mv) == Followed()
  {
    Examples.Names();
    hide Apply, Confirm;
    var db := Begin().db;
    var env := EnvOf(db, DFLT);
    assert env.confs == map[] && env.owners == map[] && "A" !in env.owners;
    FollowA(w, env);
    var db' := ForwardDb(w, DFLT, db, PathChanges(w, ["a"]), ["t"], "a", 1, map[], 1);
    assert w.blocks["a"].height == 1 && Tip("g", ["a"]) == "a";
    assert db'.utxo == Confluence.Forward(w, env, map[], "g", ["a"]);
    assert db'.address == db.address && db'.chain == ChainRow("a", 1, 1) && db'.cursor == db.cursor;
    assert db'.invoice.Keys == {} && db'.payment.Keys == {} && db'.account.Keys == {};
    NothingElse(w, db, db');
  }

  lemma NothingElse(w: World, db: Db, db': Db)
    requires db == Begin().db && db'.utxo == map[] && db'.address == db.address && db'.chain == ChainRow("a", 1, 1) && db'.cursor == db.cursor
    requires db'.invoice.Keys == {} && db'.payment.Keys == {} && db'.account.Keys == {}
    ensures db' == Followed().db && Reports(db, db', map[]) && FreshSeqs(map[], 1, 1)
  {
  }

  /** Block a is followed before the account exists; its pool then holds an address that was paid, and that is never found. */
  lemma LateAccount()
    ensures var w := Examples.TheWorld();
            && ValidWorld(w)
            && Reached(w, Followed()) && Good(w, DFLT, Followed()) && AccountFits(Followed().db, "acct", POOL)
            && !Good(w, DFLT, AccountAdded(Followed(), "acct", POOL))
  {
    var w := Examples.TheWorld();
    Examples.WorldOk();
    assert ValidTree(w);
    AccountFitsLate();
    hide Examples.TheWorld, ValidWorld, ValidTree, Good, Allowed, Next, Clean, AllowedRun, CleanRun, RunFrom, AccountFits, NonePaid, AccountAdded, Reached, Followed, Begin;
    var mv := Forward(["a"], ["t"], map[], 1);
    FollowEmpty(w);
    OneMove(w, Begin(), mv);
    ReachedGood(w, [mv]);
    PaidByA(w);
    CreateAccountIff(w, DFLT, Followed(), "acct", POOL);
  }

  lemma AccountFitsLate()
    ensures AccountFits(Followed().db, "acct", POOL) && Followed().base == "g" && Followed().db.chain.bestHash == "a"
  {
    assert "acct" != "" by { assert "acct"[0] == 'a'; }
  }

  lemma PaidByA(w: World)
    requires w == Examples.TheWorld() && ValidTree(w)
    ensures "g" in w.blocks && "a" in w.blocks && !NonePaid(w, "g", "a", POOL)
  {
    Examples.Names();
    var o := Examples.O;
    Examples.WhenHit(HasTx("t"));
    LastHitFloor(w, 0, -1, "a", HasTx("t"));
    assert Keeps(w.txs["t"].vout, 0, POOL);
    assert LastHit(w, w.blocks["g"].height, "a", HasTx(o.txid)) == Some(1);
  }

  // ----------------------------------------------- an invoice at an address already paid

  function WithAccount(): State { AccountAdded(Begin(), "acct", POOL) }

  lemma AccountFirst(w: World)
    requires w == Examples.TheWorld() && ValidTree(w)
    ensures var mv := CreateAccount("acct", POOL);
            Allowed(w, DFLT, Begin(), mv) && Clean(w, DFLT, Begin(), mv) && Next(w, DFLT, Begin(), mv) == WithAccount()
  {
    assert "acct" != "" by { assert "acct"[0] == 'a'; }
  }

  function FoundDb(): Db {
    Db(map[Examples.O := PAID_ROW], map[], map[], map["acct" := AccountRow(0, 0, 0.0, 1)], POOL, ChainRow("a", 1, 2), 0)
  }

  function Found(): State { WithAccount().(db := FoundDb()) }

  lemma OneAccountReports(db: Db, db': Db, seqs: SeqMap)
    requires seqs == map["acct" := 1] && db'.invoice == db.invoice && db'.payment == db.payment && db'.utxo == FoundDb().utxo
    ensures FreshSeqs(seqs, 1, 2) && Reports(db, db', seqs)
  {
    assert |seqs| == 1;
  }

  lemma FoundIs(db: Db, db': Db)
    requires db == WithAccount().db && db'.utxo == FoundDb().utxo && db'.address == db.address && db'.chain == ChainRow("a", 1, 2)
    requires db'.cursor == db.cursor && db'.invoice.Keys == {} && db'.payment.Keys == {} && db'.account == IncSeq(db.account, map["acct" := 1])
    ensures db' == FoundDb()
  {
    SameMap(db'.account, FoundDb().account);
  }

  lemma FollowAccount(w: World)
    requires w == Examples.TheWorld() && ValidTree(w)
    ensures var mv := Forward(["a"], ["t"], map["acct" := 1], 2);
            Allowed(w, DFLT, WithAccount(), mv) && Clean(w, DFLT, WithAccount(), mv) && Next(w, DFLT, WithAccount(), mv) == Found()
  {
    Examples.Names();
    hide Apply, Confirm;
    var db, seqs := WithAccount().db, map["acct" := 1];
    var env := EnvOf(db, DFLT);
    assert db.address == POOL;
    assert env.confs == map[] && env.owners == POOL && "A" in env.owners;
    FollowA(w, env);
    var db' := ForwardDb(w, DFLT, db, PathChanges(w, ["a"]), ["t"], "a", 1, seqs, 2);
    assert w.blocks["a"].height == 1 && Tip("g", ["a"]) == "a";
    assert db'.utxo == FoundDb().utxo;
    FoundIs(db, db');
    OneAccountReports(db, db', seqs);
  }

  function InvoiceAtA(confirmations: int): InvoiceRow {
    InvoiceRow("acct", 5, confirmations, 0, None, None, false, None, None)
  }

  lemma InvoiceAtAFits(db: Db, confirmations: int)
    requires db.address == POOL && db.invoice == map[] && "acct" in db.account
    ensures InvoiceFits(db, "A", InvoiceAtA(confirmations), map[])
  {
    assert "A" in POOL;
  }

  lemma FoundIsReached(w: World)
    requires w == Examples.TheWorld() && ValidWorld(w)
    ensures Reached(w, Found()) && Good(w, DFLT, Found())
  {
    assert ValidTree(w);
    hide Examples.TheWorld, ValidWorld, ValidTree, Good, Allowed, Next, Clean, AllowedRun, CleanRun, RunFrom, WithAccount, Found, Begin, Reached;
    var first, second := CreateAccount("acct", POOL), Forward(["a"], ["t"], map["acct" := 1], 2);
    AccountFirst(w);
    FollowAccount(w);
    OneMove(w, WithAccount(), second);
    MoreMoves(w, Begin(), first, [second]);
    ReachedGood(w, [first] + [second]);
  }

  /** The account is told of the payment to its pool, and only then an invoice is created there: the invoice is not told. */
  lemma InvoiceNotTold()
    ensures var w := Examples.TheWorld();
            && ValidWorld(w)
            && Reached(w, Found()) && Good(w, DFLT, Found()) && Allowed(w, DFLT, Found(), KeeperBatch("acct"))
            && (var s := Next(w, DFLT, Found(), KeeperBatch("acct"));
                && Good(w, DFLT, s) && InvoiceFits(s.db, "A", InvoiceAtA(DFLT), map[])
                && !AmountsTold(InvoiceAdded(s, "A", InvoiceAtA(DFLT), map[]).db))
  {
    var w := Examples.TheWorld();
    Examples.WorldOk();
    assert ValidTree(w);
    var s, mv := Found(), KeeperBatch("acct");
    TellAcct(w);
    var s' := Next(w, DFLT, s, mv);
    hide Examples.TheWorld, ValidWorld, ValidTree, Good, Allowed, Next, Clean, AllowedRun, CleanRun, RunFrom, InvoiceFits, AmountsTold, Reached, Found;
    FoundIsReached(w);
    KeeperKeepsAll(w, DFLT, s, mv);
    ToldThen(w);
    InvoiceAmountsIff(s'.db, InvoiceAdded(s', "A", InvoiceAtA(DFLT), map[]).db, "A", InvoiceAtA(DFLT));
  }

  // Before it is processed the account has been told of nothing, and then of everything.
  lemma ToldThen(w: World)
    requires w == Examples.TheWorld() && ValidWorld(w) && Good(w, DFLT, Found()) && Allowed(w, DFLT, Found(), KeeperBatch("acct"))
    ensures AmountsTold(Next(w, DFLT, Found(), KeeperBatch("acct")).db)
  {
    assert ValidTree(w) && AmountsTold(FoundDb());
    hide ValidWorld, ValidTree, AmountsTold, ChainOk, Examples.TheWorld, KeeperEvents, CalcBalance;
    KeeperStateOk(w, DFLT, Found(), KeeperBatch("acct"));
  }

  // Processing the account leaves nothing to tell.
  lemma TellAcct(w: World)
    requires w == Examples.TheWorld() && ValidTree(w)
    ensures var mv := KeeperBatch("acct");
            && Allowed(w, DFLT, Found(), mv) && Clean(w, DFLT, Found(), mv)
            && (var db := Next(w, DFLT, Found(), mv).db;
                && InvoiceFits(db, "A", InvoiceAtA(DFLT), map[]) && "A" !in db.invoice && "acct" in db.account
                && Untouched(InvoiceAtA(DFLT)) && !StillToTell(db, "A", "acct"))
  {
    Examples.Names();
    hide KeeperEvents, CalcBalance, ValidTree;
    assert IsNext(FoundDb(), "acct");
    PaidAmounts();
    InvoiceAtAFits(Next(w, DFLT, Found(), KeeperBatch("acct")).db, DFLT);
  }

  lemma PaidAmounts()
    ensures IncomingAmount(FoundDb().utxo, "A") == 5
  {
    var u, o := FoundDb().utxo, Examples.O;
    assert IncomingRows(u, "A") == {o};
    SumRemove(u, {o}, o);
    assert {o} - {o} == {};
  }

  /** An invoice that asks for fewer confirmations than configured finds an output at its address that should be spendable
      already and is not. */
  lemma InvoiceConfirmedOtherwise()
    ensures var w := Examples.TheWorld();
            && ValidWorld(w) && Reached(w, Found()) && Good(w, DFLT, Found()) && InvoiceFits(Found().db, "A", InvoiceAtA(0), map[])
            && StillToTell(Found().db, "A", "acct") && !Good(w, DFLT, InvoiceAdded(Found(), "A", InvoiceAtA(0), map[]))
  {
    var w := Examples.TheWorld();
    Examples.WorldOk();
    assert ValidTree(w);
    FoundIsReached(w);
    InvoiceAtAFits(FoundDb(), 0);
    assert Examples.O in Found().db.utxo;
    assert !ConfirmedAlike(w, "a", Found().db.utxo, {}, "A", 0);
    CreateInvoiceIff(w, DFLT, Found(), "A", InvoiceAtA(0), map[]);
  }
}
