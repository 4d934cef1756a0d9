/** Whole runs of the service: every interleaving of what the follower, BalanceKeeper, payments and creations commit. */
module Service {
  import opened Options
  import opened BlockTree
  import opened Ledger
  import opened Confluence
  import opened Tables
  import opened Guarantees
  import opened Feed
  import opened Growth
  import opened Wallet
  import opened Backing
  import opened Chainstate

  ghost predicate AllowedRun(w: World, dflt: int, s: State, run: seq<Move>)
    requires ValidTree(w)
    decreases |run|
  {
    run == [] || (Allowed(w, dflt, s, run[0]) && AllowedRun(w, dflt, Next(w, dflt, s, run[0]), run[1..]))
  }

  ghost function RunFrom(w: World, dflt: int, s: State, run: seq<Move>): State
    requires ValidTree(w) && AllowedRun(w, dflt, s, run)
    decreases |run|
  {
    if run == [] then s else RunFrom(w, dflt, Next(w, dflt, s, run[0]), run[1..])
  }

  lemma RunNone(w: World, dflt: int, s: State)
    requires ValidTree(w)
    ensures AllowedRun(w, dflt, s, []) && RunFrom(w, dflt, s, []) == s
  {
  }

  lemma RunCons(w: World, dflt: int, s: State, mv: Move, rest: seq<Move>)
    requires ValidTree(w) && Allowed(w, dflt, s, mv) && AllowedRun(w, dflt, Next(w, dflt, s, mv), rest)
    ensures AllowedRun(w, dflt, s, [mv] + rest)
    ensures RunFrom(w, dflt, s, [mv] + rest) == RunFrom(w, dflt, Next(w, dflt, s, mv), rest)
  {
    hide Allowed, Next;
    assert ([mv] + rest)[1..] == rest;
  }

  ghost predicate CleanRun(w: World, dflt: int, s: State, run: seq<Move>)
    requires ValidTree(w) && AllowedRun(w, dflt, s, run)
    decreases |run|
  {
    run == [] || (Clean(w, dflt, s, run[0]) && CleanRun(w, dflt, Next(w, dflt, s, run[0]), run[1..]))
  }

  ghost predicate TimelyRun(w: World, dflt: int, s: State, run: seq<Move>)
    requires ValidTree(w) && AllowedRun(w, dflt, s, run)
    decreases |run|
  {
    run == [] || (Timely(s, run[0]) && TimelyRun(w, dflt, Next(w, dflt, s, run[0]), run[1..]))
  }

  ghost predicate UndamagedRun(w: World, dflt: int, s: State, run: seq<Move>)
    requires ValidTree(w) && AllowedRun(w, dflt, s, run)
    decreases |run|
  {
    run == [] || (Undamaged(w, s, run[0]) && UndamagedRun(w, dflt, Next(w, dflt, s, run[0]), run[1..]))
  }

  ghost predicate NeededStayRun(w: World, dflt: int, s: State, run: seq<Move>)
    requires ValidTree(w) && AllowedRun(w, dflt, s, run)
    decreases |run|
  {
    run == [] || (NeededStay(w, dflt, s, run[0]) && NeededStayRun(w, dflt, Next(w, dflt, s, run[0]), run[1..]))
  }

  ghost predicate OnBranchRun(w: World, dflt: int, s: State, run: seq<Move>)
    requires ValidTree(w) && AllowedRun(w, dflt, s, run)
    decreases |run|
  {
    run == [] || (OnBranch(w, s, run[0]) && OnBranchRun(w, dflt, Next(w, dflt, s, run[0]), run[1..]))
  }

  // In every state that a move starts from, no chain spends an output before the tables of that state call it spendable.
  ghost predicate NeverEarly(w: World, dflt: int, s: State, run: seq<Move>)
    requires ValidTree(w) && AllowedRun(w, dflt, s, run)
    decreases |run|
  {
    run == [] || (SpentWhenSpendable(w, EnvOf(s.db, dflt)) && NeverEarly(w, dflt, Next(w, dflt, s, run[0]), run[1..]))
  }

  /** In every state that can be reached at all, resyncs to other branches and invoices at prepaid addresses included: no
      height above the tip, rows that say what their transactions say, no chain change missed by the feed, events alternating. */
  lemma {:induction false} RunStateOk(w: World, dflt: int, s: State, run: seq<Move>)
    requires ValidWorld(w) && StateOk(w, dflt, s) && AllowedRun(w, dflt, s, run)
    ensures StateOk(w, dflt, RunFrom(w, dflt, s, run))
    decreases |run|
  {
    hide StateOk, Allowed, Next;
    if run != [] {
      MoveStateOk(w, dflt, s, run[0]);
      RunStateOk(w, dflt, Next(w, dflt, s, run[0]), run[1..]);
    }
  }

  /** And as long as invoices are created where nothing has been told yet, their amounts stay told, too. */
  lemma {:induction false} RunAmounts(w: World, dflt: int, s: State, run: seq<Move>)
    requires ValidWorld(w) && StateOk(w, dflt, s) && AmountsTold(s.db) && AllowedRun(w, dflt, s, run) && TimelyRun(w, dflt, s, run)
    ensures StateOk(w, dflt, RunFrom(w, dflt, s, run)) && AmountsTold(RunFrom(w, dflt, s, run).db)
    decreases |run|
  {
    hide StateOk, AmountsTold, Allowed, Next, Timely;
    if run != [] {
      MoveStateOk(w, dflt, s, run[0]);
      RunAmounts(w, dflt, Next(w, dflt, s, run[0]), run[1..]);
    }
  }

  // Paid invoices are backed after every move of the run.
  ghost predicate PaidAlong(w: World, dflt: int, s: State, run: seq<Move>)
    requires ValidTree(w) && AllowedRun(w, dflt, s, run)
    decreases |run|
  {
    run == [] || (PaidOk(Next(w, dflt, s, run[0])) && PaidAlong(w, dflt, Next(w, dflt, s, run[0]), run[1..]))
  }

  /** Paid invoices stay backed all along a run if and only if no batch of it repeats transactions of outputs they need:
      whatever accounts and invoices were created, however late, and wherever it was resynced to. */
  lemma {:induction false} RunPaidIff(w: World, dflt: int, s: State, run: seq<Move>)
    requires ValidWorld(w) && StateOk(w, dflt, s) && PaidOk(s) && AllowedRun(w, dflt, s, run)
    ensures PaidAlong(w, dflt, s, run) <==> NeededStayRun(w, dflt, s, run)
    decreases |run|
  {
    hide StateOk, PaidOk, Allowed, Next, NeededStay;
    if run != [] {
      MoveStateOk(w, dflt, s, run[0]);
      MovePaid(w, dflt, s, run[0]);
      if PaidOk(Next(w, dflt, s, run[0])) { RunPaidIff(w, dflt, Next(w, dflt, s, run[0]), run[1..]); }
    }
  }

  /** After such a run, and after any forward batch that follows it, paid invoices are as promised: in every state they are
      backed, and after a batch an invoice is paid if and only if its confirmed sum reaches its total. */
  lemma {:induction false} RunPaid(w: World, dflt: int, s: State, run: seq<Move>)
    requires ValidWorld(w) && StateOk(w, dflt, s) && PaidOk(s) && AllowedRun(w, dflt, s, run) && NeededStayRun(w, dflt, s, run)
    ensures var s' := RunFrom(w, dflt, s, run);
            && PaidOk(s')
            && forall mv: Move | mv.Forward? && Allowed(w, dflt, s', mv) ::
                 var db := Next(w, dflt, s', mv).db; PaidIff(db.utxo, db.invoice)
    decreases |run|
  {
    hide StateOk, PaidOk, Allowed, Next, NeededStay, PaidIff;
    if run == [] {
      forall mv: Move | mv.Forward? && Allowed(w, dflt, s, mv)
        ensures PaidIff(Next(w, dflt, s, mv).db.utxo, Next(w, dflt, s, mv).db.invoice)
      {
        MovePaid(w, dflt, s, mv);
      }
    } else {
      MoveStateOk(w, dflt, s, run[0]);
      MovePaid(w, dflt, s, run[0]);
      RunPaid(w, dflt, Next(w, dflt, s, run[0]), run[1..]);
    }
  }

  /** Over every run paid invoices name the block they were paid at, and unpaid ones none; without a resync to another branch
      that block is on the chain to the best block. */
  lemma {:induction false} RunNamed(w: World, dflt: int, s: State, run: seq<Move>)
    requires ValidWorld(w) && StateOk(w, dflt, s) && Named(w, s) && AllowedRun(w, dflt, s, run)
    ensures Named(w, RunFrom(w, dflt, s, run))
    ensures NamedOnChain(w, s) && OnBranchRun(w, dflt, s, run) ==> NamedOnChain(w, RunFrom(w, dflt, s, run))
    decreases |run|
  {
    hide StateOk, Allowed, Next, Named, NamedOnChain, OnBranch, BestOk;
    if run != [] {
      assert ValidTree(w);
      BestOfState(w, dflt, s);
      MoveStateOk(w, dflt, s, run[0]);
      MoveNamed(w, dflt, s, run[0]);
      RunNamed(w, dflt, Next(w, dflt, s, run[0]), run[1..]);
    }
  }

  /** None does without a resync to another branch. */
  lemma {:induction false} OnBranchStay(w: World, dflt: int, s: State, run: seq<Move>)
    requires ValidWorld(w) && StateOk(w, dflt, s) && s.db.chain.bestHash in w.blocks && AnchoredAt(w, s) && PaidOk(s)
    requires AllowedRun(w, dflt, s, run) && OnBranchRun(w, dflt, s, run)
    ensures NeededStayRun(w, dflt, s, run)
    decreases |run|
  {
    hide StateOk, PaidOk, AnchoredAt, Allowed, Next, NeededStay, OnBranch;
    if run != [] {
      MoveStateOk(w, dflt, s, run[0]);
      MoveAnchored(w, dflt, s, run[0]);
      MovePaid(w, dflt, s, run[0]);
      OnBranchStay(w, dflt, Next(w, dflt, s, run[0]), run[1..]);
    }
  }

  /** In every state reached by clean moves the rows are those of the chain to the best block, with the heights at which
      they were added and became spendable. */
  lemma {:induction false} RunKeeps(w: World, dflt: int, s: State, run: seq<Move>)
    requires ValidWorld(w) && Good(w, dflt, s) && AllowedRun(w, dflt, s, run) && CleanRun(w, dflt, s, run)
    ensures Good(w, dflt, RunFrom(w, dflt, s, run))
    decreases |run|
  {
    hide Good, Allowed, Next, Clean;
    if run != [] {
      MoveKeeps(w, dflt, s, run[0]);
      RunKeeps(w, dflt, Next(w, dflt, s, run[0]), run[1..]);
    }
  }

  /** The committed best block always matches the effects in the tables, in all four heights: over every run of clean moves
      in which no rollback damages a row. */
  lemma {:induction false} RunMatches(w: World, dflt: int, s: State, run: seq<Move>)
    requires ValidWorld(w) && Matches(w, dflt, s) && AllowedRun(w, dflt, s, run) && CleanRun(w, dflt, s, run)
    requires UndamagedRun(w, dflt, s, run)
    ensures Matches(w, dflt, RunFrom(w, dflt, s, run))
    decreases |run|
  {
    hide Matches, Allowed, Next, Clean, Undamaged;
    if run != [] {
      MoveMatchesIff(w, dflt, s, run[0]);
      RunMatches(w, dflt, Next(w, dflt, s, run[0]), run[1..]);
    }
  }

  /** None does when no chain spends an output before it is spendable. */
  lemma {:induction false} NeverEarlyUndamaged(w: World, dflt: int, s: State, run: seq<Move>)
    requires ValidWorld(w) && Matches(w, dflt, s) && AllowedRun(w, dflt, s, run) && CleanRun(w, dflt, s, run)
    requires NeverEarly(w, dflt, s, run)
    ensures UndamagedRun(w, dflt, s, run)
    decreases |run|
  {
    hide Matches, Allowed, Next, Clean, Undamaged, SpentWhenSpendable;
    if run != [] {
      assert ValidTree(w);
      TimelyUndamaged(w, dflt, s, run[0]);
      MoveMatches(w, dflt, s, run[0]);
      NeverEarlyUndamaged(w, dflt, Next(w, dflt, s, run[0]), run[1..]);
    }
  }

  /** If some does, the tables still hold no wrong spend: each is that of the chain, or it is lost. */
  lemma {:induction false} RunSound(w: World, dflt: int, s: State, run: seq<Move>)
    requires ValidWorld(w) && Sound(w, dflt, s) && AllowedRun(w, dflt, s, run) && CleanRun(w, dflt, s, run)
    ensures Sound(w, dflt, RunFrom(w, dflt, s, run))
    decreases |run|
  {
    hide Sound, Allowed, Next, Clean;
    if run != [] {
      MoveKeepsSound(w, dflt, s, run[0]);
      RunSound(w, dflt, Next(w, dflt, s, run[0]), run[1..]);
    }
  }

  /** A new database, its first chainstate, and then anything: accounts and invoices are created on the way. */
  lemma EveryRun(w: World, dflt: int, start: Hash, nextSeq: int, run: seq<Move>)
    requires ValidWorld(w) && start in w.blocks && nextSeq >= 1
    requires AllowedRun(w, dflt, Start(EmptyDb(w, start, nextSeq), start), run)
    ensures var s := Start(EmptyDb(w, start, nextSeq), start);
            && StateOk(w, dflt, RunFrom(w, dflt, s, run))
            && Named(w, RunFrom(w, dflt, s, run))
            && (TimelyRun(w, dflt, s, run) ==> AmountsTold(RunFrom(w, dflt, s, run).db))
            && (NeededStayRun(w, dflt, s, run) || OnBranchRun(w, dflt, s, run) ==> PaidOk(RunFrom(w, dflt, s, run)))
            && (CleanRun(w, dflt, s, run) ==> Good(w, dflt, RunFrom(w, dflt, s, run)) && Sound(w, dflt, RunFrom(w, dflt, s, run)))
            && (CleanRun(w, dflt, s, run) && (UndamagedRun(w, dflt, s, run) || NeverEarly(w, dflt, s, run)) ==>
                  Matches(w, dflt, RunFrom(w, dflt, s, run)))
  {
    var s := Start(EmptyDb(w, start, nextSeq), start);
    StartGood(w, dflt, EmptyDb(w, start, nextSeq), start);
    StartPaid(w, EmptyDb(w, start, nextSeq), start);
    OkIsSound(w, dflt, s);
    assert Named(w, s) && NamedOnChain(w, s);
    hide Named, NamedOnChain, Sound, StateOk, ChainOk, SpendsOk, SpendsSound, AmountsTold, PaidOk, AnchoredAt, BestOk, RunFrom, AllowedRun;
    hide CleanRun, TimelyRun, UndamagedRun, NeverEarly, NeededStayRun, OnBranchRun;
    RunStateOk(w, dflt, s, run);
    RunNamed(w, dflt, s, run);
    if OnBranchRun(w, dflt, s, run) { OnBranchStay(w, dflt, s, run); }
    if NeededStayRun(w, dflt, s, run) { RunPaid(w, dflt, s, run); }
    if CleanRun(w, dflt, s, run) { RunSound(w, dflt, s, run); }
    if TimelyRun(w, dflt, s, run) { RunAmounts(w, dflt, s, run); }
    if CleanRun(w, dflt, s, run) { RunKeeps(w, dflt, s, run); }
    if CleanRun(w, dflt, s, run) && NeverEarly(w, dflt, s, run) { NeverEarlyUndamaged(w, dflt, s, run); }
    if CleanRun(w, dflt, s, run) && UndamagedRun(w, dflt, s, run) { RunMatches(w, dflt, s, run); }
  }

  /** In every reachable state, of an invoice whose account the feed has reached, the last event is a
      confirmation exactly when the invoice is paid. */
  lemma EventsAgree(w: World, dflt: int, s: State, run: seq<Move>, a: Address)
    requires ValidWorld(w) && StateOk(w, dflt, s) && AllowedRun(w, dflt, s, run)
    requires var e := RunFrom(w, dflt, s, run); a in e.db.invoice && e.db.invoice[a].account !in Behind(e.db)
    ensures var e := RunFrom(w, dflt, s, run);
            var flips := Flips(e.log, a);
            Alternates(flips) && (e.db.invoice[a].paidHeight.Some? <==> flips != [] && flips[|flips| - 1])
  {
    RunStateOk(w, dflt, s, run);
    var e := RunFrom(w, dflt, s, run);
    hide RowsOk, Bounded, SeqsOk, NothingMissed, AllowedRun, RunFrom;
    assert LogOkAt(e.log, e.db.invoice, a);
    CaughtUp(e.db, e.seen, e.log, a);
  }

  // ------------------------------------------- what the other services do meanwhile

  predicate NoFollower(run: seq<Move>) {
    forall i | 0 <= i < |run| :: !IsFollower(run[i])
  }

  /** From one state to another without the follower: by keeper batches, payments and creations. */
  ghost predicate Ran(w: World, dflt: int, s: State, s': State)
    requires ValidTree(w)
  {
    exists run :: AllowedRun(w, dflt, s, run) && NoFollower(run) && RunFrom(w, dflt, s, run) == s'
  }

  lemma {:induction false} RunsConcat(w: World, dflt: int, s: State, run: seq<Move>, rest: seq<Move>)
    requires ValidTree(w) && AllowedRun(w, dflt, s, run) && AllowedRun(w, dflt, RunFrom(w, dflt, s, run), rest)
    ensures AllowedRun(w, dflt, s, run + rest) && RunFrom(w, dflt, s, run + rest) == RunFrom(w, dflt, RunFrom(w, dflt, s, run), rest)
    decreases |run|
  {
    hide ValidTree, Allowed, Next;
    if run == [] {
      assert run + rest == rest;
    } else {
      assert (run + rest)[1..] == run[1..] + rest;
      RunsConcat(w, dflt, Next(w, dflt, s, run[0]), run[1..], rest);
    }
  }

  lemma RanOn(w: World, dflt: int, a: State, b: State, c: State)
    requires ValidTree(w) && Ran(w, dflt, a, b) && Ran(w, dflt, b, c)
    ensures Ran(w, dflt, a, c)
  {
    hide ValidTree, AllowedRun, RunFrom;
    var run :| AllowedRun(w, dflt, a, run) && NoFollower(run) && RunFrom(w, dflt, a, run) == b;
    var rest :| AllowedRun(w, dflt, b, rest) && NoFollower(rest) && RunFrom(w, dflt, b, rest) == c;
    RunsConcat(w, dflt, a, run, rest);
    assert NoFollower(run + rest);
  }

  lemma RanNone(w: World, dflt: int, s: State)
    requires ValidTree(w)
    ensures Ran(w, dflt, s, s)
  {
    RunNone(w, dflt, s);
  }

  lemma OtherKeepsChain(w: World, dflt: int, s: State, mv: Move)
    requires ValidTree(w) && Allowed(w, dflt, s, mv) && !IsFollower(mv)
    ensures Next(w, dflt, s, mv).db.chain == s.db.chain && Undamaged(w, s, mv)
  {
    hide KeeperEvents, CalcBalance, Upsert;
  }

  lemma OtherKeepsPaid(w: World, dflt: int, s: State, mv: Move)
    requires ValidWorld(w) && StateOk(w, dflt, s) && BestOk(w, s) && Allowed(w, dflt, s, mv) && !IsFollower(mv)
    ensures var s' := Next(w, dflt, s, mv);
            BestOk(w, s') && (PaidOk(s) ==> PaidOk(s')) && (AnchoredAt(w, s) ==> AnchoredAt(w, s'))
  {
    assert ValidTree(w);
    hide ValidWorld, StateOk, PaidOk, AnchoredAt;
    MoveStateOk(w, dflt, s, mv);
    BestOfState(w, dflt, Next(w, dflt, s, mv));
    if PaidOk(s) { MovePaid(w, dflt, s, mv); }
    if AnchoredAt(w, s) { MoveAnchored(w, dflt, s, mv); }
  }

  /** Whatever the other services create, paid invoices stay backed and the rows there are stay right. */
  lemma {:induction false} OthersKeepPaid(w: World, dflt: int, s: State, run: seq<Move>)
    requires ValidWorld(w) && StateOk(w, dflt, s) && BestOk(w, s) && AllowedRun(w, dflt, s, run) && NoFollower(run)
    ensures var s' := RunFrom(w, dflt, s, run);
            BestOk(w, s') && (PaidOk(s) ==> PaidOk(s')) && (AnchoredAt(w, s) ==> AnchoredAt(w, s'))
    decreases |run|
  {
    hide StateOk, PaidOk, AnchoredAt, Allowed, Next, IsFollower;
    if run != [] {
      assert forall i | 0 <= i < |run| - 1 :: run[1..][i] == run[i + 1];
      OtherKeepsPaid(w, dflt, s, run[0]);
      MoveStateOk(w, dflt, s, run[0]);
      OthersKeepPaid(w, dflt, Next(w, dflt, s, run[0]), run[1..]);
    }
  }

  /** The other services leave the chainstate alone, and roll nothing back. */
  lemma {:induction false} OthersKeepChain(w: World, dflt: int, s: State, run: seq<Move>)
    requires ValidTree(w) && AllowedRun(w, dflt, s, run) && NoFollower(run)
    ensures RunFrom(w, dflt, s, run).db.chain == s.db.chain && UndamagedRun(w, dflt, s, run)
    decreases |run|
  {
    hide ValidTree, Allowed, Next, Undamaged, IsFollower;
    if run != [] {
      OtherKeepsChain(w, dflt, s, run[0]);
      assert forall i | 0 <= i < |run| - 1 :: run[1..][i] == run[i + 1];
      OthersKeepChain(w, dflt, Next(w, dflt, s, run[0]), run[1..]);
    }
  }

  // --------------------------------------------------------- stored balances

  // The move is part of a payment from the account.
  predicate PaysFrom(s: State, mv: Move, acct: AccountId) {
    match mv
    case ReserveUtxo(o, _) => o in s.db.utxo && s.db.utxo[o].account == acct
    case InsertChange(_, _, _, owner) => owner.account == acct
    case InsertPayment(_, row) => row.account == acct
    case _ => false
  }

  ghost predicate NeverPaysFrom(w: World, dflt: int, s: State, run: seq<Move>, acct: AccountId)
    requires ValidTree(w) && AllowedRun(w, dflt, s, run)
    decreases |run|
  {
    run == [] || (!PaysFrom(s, run[0], acct) && NeverPaysFrom(w, dflt, Next(w, dflt, s, run[0]), run[1..], acct))
  }

  /** Once the feed has reached the account, it has made no payment since it was last processed. */
  ghost predicate Settled(s: State, acct: AccountId) {
    acct in s.db.account && acct !in Behind(s.db) ==> acct in s.seen && NoPaymentSince(s.db, s.seen[acct], acct)
  }

  lemma SettledStays(s: State, s': State, acct: AccountId)
    requires Settled(s, acct) && (acct in s'.db.account && acct !in Behind(s'.db) ==> acct in s.db.account && acct !in Behind(s.db))
    requires RowsOf(s'.db.utxo, acct) == RowsOf(s.db.utxo, acct)
    requires PaymentsOf(s'.db.payment, acct).Keys == PaymentsOf(s.db.payment, acct).Keys
    requires acct in s.seen ==> acct in s'.seen && s'.seen[acct] == s.seen[acct]
    ensures Settled(s', acct)
  {
  }

  lemma CommitSettled(s: State, s': State, seqs: SeqMap, acct: AccountId)
    requires SeqsOk(s.db) && "" !in s.db.account && Settled(s, acct) && s'.seen == s.seen
    requires FreshSeqs(seqs, s.db.chain.nextSeq, s'.db.chain.nextSeq) && Reports(s.db, s'.db, seqs)
    requires s'.db.account == IncSeq(s.db.account, seqs) && s'.db.cursor == s.db.cursor
    requires Kept(s.db.utxo, s'.db.utxo) && OnlyPaidChanges(s.db, s'.db)
    ensures Settled(s', acct)
  {
    hide Reports, FreshSeqs, Kept, OnlyPaidChanges, SeqsOk;
    IncSeqOk(s.db, s'.db, seqs);
    if acct in s'.db.account && acct !in Behind(s'.db) {
      assert acct !in seqs && acct != "";
      UnreportedSame(s.db, s'.db, seqs, acct);
    }
  }

  lemma RolledSettled(w: World, dflt: int, s: State, target: Hash, seqs: SeqMap, nextSeq: int, acct: AccountId)
    requires BestOk(w, s) && SeqsOk(s.db) && "" !in s.db.account && RowsOk(w, EnvOf(s.db, dflt), s.db.utxo, s.api)
    requires target in w.blocks && RollbackReports(w, s.db, target, seqs, nextSeq) && Settled(s, acct)
    ensures Settled(Rolled(w, s, target, seqs, nextSeq), acct)
  {
    hide RowsOk, SeqsOk, Reports, FreshSeqs, Settled, Kept, Revert;
    RevertKeepsRows(w, EnvOf(s.db, dflt), s.db.utxo, s.api, w.blocks[target].height);
    CommitSettled(s, Rolled(w, s, target, seqs, nextSeq), seqs, acct);
  }

  lemma FollowerSettled(w: World, dflt: int, s: State, mv: Move, acct: AccountId)
    requires ValidWorld(w) && StateOk(w, dflt, s) && Allowed(w, dflt, s, mv) && IsFollower(mv) && Settled(s, acct)
    ensures Settled(Next(w, dflt, s, mv), acct)
  {
    assert ValidTree(w) && SeqsOk(s.db) && "" !in s.db.account && RowsOk(w, EnvOf(s.db, dflt), s.db.utxo, s.api);
    hide StateOk, ValidWorld, RowsOk, SeqsOk, Reports, FreshSeqs, Settled, Kept;
    if mv.Forward? {
      hide Next, Allowed;
      ForwardShape(w, dflt, s, mv);
      ForwardRows(w, dflt, s, mv);
      CommitSettled(s, Next(w, dflt, s, mv), mv.seqs, acct);
    } else {
      RolledSettled(w, dflt, s, mv.target, mv.seqs, mv.nextSeq, acct);
    }
  }

  lemma KeeperSettled(s: State, s': State, b: AccountId, acct: AccountId)
    requires SeqsOk(s.db) && IsNext(s.db, b) && s' == Keep(s, b, KeeperDb(s.db, b), KeeperEvents(s.db, b)) && Settled(s, acct)
    ensures Settled(s', acct)
  {
    hide KeeperEvents, CalcBalance;
    KeeperCatchesUp(s.db, b);
    if acct != b { SettledStays(s, s', acct); }
  }

  lemma PaymentSettled(w: World, dflt: int, s: State, mv: Move, acct: AccountId)
    requires ValidTree(w) && Allowed(w, dflt, s, mv) && IsPayment(mv) && Settled(s, acct) && !PaysFrom(s, mv, acct)
    ensures Settled(Next(w, dflt, s, mv), acct)
  {
    var s' := Next(w, dflt, s, mv);
    SameMap(RowsOf(s'.db.utxo, acct), RowsOf(s.db.utxo, acct));
    forall p ensures p in PaymentsOf(s'.db.payment, acct) <==> p in PaymentsOf(s.db.payment, acct) {
    }
    SettledStays(s, s', acct);
  }

  lemma CreationSettled(w: World, dflt: int, s: State, mv: Move, acct: AccountId)
    requires ValidTree(w) && StateOk(w, dflt, s) && Allowed(w, dflt, s, mv) && (mv.CreateAccount? || mv.CreateInvoice?) && Settled(s, acct)
    ensures Settled(Next(w, dflt, s, mv), acct)
  {
    hide RowsOk, Bounded, SeqsOk, NothingMissed, LogOk;
    var s' := Next(w, dflt, s, mv);
    if mv.CreateAccount? && mv.account == acct {
      NoAccountOwnsNothing(w, dflt, s, acct);
      assert RowsOf(s'.db.utxo, acct) == map[];
      assert forall p :: p !in PaymentsOf(s'.db.payment, acct);
    } else {
      SettledStays(s, s', acct);
    }
  }

  lemma MoveSettled(w: World, dflt: int, s: State, mv: Move, acct: AccountId)
    requires ValidWorld(w) && StateOk(w, dflt, s) && Allowed(w, dflt, s, mv) && Settled(s, acct) && !PaysFrom(s, mv, acct)
    ensures Settled(Next(w, dflt, s, mv), acct)
  {
    assert ValidTree(w) && SeqsOk(s.db);
    hide ValidWorld, StateOk, SeqsOk, Settled, PaysFrom, KeeperDb, KeeperEvents, RollbackReports;
    if IsFollower(mv) { FollowerSettled(w, dflt, s, mv, acct); }
    else if mv.KeeperBatch? { KeeperSettled(s, Next(w, dflt, s, mv), mv.account, acct); }
    else if IsPayment(mv) { PaymentSettled(w, dflt, s, mv, acct); }
    else { CreationSettled(w, dflt, s, mv, acct); }
  }

  lemma {:induction false} RunSettled(w: World, dflt: int, s: State, run: seq<Move>, acct: AccountId)
    requires ValidWorld(w) && StateOk(w, dflt, s) && AllowedRun(w, dflt, s, run)
    requires Settled(s, acct) && NeverPaysFrom(w, dflt, s, run, acct)
    ensures Settled(RunFrom(w, dflt, s, run), acct)
    decreases |run|
  {
    hide StateOk, Allowed, Next, Settled, PaysFrom;
    if run != [] {
      MoveSettled(w, dflt, s, run[0], acct);
      MoveStateOk(w, dflt, s, run[0]);
      RunSettled(w, dflt, Next(w, dflt, s, run[0]), run[1..], acct);
    }
  }

  /** No spend, no confirmation and no payment is missed: whenever the feed has reached an account, its stored incoming
      balance is the calculated one, and without payments from it in between (since it was created, say, or processed)
      so are the current and the outgoing balance. */
  lemma RunBalances(w: World, dflt: int, s: State, run: seq<Move>, acct: AccountId)
    requires ValidWorld(w) && StateOk(w, dflt, s) && AllowedRun(w, dflt, s, run)
    ensures var e := RunFrom(w, dflt, s, run);
            acct in e.db.account && acct !in Behind(e.db) ==>
              && e.db.account[acct].incoming == CalcBalance(e.db, acct).incoming
              && (Settled(s, acct) && NeverPaysFrom(w, dflt, s, run, acct) ==> Stored(e.db.account[acct]) == CalcBalance(e.db, acct))
  {
    RunStateOk(w, dflt, s, run);
    var e := RunFrom(w, dflt, s, run);
    assert NothingMissed(e.db, e.seen);
    hide StateOk, NothingMissed, AllowedRun, RunFrom, CalcBalance, NeverPaysFrom;
    if acct in e.db.account && acct !in Behind(e.db) {
      StoredBalances(e.db, e.seen, acct);
      if Settled(s, acct) && NeverPaysFrom(w, dflt, s, run, acct) { RunSettled(w, dflt, s, run, acct); }
    }
  }

  // ------------------------------------------------------------- catching up

  function KeeperBatches(run: seq<Move>): nat {
    if run == [] then 0 else (if run[0].KeeperBatch? then 1 else 0) + KeeperBatches(run[1..])
  }

  lemma MoveBehind(w: World, dflt: int, s: State, mv: Move)
    requires ValidTree(w) && SeqsOk(s.db) && Allowed(w, dflt, s, mv) && !IsFollower(mv)
    ensures Behind(Next(w, dflt, s, mv).db) == if mv.KeeperBatch? then Behind(s.db) - {mv.account} else Behind(s.db)
    ensures mv.KeeperBatch? ==> mv.account in Behind(s.db)
  {
    hide CalcBalance, KeeperEvents, Upsert;
    if mv.KeeperBatch? { KeeperCatchesUp(s.db, mv.account); }
  }

  /** While the follower commits nothing, every keeper batch takes one account off those behind, and nothing adds one. */
  lemma {:induction false} CatchesUp(w: World, dflt: int, s: State, run: seq<Move>)
    requires ValidWorld(w) && StateOk(w, dflt, s) && AllowedRun(w, dflt, s, run) && NoFollower(run)
    ensures |Behind(RunFrom(w, dflt, s, run).db)| + KeeperBatches(run) == |Behind(s.db)|
    decreases |run|
  {
    hide ValidWorld, ValidTree, StateOk, SeqsOk, Allowed, Next, Behind, IsFollower;
    if run != [] {
      Basics(w, dflt, s);
      assert forall i | 0 <= i < |run| - 1 :: run[1..][i] == run[i + 1];
      MoveBehind(w, dflt, s, run[0]);
      MoveStateOk(w, dflt, s, run[0]);
      CatchesUp(w, dflt, Next(w, dflt, s, run[0]), run[1..]);
    }
  }

  lemma {:induction false} LeastBehind(db: Db, s: set<AccountId>)
    requires s != {} && s <= Behind(db)
    ensures exists a | a in s :: forall b | b in s :: db.account[a].chainSeq <= db.account[b].chainSeq
    decreases s
  {
    var x :| x in s;
    if s != {x} {
      LeastBehind(db, s - {x});
      var y :| y in s - {x} && forall b | b in s - {x} :: db.account[y].chainSeq <= db.account[b].chainSeq;
      assert forall b | b in s :: b == x || b in s - {x};
      var m := if db.account[x].chainSeq <= db.account[y].chainSeq then x else y;
      assert m in s && forall b | b in s :: db.account[m].chainSeq <= db.account[b].chainSeq;
    } else {
      assert forall b | b in s :: db.account[x].chainSeq <= db.account[b].chainSeq;
    }
  }

  /** As many keeper batches as there are accounts behind are always possible, and none is behind after them. */
  lemma {:induction false} CatchUpRun(w: World, dflt: int, s: State) returns (run: seq<Move>)
    requires ValidWorld(w) && StateOk(w, dflt, s)
    ensures AllowedRun(w, dflt, s, run) && |run| == |Behind(s.db)| && (forall mv | mv in run :: mv.KeeperBatch?)
    ensures Behind(RunFrom(w, dflt, s, run).db) == {}
    decreases |Behind(s.db)|
  {
    hide ValidWorld, ValidTree, StateOk, SeqsOk, Next, AllowedRun, RunFrom;
    Basics(w, dflt, s);
    run := [];
    RunNone(w, dflt, s);
    if Behind(s.db) != {} {
      LeastBehind(s.db, Behind(s.db));
      var a :| a in Behind(s.db) && forall b | b in Behind(s.db) :: s.db.account[a].chainSeq <= s.db.account[b].chainSeq;
      var mv := KeeperBatch(a);
      assert IsNext(s.db, a) && Allowed(w, dflt, s, mv);
      hide Allowed;
      MoveBehind(w, dflt, s, mv);
      MoveStateOk(w, dflt, s, mv);
      var rest := CatchUpRun(w, dflt, Next(w, dflt, s, mv));
      run := [mv] + rest;
      RunCons(w, dflt, s, mv, rest);
    }
  }
}
