/** What the other services do while the follower works, and what all of them together preserve. */
module Others {
  import opened BlockTree
  import opened Ledger
  import opened Confluence
  import opened Tables
  import opened Guarantees
  import opened Feed
  import opened Wallet
  import Backing
  import Service
  import Chainstate

  // ------------------------------------------------------- the other services

  type Moves = (nat, State) -> seq<Move>

  /** When the n-th transaction begins, the others have made some allowed moves, and the tables are what these make of them. */
  ghost predicate OthersAre(w: World, dflt: int, others: (nat, Db) -> Db, moves: Moves)
    requires ValidTree(w)
  {
    forall n: nat, s | StateOk(w, dflt, s) :: OthersAt(w, dflt, others, moves, n, s)
  }

  ghost predicate OthersAt(w: World, dflt: int, others: (nat, Db) -> Db, moves: Moves, n: nat, s: State)
    requires ValidTree(w)
  {
    && Service.AllowedRun(w, dflt, s, moves(n, s)) && Service.NoFollower(moves(n, s))
    && Service.RunFrom(w, dflt, s, moves(n, s)).db == others(n, s.db)
  }

  /** Where the service is, and what it has been through. timely: the others have created no invoice where receipts had been
      told already; clean: nothing at addresses paid too early; calm: nor any at which a chain spends an output before the
      tables call it spendable. */
  datatype Now = Now(s: State, timely: bool, clean: bool, calm: bool)

  /** After what the others have made of it when the n-th transaction begins. */
  ghost function Meanwhile(w: World, dflt: int, moves: Moves, n: nat, now: Now): Now
    requires ValidTree(w) && Service.AllowedRun(w, dflt, now.s, moves(n, now.s))
  {
    var run := moves(n, now.s);
    var s' := Service.RunFrom(w, dflt, now.s, run);
    Now(s', now.timely && Service.TimelyRun(w, dflt, now.s, run), now.clean && Service.CleanRun(w, dflt, now.s, run),
        now.calm && SpentWhenSpendable(w, EnvOf(s'.db, dflt)))
  }

  // ------------------------------------------------- what is kept from state to state

  ghost predicate KeepsAmounts(a: Now, b: Now) {
    (b.timely ==> a.timely) && (b.timely && AmountsTold(a.s.db) ==> AmountsTold(b.s.db))
  }

  ghost predicate KeepsBacked(a: Now, b: Now) {
    Backing.PaidOk(a.s) ==> Backing.PaidOk(b.s)
  }

  ghost predicate KeepsPaid(w: World, a: Now, b: Now)
    requires ValidTree(w)
  {
    a.s.db.chain.bestHash in w.blocks && b.s.db.chain.bestHash in w.blocks && Backing.PaidOk(a.s) && Backing.AnchoredAt(w, a.s) ==>
      Backing.PaidOk(b.s) && Backing.AnchoredAt(w, b.s)
  }

  ghost predicate KeepsGood(w: World, dflt: int, a: Now, b: Now)
    requires ValidTree(w)
  {
    (b.clean ==> a.clean) && (b.clean && Good(w, dflt, a.s) ==> Good(w, dflt, b.s))
  }

  ghost predicate KeepsSound(w: World, dflt: int, a: Now, b: Now)
    requires ValidTree(w)
  {
    (b.clean ==> a.clean) && (b.clean && Chainstate.Sound(w, dflt, a.s) ==> Chainstate.Sound(w, dflt, b.s))
  }

  ghost predicate KeepsMatch(w: World, dflt: int, a: Now, b: Now)
    requires ValidTree(w)
  {
    && (b.clean ==> a.clean) && (b.calm ==> a.calm)
    && (b.clean && b.calm && Chainstate.Matches(w, dflt, a.s) && SpentWhenSpendable(w, EnvOf(a.s.db, dflt)) ==>
          Chainstate.Matches(w, dflt, b.s) && SpentWhenSpendable(w, EnvOf(b.s.db, dflt)))
  }

  /** What is preserved on the way from a to b. Paid invoices stay backed, whatever the others have created, while the rows there
      are stay where the chain has them. The amounts stay
      told if all they created was timely. The rows stay those of the chain to the best block, with no wrong spend, if all
      of it was clean; and with all their spends if, besides, no chain spends an output too early for the tables. */
  ghost predicate Preserves(w: World, dflt: int, a: Now, b: Now)
    requires ValidTree(w)
  {
    && KeepsAmounts(a, b) && KeepsPaid(w, a, b) && KeepsGood(w, dflt, a, b) && KeepsSound(w, dflt, a, b) && KeepsMatch(w, dflt, a, b)
  }

  /** The part of it that even a resync to another branch leaves. */
  ghost predicate PreservesAnywhere(a: Now, b: Now) {
    KeepsAmounts(a, b) && KeepsBacked(a, b)
  }

  lemma PreservesOn(w: World, dflt: int, a: Now, b: Now, c: Now)
    requires ValidTree(w) && b.s.db.chain.bestHash in w.blocks && Preserves(w, dflt, a, b) && Preserves(w, dflt, b, c)
    ensures Preserves(w, dflt, a, c)
  {
    hide Good, Chainstate.Matches, Chainstate.Sound, AmountsTold, SpentWhenSpendable, Backing.PaidOk, Backing.AnchoredAt;
  }

  lemma AnywhereOn(a: Now, b: Now, c: Now)
    requires PreservesAnywhere(a, b) && PreservesAnywhere(b, c)
    ensures PreservesAnywhere(a, c)
  {
    hide AmountsTold, Backing.PaidOk;
  }

  lemma PreservesSame(w: World, dflt: int, now: Now)
    requires ValidTree(w)
    ensures Preserves(w, dflt, now, now) && PreservesAnywhere(now, now)
  {
    hide Good, Chainstate.Matches, Chainstate.Sound, AmountsTold, SpentWhenSpendable, Backing.PaidOk, Backing.AnchoredAt;
  }

  // What the other services do to the match with the chain.
  lemma OthersKeepMatch(w: World, dflt: int, moves: Moves, n: nat, now: Now)
    requires ValidWorld(w) && ValidTree(w) && StateOk(w, dflt, now.s) && BestOk(w, now.s)
    requires Service.AllowedRun(w, dflt, now.s, moves(n, now.s)) && Service.NoFollower(moves(n, now.s))
    ensures var b := Meanwhile(w, dflt, moves, n, now);
            KeepsGood(w, dflt, now, b) && KeepsSound(w, dflt, now, b) && KeepsMatch(w, dflt, now, b)
  {
    hide StateOk, BestOk, Good, Chainstate.Matches, Chainstate.Sound, SpentWhenSpendable, ValidWorld, ValidTree;
    hide Service.AllowedRun, Service.CleanRun, Service.TimelyRun, Service.UndamagedRun, Service.RunFrom;
    var s, run := now.s, moves(n, now.s);
    Service.OthersKeepChain(w, dflt, s, run);
    if Service.CleanRun(w, dflt, s, run) {
      if Good(w, dflt, s) { Service.RunKeeps(w, dflt, s, run); }
      if Chainstate.Sound(w, dflt, s) { Service.RunSound(w, dflt, s, run); }
      if Chainstate.Matches(w, dflt, s) { Service.RunMatches(w, dflt, s, run); }
    }
  }

  /** What the other services do leaves the chainstate alone and preserves all of that. */
  lemma OthersKeep(w: World, dflt: int, moves: Moves, n: nat, now: Now)
    requires ValidWorld(w) && StateOk(w, dflt, now.s)
    requires Service.AllowedRun(w, dflt, now.s, moves(n, now.s)) && Service.NoFollower(moves(n, now.s))
    ensures var b := Meanwhile(w, dflt, moves, n, now);
            && StateOk(w, dflt, b.s) && BestOk(w, b.s) && b.s.db.chain == now.s.db.chain
            && Service.Ran(w, dflt, now.s, b.s) && Preserves(w, dflt, now, b) && PreservesAnywhere(now, b)
  {
    hide StateOk, BestOk, SeqsOk, AmountsTold, ValidWorld, ValidTree, KeepsGood, KeepsSound, KeepsMatch, Backing.PaidOk, Backing.AnchoredAt;
    hide Service.AllowedRun, Service.CleanRun, Service.TimelyRun, Service.RunFrom;
    var s, run := now.s, moves(n, now.s);
    Basics(w, dflt, s);
    Service.RunStateOk(w, dflt, s, run);
    BestOfState(w, dflt, Service.RunFrom(w, dflt, s, run));
    Service.OthersKeepChain(w, dflt, s, run);
    Service.OthersKeepPaid(w, dflt, s, run);
    if Service.TimelyRun(w, dflt, s, run) && AmountsTold(s.db) { Service.RunAmounts(w, dflt, s, run); }
    OthersKeepMatch(w, dflt, moves, n, now);
  }

  // What a clean commit of the follower keeps, part by part.
  lemma CommitKeepsMatch(w: World, dflt: int, a: Now, mv: Move)
    requires ValidWorld(w) && ValidTree(w) && Allowed(w, dflt, a.s, mv) && IsFollower(mv) && Clean(w, dflt, a.s, mv)
    ensures var b := a.(s := Next(w, dflt, a.s, mv));
            KeepsGood(w, dflt, a, b) && KeepsSound(w, dflt, a, b) && KeepsMatch(w, dflt, a, b)
  {
    hide Good, Chainstate.Matches, Chainstate.Sound, SpentWhenSpendable, ValidWorld, ValidTree, Clean, Allowed, Next, EnvOf, IsFollower;
    if Good(w, dflt, a.s) { MoveKeeps(w, dflt, a.s, mv); }
    if Chainstate.Sound(w, dflt, a.s) { Chainstate.MoveKeepsSound(w, dflt, a.s, mv); }
    Chainstate.FollowerEnv(w, dflt, a.s, mv);
    if Chainstate.Matches(w, dflt, a.s) && SpentWhenSpendable(w, EnvOf(a.s.db, dflt)) { Chainstate.MoveMatches(w, dflt, a.s, mv); }
  }

  lemma FollowerTimely(s: State, mv: Move)
    ensures IsFollower(mv) ==> Timely(s, mv)
  {
  }

  lemma CleanStays(w: World, dflt: int, s: State, mv: Move)
    requires ValidTree(w) && Allowed(w, dflt, s, mv) && Clean(w, dflt, s, mv)
    ensures Backing.OnBranch(w, s, mv)
  {
    hide OnChain;
  }

  // What it keeps of invoices.
  lemma CommitKeepsPaid(w: World, dflt: int, a: Now, mv: Move)
    requires ValidWorld(w) && ValidTree(w) && StateOk(w, dflt, a.s) && BestOk(w, a.s) && Allowed(w, dflt, a.s, mv) && IsFollower(mv)
    ensures var b := a.(s := Next(w, dflt, a.s, mv));
            && (Clean(w, dflt, a.s, mv) ==> KeepsPaid(w, a, b)) && (!mv.Forward? ==> KeepsBacked(a, b))
  {
    hide StateOk, ValidWorld, ValidTree, Clean, Allowed, Next, Backing.PaidOk, Backing.AnchoredAt, IsFollower;
    if Clean(w, dflt, a.s, mv) && Backing.AnchoredAt(w, a.s) && Backing.PaidOk(a.s) {
      CleanStays(w, dflt, a.s, mv);
      Backing.MoveAnchored(w, dflt, a.s, mv);
      Backing.MovePaid(w, dflt, a.s, mv);
    }
    if !mv.Forward? && Backing.PaidOk(a.s) { Backing.MovePaid(w, dflt, a.s, mv); }
  }

  /** And so does every clean commit of the follower. */
  lemma CommitKeeps(w: World, dflt: int, a: Now, mv: Move)
    requires ValidWorld(w) && StateOk(w, dflt, a.s) && Allowed(w, dflt, a.s, mv) && IsFollower(mv)
    ensures var b := a.(s := Next(w, dflt, a.s, mv));
            && StateOk(w, dflt, b.s) && BestOk(w, b.s) && KeepsAmounts(a, b) && (!mv.Forward? ==> PreservesAnywhere(a, b))
            && (Clean(w, dflt, a.s, mv) ==> Preserves(w, dflt, a, b))
  {
    hide StateOk, AmountsTold, ValidWorld, ValidTree, Clean, Allowed, Next, BestOk, SeqsOk, IsFollower, Timely;
    hide KeepsGood, KeepsSound, KeepsMatch, KeepsPaid, KeepsBacked;
    Basics(w, dflt, a.s);
    FollowerTimely(a.s, mv);
    MoveStateOk(w, dflt, a.s, mv);
    BestOfState(w, dflt, Next(w, dflt, a.s, mv));
    CommitKeepsPaid(w, dflt, a, mv);
    if Clean(w, dflt, a.s, mv) { CommitKeepsMatch(w, dflt, a, mv); }
  }
}
