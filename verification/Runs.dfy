/** Whole runs: forward batches and rollbacks in any order, interleaved with
    payments that reserve outputs and insert change rows. Each move is one
    committed store transaction. */
module Runs {
  import opened Options
  import opened BlockTree
  import opened Ledger
  import opened Confluence
  import opened Lost

  datatype Move =
    | Extend(path: seq<Hash>)                    // attemptToApplyChanges on one batch
    | Rollback(target: Hash)                     // rollBackChainStateToPos
    | Reserve(o: Outpoint, payment: int)         // MarkUTXOReserved, from the API
    | Change(o: Outpoint, value: int, address: Address, owner: AddressRow) // the API's own CreateUTXO, with height 0

  /** base is the block below everything followed so far; api the outpoints inserted by payments. */
  datatype Snap = Snap(utxo: UtxoTable, base: Hash, best: Hash, api: set<Outpoint>)

  predicate Legal(w: World, s: Snap, mv: Move)
    requires ValidTree(w)
  {
    s.base in w.blocks && s.best in w.blocks &&
    match mv
    case Extend(path) => IsPath(w, s.best, path)
    case Rollback(target) => OnChain(w, target, s.best)
    case Reserve(_, _) => true
    case Change(_, _, _, _) => true
  }

  function Do(w: World, env: Env, s: Snap, mv: Move): Snap
    requires ValidTree(w) && Legal(w, s, mv)
  {
    match mv
    case Extend(path) => s.(utxo := Forward(w, env, s.utxo, s.best, path), best := Tip(s.best, path))
    case Rollback(target) =>
      Snap(Revert(s.utxo, w.blocks[target].height), NewBase(w, s.base, target), target, s.api)
    case Reserve(o, p) => s.(utxo := Reserved(s.utxo, o, p))
    case Change(o, v, a, owner) => s.(utxo := Upsert(s.utxo, o, v, a, owner, 0), api := s.api + {o})
  }

  predicate LegalRun(w: World, env: Env, s: Snap, run: seq<Move>)
    requires ValidTree(w)
    decreases |run|
  {
    run == [] || (Legal(w, s, run[0]) && LegalRun(w, env, Do(w, env, s, run[0]), run[1..]))
  }

  function After(w: World, env: Env, s: Snap, run: seq<Move>): Snap
    requires ValidTree(w) && LegalRun(w, env, s, run)
    decreases |run|
  {
    if run == [] then s else After(w, env, Do(w, env, s, run[0]), run[1..])
  }

  ghost predicate SnapExact(w: World, env: Env, s: Snap)
    requires ValidTree(w)
  {
    Exact(w, env, s.base, s.best, s.utxo, s.api)
  }

  ghost predicate SnapAllExact(w: World, env: Env, s: Snap)
    requires ValidTree(w)
  {
    AllExact(w, env, s.base, s.best, s.utxo, s.api)
  }

  // An empty table, about to follow the chain from block b.
  function Start(b: Hash): Snap {
    Snap(map[], b, b, {})
  }

  lemma StartExact(w: World, env: Env, b: Hash)
    requires ValidTree(w) && b in w.blocks
    ensures SnapAllExact(w, env, Start(b))
  {
  }

  /** Payments touch no height of a row the follower created. */
  lemma ApiExact(w: World, env: Env, s: Snap, mv: Move)
    requires ValidTree(w) && Legal(w, s, mv) && (mv.Reserve? || mv.Change?)
    ensures SnapExact(w, env, s) ==> SnapExact(w, env, Do(w, env, s, mv))
    ensures SnapAllExact(w, env, s) ==> SnapAllExact(w, env, Do(w, env, s, mv))
  {
    var s' := Do(w, env, s, mv);
    assert forall o | o !in s'.api :: HeightsOf(s'.utxo, o) == HeightsOf(s.utxo, o);
    if SnapExact(w, env, s) {
      assert Content(w, env, s.base, s'.utxo, s'.api);
    }
  }

  lemma MoveExact(w: World, env: Env, s: Snap, mv: Move)
    requires ValidWorld(w) && SnapExact(w, env, s) && Legal(w, s, mv)
    ensures SnapExact(w, env, Do(w, env, s, mv))
    ensures SnapAllExact(w, env, s) && SpentWhenSpendable(w, env) ==> SnapAllExact(w, env, Do(w, env, s, mv))
  {
    match mv
    case Extend(path) => ForwardExact(w, env, s.base, s.best, path, s.utxo, s.api);
    case Rollback(target) =>
      RollbackExact(w, env, s.base, s.best, target, s.utxo, s.api);
      if SnapAllExact(w, env, s) && SpentWhenSpendable(w, env) {
        RollbackAllExact(w, env, s.base, s.best, target, s.utxo, s.api);
      }
    case Reserve(o, p) => ApiExact(w, env, s, mv);
    case Change(o, v, a, owner) => ApiExact(w, env, s, mv);
  }

  /** Over every run the added and spendable heights are those of the chain to the best block;
      all four are, when no output is spent before it is spendable. */
  lemma {:induction false} RunExact(w: World, env: Env, s: Snap, run: seq<Move>)
    requires ValidWorld(w) && SnapExact(w, env, s) && LegalRun(w, env, s, run)
    ensures SnapExact(w, env, After(w, env, s, run))
    ensures SnapAllExact(w, env, s) && SpentWhenSpendable(w, env) ==> SnapAllExact(w, env, After(w, env, s, run))
    decreases |run|
  {
    if run != [] {
      MoveExact(w, env, s, run[0]);
      RunExact(w, env, Do(w, env, s, run[0]), run[1..]);
    }
  }

  ghost predicate SnapSound(w: World, env: Env, s: Snap)
    requires ValidTree(w)
  {
    SnapExact(w, env, s) && ExactOrLost(w, env, s.base, s.best, s.utxo, s.api)
  }

  lemma MoveSound(w: World, env: Env, s: Snap, mv: Move)
    requires ValidWorld(w) && SnapSound(w, env, s) && Legal(w, s, mv)
    ensures SnapSound(w, env, Do(w, env, s, mv))
  {
    MoveExact(w, env, s, mv);
    match mv
    case Extend(path) => ForwardSound(w, env, s.base, s.best, path, s.utxo, s.api);
    case Rollback(target) => RollbackSound(w, env, s.base, s.best, target, s.utxo, s.api);
    case _ =>
      var s' := Do(w, env, s, mv);
      assert forall o | o !in s'.api :: HeightsOf(s'.utxo, o) == HeightsOf(s.utxo, o);
  }

  /** Over every run on every valid world, early spends or not, the spending and spent heights of a row are those of the
      chain to the best block, or both are lost while the spend is on that chain: there is never a wrong one. */
  lemma {:induction false} RunSound(w: World, env: Env, s: Snap, run: seq<Move>)
    requires ValidWorld(w) && SnapSound(w, env, s) && LegalRun(w, env, s, run)
    ensures SnapSound(w, env, After(w, env, s, run))
    decreases |run|
  {
    if run != [] {
      hide ValidWorld, SnapSound, Legal, Do;
      MoveSound(w, env, s, run[0]);
      RunSound(w, env, Do(w, env, s, run[0]), run[1..]);
    }
  }

  /** Reorg confluence: two runs that end at the same best block above the same base agree on the
      heights of every output the follower created, whatever forks and batches led there. */
  lemma ReorgConfluence(w: World, env: Env, s1: Snap, run1: seq<Move>, s2: Snap, run2: seq<Move>, o: Outpoint)
    requires ValidWorld(w) && SpentWhenSpendable(w, env)
    requires SnapAllExact(w, env, s1) && LegalRun(w, env, s1, run1)
    requires SnapAllExact(w, env, s2) && LegalRun(w, env, s2, run2)
    requires var e1, e2 := After(w, env, s1, run1), After(w, env, s2, run2);
             e1.base == e2.base && e1.best == e2.best && o !in e1.api && o !in e2.api
    ensures HeightsOf(After(w, env, s1, run1).utxo, o) == HeightsOf(After(w, env, s2, run2).utxo, o)
  {
    RunExact(w, env, s1, run1);
    RunExact(w, env, s2, run2);
    var e1, e2 := After(w, env, s1, run1), After(w, env, s2, run2);
    AllExactHeights(w, env, e1.base, e1.best, e1.utxo, e1.api, o);
    AllExactHeights(w, env, e2.base, e2.best, e2.utxo, e2.api, o);
  }

  // ------------------------------------------------------ batching independence

  // Committing and confirming after every single block.
  function OneByOne(path: seq<Hash>): seq<Move> {
    seq(|path|, i requires 0 <= i < |path| => Extend([path[i]]))
  }

  lemma {:induction false} OneByOneLegal(w: World, env: Env, s: Snap, path: seq<Hash>)
    requires ValidTree(w) && s.base in w.blocks && s.best in w.blocks && IsPath(w, s.best, path)
    ensures LegalRun(w, env, s, OneByOne(path))
    ensures var e := After(w, env, s, OneByOne(path)); e.base == s.base && e.best == Tip(s.best, path) && e.api == s.api
    decreases |path|
  {
    if path != [] {
      PathHead(w, s.best, path);
      var s' := Do(w, env, s, Extend([path[0]]));
      assert s'.best == path[0];
      OneByOneLegal(w, env, s', path[1..]);
      assert OneByOne(path)[1..] == OneByOne(path[1..]);
    }
  }

  lemma {:induction false} PathHead(w: World, from: Hash, path: seq<Hash>)
    requires ValidTree(w) && from in w.blocks && IsPath(w, from, path) && path != []
    ensures IsPath(w, from, [path[0]]) && IsPath(w, path[0], path[1..])
    ensures Tip(path[0], path[1..]) == Tip(from, path)
  {
    var n := |path| - 1;
    if n == 0 {
      assert path == [path[0]];
      assert [path[0]][..0] == [];
    } else {
      PathHead(w, from, path[..n]);
      assert path[..n][1..] == path[1..][..n - 1];
    }
  }

  /** Confirming less often is safe: one confirmation pass at the end of a batch gives every output the same heights as a
      pass after each block, from every state a run can reach (`RunSound`). */
  lemma BatchingIndependence(w: World, env: Env, s: Snap, path: seq<Hash>, o: Outpoint)
    requires ValidWorld(w) && SnapSound(w, env, s) && IsPath(w, s.best, path) && o !in s.api
    ensures LegalRun(w, env, s, OneByOne(path))
    ensures HeightsOf(After(w, env, s, OneByOne(path)).utxo, o) == HeightsOf(Forward(w, env, s.utxo, s.best, path), o)
  {
    OneByOneLegal(w, env, s, path);
    ForwardRow(w, env, s.base, s.best, path, s.utxo, s.api, o);
    if path == [] {
      assert OneByOne(path) == [] && After(w, env, s, []) == s;
      assert SpendRight(w, env, w.blocks[s.base].height, s.best, s.best, HeightsOf(s.utxo, o), o)
             || SpendLost(w, env, w.blocks[s.base].height, s.best, HeightsOf(s.utxo, o), o);
    } else {
      OneByOneRow(w, env, s, path, o);
    }
  }

  // The heights after committing block by block: those of the chain, except for what was lost before.
  lemma {:induction false} OneByOneRow(w: World, env: Env, s: Snap, path: seq<Hash>, o: Outpoint)
    requires ValidWorld(w) && SnapSound(w, env, s) && IsPath(w, s.best, path) && o !in s.api
    requires LegalRun(w, env, s, OneByOne(path)) && path != []
    ensures var k := w.blocks[s.base].height; var h := Spec(w, env, k, Tip(s.best, path), o);
            HeightsOf(After(w, env, s, OneByOne(path)).utxo, o) ==
            if SpendLost(w, env, k, s.best, HeightsOf(s.utxo, o), o) then h.(spending := None, spent := None) else h
    decreases |path|
  {
    PathHead(w, s.best, path);
    var mv := Extend([path[0]]);
    var s' := Do(w, env, s, mv);
    ForwardRow(w, env, s.base, s.best, [path[0]], s.utxo, s.api, o);
    MoveSound(w, env, s, mv);
    assert OneByOne(path)[0] == mv && OneByOne(path)[1..] == OneByOne(path[1..]);
    hide ValidWorld, Forward, SnapSound;
    if |path| == 1 {
      assert path[1..] == [] && OneByOne(path[1..]) == [];
      assert LegalRun(w, env, s', []) && After(w, env, s', []) == s';
    } else {
      OneByOneRow(w, env, s', path[1..], o);
    }
  }

  // ----------------------------------------------- when exactly rollback is exact

  // The blocks from just above `from` to tip.
  function PathTo(w: World, from: Hash, tip: Hash): (p: seq<Hash>)
    requires ValidTree(w) && OnChain(w, from, tip)
    ensures IsPath(w, from, p) && Tip(from, p) == tip
    decreases w.blocks[tip].height
  {
    if tip == from then [] else
      var p := PathTo(w, from, w.blocks[tip].prev);
      assert (p + [tip])[..|p|] == p;
      p + [tip]
  }

  /** The chain to tip, followed from block b, spends an output before it makes it spendable. */
  ghost predicate EarlyAbove(w: World, env: Env, b: Hash, tip: Hash, o: Outpoint)
    requires ValidTree(w) && OnChain(w, b, tip)
  {
    var h := Spec(w, env, w.blocks[b].height, tip, o);
    h.spendable.Some? && h.spending.Some? && h.spending.value < h.spendable.value
  }

  lemma EarlySpendDamages(w: World, env: Env, b: Hash, tip: Hash, o: Outpoint, u: UtxoTable)
    requires ValidWorld(w) && OnChain(w, b, tip) && EarlyAbove(w, env, b, tip, o)
    requires AllExact(w, env, b, tip, u, {})
    ensures var target := AncestorAt(w, tip, Spec(w, env, w.blocks[b].height, tip, o).spending.value);
            && w.blocks[target].height > w.blocks[b].height
            && !AllExact(w, env, b, target, Revert(u, w.blocks[target].height), {})
  {
    var target := AncestorAt(w, tip, Spec(w, env, w.blocks[b].height, tip, o).spending.value);
    AllExactHeights(w, env, b, tip, u, {}, o);
    SpentAfterAdded(w, env, w.blocks[b].height, tip, o);
    assert o in u && Damaged(u[o].heights, w.blocks[target].height);
    RollbackAllExactIff(w, env, b, tip, target, u, {});
  }

  lemma TwoMoves(w: World, env: Env, s: Snap, a: Move, b: Move)
    requires ValidTree(w) && Legal(w, s, a) && Legal(w, Do(w, env, s, a), b)
    ensures LegalRun(w, env, s, [a, b]) && After(w, env, s, [a, b]) == Do(w, env, Do(w, env, s, a), b)
  {
    var s1 := Do(w, env, s, a);
    assert [a, b][1..] == [b] && [b][1..] == [];
    assert LegalRun(w, env, s1, [b]);
    assert After(w, env, s1, [b]) == Do(w, env, s1, b);
  }

  // Following a chain from b to tip and going back to one of its blocks above b.
  function UpAndBack(w: World, b: Hash, tip: Hash, target: Hash): seq<Move>
    requires ValidTree(w) && OnChain(w, b, tip)
  {
    [Extend(PathTo(w, b, tip)), Rollback(target)]
  }

  lemma UpAndBackLegal(w: World, env: Env, b: Hash, tip: Hash, target: Hash)
    requires ValidTree(w) && OnChain(w, b, tip) && OnChain(w, target, tip) && w.blocks[target].height >= w.blocks[b].height
    ensures var run := UpAndBack(w, b, tip, target); var u := Forward(w, env, map[], b, PathTo(w, b, tip));
            && LegalRun(w, env, Start(b), run) && StaysAbove(w, b, run)
            && After(w, env, Start(b), run) == Snap(Revert(u, w.blocks[target].height), b, target, {})
  {
    hide Forward, Revert, AncestorAt;
    TwoMoves(w, env, Start(b), Extend(PathTo(w, b, tip)), Rollback(target));
  }

  /** If some chain above a block makes an output spendable after spending it, following that chain from the block and
      then rolling back to where it is spent loses the spend. */
  lemma EarlySpendBreaksRollback(w: World, env: Env, b: Hash, tip: Hash, o: Outpoint)
    requires ValidWorld(w) && OnChain(w, b, tip) && EarlyAbove(w, env, b, tip, o)
    ensures var run := UpAndBack(w, b, tip, AncestorAt(w, tip, Spec(w, env, w.blocks[b].height, tip, o).spending.value));
            && LegalRun(w, env, Start(b), run) && StaysAbove(w, b, run)
            && !SnapAllExact(w, env, After(w, env, Start(b), run))
  {
    var target := AncestorAt(w, tip, Spec(w, env, w.blocks[b].height, tip, o).spending.value);
    assert OnChain(w, target, tip);
    hide ValidWorld, ValidTree, Exact, SpendExact, Forward, Revert, AncestorAt, Spec, LegalRun, After, EarlyAbove;
    StartExact(w, env, b);
    ForwardExact(w, env, b, b, PathTo(w, b, tip), map[], {});
    EarlySpendDamages(w, env, b, tip, o, Forward(w, env, map[], b, PathTo(w, b, tip)));
    UpAndBackLegal(w, env, b, tip, target);
  }

  // No rollback of the run goes below block b.
  predicate StaysAbove(w: World, b: Hash, run: seq<Move>)
    requires b in w.blocks
  {
    forall i | 0 <= i < |run| && run[i].Rollback? :: run[i].target in w.blocks && w.blocks[run[i].target].height >= w.blocks[b].height
  }

  // A move that stays above b, on a world without early spends above b.
  lemma MoveAbove(w: World, env: Env, b: Hash, s: Snap, mv: Move)
    requires ValidWorld(w) && SnapAllExact(w, env, s) && Legal(w, s, mv) && s.base == b
    requires mv.Rollback? ==> w.blocks[mv.target].height >= w.blocks[b].height
    requires forall tip, o: Outpoint | OnChain(w, b, tip) :: !EarlyAbove(w, env, b, tip, o)
    ensures SnapAllExact(w, env, Do(w, env, s, mv)) && Do(w, env, s, mv).base == b
  {
    match mv
    case Extend(path) => ForwardExact(w, env, s.base, s.best, path, s.utxo, s.api);
    case Rollback(target) =>
      forall o | o in s.utxo && o !in s.api ensures !Damaged(s.utxo[o].heights, w.blocks[target].height) {
        AllExactHeights(w, env, b, s.best, s.utxo, s.api, o);
        assert !EarlyAbove(w, env, b, s.best, o);
      }
      RollbackAllExactIff(w, env, s.base, s.best, target, s.utxo, s.api);
    case _ => ApiExact(w, env, s, mv);
  }

  lemma {:induction false} RunAbove(w: World, env: Env, b: Hash, s: Snap, run: seq<Move>)
    requires ValidWorld(w) && SnapAllExact(w, env, s) && LegalRun(w, env, s, run) && s.base == b && StaysAbove(w, b, run)
    requires forall tip, o: Outpoint | OnChain(w, b, tip) :: !EarlyAbove(w, env, b, tip, o)
    ensures SnapAllExact(w, env, After(w, env, s, run))
    decreases |run|
  {
    if run != [] {
      MoveAbove(w, env, b, s, run[0]);
      assert forall i | 0 <= i < |run| - 1 :: run[1..][i] == run[i + 1];
      hide ValidWorld, SnapAllExact, Legal, Do, EarlyAbove;
      RunAbove(w, env, b, Do(w, env, s, run[0]), run[1..]);
    }
  }

  /** Following starts at some block b. The table is exact after every run that never goes below b if and only if no chain
      above b spends an output before it makes it spendable. */
  lemma ConfluenceAboveIff(w: World, env: Env, b: Hash)
    requires ValidWorld(w) && b in w.blocks
    ensures (forall tip, o: Outpoint | OnChain(w, b, tip) :: !EarlyAbove(w, env, b, tip, o))
       <==> forall run: seq<Move> :: LegalRun(w, env, Start(b), run) && StaysAbove(w, b, run) ==> SnapAllExact(w, env, After(w, env, Start(b), run))
  {
    StartExact(w, env, b);
    hide ValidWorld, SnapAllExact, LegalRun, After, EarlyAbove, AncestorAt, Spec;
    if forall tip, o: Outpoint | OnChain(w, b, tip) :: !EarlyAbove(w, env, b, tip, o) {
      forall run: seq<Move> | LegalRun(w, env, Start(b), run) && StaysAbove(w, b, run)
        ensures SnapAllExact(w, env, After(w, env, Start(b), run))
      {
        RunAbove(w, env, b, Start(b), run);
      }
    } else {
      var tip, o: Outpoint :| OnChain(w, b, tip) && EarlyAbove(w, env, b, tip, o);
      EarlySpendBreaksRollback(w, env, b, tip, o);
    }
  }

  // From any start a rollback to the genesis block leads to where a run from there begins.
  lemma FromGenesis(w: World, env: Env, b: Hash, run: seq<Move>)
    requires ValidTree(w) && b in w.blocks && LegalRun(w, env, Start(w.genesis), run)
    ensures var run' := [Rollback(w.genesis)] + run;
            LegalRun(w, env, Start(b), run') && After(w, env, Start(b), run') == After(w, env, Start(w.genesis), run)
  {
    GenesisOnChain(w, b);
    var mv := Rollback(w.genesis);
    assert Revert(map[], 0) == map[];
    assert Do(w, env, Start(b), mv) == Start(w.genesis);
    assert ([mv] + run)[1..] == run;
  }

  lemma BreaksFromAnywhere(w: World, env: Env, b: Hash, tip: Hash, o: Outpoint)
    requires ValidWorld(w) && b in w.blocks && tip in w.blocks && SpentEarly(w, env, tip, o)
    ensures exists run: seq<Move> :: LegalRun(w, env, Start(b), run) && !SnapAllExact(w, env, After(w, env, Start(b), run))
  {
    GenesisOnChain(w, tip);
    assert EarlyAbove(w, env, w.genesis, tip, o);
    hide ValidWorld, SnapAllExact, LegalRun, After, AncestorAt, Spec, StaysAbove, EarlyAbove;
    EarlySpendBreaksRollback(w, env, w.genesis, tip, o);
    var run := UpAndBack(w, w.genesis, tip, AncestorAt(w, tip, Spec(w, env, w.blocks[w.genesis].height, tip, o).spending.value));
    FromGenesis(w, env, b, run);
  }

  /** The table is exact after every run at all, wherever following starts, if and only if no chain spends an output before
      it makes it spendable. */
  lemma ConfluenceIff(w: World, env: Env, b: Hash)
    requires ValidWorld(w) && b in w.blocks
    ensures SpentWhenSpendable(w, env) <==>
            forall run: seq<Move> :: LegalRun(w, env, Start(b), run) ==> SnapAllExact(w, env, After(w, env, Start(b), run))
  {
    StartExact(w, env, b);
    hide ValidWorld, SnapAllExact, LegalRun, After, AncestorAt, Spec, StaysAbove;
    if SpentWhenSpendable(w, env) {
      forall run: seq<Move> | LegalRun(w, env, Start(b), run) ensures SnapAllExact(w, env, After(w, env, Start(b), run)) {
        RunExact(w, env, Start(b), run);
      }
    } else {
      var tip, o: Outpoint :| tip in w.blocks && SpentEarly(w, env, tip, o);
      BreaksFromAnywhere(w, env, b, tip, o);
    }
  }
}
