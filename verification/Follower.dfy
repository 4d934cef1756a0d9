/** ChainFollower: walks Core's tree while Core is free to change its mind between
    any two requests, and commits batches and rollbacks to the store. The other
    services commit what they like whenever it begins a transaction. */
module Follower {
  import opened Options
  import opened BlockTree
  import opened Ledger
  import opened Confluence
  import opened Tables
  import opened Guarantees
  import opened Feed
  import opened Store
  import Wallet
  import Service
  import opened Others
  import Backing
  import Recorded

  const BLOCKS_PER_COMMIT := 10
  const COMMIT_ATTEMPTS := 10

  datatype ChainPos = ChainPos(hash: Hash, height: int, next: Hash, nextSeq: int)

  // ------------------------------------------------------------ what was done

  datatype Step = Applied(block: Hash) | RolledBack(target: Hash) | Resynced(target: Hash)

  function EndOf(start: Hash, trail: seq<Step>): Hash {
    if trail == [] then start else
      match trail[|trail| - 1]
      case Applied(h) => h
      case RolledBack(h) => h
      case Resynced(h) => h
  }

  /** Every applied block is a child of the block before it, and every reorg rollback goes to an ancestor. */
  ghost predicate TrailOk(w: World, start: Hash, trail: seq<Step>)
    requires ValidTree(w)
  {
    trail == [] ||
    (var n := |trail| - 1;
     && TrailOk(w, start, trail[..n])
     && match trail[n]
        case Applied(h) => h in w.blocks && h != w.genesis && w.blocks[h].prev == EndOf(start, trail[..n])
        case RolledBack(h) => OnChain(w, h, EndOf(start, trail[..n]))
        case Resynced(h) => h in w.blocks)
  }

  /** What a walk may add to the trail: blocks and reorg rollbacks, but no resync. */
  ghost predicate Walked(trail: seq<Step>, trail': seq<Step>) {
    trail <= trail' && forall i | |trail| <= i < |trail'| :: !trail'[i].Resynced?
  }

  lemma WalkedOn(a: seq<Step>, b: seq<Step>, c: seq<Step>)
    requires Walked(a, b) && Walked(b, c)
    ensures Walked(a, c)
  {
  }

  lemma WalkedOne(trail: seq<Step>)
    ensures Walked(trail, trail) && forall h :: Walked(trail, trail + [RolledBack(h)])
  {
  }

  function AppliedAll(path: seq<Hash>): seq<Step> {
    seq(|path|, i requires 0 <= i < |path| => Applied(path[i]))
  }

  lemma {:induction false} TrailApplied(w: World, start: Hash, trail: seq<Step>, path: seq<Hash>)
    requires ValidTree(w) && TrailOk(w, start, trail) && IsPath(w, EndOf(start, trail), path)
    ensures TrailOk(w, start, trail + AppliedAll(path)) && EndOf(start, trail + AppliedAll(path)) == Tip(EndOf(start, trail), path)
  {
    if path == [] {
      assert trail + AppliedAll(path) == trail;
    } else {
      var n := |path| - 1;
      TrailApplied(w, start, trail, path[..n]);
      var t := trail + AppliedAll(path);
      assert t[..|t| - 1] == trail + AppliedAll(path[..n]);
      assert t[|t| - 1] == Applied(path[n]);
    }
  }

  // A batch and the rollback that may follow it.
  lemma BatchWalked(trail: seq<Step>, path: seq<Hash>, target: Hash)
    ensures Walked(trail, trail + AppliedAll(path)) && Walked(trail, trail + AppliedAll(path) + [RolledBack(target)])
    ensures trail + AppliedAll([]) == trail
  {
  }

  lemma TrailMore(w: World, start: Hash, trail: seq<Step>, step: Step)
    requires ValidTree(w) && TrailOk(w, start, trail)
    requires match step
             case Applied(h) => h in w.blocks && h != w.genesis && w.blocks[h].prev == EndOf(start, trail)
             case RolledBack(h) => OnChain(w, h, EndOf(start, trail))
             case Resynced(h) => h in w.blocks
    ensures TrailOk(w, start, trail + [step])
  {
    assert (trail + [step])[..|trail|] == trail;
  }

  lemma OneBlockPath(w: World, from: Hash, b: Hash)
    requires ValidTree(w)
    ensures IsPath(w, from, [b]) <==> b in w.blocks && b != w.genesis && w.blocks[b].prev == from
  {
    assert [b][..0] == [];
    assert IsPath(w, from, [b][..0]);
  }

  /** The transaction ids of a batch, in order. */
  ghost function PathTxids(w: World, path: seq<Hash>): seq<TxId>
    requires ValidTree(w) && forall h | h in path :: h in w.blocks
  {
    if path == [] then [] else PathTxids(w, path[..|path| - 1]) + w.blocks[path[|path| - 1]].txids
  }

  /** A batch fetched so far: path leads from startPos to pos, and its changes are collected in order. */
  ghost predicate BatchOk(w: World, startPos: ChainPos, pos: ChainPos, changes: seq<Change>, txIDs: seq<TxId>, path: seq<Hash>, blockCount: int) {
    && ValidTree(w) && startPos.hash in w.blocks && IsPath(w, startPos.hash, path) && |path| == blockCount
    && changes == PathChanges(w, path) && txIDs == PathTxids(w, path)
    && pos.hash == Tip(startPos.hash, path) && pos.height == w.blocks[pos.hash].height
    && pos.nextSeq == startPos.nextSeq && (blockCount == 0 ==> pos == startPos)
    && (pos.next != "" ==> IsPath(w, pos.hash, [pos.next]))
  }

  lemma BatchStarts(w: World, startPos: ChainPos)
    requires ValidTree(w) && startPos.hash in w.blocks && startPos.height == w.blocks[startPos.hash].height
    requires startPos.next != "" ==> IsPath(w, startPos.hash, [startPos.next])
    ensures BatchOk(w, startPos, startPos, [], [], [], 0)
  {
  }

  /** A batch grows by one block at a time. */
  lemma BatchGrows(w: World, startPos: ChainPos, pos: ChainPos, changes: seq<Change>, txIDs: seq<TxId>,
                   path: seq<Hash>, blockCount: int, pos': ChainPos)
    requires BatchOk(w, startPos, pos, changes, txIDs, path, blockCount) && pos.next != ""
    requires pos'.hash == pos.next && pos'.nextSeq == pos.nextSeq && pos'.hash in w.blocks && pos'.height == w.blocks[pos'.hash].height
    requires pos'.next != "" ==> IsPath(w, pos'.hash, [pos'.next])
    ensures BatchOk(w, startPos, pos', changes + BlockChanges(w, w.blocks[pos.next].txids, w.blocks[pos.next].height),
                    txIDs + w.blocks[pos.next].txids, path + [pos.next], blockCount + 1)
  {
    OneBlockPath(w, pos.hash, pos.next);
    assert (path + [pos.next])[..|path|] == path;
  }

  // --------------------------------------------------------------- the service

  class ChainFollower {
    const w: World             // the blocks Core knows
    const tips: nat -> Hash    // Core's active tip at each request
    var clock: nat             // requests made so far
    const confirmations: int
    const store: SQLiteStore
    const others: (nat, Db) -> Db   // what the other services have made of the tables when the n-th transaction begins
    ghost const moves: Moves
    ghost const start: Hash
    ghost var trail: seq<Step>
    ghost var now: Now

    /** Resume from the stored chainstate. */
    constructor (w: World, tips: nat -> Hash, confirmations: int, store: SQLiteStore, others: (nat, Db) -> Db,
                 ghost moves: Moves, ghost state: Wallet.State)
      requires ValidWorld(w) && (forall t: nat :: tips(t) in w.blocks) && OthersAre(w, confirmations, others, moves)
      requires state.db == store.db && Wallet.StateOk(w, confirmations, state)
      ensures this.w == w && this.tips == tips && this.store == store && this.confirmations == confirmations
      ensures now == Now(state, true, true, true)
      ensures this.others == others && this.moves == moves
      ensures Valid() && clock == 0 && trail == []
    {
      this.w, this.tips, this.confirmations, this.store, now := w, tips, confirmations, store, Now(state, true, true, true);
      this.others, this.moves, clock, start, trail := others, moves, 0, store.db.chain.bestHash, [];
    }

    // Holds in every committed now, even after a manual resync to another branch.
    ghost predicate Valid()
      reads this, store
    {
      && CoreOk() && ValidWorld(w) && start in w.blocks && OthersAre(w, confirmations, others, moves)
      && now.s.db == store.db && Wallet.BestOk(w, now.s) && Wallet.StateOk(w, confirmations, now.s)
      && TrailOk(w, start, trail) && EndOf(start, trail) == store.db.chain.bestHash
    }

    // What was true of the tables still is.
    ghost predicate Kept(was: Now)
      requires Valid()
      reads this, store
    {
      Preserves(w, confirmations, was, now)
    }

    // Only the other services have changed the tables since.
    ghost predicate OthersOnly(was: Now)
      requires Valid()
      reads this, store
    {
      Service.Ran(w, confirmations, was.s, now.s)
    }

    /** A transaction begins on what the other services have committed by then. */
    method LetOthers()
      requires Valid()
      modifies this`now, store`db
      ensures Valid() && OthersOnly(old(now)) && Kept(old(now)) && PreservesAnywhere(old(now), now)
      ensures store.db.chain == old(store.db).chain
    {
      assert ValidTree(w) && OthersAt(w, confirmations, others, moves, store.attempts, now.s);
      hide Wallet.StateOk, ValidWorld, Preserves, PreservesAnywhere, Service.Ran, TrailOk, OthersAre;
      store.db := others(store.attempts, store.db);
      OthersKeep(w, confirmations, moves, store.attempts, now);
      now := Meanwhile(w, confirmations, moves, store.attempts, now);
    }

    ghost predicate PosOk(pos: ChainPos)
      requires Valid()
      reads this, store
    {
      && pos.hash == store.db.chain.bestHash && pos.height == store.db.chain.bestHeight && pos.nextSeq == store.db.chain.nextSeq
      && (pos.next != "" ==> IsPath(w, pos.hash, [pos.next]))
    }

    /** At request t, Core had pos on its chain and pos.next as its successor. */
    ghost predicate SeenAt(pos: ChainPos, t: nat)
      requires CoreOk()
    {
      Fresh(pos, tips(t))
    }

    ghost predicate Fresh(pos: ChainPos, tip: Hash)
      requires ValidTree(w) && tip in w.blocks
    {
      OnChain(w, pos.hash, tip) && pos.next == HeaderOf(w, pos.hash, tip).next
    }

    // The tree is well formed and Core's tip is always in it.
    ghost predicate CoreOk() {
      ValidTree(w) && forall t: nat :: tips(t) in w.blocks
    }

    /** Core keeps its tip from request t onwards. */
    ghost predicate Stable(t: nat) {
      forall t': nat | t' >= t :: tips(t') == tips(t)
    }

    // ------------------------------------------------------------ requests

    method FetchBlockHeader(hash: Hash) returns (hdr: Header)
      requires ValidTree(w) && hash in w.blocks && forall t: nat :: tips(t) in w.blocks
      modifies this`clock
      ensures clock == old(clock) + 1 && hdr == HeaderOf(w, hash, tips(old(clock)))
    {
      hdr := HeaderOf(w, hash, tips(clock));
      clock := clock + 1;
    }

    // The inputs of a transaction first, then its outputs.
    method ProcessTx(id: TxId, height: int, changes: seq<Change>) returns (changes': seq<Change>)
      requires id in w.txs
      ensures changes' == changes + (SpendChanges(w.txs[id].vin, height, id) + NewChanges(w.txs[id].vout, height, id))
    {
      var tx := w.txs[id];
      var spends: seq<Change> := [];
      for i := 0 to |tx.vin|
        invariant spends == SpendChanges(tx.vin[..i], height, id)
      {
        assert tx.vin[..i + 1][..i] == tx.vin[..i];
        if tx.vin[i].vout != COINBASE_VOUT {
          spends := spends + [Spent(tx.vin[i], height, id)];
        }
      }
      assert tx.vin[..|tx.vin|] == tx.vin;
      var news: seq<Change> := [];
      for n := 0 to |tx.vout|
        invariant news == NewChanges(tx.vout[..n], height, id)
      {
        assert tx.vout[..n + 1][..n] == tx.vout[..n];
        if tx.vout[n].value > 0 && tx.vout[n].payee.Some? {
          news := news + [New(Outpoint(id, n), tx.vout[n].value, tx.vout[n].payee.value, height)];
        }
      }
      assert tx.vout[..|tx.vout|] == tx.vout;
      changes' := changes + (spends + news);
    }

    lemma BlockChangesNext(ids: seq<TxId>, t: nat, height: int, before: seq<Change>)
      requires t < |ids| && forall i | 0 <= i < |ids| :: ids[i] in w.txs
      ensures var tx := w.txs[ids[t]];
              before + BlockChanges(w, ids[..t], height) + (SpendChanges(tx.vin, height, ids[t]) + NewChanges(tx.vout, height, ids[t]))
              == before + BlockChanges(w, ids[..t + 1], height)
    {
      assert ids[..t + 1][..t] == ids[..t];
    }

    /** Collect the changes of one block, transaction by transaction. */
    method ProcessBlock(hash: Hash, height: int, changes: seq<Change>, txIDs: seq<TxId>)
      returns (changes': seq<Change>, txIDs': seq<TxId>)
      requires ValidTree(w) && hash in w.blocks
      ensures changes' == changes + BlockChanges(w, w.blocks[hash].txids, height)
      ensures forall ch :: ch in changes' <==> ch in changes || Recorded.IsChange(w, w.blocks[hash].txids, height, ch)
      ensures txIDs' == txIDs + w.blocks[hash].txids
    {
      changes', txIDs' := changes, txIDs;
      var ids := w.blocks[hash].txids;
      Recorded.ChangesAre(w, ids, height, changes);
      assert BlockChanges(w, ids[..0], height) == [];
      hide BlockChanges, SpendChanges, NewChanges, Recorded.IsChange;
      for t := 0 to |ids|
        invariant changes' == changes + BlockChanges(w, ids[..t], height)
        invariant txIDs' == txIDs + ids[..t]
      {
        var id := ids[t];
        BlockChangesNext(ids, t, height, changes);
        assert ids[..t + 1] == ids[..t] + [id];
        txIDs' := txIDs' + [id];
        changes' := ProcessTx(id, height, changes');
      }
      assert ids[..|ids|] == ids;
    }

    // ------------------------------------------------------- forward batches

    /** Apply the collected changes, noting every account whose rows change. */
    method ApplyUTXOChanges(changes: seq<Change>, accounts: AccountMap)
      requires accounts.Valid()
      modifies store`db, accounts
      ensures store.db == old(store.db).(utxo := Apply(old(store.db).utxo, old(store.db).address, changes))
      ensures accounts.Valid() && UtxoReported(old(store.db).utxo, store.db.utxo, accounts.accounts.Keys)
    {
      ghost var u0 := store.db.utxo;
      for i := 0 to |changes|
        invariant store.db == old(store.db).(utxo := Apply(u0, old(store.db).address, changes[..i]))
        invariant accounts.Valid() && UtxoReported(u0, store.db.utxo, accounts.accounts.Keys)
      {
        assert changes[..i + 1][..i] == changes[..i];
        ghost var before := store.db.utxo;
        match changes[i]
        case New(o, value, address, height) =>
          if address in store.db.address {
            var owner := store.db.address[address];
            store.CreateUTXO(o, value, address, owner, height);
            accounts.Add(owner.account);
          }
        case Spent(o, height, spender) =>
          var id := store.MarkUTXOSpent(o, height, spender);
          if id != "" { accounts.Add(id); }
        assert UtxoReported(before, store.db.utxo, accounts.accounts.Keys);
        ReportedTwice(u0, before, store.db.utxo, accounts.accounts.Keys);
      }
      assert changes[..|changes|] == changes;
    }

    // Outputs: the collected changes, then the confirmations that fall due.
    method ConfirmOutputs(changes: seq<Change>, height: int, accounts: AccountMap)
      requires accounts.Valid()
      modifies store`db, accounts
      ensures store.db == old(store.db).(utxo := Confirm(Apply(old(store.db).utxo, old(store.db).address, changes), EnvOf(old(store.db), confirmations), height))
      ensures accounts.Valid() && UtxoReported(old(store.db).utxo, store.db.utxo, accounts.accounts.Keys)
    {
      hide NumberAll, Apply, Confirm, FreshSeqs;
      ghost var db0 := store.db;
      ApplyUTXOChanges(changes, accounts);
      ghost var db1, keys := store.db, accounts.accounts.Keys;
      Wallet.EnvStays(db0, db1, confirmations);
      var ids := store.ConfirmUTXOs(confirmations, height);
      accounts.AddIds(ids);
      assert keys <= accounts.accounts.Keys;
      ReportedTwice(db0.utxo, db1.utxo, store.db.utxo, accounts.accounts.Keys);
    }

    lemma PaymentsReported(pay: PaymentTable, txIDs: seq<TxId>, height: int, keys: set<AccountId>)
      requires var mid := MarkOnChain(pay, |txIDs|, height);
               PaymentReported(pay, mid, keys) && PaymentReported(mid, Tables.ConfirmPayments(mid, confirmations, height), keys)
      ensures PaymentReported(pay, Tables.ConfirmPayments(MarkOnChain(pay, |txIDs|, height), confirmations, height), keys)
    {
      var mid := MarkOnChain(pay, |txIDs|, height);
      assert forall p | p in pay :: p in mid && mid[p].account == pay[p].account;
    }

    // Payments: on chain, then confirmed.
    method ConfirmOutgoing(txIDs: seq<TxId>, height: int, accounts: AccountMap)
      requires accounts.Valid()
      modifies store`db, accounts
      ensures store.db == old(store.db).(payment := Tables.ConfirmPayments(MarkOnChain(old(store.db).payment, |txIDs|, height), confirmations, height))
      ensures accounts.Valid() && old(accounts.accounts).Keys <= accounts.accounts.Keys
      ensures PaymentReported(old(store.db).payment, store.db.payment, accounts.accounts.Keys)
    {
      hide NumberAll, FreshSeqs, MarkOnChain, Tables.ConfirmPayments;
      ghost var pay := store.db.payment;
      var ids := store.MarkPaymentsOnChain(txIDs, height);
      accounts.AddIds(ids);
      ghost var keys := accounts.accounts.Keys;
      ids := store.ConfirmPayments(confirmations, height);
      accounts.AddIds(ids);
      assert keys <= accounts.accounts.Keys;
      PaymentsReported(pay, txIDs, height, accounts.accounts.Keys);
    }

    /** Everything between Begin and Commit of a forward batch. */
    method ApplyInTransaction(changes: seq<Change>, txIDs: seq<TxId>, pos: ChainPos) returns (accounts: AccountMap)
      requires Valid() && pos.nextSeq == store.db.chain.nextSeq
      modifies store`db
      ensures fresh(accounts) && accounts.Valid() && accounts.first == pos.nextSeq
      ensures store.db == ForwardDb(w, confirmations, old(store.db), changes, txIDs, pos.hash, pos.height, accounts.accounts, accounts.nextSeq)
      ensures Reports(old(store.db), store.db, accounts.accounts)
    {
      hide NumberAll, Apply, Confirm, FreshSeqs, MarkPaid, MarkOnChain, Tables.ConfirmPayments, Wallet.StateOk, Wallet.BestOk, TrailOk, OthersAre;
      accounts := new AccountMap(pos.nextSeq);
      ConfirmOutputs(changes, pos.height, accounts);
      ghost var keys := accounts.accounts.Keys;
      var ids := store.MarkInvoicesPaid(pos.height, pos.hash);
      accounts.AddIds(ids);
      assert keys <= accounts.accounts.Keys && forall id | id in ids :: id in accounts.accounts;
      ConfirmOutgoing(txIDs, pos.height, accounts);
      store.IncChainSeqForAccounts(accounts.accounts);
      store.UpdateChainState(pos.hash, pos.height, accounts.nextSeq);
    }

    /** The tables are what they were, after some moves of the other services and the batch. */
    ghost predicate BatchDone(was: Now, changes: seq<Change>, txIDs: seq<TxId>, pos: ChainPos)
      requires CoreOk()
      reads store
    {
      exists before, seqs :: Service.Ran(w, confirmations, was.s, before)
        && store.db == ForwardDb(w, confirmations, before.db, changes, txIDs, pos.hash, pos.height, seqs, pos.nextSeq)
    }

    /** One attempt to commit a batch: all of it, or no trace. */
    method AttemptToApplyChanges(changes: seq<Change>, txIDs: seq<TxId>, pos: ChainPos, ghost path: seq<Hash>)
      returns (newPos: ChainPos, ok: bool)
      requires Valid() && path != [] && IsPath(w, store.db.chain.bestHash, path) && changes == PathChanges(w, path)
      requires pos.hash == Tip(store.db.chain.bestHash, path) && pos.height == w.blocks[pos.hash].height
      requires pos.nextSeq == store.db.chain.nextSeq
      modifies this`now, this`trail, store`db, store`saved, store`attempts
      ensures Valid() && Kept(old(now))
      ensures store.attempts == old(store.attempts) + 1 && ok == store.commits(old(store.attempts))
      ensures !ok ==> OthersOnly(old(now)) && store.db.chain == old(store.db).chain && newPos == pos && trail == old(trail)
      ensures ok ==> newPos == pos.(nextSeq := store.db.chain.nextSeq) && store.db.chain.bestHash == pos.hash
      ensures ok ==> BatchDone(old(now), changes, txIDs, newPos)
      ensures ok ==> trail == old(trail) + AppliedAll(path)
      ensures ok && Backing.PaidOk(old(now).s) ==> PaidIff(store.db.utxo, store.db.invoice)
    {
      hide Wallet.Good, Wallet.StateOk, ValidWorld, Reports, Apply, Confirm, Preserves, PreservesAnywhere, Service.Ran, OthersAre, PaidIff, FreshSeqs, Backing.PaidOk, Backing.AnchoredAt;
      LetOthers();
      ghost var before := now;
      var snapshot := store.Begin();
      var accounts := ApplyInTransaction(changes, txIDs, pos);
      ok := store.Commit(snapshot);
      newPos := pos;
      if ok {
        newPos := pos.(nextSeq := accounts.nextSeq);
        ghost var mv := Wallet.Forward(path, txIDs, accounts.accounts, accounts.nextSeq);
        ForwardCommits(old(now), before, mv);
        TrailApplied(w, start, trail, path);
        now := before.(s := Wallet.Next(w, confirmations, before.s, mv));
        trail := trail + AppliedAll(path);
      }
    }

    // A forward commit on what the other services have made of the tables.
    lemma ForwardCommits(was: Now, before: Now, mv: Wallet.Move)
      requires ValidWorld(w) && Wallet.StateOk(w, confirmations, before.s) && mv.Forward? && Wallet.Allowed(w, confirmations, before.s, mv)
      requires Wallet.BestOk(w, before.s) && was.s.db.chain.bestHash in w.blocks
      requires Preserves(w, confirmations, was, before) && PreservesAnywhere(was, before)
      ensures var b := before.(s := Wallet.Next(w, confirmations, before.s, mv));
              && Wallet.StateOk(w, confirmations, b.s) && Wallet.BestOk(w, b.s) && Preserves(w, confirmations, was, b)
              && (Backing.PaidOk(was.s) ==> PaidIff(b.s.db.utxo, b.s.db.invoice))
    {
      assert ValidTree(w);
      hide Wallet.StateOk, ValidWorld, Wallet.Next, Wallet.Allowed, PaidIff, KeepsAmounts, KeepsMatch, KeepsGood, KeepsSound, Backing.PaidOk, Backing.AnchoredAt;
      CommitKeeps(w, confirmations, before, mv);
      PreservesOn(w, confirmations, was, before, before.(s := Wallet.Next(w, confirmations, before.s, mv)));
      if Backing.PaidOk(was.s) { Backing.MovePaid(w, confirmations, before.s, mv); }
    }

    // ------------------------------------------------------------- rollback

    /** Commits happen again and again; without this no retry loop ends. */
    ghost predicate StoreCommits() {
      forall n: nat :: CommitsAfter(n)
    }

    ghost predicate CommitsAfter(n: nat) {
      exists m: nat :: m >= n && store.commits(m)
    }

    ghost function NextCommit(n: nat): (m: nat)
      requires StoreCommits()
      ensures m >= n && store.commits(m)
    {
      assert CommitsAfter(n);
      var m: nat :| m >= n && store.commits(m); m
    }

    // Everything between Begin and Commit of a rollback.
    method RevertInTransaction(pos: ChainPos) returns (newSeq: int, ghost seqs: SeqMap)
      modifies store`db
      ensures store.db == RollbackDb(old(store.db), pos.hash, pos.height, seqs, newSeq)
      ensures FreshSeqs(seqs, pos.nextSeq, newSeq) && Reports(old(store.db), store.db, seqs)
    {
      newSeq, seqs := store.RevertChangesAboveHeight(pos.height, pos.nextSeq);
      store.UpdateChainState(pos.hash, pos.height, newSeq);
    }

    /** The tables are what they were, after some moves of the other services and a rollback to pos. */
    ghost predicate RollbackDone(was: Now, pos: ChainPos)
      requires CoreOk()
      reads store
    {
      exists before, seqs :: Service.Ran(w, confirmations, was.s, before)
        && store.db == RollbackDb(before.db, pos.hash, pos.height, seqs, pos.nextSeq)
    }

    // A rollback commit on what the other services have made of the tables.
    lemma RollbackCommits(was: Now, before: Now, target: Hash, seqs: SeqMap, newSeq: int)
      requires ValidWorld(w) && Wallet.BestOk(w, before.s) && Wallet.StateOk(w, confirmations, before.s) && target in w.blocks
      requires Wallet.RollbackReports(w, before.s.db, target, seqs, newSeq)
      requires Preserves(w, confirmations, was, before) && PreservesAnywhere(was, before)
      ensures var b := before.(s := Wallet.Rolled(w, before.s, target, seqs, newSeq));
              && Wallet.StateOk(w, confirmations, b.s) && Wallet.BestOk(w, b.s) && PreservesAnywhere(was, b)
              && (OnChain(w, target, before.s.db.chain.bestHash) ==> Preserves(w, confirmations, was, b))
    {
      assert ValidTree(w);
      hide Wallet.StateOk, ValidWorld, Preserves, PreservesAnywhere, AncestorAt, Wallet.RollbackReports, RollbackDb;
      var mv := Wallet.Resync(target, seqs, newSeq);
      var b := before.(s := Wallet.Rolled(w, before.s, target, seqs, newSeq));
      assert Wallet.Allowed(w, confirmations, before.s, mv);
      CommitKeeps(w, confirmations, before, mv);
      AnywhereOn(was, before, b);
      if OnChain(w, target, before.s.db.chain.bestHash) { PreservesOn(w, confirmations, was, before, b); }
    }

    /** Revert everything above pos, retrying until the store commits. */
    method RollBackChainStateToPos(pos: ChainPos, ghost step: Step) returns (newSeq: int)
      requires Valid() && StoreCommits() && pos.hash in w.blocks && pos.height == w.blocks[pos.hash].height
      requires pos.nextSeq == store.db.chain.nextSeq
      requires step == Resynced(pos.hash) || (step == RolledBack(pos.hash) && OnChain(w, pos.hash, store.db.chain.bestHash))
      modifies this`now, this`trail, store`db, store`saved, store`attempts
      ensures Valid() && PreservesAnywhere(old(now), now)
      ensures OnChain(w, pos.hash, old(store.db).chain.bestHash) ==> Kept(old(now))
      ensures store.db.chain == ChainRow(pos.hash, pos.height, newSeq) && trail == old(trail) + [step]
      ensures RollbackDone(old(now), pos.(nextSeq := newSeq))
      ensures store.attempts > old(store.attempts)
    {
      hide Wallet.Good, Wallet.StateOk, ValidWorld, Reports, FreshSeqs, OthersAre, Preserves, PreservesAnywhere, Service.Ran, TrailOk, OnChain;
      hide Revert, RevertInvoices, RevertPayments, IncSeq, ValidTree;
      ghost var was := now;
      ghost var goal := NextCommit(store.attempts);
      PreservesSame(w, confirmations, was);
      Service.RanNone(w, confirmations, was.s);
      while true
        invariant Valid() && trail == old(trail) && store.db.chain == old(store.db).chain
        invariant Preserves(w, confirmations, was, now) && PreservesAnywhere(was, now) && Service.Ran(w, confirmations, was.s, now.s)
        invariant old(store.attempts) <= store.attempts <= goal
        decreases goal - store.attempts
      {
        ghost var s1 := now;
        LetOthers();
        ghost var before := now;
        Service.RanOn(w, confirmations, was.s, s1.s, before.s);
        PreservesOn(w, confirmations, was, s1, before);
        AnywhereOn(was, s1, before);
        var snapshot := store.Begin();
        ghost var seqs: SeqMap;
        newSeq, seqs := RevertInTransaction(pos);
        var ok := store.Commit(snapshot);
        if ok {
          RollbackCommits(was, before, pos.hash, seqs, newSeq);
          TrailMore(w, start, trail, step);
          now := before.(s := Wallet.Rolled(w, before.s, pos.hash, seqs, newSeq));
          trail := trail + [step];
          return;
        }
      }
    }

    // Every block that two chains share is at or below height k.
    ghost predicate ForkAtMost(a: Hash, b: Hash, k: int)
      requires ValidTree(w)
    {
      forall h | OnChain(w, h, a) && OnChain(w, h, b) :: w.blocks[h].height <= k
    }

    lemma ForkLower(a: Hash, b: Hash, h: Hash)
      requires ValidTree(w) && OnChain(w, h, a) && !OnChain(w, h, b) && ForkAtMost(a, b, w.blocks[h].height)
      ensures ForkAtMost(a, b, w.blocks[h].height - 1)
    {
    }

    lemma ForkTop(a: Hash, b: Hash)
      requires ValidTree(w) && a in w.blocks
      ensures OnChain(w, a, a) && ForkAtMost(a, b, w.blocks[a].height)
    {
    }

    // One block down from a block that is not on Core's chain.
    lemma OneDown(fromHash: Hash, h: Hash, tip: Hash)
      requires ValidTree(w) && OnChain(w, h, fromHash) && tip in w.blocks && !OnChain(w, h, tip)
      ensures h in w.blocks && OnChain(w, w.blocks[h].prev, fromHash) && w.blocks[h].prev in w.blocks
      ensures w.blocks[w.blocks[h].prev].height == w.blocks[h].height - 1
    {
      GenesisOnChain(w, tip);
      ParentOnChain(w, h);
      OnChainTransitive(w, w.blocks[h].prev, h, fromHash);
    }

    lemma HeaderIs(h: Hash, tip: Hash)
      requires ValidTree(w) && h in w.blocks && tip in w.blocks
      ensures var hdr := HeaderOf(w, h, tip);
              hdr.hash == h && hdr.height == w.blocks[h].height && hdr.prev == w.blocks[h].prev && (hdr.onChain <==> OnChain(w, h, tip))
    {
    }

    /** Walk back from a block to the first one Core has on its chain: one request and one block down at a time.
        If Core keeps its tip meanwhile, that is the fork point. */
    method FindOnChain(fromHash: Hash) returns (block: Header)
      requires CoreOk() && fromHash in w.blocks
      modifies this`clock
      ensures OnChain(w, block.hash, fromHash) && clock > old(clock)
      ensures clock == old(clock) + 1 + w.blocks[fromHash].height - block.height
      ensures block == HeaderOf(w, block.hash, tips(clock - 1)) && block.onChain
      ensures Stable(old(clock)) ==> ForkAtMost(fromHash, tips(old(clock)), block.height)
    {
      hide OnChain, ForkAtMost, HeaderOf, ValidTree;
      ForkTop(fromHash, tips(clock));
      block := FetchBlockHeader(fromHash);
      HeaderIs(fromHash, tips(clock - 1));
      while !block.onChain
        invariant OnChain(w, block.hash, fromHash) && block.hash in w.blocks && clock > old(clock)
        invariant block.height == w.blocks[block.hash].height && block.prev == w.blocks[block.hash].prev
        invariant block.onChain <==> OnChain(w, block.hash, tips(clock - 1))
        invariant clock == old(clock) + 1 + w.blocks[fromHash].height - block.height
        invariant block == HeaderOf(w, block.hash, tips(clock - 1))
        invariant Stable(old(clock)) ==> ForkAtMost(fromHash, tips(old(clock)), block.height)
        decreases block.height
      {
        OneDown(fromHash, block.hash, tips(clock - 1));
        if Stable(old(clock)) { ForkLower(fromHash, tips(old(clock)), block.hash); }
        var below := block.prev;
        block := FetchBlockHeader(below);
        HeaderIs(below, tips(clock - 1));
      }
    }

    /** Roll back to the first on-chain block at or below fromHash. */
    method RollBackChainState(fromHash: Hash, oldPos: ChainPos, ghost resync: bool) returns (pos: ChainPos)
      requires Valid() && StoreCommits() && fromHash in w.blocks && oldPos.nextSeq == store.db.chain.nextSeq
      requires !resync ==> OnChain(w, fromHash, store.db.chain.bestHash)
      modifies this`clock, this`now, this`trail, store`db, store`saved, store`attempts
      ensures Valid() && PosOk(pos) && OnChain(w, pos.hash, fromHash)
      ensures PreservesAnywhere(old(now), now)
      ensures OnChain(w, pos.hash, old(store.db).chain.bestHash) ==> Kept(old(now))
      ensures !resync ==> OnChain(w, pos.hash, old(store.db).chain.bestHash)
      ensures RollbackDone(old(now), pos)
      ensures Stable(old(clock)) ==> ForkAtMost(fromHash, tips(old(clock)), pos.height)
      ensures trail == old(trail) + [if resync then Resynced(pos.hash) else RolledBack(pos.hash)]
      ensures clock > old(clock) && SeenAt(pos, clock - 1) && store.attempts > old(store.attempts)
    {
      hide Wallet.Good, Wallet.StateOk, ValidWorld, AncestorAt, RollbackDb, OthersAre, Preserves, PreservesAnywhere, RollbackDone, TrailOk;
      var block := FindOnChain(fromHash);
      HeaderNext(w, block.hash, tips(clock - 1));
      if !resync { OnChainTransitive(w, block.hash, fromHash, store.db.chain.bestHash); }
      pos := ChainPos(block.hash, block.height, block.next, oldPos.nextSeq);
      var newSeq := RollBackChainStateToPos(pos, if resync then Resynced(pos.hash) else RolledBack(pos.hash));
      pos := pos.(nextSeq := newSeq);
      OneBlockPath(w, pos.hash, pos.next);
    }

    /** A manual resync moves to any block, ahead or behind, on any branch. */
    method SetSyncHeight(target: Hash, pos: ChainPos) returns (newPos: ChainPos)
      requires Valid() && StoreCommits() && target in w.blocks && PosOk(pos)
      modifies this`clock, this`now, this`trail, store`db, store`saved, store`attempts
      ensures Valid() && PosOk(newPos) && PreservesAnywhere(old(now), now)
      ensures w.blocks[target].height == old(store.db).chain.bestHeight ==>
                newPos == pos && store.db == old(store.db) && trail == old(trail)
      ensures w.blocks[target].height != old(store.db).chain.bestHeight ==>
                && OnChain(w, newPos.hash, target) && clock > 0 && SeenAt(newPos, clock - 1)
                && RollbackDone(old(now), newPos) && trail == old(trail) + [Resynced(newPos.hash)]
                && (OnChain(w, newPos.hash, old(store.db).chain.bestHash) ==> Kept(old(now)))
    {
      hide Wallet.Good, Wallet.StateOk, ValidWorld, OnChain, RollbackDb, OthersAre, Preserves, RollbackDone, TrailOk;
      var hdr := FetchBlockHeader(target);
      if hdr.height == pos.height { return pos; }
      newPos := RollBackChainState(target, pos, true);
    }

    // -------------------------------------------------------- rolling forward

    // The successor Core reported for a position stays on Core's chain while its tip stays.
    lemma NextStays(pos: ChainPos, tip: Hash)
      requires ValidTree(w) && tip in w.blocks && Fresh(pos, tip) && pos.next != ""
      ensures OnChain(w, pos.next, tip)
    {
      HeaderNext(w, pos.hash, tip);
    }

    /** Ask for the block after pos. */
    method FetchOne(pos: ChainPos) returns (block: Header)
      requires CoreOk() && IsPath(w, pos.hash, [pos.next])
      modifies this`clock
      ensures clock == old(clock) + 1 && pos.next in w.blocks
      ensures block.hash == pos.next && block.height == w.blocks[pos.next].height && block.prev == pos.hash
      ensures block.onChain ==> Fresh(ChainPos(block.hash, block.height, block.next, pos.nextSeq), tips(old(clock)))
      ensures block.next != "" ==> IsPath(w, block.hash, [block.next])
      ensures !block.onChain ==> !OnChain(w, pos.next, tips(old(clock)))
    {
      hide OnChain, AncestorAt;
      OneBlockPath(w, pos.hash, pos.next);
      block := FetchBlockHeader(pos.next);
      HeaderNext(w, block.hash, tips(clock - 1));
      OneBlockPath(w, block.hash, block.next);
    }

    // One more block of a batch.
    method TakeBlock(ghost startPos: ChainPos, ghost pos: ChainPos, block: Header, changes: seq<Change>, txIDs: seq<TxId>,
                     ghost path: seq<Hash>, ghost blockCount: nat)
      returns (changes': seq<Change>, txIDs': seq<TxId>, ghost path': seq<Hash>)
      requires CoreOk() && BatchOk(w, startPos, pos, changes, txIDs, path, blockCount) && pos.next != ""
      requires block.hash == pos.next && block.hash in w.blocks && block.height == w.blocks[block.hash].height
      requires block.next != "" ==> IsPath(w, block.hash, [block.next])
      ensures BatchOk(w, startPos, ChainPos(block.hash, block.height, block.next, pos.nextSeq), changes', txIDs', path', blockCount + 1)
    {
      hide BatchOk, IsPath, BlockChanges, PathChanges, PathTxids;
      changes', txIDs' := ProcessBlock(block.hash, block.height, changes, txIDs);
      path' := path + [pos.next];
      BatchGrows(w, startPos, pos, changes, txIDs, path, blockCount, ChainPos(block.hash, block.height, block.next, pos.nextSeq));
    }

    /** Up to BLOCKS_PER_COMMIT + 1 blocks onwards from startPos, all fetched before any transaction begins. */
    method FetchBatch(startPos: ChainPos)
      returns (pos: ChainPos, changes: seq<Change>, txIDs: seq<TxId>, blockCount: nat, rollbackFrom: Hash,
               ghost path: seq<Hash>, ghost seen: nat)
      requires CoreOk() && startPos.hash in w.blocks && startPos.height == w.blocks[startPos.hash].height
      requires startPos.next != "" && IsPath(w, startPos.hash, [startPos.next])
      modifies this`clock
      ensures clock > old(clock) && BatchOk(w, startPos, pos, changes, txIDs, path, blockCount) && blockCount <= 11
      ensures blockCount == 11 || pos.next == "" || rollbackFrom != ""
      ensures blockCount == 0 ==> rollbackFrom != ""
      ensures blockCount > 0 ==> old(clock) <= seen < clock && SeenAt(pos, seen)
      ensures rollbackFrom != "" ==> rollbackFrom == pos.hash
      ensures Stable(old(clock)) && SeenAt(startPos, old(clock)) ==> rollbackFrom == ""
    {
      BatchStarts(w, startPos);
      hide BatchOk, HeaderOf, OnChain, IsPath, BlockChanges, Fresh, ValidTree;
      pos, changes, txIDs, blockCount, rollbackFrom, path, seen := startPos, [], [], 0, "", [], 0;
      while pos.next != ""
        invariant BatchOk(w, startPos, pos, changes, txIDs, path, blockCount) && blockCount <= BLOCKS_PER_COMMIT
        invariant clock >= old(clock) && (blockCount > 0 ==> old(clock) <= seen < clock && SeenAt(pos, seen))
        invariant blockCount == 0 ==> pos == startPos
        invariant pos.next != "" ==> IsPath(w, pos.hash, [pos.next])
        invariant rollbackFrom == ""
        decreases BLOCKS_PER_COMMIT - blockCount
      {
        var block := FetchOne(pos);
        if block.onChain {
          changes, txIDs, path := TakeBlock(startPos, pos, block, changes, txIDs, path, blockCount);
          pos, seen := ChainPos(block.hash, block.height, block.next, pos.nextSeq), clock - 1;
          blockCount := blockCount + 1;
          if blockCount > BLOCKS_PER_COMMIT { break; }
        } else {
          if Stable(old(clock)) && SeenAt(startPos, old(clock)) {
            NextStays(pos, tips(old(clock)));
            assert false;
          }
          rollbackFrom := block.prev;
          break;
        }
      }
    }

    /** The retry loop around one batch: all of it is committed, or nothing is after COMMIT_ATTEMPTS failures. */
    method CommitBatch(changes: seq<Change>, txIDs: seq<TxId>, pos: ChainPos, ghost path: seq<Hash>)
      returns (newPos: ChainPos, ok: bool)
      requires Valid() && path != [] && IsPath(w, store.db.chain.bestHash, path) && changes == PathChanges(w, path)
      requires pos.hash == Tip(store.db.chain.bestHash, path) && pos.height == w.blocks[pos.hash].height
      requires pos.nextSeq == store.db.chain.nextSeq
      modifies this`now, this`trail, store`db, store`saved, store`attempts
      ensures Valid() && Kept(old(now))
      ensures !ok ==> OthersOnly(old(now)) && store.db.chain == old(store.db).chain
      ensures !ok ==> trail == old(trail) && store.attempts == old(store.attempts) + 10
      ensures !ok ==> forall n | old(store.attempts) <= n < store.attempts :: !store.commits(n)
      ensures ok ==> newPos == pos.(nextSeq := store.db.chain.nextSeq) && store.db.chain.bestHash == pos.hash
      ensures ok ==> BatchDone(old(now), changes, txIDs, newPos)
      ensures ok ==> trail == old(trail) + AppliedAll(path)
      ensures store.attempts > old(store.attempts)
    {
      hide Wallet.Good, Wallet.StateOk, ValidWorld, OthersAre, Preserves, Service.Ran, TrailOk, BatchDone;
      var attempts := COMMIT_ATTEMPTS;
      ghost var was := now;
      PreservesSame(w, confirmations, was);
      Service.RanNone(w, confirmations, was.s);
      while true
        invariant 0 < attempts <= COMMIT_ATTEMPTS && store.attempts == old(store.attempts) + COMMIT_ATTEMPTS - attempts
        invariant Valid() && store.db.chain == old(store.db).chain && trail == old(trail)
        invariant Preserves(w, confirmations, was, now) && Service.Ran(w, confirmations, was.s, now.s)
        invariant forall n | old(store.attempts) <= n < store.attempts :: !store.commits(n)
        decreases attempts
      {
        ghost var s1 := now;
        newPos, ok := AttemptToApplyChanges(changes, txIDs, pos, path);
        PreservesOn(w, confirmations, was, s1, now);
        if ok {
          DoneSince(was, s1, changes, txIDs, newPos);
          return;
        }
        Service.RanOn(w, confirmations, was.s, s1.s, now.s);
        attempts := attempts - 1;
        if attempts == 0 { return; }
      }
    }

    lemma DoneSince(was: Now, s1: Now, changes: seq<Change>, txIDs: seq<TxId>, pos: ChainPos)
      requires CoreOk() && Service.Ran(w, confirmations, was.s, s1.s) && BatchDone(s1, changes, txIDs, pos)
      ensures BatchDone(was, changes, txIDs, pos)
    {
      hide ForwardDb, Service.Ran, ValidTree;
      var before, seqs :| Service.Ran(w, confirmations, s1.s, before)
        && store.db == ForwardDb(w, confirmations, before.db, changes, txIDs, pos.hash, pos.height, seqs, pos.nextSeq);
      Service.RanOn(w, confirmations, was.s, s1.s, before);
    }

    lemma {:induction false} PathClimbs(from: Hash, path: seq<Hash>)
      requires ValidTree(w) && from in w.blocks && IsPath(w, from, path)
      ensures w.blocks[Tip(from, path)].height == w.blocks[from].height + |path|
    {
      if path != [] {
        PathClimbs(from, path[..|path| - 1]);
      }
    }

    /** Commit a fetched batch, then roll back if it met a fork; or start over when the store kept failing. */
    method ApplyBatch(startPos: ChainPos, endPos: ChainPos, changes: seq<Change>, txIDs: seq<TxId>, blockCount: nat,
                      rollbackFrom: Hash, ghost path: seq<Hash>) returns (pos: ChainPos, ghost gaveUp: bool)
      requires Valid() && StoreCommits() && PosOk(startPos) && BatchOk(w, startPos, endPos, changes, txIDs, path, blockCount)
      requires rollbackFrom != "" ==> rollbackFrom == endPos.hash
      modifies this`clock, this`now, this`trail, store`db, store`saved, store`attempts
      ensures Valid() && PosOk(pos) && Kept(old(now))
      ensures gaveUp ==> pos == startPos && OthersOnly(old(now)) && store.attempts == old(store.attempts) + 10
      ensures gaveUp ==> forall n | old(store.attempts) <= n < store.attempts :: !store.commits(n)
      ensures gaveUp ==> trail == old(trail)
      ensures !gaveUp ==> trail == old(trail) + AppliedAll(path) + if rollbackFrom == "" then [] else [RolledBack(pos.hash)]
      ensures !gaveUp && rollbackFrom == "" ==> pos == endPos.(nextSeq := pos.nextSeq)
      ensures !gaveUp && rollbackFrom != "" ==> clock > 0 && SeenAt(pos, clock - 1) && clock > old(clock)
      ensures clock >= old(clock)
    {
      hide Wallet.Good, Wallet.StateOk, ValidWorld, OthersAre, Preserves, PreservesAnywhere, Service.Ran, TrailOk, BatchDone, RollbackDone, ForkAtMost, HeaderOf, StoreCommits, PathTxids;
      BatchWalked(trail, path, "");
      ghost var was := now;
      PreservesSame(w, confirmations, was);
      pos, gaveUp := endPos, false;
      if blockCount > 0 {
        var newPos, ok := CommitBatch(changes, txIDs, endPos, path);
        if !ok { pos, gaveUp := startPos, true; return; }
        pos := newPos;
      }
      if rollbackFrom != "" {
        ghost var s1 := now;
        pos := RollBackChainState(rollbackFrom, pos, false);
        PreservesOn(w, confirmations, was, s1, now);
      }
    }

    // The sequence number of a position is not Core's affair.
    lemma SeenAgain(pos: ChainPos, pos': ChainPos, t: nat)
      requires CoreOk() && SeenAt(pos, t) && pos' == pos.(nextSeq := pos'.nextSeq)
      ensures SeenAt(pos', t)
    {
    }

    /** One batch forwards, and back again if it met a fork. */
    method TransactionalRollForward(startPos: ChainPos)
      returns (pos: ChainPos, ghost gaveUp: bool, ghost seen: nat, ghost path: seq<Hash>)
      requires Valid() && StoreCommits() && PosOk(startPos) && startPos.next != ""
      modifies this`clock, this`now, this`trail, store`db, store`saved, store`attempts
      ensures Valid() && PosOk(pos) && Kept(old(now))
      ensures clock > old(clock)
      ensures gaveUp ==> pos == startPos && OthersOnly(old(now)) && store.attempts == old(store.attempts) + 10
      ensures gaveUp ==> forall n | old(store.attempts) <= n < store.attempts :: !store.commits(n)
      ensures gaveUp ==> trail == old(trail)
      ensures !gaveUp ==> IsPath(w, startPos.hash, path) && (trail == old(trail) + AppliedAll(path)
                          || trail == old(trail) + AppliedAll(path) + [RolledBack(pos.hash)])
      ensures Walked(old(trail), trail)
      ensures !gaveUp ==> old(clock) <= seen < clock && SeenAt(pos, seen)
      ensures !gaveUp && Stable(old(clock)) && SeenAt(startPos, old(clock)) ==>
                pos.height > startPos.height && trail == old(trail) + AppliedAll(path)
    {
      hide Wallet.Good, Wallet.StateOk, ValidWorld, TrailOk, HeaderOf, SeenAt, Stable, StoreCommits, PathChanges, OthersAre, Preserves, Service.Ran;
      OneBlockPath(w, startPos.hash, startPos.next);
      var endPos, changes, txIDs, blockCount, rollbackFrom;
      endPos, changes, txIDs, blockCount, rollbackFrom, path, seen := FetchBatch(startPos);
      PathClimbs(startPos.hash, path);
      pos, gaveUp := ApplyBatch(startPos, endPos, changes, txIDs, blockCount, rollbackFrom, path);
      if rollbackFrom != "" && !gaveUp { seen := clock - 1; } else if !gaveUp { SeenAgain(endPos, pos, seen); }
      BatchWalked(old(trail), path, pos.hash);
      assert trail + [] == trail;
    }

    // A position seen without a successor was Core's tip.
    lemma NoNextIsTip(pos: ChainPos, tip: Hash)
      requires ValidTree(w) && tip in w.blocks && Fresh(pos, tip)
      ensures pos.next == "" <==> pos.hash == tip
    {
      HeaderNext(w, pos.hash, tip);
    }

    // Below a block that is not on the other chain, both forks are the same.
    lemma ForkFromParent(a: Hash, b: Hash, k: int)
      requires ValidTree(w) && a in w.blocks && a != w.genesis && !OnChain(w, a, b) && ForkAtMost(w.blocks[a].prev, b, k)
      ensures ForkAtMost(a, b, k)
    {
      forall h | OnChain(w, h, a) && OnChain(w, h, b) ensures w.blocks[h].height <= k {
        ParentOnChain(w, a);
        OnChainOrdered(w, h, w.blocks[a].prev, a);
      }
    }

    /** Find where to resume: the best block if Core still has it on its chain, or else the fork point. */
    method Resume(startPos: ChainPos) returns (pos: ChainPos)
      requires Valid() && StoreCommits() && PosOk(startPos.(next := ""))
      modifies this`clock, this`now, this`trail, store`db, store`saved, store`attempts
      ensures Valid() && PosOk(pos) && Kept(old(now))
      ensures clock > old(clock) && SeenAt(pos, clock - 1)
      ensures OnChain(w, startPos.hash, tips(old(clock))) ==>
                pos.hash == startPos.hash && store.db == old(store.db) && trail == old(trail)
      ensures !OnChain(w, startPos.hash, tips(old(clock))) ==>
                && OnChain(w, pos.hash, startPos.hash) && trail == old(trail) + [RolledBack(pos.hash)]
                && (Stable(old(clock)) ==> ForkAtMost(startPos.hash, tips(old(clock)), pos.height))
      ensures Walked(old(trail), trail)
    {
      hide Wallet.Good, Wallet.StateOk, ValidWorld, TrailOk, OnChain, HeaderOf, ForkAtMost, Walked, OthersAre, Preserves, PreservesAnywhere, RollbackDone;
      PreservesSame(w, confirmations, now);
      WalkedOne(trail);
      var lastBlock := FetchBlockHeader(startPos.hash);
      HeaderIs(startPos.hash, tips(clock - 1));
      HeaderNext(w, startPos.hash, tips(clock - 1));
      if lastBlock.onChain {
        pos := startPos.(next := lastBlock.next);
        OneBlockPath(w, pos.hash, pos.next);
      } else {
        ParentOnChain(w, startPos.hash);
        pos := RollBackChainState(lastBlock.prev, startPos, false);
        if Stable(old(clock)) { ForkFromParent(startPos.hash, tips(old(clock)), pos.height); }
      }
    }

    /** Walk to the tip. Core may reorganise between any two requests, as long as it keeps one tip from
        some request T onwards; the walk then ends, on a block that was Core's tip during the walk. */
    method FollowChainToTip(startPos: ChainPos, ghost T: nat) returns (pos: ChainPos)
      requires Valid() && StoreCommits() && Stable(T) && PosOk(startPos.(next := ""))
      modifies this`clock, this`now, this`trail, store`db, store`saved, store`attempts
      ensures Valid() && PosOk(pos) && Kept(old(now))
      ensures exists t | old(clock) <= t < clock :: tips(t) == store.db.chain.bestHash
      ensures old(clock) >= T ==> store.db.chain.bestHash == tips(T)
      ensures Walked(old(trail), trail)
    {
      hide Walked, Wallet.Good, Wallet.StateOk, ValidWorld, TrailOk, AncestorAt, OthersAre, Preserves, Service.Ran, ForkAtMost, HeaderOf, IsPath;
      ghost var was := now;
      pos := Resume(startPos);
      ghost var seen: nat := clock - 1;
      ghost var tip, goal := tips(T), NextCommit(store.attempts);
      while pos.next != ""
        invariant Valid() && PosOk(pos) && Preserves(w, confirmations, was, now)
        invariant old(clock) <= seen < clock && SeenAt(pos, seen)
        invariant goal >= store.attempts && store.commits(goal) && Walked(old(trail), trail)
        decreases if clock < T then T - clock else 0,
                  !Fresh(pos, tip),
                  if Fresh(pos, tip) then w.blocks[tip].height - pos.height else 0,
                  goal - store.attempts
      {
        ghost var before, s1 := trail, now;
        ghost var gaveUp, seenNow, path;
        pos, gaveUp, seenNow, path := TransactionalRollForward(pos);
        PreservesOn(w, confirmations, was, s1, now);
        WalkedOn(old(trail), before, trail);
        if !gaveUp { seen, goal := seenNow, NextCommit(store.attempts); }
      }
      NoNextIsTip(pos, tips(seen));
    }
  }
}
