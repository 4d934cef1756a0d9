/** A chain on which an output is spent before the store calls it spendable, and what a rollback makes of it. */
module Examples {
  import opened Options
  import opened BlockTree
  import opened Ledger
  import opened Confluence
  import opened Runs

  // Block a pays 5 koinu to an address of ours, block b spends them, block c is one more; two confirmations are asked for.
  const O := Outpoint("t", 0)
  const ENV := Env(map["A" := AddressRow("acct", 0, false)], map[], 2)

  function Blocks(): map<Hash, Block> {
    map["g" := Block("", 0, []), "a" := Block("g", 1, ["t"]), "b" := Block("a", 2, ["u"]), "c" := Block("b", 3, [])]
  }

  function TheWorld(): World {
    World(Blocks(), "g", map["t" := Tx([], [TxOut(5, Some("A"))]), "u" := Tx([O], [])])
  }

  lemma Names()
    ensures "g" != "a" && "g" != "b" && "g" != "c" && "a" != "b" && "a" != "c" && "b" != "c" && "t" != "u"
  {
    assert "g"[0] == 'g' && "a"[0] == 'a' && "b"[0] == 'b' && "c"[0] == 'c' && "t"[0] == 't' && "u"[0] == 'u';
  }

  lemma TreeOk()
    ensures ValidTree(TheWorld()) && forall h | h in TheWorld().blocks :: h == "g" || h == "a" || h == "b" || h == "c"
  {
    Names();
  }

  // What happens in a block.
  lemma BlockHits(h: Hash, q: Query)
    requires ValidTree(TheWorld()) && h in TheWorld().blocks
    ensures Hits(TheWorld(), h, q) <==> (h == "a" && q == HasTx("t")) || (h == "b" && (q == HasTx("u") || q == Spends(O)))
  {
    var w := TheWorld();
    Names();
    assert h == "g" || h == "a" || h == "b" || h == "c";
    if h == "b" && q == Spends(O) {
      assert O in w.txs[w.blocks[h].txids[0]].vin;
    }
  }

  // When something happens on the chain.
  lemma WhenHit(q: Query)
    requires ValidTree(TheWorld())
    ensures var w := TheWorld();
            && LastHit(w, -1, "g", q) == None
            && LastHit(w, -1, "a", q) == (if q == HasTx("t") then Some(1) else None)
            && LastHit(w, -1, "b", q) == (if q == HasTx("u") || q == Spends(O) then Some(2) else LastHit(w, -1, "a", q))
            && LastHit(w, -1, "c", q) == LastHit(w, -1, "b", q)
    ensures forall h | h in TheWorld().blocks && Hits(TheWorld(), h, q) ::
              (h == "a" && q == HasTx("t")) || (h == "b" && (q == HasTx("u") || q == Spends(O)))
  {
    var w := TheWorld();
    Names();
    forall h | h in w.blocks
      ensures Hits(w, h, q) <==> (h == "a" && q == HasTx("t")) || (h == "b" && (q == HasTx("u") || q == Spends(O)))
    {
      BlockHits(h, q);
    }
    hide Hits, LastHit, ValidTree;
    LastHitUnfold(w, "g", q);
    LastHitUnfold(w, "a", q);
    LastHitUnfold(w, "b", q);
    LastHitUnfold(w, "c", q);
  }

  lemma HappensOnce(q: Query)
    requires ValidTree(TheWorld())
    ensures AtMostOnce(TheWorld(), q)
  {
    WhenHit(q);
    hide LastHit, Hits;
    Names();
  }

  lemma InputsOk(h: Hash)
    requires ValidTree(TheWorld()) && h in TheWorld().blocks
    ensures InputsKnown(TheWorld(), h) && Distinct(TheWorld().blocks[h].txids)
  {
    WhenHit(HasTx("t"));
    hide LastHit, Hits;
    Names();
  }

  lemma WorldOk()
    ensures ValidWorld(TheWorld())
  {
    TreeOk();
    hide TheWorld, InputsKnown, AtMostOnce, Distinct, ValidTree;
    forall q: Query { HappensOnce(q); }
    forall h | h in TheWorld().blocks { InputsOk(h); }
  }

  /** This valid chain spends its output one block before the store would call it spendable. */
  lemma SpentTooEarly()
    ensures ValidWorld(TheWorld()) && "c" in TheWorld().blocks && SpentEarly(TheWorld(), ENV, "c", O)
  {
    var w := TheWorld();
    WorldOk();
    Names();
    LastHitFloor(w, 0, -1, "c", HasTx("t"));
    LastHitFloor(w, 0, -1, "c", Spends(O));
    WhenHit(HasTx("t"));
    WhenHit(Spends(O));
    assert Keeps(w.txs["t"].vout, 0, ENV.owners);
    assert Spec(w, ENV, 0, "c", O) == Heights(Some(1), Some(3), Some(2), None);
  }

  /** So the heights are not always exact: following this chain and rolling back one block forgets a spend that is still on the chain. */
  lemma RollbackForgetsSpend()
    ensures ValidWorld(TheWorld()) && exists run: seq<Move> ::
              LegalRun(TheWorld(), ENV, Start("g"), run) && !SnapAllExact(TheWorld(), ENV, After(TheWorld(), ENV, Start("g"), run))
  {
    SpentTooEarly();
    GenesisOnChain(TheWorld(), "c");
    EarlySpendBreaksRollback(TheWorld(), ENV, "g", "c", O);
  }
}
