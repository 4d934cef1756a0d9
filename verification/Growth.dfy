/** Tables that grow while the chain is followed: what new addresses and new invoices do to the match with the chain. */
module Growth {
  import opened Options
  import opened BlockTree
  import opened Ledger
  import opened Confluence
  import opened Guarantees

  function WithAddresses(env: Env, more: AddressTable): Env {
    env.(owners := env.owners + more)
  }

  function WithConfirmations(env: Env, a: Address, conf: int): Env {
    env.(confs := env.confs[a := conf])
  }

  /** No transaction above the base, on the chain to the best block, pays one of the new addresses. */
  ghost predicate NonePaid(w: World, base: Hash, best: Hash, more: AddressTable)
    requires ValidTree(w) && base in w.blocks && best in w.blocks
  {
    forall o: Outpoint | o.txid in w.txs && Keeps(w.txs[o.txid].vout, o.vout, more) ::
      LastHit(w, w.blocks[base].height, best, HasTx(o.txid)) == None
  }

  // The heights of one output, before and after its address may have become known.
  lemma SpecWithAddresses(w: World, env: Env, more: AddressTable, k: int, tip: Hash, o: Outpoint)
    requires ValidTree(w) && tip in w.blocks && more.Keys !! env.owners.Keys
    ensures var paid := o.txid in w.txs && Keeps(w.txs[o.txid].vout, o.vout, more);
            && (Owned(w, WithAddresses(env, more), o) <==> Owned(w, env, o) || paid) && !(Owned(w, env, o) && paid)
            && (!paid ==> Spec(w, WithAddresses(env, more), k, tip, o) == Spec(w, env, k, tip, o))
            && (paid ==> AddedAt(w, WithAddresses(env, more), k, tip, o) == LastHit(w, k, tip, HasTx(o.txid)))
            && (paid ==> Spec(w, env, k, tip, o) == NO_HEIGHTS)
            && (paid && LastHit(w, k, tip, HasTx(o.txid)) == None ==> Spec(w, WithAddresses(env, more), k, tip, o) == NO_HEIGHTS)
  {
  }

  lemma RowsWithAddresses(w: World, env: Env, more: AddressTable, u: UtxoTable, api: set<Outpoint>)
    requires RowsOk(w, env, u, api) && more.Keys !! env.owners.Keys
    ensures RowsOk(w, WithAddresses(env, more), u, api)
  {
  }

  /** Adding addresses keeps the table equal to what the chain says if and only if none of them was paid before. A payment
      that came earlier is never found: the follower does not go back. */
  lemma AddAddressesIff(w: World, env: Env, more: AddressTable, base: Hash, best: Hash, u: UtxoTable, api: set<Outpoint>)
    requires ValidTree(w) && base in w.blocks && best in w.blocks && RowsOk(w, env, u, api) && more.Keys !! env.owners.Keys
    ensures Exact(w, WithAddresses(env, more), base, best, u, api)
       <==> Exact(w, env, base, best, u, api) && NonePaid(w, base, best, more)
    ensures AllExact(w, WithAddresses(env, more), base, best, u, api)
       <==> AllExact(w, env, base, best, u, api) && NonePaid(w, base, best, more)
  {
    var env', k := WithAddresses(env, more), w.blocks[base].height;
    RowsWithAddresses(w, env, more, u, api);
    assert Content(w, env', base, u, api) <==> Content(w, env, base, u, api);
    hide AncestorAt, LastHit, Content, WithAddresses;
    forall o: Outpoint | o !in api
      ensures var paid := o.txid in w.txs && Keeps(w.txs[o.txid].vout, o.vout, more);
              if paid && LastHit(w, k, best, HasTx(o.txid)) != None then o !in u && Spec(w, env', k, best, o).added != None
              else Spec(w, env', k, best, o) == Spec(w, env, k, best, o)
    {
      SpecWithAddresses(w, env, more, k, best, o);
    }
    if !NonePaid(w, base, best, more) {
      var o: Outpoint :| o.txid in w.txs && Keeps(w.txs[o.txid].vout, o.vout, more) && LastHit(w, k, best, HasTx(o.txid)) != None;
      assert o !in api;
    }
  }

  lemma SpecWithConfirmations(w: World, env: Env, a: Address, conf: int, k: int, tip: Hash, o: Outpoint)
    requires ValidTree(w) && tip in w.blocks && a !in env.confs
    ensures var env' := WithConfirmations(env, a, conf); var s, s' := Spec(w, env, k, tip, o), Spec(w, env', k, tip, o);
            && (Owned(w, env', o) <==> Owned(w, env, o)) && s' == s.(spendable := s'.spendable)
            && s'.spendable == if Owned(w, env, o) && Payee(w, env, o) == a then ConfirmedAt(s.added, conf, w.blocks[tip].height)
                               else s.spendable
  {
  }

  // Outputs already at the address are as confirmed as the invoice asks for.
  ghost predicate ConfirmedAlike(w: World, best: Hash, u: UtxoTable, api: set<Outpoint>, a: Address, conf: int)
    requires best in w.blocks
  {
    forall o | o in u && o !in api && u[o].address == a ::
      u[o].heights.spendable == ConfirmedAt(u[o].heights.added, conf, w.blocks[best].height)
  }

  /** An invoice with confirmations of its own keeps the table equal to what the chain says if and only if the outputs
      already at its address are as confirmed as it asks for. With the configured number they always are. */
  lemma AddInvoiceIff(w: World, env: Env, a: Address, conf: int, base: Hash, best: Hash, u: UtxoTable, api: set<Outpoint>)
    requires ValidTree(w) && Exact(w, env, base, best, u, api) && a !in env.confs
    ensures Exact(w, WithConfirmations(env, a, conf), base, best, u, api) <==> ConfirmedAlike(w, best, u, api, a, conf)
    ensures conf == env.dflt ==> ConfirmedAlike(w, best, u, api, a, conf)
  {
    var env', k := WithConfirmations(env, a, conf), w.blocks[base].height;
    hide AncestorAt, LastHit;
    forall o: Outpoint | o !in api
      ensures var s, s' := Spec(w, env, k, best, o), Spec(w, env', k, best, o);
              && s'.added == s.added
              && s'.spendable == if Owned(w, env, o) && Payee(w, env, o) == a then ConfirmedAt(s.added, conf, w.blocks[best].height)
                                 else s.spendable
    {
      SpecWithConfirmations(w, env, a, conf, k, best, o);
    }
    assert Content(w, env', base, u, api);
  }
}
