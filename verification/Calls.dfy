/** Calls that run side by side over the accounts: a payment works from a copy of its account that it took long before it
    saves it, and accounts and invoices are created meanwhile. */
module Calls {
  import opened Options
  import opened BlockTree
  import opened Ledger
  import opened Tables
  import opened AddressPool
  import Feed

  datatype Copy = Copy(id: AccountId, keys: Keys)

  datatype Call =
    | Read(payment: nat, id: AccountId)   // GetAccount, outside of any transaction
    | NewAccount(id: AccountId)
    | NewInvoice(id: AccountId)
    | Save(payment: nat)                  // UpdatePoolAddresses and UpdateAccount, from the copy

  datatype State = State(keys: map<AccountId, Keys>, address: AddressTable, invoice: map<Address, Issued>, copies: map<nat, Copy>)

  const NOTHING := State(map[], map[], map[], map[])

  // The addresses a copy's pool lacks, of both kinds.
  function Filled(address: AddressTable, child: Child, c: Copy): AddressTable {
    WithPool(WithPool(address, child, c.id, false, c.keys.poolExt, c.keys.nextExt + HD_DISCOVERY_RANGE),
             child, c.id, true, c.keys.poolInt, c.keys.nextInt + HD_DISCOVERY_RANGE)
  }

  predicate CanFill(address: AddressTable, child: Child, c: Copy) {
    var mid := WithPool(address, child, c.id, false, c.keys.poolExt, c.keys.nextExt + HD_DISCOVERY_RANGE);
    && NoneYet(address, child, c.id, false, c.keys.poolExt, c.keys.nextExt + HD_DISCOVERY_RANGE)
    && NoneYet(mid, child, c.id, true, c.keys.poolInt, c.keys.nextInt + HD_DISCOVERY_RANGE)
  }

  function Refilled(k: Keys): Keys {
    k.(poolExt := k.nextExt + HD_DISCOVERY_RANGE, poolInt := k.nextInt + HD_DISCOVERY_RANGE)
  }

  /** What one call commits; a call that fails commits nothing. */
  function Do(s: State, child: Child, call: Call): State {
    match call
    case Read(p, id) => if id in s.keys then s.(copies := s.copies[p := Copy(id, s.keys[id])]) else s
    case NewAccount(id) =>
      if id in s.keys then s
      else s.(keys := s.keys[id := Keys(0, 0, HD_DISCOVERY_RANGE, HD_DISCOVERY_RANGE)], address := NewPools(s.address, child, id))
    case NewInvoice(id) =>
      if id !in s.keys then s
      else
        var i := s.keys[id].nextExt;
        s.(keys := s.keys[id := AfterIssue(s.keys[id])], address := PoolAfterIssue(s.address, child, id, s.keys[id]),
           invoice := s.invoice[child(id, i, false) := Issued(id, i)])
    case Save(p) =>
      if p !in s.copies then s
      else
        var c := s.copies[p];
        if !CanFill(s.address, child, c) || c.id !in s.keys then s
        else s.(keys := s.keys[c.id := s.keys[c.id].Max(Refilled(c.keys))], address := Filled(s.address, child, c))
  }

  function After(s: State, child: Child, calls: seq<Call>): State
    decreases |calls|
  {
    if calls == [] then s else After(Do(s, child, calls[0]), child, calls[1..])
  }

  /** The tables are consistent, and every copy is of an older row. */
  ghost predicate Ok(s: State, child: Child, inverse: Address -> AddressRow) {
    && Consistent(s.keys, s.address, s.invoice, child, inverse)
    && forall p | p in s.copies :: s.copies[p].id in s.keys && s.copies[p].keys.Full() && s.copies[p].keys.AtMost(s.keys[s.copies[p].id])
  }

  /** A copy that was full when it was taken saves nothing, however old it is. */
  lemma SaveChangesNothing(s: State, child: Child, inverse: Address -> AddressRow, p: nat)
    requires Ok(s, child, inverse)
    ensures Do(s, child, Save(p)) == s
  {
    hide Consistent;
    if p in s.copies && s.copies[p].id in s.keys {
      var c := s.copies[p];
      assert Refilled(c.keys) == c.keys && s.keys[c.id].Max(c.keys) == s.keys[c.id];
      assert Filled(s.address, child, c) == s.address;
      assert s.keys[c.id := s.keys[c.id]] == s.keys;
    }
  }

  // A step that only lets rows grow keeps the copies copies.
  lemma CopiesStay(s: State, s': State)
    requires Grown(s.keys, s'.keys) && s'.copies == s.copies
    requires forall p | p in s.copies :: s.copies[p].id in s.keys && s.copies[p].keys.Full() && s.copies[p].keys.AtMost(s.keys[s.copies[p].id])
    ensures forall p | p in s'.copies ::
              s'.copies[p].id in s'.keys && s'.copies[p].keys.Full() && s'.copies[p].keys.AtMost(s'.keys[s'.copies[p].id])
  {
    forall p | p in s.copies ensures s.copies[p].id in s'.keys && s.copies[p].keys.AtMost(s'.keys[s.copies[p].id]) {
      CopyStays(s.copies[p].id, s.copies[p].keys, s.keys, s'.keys);
    }
  }

  lemma ReadOk(s: State, child: Child, inverse: Address -> AddressRow, p: nat, id: AccountId)
    requires Ok(s, child, inverse)
    ensures Ok(Do(s, child, Read(p, id)), child, inverse)
  {
    hide Injective, Covers, InvoicesOk;
  }

  lemma AccountOk(s: State, child: Child, inverse: Address -> AddressRow, id: AccountId)
    requires Ok(s, child, inverse) && id !in s.keys
    ensures Ok(Do(s, child, NewAccount(id)), child, inverse) && Grown(s.keys, Do(s, child, NewAccount(id)).keys)
  {
    hide Consistent, WithPool;
    AccountAdded(s.keys, s.address, s.invoice, child, inverse, id);
    CopiesStay(s, Do(s, child, NewAccount(id)));
  }

  lemma InvoiceOk(s: State, child: Child, inverse: Address -> AddressRow, id: AccountId)
    requires Ok(s, child, inverse) && id in s.keys
    ensures Ok(Do(s, child, NewInvoice(id)), child, inverse) && Grown(s.keys, Do(s, child, NewInvoice(id)).keys)
  {
    assert s.keys[id].Full();
    hide Consistent, WithPool;
    InvoiceAdded(s.keys, s.address, s.invoice, child, inverse, id);
    CopiesStay(s, Do(s, child, NewInvoice(id)));
  }

  lemma CallOk(s: State, child: Child, inverse: Address -> AddressRow, call: Call)
    requires Ok(s, child, inverse)
    ensures Ok(Do(s, child, call), child, inverse) && Grown(s.keys, Do(s, child, call).keys)
  {
    hide Ok;
    match call
    case Read(p, id) => ReadOk(s, child, inverse, p, id);
    case NewAccount(id) =>
      if id !in s.keys { AccountOk(s, child, inverse, id); }
    case NewInvoice(id) =>
      if id in s.keys { InvoiceOk(s, child, inverse, id); }
    case Save(p) => SaveChangesNothing(s, child, inverse, p);
  }

  lemma {:induction false} CallsOk(s: State, child: Child, inverse: Address -> AddressRow, calls: seq<Call>)
    requires Ok(s, child, inverse)
    ensures Ok(After(s, child, calls), child, inverse)
    decreases |calls|
  {
    hide Ok, Do;
    if calls != [] {
      CallOk(s, child, inverse, calls[0]);
      CallsOk(Do(s, child, calls[0]), child, inverse, calls[1..]);
    }
  }

  /** Whatever calls run in whatever order, on copies however old: the address table holds exactly the indices below the pool
      counters, pools are full, and of any invoices that were issued the key indices differ within an account and the
      addresses resolve. */
  lemma StaleCopiesHarmless(child: Child, inverse: Address -> AddressRow, calls: seq<Call>, inv: InvoiceTable)
    requires Injective(child, inverse)
    ensures var s := After(NOTHING, child, calls);
            && Consistent(s.keys, s.address, s.invoice, child, inverse)
            && ((forall a | a in inv :: a in s.invoice && inv[a].account == s.invoice[a].account && inv[a].keyIndex == s.invoice[a].keyIndex) ==>
                  Feed.KeysDistinct(inv) && forall a | a in inv :: a in s.address && s.address[a] == AddressRow(inv[a].account, inv[a].keyIndex, false))
  {
    NothingOk(child, inverse);
    CallsOk(NOTHING, child, inverse, calls);
    var s := After(NOTHING, child, calls);
    hide Injective, Covers, InvoicesOk, Feed.KeysDistinct, After;
    if forall a | a in inv :: a in s.invoice && inv[a].account == s.invoice[a].account && inv[a].keyIndex == s.invoice[a].keyIndex {
      InvoicesResolve(s.keys, s.address, child, inverse, s.invoice, inv);
    }
  }

  lemma NothingOk(child: Child, inverse: Address -> AddressRow)
    requires Injective(child, inverse)
    ensures Ok(NOTHING, child, inverse)
  {
  }
}
