/** Account keys and the pool of addresses generated ahead of them, under concurrent calls that
    may work on old copies of an account. */
module AddressPool {
  import opened Options
  import opened BlockTree
  import opened Ledger
  import opened Tables
  import Feed

  const HD_DISCOVERY_RANGE: nat := 20

  // next_int_key, next_ext_key, next_pool_int, next_pool_ext
  datatype Keys = Keys(nextInt: nat, nextExt: nat, poolInt: nat, poolExt: nat) {
    function Pool(internal: bool): nat { if internal then poolInt else poolExt }
    predicate Full() { poolInt == nextInt + 20 && poolExt == nextExt + 20 }
    predicate AtMost(k: Keys) { nextInt <= k.nextInt && nextExt <= k.nextExt && poolInt <= k.poolInt && poolExt <= k.poolExt }
    function Max(k: Keys): Keys {
      Keys(if nextInt < k.nextInt then k.nextInt else nextInt, if nextExt < k.nextExt then k.nextExt else nextExt,
           if poolInt < k.poolInt then k.poolInt else poolInt, if poolExt < k.poolExt then k.poolExt else poolExt)
    }
  }

  datatype Issued = Issued(account: AccountId, keyIndex: nat)

  type Child = (AccountId, nat, bool) -> Address

  /** Different accounts, indices or kinds derive different addresses: derivation can be inverted. */
  ghost predicate Injective(child: Child, inverse: Address -> AddressRow) {
    forall a, i: nat, x :: inverse(child(a, i, x)) == AddressRow(a, i, x)
  }

  // The address table with indices [from, to) of one kind added.
  function WithPool(address: AddressTable, child: Child, account: AccountId, internal: bool, from: nat, to: nat): AddressTable {
    if to <= from then address
    else WithPool(address, child, account, internal, from, to - 1)[child(account, to - 1, internal) := AddressRow(account, to - 1, internal)]
  }

  // a is the address derived for one of the indices [from, to) of an account.
  ghost predicate InRange(a: Address, child: Child, inverse: Address -> AddressRow, account: AccountId, internal: bool, from: nat, to: nat) {
    var r := inverse(a);
    a == child(r.account, r.keyIndex, r.internal) && r.account == account && r.internal == internal && from <= r.keyIndex < to
  }

  ghost predicate InPool(a: Address, child: Child, inverse: Address -> AddressRow, keys: map<AccountId, Keys>) {
    var r := inverse(a);
    a == child(r.account, r.keyIndex, r.internal) && r.account in keys && r.keyIndex < keys[r.account].Pool(r.internal)
  }

  /** The address table holds exactly the indices below each account's pool counters, for both kinds. */
  ghost predicate Covers(keys: map<AccountId, Keys>, address: AddressTable, child: Child, inverse: Address -> AddressRow) {
    forall a :: (a in address <==> InPool(a, child, inverse, keys)) && (a in address ==> address[a] == inverse(a))
  }

  ghost predicate InvoicesOk(keys: map<AccountId, Keys>, invoice: map<Address, Issued>, child: Child) {
    forall a | a in invoice ::
      a == child(invoice[a].account, invoice[a].keyIndex, false) && invoice[a].account in keys
      && invoice[a].keyIndex < keys[invoice[a].account].nextExt
  }

  // The addresses of count indices from first.
  function Children(child: Child, account: AccountId, first: nat, count: nat, internal: bool): seq<Address> {
    seq(count, i requires 0 <= i < count => child(account, first + i, internal))
  }

  // No index in [from, to) of that kind is stored.
  predicate NoneYet(address: AddressTable, child: Child, account: AccountId, internal: bool, from: nat, to: nat) {
    to <= from || (NoneYet(address, child, account, internal, from, to - 1) && child(account, to - 1, internal) !in address)
  }

  lemma {:induction false} WithPoolHas(address: AddressTable, child: Child, inverse: Address -> AddressRow, account: AccountId, internal: bool,
                                       from: nat, to: nat, a: Address)
    requires Injective(child, inverse)
    ensures var t, added := WithPool(address, child, account, internal, from, to), InRange(a, child, inverse, account, internal, from, to);
            && (a in t <==> a in address || added)
            && (a in t ==> t[a] == if added then inverse(a) else address[a])
  {
    if to > from {
      WithPoolHas(address, child, inverse, account, internal, from, to - 1, a);
    }
  }

  lemma ChildAt(child: Child, account: AccountId, first: nat, count: nat, internal: bool, i: nat)
    requires i < count
    ensures |Children(child, account, first, count, internal)| == count
    ensures Children(child, account, first, count, internal)[i] == child(account, first + i, internal)
  {
  }

  lemma NoneYetNext(address: AddressTable, child: Child, account: AccountId, internal: bool, from: nat, to: nat)
    requires from <= to
    ensures NoneYet(address, child, account, internal, from, to + 1)
       <==> NoneYet(address, child, account, internal, from, to) && child(account, to, internal) !in address
  {
  }

  lemma {:induction false} NoneYetShorter(address: AddressTable, child: Child, account: AccountId, internal: bool, from: nat, to: nat, end: nat)
    requires to <= end && NoneYet(address, child, account, internal, from, end)
    ensures NoneYet(address, child, account, internal, from, to)
  {
    if to < end { NoneYetShorter(address, child, account, internal, from, to, end - 1); }
  }

  // Storing index `to` after the range [from, to).
  lemma WithPoolNext(address: AddressTable, child: Child, inverse: Address -> AddressRow, account: AccountId, internal: bool, from: nat, to: nat)
    requires Injective(child, inverse) && from <= to
    ensures var t, a := WithPool(address, child, account, internal, from, to), child(account, to, internal);
            && (a in t <==> a in address)
            && WithPool(address, child, account, internal, from, to + 1) == t[a := AddressRow(account, to, internal)]
  {
    var a := child(account, to, internal);
    WithPoolHas(address, child, inverse, account, internal, from, to, a);
    assert inverse(a) == AddressRow(account, to, internal);
  }

  lemma StoreNothing(address: AddressTable, child: Child, account: AccountId, internal: bool, first: nat)
    ensures WithPool(address, child, account, internal, first, first + 0) == address && NoneYet(address, child, account, internal, first, first + 0)
  {
  }

  // One more row of a run of count rows from index first.
  lemma StoreNext(address: AddressTable, child: Child, inverse: Address -> AddressRow, account: AccountId, internal: bool,
                  first: nat, n: nat, count: nat)
    requires Injective(child, inverse) && n < count
    ensures |Children(child, account, first, count, internal)| == count
    ensures var t, a := WithPool(address, child, account, internal, first, first + n), Children(child, account, first, count, internal)[n];
            && WithPool(address, child, account, internal, first, first + (n + 1)) == t[a := AddressRow(account, first + n, internal)]
            && (a in t ==> !NoneYet(address, child, account, internal, first, first + count))
            && (a !in t && NoneYet(address, child, account, internal, first, first + n)
                ==> NoneYet(address, child, account, internal, first, first + (n + 1)))
  {
    WithPoolNext(address, child, inverse, account, internal, first, first + n);
    ChildAt(child, account, first, count, internal, n);
    NoneYetNext(address, child, account, internal, first, first + n);
    if NoneYet(address, child, account, internal, first, first + count) {
      NoneYetShorter(address, child, account, internal, first, first + n + 1, first + count);
    }
  }

  /** Raising a pool counter and storing exactly the new indices keeps the table exact. */
  lemma GrowCovers(keys: map<AccountId, Keys>, address: AddressTable, child: Child, inverse: Address -> AddressRow,
                   account: AccountId, internal: bool, to: nat, k: Keys)
    requires Injective(child, inverse) && Covers(keys, address, child, inverse) && account in keys
    requires to >= keys[account].Pool(internal) && k.Pool(internal) == to && k.Pool(!internal) == keys[account].Pool(!internal)
    ensures Covers(keys[account := k], WithPool(address, child, account, internal, keys[account].Pool(internal), to), child, inverse)
  {
    var from := keys[account].Pool(internal);
    var t := WithPool(address, child, account, internal, from, to);
    forall a
      ensures (a in t <==> InPool(a, child, inverse, keys[account := k])) && (a in t ==> t[a] == inverse(a))
    {
      WithPoolHas(address, child, inverse, account, internal, from, to, a);
    }
  }

  lemma {:induction false} FreshAbove(keys: map<AccountId, Keys>, address: AddressTable, child: Child, inverse: Address -> AddressRow,
                   account: AccountId, internal: bool, from: nat, to: nat)
    requires Injective(child, inverse) && Covers(keys, address, child, inverse)
    requires account in keys ==> from >= keys[account].Pool(internal)
    ensures NoneYet(address, child, account, internal, from, to)
  {
    if from < to {
      FreshAbove(keys, address, child, inverse, account, internal, from, to - 1);
      assert !InPool(child(account, to - 1, internal), child, inverse, keys);
    }
  }

  // What holds of the three tables between transactions.
  ghost predicate Consistent(keys: map<AccountId, Keys>, address: AddressTable, invoice: map<Address, Issued>, child: Child,
                             inverse: Address -> AddressRow)
  {
    && Injective(child, inverse) && Covers(keys, address, child, inverse) && InvoicesOk(keys, invoice, child)
    && forall a | a in keys :: keys[a].Full()
  }

  // A new account with two full pools.
  lemma AccountAdded(keys: map<AccountId, Keys>, address: AddressTable, invoice: map<Address, Issued>, child: Child,
                     inverse: Address -> AddressRow, id: AccountId)
    requires Consistent(keys, address, invoice, child, inverse) && id !in keys
    ensures var mid := WithPool(address, child, id, false, 0, HD_DISCOVERY_RANGE);
            && NoneYet(address, child, id, false, 0, HD_DISCOVERY_RANGE) && NoneYet(mid, child, id, true, 0, HD_DISCOVERY_RANGE)
            && Consistent(keys[id := Keys(0, 0, HD_DISCOVERY_RANGE, HD_DISCOVERY_RANGE)],
                          WithPool(mid, child, id, true, 0, HD_DISCOVERY_RANGE), invoice, child, inverse)
  {
    hide WithPool, Injective, NoneYet;
    var k0 := keys[id := Keys(0, 0, 0, 0)];
    var k1 := k0[id := Keys(0, 0, 0, HD_DISCOVERY_RANGE)];
    var k2 := keys[id := Keys(0, 0, HD_DISCOVERY_RANGE, HD_DISCOVERY_RANGE)];
    var mid := WithPool(address, child, id, false, 0, HD_DISCOVERY_RANGE);
    FreshAbove(keys, address, child, inverse, id, false, 0, HD_DISCOVERY_RANGE);
    assert Covers(k0, address, child, inverse);
    GrowCovers(k0, address, child, inverse, id, false, HD_DISCOVERY_RANGE, k1[id]);
    FreshAbove(k1, mid, child, inverse, id, true, 0, HD_DISCOVERY_RANGE);
    GrowCovers(k1, mid, child, inverse, id, true, HD_DISCOVERY_RANGE, k2[id]);
    assert k1[id := k2[id]] == k2;
  }

  function AfterIssue(k: Keys): Keys {
    k.(nextExt := k.nextExt + 1, poolExt := k.nextExt + 1 + HD_DISCOVERY_RANGE)
  }

  // The address table once the next external key has been issued, and once an account has been created.
  function PoolAfterIssue(address: AddressTable, child: Child, id: AccountId, k: Keys): AddressTable {
    WithPool(address, child, id, false, k.poolExt, AfterIssue(k).poolExt)
  }

  function NewPools(address: AddressTable, child: Child, id: AccountId): AddressTable {
    WithPool(WithPool(address, child, id, false, 0, HD_DISCOVERY_RANGE), child, id, true, 0, HD_DISCOVERY_RANGE)
  }

  lemma InvoicesGrow(keys: map<AccountId, Keys>, invoice: map<Address, Issued>, child: Child, inverse: Address -> AddressRow, id: AccountId)
    requires Injective(child, inverse) && InvoicesOk(keys, invoice, child) && id in keys
    ensures var i := keys[id].nextExt; var a := child(id, i, false);
            a !in invoice && InvoicesOk(keys[id := AfterIssue(keys[id])], invoice[a := Issued(id, i)], child)
  {
    var a := child(id, keys[id].nextExt, false);
    assert inverse(a) == AddressRow(id, keys[id].nextExt, false);
    assert forall b | b in invoice :: inverse(b) == AddressRow(invoice[b].account, invoice[b].keyIndex, false);
  }

  // One more external key is used, and the pool moves along.
  lemma InvoiceAdded(keys: map<AccountId, Keys>, address: AddressTable, invoice: map<Address, Issued>, child: Child,
                     inverse: Address -> AddressRow, id: AccountId)
    requires Consistent(keys, address, invoice, child, inverse) && id in keys
    ensures var k, a := AfterIssue(keys[id]), child(id, keys[id].nextExt, false);
            var address' := WithPool(address, child, id, false, keys[id].poolExt, k.poolExt);
            && a !in invoice && NoneYet(address, child, id, false, keys[id].poolExt, k.poolExt)
            && Consistent(keys[id := k], address', invoice[a := Issued(id, keys[id].nextExt)], child, inverse)
            && a in address' && address'[a] == AddressRow(id, keys[id].nextExt, false)
  {
    hide WithPool, NoneYet, InvoicesOk, Injective, InPool;
    var k, a := AfterIssue(keys[id]), child(id, keys[id].nextExt, false);
    FreshAbove(keys, address, child, inverse, id, false, keys[id].poolExt, k.poolExt);
    GrowCovers(keys, address, child, inverse, id, false, k.poolExt, k);
    InvoicesGrow(keys, invoice, child, inverse, id);
    KeyInPool(child, inverse, keys[id := k], id, keys[id].nextExt);
  }

  lemma KeyInPool(child: Child, inverse: Address -> AddressRow, keys: map<AccountId, Keys>, id: AccountId, i: nat)
    requires Injective(child, inverse) && id in keys && i < keys[id].poolExt
    ensures InPool(child(id, i, false), child, inverse, keys) && inverse(child(id, i, false)) == AddressRow(id, i, false)
  {
  }

  // ---------------------------------------------------------------- the store

  class KeyStore {
    const child: Child
    ghost const inverse: Address -> AddressRow
    var keys: map<AccountId, Keys>
    var address: AddressTable
    var invoice: map<Address, Issued>

    /** Every committed state: full pools, an exact address table, and invoices at used external keys. */
    ghost predicate Valid()
      reads this
    {
      Consistent(keys, address, invoice, child, inverse)
    }

    constructor (child: Child, ghost inverse: Address -> AddressRow)
      requires Injective(child, inverse)
      ensures Valid() && keys == map[] && this.child == child
    {
      this.inverse := inverse;
      this.child, keys, address, invoice := child, map[], map[], map[];
    }

    /** Insert a run of addresses; a duplicate makes the statement fail. */
    method StoreAddresses(account: AccountId, addresses: seq<Address>, first: nat, internal: bool) returns (ok: bool)
      requires Injective(child, inverse) && addresses == Children(child, account, first, |addresses|, internal)
      modifies this`address
      ensures ok <==> NoneYet(old(address), child, account, internal, first, first + |addresses|)
      ensures ok ==> address == WithPool(old(address), child, account, internal, first, first + |addresses|)
    {
      var count := |addresses|;
      ghost var before := address;
      StoreNothing(before, child, account, internal, first);
      hide *;
      for n := 0 to count
        invariant address == WithPool(before, child, account, internal, first, first + n)
        invariant NoneYet(before, child, account, internal, first, first + n)
      {
        StoreNext(before, child, inverse, account, internal, first, n, count);
        var a := addresses[n];
        if a in address { return false; }
        address := address[a := AddressRow(account, first + n, internal)];
      }
      return true;
    }

    /** The counters in the table never go down, whatever copy they are written from. */
    method UpdateAccount(account: AccountId, k: Keys) returns (ok: bool)
      modifies this`keys
      ensures ok <==> account in old(keys)
      ensures keys == if ok then old(keys)[account := old(keys)[account].Max(k)] else old(keys)
    {
      if account !in keys { return false; }
      keys := keys[account := keys[account].Max(k)];
      return true;
    }
  }

  // A copy of an account row, possibly taken long ago.
  class Account {
    const id: AccountId
    var keys: Keys

    constructor (id: AccountId, keys: Keys)
      ensures this.id == id && this.keys == keys
    {
      this.id, this.keys := id, keys;
    }

    /** Taken from a full row that has only grown since. */
    ghost predicate CopyOf(store: KeyStore)
      reads this, store
    {
      id in store.keys && keys.Full() && keys.AtMost(store.keys[id])
    }

    method GenerateAddresses(child: Child, first: nat, count: nat, internal: bool) returns (r: seq<Address>)
      ensures r == Children(child, id, first, count, internal)
    {
      r := [];
      for i := first to first + count
        invariant r == Children(child, id, first, i - first, internal)
      {
        r := r + [child(id, i, internal)];
      }
    }

    method NextPayToAddress(child: Child) returns (a: Address, keyIndex: nat)
      modifies this
      ensures keyIndex == old(keys).nextExt && a == child(id, keyIndex, false)
      ensures keys == old(keys).(nextExt := old(keys).nextExt + 1)
    {
      keyIndex := keys.nextExt;
      a := child(id, keyIndex, false);
      keys := keys.(nextExt := keys.nextExt + 1);
    }

    // Generate and store what one kind's pool lacks.
    method FillPool(store: KeyStore, internal: bool, end: nat) returns (ok: bool)
      requires Injective(store.child, store.inverse)
      modifies store`address
      ensures ok <==> NoneYet(old(store.address), store.child, id, internal, keys.Pool(internal), end)
      ensures ok ==> store.address == WithPool(old(store.address), store.child, id, internal, keys.Pool(internal), end)
    {
      var first := keys.Pool(internal);
      if first >= end { return true; }
      var addresses := GenerateAddresses(store.child, first, end - first, internal);
      ok := store.StoreAddresses(id, addresses, first, internal);
    }

    /** Keep the pool HD_DISCOVERY_RANGE addresses ahead of the keys in use. */
    method UpdatePoolAddresses(store: KeyStore) returns (ok: bool)
      requires Injective(store.child, store.inverse)
      modifies this, store`address
      ensures var c, k := store.child, old(keys); var mid := WithPool(old(store.address), c, id, false, k.poolExt, k.nextExt + HD_DISCOVERY_RANGE);
              && (ok <==> NoneYet(old(store.address), c, id, false, k.poolExt, k.nextExt + HD_DISCOVERY_RANGE)
                          && NoneYet(mid, c, id, true, k.poolInt, k.nextInt + HD_DISCOVERY_RANGE))
              && (ok ==> store.address == WithPool(mid, c, id, true, k.poolInt, k.nextInt + HD_DISCOVERY_RANGE))
      ensures ok ==> keys == old(keys).(poolInt := old(keys).nextInt + HD_DISCOVERY_RANGE, poolExt := old(keys).nextExt + HD_DISCOVERY_RANGE)
    {
      var externalPoolEnd, internalPoolEnd := keys.nextExt + HD_DISCOVERY_RANGE, keys.nextInt + HD_DISCOVERY_RANGE;
      ok := FillPool(store, false, externalPoolEnd);
      if !ok { return; }
      ok := FillPool(store, true, internalPoolEnd);
      if !ok { return; }
      keys := keys.(poolInt := internalPoolEnd, poolExt := externalPoolEnd);
    }
  }

  // ----------------------------------------------------------------- the calls

  ghost predicate Grown(k: map<AccountId, Keys>, k': map<AccountId, Keys>) {
    forall a | a in k :: a in k' && k[a].AtMost(k'[a])
  }

  /** A copy stays a copy of an older row, whatever is committed meanwhile. */
  lemma CopyStays(id: AccountId, copy: Keys, k: map<AccountId, Keys>, k': map<AccountId, Keys>)
    requires id in k && copy.AtMost(k[id]) && Grown(k, k')
    ensures id in k' && copy.AtMost(k'[id])
  {
  }

  /** Create an account with full pools, if there is none of this name; commits says whether the store commits. */
  method CreateAccount(store: KeyStore, id: AccountId, commits: bool) returns (ok: bool)
    requires store.Valid()
    modifies store
    ensures store.Valid() && Grown(old(store.keys), store.keys) && store.invoice == old(store.invoice)
    ensures ok <==> commits && id !in old(store.keys)
    ensures ok ==> store.keys == old(store.keys)[id := Keys(0, 0, HD_DISCOVERY_RANGE, HD_DISCOVERY_RANGE)]
    ensures ok ==> store.address == NewPools(old(store.address), store.child, id)
    ensures !ok ==> store.keys == old(store.keys) && store.address == old(store.address)
  {
    hide Covers, WithPool, InvoicesOk;
    if id in store.keys { return false; }
    var keys0, address0 := store.keys, store.address;
    var account := new Account(id, Keys(0, 0, 0, 0));
    AccountAdded(keys0, address0, store.invoice, store.child, store.inverse, id);
    ok := account.UpdatePoolAddresses(store);
    store.keys := store.keys[id := account.keys];
    ok := commits;
    if !ok { store.keys, store.address := keys0, address0; }
  }

  /** Issue the next external address of an account as an invoice, all in one transaction. */
  method CreateInvoice(store: KeyStore, id: AccountId, commits: bool) returns (r: Option<Address>)
    requires store.Valid()
    modifies store
    ensures store.Valid() && Grown(old(store.keys), store.keys)
    ensures r.Some? <==> commits && id in old(store.keys)
    ensures r.Some? ==> var i := old(store.keys)[id].nextExt;
              && r.value == store.child(id, i, false) && r.value !in old(store.invoice)
              && store.invoice == old(store.invoice)[r.value := Issued(id, i)] && store.keys == old(store.keys)[id := AfterIssue(old(store.keys)[id])]
              && store.address == PoolAfterIssue(old(store.address), store.child, id, old(store.keys)[id])
              && r.value in store.address && store.address[r.value] == AddressRow(id, i, false)
    ensures r.None? ==> store.keys == old(store.keys) && store.address == old(store.address) && store.invoice == old(store.invoice)
  {
    hide Covers, InvoicesOk;
    if id !in store.keys { return None; }
    var keys0, address0, invoice0 := store.keys, store.address, store.invoice;
    var acc := new Account(id, store.keys[id]);
    var a, keyIndex := acc.NextPayToAddress(store.child);
    InvoiceAdded(keys0, address0, invoice0, store.child, store.inverse, id);
    if a in store.invoice { return None; } // the row's primary key: never the case
    store.invoice := store.invoice[a := Issued(id, keyIndex)];
    var ok := acc.UpdatePoolAddresses(store);
    ok := store.UpdateAccount(id, acc.keys);
    assert acc.keys == AfterIssue(keys0[id]);
    if !commits {
      store.keys, store.address, store.invoice := keys0, address0, invoice0;
      return None;
    }
    return Some(a);
  }

  /** The account part of a payment, worked out from an old copy. The copy's change key was advanced in yet another
      copy, so nothing is added and nothing is written: the next payment uses the same change address again. */
  method SaveAfterPayment(store: KeyStore, copy: Account, commits: bool) returns (ok: bool)
    requires store.Valid() && copy.CopyOf(store)
    modifies store, copy
    ensures store.Valid() && store.keys == old(store.keys) && store.address == old(store.address) && store.invoice == old(store.invoice)
    ensures ok <==> commits
  {
    var keys0, address0 := store.keys, store.address;
    ok := copy.UpdatePoolAddresses(store);
    ok := store.UpdateAccount(copy.id, copy.keys);
    assert store.keys == keys0;
    ok := commits;
    if !ok { store.keys, store.address := keys0, address0; }
  }

  // ------------------------------------------------------------- what it gives the rest

  /** Invoices of one account have distinct key indices, so that paging by key index visits each of them once,
      and every invoice address resolves to its account and index. */
  lemma InvoicesResolve(keys: map<AccountId, Keys>, address: AddressTable, child: Child, inverse: Address -> AddressRow,
                        invoice: map<Address, Issued>, inv: InvoiceTable)
    requires Injective(child, inverse) && Covers(keys, address, child, inverse) && InvoicesOk(keys, invoice, child)
    requires forall a | a in keys :: keys[a].Full()
    requires forall a | a in inv :: a in invoice && inv[a].account == invoice[a].account && inv[a].keyIndex == invoice[a].keyIndex
    ensures Feed.KeysDistinct(inv)
    ensures forall a | a in inv :: a in address && address[a] == AddressRow(inv[a].account, inv[a].keyIndex, false)
  {
    forall a | a in inv ensures a in address && address[a] == AddressRow(inv[a].account, inv[a].keyIndex, false) {
      assert inverse(a) == AddressRow(invoice[a].account, invoice[a].keyIndex, false);
      assert InPool(a, child, inverse, keys);
    }
  }
}
