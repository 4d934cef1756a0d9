/** What the calls that create accounts and invoices commit, as moves of the whole service. */
module Creations {
  import opened Options
  import opened BlockTree
  import opened Ledger
  import opened Tables
  import opened Guarantees
  import opened AddressPool
  import Wallet

  /** The key counters, addresses and invoices of the account calls are those of the tables. */
  ghost predicate Matches(db: Db, keys: map<AccountId, Keys>, address: AddressTable, invoice: map<Address, Issued>) {
    && db.address == address && db.account.Keys == keys.Keys && db.invoice.Keys == invoice.Keys
    && forall a | a in db.invoice :: Issued(db.invoice[a].account, db.invoice[a].keyIndex) == invoice[a]
  }

  // What one table of addresses has and another has not.
  function Added(address: AddressTable, address': AddressTable): AddressTable {
    map a | a in address' && a !in address :: address'[a]
  }

  // The addresses of a run of indices that are new are those of the account, and nothing else changes.
  lemma PoolAdds(address: AddressTable, child: Child, inverse: Address -> AddressRow, id: AccountId, internal: bool, from: nat, to: nat)
    requires Injective(child, inverse) && forall a | a in address :: address[a] == inverse(a)
    ensures var t := WithPool(address, child, id, internal, from, to);
            && (forall a | a in address :: a in t && t[a] == address[a])
            && (forall a | a in t && a !in address :: t[a].account == id) && (forall a | a in t :: t[a] == inverse(a))
  {
    var t := WithPool(address, child, id, internal, from, to);
    forall a
      ensures a in address ==> a in t && t[a] == address[a]
      ensures a in t && a !in address ==> t[a].account == id
      ensures a in t ==> t[a] == inverse(a)
    {
      WithPoolHas(address, child, inverse, id, internal, from, to, a);
    }
  }

  lemma NewPoolsAdd(address: AddressTable, child: Child, inverse: Address -> AddressRow, id: AccountId)
    requires Injective(child, inverse) && forall a | a in address :: address[a] == inverse(a)
    ensures var t := NewPools(address, child, id);
            (forall a | a in address :: a in t && t[a] == address[a]) && (forall a | a in t && a !in address :: t[a].account == id)
  {
    hide WithPool, Injective;
    PoolAdds(address, child, inverse, id, false, 0, HD_DISCOVERY_RANGE);
    PoolAdds(WithPool(address, child, id, false, 0, HD_DISCOVERY_RANGE), child, inverse, id, true, 0, HD_DISCOVERY_RANGE);
  }

  lemma TableInverse(keys: map<AccountId, Keys>, address: AddressTable, invoice: map<Address, Issued>, child: Child, inverse: Address -> AddressRow)
    requires Consistent(keys, address, invoice, child, inverse)
    ensures Injective(child, inverse) && forall a | a in address :: address[a] == inverse(a)
  {
  }

  lemma AddedIs(address: AddressTable, address': AddressTable)
    requires forall a | a in address :: a in address' && address'[a] == address[a]
    ensures address + Added(address, address') == address' && Added(address, address').Keys !! address.Keys
  {
    SameMap(address + Added(address, address'), address');
  }

  /** `AddressPool.CreateInvoice` commits an invoice that fits: a new external address with a fresh key index. */
  lemma InvoiceIsMove(db: Db, keys: map<AccountId, Keys>, address: AddressTable, invoice: map<Address, Issued>, child: Child,
                      inverse: Address -> AddressRow, id: AccountId, row: InvoiceRow)
    requires Consistent(keys, address, invoice, child, inverse) && Matches(db, keys, address, invoice) && id in keys
    requires row.account == id && row.keyIndex == keys[id].nextExt && Wallet.Untouched(row)
    ensures var a, address' := child(id, keys[id].nextExt, false), PoolAfterIssue(address, child, id, keys[id]);
            var more := Added(address, address');
            && Wallet.InvoiceFits(db, a, row, more)
            && Matches(db.(invoice := db.invoice[a := row], address := db.address + more), keys[id := AfterIssue(keys[id])], address',
                       invoice[a := Issued(id, keys[id].nextExt)])
  {
    var a, k := child(id, keys[id].nextExt, false), AfterIssue(keys[id]);
    var address' := PoolAfterIssue(address, child, id, keys[id]);
    PoolAdds(address, child, inverse, id, false, keys[id].poolExt, k.poolExt);
    AddedIs(address, address');
    InvoicesGrow(keys, invoice, child, inverse, id);
    KeyInPool(child, inverse, keys, id, keys[id].nextExt);
    hide WithPool, Injective, InPool;
    forall b | b in db.invoice && db.invoice[b].account == id ensures db.invoice[b].keyIndex != row.keyIndex {
      assert invoice[b].keyIndex < keys[id].nextExt;
    }
  }

  /** `AddressPool.CreateAccount` commits an account that fits: its pools are new addresses. */
  lemma AccountIsMove(db: Db, keys: map<AccountId, Keys>, address: AddressTable, invoice: map<Address, Issued>, child: Child,
                      inverse: Address -> AddressRow, id: AccountId)
    requires Consistent(keys, address, invoice, child, inverse) && Matches(db, keys, address, invoice) && id !in keys && id != ""
    ensures var address' := NewPools(address, child, id);
            var more := Added(address, address');
            && Wallet.AccountFits(db, id, more)
            && Matches(db.(account := db.account[id := Wallet.NEW_ACCOUNT], address := db.address + more),
                       keys[id := Keys(0, 0, HD_DISCOVERY_RANGE, HD_DISCOVERY_RANGE)], address', invoice)
  {
    hide Injective, Consistent, NewPools;
    TableInverse(keys, address, invoice, child, inverse);
    NewPoolsAdd(address, child, inverse, id);
    AddedIs(address, NewPools(address, child, id));
  }

  /** The change address of a payment is in the table, as an internal address of the account. */
  lemma ChangeResolves(keys: map<AccountId, Keys>, address: AddressTable, invoice: map<Address, Issued>, child: Child,
                       inverse: Address -> AddressRow, id: AccountId)
    requires Consistent(keys, address, invoice, child, inverse) && id in keys
    ensures var a := child(id, keys[id].nextInt, true);
            a in address && address[a] == AddressRow(id, keys[id].nextInt, true) && a !in invoice
  {
    var a := child(id, keys[id].nextInt, true);
    assert inverse(a) == AddressRow(id, keys[id].nextInt, true);
    assert InPool(a, child, inverse, keys);
    forall b | b in invoice ensures b != a {
      assert inverse(b) == AddressRow(invoice[b].account, invoice[b].keyIndex, false);
    }
  }
}
