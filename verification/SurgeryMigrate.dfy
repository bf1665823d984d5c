/**
 The migration as the program performs it: maps filled list by list, running totals, and an output
 state database written account by account. Map iteration order is left open (`:|`).
 */
module SurgeryMigrate {
  import opened Common
  import opened FiniteSums
  import opened SurgerySpec

  /** The output state database: every setter creates the account if it is missing. */
  class StateDB {
    var accounts: map<Address, Account>

    constructor ()
      ensures accounts == map[]
    {
      accounts := map[];
    }

    method SetBalance(a: Address, balance: nat)
      modifies this
      ensures accounts == old(accounts)[a := GetOrNew(old(accounts), a).(balance := balance)]
    {
      accounts := accounts[a := GetOrNew(accounts, a).(balance := balance)];
    }

    method SetCode(a: Address, code: string)
      modifies this
      ensures accounts == old(accounts)[a := GetOrNew(old(accounts), a).(code := code)]
    {
      accounts := accounts[a := GetOrNew(accounts, a).(code := code)];
    }

    method SetNonce(a: Address, nonce: nat)
      modifies this
      ensures accounts == old(accounts)[a := GetOrNew(old(accounts), a).(nonce := nonce)]
    {
      accounts := accounts[a := GetOrNew(accounts, a).(nonce := nonce)];
    }

    /** Writing zero deletes the slot. */
    method SetState(a: Address, key: Word, value: Word)
      modifies this
      ensures accounts == old(accounts)[a := PutSlot(GetOrNew(old(accounts), a), key, value)]
    {
      accounts := accounts[a := PutSlot(GetOrNew(accounts, a), key, value)];
    }

    method AddBalance(a: Address, amount: nat)
      modifies this
      ensures accounts == old(accounts)[a := Credit(GetOrNew(old(accounts), a), amount)]
    {
      accounts := accounts[a := Credit(GetOrNew(accounts, a), amount)];
    }

    /** Writes a fresh account: its fields, then its storage slot by slot. */
    method Import(a: Address, account: Account)
      requires a !in accounts
      modifies this
      ensures accounts == old(accounts)[a := account.(storage := Written(account.storage))]
    {
      SetBalance(a, account.balance);
      SetCode(a, account.code);
      SetNonce(a, account.nonce);
      ghost var bare := accounts;
      var remaining := account.storage.Keys;
      while remaining != {}
        invariant remaining <= account.storage.Keys
        invariant accounts == bare[a := account.(storage := Written(account.storage - remaining))]
        decreases remaining
      {
        var key :| key in remaining;
        WrittenStep(account.storage, remaining, key);
        SetState(a, key, account.storage[key]);
        remaining := remaining - {key};
      }
      assert account.storage - {} == account.storage;
    }
  }

  function PutSlot(account: Account, key: Word, value: Word): Account {
    account.(storage := if value == 0 then account.storage - {key} else account.storage[key := value])
  }

  lemma WrittenStep(storage: map<Word, Word>, remaining: set<Word>, key: Word)
    requires remaining <= storage.Keys && key in remaining
    ensures var done := Written(storage - remaining);
            Written(storage - (remaining - {key})) ==
            if storage[key] == 0 then done - {key} else done[key := storage[key]]
  {
  }

  function TypeOf(slots: map<Word, int>, k: Word): int {
    if k in slots then slots[k] else 0
  }

  // ---- reading the lists ----

  /** One list of addresses: each is to be migrated, and its balance slot is expected. */
  method ReadAddresses(h: Keccak, list: seq<Address>, addresses: set<Address>, slots: map<Word, int>)
    returns (addresses': set<Address>, slots': map<Word, int>)
    ensures addresses' == addresses + Elems(list)
    ensures forall k :: TypeOf(slots', k) == if k in BalanceKeys(h, Elems(list)) then 1 else TypeOf(slots, k)
  {
    addresses', slots' := addresses, slots;
    for n := 0 to |list|
      invariant addresses' == addresses + Elems(list[..n])
      invariant forall k :: TypeOf(slots', k) == if k in BalanceKeys(h, Elems(list[..n])) then 1 else TypeOf(slots, k)
    {
      assert list[..n + 1] == list[..n] + [list[n]];
      BalanceKeysAdd(h, Elems(list[..n]), list[n]);
      assert Elems(list[..n + 1]) == Elems(list[..n]) + {list[n]};
      addresses' := addresses' + {list[n]};
      slots' := slots'[BalanceKey(h, list[n]) := 1];
    }
    assert list[..|list|] == list;
  }

  lemma BalanceKeysAdd(h: Keccak, s: set<Address>, a: Address)
    ensures BalanceKeys(h, s + {a}) == BalanceKeys(h, s) + {BalanceKey(h, a)}
  {
  }

  lemma FlatStep<T>(lists: seq<seq<T>>, n: nat)
    requires n < |lists|
    ensures Flat(lists[..n + 1]) == Flat(lists[..n]) + Elems(lists[n])
  {
    forall x ensures x in Flat(lists[..n + 1]) <==> x in Flat(lists[..n]) + Elems(lists[n]) {
      if x in Flat(lists[..n]) {
        var i, j :| 0 <= i < n && 0 <= j < |lists[..n][i]| && lists[..n][i][j] == x;
        assert lists[..n + 1][i][j] == x;
      } else if x in Elems(lists[n]) {
        var j :| 0 <= j < |lists[n]| && lists[n][j] == x;
        assert lists[..n + 1][n][j] == x;
      }
    }
  }

  lemma BalanceKeysUnion(h: Keccak, s: set<Address>, t: set<Address>)
    ensures BalanceKeys(h, s + t) == BalanceKeys(h, s) + BalanceKeys(h, t)
  {
  }

  method ReadAddressLists(h: Keccak, lists: seq<seq<Address>>) returns (addresses: set<Address>, slots: map<Word, int>)
    ensures addresses == Flat(lists)
    ensures forall k :: TypeOf(slots, k) == if k in BalanceKeys(h, Flat(lists)) then 1 else 0
  {
    addresses, slots := {}, map[];
    for n := 0 to |lists|
      invariant addresses == Flat(lists[..n])
      invariant forall k :: TypeOf(slots, k) == if k in BalanceKeys(h, Flat(lists[..n])) then 1 else 0
    {
      FlatStep(lists, n);
      BalanceKeysUnion(h, Flat(lists[..n]), Elems(lists[n]));
      addresses, slots := ReadAddresses(h, lists[n], addresses, slots);
    }
    assert lists[..|lists|] == lists;
  }

  function PairOwners(pairs: set<(Address, Address)>): set<Address> {
    set p | p in pairs :: p.0
  }

  function PairKeys(h: Keccak, pairs: set<(Address, Address)>): set<Word> {
    set p | p in pairs :: AllowanceKey(h, p.0, p.1)
  }

  lemma PairsStep(h: Keccak, list: seq<(Address, Address)>, n: nat)
    requires n < |list|
    ensures PairOwners(Elems(list[..n + 1])) == PairOwners(Elems(list[..n])) + {list[n].0}
    ensures PairKeys(h, Elems(list[..n + 1])) == PairKeys(h, Elems(list[..n])) + {AllowanceKey(h, list[n].0, list[n].1)}
  {
    assert list[..n + 1] == list[..n] + [list[n]];
    assert Elems(list[..n + 1]) == Elems(list[..n]) + {list[n]};
    PairsAdd(h, Elems(list[..n]), {list[n]});
    assert PairKeys(h, {list[n]}) == {AllowanceKey(h, list[n].0, list[n].1)};
    assert PairOwners({list[n]}) == {list[n].0};
  }

  /** Allowances: the owner is to be migrated, but only the allowance slot is expected. */
  method ReadAllowances(h: Keccak, list: seq<(Address, Address)>, addresses: set<Address>, slots: map<Word, int>)
    returns (addresses': set<Address>, slots': map<Word, int>)
    ensures addresses' == addresses + PairOwners(Elems(list))
    ensures forall k :: TypeOf(slots', k) == if k in PairKeys(h, Elems(list)) then 2 else TypeOf(slots, k)
  {
    addresses', slots' := addresses, slots;
    for n := 0 to |list|
      invariant addresses' == addresses + PairOwners(Elems(list[..n]))
      invariant forall k :: TypeOf(slots', k) == if k in PairKeys(h, Elems(list[..n])) then 2 else TypeOf(slots, k)
    {
      PairsStep(h, list, n);
      addresses' := addresses' + {list[n].0};
      slots' := slots'[AllowanceKey(h, list[n].0, list[n].1) := 2];
    }
    assert list[..|list|] == list;
  }

  lemma PairsAdd(h: Keccak, s: set<(Address, Address)>, t: set<(Address, Address)>)
    ensures PairKeys(h, s + t) == PairKeys(h, s) + PairKeys(h, t)
    ensures PairOwners(s + t) == PairOwners(s) + PairOwners(t)
  {
  }

  method ReadAllowanceLists(h: Keccak, lists: seq<seq<(Address, Address)>>, addresses: set<Address>,
                            slots: map<Word, int>)
    returns (addresses': set<Address>, slots': map<Word, int>)
    ensures addresses' == addresses + PairOwners(Flat(lists))
    ensures forall k :: TypeOf(slots', k) == if k in PairKeys(h, Flat(lists)) then 2 else TypeOf(slots, k)
  {
    addresses', slots' := addresses, slots;
    for n := 0 to |lists|
      invariant addresses' == addresses + PairOwners(Flat(lists[..n]))
      invariant forall k :: TypeOf(slots', k) == if k in PairKeys(h, Flat(lists[..n])) then 2 else TypeOf(slots, k)
    {
      FlatStep(lists, n);
      PairsAdd(h, Flat(lists[..n]), Elems(lists[n]));
      addresses', slots' := ReadAllowances(h, lists[n], addresses', slots');
    }
    assert lists[..|lists|] == lists;
  }

  /** All four sources of addresses, in the order the program reads them. */
  method ReadLists(i: Input) returns (addresses: set<Address>, slots: map<Word, int>)
    ensures addresses == ToMigrate(i)
    ensures forall k :: TypeOf(slots, k) == SlotType(i, k)
  {
    addresses, slots := ReadAddressLists(i.keccak, i.addrLists);
    addresses, slots := ReadAllowanceLists(i.keccak, i.allowanceLists, addresses, slots);
    addresses, slots := ReadAddresses(i.keccak, i.dbAddresses, addresses, slots);
    addresses, slots := ReadAddresses(i.keccak, i.mintAddresses, addresses, slots);
    assert PairOwners(Flat(i.allowanceLists)) == Owners(i);
    assert PairKeys(i.keccak, Flat(i.allowanceLists)) == AllowanceKeys(i);
    BalanceKeysUnion(i.keccak, Elems(i.dbAddresses), Elems(i.mintAddresses));
  }

  // ---- checking the contract's storage ----

  /** Walks the storage of BVM ETH: sums the balance slots, and fails on a slot nobody accounts for. */
  method CheckStorage(i: Input, p: Params, slots: map<Word, int>) returns (ok: bool, found: int)
    requires forall k :: TypeOf(slots, k) == SlotType(i, k)
    ensures ok <==> SlotsKnown(i, p)
    ensures ok ==> found == Found(i)
  {
    var storage := BvmStorage(i);
    var remaining := storage.Keys;
    ok, found := true, 0;
    while remaining != {}
      invariant remaining <= storage.Keys
      invariant forall k | k in storage && k !in remaining ::
                  SlotType(i, k) != 0 || k <= MAX_SLOT || k in p.knownMissing
      invariant found == Total(FoundSlots(i) - remaining)
      decreases remaining
    {
      var k :| k in remaining;
      FoundStep(i, remaining, k);
      var kind := TypeOf(slots, k);
      if kind == 1 {
        found := found + storage[k];
      } else if kind != 2 && k > MAX_SLOT && k !in p.knownMissing {
        return false, found;
      }
      remaining := remaining - {k};
    }
    assert FoundSlots(i) - {} == FoundSlots(i);
  }

  lemma FoundStep(i: Input, remaining: set<Word>, k: Word)
    requires remaining <= BvmStorage(i).Keys && k in remaining
    ensures Total(FoundSlots(i) - (remaining - {k})) ==
            Total(FoundSlots(i) - remaining) + if SlotType(i, k) == 1 then BvmStorage(i)[k] as int else 0
  {
    var before, after := FoundSlots(i) - remaining, FoundSlots(i) - (remaining - {k});
    if SlotType(i, k) == 1 {
      assert after == before[k := BvmStorage(i)[k] as int];
      TotalInsert(before, k, BvmStorage(i)[k] as int);
    } else {
      assert after == before;
    }
  }

  // ---- writing the output ----

  /** Adding one more entry of `part` on top of `base`. */
  lemma OverlayStep<K, V>(base: map<K, V>, part: map<K, V>, remaining: set<K>, k: K)
    requires k in part && k in remaining
    ensures base + (part - (remaining - {k})) == (base + (part - remaining))[k := part[k]]
  {
  }

  method ImportAlloc(i: Input, out: StateDB)
    requires out.accounts == map[]
    modifies out
    ensures out.accounts == FromAlloc(i)
  {
    var remaining := i.alloc.Keys;
    while remaining != {}
      invariant remaining <= i.alloc.Keys
      invariant out.accounts == FromAlloc(i) - remaining
      decreases remaining
    {
      var a :| a in remaining;
      out.Import(a, i.alloc[a]);
      remaining := remaining - {a};
    }
  }

  lemma BalancesStep(i: Input, s: set<Address>, a: Address)
    requires a !in s
    ensures Total(BalancesOf(i, s + {a})) == Total(BalancesOf(i, s)) + Balance(i, a)
  {
    assert BalancesOf(i, s + {a}) == BalancesOf(i, s)[a := Balance(i, a) as int];
    TotalInsert(BalancesOf(i, s), a, Balance(i, a));
  }

  /** The output and the running total while `remaining` still has to be visited. */
  ghost predicate Copying(i: Input, remaining: set<Address>, accounts: map<Address, Account>, migrated: int) {
    && accounts == FromAlloc(i) + (FromState(i) - remaining)
    && migrated == Total(BalancesOf(i, Copied(i) - remaining))
    && forall a | a in Copied(i) - remaining :: i.state[a].balance == 0
  }

  lemma CopyingSkip(i: Input, remaining: set<Address>, a: Address, accounts: map<Address, Account>, migrated: int)
    requires Copying(i, remaining, accounts, migrated) && a !in Copied(i)
    ensures Copying(i, remaining - {a}, accounts, migrated)
  {
    assert FromState(i) - (remaining - {a}) == FromState(i) - remaining;
    assert Copied(i) - (remaining - {a}) == Copied(i) - remaining;
  }

  lemma CopyingStep(i: Input, remaining: set<Address>, a: Address, accounts: map<Address, Account>, migrated: int)
    requires Copying(i, remaining, accounts, migrated)
    requires a in Copied(i) && a in remaining && i.state[a].balance == 0
    ensures a !in accounts
    ensures Copying(i, remaining - {a}, accounts[a := i.state[a].(balance := Balance(i, a))], migrated + Balance(i, a))
  {
    BalancesStep(i, Copied(i) - remaining, a);
    assert Copied(i) - (remaining - {a}) == Copied(i) - remaining + {a};
    OverlayStep(FromAlloc(i), FromState(i), remaining, a);
  }

  lemma CopyingEnds(i: Input, accounts: map<Address, Account>, migrated: int)
    ensures Copying(i, i.state.Keys, FromAlloc(i), 0)
    ensures Copying(i, {}, accounts, migrated) <==>
            && accounts == Base(i) && migrated == Total(BalancesOf(i, Copied(i)))
            && forall a | a in Copied(i) :: i.state[a].balance == 0
  {
    assert FromState(i) - i.state.Keys == map[];
    assert Copied(i) - i.state.Keys == {};
    assert BalancesOf(i, {}) == map[];
    assert FromState(i) - {} == FromState(i);
    assert Copied(i) - {} == Copied(i);
  }

  method CopyAccount(account: Account, a: Address, balance: nat, out: StateDB)
    requires NoZeros(account.storage) && a !in out.accounts
    modifies out
    ensures out.accounts == old(out.accounts)[a := account.(balance := balance)]
  {
    assert Written(account.storage) == account.storage;
    out.Import(a, account.(balance := balance));
  }

  /** Visits one account of the old state. */
  method CopyNext(i: Input, a: Address, ghost remaining: set<Address>, migrated: int, out: StateDB)
    returns (ok: bool, migrated': int)
    requires TrieState(i.state) && a in i.state && a in remaining
    requires Copying(i, remaining, out.accounts, migrated)
    modifies out
    ensures ok <==> a in Copied(i) ==> i.state[a].balance == 0
    ensures ok ==> Copying(i, remaining - {a}, out.accounts, migrated')
  {
    ok, migrated' := true, migrated;
    if a in i.alloc || a == BVM_ETH {
      CopyingSkip(i, remaining, a, out.accounts, migrated);
      return;
    }
    if i.state[a].balance > 0 { return false, migrated; }
    CopyingStep(i, remaining, a, out.accounts, migrated);
    var balance := Balance(i, a);
    CopyAccount(i.state[a], a, balance, out);
    migrated' := migrated + balance;
  }

  /** Copies the accounts that genesis does not override, each with its BVM ETH balance. */
  method CopyAccounts(i: Input, out: StateDB) returns (ok: bool, migrated: int, seen: set<Address>)
    requires TrieState(i.state) && out.accounts == FromAlloc(i)
    modifies out
    ensures ok <==> forall a | a in Copied(i) :: i.state[a].balance == 0
    ensures ok ==> out.accounts == Base(i) && migrated == Total(BalancesOf(i, Copied(i))) && seen == i.state.Keys
  {
    var remaining := i.state.Keys;
    ok, migrated, seen := true, 0, {};
    CopyingEnds(i, out.accounts, migrated);
    while remaining != {}
      invariant seen + remaining == i.state.Keys
      invariant Copying(i, remaining, out.accounts, migrated)
      decreases remaining
    {
      var a :| a in remaining;
      seen := seen + {a};
      ok, migrated := CopyNext(i, a, remaining, migrated, out);
      if !ok { return; }
      remaining := remaining - {a};
    }
    ok := true;
    assert seen == i.state.Keys;
    CopyingEnds(i, out.accounts, migrated);
  }

  /** The output and the running total while `remaining` still has to be visited. */
  ghost predicate Crediting(i: Input, remaining: set<Address>, accounts: map<Address, Account>, migrated: int) {
    && accounts == Base(i) + (Credits(i) - remaining)
    && migrated == Total(BalancesOf(i, Copied(i) + (Leftover(i) - remaining)))
  }

  lemma CreditingSkip(i: Input, remaining: set<Address>, a: Address, accounts: map<Address, Account>, migrated: int)
    requires Crediting(i, remaining, accounts, migrated) && a !in Leftover(i)
    ensures Crediting(i, remaining - {a}, accounts, migrated)
  {
    assert Credits(i) - (remaining - {a}) == Credits(i) - remaining;
    assert Leftover(i) - (remaining - {a}) == Leftover(i) - remaining;
  }

  lemma CreditingStep(i: Input, remaining: set<Address>, a: Address, accounts: map<Address, Account>, migrated: int)
    requires Crediting(i, remaining, accounts, migrated) && a in Leftover(i) && a in remaining
    ensures Crediting(i, remaining - {a}, accounts[a := Credit(GetOrNew(accounts, a), Balance(i, a))],
                      migrated + Balance(i, a))
  {
    assert GetOrNew(accounts, a) == GetOrNew(Base(i), a);
    OverlayStep(Base(i), Credits(i), remaining, a);
    BalancesStep(i, Copied(i) + (Leftover(i) - remaining), a);
    assert Copied(i) + (Leftover(i) - (remaining - {a})) == Copied(i) + (Leftover(i) - remaining) + {a};
  }

  lemma CreditingEnds(i: Input, accounts: map<Address, Account>, migrated: int)
    ensures Crediting(i, ToMigrate(i), Base(i), Total(BalancesOf(i, Copied(i))))
    ensures Crediting(i, {}, accounts, migrated) ==> accounts == Output(i) && migrated == Migrated(i)
  {
    assert Credits(i) - ToMigrate(i) == map[];
    assert Copied(i) + (Leftover(i) - ToMigrate(i)) == Copied(i);
    assert Credits(i) - {} == Credits(i);
    assert Leftover(i) - {} == Leftover(i);
  }

  /** Credits the addresses that hold a balance but have no account in the old state. */
  method CreditLeftovers(i: Input, addresses: set<Address>, seen: set<Address>, migrated: int, out: StateDB)
    returns (migrated': int)
    requires addresses == ToMigrate(i) && seen == i.state.Keys
    requires out.accounts == Base(i) && migrated == Total(BalancesOf(i, Copied(i)))
    modifies out
    ensures out.accounts == Output(i)
    ensures migrated' == Migrated(i)
  {
    CreditingEnds(i, out.accounts, migrated);
    var remaining := addresses;
    migrated' := migrated;
    while remaining != {}
      invariant remaining <= addresses
      invariant Crediting(i, remaining, out.accounts, migrated')
      decreases remaining
    {
      var a :| a in remaining;
      if a in seen {
        CreditingSkip(i, remaining, a, out.accounts, migrated');
      } else {
        CreditingStep(i, remaining, a, out.accounts, migrated');
        var balance := Balance(i, a);
        migrated' := migrated' + balance;
        out.AddBalance(a, balance);
      }
      remaining := remaining - {a};
    }
    CreditingEnds(i, out.accounts, migrated');
  }

  /** The migration. It either aborts or produces the one output that its input determines:
      the order of map iteration is immaterial. */
  method Migrate(i: Input) returns (r: Option<map<Address, Account>>)
    requires TrieState(i.state)
    ensures r.Some? <==> Completes(i)
    ensures r.Some? ==> r.value == Output(i)
  {
    var addresses, slots := ReadLists(i);
    if BVM_ETH !in i.state || i.params.None? { return None; }
    var p := i.params.value;
    var known, found := CheckStorage(i, p, slots);
    if !known || Supply(i) - found != p.expectedDelta { return None; }
    var out := new StateDB();
    ImportAlloc(i, out);
    var ok, migrated, seen := CopyAccounts(i, out);
    if !ok { return None; }
    migrated := CreditLeftovers(i, addresses, seen, migrated, out);
    if migrated != found { return None; }
    return Some(out.accounts);
  }
}
