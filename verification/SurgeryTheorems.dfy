/** What the migration conserves, and exactly when its last check can pass. */
module SurgeryTheorems {
  import opened Common
  import opened FiniteSums
  import opened SurgerySpec

  /** Every address the migration looks a balance up for. */
  function Relevant(i: Input): set<Address> {
    i.state.Keys + ToMigrate(i)
  }

  /** What is assumed of Keccak: the balance keys in play do not collide with each other or with the
      allowance keys in play, and are no small slot numbers. */
  predicate KeyScheme(i: Input) {
    && (forall a, b | a in Relevant(i) && b in Relevant(i) ::
          BalanceKey(i.keccak, a) == BalanceKey(i.keccak, b) ==> a == b)
    && (forall a | a in Relevant(i) ::
          BalanceKey(i.keccak, a) !in AllowanceKeys(i) && BalanceKey(i.keccak, a) > MAX_SLOT)
  }

  /** A slot counts as a balance exactly when it belongs to a listed address. */
  lemma BalanceSlots(i: Input, k: Word)
    requires KeyScheme(i)
    ensures SlotType(i, k) == 1 <==> k in BalanceKeys(i.keccak, Listed(i))
  {
    if k in BalanceKeys(i.keccak, Listed(i)) {
      var a :| a in Listed(i) && k == BalanceKey(i.keccak, a);
      assert a in Relevant(i);
    }
  }

  function Held(i: Input): set<Address> {
    set a | a in Listed(i) && BalanceKey(i.keccak, a) in BvmStorage(i)
  }

  lemma HeldAreFound(i: Input)
    requires KeyScheme(i)
    ensures Found(i) == Total(BalancesOf(i, Held(i)))
  {
    var f := (a: Address) => BalanceKey(i.keccak, a);
    forall a | a in Held(i) ensures f(a) in FoundSlots(i) {
      BalanceSlots(i, f(a));
    }
    forall k | k in FoundSlots(i) ensures exists a :: a in Held(i) && f(a) == k {
      BalanceSlots(i, k);
      var a :| a in Listed(i) && k == BalanceKey(i.keccak, a);
      assert a in Held(i);
    }
    assert Held(i) <= Relevant(i);
    TotalRekey(BalancesOf(i, Held(i)), FoundSlots(i), f);
  }

  /** Summing balance slots is summing the balances of the listed addresses. */
  lemma FoundIsListed(i: Input)
    requires KeyScheme(i)
    ensures Found(i) == Total(BalancesOf(i, Listed(i)))
  {
    HeldAreFound(i);
    TotalIgnoresZeros(BalancesOf(i, Held(i)), BalancesOf(i, Listed(i)));
  }

  lemma SplitBalances(i: Input, s: set<Address>, part: set<Address>)
    ensures Total(BalancesOf(i, s)) == Total(BalancesOf(i, s * part)) + Total(BalancesOf(i, s - part))
  {
    TotalSplit(BalancesOf(i, s), part);
    assert Only(BalancesOf(i, s), part) == BalancesOf(i, s * part);
    assert BalancesOf(i, s) - part == BalancesOf(i, s - part);
  }

  function Skipped(i: Input): set<Address> {
    i.state.Keys * (i.alloc.Keys + {BVM_ETH})
  }

  /** The gap of the last check, with no assumption on missing keys: listed balances whose account was
      skipped, minus migrated balances that no list expected. */
  lemma FoundMinusMigrated(i: Input)
    requires KeyScheme(i)
    ensures Found(i) - Migrated(i) ==
            Total(BalancesOf(i, Listed(i) * Skipped(i))) - Total(BalancesOf(i, Copied(i) + Leftover(i) - Listed(i)))
  {
    var l, m := Listed(i), Copied(i) + Leftover(i);
    FoundIsListed(i);
    SplitBalances(i, l, m);
    SplitBalances(i, m, l);
    assert l * m == m * l;
    assert l - m == l * Skipped(i);
  }

  /** No balance key in play is excused as known missing. */
  predicate NoBalanceExcused(i: Input, p: Params) {
    forall a | a in Relevant(i) :: BalanceKey(i.keccak, a) !in p.knownMissing
  }

  /** After the slot check, only listed addresses hold a balance. */
  lemma UnlistedHoldNothing(i: Input, p: Params, a: Address)
    requires KeyScheme(i) && SlotsKnown(i, p) && NoBalanceExcused(i, p)
    requires a in Relevant(i) && a !in Listed(i)
    ensures Balance(i, a) == 0
  {
    var k := BalanceKey(i.keccak, a);
    if k in BvmStorage(i) {
      assert k !in AllowanceKeys(i) && k > MAX_SLOT && k !in p.knownMissing;
      BalanceSlots(i, k);
      assert false;
    }
  }

  /** The gap is exactly what the skipped accounts held, so the last check passes if and only if they held nothing. */
  lemma LastCheckPassesIff(i: Input, p: Params)
    requires KeyScheme(i) && SlotsKnown(i, p) && NoBalanceExcused(i, p)
    ensures Found(i) - Migrated(i) == Total(BalancesOf(i, Skipped(i)))
    ensures Migrated(i) == Found(i) <==> forall a | a in Skipped(i) :: Balance(i, a) == 0
  {
    forall a | a in Relevant(i) && a !in Listed(i) ensures Balance(i, a) == 0 {
      UnlistedHoldNothing(i, p, a);
    }
    var rest := Copied(i) + Leftover(i) - Listed(i);
    assert rest <= Relevant(i);
    TotalZeros(BalancesOf(i, rest));
    TotalIgnoresZeros(BalancesOf(i, Listed(i) * Skipped(i)), BalancesOf(i, Skipped(i)));
    FoundMinusMigrated(i);
    var held := BalancesOf(i, Skipped(i));
    TotalNonNegative(held);
    if forall a | a in Skipped(i) :: Balance(i, a) == 0 {
      TotalZeros(held);
    } else {
      var a :| a in Skipped(i) && Balance(i, a) != 0;
      assert held[a] != 0;
    }
  }

  // ---- conservation ----

  function BalanceMap(accounts: map<Address, Account>): map<Address, int> {
    map a | a in accounts :: accounts[a].balance as int
  }

  lemma BaseTotal(i: Input)
    ensures Total(BalanceMap(Base(i))) == Total(BalanceMap(i.alloc)) + Total(BalancesOf(i, Copied(i)))
  {
    var copied := BalancesOf(i, Copied(i));
    assert BalanceMap(Base(i)) == BalanceMap(i.alloc) + copied;
    TotalUnion(BalanceMap(i.alloc), copied);
  }

  /** The output holds the genesis balances plus everything migrated. */
  lemma OutputTotal(i: Input)
    ensures Total(BalanceMap(Output(i))) == Total(BalanceMap(i.alloc)) + Migrated(i)
  {
    BaseTotal(i);
    SplitBalances(i, Copied(i) + Leftover(i), Copied(i));
    assert (Copied(i) + Leftover(i)) * Copied(i) == Copied(i);
    assert Copied(i) + Leftover(i) - Copied(i) == Leftover(i);
    OutputAddsUp(i);
  }

  lemma OutputAddsUp(i: Input)
    ensures Total(BalanceMap(Output(i))) == Total(BalanceMap(Base(i))) + Total(BalancesOf(i, Leftover(i)))
  {
    var base, left, out := BalanceMap(Base(i)), BalancesOf(i, Leftover(i)), BalanceMap(Output(i));
    assert out.Keys == base.Keys + left.Keys;
    forall a | a in out ensures out[a] == Get(base, a) + Get(left, a) {
      if a in left { assert Output(i)[a] == Credits(i)[a]; }
    }
    TotalAdd(base, left, out);
  }

  /** A completed migration creates and destroys nothing but the accepted supply delta. */
  lemma Conservation(i: Input)
    requires Completes(i)
    ensures Total(BalanceMap(Output(i))) ==
            Total(BalanceMap(i.alloc)) + Supply(i) - i.params.value.expectedDelta
  {
    OutputTotal(i);
  }

  // ---- accounts ----

  /** What becomes of each account. */
  lemma OutputAccounts(i: Input, a: Address)
    requires BVM_ETH in i.state
    ensures a in i.state && a !in i.alloc && a != BVM_ETH ==>
              a in Output(i) && Output(i)[a] == i.state[a].(balance := Balance(i, a))
    ensures a in i.state && a in i.alloc ==> a in Output(i) && Output(i)[a] == FromAlloc(i)[a]
    ensures a == BVM_ETH && a !in i.alloc ==> a !in Output(i)
    ensures a !in i.state && a !in i.alloc ==>
              if a in ToMigrate(i) then a in Output(i) && Output(i)[a] == NEW_ACCOUNT.(balance := Balance(i, a))
              else a !in Output(i)
  {
  }

  /** Genesis does not always have the last word: an allocated account is exactly as genesis says if and
      only if it existed before, or no list names it, or it held nothing. */
  lemma AllocKeptIff(i: Input, a: Address)
    requires a in i.alloc
    ensures a in Output(i)
    ensures Output(i)[a] == FromAlloc(i)[a] <==> (a in i.state || a !in ToMigrate(i) || Balance(i, a) == 0)
  {
    assert a !in Copied(i);
    var genesis := FromAlloc(i)[a];
    assert Base(i)[a] == genesis;
    if a in Leftover(i) {
      assert Output(i)[a].balance == genesis.balance + Balance(i, a);
    }
  }

  /** A key function without collisions on small addresses. */
  function Shift(a: Word, b: Word): Word {
    if a < WORD_LIMIT - 1000 then a + 1000 else a
  }

  const TOKEN := Account(0, 1, "token", map[Shift(7, 0) := 5, SUPPLY_SLOT := 5])

  /** Address 7 holds five units in the contract, has no account, is listed, and has one unit by genesis. */
  const OVERLAP := Input(Shift, [[7]], [], [], [], map[BVM_ETH := TOKEN], map[7 := Account(1, 0, "", map[])],
                         Some(Params({}, 0)))

  lemma OverlapParts()
    ensures Listed(OVERLAP) == {7} && ToMigrate(OVERLAP) == {7} && Leftover(OVERLAP) == {7} && Copied(OVERLAP) == {}
    ensures Balance(OVERLAP, 7) == 5 && Supply(OVERLAP) == 5
    ensures FoundSlots(OVERLAP) == map[Shift(7, 0) := 5] && SlotsKnown(OVERLAP, OVERLAP.params.value)
  {
    assert Flat([[7 as Address]]) == {7} by { assert [[7 as Address]][0][0] == 7; }
    assert Flat(OVERLAP.allowanceLists) == {};
    assert Owners(OVERLAP) == {} && AllowanceKeys(OVERLAP) == {};
    assert BalanceKeys(Shift, {7}) == {Shift(7, 0)} by { assert BalanceKey(Shift, 7) == Shift(7, 0); }
    assert BalanceKeys(Shift, {}) == {};
    assert BvmStorage(OVERLAP) == map[Shift(7, 0) := 5, SUPPLY_SLOT := 5];
    assert SlotType(OVERLAP, Shift(7, 0)) == 1 && SlotType(OVERLAP, SUPPLY_SLOT) == 0;
  }

  /** The migration completes on this input, and the account is not as genesis says. */
  lemma AllocCanChange()
    ensures Completes(OVERLAP) && TrieState(OVERLAP.state)
    ensures 7 in Output(OVERLAP) && Output(OVERLAP)[7].balance == 6 && FromAlloc(OVERLAP)[7].balance == 1
  {
    OverlapParts();
    assert BalancesOf(OVERLAP, {7}) == map[7 := 5];
    TotalOfOne(7 as Address, 5);
    TotalOfOne(Shift(7, 0), 5);
    assert Copied(OVERLAP) + Leftover(OVERLAP) == {7};
  }

  lemma TotalOfOne<K(!new)>(k: K, v: int)
    ensures Total(map[k := v]) == v
  {
    TotalInsert(map[], k, v);
    assert (map[])[k := v] == map[k := v];
  }
}
