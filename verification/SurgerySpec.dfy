/**
 State surgery: the data that the migration reads and writes, its storage-key scheme, and the
 migration as one function of its inputs.
 */
module SurgerySpec {
  import opened Common
  import opened FiniteSums

  const ADDRESS_LIMIT: nat := 0x1_0000_0000_0000_0000_0000_0000_0000_0000_0000_0000
  const WORD_LIMIT: nat := ADDRESS_LIMIT * 0x1_0000_0000_0000_0000_0000_0000

  type Address = a: nat | a < ADDRESS_LIMIT
  /** A 32-byte word: a storage key or a storage value, read as a big-endian number. */
  type Word = w: nat | w < WORD_LIMIT
  /** The hash of two 32-byte words. */
  type Keccak = (Word, Word) -> Word

  /** Slots up to this one are contract variables, not mapping entries. */
  const MAX_SLOT: nat := 256
  const BVM_ETH: Address := 0xDeadDeAddeAddEAddeadDEaDDEAdDeaDDeAD0000
  const SUPPLY_SLOT: Word := 2

  function BalanceKey(h: Keccak, a: Address): Word {
    h(a, 0)
  }

  function AllowanceKey(h: Keccak, owner: Address, spender: Address): Word {
    h(spender, h(owner, 1))
  }

  datatype Account = Account(balance: nat, nonce: nat, code: string, storage: map<Word, Word>)

  const NEW_ACCOUNT := Account(0, 0, "", map[])

  datatype Params = Params(knownMissing: set<Word>, expectedDelta: int)

  datatype Input = Input(
    keccak: Keccak,
    addrLists: seq<seq<Address>>,
    allowanceLists: seq<seq<(Address, Address)>>,
    dbAddresses: seq<Address>,
    mintAddresses: seq<Address>,
    state: map<Address, Account>,
    alloc: map<Address, Account>,
    params: Option<Params>)

  /** `GetState`: an absent slot reads as zero. */
  function Slot(storage: map<Word, Word>, k: Word): Word {
    if k in storage then storage[k] else 0
  }

  /** A storage trie holds no zero values. */
  predicate NoZeros(storage: map<Word, Word>) {
    forall k | k in storage :: storage[k] != 0
  }

  predicate TrieState(state: map<Address, Account>) {
    forall a | a in state :: NoZeros(state[a].storage)
  }

  /** The storage of the BVM ETH contract. */
  function BvmStorage(i: Input): map<Word, Word> {
    if BVM_ETH in i.state then i.state[BVM_ETH].storage else map[]
  }

  /** An address's BVM ETH balance. */
  function Balance(i: Input, a: Address): nat {
    Slot(BvmStorage(i), BalanceKey(i.keccak, a))
  }

  // ---- what the lists say ----

  function Flat<T>(lists: seq<seq<T>>): set<T> {
    set i, j | 0 <= i < |lists| && 0 <= j < |lists[i]| :: lists[i][j]
  }

  function Elems<T>(s: seq<T>): set<T> {
    set x | x in s
  }

  /** Addresses whose balance slot is expected. */
  function Listed(i: Input): set<Address> {
    Flat(i.addrLists) + Elems(i.dbAddresses) + Elems(i.mintAddresses)
  }

  function Owners(i: Input): set<Address> {
    set p | p in Flat(i.allowanceLists) :: p.0
  }

  /** Addresses that the zero-nonce pass visits: owners of allowances too, whose balance slot is not expected. */
  function ToMigrate(i: Input): set<Address> {
    Listed(i) + Owners(i)
  }

  function BalanceKeys(h: Keccak, s: set<Address>): set<Word> {
    set a | a in s :: BalanceKey(h, a)
  }

  function AllowanceKeys(i: Input): set<Word> {
    set p | p in Flat(i.allowanceLists) :: AllowanceKey(i.keccak, p.0, p.1)
  }

  /** The kind the lists give a slot (1 a balance, 2 an allowance, 0 unknown): later lists win. */
  function SlotType(i: Input, k: Word): int {
    if k in BalanceKeys(i.keccak, Elems(i.dbAddresses) + Elems(i.mintAddresses)) then 1
    else if k in AllowanceKeys(i) then 2
    else if k in BalanceKeys(i.keccak, Flat(i.addrLists)) then 1
    else 0
  }

  // ---- the checks ----

  /** No storage key of BVM ETH is unaccounted for. */
  predicate SlotsKnown(i: Input, p: Params) {
    forall k | k in BvmStorage(i) :: SlotType(i, k) != 0 || k <= MAX_SLOT || k in p.knownMissing
  }

  /** The balances found in the contract's storage. */
  function FoundSlots(i: Input): map<Word, int> {
    map k | k in BvmStorage(i) && SlotType(i, k) == 1 :: BvmStorage(i)[k] as int
  }

  ghost function Found(i: Input): int {
    Total(FoundSlots(i))
  }

  function Supply(i: Input): nat {
    Slot(BvmStorage(i), SUPPLY_SLOT)
  }

  /** Accounts of the old state that are copied: not overridden by genesis, and not BVM ETH itself. */
  function Copied(i: Input): set<Address> {
    i.state.Keys - i.alloc.Keys - {BVM_ETH}
  }

  /** Addresses with a balance but no account in the old state. */
  function Leftover(i: Input): set<Address> {
    ToMigrate(i) - i.state.Keys
  }

  function BalancesOf(i: Input, s: set<Address>): map<Address, int> {
    map a | a in s :: Balance(i, a) as int
  }

  ghost function Migrated(i: Input): int {
    Total(BalancesOf(i, Copied(i) + Leftover(i)))
  }

  /** The migration runs to its end. */
  ghost predicate Completes(i: Input) {
    && i.params.Some?
    && BVM_ETH in i.state
    && SlotsKnown(i, i.params.value)
    && Supply(i) - Found(i) == i.params.value.expectedDelta
    && (forall a | a in Copied(i) :: i.state[a].balance == 0)
    && Migrated(i) == Found(i)
  }

  // ---- the output ----

  /** Storage after writing these entries: zero values are deletions. */
  function Written(storage: map<Word, Word>): map<Word, Word> {
    map k | k in storage && storage[k] != 0 :: storage[k]
  }

  function FromAlloc(i: Input): map<Address, Account> {
    map a | a in i.alloc :: i.alloc[a].(storage := Written(i.alloc[a].storage))
  }

  function FromState(i: Input): map<Address, Account> {
    map a | a in Copied(i) :: i.state[a].(balance := Balance(i, a))
  }

  function GetOrNew(accounts: map<Address, Account>, a: Address): Account {
    if a in accounts then accounts[a] else NEW_ACCOUNT
  }

  function Base(i: Input): map<Address, Account> {
    FromAlloc(i) + FromState(i)
  }

  function Credit(account: Account, amount: nat): Account {
    account.(balance := account.balance + amount)
  }

  /** The zero-nonce pass: leftover addresses get their balance on top of what genesis gave them. */
  function Credits(i: Input): map<Address, Account> {
    map a | a in Leftover(i) :: Credit(GetOrNew(Base(i), a), Balance(i, a))
  }

  /** The migrated state. */
  function Output(i: Input): map<Address, Account> {
    Base(i) + Credits(i)
  }
}
