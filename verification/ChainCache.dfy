/**
 The response cache in front of a chain that grows and reorganises. Answering a request, checking whether the
 answer may be stored, and storing it are three steps, with anything in between. `peak` is the greatest height
 ever seen; a block that once had more than `confirmations` descendants is never replaced.
 */
module ChainCache {
  import opened Common
  import opened JsonRpc
  import opened CacheKeys
  import opened RpcCache

  type Block = nat

  /** How a node renders one block, and a range of blocks. */
  datatype Node = Node(view: (Block, bool) -> Value, rangeView: (seq<Block>, bool) -> Value)

  datatype Setting = Setting(codec: Codec, node: Node, confirmations: nat)

  const MAX_RANGE: nat := 1000

  /** What the node answers now; None is null or an error, which are never stored. */
  function Answer(node: Node, chain: seq<Block>, p: Params): Option<Value>
    requires ValidParams(p) && Cacheable(p)
  {
    match p
    case ByNumber(input, full) =>
      var n := BlockNumber(input);
      if n < |chain| then Some(node.view(chain[n], full)) else None
    case Range(start, end, full) =>
      var s, e := BlockNumber(start), BlockNumber(end);
      if s <= e && e - s <= MAX_RANGE && e < |chain| then Some(node.rangeView(chain[s..e + 1], full)) else None
  }

  /** A result that the node has returned and that is not stored yet; `checked` once the guard has let it pass. */
  datatype Pending = Pending(req: Req, v: Value, checked: bool)

  datatype World = World(chain: seq<Block>, peak: nat, mem: Memory, pending: seq<Pending>)

  datatype Step =
    | Reorganise(chain: seq<Block>)
    | PollHeight(height: nat)                 // the polled node may lag behind
    | PollGasPrice(text: string)
    | Evict(keys: set<string>)
    | AnswerBlocks(req: Req)                  // the node answers a block request
    | AnswerOther(req: Req, v: Value)         // any other method, with any result
    | Check(i: nat)                           // the guard of the put of a returned result
    | Store(i: nat)                           // its write
    | Abandon(i: nat)

  /** The block at this height has had more than `confirmations` descendants. */
  predicate Deep(g: Setting, w: World, n: nat) {
    n + g.confirmations < w.peak
  }

  /** A chain the node may switch to: same genesis, deep blocks kept, heights within uint64. */
  predicate LegalChain(g: Setting, w: World, chain: seq<Block>) {
    && |w.chain| >= 1 && |chain| >= 1 && chain[0] == w.chain[0]
    && |chain| + g.confirmations <= U64_MODULUS
    && forall n | 0 <= n < |w.chain| && Deep(g, w, n) :: n < |chain| && chain[n] == w.chain[n]
  }

  predicate IsBlockMethod(rpcMethod: string) {
    rpcMethod == "eth_getBlockByNumber" || rpcMethod == "eth_getBlockRange"
  }

  predicate Enabled(g: Setting, w: World, s: Step) {
    match s
    case Reorganise(chain) => LegalChain(g, w, chain)
    case PollHeight(h) => h <= w.peak
    case AnswerBlocks(req) => IsBlockMethod(req.rpcMethod)
    case AnswerOther(req, _) => !IsBlockMethod(req.rpcMethod)
    case Check(i) => i < |w.pending| && !w.pending[i].checked
    case Store(i) => i < |w.pending| && w.pending[i].checked
    case Abandon(i) => i < |w.pending|
    case _ => true
  }

  /** The same memory with another store. */
  function WithStore(w: World, store: Store): World {
    w.(mem := w.mem.(store := store))
  }

  function Without(pending: seq<Pending>, i: nat): seq<Pending>
    requires i < |pending|
  {
    pending[..i] + pending[i + 1..]
  }

  /** What the node returns for a block request, if it is worth storing. */
  function Returned(g: Setting, w: World, req: Req): seq<Pending> {
    var p := DecodeParams(g.codec, req);
    if p.None? || !Cacheable(p.value) || Answer(g.node, w.chain, p.value).None? then []
    else [Pending(req, Answer(g.node, w.chain, p.value).value, false)]
  }

  /** The guard lets the result pass, or it is dropped. */
  function Checked(g: Setting, w: World, i: nat): seq<Pending>
    requires i < |w.pending|
  {
    var x := w.pending[i];
    if MayPut(g.codec, g.confirmations, w.mem, x.req) then w.pending[i := x.(checked := true)]
    else Without(w.pending, i)
  }

  /** The state after writing x, without taking it from those in flight. */
  function Stored(g: Setting, w: World, x: Pending): World {
    w.(mem := Write(g.codec, w.mem, x.req, x.v))
  }

  function Do(g: Setting, w: World, s: Step): World
    requires Enabled(g, w, s)
  {
    match s
    case Reorganise(chain) => w.(chain := chain, peak := if |chain| - 1 > w.peak then |chain| - 1 else w.peak)
    case PollHeight(h) => WithStore(w, w.mem.store[BLOCK_NUMBER_KEY := g.codec.formatU64(h)])
    case PollGasPrice(text) => WithStore(w, w.mem.store[GAS_PRICE_KEY := text])
    case Evict(keys) => WithStore(w, w.mem.store - keys)
    case AnswerBlocks(req) => w.(pending := w.pending + Returned(g, w, req))
    case AnswerOther(req, v) => w.(pending := w.pending + [Pending(req, v, false)])
    case Check(i) => w.(pending := Checked(g, w, i))
    case Store(i) => Stored(g, w, w.pending[i]).(pending := Without(w.pending, i))
    case Abandon(i) => w.(pending := Without(w.pending, i))
  }

  /** A fresh cache in front of a chain. */
  function Start(chain: seq<Block>): World
    requires |chain| >= 1
  {
    World(chain, |chain| - 1, EMPTY, [])
  }

  predicate Goes(g: Setting, steps: seq<Step>, ws: seq<World>, i: nat)
    requires i < |steps| && |ws| == |steps| + 1
  {
    Enabled(g, ws[i], steps[i]) && ws[i + 1] == Do(g, ws[i], steps[i])
  }

  /** The steps so far, with the states before, between and after them. */
  ghost predicate Run(g: Setting, steps: seq<Step>, ws: seq<World>) {
    && CodecOk(g.codec) && |ws| == |steps| + 1
    && |ws[0].chain| >= 1 && ws[0] == Start(ws[0].chain) && |ws[0].chain| + g.confirmations <= U64_MODULUS
    && forall i: nat | i < |steps| :: Goes(g, steps, ws, i)
  }

  // ---- what holds in every run ----

  predicate InputDeep(g: Setting, w: World, input: string)
    requires ValidBlockInput(input) && !IsBlockDependent(input)
  {
    input == "earliest" || Deep(g, w, BlockNumber(input))
  }

  predicate AllDeep(g: Setting, w: World, p: Params)
    requires ValidParams(p) && Cacheable(p)
  {
    match p
    case ByNumber(input, _) => InputDeep(g, w, input)
    case Range(start, end, _) => InputDeep(g, w, start) && InputDeep(g, w, end)
  }

  /** Deep blocks exist, and the guard's arithmetic cannot wrap for a block that ever existed. */
  predicate ChainOk(g: Setting, w: World) {
    && 1 <= |w.chain| <= w.peak + 1
    && w.peak + g.confirmations < U64_MODULUS
    && (w.peak >= g.confirmations ==> w.peak - g.confirmations <= |w.chain|)
  }

  /** The cached height was once the chain's, so it is no greater than the peak. */
  predicate HeightOk(g: Setting, w: World) {
    LatestBlock(g.codec, w.mem.store).Some? ==> LatestBlock(g.codec, w.mem.store).value <= w.peak
  }

  /** The blocks have existed. */
  predicate Within(peak: nat, p: Params)
    requires ValidParams(p) && Cacheable(p)
  {
    match p
    case ByNumber(input, _) => BlockNumber(input) <= peak
    case Range(start, end, _) => BlockNumber(start) <= peak && BlockNumber(end) <= peak
  }

  /** A returned result about blocks is about fixed blocks that have existed, and that are deep once it is checked;
      a checked result of eth_call is about a fixed block. */
  predicate PendingFits(g: Setting, w: World, x: Pending) {
    && (IsBlockMethod(x.req.rpcMethod) ==> BlocksFit(g, w, x))
    && (x.req.rpcMethod == "eth_call" && x.checked ==>
          g.codec.call(x.req.params).Some? && IsFixed(g.codec.call(x.req.params).value.1))
  }

  predicate BlocksFit(g: Setting, w: World, x: Pending) {
    var p := DecodeParams(g.codec, x.req);
    p.Some? && Cacheable(p.value) && Within(w.peak, p.value) && (x.checked ==> AllDeep(g, w, p.value))
  }

  predicate PendingOk(g: Setting, w: World) {
    forall x | x in w.pending :: PendingFits(g, w, x)
  }

  predicate EntryDeep(g: Setting, w: World, p: Params)
    requires ValidParams(p)
  {
    Cacheable(p) && AllDeep(g, w, p)
  }

  /** Every block entry is for fixed, deep blocks. */
  ghost predicate DeepOk(g: Setting, w: World) {
    forall p: Params | ValidParams(p) && Key(p) in w.mem.store :: EntryDeep(g, w, p)
  }

  predicate IsFixed(tag: string) {
    tag == "earliest" || DecodeBlockInput(tag).Some?
  }

  predicate EndsIn(key: string, head: string, tag: string) {
    key == head + ":" + tag && IsFixed(tag)
  }

  /** The key ends in a fixed block. */
  ghost predicate EndsFixed(key: string) {
    exists head, tag :: EndsIn(key, head, tag)
  }

  /** Every entry of eth_call is for a fixed block. */
  ghost predicate CallsFixed(store: Store) {
    forall key | key in store && StartsWith(key, CALL_PREFIX) :: EndsFixed(key)
  }

  ghost predicate Sound(g: Setting, w: World) {
    ChainOk(g, w) && HeightOk(g, w) && PendingOk(g, w) && DeepOk(g, w) && CallsFixed(w.mem.store)
  }

  lemma NumberStable(g: Setting, w: World, chain: seq<Block>, n: nat)
    requires ChainOk(g, w) && LegalChain(g, w, chain) && (n == 0 || Deep(g, w, n))
    ensures n < |w.chain| && n < |chain| && chain[n] == w.chain[n]
  {
  }

  /** A reorganisation does not change the answer about deep blocks. */
  lemma AnswerStable(g: Setting, w: World, chain: seq<Block>, p: Params)
    requires ChainOk(g, w) && LegalChain(g, w, chain)
    requires ValidParams(p) && Cacheable(p) && AllDeep(g, w, p)
    ensures Answer(g.node, chain, p) == Answer(g.node, w.chain, p)
  {
    match p
    case ByNumber(input, _) => NumberStable(g, w, chain, BlockNumber(input));
    case Range(start, end, _) =>
      var s, e := BlockNumber(start), BlockNumber(end);
      NumberStable(g, w, chain, s);
      NumberStable(g, w, chain, e);
      if s <= e {
        forall n | s <= n <= e ensures chain[n] == w.chain[n] {
          NumberStable(g, w, chain, n);
        }
        assert chain[s..e + 1] == w.chain[s..e + 1];
      }
  }

  lemma ReorganiseSound(g: Setting, w: World, chain: seq<Block>)
    requires Sound(g, w) && LegalChain(g, w, chain)
    ensures Sound(g, Do(g, w, Reorganise(chain)))
  {
    var w' := Do(g, w, Reorganise(chain));
    if w'.peak == w.peak && w.peak > g.confirmations {
      NumberStable(g, w, chain, w.peak - g.confirmations - 1);
    }
    forall p: Params | ValidParams(p) && Key(p) in w'.mem.store ensures EntryDeep(g, w', p) {
      assert EntryDeep(g, w, p);
    }
    forall x | x in w'.pending ensures PendingFits(g, w', x) {
      assert PendingFits(g, w, x);
    }
  }

  /** Writing under a key that is no block key, not the height, and no key of eth_call for a moving block. */
  lemma OtherKeySound(g: Setting, w: World, key: string, text: string)
    requires Sound(g, w) && key != BLOCK_NUMBER_KEY && (StartsWith(key, CALL_PREFIX) ==> EndsFixed(key))
    requires forall p: Params :: Key(p) != key
    ensures Sound(g, WithStore(w, w.mem.store[key := text]))
  {
    var w' := WithStore(w, w.mem.store[key := text]);
    forall p: Params | ValidParams(p) && Key(p) in w'.mem.store ensures EntryDeep(g, w', p) {
      assert EntryDeep(g, w, p);
    }
    forall x | x in w'.pending ensures PendingFits(g, w', x) {
      assert PendingFits(g, w, x);
    }
  }

  const NO_CALL := CallParams("", "", "", "", "", "")

  lemma PollSound(g: Setting, w: World, h: nat)
    requires Sound(g, w) && CodecOk(g.codec) && h <= w.peak
    ensures Sound(g, Do(g, w, PollHeight(h)))
  {
    var w' := Do(g, w, PollHeight(h));
    assert LatestBlock(g.codec, w'.mem.store) == Some(h);
    forall p: Params | ValidParams(p) && Key(p) in w'.mem.store ensures EntryDeep(g, w', p) {
      HandlersDoNotShareKeys(p, NO_CALL, "");
      assert EntryDeep(g, w, p);
    }
    assert !StartsWith(BLOCK_NUMBER_KEY, CALL_PREFIX) by { assert BLOCK_NUMBER_KEY[0] != CALL_PREFIX[0]; }
    forall x | x in w'.pending ensures PendingFits(g, w', x) {
      assert PendingFits(g, w, x);
    }
  }

  lemma GasPriceSound(g: Setting, w: World, text: string)
    requires Sound(g, w)
    ensures Sound(g, Do(g, w, PollGasPrice(text)))
  {
    forall p: Params ensures Key(p) != GAS_PRICE_KEY {
      HandlersDoNotShareKeys(p, NO_CALL, "");
    }
    assert GAS_PRICE_KEY[4] != BLOCK_NUMBER_KEY[4] && GAS_PRICE_KEY[0] != CALL_PREFIX[0];
    OtherKeySound(g, w, GAS_PRICE_KEY, text);
  }

  lemma EvictSound(g: Setting, w: World, keys: set<string>)
    requires Sound(g, w)
    ensures Sound(g, Do(g, w, Evict(keys)))
  {
    var w' := Do(g, w, Evict(keys));
    forall p: Params | ValidParams(p) && Key(p) in w'.mem.store ensures EntryDeep(g, w', p) {
      assert EntryDeep(g, w, p);
    }
    forall x | x in w'.pending ensures PendingFits(g, w', x) {
      assert PendingFits(g, w, x);
    }
  }

  /** Only the results in flight change. */
  lemma PendingSound(g: Setting, w: World, pending: seq<Pending>)
    requires Sound(g, w) && forall x | x in pending :: PendingFits(g, w, x)
    ensures Sound(g, w.(pending := pending))
  {
    var w' := w.(pending := pending);
    forall p: Params | ValidParams(p) && Key(p) in w'.mem.store ensures EntryDeep(g, w', p) {
      assert EntryDeep(g, w, p);
    }
    forall x | x in pending ensures PendingFits(g, w', x) {
      assert PendingFits(g, w, x);
    }
  }

  lemma AnswerSound(g: Setting, w: World, req: Req)
    requires Sound(g, w) && IsBlockMethod(req.rpcMethod)
    ensures Sound(g, Do(g, w, AnswerBlocks(req)))
  {
    var more := Returned(g, w, req);
    forall x | x in w.pending + more ensures PendingFits(g, w, x) {
    }
    PendingSound(g, w, w.pending + more);
  }

  /** What passes the guard and has existed is deep, even though the guard reads a height that may be stale. */
  lemma GuardMeansDeep(g: Setting, w: World, input: string)
    requires ChainOk(g, w) && HeightOk(g, w) && LatestBlock(g.codec, w.mem.store).Some?
    requires ValidBlockInput(input) && !IsBlockDependent(input) && BlockNumber(input) <= w.peak
    requires Settled(input, LatestBlock(g.codec, w.mem.store).value, g.confirmations)
    ensures InputDeep(g, w, input)
  {
    if input != "earliest" {
      var n := BlockNumber(input);
      assert n + g.confirmations < U64_MODULUS;
      assert AddU64(n, g.confirmations) == n + g.confirmations;
    }
  }

  lemma StoredIsDeep(g: Setting, w: World, p: Params)
    requires ChainOk(g, w) && HeightOk(g, w) && ValidParams(p) && Cacheable(p) && Within(w.peak, p)
    requires MayStore(p, LatestBlock(g.codec, w.mem.store), g.confirmations)
    ensures AllDeep(g, w, p)
  {
    match p
    case ByNumber(input, _) =>
      if input != "earliest" { GuardMeansDeep(g, w, input); }
    case Range(start, end, _) =>
      GuardMeansDeep(g, w, start);
      GuardMeansDeep(g, w, end);
  }

  lemma CheckSound(g: Setting, w: World, i: nat)
    requires Sound(g, w) && i < |w.pending| && !w.pending[i].checked
    ensures Sound(g, Do(g, w, Check(i)))
  {
    var x := w.pending[i];
    assert PendingFits(g, w, x);
    var y := x.(checked := true);
    if MayPut(g.codec, g.confirmations, w.mem, x.req) {
      if IsBlockMethod(x.req.rpcMethod) {
        StoredIsDeep(g, w, DecodeParams(g.codec, x.req).value);
      }
      assert PendingFits(g, w, y);
      forall z | z in w.pending[i := y] ensures PendingFits(g, w, z) {
        assert z in w.pending || z == y;
      }
    }
    PendingSound(g, w, Checked(g, w, i));
  }

  lemma StoreBlocksSound(g: Setting, w: World, x: Pending)
    requires Sound(g, w) && PendingFits(g, w, x) && IsBlockMethod(x.req.rpcMethod) && x.checked
    ensures Sound(g, Stored(g, w, x))
  {
    var w', q := Stored(g, w, x), DecodeParams(g.codec, x.req).value;
    HandlersDoNotShareKeys(q, NO_CALL, "");
    KeyPrefixes(q);
    assert PrefixOf(q)[11] != CALL_PREFIX[11];
    assert !StartsWith(Key(q), CALL_PREFIX) by { assert Key(q)[11] == PrefixOf(q)[11]; }
    forall p: Params | ValidParams(p) && Key(p) in w'.mem.store ensures EntryDeep(g, w', p) {
      if Key(p) == Key(q) {
        KeysDetermineParams(p, q);
      } else {
        assert EntryDeep(g, w, p);
      }
    }
    forall y | y in w'.pending ensures PendingFits(g, w', y) {
      assert PendingFits(g, w, y);
    }
  }

  lemma CallKeyEndsFixed(c: CallParams, tag: string)
    requires IsFixed(tag)
    ensures EndsFixed(CallKey(c, tag))
  {
    assert EndsIn(CallKey(c, tag), CALL_PREFIX + c.to + ":" + c.data, tag);
  }

  /** The invariant looks at the store, not at the static values. */
  lemma SameStore(g: Setting, w: World, w': World)
    requires Sound(g, w)
    requires w'.chain == w.chain && w'.peak == w.peak && w'.mem.store == w.mem.store && w'.pending == w.pending
    ensures Sound(g, w')
  {
    forall p: Params | ValidParams(p) && Key(p) in w'.mem.store ensures EntryDeep(g, w', p) {
      assert EntryDeep(g, w, p);
    }
    forall x | x in w'.pending ensures PendingFits(g, w', x) {
      assert PendingFits(g, w, x);
    }
  }

  lemma StoreOtherSound(g: Setting, w: World, x: Pending)
    requires Sound(g, w) && PendingFits(g, w, x) && !IsBlockMethod(x.req.rpcMethod) && x.checked
    ensures Sound(g, Stored(g, w, x))
  {
    var w', key := Stored(g, w, x), GetKey(g.codec, x.req);
    if key.Some? {
      var (c, tag) := g.codec.call(x.req.params).value;
      CallKeyEndsFixed(c, tag);
      forall p: Params ensures Key(p) != key.value && key.value != BLOCK_NUMBER_KEY {
        HandlersDoNotShareKeys(p, c, tag);
      }
      assert Key(ByNumber("", false)) != key.value;
      var mid := WithStore(w, w.mem.store[key.value := Encode(g.codec, x.v)]);
      OtherKeySound(g, w, key.value, Encode(g.codec, x.v));
      SameStore(g, mid, w');
    } else {
      SameStore(g, w, w');
    }
  }

  lemma WithoutSound(g: Setting, w: World, i: nat)
    requires Sound(g, w) && i < |w.pending|
    ensures Sound(g, w.(pending := Without(w.pending, i)))
  {
    forall x | x in Without(w.pending, i) ensures PendingFits(g, w, x) {
      assert x in w.pending;
    }
    PendingSound(g, w, Without(w.pending, i));
  }

  lemma StoreSound(g: Setting, w: World, i: nat)
    requires Sound(g, w) && i < |w.pending| && w.pending[i].checked
    ensures Sound(g, Do(g, w, Store(i)))
  {
    var x := w.pending[i];
    assert PendingFits(g, w, x);
    if IsBlockMethod(x.req.rpcMethod) { StoreBlocksSound(g, w, x); } else { StoreOtherSound(g, w, x); }
    WithoutSound(g, Stored(g, w, x), i);
  }

  lemma StepSound(g: Setting, w: World, s: Step)
    requires Sound(g, w) && CodecOk(g.codec) && Enabled(g, w, s)
    ensures Sound(g, Do(g, w, s))
  {
    match s
    case Reorganise(c) => ReorganiseSound(g, w, c);
    case PollHeight(h) => PollSound(g, w, h);
    case PollGasPrice(text) => GasPriceSound(g, w, text);
    case Evict(keys) => EvictSound(g, w, keys);
    case AnswerBlocks(req) => AnswerSound(g, w, req);
    case AnswerOther(req, v) => PendingSound(g, w, w.pending + [Pending(req, v, false)]);
    case Check(i) => CheckSound(g, w, i);
    case Store(i) => StoreSound(g, w, i);
    case Abandon(i) => WithoutSound(g, w, i);
  }

  lemma {:induction false} RunsAreSound(g: Setting, steps: seq<Step>, ws: seq<World>, n: nat)
    requires Run(g, steps, ws) && n <= |steps|
    ensures Sound(g, ws[n])
  {
    if n > 0 {
      RunsAreSound(g, steps, ws, n - 1);
      assert Goes(g, steps, ws, n - 1);
      StepSound(g, ws[n - 1], steps[n - 1]);
    }
  }

  /** No reachable store has an entry for a moving tag: block entries are for fixed blocks that are deep, and keys
      of eth_call end in a fixed block. */
  lemma OnlyDeepEntries(g: Setting, steps: seq<Step>, ws: seq<World>, n: nat, p: Params, key: string)
    requires Run(g, steps, ws) && n <= |steps|
    ensures ValidParams(p) && Key(p) in ws[n].mem.store ==> Cacheable(p) && AllDeep(g, ws[n], p)
    ensures key in ws[n].mem.store && StartsWith(key, CALL_PREFIX) ==> EndsFixed(key)
  {
    RunsAreSound(g, steps, ws, n);
    if ValidParams(p) && Key(p) in ws[n].mem.store {
      assert EntryDeep(g, ws[n], p);
    }
  }

  // ---- when hits are truthful ----

  /** An entry says what the chain says now. */
  predicate EntryTrue(g: Setting, w: World, p: Params)
    requires ValidParams(p) && Key(p) in w.mem.store
  {
    && Cacheable(p) && Answer(g.node, w.chain, p).Some?
    && w.mem.store[Key(p)] == Encode(g.codec, Answer(g.node, w.chain, p).value)
  }

  ghost predicate AllTrue(g: Setting, w: World) {
    forall p: Params | ValidParams(p) && Key(p) in w.mem.store :: EntryTrue(g, w, p)
  }

  /** The hit for this block request is, under its ID, what the chain would answer now. */
  predicate HitTrue(g: Setting, w: World, req: Req) {
    var hit, p := Get(g.codec, w.mem, req), DecodeParams(g.codec, req);
    hit.Some? ==>
      && p.Some? && Cacheable(p.value) && Answer(g.node, w.chain, p.value).Some?
      && IsHit(req, Answer(g.node, w.chain, p.value).value, hit.value)
  }

  ghost predicate HitsTrue(g: Setting, w: World) {
    forall req: Req | IsBlockMethod(req.rpcMethod) :: HitTrue(g, w, req)
  }

  /** The result about blocks is not what the chain says now. */
  predicate Outdated(g: Setting, w: World, x: Pending) {
    && IsBlockMethod(x.req.rpcMethod) && GetKey(g.codec, x.req).Some?
    && Answer(g.node, w.chain, DecodeParams(g.codec, x.req).value) != Some(x.v)
  }

  /** Step n stores a result that is outdated by then. */
  predicate StoresOutdated(g: Setting, steps: seq<Step>, ws: seq<World>, n: nat)
    requires |ws| == |steps| + 1 && n < |steps|
  {
    steps[n].Store? && steps[n].i < |ws[n].pending| && Outdated(g, ws[n], ws[n].pending[steps[n].i])
  }

  lemma TrueEntriesTrueHits(g: Setting, w: World)
    requires CodecOk(g.codec) && AllTrue(g, w)
    ensures HitsTrue(g, w)
  {
    forall req: Req | IsBlockMethod(req.rpcMethod) ensures HitTrue(g, w, req) {
      if Get(g.codec, w.mem, req).Some? {
        var p := DecodeParams(g.codec, req).value;
        assert EntryTrue(g, w, p);
        LookupEncoded(g.codec, w.mem.store, Key(p), Answer(g.node, w.chain, p).value);
      }
    }
  }

  /** An outdated result, once stored, is a false hit. */
  lemma OutdatedIsFalse(g: Setting, w: World, x: Pending)
    requires CodecOk(g.codec) && Outdated(g, w, x)
    ensures !HitTrue(g, Stored(g, w, x), x.req)
  {
    WriteThenKnown(g.codec, w.mem, x.req, x.v);
  }

  lemma ReorganiseTrue(g: Setting, w: World, chain: seq<Block>)
    requires Sound(g, w) && AllTrue(g, w) && LegalChain(g, w, chain)
    ensures AllTrue(g, Do(g, w, Reorganise(chain)))
  {
    var w' := Do(g, w, Reorganise(chain));
    forall p: Params | ValidParams(p) && Key(p) in w'.mem.store ensures EntryTrue(g, w', p) {
      assert EntryTrue(g, w, p) && EntryDeep(g, w, p);
      AnswerStable(g, w, chain, p);
    }
  }

  /** A change of the store that leaves block entries alone, or drops them. */
  lemma OtherEntriesTrue(g: Setting, w: World, w': World)
    requires AllTrue(g, w) && w'.chain == w.chain
    requires forall p: Params | Key(p) in w'.mem.store ::
               Key(p) in w.mem.store && w'.mem.store[Key(p)] == w.mem.store[Key(p)]
    ensures AllTrue(g, w')
  {
    forall p: Params | ValidParams(p) && Key(p) in w'.mem.store ensures EntryTrue(g, w', p) {
      assert EntryTrue(g, w, p);
    }
  }

  lemma StoreBlocksTrue(g: Setting, w: World, x: Pending)
    requires AllTrue(g, w) && IsBlockMethod(x.req.rpcMethod) && GetKey(g.codec, x.req).Some? && !Outdated(g, w, x)
    ensures AllTrue(g, Stored(g, w, x))
  {
    var w', q := Stored(g, w, x), DecodeParams(g.codec, x.req).value;
    forall p: Params | ValidParams(p) && Key(p) in w'.mem.store ensures EntryTrue(g, w', p) {
      if Key(p) == Key(q) {
        KeysDetermineParams(p, q);
      } else {
        assert EntryTrue(g, w, p);
      }
    }
  }

  lemma StoreTrue(g: Setting, w: World, x: Pending)
    requires AllTrue(g, w) && !Outdated(g, w, x)
    ensures AllTrue(g, Stored(g, w, x))
  {
    var key := GetKey(g.codec, x.req);
    if IsBlockMethod(x.req.rpcMethod) && key.Some? {
      StoreBlocksTrue(g, w, x);
    } else {
      if key.Some? {
        var (c, tag) := g.codec.call(x.req.params).value;
        forall p: Params ensures Key(p) != key.value { HandlersDoNotShareKeys(p, c, tag); }
      }
      OtherEntriesTrue(g, w, Stored(g, w, x));
    }
  }

  lemma StepTrue(g: Setting, w: World, s: Step)
    requires Sound(g, w) && AllTrue(g, w) && Enabled(g, w, s)
    requires s.Store? ==> !Outdated(g, w, w.pending[s.i])
    ensures AllTrue(g, Do(g, w, s))
  {
    var w' := Do(g, w, s);
    match s
    case Reorganise(c) => ReorganiseTrue(g, w, c);
    case Store(i) =>
      StoreTrue(g, w, w.pending[i]);
      OtherEntriesTrue(g, Stored(g, w, w.pending[i]), w');
    case _ =>
      forall p: Params ensures Key(p) != BLOCK_NUMBER_KEY && Key(p) != GAS_PRICE_KEY {
        HandlersDoNotShareKeys(p, NO_CALL, "");
      }
      OtherEntriesTrue(g, w, w');
  }

  lemma {:induction false} EntriesStayTrue(g: Setting, steps: seq<Step>, ws: seq<World>, n: nat)
    requires Run(g, steps, ws) && n <= |steps| && forall k: nat | k < n :: !StoresOutdated(g, steps, ws, k)
    ensures AllTrue(g, ws[n])
  {
    if n > 0 {
      EntriesStayTrue(g, steps, ws, n - 1);
      RunsAreSound(g, steps, ws, n - 1);
      assert Goes(g, steps, ws, n - 1);
      assert !StoresOutdated(g, steps, ws, n - 1);
      StepTrue(g, ws[n - 1], steps[n - 1]);
    }
  }

  /** Over any run of answers, stores, evictions, polls, growth and reorganisations: every hit for a block or a range
      of blocks is at every moment what the chain would answer then, if and only if no step stored a result that was
      outdated by then. */
  lemma HitsAreTruthfulIff(g: Setting, steps: seq<Step>, ws: seq<World>)
    requires Run(g, steps, ws)
    ensures (forall n: nat | n <= |steps| :: HitsTrue(g, ws[n])) <==>
            (forall n: nat | n < |steps| :: !StoresOutdated(g, steps, ws, n))
  {
    if n: nat :| n < |steps| && StoresOutdated(g, steps, ws, n) {
      StoredFalse(g, steps, ws, n);
    } else {
      forall n: nat | n <= |steps| ensures HitsTrue(g, ws[n]) {
        EntriesStayTrue(g, steps, ws, n);
        TrueEntriesTrueHits(g, ws[n]);
      }
    }
  }

  lemma StoredFalse(g: Setting, steps: seq<Step>, ws: seq<World>, n: nat)
    requires Run(g, steps, ws) && n < |steps| && StoresOutdated(g, steps, ws, n)
    ensures !HitsTrue(g, ws[n + 1])
  {
    assert Goes(g, steps, ws, n);
    var x := ws[n].pending[steps[n].i];
    OutdatedIsFalse(g, ws[n], x);
    assert !HitTrue(g, ws[n + 1], x.req);
  }

  // ---- which results are never outdated ----

  /** The same result, whether checked or not. */
  predicate Same(x: Pending, y: Pending) {
    x.req == y.req && x.v == y.v
  }

  /** Where a result in flight after step k was before it; None if step k brought it. */
  lemma PendingStepAt(g: Setting, steps: seq<Step>, ws: seq<World>, k: nat, i: nat) returns (j: Option<nat>)
    requires Run(g, steps, ws) && k < |steps| && i < |ws[k + 1].pending|
    ensures j.Some? ==> j.value < |ws[k].pending| && Same(ws[k].pending[j.value], ws[k + 1].pending[i])
    ensures j.None? ==>
              var x := ws[k + 1].pending[i];
              || (steps[k] == AnswerBlocks(x.req) && Returned(g, ws[k], x.req) == [x])
              || !IsBlockMethod(x.req.rpcMethod)
  {
    assert Goes(g, steps, ws, k);
    var s := steps[k];
    if s.AnswerBlocks? || s.AnswerOther? {
      j := if i < |ws[k].pending| then Some(i) else None;
    } else if s.Check? && |ws[k + 1].pending| == |ws[k].pending| {
      j := Some(i);
    } else if s.Check? || s.Store? || s.Abandon? {
      j := Some(if i < s.i then i else i + 1);
    } else {
      j := Some(i);
    }
  }

  /** Whatever is in flight was answered by an earlier step, about the chain of that step. */
  lemma {:induction false} PendingWasAnswered(g: Setting, steps: seq<Step>, ws: seq<World>, n: nat, i: nat)
    returns (a: nat)
    requires Run(g, steps, ws) && n <= |steps| && i < |ws[n].pending|
    requires IsBlockMethod(ws[n].pending[i].req.rpcMethod)
    ensures var x := ws[n].pending[i];
            && a < n && steps[a] == AnswerBlocks(x.req) && Returned(g, ws[a], x.req) == [x.(checked := false)]
  {
    var j := PendingStepAt(g, steps, ws, n - 1, i);
    if j.Some? {
      a := PendingWasAnswered(g, steps, ws, n - 1, j.value);
    } else {
      a := n - 1;
    }
  }

  lemma DeepStepAt(g: Setting, steps: seq<Step>, ws: seq<World>, n: nat, p: Params)
    requires Run(g, steps, ws) && n < |steps| && ValidParams(p) && Cacheable(p) && AllDeep(g, ws[n], p)
    ensures AllDeep(g, ws[n + 1], p) && Answer(g.node, ws[n + 1].chain, p) == Answer(g.node, ws[n].chain, p)
  {
    assert Goes(g, steps, ws, n);
    RunsAreSound(g, steps, ws, n);
    if steps[n].Reorganise? {
      AnswerStable(g, ws[n], steps[n].chain, p);
    } else {
      assert ws[n + 1].chain == ws[n].chain && ws[n + 1].peak == ws[n].peak;
    }
  }

  /** From the moment its blocks are deep, an answer stays what it is. */
  lemma {:induction false} DeepAnswerStays(g: Setting, steps: seq<Step>, ws: seq<World>, a: nat, n: nat, p: Params)
    requires Run(g, steps, ws) && a <= n <= |steps| && ValidParams(p) && Cacheable(p) && AllDeep(g, ws[a], p)
    ensures AllDeep(g, ws[n], p) && Answer(g.node, ws[n].chain, p) == Answer(g.node, ws[a].chain, p)
    decreases n
  {
    if a < n {
      DeepAnswerStays(g, steps, ws, a, n - 1, p);
      DeepStepAt(g, steps, ws, n - 1, p);
    }
  }

  /** A result about blocks that were deep when they were answered is never outdated when it is stored. */
  lemma DeepAnswersAreNeverOutdated(g: Setting, steps: seq<Step>, ws: seq<World>, n: nat, i: nat) returns (a: nat)
    requires Run(g, steps, ws) && n <= |steps| && i < |ws[n].pending|
    requires IsBlockMethod(ws[n].pending[i].req.rpcMethod)
    ensures a < n && steps[a] == AnswerBlocks(ws[n].pending[i].req)
    ensures var p := DecodeParams(g.codec, ws[n].pending[i].req);
            p.Some? && Cacheable(p.value) && (AllDeep(g, ws[a], p.value) ==> !Outdated(g, ws[n], ws[n].pending[i]))
  {
    a := PendingWasAnswered(g, steps, ws, n, i);
    var p := DecodeParams(g.codec, ws[n].pending[i].req).value;
    if AllDeep(g, ws[a], p) { DeepAnswerStays(g, steps, ws, a, n, p); }
  }

  /** The guard in plain arithmetic: a fixed block passes exactly when it has more than `confirmations`
      descendants below the cached height, or when adding the confirmations wraps to less than that height. */
  lemma GuardMeaning(input: string, latest: nat, confirmations: nat)
    requires confirmations < U64_MODULUS
    ensures Settled(input, latest, confirmations) <==>
              || input == "earliest"
              || (DecodeBlockInput(input).Some? &&
                  var n := DecodeBlockInput(input).value;
                  if n + confirmations < U64_MODULUS then n + confirmations < latest
                  else n + confirmations < latest + U64_MODULUS)
  {
    if DecodeBlockInput(input).Some? {
      var n := DecodeBlockInput(input).value;
      assert n < U64_MODULUS;
      assert AddU64(n, confirmations) ==
             if n + confirmations < U64_MODULUS then n + confirmations else n + confirmations - U64_MODULUS;
    }
  }

  /** A response of eth_call is stored exactly for a plain call on a fixed block that is confirmed, or whose
      number wraps when the confirmations are added. */
  lemma CallGuard(codec: Codec, req: Req, latest: Option<nat>, confirmations: nat)
    requires req.rpcMethod == "eth_call" && confirmations < U64_MODULUS
    ensures var call := codec.call(req.params);
            PutKey(codec, req, latest, confirmations).Some? <==>
              && call.Some? && CallCacheable(call.value.0, call.value.1)
              && var tag := call.value.1;
                 || tag == "earliest"
                 || (latest.Some? && DecodeBlockInput(tag).Some? &&
                     var n := DecodeBlockInput(tag).value;
                     if n + confirmations < U64_MODULUS then n + confirmations < latest.value
                     else n + confirmations < latest.value + U64_MODULUS)
  {
    if codec.call(req.params).Some? && latest.Some? {
      GuardMeaning(codec.call(req.params).value.1, latest.value, confirmations);
    }
  }

  lemma OneIsDecoded()
    ensures DecodeBlockInput("0x1") == Some(1)
  {
    var input := "0x1";
    assert input[2..] == "1" && "1"[..0] == "";
    assert ParseHex("1") == Some(1);
  }

  lemma OneMoreStep(g: Setting, steps: seq<Step>, ws: seq<World>, s: Step)
    requires Run(g, steps, ws) && Enabled(g, ws[|steps|], s)
    ensures Run(g, steps + [s], ws + [Do(g, ws[|steps|], s)])
  {
    var steps', ws' := steps + [s], ws + [Do(g, ws[|steps|], s)];
    forall i: nat | i < |steps'| ensures Goes(g, steps', ws', i) {
      if i < |steps| { assert Goes(g, steps, ws, i); }
    }
  }

  /** A result is in flight while the chain replaces its block, grows, and is polled. */
  lemma LateRun(g: Setting, req: Req, x: Pending) returns (steps: seq<Step>, ws: seq<World>)
    requires CodecOk(g.codec) && g.confirmations == 1 && x == Pending(req, g.node.view(1, true), false)
    requires req.rpcMethod == "eth_getBlockByNumber"
    requires DecodeParams(g.codec, req) == Some(ByNumber("0x1", true)) && DecodeBlockInput("0x1") == Some(1)
    ensures Run(g, steps, ws) && |steps| == 3 && ws[3].chain == [0, 2, 3, 4] && ws[3].pending == [x]
    ensures LatestBlock(g.codec, ws[3].mem.store) == Some(3)
  {
    var w0 := Start([0, 1]);
    var w1 := w0.(pending := [x]);
    var w2 := w1.(chain := [0, 2, 3, 4], peak := 3);
    var w3 := WithStore(w2, map[BLOCK_NUMBER_KEY := g.codec.formatU64(3)]);
    assert Returned(g, w0, req) == [x];
    steps, ws := [AnswerBlocks(req), Reorganise([0, 2, 3, 4]), PollHeight(3)], [w0, w1, w2, w3];
    assert Goes(g, steps, ws, 0) && Goes(g, steps, ws, 1) && Goes(g, steps, ws, 2);
  }

  /** The guard lets it pass. */
  lemma LateCheck(g: Setting, req: Req, x: Pending) returns (steps: seq<Step>, ws: seq<World>)
    requires CodecOk(g.codec) && g.confirmations == 1 && x == Pending(req, g.node.view(1, true), false)
    requires req.rpcMethod == "eth_getBlockByNumber"
    requires DecodeParams(g.codec, req) == Some(ByNumber("0x1", true)) && DecodeBlockInput("0x1") == Some(1)
    ensures Run(g, steps, ws) && |steps| == 4 && ws[4].chain == [0, 2, 3, 4]
    ensures ws[4].pending == [x.(checked := true)]
  {
    steps, ws := LateRun(g, req, x);
    OneMoreStep(g, steps, ws, Check(0));
    steps, ws := steps + [Check(0)], ws + [Do(g, ws[3], Check(0))];
  }

  /** A run in which the cache lies: a node answers about block 1, the chain replaces that block and grows, and only
      then is the answer checked and stored. The guard lets it pass. */
  lemma StoredTooLate(g: Setting, req: Req) returns (steps: seq<Step>, ws: seq<World>)
    requires CodecOk(g.codec) && g.confirmations == 1 && g.node.view(1, true) != g.node.view(2, true)
    requires req.rpcMethod == "eth_getBlockByNumber"
    requires g.codec.list(req.params) == Some([JString("0x1"), JBool(true)])
    ensures Run(g, steps, ws) && !HitTrue(g, ws[|steps|], req)
    ensures Known(g.codec, ws[|steps|].mem, req) == Some(g.node.view(1, true))
    ensures Answer(g.node, ws[|steps|].chain, ByNumber("0x1", true)) == Some(g.node.view(2, true))
  {
    OneIsDecoded();
    var x := Pending(req, g.node.view(1, true), false);
    steps, ws := LateCheck(g, req, x);
    var w := ws[4];
    OneMoreStep(g, steps, ws, Store(0));
    steps, ws := steps + [Store(0)], ws + [Do(g, w, Store(0))];
    WriteThenKnown(g.codec, w.mem, req, x.v);
    OutdatedIsFalse(g, w, w.pending[0]);
  }
}
