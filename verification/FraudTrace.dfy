/**
 The execution trace that a fraud proof walks, and the proof generator's choice of proof for each of its
 states. Hashes, tries and EVM execution are outside the model: a transaction is its list of intra states
 and the gas it used.
 */
module FraudTrace {
  import opened Common

  /** One generated intra state: the gas left at that step. */
  type Intra = nat

  datatype Tx = Tx(gas: nat, intra: seq<Intra>, usedGas: nat)

  datatype Block = Block(gasUsed: nat, txs: seq<Tx>)

  /** The node: blocks by number. */
  type Node = nat -> Option<Block>

  datatype Kind = BlockState | InterState | IntraState

  /** `block` is the number of the block the state refers to. */
  datatype ExecState = ExecState(kind: Kind, block: nat, txIdx: nat, stepIdx: nat, gas: int)

  // ---- the trace as a function ----

  function IntraStates(b: Block, n: nat, i: nat, upTo: nat): seq<ExecState>
    requires i < |b.txs| && upTo <= |b.txs[i].intra|
  {
    seq(upTo, k requires 0 <= k < upTo =>
      ExecState(IntraState, n, i, k + 1, b.gasUsed + (b.txs[i].gas - b.txs[i].intra[k]) % U64_MODULUS))
  }

  /** The states of the first i transactions of block n. */
  function TxStates(b: Block, n: nat, i: nat): seq<ExecState>
    requires i <= |b.txs|
  {
    if i == 0 then []
    else TxStates(b, n, i - 1) + [ExecState(InterState, n, i - 1, 0, b.gasUsed)]
         + IntraStates(b, n, i - 1, |b.txs[i - 1].intra|)
  }

  /** The gas used by the first i transactions. */
  function GasUsed(b: Block, i: nat): nat
    requires i <= |b.txs|
  {
    if i == 0 then 0 else GasUsed(b, i - 1) + b.txs[i - 1].usedGas
  }

  function BlockStates(b: Block, n: nat): seq<ExecState> {
    TxStates(b, n, |b.txs|)
    + [ExecState(InterState, n, |b.txs|, 0, GasUsed(b, |b.txs|))]
    + [ExecState(BlockState, n, 0, 0, 0)]
  }

  predicate HasBlocks(node: Node, lo: nat, hi: nat) {
    forall n | lo <= n < hi :: node(n).Some?
  }

  /** The states from the start up to and including block m - 1. */
  function Prefix(node: Node, start: nat, m: nat): (s: seq<ExecState>)
    requires 1 <= start <= m && HasBlocks(node, start, m)
    ensures s != []
    decreases m
  {
    if m == start then [ExecState(BlockState, start - 1, 0, 0, 0)]
    else Prefix(node, start, m - 1) + BlockStates(node(m - 1).value, m - 1)
  }

  /** Without blocks in between (start >= end) only the two end states are left. */
  function Trace(node: Node, start: nat, end: nat): seq<ExecState>
    requires 1 <= start && 1 <= end && HasBlocks(node, start, end)
  {
    Prefix(node, start, if start <= end then end else start) + [ExecState(BlockState, end - 1, 0, 0, 0)]
  }

  /** The blocks that generating the trace asks the node for. */
  predicate HasTraceBlocks(node: Node, start: nat, end: nat)
    requires 1 <= start && 1 <= end
  {
    && node(start - 1).Some? && node(start).Some?
    && HasBlocks(node, start, end)
    && node(end - 1).Some? && node(end).Some?
  }

  // ---- generating it ----

  method AppendIntra(b: Block, n: nat, i: nat, states: seq<ExecState>) returns (out: seq<ExecState>)
    requires i < |b.txs|
    ensures out == states + IntraStates(b, n, i, |b.txs[i].intra|)
  {
    out := states;
    for k := 0 to |b.txs[i].intra|
      invariant out == states + IntraStates(b, n, i, k)
    {
      var gas := b.gasUsed + (b.txs[i].gas - b.txs[i].intra[k]) % U64_MODULUS;
      assert IntraStates(b, n, i, k + 1) == IntraStates(b, n, i, k) + [ExecState(IntraState, n, i, k + 1, gas)];
      out := out + [ExecState(IntraState, n, i, k + 1, gas)];
    }
  }

  method AppendBlock(b: Block, n: nat, states: seq<ExecState>) returns (out: seq<ExecState>)
    ensures out == states + BlockStates(b, n)
  {
    out := states;
    var localBlockGasUsed := 0;
    for i := 0 to |b.txs|
      invariant out == states + TxStates(b, n, i)
      invariant localBlockGasUsed == GasUsed(b, i)
    {
      out := out + [ExecState(InterState, n, i, 0, b.gasUsed)];
      out := AppendIntra(b, n, i, out);
      localBlockGasUsed := localBlockGasUsed + b.txs[i].usedGas;
    }
    out := out + [ExecState(InterState, n, |b.txs|, 0, localBlockGasUsed)];
    out := out + [ExecState(BlockState, n, 0, 0, 0)];
  }

  /** Generates the trace over [startNum, endNum); fails if a block it needs is missing. */
  method GenerateStates(node: Node, startNum: nat, endNum: nat) returns (r: Option<seq<ExecState>>)
    requires 1 <= startNum && 1 <= endNum
    ensures r.Some? <==> HasTraceBlocks(node, startNum, endNum)
    ensures r.Some? ==> r.value == Trace(node, startNum, endNum)
  {
    if node(startNum - 1).None? || node(startNum).None? { return None; }
    var states := [ExecState(BlockState, startNum - 1, 0, 0, 0)];
    var num := startNum;
    while num < endNum
      invariant startNum <= num <= (if startNum <= endNum then endNum else startNum)
      invariant HasBlocks(node, startNum, num)
      invariant states == Prefix(node, startNum, num)
    {
      if node(num).None? { return None; }
      states := AppendBlock(node(num).value, num, states);
      num := num + 1;
    }
    if node(endNum - 1).None? || node(endNum).None? { return None; }
    return Some(states + [ExecState(BlockState, endNum - 1, 0, 0, 0)]);
  }

  // ---- its shape ----

  /** The documented one-step transitions, with the indices they are about. */
  datatype Transition =
    | BlockInitiation | TxInitiation | EoaTransfer | EvmStep | TxFinalization | BlockFinalization

  predicate Is(node: Node, t: Transition, s: ExecState, u: ExecState) {
    match t
    case BlockInitiation =>
      s.kind.BlockState? && u.kind.InterState? && u.block == s.block + 1 && u.txIdx == 0
    case TxInitiation =>
      && s.kind.InterState? && u.kind.IntraState? && u.block == s.block && InBlock(node, s)
      && u.txIdx == s.txIdx && u.stepIdx == 1
    case EoaTransfer =>
      && s.kind.InterState? && u.kind.InterState? && u.block == s.block && InBlock(node, s)
      && u.txIdx == s.txIdx + 1 && node(s.block).value.txs[s.txIdx].intra == []
    case EvmStep =>
      && s.kind.IntraState? && u.kind.IntraState? && u.block == s.block && InBlock(node, s)
      && u.txIdx == s.txIdx && u.stepIdx == s.stepIdx + 1
    case TxFinalization =>
      && s.kind.IntraState? && u.kind.InterState? && u.block == s.block && InBlock(node, s)
      && u.txIdx == s.txIdx + 1 && s.stepIdx == |node(s.block).value.txs[s.txIdx].intra|
    case BlockFinalization =>
      && s.kind.InterState? && u.kind.BlockState? && u.block == s.block
      && node(s.block).Some? && s.txIdx == |node(s.block).value.txs|
  }

  /** The state is about a transaction that exists. */
  predicate InBlock(node: Node, s: ExecState) {
    node(s.block).Some? && s.txIdx < |node(s.block).value.txs|
  }

  predicate Documented(node: Node, s: ExecState, u: ExecState) {
    exists t :: Is(node, t, s, u)
  }

  predicate Linked(node: Node, s: seq<ExecState>) {
    forall i | 0 <= i < |s| - 1 :: Documented(node, s[i], s[i + 1])
  }

  lemma LinkedConcat(node: Node, a: seq<ExecState>, b: seq<ExecState>)
    requires Linked(node, a) && Linked(node, b)
    requires a != [] && b != [] ==> Documented(node, a[|a| - 1], b[0])
    ensures Linked(node, a + b)
  {
    var s := a + b;
    forall i | 0 <= i < |s| - 1 ensures Documented(node, s[i], s[i + 1]) {
      if i + 1 < |a| {
        assert s[i] == a[i] && s[i + 1] == a[i + 1];
      } else if i >= |a| {
        assert s[i] == b[i - |a|] && s[i + 1] == b[i - |a| + 1];
      }
    }
  }

  lemma LinkedFront(node: Node, a: seq<ExecState>, b: seq<ExecState>)
    requires Linked(node, a + b)
    ensures Linked(node, a)
  {
    forall i | 0 <= i < |a| - 1 ensures Documented(node, a[i], a[i + 1]) {
      assert a[i] == (a + b)[i] && a[i + 1] == (a + b)[i + 1];
    }
  }

  /** Transaction i: its inter state, its intra states, and the step to the inter state after it. */
  lemma TxLinked(node: Node, n: nat, i: nat, next: ExecState)
    requires node(n).Some? && i < |node(n).value.txs|
    requires next.kind.InterState? && next.block == n && next.txIdx == i + 1
    ensures var b := node(n).value;
            Linked(node, [ExecState(InterState, n, i, 0, b.gasUsed)] + IntraStates(b, n, i, |b.txs[i].intra|) + [next])
  {
    var b := node(n).value;
    var inter, intra := ExecState(InterState, n, i, 0, b.gasUsed), IntraStates(b, n, i, |b.txs[i].intra|);
    var s := [inter] + intra + [next];
    forall k | 0 <= k < |s| - 1 ensures Documented(node, s[k], s[k + 1]) {
      if k == 0 {
        if intra == [] {
          assert Is(node, EoaTransfer, s[k], s[k + 1]);
        } else {
          assert Is(node, TxInitiation, s[k], s[k + 1]);
        }
      } else {
        assert s[k] == intra[k - 1];
        if k < |intra| {
          assert s[k + 1] == intra[k];
          assert Is(node, EvmStep, s[k], s[k + 1]);
        } else {
          assert Is(node, TxFinalization, s[k], s[k + 1]);
        }
      }
    }
  }

  /** The transactions before the i-th, followed by any inter state of the i-th. */
  lemma {:induction false} TxsLinked(node: Node, n: nat, i: nat, next: ExecState)
    requires node(n).Some? && i <= |node(n).value.txs|
    requires next.kind.InterState? && next.block == n && next.txIdx == i
    ensures Linked(node, TxStates(node(n).value, n, i) + [next])
    ensures var first := (TxStates(node(n).value, n, i) + [next])[0];
            first.kind.InterState? && first.block == n && first.txIdx == 0
  {
    if i > 0 {
      var b := node(n).value;
      var inter, intra := ExecState(InterState, n, i - 1, 0, b.gasUsed), IntraStates(b, n, i - 1, |b.txs[i - 1].intra|);
      var before := TxStates(b, n, i - 1);
      TxsLinked(node, n, i - 1, inter);
      TxLinked(node, n, i - 1, next);
      var tail := [inter] + intra + [next];
      assert TxStates(b, n, i) + [next] == before + tail;
      LinkedFront(node, before, [inter]);
      if before != [] {
        var k := |before| - 1;
        assert (before + [inter])[k] == before[k] && (before + [inter])[k + 1] == inter == tail[0];
        assert Documented(node, before[k], tail[0]);
      }
      LinkedConcat(node, before, tail);
      assert (before + tail)[0] == (before + [inter])[0];
    }
  }

  lemma BlockLinked(node: Node, n: nat)
    requires node(n).Some?
    ensures Linked(node, BlockStates(node(n).value, n))
    ensures var s := BlockStates(node(n).value, n);
            && s[0].kind.InterState? && s[0].block == n && s[0].txIdx == 0
            && s[|s| - 1] == ExecState(BlockState, n, 0, 0, 0)
  {
    var b := node(n).value;
    var inter := ExecState(InterState, n, |b.txs|, 0, GasUsed(b, |b.txs|));
    var end := ExecState(BlockState, n, 0, 0, 0);
    TxsLinked(node, n, |b.txs|, inter);
    assert Is(node, BlockFinalization, inter, end);
    LinkedConcat(node, TxStates(b, n, |b.txs|) + [inter], [end]);
  }

  lemma {:induction false} PrefixLinked(node: Node, start: nat, m: nat)
    requires 1 <= start <= m && HasBlocks(node, start, m)
    ensures Linked(node, Prefix(node, start, m))
    ensures var s := Prefix(node, start, m); s[|s| - 1] == ExecState(BlockState, m - 1, 0, 0, 0)
  {
    if m > start {
      var before, block := Prefix(node, start, m - 1), BlockStates(node(m - 1).value, m - 1);
      PrefixLinked(node, start, m - 1);
      BlockLinked(node, m - 1);
      assert Is(node, BlockInitiation, before[|before| - 1], block[0]);
      LinkedConcat(node, before, block);
    }
  }

  /** Every adjacent pair of the trace but the last is a documented transition, and the last pair is none. */
  lemma TraceIsDocumented(node: Node, start: nat, end: nat)
    requires 1 <= start <= end && HasBlocks(node, start, end)
    ensures var s := Trace(node, start, end);
            && |s| >= 2
            && (forall i | 0 <= i < |s| - 1 :: Documented(node, s[i], s[i + 1]) <==> i < |s| - 2)
  {
    PrefixLinked(node, start, end);
    var p, s := Prefix(node, start, end), Trace(node, start, end);
    forall i | 0 <= i < |s| - 1 ensures Documented(node, s[i], s[i + 1]) <==> i < |s| - 2 {
      if i < |s| - 2 {
        assert s[i] == p[i] && s[i + 1] == p[i + 1];
      } else {
        assert s[i].kind.BlockState? && s[i + 1].kind.BlockState?;
      }
    }
  }

  // ---- the length ----

  function TxCount(b: Block, i: nat): nat
    requires i <= |b.txs|
  {
    if i == 0 then 0 else TxCount(b, i - 1) + 1 + |b.txs[i - 1].intra|
  }

  function BlockCount(node: Node, start: nat, m: nat): nat
    requires start <= m && HasBlocks(node, start, m)
    decreases m
  {
    if m == start then 0
    else BlockCount(node, start, m - 1) + 2 + TxCount(node(m - 1).value, |node(m - 1).value.txs|)
  }

  lemma {:induction false} TxStatesLength(b: Block, n: nat, i: nat)
    requires i <= |b.txs|
    ensures |TxStates(b, n, i)| == TxCount(b, i)
  {
    if i > 0 { TxStatesLength(b, n, i - 1); }
  }

  lemma {:induction false} PrefixLength(node: Node, start: nat, m: nat)
    requires 1 <= start <= m && HasBlocks(node, start, m)
    ensures |Prefix(node, start, m)| == 1 + BlockCount(node, start, m)
  {
    if m > start {
      PrefixLength(node, start, m - 1);
      TxStatesLength(node(m - 1).value, m - 1, |node(m - 1).value.txs|);
    }
  }

  /** Two states, plus two per block, plus one per transaction and one per intra state. */
  lemma TraceLength(node: Node, start: nat, end: nat)
    requires 1 <= start <= end && HasBlocks(node, start, end)
    ensures |Trace(node, start, end)| == 2 + BlockCount(node, start, end)
  {
    PrefixLength(node, start, end);
  }

  // ---- the proof generator's dispatch ----

  datatype Proof =
    | BadStartState
    | ProveBlockInitiation       // type 1
    | ProveBlockFinalization     // type 6
    | ProveTxInitiation(txIdx: nat)     // types 2 and 3
    | ProveTracedStep(txIdx: nat)       // types 4 and 5

  function GenerateProof(node: Node, s: ExecState): Proof {
    if node(s.block).None? then BadStartState
    else
      var txs := node(s.block).value.txs;
      if s.txIdx > |txs| then BadStartState
      else if s.kind.BlockState? then ProveBlockInitiation
      else if s.kind.InterState? && s.txIdx == |txs| then ProveBlockFinalization
      else if s.kind.InterState? then ProveTxInitiation(s.txIdx)
      else ProveTracedStep(s.txIdx)
  }

  /** The branch that belongs to a transition; traced branches index an existing transaction. */
  predicate Matches(node: Node, t: Transition, s: ExecState, p: Proof) {
    match t
    case BlockInitiation => p == ProveBlockInitiation
    case TxInitiation => p == ProveTxInitiation(s.txIdx) && InBlock(node, s)
    case EoaTransfer => p == ProveTxInitiation(s.txIdx) && InBlock(node, s)
    case EvmStep => p == ProveTracedStep(s.txIdx) && InBlock(node, s)
    case TxFinalization => p == ProveTracedStep(s.txIdx) && InBlock(node, s)
    case BlockFinalization => p == ProveBlockFinalization
  }

  /** For a documented transition the generator takes the matching branch. */
  lemma DispatchMatches(node: Node, t: Transition, s: ExecState, u: ExecState)
    requires node(s.block).Some? && Is(node, t, s, u) && (s.kind.BlockState? ==> s.txIdx == 0)
    ensures Matches(node, t, s, GenerateProof(node, s))
  {
  }

  predicate InRange(node: Node, s: ExecState) {
    node(s.block).Some? && (s.kind.BlockState? ==> s.txIdx == 0)
  }

  lemma {:induction false} PrefixInRange(node: Node, start: nat, m: nat)
    requires 1 <= start <= m && node(start - 1).Some? && HasBlocks(node, start, m)
    ensures forall s | s in Prefix(node, start, m) :: InRange(node, s)
  {
    if m > start {
      PrefixInRange(node, start, m - 1);
      BlockInRange(node, m - 1);
    }
  }

  lemma BlockInRange(node: Node, n: nat)
    requires node(n).Some?
    ensures forall s | s in BlockStates(node(n).value, n) :: InRange(node, s)
  {
    TxsInRange(node(n).value, n, |node(n).value.txs|);
  }

  lemma {:induction false} TxsInRange(b: Block, n: nat, i: nat)
    requires i <= |b.txs|
    ensures forall s | s in TxStates(b, n, i) :: s.block == n && !s.kind.BlockState?
  {
    if i > 0 { TxsInRange(b, n, i - 1); }
  }

  /** For every state of a generated trace but the last two, the proof generator takes the branch of the
      transition that the trace makes there. */
  lemma TraceIsProvable(node: Node, start: nat, end: nat, i: nat)
    requires 1 <= start <= end && HasTraceBlocks(node, start, end) && i < |Trace(node, start, end)| - 2
    ensures var s := Trace(node, start, end);
            exists t :: Is(node, t, s[i], s[i + 1]) && Matches(node, t, s[i], GenerateProof(node, s[i]))
  {
    var s := Trace(node, start, end);
    TraceIsDocumented(node, start, end);
    var t :| Is(node, t, s[i], s[i + 1]);
    PrefixInRange(node, start, end);
    assert s[i] == Prefix(node, start, end)[i];
    assert InRange(node, s[i]);
    DispatchMatches(node, t, s[i], s[i + 1]);
  }
}
