/** What every run of Send guarantees. */
module TxTheorems {
  import opened Common
  import opened FiniteSums
  import opened TxManager
  import opened TxHistory
  import S = SendState

  // ---- the receipt ----

  /** The steps behind a returned receipt. */
  datatype Delivery = Delivery(id: nat, hash: S.Hash, tip: nat, published: nat, queried: nat, measured: nat, put: nat,
                               received: nat)

  /** If Send returns a receipt, then one goroutine published a hash, later queried that hash and found this
      receipt, measured in the same poll a chain tip that passes the confirmation test, and was the first to put a
      receipt on the channel; the event loop received that one, and reports it as reverted exactly if its status
      is failed. */
  lemma ReceiptIsGenuine(cfg: Config, steps: seq<Step>, ms: seq<Machine>) returns (g: Delivery)
    requires Run(cfg, steps, ms) && ms[|steps|].main.Returned? && ms[|steps|].main.result.Got?
    ensures g.published < g.queried < g.measured < g.put < g.received < |steps|
    ensures var r := ms[|steps|].main.result.receipt;
            && By(steps, ms, g.published, g.id, Publishing(g.hash), SendReturns(None))
            && By(steps, ms, g.queried, g.id, Querying(g.hash), QueryFound(r))
            && Quiet(steps, g.queried + 1, g.measured, g.id, true)
            && By(steps, ms, g.measured, g.id, Measuring(g.hash, r), Height(g.tip))
            && Confirmed(cfg, r.blockNumber, g.tip)
            && FirstPut(steps, ms, g.put, g.id, g.hash, r)
            && steps[g.received].Receive?
    ensures ms[|steps|].main.result.reverted <==> ms[|steps|].main.result.receipt.failed
  {
    var n, r := |steps|, ms[|steps|].main.result.receipt;
    ChannelStoryHolds(cfg, steps, ms, n);
    var received: nat :| received < n && TookFirst(steps, ms, received, r);
    var put: nat, id: nat, h :| put < received && FirstPut(steps, ms, put, id, h, r);
    StoriesHold(cfg, steps, ms, put, id);
    var q: nat, c: nat, tip: nat :| c < put && Confirms(cfg, steps, ms, id, h, r, q, c, tip);
    var published: nat :| published < q && By(steps, ms, published, id, Publishing(h), SendReturns(None));
    g := Delivery(id, h, tip, published, q, c, put, received);
  }

  // ---- giving up ----

  /** Without a cancelled caller and a fatal price update, Send gives up only after a goroutine was told to abort,
      at a moment when no hash's latest recorded query was positive and enough nonce-too-low errors had been
      recorded since the mined set last became empty. */
  lemma AbortIsJustified(cfg: Config, steps: seq<Step>, ms: seq<Machine>) returns (i: nat)
    requires Run(cfg, steps, ms) && ms[|steps|].main == Returned(Stopped)
    requires forall s | s in steps :: !s.CallerCancels? && !IsFatal(s)
    ensures i < |steps| && Aborts(cfg, steps, ms, i)
    ensures S.NothingMined(Recorded(steps, ms, i)) && S.ErrorsSinceReset(Recorded(steps, ms, i)) >= cfg.safeAbort
  {
    CancelsAreCaused(cfg, steps, ms, |steps|);
    i :| i < |steps| && (steps[i].CallerCancels? || IsFatal(steps[i]) || Aborts(cfg, steps, ms, i));
    assert steps[i] in steps;
    SendIsReplay(cfg, steps, ms, i);
    S.AbortMeaning(Recorded(steps, ms, i), cfg.safeAbort);
  }

  // ---- launches ----

  /** Every goroutine but the first was launched after a check, with nothing but the addition to the wait group in
      between, that saw no hash whose latest recorded query was positive. */
  lemma LaunchesAreJustified(cfg: Config, steps: seq<Step>, ms: seq<Machine>, j: nat) returns (k: nat)
    requires Run(cfg, steps, ms) && j < |steps| && steps[j].Launch?
    ensures k < j && Permits(steps, ms, k) && OnlyAdds(steps, k + 1, j, true)
    ensures if steps[k].AddFirst? then forall i: nat | i < k :: !IsMain(steps[i])
            else steps[k].Check? && S.NothingMined(Recorded(steps, ms, k))
  {
    assert Goes(cfg, steps, ms, j);
    LaunchStoryHolds(cfg, steps, ms, j);
    k :| k < j && Permits(steps, ms, k) && OnlyAdds(steps, k + 1, j, true);
    assert Goes(cfg, steps, ms, k);
    LaunchStoryHolds(cfg, steps, ms, k);
    SendIsReplay(cfg, steps, ms, k);
    S.ReplayNothingMined(Recorded(steps, ms, k));
  }

  /** Two launches are never backed by the same check. */
  lemma LaunchesHaveTheirOwnChecks(cfg: Config, steps: seq<Step>, ms: seq<Machine>, j: nat, j': nat)
    returns (k: nat, k': nat)
    requires Run(cfg, steps, ms) && j < j' < |steps| && steps[j].Launch? && steps[j'].Launch?
    ensures k < j < k' < j' && Permits(steps, ms, k) && Permits(steps, ms, k') && steps[k'].Check?
  {
    k := LaunchesAreJustified(cfg, steps, ms, j);
    k' := LaunchesAreJustified(cfg, steps, ms, j');
    assert IsMain(steps[j]);
  }

  // ---- the wait group ----

  function Pending(main: Main): nat {
    if main.Launching? then 1 else 0
  }

  /** The wait group counts the live goroutines, plus one between adding and launching. */
  predicate WaitGroupCounts(m: Machine) {
    && m.wg == |m.live| + Pending(m.main)
    && (forall id | id in m.live :: id < m.nextId)
    && (m.main.Returned? ==> m.wg == 0)
  }

  lemma WaitGroupWorker(cfg: Config, m: Machine, id: nat, a: Action)
    requires WaitGroupCounts(m) && id in m.live && CanAct(m.ctxDone, m.live[id], a)
    ensures WaitGroupCounts(DoWorker(cfg, m, id, a))
  {
    var m' := DoWorker(cfg, m, id, a);
    if a.Finish? {
      assert m'.live.Keys == m.live.Keys - {id};
    } else {
      assert m'.live.Keys == m.live.Keys;
    }
  }

  lemma WaitGroupMain(m: Machine, s: Step)
    requires WaitGroupCounts(m) && Enabled(m, s) && !s.Worker?
    ensures WaitGroupCounts(DoMain(m, s))
  {
    if s.Launch? {
      assert m.live[m.nextId := Updating].Keys == m.live.Keys + {m.nextId};
    }
  }

  lemma WaitGroupStepAt(cfg: Config, steps: seq<Step>, ms: seq<Machine>, n: nat)
    requires Run(cfg, steps, ms) && n < |steps| && WaitGroupCounts(ms[n])
    ensures WaitGroupCounts(ms[n + 1])
  {
    assert Goes(cfg, steps, ms, n);
    var m, s := ms[n], steps[n];
    if s.Worker? { WaitGroupWorker(cfg, m, s.id, s.action); } else { WaitGroupMain(m, s); }
  }

  lemma {:induction false} WaitGroupHolds(cfg: Config, steps: seq<Step>, ms: seq<Machine>, n: nat)
    requires Run(cfg, steps, ms) && n <= |steps|
    ensures WaitGroupCounts(ms[n])
  {
    if n > 0 {
      WaitGroupHolds(cfg, steps, ms, n - 1);
      WaitGroupStepAt(cfg, steps, ms, n - 1);
    }
  }

  /** At all times the wait group counts the live goroutines; when Send has returned, none is left. */
  lemma NoGoroutineLeft(cfg: Config, steps: seq<Step>, ms: seq<Machine>, n: nat)
    requires Run(cfg, steps, ms) && n <= |steps|
    ensures ms[n].wg == |ms[n].live| + Pending(ms[n].main)
    ensures ms[n].main.Returned? ==> ms[n].live == map[]
  {
    WaitGroupHolds(cfg, steps, ms, n);
  }

  // ---- Send can always be cancelled ----

  /** Upper bounds on the steps that a participant can take before it has to wait for a timer. */
  function Rank(p: Phase): nat {
    match p
    case Updating => 8
    case Publishing(_) => 7
    case Recording(_, _) => 6
    case Querying(_) => 5
    case Found(_, _) => 4
    case Judging(_) => 3
    case Missing(_) => 3
    case Measuring(_, _) => 3
    case Finishing => 1
    case _ => 2
  }

  function MainRank(main: Main): nat {
    match main
    case Checking => 14
    case Init => 13
    case Adding => 13
    case Launching => 12
    case Looping => 3
    case Canceling(_) => 2
    case Waiting(_) => 1
    case Returned(_) => 0
  }

  function Ranks(live: map<nat, Phase>): map<nat, int> {
    map id | id in live :: Rank(live[id]) as int
  }

  ghost function Potential(m: Machine): int {
    MainRank(m.main) + Total(Ranks(m.live))
  }

  /** A timer fires, or the caller cancels. */
  predicate FromOutside(s: Step) {
    s.Tick? || s.CallerCancels? || (s.Worker? && s.action.Wake?)
  }

  lemma WorkerShrinks(cfg: Config, m: Machine, id: nat, a: Action)
    requires id in m.live && CanAct(m.ctxDone, m.live[id], a)
    ensures var m' := DoWorker(cfg, m, id, a);
            m'.main == m.main && Potential(m') <= Potential(m) + if a.Wake? then 3 else -1
  {
    var p, m' := m.live[id], DoWorker(cfg, m, id, a);
    if a.Finish? {
      TotalTake(Ranks(m.live), id);
      assert Ranks(m'.live) == Ranks(m.live) - {id};
    } else {
      var q := NextPhase(cfg, m, p, a);
      NextRank(cfg, m, p, a);
      TotalInsert(Ranks(m.live), id, Rank(q));
      assert Ranks(m'.live) == Ranks(m.live)[id := Rank(q) as int];
    }
  }

  lemma NextRank(cfg: Config, m: Machine, p: Phase, a: Action)
    requires CanAct(m.ctxDone, p, a) && !a.Finish?
    ensures var q := NextPhase(cfg, m, p, a); if a.Wake? then Rank(q) == Rank(p) + 3 else Rank(q) < Rank(p)
  {
  }

  lemma MainShrinks(m: Machine, s: Step)
    requires Enabled(m, s) && !s.Worker? && m.nextId !in m.live
    ensures Potential(DoMain(m, s)) <= Potential(m) + if s.Tick? then 11 else if s.CallerCancels? then 0 else -1
  {
    if s.Launch? {
      TotalInsert(Ranks(m.live), m.nextId, 8);
      assert Ranks(m.live[m.nextId := Updating]) == Ranks(m.live)[m.nextId := 8];
    }
  }

  function Outsides(steps: seq<Step>, n: nat): nat
    requires n <= |steps|
    decreases |steps| - n
  {
    if n == |steps| then 0 else Outsides(steps, n + 1) + if FromOutside(steps[n]) then 1 else 0
  }

  lemma PotentialStepAt(cfg: Config, steps: seq<Step>, ms: seq<Machine>, n: nat)
    requires Run(cfg, steps, ms) && n < |steps|
    ensures Potential(ms[n + 1]) <= Potential(ms[n]) + if FromOutside(steps[n]) then 11 else -1
  {
    assert Goes(cfg, steps, ms, n);
    NewIdsAreNew(cfg, steps, ms, n);
    var s := steps[n];
    if s.Worker? { WorkerShrinks(cfg, ms[n], s.id, s.action); } else { MainShrinks(ms[n], s); }
  }

  /** Every step but those from outside brings the end closer, so from any state on, any run is no longer than the
      state's potential and twelve steps for each step from outside. */
  lemma {:induction false} RunsAreBounded(cfg: Config, steps: seq<Step>, ms: seq<Machine>, n: nat)
    requires Run(cfg, steps, ms) && n <= |steps|
    ensures |steps| - n <= Potential(ms[n]) + 12 * Outsides(steps, n)
    decreases |steps| - n
  {
    if n == |steps| {
      TotalNonNegative(Ranks(ms[n].live));
    } else {
      RunsAreBounded(cfg, steps, ms, n + 1);
      PotentialStepAt(cfg, steps, ms, n);
    }
  }

  /** A way out from every phase: no goroutine is ever stuck, in particular not on the channel. */
  function WayOut(p: Phase): Action {
    match p
    case Updating => UpdateSoftError
    case Failing => CancelAfterFatal
    case Publishing(_) => SendReturns(Some(SendError(false, true)))
    case Recording(_, _) => Record
    case Judging(_) => Judge
    case Aborting(_) => CancelAfterAbort
    case Querying(_) => QueryError
    case Found(_, _) => MarkMined
    case Measuring(_, _) => HeightError
    case Missing(_) => MarkNotMined
    case Sleeping(_) => SeeCancel
    case Delivering(_, _) => Deliver
    case Finishing => Finish
  }

  function MainWayOut(m: Machine): Step {
    match m.main
    case Init => AddFirst
    case Looping => StopOnCancel
    case Checking => Check
    case Adding => Add
    case Launching => Launch
    case Canceling(_) => Cancel
    case _ => Wait
  }

  /** Once the context is cancelled nothing gets stuck: as long as Send has not returned, some participant can take
      a step that nobody outside has to trigger. So a run that has run out of such steps has returned, with no
      goroutine left. */
  lemma CancelledNeverStuck(cfg: Config, steps: seq<Step>, ms: seq<Machine>)
    requires Run(cfg, steps, ms) && ms[|steps|].ctxDone
    requires forall s :: FromOutside(s) || !Enabled(ms[|steps|], s)
    ensures ms[|steps|].main.Returned? && ms[|steps|].live == map[]
  {
    var m := ms[|steps|];
    WaitGroupHolds(cfg, steps, ms, |steps|);
    if id :| id in m.live {
      var s := Worker(id, WayOut(m.live[id]));
      assert Enabled(m, s) && !FromOutside(s);
      assert false;
    } else if !m.main.Returned? {
      assert m.live == map[];
      assert Enabled(m, MainWayOut(m)) && !FromOutside(MainWayOut(m));
      assert false;
    }
  }

  // ---- the confirmation test ----

  /** The uint64 test says what it should unless exactly one side wraps: a height so large that adding
      the confirmations wraps to a small number, or a tip at the top of the range. */
  lemma ConfirmedIff(cfg: Config, height: nat, tip: nat)
    requires ValidConfig(cfg) && height < U64_MODULUS && tip < U64_MODULUS
    ensures (Confirmed(cfg, height, tip) <==> height + cfg.numConfirmations <= tip + 1) <==>
            !(|| (tip + 1 < U64_MODULUS <= height + cfg.numConfirmations <= tip + 1 + U64_MODULUS)
              || (height + cfg.numConfirmations < U64_MODULUS == tip + 1))
  {
    var h, t := height + cfg.numConfirmations, tip + 1;
    assert h < 2 * U64_MODULUS && t <= U64_MODULUS;
    assert AddU64(height, cfg.numConfirmations) == if h < U64_MODULUS then h else h - U64_MODULUS;
    assert AddU64(tip, 1) == if t < U64_MODULUS then t else 0;
  }

  /** The failing family is not empty. */
  lemma ConfirmedCanWrap()
    ensures var cfg := Config(10, 1);
            Confirmed(cfg, U64_MODULUS - 5, 100) && !(U64_MODULUS - 5 + 10 <= 100 + 1)
  {
    assert (U64_MODULUS + 5) % U64_MODULUS == 5;
  }
}
