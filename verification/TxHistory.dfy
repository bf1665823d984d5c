/** What the steps of a run of Send say about its states: every fact is traced back to the steps it comes from. */
module TxHistory {
  import opened Common
  import opened TxManager
  import S = SendState

  /** Step i is this action by this goroutine in this phase. */
  predicate By(steps: seq<Step>, ms: seq<Machine>, i: nat, id: nat, p: Phase, a: Action)
    requires |ms| == |steps| + 1
  {
    i < |steps| && steps[i] == Worker(id, a) && id in ms[i].live && ms[i].live[id] == p
  }

  /** Between the steps lo and hi the goroutine did nothing, or nothing but record that a receipt was found. */
  predicate Quiet(steps: seq<Step>, lo: nat, hi: nat, id: nat, mayMark: bool) {
    forall i | lo <= i < hi && i < |steps| && steps[i].Worker? && steps[i].id == id ::
      mayMark && steps[i].action.MarkMined?
  }

  // ---- the shared state is the replay of what was recorded ----

  /** What the step records in the shared state. */
  function EventOf(m: Machine, s: Step): seq<S.Event> {
    if !s.Worker? || s.id !in m.live then []
    else
      match (s.action, m.live[s.id])
      case (Record, Recording(_, Some(err))) => if err.nonceTooLow then [S.NonceTooLow] else []
      case (MarkMined, Found(h, _)) => [S.Mined(h)]
      case (MarkNotMined, Missing(h)) => [S.NotMined(h)]
      case _ => []
  }

  /** What the first n steps recorded. */
  function Recorded(steps: seq<Step>, ms: seq<Machine>, n: nat): seq<S.Event>
    requires |ms| == |steps| + 1 && n <= |steps|
  {
    if n == 0 then [] else Recorded(steps, ms, n - 1) + EventOf(ms[n - 1], steps[n - 1])
  }

  lemma SendStep(cfg: Config, m: Machine, s: Step)
    requires Enabled(m, s)
    ensures var m' := Do(cfg, m, s);
            var e := EventOf(m, s);
            m'.send == if e == [] then m.send else S.Apply(m.send, e[0])
  {
  }

  predicate IsReplay(send: S.State, log: seq<S.Event>) {
    send == S.Replay(log)
  }

  /** Recording keeps the shared state the replay of what has been recorded. */
  lemma ReplayStepAt(cfg: Config, steps: seq<Step>, ms: seq<Machine>, n: nat, log: seq<S.Event>)
    requires Run(cfg, steps, ms) && n < |steps| && IsReplay(ms[n].send, log)
    ensures IsReplay(ms[n + 1].send, log + EventOf(ms[n], steps[n]))
  {
    assert Goes(cfg, steps, ms, n);
    SendStep(cfg, ms[n], steps[n]);
    var e := EventOf(ms[n], steps[n]);
    if e == [] {
      assert log + e == log;
    } else {
      assert e == [e[0]];
      S.ReplayStep(log, e[0]);
    }
  }

  /** At every moment the shared state is the replay of what has been recorded. */
  lemma {:induction false} SendIsReplay(cfg: Config, steps: seq<Step>, ms: seq<Machine>, n: nat)
    requires Run(cfg, steps, ms) && n <= |steps|
    ensures IsReplay(ms[n].send, Recorded(steps, ms, n))
  {
    if n > 0 {
      SendIsReplay(cfg, steps, ms, n - 1);
      ReplayStepAt(cfg, steps, ms, n - 1, Recorded(steps, ms, n - 1));
    }
  }

  // ---- what a goroutine holds ----

  /** The goroutine published this hash. */
  predicate Published(steps: seq<Step>, ms: seq<Machine>, n: nat, id: nat, h: S.Hash)
    requires |ms| == |steps| + 1
  {
    exists i: nat | i < n :: By(steps, ms, i, id, Publishing(h), SendReturns(None))
  }

  /** The goroutine's latest query, at step q, found this receipt, and all it has done since is to record that. */
  predicate HasFound(steps: seq<Step>, ms: seq<Machine>, n: nat, id: nat, h: S.Hash, r: Receipt, q: nat, marked: bool)
    requires |ms| == |steps| + 1
  {
    && q < n && By(steps, ms, q, id, Querying(h), QueryFound(r)) && Quiet(steps, q + 1, n, id, marked)
    && Published(steps, ms, q, id, h)
  }

  /** In one poll the goroutine found this receipt at step q and measured a sufficient chain tip at step c. */
  predicate Confirms(cfg: Config, steps: seq<Step>, ms: seq<Machine>, id: nat, h: S.Hash, r: Receipt,
                     q: nat, c: nat, tip: nat)
    requires |ms| == |steps| + 1
  {
    && HasFound(steps, ms, c, id, h, r, q, true)
    && By(steps, ms, c, id, Measuring(h, r), Height(tip)) && Confirmed(cfg, r.blockNumber, tip)
  }

  /** How a goroutine came to be where it is. */
  ghost predicate Story(cfg: Config, steps: seq<Step>, ms: seq<Machine>, n: nat, id: nat, p: Phase)
    requires |ms| == |steps| + 1
  {
    match p
    case Recording(h, err) => err.None? ==> Published(steps, ms, n, id, h)
    case Querying(h) => Published(steps, ms, n, id, h)
    case Missing(h) =>
      Published(steps, ms, n, id, h) && exists q: nat | q < n :: By(steps, ms, q, id, Querying(h), QueryMissing)
    case Sleeping(h) => Published(steps, ms, n, id, h)
    case Found(h, r) => Published(steps, ms, n, id, h) && exists q: nat :: HasFound(steps, ms, n, id, h, r, q, false)
    case Measuring(h, r) => Published(steps, ms, n, id, h) && exists q: nat :: HasFound(steps, ms, n, id, h, r, q, true)
    case Delivering(h, r) => exists q: nat, c: nat, tip: nat :: c < n && Confirms(cfg, steps, ms, id, h, r, q, c, tip)
    case _ => true
  }

  lemma PublishedLater(steps: seq<Step>, ms: seq<Machine>, n: nat, n': nat, id: nat, h: S.Hash)
    requires |ms| == |steps| + 1 && n <= n' && Published(steps, ms, n, id, h)
    ensures Published(steps, ms, n', id, h)
  {
    var i: nat :| i < n && By(steps, ms, i, id, Publishing(h), SendReturns(None));
  }

  /** A step by somebody else changes nothing about the story. */
  lemma StoryContinues(cfg: Config, steps: seq<Step>, ms: seq<Machine>, n: nat, id: nat, p: Phase)
    requires |ms| == |steps| + 1 && n < |steps| && Story(cfg, steps, ms, n, id, p)
    requires !(steps[n].Worker? && steps[n].id == id)
    ensures Story(cfg, steps, ms, n + 1, id, p)
  {
    match p
    case Recording(h, err) => if err.None? { PublishedLater(steps, ms, n, n + 1, id, h); }
    case Querying(h) => PublishedLater(steps, ms, n, n + 1, id, h);
    case Missing(h) =>
      PublishedLater(steps, ms, n, n + 1, id, h);
      var q: nat :| q < n && By(steps, ms, q, id, Querying(h), QueryMissing);
    case Sleeping(h) => PublishedLater(steps, ms, n, n + 1, id, h);
    case Found(h, r) =>
      PublishedLater(steps, ms, n, n + 1, id, h);
      var q: nat :| HasFound(steps, ms, n, id, h, r, q, false);
      assert HasFound(steps, ms, n + 1, id, h, r, q, false);
    case Measuring(h, r) =>
      PublishedLater(steps, ms, n, n + 1, id, h);
      var q: nat :| HasFound(steps, ms, n, id, h, r, q, true);
      assert HasFound(steps, ms, n + 1, id, h, r, q, true);
    case Delivering(h, r) =>
      var q: nat, c: nat, tip: nat :| c < n && Confirms(cfg, steps, ms, id, h, r, q, c, tip);
    case _ =>
  }

  /** A step from one phase of the polling loop to another, with nothing to remember. */
  lemma StoryOfPublished(cfg: Config, steps: seq<Step>, ms: seq<Machine>, n: nat, id: nat, p: Phase, q: Phase)
    requires |ms| == |steps| + 1 && n < |steps| && Story(cfg, steps, ms, n, id, p)
    requires p.Querying? || p.Found? || p.Missing? || p.Measuring? || p.Sleeping? || (p.Recording? && p.err.None?)
    requires (q.Querying? || q.Sleeping?) && q.hash == p.hash
    ensures Story(cfg, steps, ms, n + 1, id, q)
  {
    PublishedLater(steps, ms, n, n + 1, id, p.hash);
  }

  /** The query at step n found a receipt, or none. */
  lemma StoryOfQuery(cfg: Config, steps: seq<Step>, ms: seq<Machine>, n: nat, id: nat, h: S.Hash, a: Action)
    requires |ms| == |steps| + 1 && By(steps, ms, n, id, Querying(h), a) && Published(steps, ms, n, id, h)
    ensures a.QueryFound? ==> Story(cfg, steps, ms, n + 1, id, Found(h, a.receipt))
    ensures a.QueryMissing? ==> Story(cfg, steps, ms, n + 1, id, Missing(h))
  {
    PublishedLater(steps, ms, n, n + 1, id, h);
    if a.QueryFound? { assert HasFound(steps, ms, n + 1, id, h, a.receipt, n, false); }
  }

  lemma StoryOfMark(cfg: Config, steps: seq<Step>, ms: seq<Machine>, n: nat, id: nat, h: S.Hash, r: Receipt)
    requires |ms| == |steps| + 1 && By(steps, ms, n, id, Found(h, r), MarkMined)
    requires Story(cfg, steps, ms, n, id, Found(h, r))
    ensures Story(cfg, steps, ms, n + 1, id, Measuring(h, r))
  {
    PublishedLater(steps, ms, n, n + 1, id, h);
    var q: nat :| HasFound(steps, ms, n, id, h, r, q, false);
    assert HasFound(steps, ms, n + 1, id, h, r, q, true);
  }

  lemma StoryOfHeight(cfg: Config, steps: seq<Step>, ms: seq<Machine>, n: nat, id: nat, h: S.Hash, r: Receipt, tip: nat)
    requires |ms| == |steps| + 1 && By(steps, ms, n, id, Measuring(h, r), Height(tip))
    requires Story(cfg, steps, ms, n, id, Measuring(h, r)) && Confirmed(cfg, r.blockNumber, tip)
    ensures Story(cfg, steps, ms, n + 1, id, Delivering(h, r))
  {
    var q: nat :| HasFound(steps, ms, n, id, h, r, q, true);
    assert Confirms(cfg, steps, ms, id, h, r, q, n, tip);
  }

  /** The goroutine's own step carries its story on. */
  lemma StoryStep(cfg: Config, steps: seq<Step>, ms: seq<Machine>, n: nat, id: nat, p: Phase, a: Action)
    requires |ms| == |steps| + 1 && By(steps, ms, n, id, p, a) && CanAct(ms[n].ctxDone, p, a)
    requires Story(cfg, steps, ms, n, id, p)
    ensures Story(cfg, steps, ms, n + 1, id, NextPhase(cfg, ms[n], p, a))
  {
    var q := NextPhase(cfg, ms[n], p, a);
    if q.Querying? || q.Sleeping? {
      StoryOfPublished(cfg, steps, ms, n, id, p, q);
    } else if a.QueryFound? || a.QueryMissing? {
      StoryOfQuery(cfg, steps, ms, n, id, p.hash, a);
    } else if a.MarkMined? {
      StoryOfMark(cfg, steps, ms, n, id, p.hash, p.receipt);
    } else if a.Height? {
      StoryOfHeight(cfg, steps, ms, n, id, p.hash, p.receipt, a.tip);
    } else if a.SendReturns? {
      assert By(steps, ms, n, id, Publishing(p.hash), a);
    }
  }

  /** How a step changes who is live, and where. */
  lemma LiveStep(cfg: Config, m: Machine, s: Step, id: nat)
    requires Enabled(m, s) && id in Do(cfg, m, s).live
    ensures var m' := Do(cfg, m, s);
            if s.Worker? && s.id == id then
              id in m.live && !s.action.Finish? && m'.live[id] == NextPhase(cfg, m, m.live[id], s.action)
            else if s.Launch? && id == m.nextId then m'.live[id] == Updating
            else id in m.live && m'.live[id] == m.live[id]
  {
  }

  lemma {:induction false} NewIdsAreNew(cfg: Config, steps: seq<Step>, ms: seq<Machine>, n: nat)
    requires Run(cfg, steps, ms) && n <= |steps|
    ensures forall id | id in ms[n].live :: id < ms[n].nextId
  {
    if n > 0 {
      NewIdsAreNew(cfg, steps, ms, n - 1);
      assert Goes(cfg, steps, ms, n - 1);
    }
  }

  /** Step n as far as this goroutine is concerned. */
  lemma LiveStepAt(cfg: Config, steps: seq<Step>, ms: seq<Machine>, n: nat, id: nat)
    requires Run(cfg, steps, ms) && n < |steps| && id in ms[n + 1].live
    ensures var m, m', s := ms[n], ms[n + 1], steps[n];
            if s.Worker? && s.id == id then
              && id in m.live && By(steps, ms, n, id, m.live[id], s.action) && CanAct(m.ctxDone, m.live[id], s.action)
              && m'.live[id] == NextPhase(cfg, m, m.live[id], s.action)
            else if s.Launch? && id == m.nextId then m'.live[id] == Updating
            else id in m.live && m'.live[id] == m.live[id]
  {
    assert Goes(cfg, steps, ms, n);
    LiveStep(cfg, ms[n], steps[n], id);
  }

  lemma {:induction false} StoriesHold(cfg: Config, steps: seq<Step>, ms: seq<Machine>, n: nat, id: nat)
    requires Run(cfg, steps, ms) && n <= |steps| && id in ms[n].live
    ensures Story(cfg, steps, ms, n, id, ms[n].live[id])
  {
    if n > 0 {
      var m, s := ms[n - 1], steps[n - 1];
      LiveStepAt(cfg, steps, ms, n - 1, id);
      if s.Worker? && s.id == id {
        StoriesHold(cfg, steps, ms, n - 1, id);
        StoryStep(cfg, steps, ms, n - 1, id, m.live[id], s.action);
      } else if !(s.Launch? && id == m.nextId) {
        StoriesHold(cfg, steps, ms, n - 1, id);
        StoryContinues(cfg, steps, ms, n - 1, id, m.live[id]);
      }
    }
  }

  // ---- whose hash it is ----

  function HashOf(p: Phase): Option<S.Hash> {
    if p.Updating? || p.Failing? || p.Finishing? then None else Some(p.hash)
  }

  /** A goroutine works on the hash that its own price update returned. */
  lemma {:induction false} HashIsOwn(cfg: Config, steps: seq<Step>, ms: seq<Machine>, n: nat, id: nat) returns (u: nat)
    requires Run(cfg, steps, ms) && n <= |steps| && id in ms[n].live && HashOf(ms[n].live[id]).Some?
    ensures u < n && steps[u] == Worker(id, UpdateOk(HashOf(ms[n].live[id]).value))
  {
    var s := steps[n - 1];
    LiveStepAt(cfg, steps, ms, n - 1, id);
    if s.Worker? && s.id == id && s.action.UpdateOk? {
      u := n - 1;
    } else {
      u := HashIsOwn(cfg, steps, ms, n - 1, id);
    }
  }

  // ---- the channel ----

  /** Step i puts a receipt on the channel. */
  predicate Puts(steps: seq<Step>, ms: seq<Machine>, i: nat)
    requires |ms| == |steps| + 1 && i < |steps|
  {
    steps[i].Worker? && steps[i].action.Deliver? && ms[i].chan.None?
  }

  predicate NoPuts(steps: seq<Step>, ms: seq<Machine>, n: nat)
    requires |ms| == |steps| + 1 && n <= |steps|
  {
    forall i: nat | i < n :: !Puts(steps, ms, i)
  }

  /** Step i is the first to put a receipt on the channel: this one, by this goroutine, for this hash. */
  predicate FirstPut(steps: seq<Step>, ms: seq<Machine>, i: nat, id: nat, h: S.Hash, r: Receipt)
    requires |ms| == |steps| + 1
  {
    By(steps, ms, i, id, Delivering(h, r), Deliver) && Puts(steps, ms, i) && NoPuts(steps, ms, i)
  }

  /** The event loop has not decided to return yet. */
  predicate Undecided(main: Main) {
    !main.Canceling? && !main.Waiting? && !main.Returned?
  }

  /** Before the event loop decides, the channel holds exactly the first receipt put on it; if it decided for a
      receipt, it received that one. */
  ghost predicate ChannelStory(steps: seq<Step>, ms: seq<Machine>, n: nat)
    requires |ms| == |steps| + 1 && n <= |steps|
  {
    if Undecided(ms[n].main) then
      if ms[n].chan.None? then NoPuts(steps, ms, n)
      else exists i: nat, id: nat, h :: i < n && FirstPut(steps, ms, i, id, h, ms[n].chan.value)
    else ms[n].main.result.Got? ==> Received(steps, ms, n, ms[n].main.result)
  }

  ghost predicate Received(steps: seq<Step>, ms: seq<Machine>, n: nat, res: Result)
    requires |ms| == |steps| + 1 && n <= |steps| && res.Got?
  {
    && res.reverted == res.receipt.failed
    && exists e: nat | e < n :: TookFirst(steps, ms, e, res.receipt)
  }

  /** Step e receives the receipt that was put first. */
  ghost predicate TookFirst(steps: seq<Step>, ms: seq<Machine>, e: nat, r: Receipt)
    requires |ms| == |steps| + 1
  {
    && e < |steps| && steps[e].Receive?
    && exists i: nat, id: nat, h :: i < e && FirstPut(steps, ms, i, id, h, r)
  }

  /** How a step changes what the channel story is about. */
  predicate ChannelMoves(m: Machine, s: Step, m': Machine) {
    && (s.Worker? ==> m'.main == m.main)
    && (s.Worker? && s.action.Deliver? ==> s.id in m.live && m.live[s.id].Delivering?)
    && (!s.Receive? ==>
          m'.chan == if m.chan.None? && s.Worker? && s.action.Deliver? then Some(m.live[s.id].receipt) else m.chan)
    && (s.Receive? ==> m.main.Looping? && m.chan.Some? && m'.main == Canceling(Got(m.chan.value, m.chan.value.failed)))
    && (!s.Receive? && Undecided(m.main) && !Undecided(m'.main) ==> m'.main.result.Stopped?)
    && (!Undecided(m.main) ==> !Undecided(m'.main) && m'.main.result == m.main.result)
  }

  lemma ChannelStep(cfg: Config, m: Machine, s: Step)
    requires Enabled(m, s)
    ensures ChannelMoves(m, s, Do(cfg, m, s))
  {
  }

  lemma ChannelStepAt(cfg: Config, steps: seq<Step>, ms: seq<Machine>, n: nat)
    requires Run(cfg, steps, ms) && n < |steps|
    ensures ChannelMoves(ms[n], steps[n], ms[n + 1])
  {
    assert Goes(cfg, steps, ms, n);
    ChannelStep(cfg, ms[n], steps[n]);
  }

  lemma {:induction false} ChannelStoryHolds(cfg: Config, steps: seq<Step>, ms: seq<Machine>, n: nat)
    requires Run(cfg, steps, ms) && n <= |steps|
    ensures ChannelStory(steps, ms, n)
  {
    if n > 0 {
      ChannelStoryHolds(cfg, steps, ms, n - 1);
      ChannelStepAt(cfg, steps, ms, n - 1);
      ChannelStoryStep(steps, ms, n - 1);
    }
  }

  lemma ChannelStoryStep(steps: seq<Step>, ms: seq<Machine>, n: nat)
    requires |ms| == |steps| + 1 && n < |steps|
    requires ChannelStory(steps, ms, n) && ChannelMoves(ms[n], steps[n], ms[n + 1])
    ensures ChannelStory(steps, ms, n + 1)
  {
    var m, m', s := ms[n], ms[n + 1], steps[n];
    if !Undecided(m.main) {
      if m.main.result.Got? {
        var e: nat :| e < n && TookFirst(steps, ms, e, m.main.result.receipt);
      }
    } else if s.Receive? {
      var i: nat, id: nat, h :| i < n && FirstPut(steps, ms, i, id, h, m.chan.value);
      assert TookFirst(steps, ms, n, m.chan.value);
    } else if Undecided(m'.main) {
      if m.chan.Some? {
        var i: nat, id: nat, h :| i < n && FirstPut(steps, ms, i, id, h, m.chan.value);
      } else if m'.chan.Some? {
        var p := m.live[s.id];
        assert FirstPut(steps, ms, n, s.id, p.hash, p.receipt);
      } else {
        assert !Puts(steps, ms, n);
      }
    }
  }

  // ---- why the context is cancelled ----

  /** Step i is a verdict to abort. */
  predicate Aborts(cfg: Config, steps: seq<Step>, ms: seq<Machine>, i: nat)
    requires |ms| == |steps| + 1 && i < |steps|
  {
    steps[i].Worker? && steps[i].action.Judge? && S.ShouldAbort(ms[i].send, cfg.safeAbort)
  }

  predicate IsFatal(s: Step) {
    s.Worker? && s.action.UpdateFatalError?
  }

  /** One of the first n steps is a reason to cancel. */
  predicate Caused(cfg: Config, steps: seq<Step>, ms: seq<Machine>, n: nat)
    requires |ms| == |steps| + 1 && n <= |steps|
  {
    exists i: nat | i < n :: steps[i].CallerCancels? || IsFatal(steps[i]) || Aborts(cfg, steps, ms, i)
  }

  /** The state shows that there must have been a reason to cancel. */
  predicate ShowsCause(m: Machine) {
    || (m.ctxDone && Undecided(m.main))
    || (!Undecided(m.main) && m.main.result.Stopped?)
    || (m.ctxDone && m.main.Canceling?)
    || exists id | id in m.live :: m.live[id].Failing? || m.live[id].Aborting?
  }

  lemma CauseStep(cfg: Config, m: Machine, s: Step)
    requires Enabled(m, s) && ShowsCause(Do(cfg, m, s)) && !ShowsCause(m)
    ensures s.CallerCancels? || IsFatal(s) || (s.Worker? && s.action.Judge? && S.ShouldAbort(m.send, cfg.safeAbort))
  {
    var m' := Do(cfg, m, s);
    if s.Worker? {
      assert !m.live[s.id].Failing? && !m.live[s.id].Aborting?;
      assert m'.main == m.main && m'.ctxDone == m.ctxDone;
      var id :| id in m'.live && (m'.live[id].Failing? || m'.live[id].Aborting?);
      LiveStep(cfg, m, s, id);
    } else if !s.CallerCancels? {
      if id :| id in m'.live && (m'.live[id].Failing? || m'.live[id].Aborting?) {
        LiveStep(cfg, m, s, id);
      }
    }
  }

  lemma {:induction false} CancelsAreCaused(cfg: Config, steps: seq<Step>, ms: seq<Machine>, n: nat)
    requires Run(cfg, steps, ms) && n <= |steps| && ShowsCause(ms[n])
    ensures Caused(cfg, steps, ms, n)
  {
    if n > 0 {
      assert Goes(cfg, steps, ms, n - 1);
      if ShowsCause(ms[n - 1]) {
        CancelsAreCaused(cfg, steps, ms, n - 1);
        var i: nat :| i < n - 1 && (steps[i].CallerCancels? || IsFatal(steps[i]) || Aborts(cfg, steps, ms, i));
      } else {
        CauseStep(cfg, ms[n - 1], steps[n - 1]);
        assert steps[n - 1].CallerCancels? || IsFatal(steps[n - 1]) || Aborts(cfg, steps, ms, n - 1);
      }
    }
  }

  // ---- why a goroutine is launched ----

  predicate IsMain(s: Step) {
    !s.Worker? && !s.CallerCancels?
  }

  /** From step k up to step n the event loop did nothing but, possibly, add to the wait group. */
  predicate OnlyAdds(steps: seq<Step>, k: nat, n: nat, mayAdd: bool) {
    forall i | k <= i < n && i < |steps| && IsMain(steps[i]) :: mayAdd && steps[i].Add?
  }

  /** Step k is the start of Send, or a check that saw no transaction believed mined. */
  predicate Permits(steps: seq<Step>, ms: seq<Machine>, k: nat)
    requires |ms| == |steps| + 1
  {
    k < |steps| && (steps[k].AddFirst? || (steps[k].Check? && ms[k].send.mined == {}))
  }

  predicate LaunchStory(steps: seq<Step>, ms: seq<Machine>, n: nat)
    requires |ms| == |steps| + 1 && n <= |steps|
  {
    && (ms[n].main.Init? ==> forall i: nat | i < n :: !IsMain(steps[i]))
    && (ms[n].main.Adding? ==>
          exists k: nat | k < n :: Permits(steps, ms, k) && steps[k].Check? && OnlyAdds(steps, k + 1, n, false))
    && (ms[n].main.Launching? ==> exists k: nat | k < n :: Permits(steps, ms, k) && OnlyAdds(steps, k + 1, n, true))
  }

  lemma MainStep(cfg: Config, m: Machine, s: Step)
    requires Enabled(m, s)
    ensures var m' := Do(cfg, m, s);
            && (!IsMain(s) ==> m'.main == m.main)
            && (IsMain(s) ==>
                  && !m'.main.Init?
                  && (m'.main.Adding? ==> s.Check? && m.send.mined == {})
                  && (m'.main.Launching? ==> s.AddFirst? || (s.Add? && m.main.Adding?)))
  {
  }

  lemma MainStepAt(cfg: Config, steps: seq<Step>, ms: seq<Machine>, n: nat)
    requires Run(cfg, steps, ms) && n < |steps|
    ensures var m, m', s := ms[n], ms[n + 1], steps[n];
            && (!IsMain(s) ==> m'.main == m.main)
            && (IsMain(s) ==>
                  && !m'.main.Init?
                  && (m'.main.Adding? ==> s.Check? && m.send.mined == {})
                  && (m'.main.Launching? ==> s.AddFirst? || (s.Add? && m.main.Adding?)))
  {
    assert Goes(cfg, steps, ms, n);
    MainStep(cfg, ms[n], steps[n]);
  }

  lemma {:induction false} LaunchStoryHolds(cfg: Config, steps: seq<Step>, ms: seq<Machine>, n: nat)
    requires Run(cfg, steps, ms) && n <= |steps|
    ensures LaunchStory(steps, ms, n)
  {
    if n > 0 {
      LaunchStoryHolds(cfg, steps, ms, n - 1);
      var m, s := ms[n - 1], steps[n - 1];
      MainStepAt(cfg, steps, ms, n - 1);
      if ms[n].main.Launching? {
        if s.AddFirst? {
          assert Permits(steps, ms, n - 1);
        } else {
          var k: nat :| k < n - 1 && Permits(steps, ms, k) &&
            OnlyAdds(steps, k + 1, n - 1, m.main.Launching?) && (m.main.Adding? ==> steps[k].Check?);
          assert OnlyAdds(steps, k + 1, n, true);
        }
      } else if ms[n].main.Adding? {
        if IsMain(s) {
          assert Permits(steps, ms, n - 1);
        } else {
          var k: nat :| k < n - 1 && Permits(steps, ms, k) && steps[k].Check? && OnlyAdds(steps, k + 1, n - 1, false);
          assert OnlyAdds(steps, k + 1, n, false);
        }
      }
    }
  }
}
