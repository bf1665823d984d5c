/** Two runs of Send in which what was recorded differs from what was asked. */
module TxRuns {
  import opened Common
  import opened TxManager
  import opened TxHistory
  import opened TxReadings
  import S = SendState

  const CFG := Config(1, 1)
  const RECEIPT := Receipt(5, false)
  const STALE := SendError(true, false)

  /** As long as anything is recorded, the queries say that this hash is mined. */
  ghost predicate Shadowed(steps: seq<Step>, ms: seq<Machine>, h: S.Hash)
    requires |ms| == |steps| + 1
  {
    forall n: nat | n <= |steps| :: Recorded(steps, ms, n) == [] || Queried(steps, ms, n) == [S.Mined(h)]
  }

  /** Nobody cancelled from outside, and no price update was fatal. */
  predicate Undisturbed(steps: seq<Step>) {
    forall s | s in steps :: !s.CallerCancels? && !IsFatal(s)
  }

  /** A run so far: the state it is in, what was asked and what was recorded. */
  ghost predicate Tale(steps: seq<Step>, ms: seq<Machine>, m: Machine,
                       queried: seq<S.Event>, recorded: seq<S.Event>, shadowed: bool)
  {
    && Run(CFG, steps, ms) && ms[|steps|] == m && Undisturbed(steps)
    && Queried(steps, ms, |steps|) == queried && Recorded(steps, ms, |steps|) == recorded
    && (shadowed ==> Shadowed(steps, ms, 7))
  }

  lemma {:induction false} PrefixReadings(steps: seq<Step>, ms: seq<Machine>, s: Step, m: Machine, n: nat)
    requires |ms| == |steps| + 1 && n <= |steps|
    ensures Queried(steps + [s], ms + [m], n) == Queried(steps, ms, n)
    ensures Recorded(steps + [s], ms + [m], n) == Recorded(steps, ms, n)
  {
    if n > 0 { PrefixReadings(steps, ms, s, m, n - 1); }
  }

  lemma OneMoreStep(steps: seq<Step>, ms: seq<Machine>, s: Step)
    requires Run(CFG, steps, ms) && Enabled(ms[|steps|], s)
    ensures Run(CFG, steps + [s], ms + [Do(CFG, ms[|steps|], s)])
  {
    var steps', ms' := steps + [s], ms + [Do(CFG, ms[|steps|], s)];
    forall i: nat | i < |steps'| ensures Goes(CFG, steps', ms', i) {
      if i < |steps| { assert Goes(CFG, steps, ms, i); }
    }
  }

  lemma Then(steps: seq<Step>, ms: seq<Machine>, m: Machine, queried: seq<S.Event>, recorded: seq<S.Event>,
             shadowed: bool, s: Step)
    returns (steps': seq<Step>, ms': seq<Machine>)
    requires Tale(steps, ms, m, queried, recorded, shadowed) && Enabled(m, s) && !s.CallerCancels? && !IsFatal(s)
    requires shadowed ==> recorded + EventOf(m, s) == [] || queried + QueryOf(m, s) == [S.Mined(7)]
    ensures Tale(steps', ms', Do(CFG, m, s), queried + QueryOf(m, s), recorded + EventOf(m, s), shadowed)
  {
    steps', ms' := steps + [s], ms + [Do(CFG, m, s)];
    OneMoreStep(steps, ms, s);
    MoreReadings(steps, ms, s, Do(CFG, m, s), shadowed);
  }

  lemma MoreReadings(steps: seq<Step>, ms: seq<Machine>, s: Step, m': Machine, shadowed: bool)
    requires |ms| == |steps| + 1 && (shadowed ==> Shadowed(steps, ms, 7))
    requires var n := |steps|;
             shadowed ==>
               || Recorded(steps, ms, n) + EventOf(ms[n], s) == []
               || Queried(steps, ms, n) + QueryOf(ms[n], s) == [S.Mined(7)]
    ensures var steps', ms', n := steps + [s], ms + [m'], |steps|;
            && Queried(steps', ms', n + 1) == Queried(steps, ms, n) + QueryOf(ms[n], s)
            && Recorded(steps', ms', n + 1) == Recorded(steps, ms, n) + EventOf(ms[n], s)
            && (shadowed ==> Shadowed(steps', ms', 7))
  {
    var steps', ms' := steps + [s], ms + [m'];
    forall n: nat | n <= |steps|
      ensures Queried(steps', ms', n) == Queried(steps, ms, n) && Recorded(steps', ms', n) == Recorded(steps, ms, n)
    {
      PrefixReadings(steps, ms, s, m', n);
    }
  }

  const TWO := Machine(Looping, map[0 := Querying(7), 1 := Updating], 2, 2, None, false, S.FRESH)

  /** The first goroutine has published hash 7, and a tick has launched a second one. */
  lemma TwoGoroutines() returns (steps: seq<Step>, ms: seq<Machine>)
    ensures Tale(steps, ms, TWO, [], [], true)
  {
    steps, ms := [], [START];
    assert Tale(steps, ms, START, [], [], true);
    steps, ms := Then(steps, ms, START, [], [], true, AddFirst);
    var m := Machine(Launching, map[], 0, 1, None, false, S.FRESH);
    steps, ms := Then(steps, ms, m, [], [], true, Launch);
    m := Machine(Looping, map[0 := Updating], 1, 1, None, false, S.FRESH);
    steps, ms := Then(steps, ms, m, [], [], true, Worker(0, UpdateOk(7)));
    m := m.(live := map[0 := Publishing(7)]);
    steps, ms := Then(steps, ms, m, [], [], true, Worker(0, SendReturns(None)));
    m := m.(live := map[0 := Recording(7, None)]);
    steps, ms := Then(steps, ms, m, [], [], true, Worker(0, Record));
    m := m.(live := map[0 := Querying(7)]);
    steps, ms := Then(steps, ms, m, [], [], true, Tick);
    steps, ms := Then(steps, ms, m.(main := Checking), [], [], true, Check);
    steps, ms := Then(steps, ms, m.(main := Adding), [], [], true, Add);
    steps, ms := Then(steps, ms, m.(main := Launching, wg := 2), [], [], true, Launch);
    assert m.live[1 := Updating] == TWO.live;
  }

  /** The second goroutine fails with a stale nonce; before it says so, the first one finds a receipt. */
  lemma FoundButNotRecorded() returns (steps: seq<Step>, ms: seq<Machine>)
    ensures Tale(steps, ms, TWO.(live := map[0 := Found(7, RECEIPT), 1 := Judging(8)], send := S.State({}, 1)),
                 [S.Mined(7)], [S.NonceTooLow], true)
  {
    steps, ms := TwoGoroutines();
    steps, ms := Then(steps, ms, TWO, [], [], true, Worker(1, UpdateOk(8)));
    var m := TWO.(live := map[0 := Querying(7), 1 := Publishing(8)]);
    assert TWO.live[1 := Publishing(8)] == m.live;
    steps, ms := Then(steps, ms, m, [], [], true, Worker(1, SendReturns(Some(STALE))));
    var m2 := TWO.(live := map[0 := Querying(7), 1 := Recording(8, Some(STALE))]);
    assert m.live[1 := Recording(8, Some(STALE))] == m2.live;
    steps, ms := Then(steps, ms, m2, [], [], true, Worker(0, QueryFound(RECEIPT)));
    var m3 := TWO.(live := map[0 := Found(7, RECEIPT), 1 := Recording(8, Some(STALE))]);
    assert m2.live[0 := Found(7, RECEIPT)] == m3.live;
    steps, ms := Then(steps, ms, m3, [S.Mined(7)], [], true, Worker(1, Record));
    assert m3.live[1 := Judging(8)] == map[0 := Found(7, RECEIPT), 1 := Judging(8)];
  }

  /** The verdict falls, and the event loop stops. */
  lemma StoppedTooEarly() returns (steps: seq<Step>, ms: seq<Machine>)
    ensures Tale(steps, ms,
                 Machine(Waiting(Stopped), map[0 := Found(7, RECEIPT), 1 := Finishing], 2, 2, None, true,
                         S.State({}, 1)),
                 [S.Mined(7)], [S.NonceTooLow], true)
  {
    steps, ms := FoundButNotRecorded();
    var m := TWO.(live := map[0 := Found(7, RECEIPT), 1 := Judging(8)], send := S.State({}, 1));
    steps, ms := Then(steps, ms, m, [S.Mined(7)], [S.NonceTooLow], true, Worker(1, Judge));
    var m2 := m.(live := map[0 := Found(7, RECEIPT), 1 := Aborting(8)]);
    assert m.live[1 := Aborting(8)] == m2.live;
    steps, ms := Then(steps, ms, m2, [S.Mined(7)], [S.NonceTooLow], true, Worker(1, CancelAfterAbort));
    var m3 := m.(live := map[0 := Found(7, RECEIPT), 1 := Finishing], ctxDone := true);
    assert m2.live[1 := Finishing] == m3.live;
    steps, ms := Then(steps, ms, m3, [S.Mined(7)], [S.NonceTooLow], true, StopOnCancel);
    steps, ms := Then(steps, ms, m3.(main := Canceling(Stopped)), [S.Mined(7)], [S.NonceTooLow], true, Cancel);
  }

  lemma RecordedTooLate() returns (steps: seq<Step>, ms: seq<Machine>)
    ensures Tale(steps, ms,
                 Machine(Waiting(Stopped), map[0 := Measuring(7, RECEIPT)], 2, 1, None, true, S.State({7}, 1)),
                 [S.Mined(7)], [S.NonceTooLow, S.Mined(7)], true)
  {
    steps, ms := StoppedTooEarly();
    var m := Machine(Waiting(Stopped), map[0 := Found(7, RECEIPT), 1 := Finishing], 2, 2, None, true, S.State({}, 1));
    steps, ms := Then(steps, ms, m, [S.Mined(7)], [S.NonceTooLow], true, Worker(1, Finish));
    m := m.(live := map[0 := Found(7, RECEIPT)], wg := 1);
    assert map[0 := Found(7, RECEIPT), 1 := Finishing] - {1} == m.live;
    steps, ms := Then(steps, ms, m, [S.Mined(7)], [S.NonceTooLow], true, Worker(0, MarkMined));
    assert m.live[0 := Measuring(7, RECEIPT)] == map[0 := Measuring(7, RECEIPT)];
    assert m.send.mined + {7} == {7};
    assert [S.NonceTooLow] + [S.Mined(7)] == [S.NonceTooLow, S.Mined(7)];
  }

  lemma StoppedForGood() returns (steps: seq<Step>, ms: seq<Machine>)
    ensures Tale(steps, ms, Machine(Returned(Stopped), map[], 2, 0, None, true, S.State({7}, 1)),
                 [S.Mined(7)], [S.NonceTooLow, S.Mined(7)], true)
  {
    steps, ms := RecordedTooLate();
    var q, e := [S.Mined(7)], [S.NonceTooLow, S.Mined(7)];
    var m := Machine(Waiting(Stopped), map[0 := Measuring(7, RECEIPT)], 2, 1, None, true, S.State({7}, 1));
    steps, ms := Then(steps, ms, m, q, e, true, Worker(0, HeightError));
    m := m.(live := map[0 := Sleeping(7)]);
    steps, ms := Then(steps, ms, m, q, e, true, Worker(0, SeeCancel));
    m := m.(live := map[0 := Finishing]);
    steps, ms := Then(steps, ms, m, q, e, true, Worker(0, Finish));
    m := m.(live := map[], wg := 0);
    assert map[0 := Finishing] - {0} == m.live;
    steps, ms := Then(steps, ms, m, q, e, true, Wait);
  }

  /** A run, undisturbed from outside, in which Send gives up although at no moment had there been a nonce-too-low
      error while no hash's latest query was positive. */
  lemma AbortDespitePositiveQuery() returns (steps: seq<Step>, ms: seq<Machine>)
    ensures Run(CFG, steps, ms) && Undisturbed(steps) && ms[|steps|].main == Returned(Stopped)
    ensures forall n: nat | n <= |steps| && S.NothingMined(Queried(steps, ms, n)) ::
              S.ErrorsSinceReset(Recorded(steps, ms, n)) < CFG.safeAbort
  {
    steps, ms := StoppedForGood();
    assert S.StaysMined([S.Mined(7)], 0, 7) && S.LatestPositive([S.Mined(7)], 7);
    forall n: nat | n <= |steps| && S.NothingMined(Queried(steps, ms, n))
      ensures S.ErrorsSinceReset(Recorded(steps, ms, n)) < CFG.safeAbort
    {
      assert Recorded(steps, ms, n) == [];
    }
  }

  lemma OneAsks() returns (steps: seq<Step>, ms: seq<Machine>)
    ensures Tale(steps, ms, TWO.(live := map[0 := Querying(7), 1 := Querying(7)]), [], [], false)
  {
    steps, ms := TwoGoroutines();
    steps, ms := Then(steps, ms, TWO, [], [], false, Worker(1, UpdateOk(7)));
    var m := TWO.(live := map[0 := Querying(7), 1 := Publishing(7)]);
    assert TWO.live[1 := Publishing(7)] == m.live;
    steps, ms := Then(steps, ms, m, [], [], false, Worker(1, SendReturns(None)));
    var m2 := TWO.(live := map[0 := Querying(7), 1 := Recording(7, None)]);
    assert m.live[1 := Recording(7, None)] == m2.live;
    steps, ms := Then(steps, ms, m2, [], [], false, Worker(1, Record));
    assert m2.live[1 := Querying(7)] == map[0 := Querying(7), 1 := Querying(7)];
  }

  lemma BothAsk() returns (steps: seq<Step>, ms: seq<Machine>)
    ensures Tale(steps, ms, TWO.(live := map[0 := Missing(7), 1 := Found(7, RECEIPT)]),
                 [S.NotMined(7), S.Mined(7)], [], false)
  {
    steps, ms := OneAsks();
    var m3 := TWO.(live := map[0 := Querying(7), 1 := Querying(7)]);
    steps, ms := Then(steps, ms, m3, [], [], false, Worker(0, QueryMissing));
    var m4 := TWO.(live := map[0 := Missing(7), 1 := Querying(7)]);
    assert m3.live[0 := Missing(7)] == m4.live;
    steps, ms := Then(steps, ms, m4, [S.NotMined(7)], [], false, Worker(1, QueryFound(RECEIPT)));
    assert m4.live[1 := Found(7, RECEIPT)] == map[0 := Missing(7), 1 := Found(7, RECEIPT)];
  }

  lemma OlderRecordsLast() returns (steps: seq<Step>, ms: seq<Machine>)
    ensures Tale(steps, ms, TWO.(live := map[0 := Sleeping(7), 1 := Measuring(7, RECEIPT)]),
                 [S.NotMined(7), S.Mined(7)], [S.Mined(7), S.NotMined(7)], false)
  {
    steps, ms := BothAsk();
    var m := TWO.(live := map[0 := Missing(7), 1 := Found(7, RECEIPT)]);
    var q := [S.NotMined(7), S.Mined(7)];
    steps, ms := Then(steps, ms, m, q, [], false, Worker(1, MarkMined));
    var m2 := TWO.(live := map[0 := Missing(7), 1 := Measuring(7, RECEIPT)], send := S.State({7}, 0));
    assert m.live[1 := Measuring(7, RECEIPT)] == m2.live;
    steps, ms := Then(steps, ms, m2, q, [S.Mined(7)], false, Worker(0, MarkNotMined));
    assert m2.live[0 := Sleeping(7)] == map[0 := Sleeping(7), 1 := Measuring(7, RECEIPT)];
  }

  /** A run in which two goroutines ask about one hash and the older answer is recorded last: nobody holds an
      answer any more, and still the readings differ. */
  lemma OvertakenRecord() returns (steps: seq<Step>, ms: seq<Machine>)
    ensures Run(CFG, steps, ms) && forall id :: !Holds(ms[|steps|], id, 7)
    ensures S.LatestPositive(Queried(steps, ms, |steps|), 7) && !S.LatestPositive(Recorded(steps, ms, |steps|), 7)
  {
    steps, ms := OlderRecordsLast();
    assert [S.NotMined(7)] + [S.Mined(7)] == [S.NotMined(7), S.Mined(7)];
    assert [S.Mined(7)] + [S.NotMined(7)] == [S.Mined(7), S.NotMined(7)];
    S.LatestPositiveStep([S.NotMined(7)], S.Mined(7), 7);
    S.LatestPositiveStep([S.Mined(7)], S.NotMined(7), 7);
  }
}
