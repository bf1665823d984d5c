/**
 Two readings of "the latest receipt query was positive": what the queries said when they were made, and what
 has been recorded of them. A goroutine asks in one step and records in another, so the two can differ.
 */
module TxReadings {
  import opened TxManager
  import opened TxHistory
  import S = SendState

  /** What a receipt query says when it is made. */
  function QueryOf(m: Machine, s: Step): seq<S.Event> {
    if !s.Worker? || s.id !in m.live then []
    else
      match (s.action, m.live[s.id])
      case (QueryFound(_), Querying(h)) => [S.Mined(h)]
      case (QueryMissing, Querying(h)) => [S.NotMined(h)]
      case _ => []
  }

  function Queried(steps: seq<Step>, ms: seq<Machine>, n: nat): seq<S.Event>
    requires |ms| == |steps| + 1 && n <= |steps|
  {
    if n == 0 then [] else Queried(steps, ms, n - 1) + QueryOf(ms[n - 1], steps[n - 1])
  }

  /** Step i is a query about this hash that was not an error. */
  predicate Asks(steps: seq<Step>, ms: seq<Machine>, i: nat, h: S.Hash)
    requires |ms| == |steps| + 1 && i < |steps|
  {
    QueryOf(ms[i], steps[i]) == [S.Mined(h)] || QueryOf(ms[i], steps[i]) == [S.NotMined(h)]
  }

  /** All queries about this hash so far were made by one goroutine. */
  predicate OnePoller(steps: seq<Step>, ms: seq<Machine>, n: nat, h: S.Hash)
    requires |ms| == |steps| + 1 && n <= |steps|
  {
    forall i: nat, j: nat | i < n && j < n && Asks(steps, ms, i, h) && Asks(steps, ms, j, h) ::
      steps[i].id == steps[j].id
  }

  /** Every price update returns a transaction of its own. */
  predicate FreshHashes(steps: seq<Step>) {
    forall i, j | 0 <= i < |steps| && 0 <= j < |steps| && steps[i].Worker? && steps[j].Worker? &&
                  steps[i].action.UpdateOk? && steps[j].action.UpdateOk? && steps[i].action == steps[j].action :: i == j
  }

  lemma FreshMeansOnePoller(cfg: Config, steps: seq<Step>, ms: seq<Machine>, n: nat, h: S.Hash)
    requires Run(cfg, steps, ms) && n <= |steps| && FreshHashes(steps)
    ensures OnePoller(steps, ms, n, h)
  {
    forall i: nat, j: nat | i < n && j < n && Asks(steps, ms, i, h) && Asks(steps, ms, j, h)
      ensures steps[i].id == steps[j].id
    {
      var u := HashIsOwn(cfg, steps, ms, i, steps[i].id);
      var v := HashIsOwn(cfg, steps, ms, j, steps[j].id);
    }
  }

  /** The goroutine holds an answer about this hash that it has not recorded yet. */
  predicate Holds(m: Machine, id: nat, h: S.Hash) {
    id in m.live && ((m.live[id].Found? && m.live[id].hash == h) || m.live[id] == Missing(h))
  }

  /** Whoever holds an answer has asked for it. */
  lemma HolderAsked(cfg: Config, steps: seq<Step>, ms: seq<Machine>, n: nat, id: nat, h: S.Hash) returns (q: nat)
    requires Run(cfg, steps, ms) && n <= |steps| && Holds(ms[n], id, h)
    ensures q < n && Asks(steps, ms, q, h) && steps[q].id == id
  {
    StoriesHold(cfg, steps, ms, n, id);
    if ms[n].live[id].Found? {
      q :| HasFound(steps, ms, n, id, h, ms[n].live[id].receipt, q, false);
    } else {
      q :| q < n && By(steps, ms, q, id, Querying(h), QueryMissing);
    }
  }

  /** A held answer is the latest one; if none is held, both readings agree. */
  ghost predicate ReadingsRelated(m: Machine, queried: seq<S.Event>, recorded: seq<S.Event>, h: S.Hash) {
    && (forall id | Holds(m, id, h) :: S.LatestPositive(queried, h) <==> m.live[id].Found?)
    && ((forall id :: !Holds(m, id, h)) ==> (S.LatestPositive(queried, h) <==> S.LatestPositive(recorded, h)))
  }

  /** How a step changes which answers about this hash are held. */
  lemma HoldsStep(cfg: Config, m: Machine, s: Step, id: nat, h: S.Hash)
    requires Enabled(m, s) && m.nextId !in m.live
    ensures var m' := Do(cfg, m, s);
            if s.Worker? && s.id == id then
              && (Holds(m', id, h) <==> QueryOf(m, s) == [S.Mined(h)] || QueryOf(m, s) == [S.NotMined(h)])
              && (Holds(m', id, h) ==> (m'.live[id].Found? <==> QueryOf(m, s) == [S.Mined(h)]))
              && (Holds(m, id, h) ==> EventOf(m, s) == if m.live[id].Found? then [S.Mined(h)] else [S.NotMined(h)])
            else (Holds(m', id, h) <==> Holds(m, id, h)) && (Holds(m, id, h) ==> m'.live[id] == m.live[id])
  {
    if id in Do(cfg, m, s).live { LiveStep(cfg, m, s, id); }
  }

  /** Only the holder of an answer about a hash records one. */
  lemma RecordsWhatItHolds(m: Machine, s: Step, h: S.Hash)
    requires Enabled(m, s)
    ensures EventOf(m, s) == [S.Mined(h)] || EventOf(m, s) == [S.NotMined(h)] ==> s.Worker? && Holds(m, s.id, h)
    ensures EventOf(m, s) == [] || |EventOf(m, s)| == 1
    ensures QueryOf(m, s) == [] || |QueryOf(m, s)| == 1
  {
  }

  /** Appending nothing, or something about another hash, changes no reading. */
  lemma ReadingAfter(log: seq<S.Event>, more: seq<S.Event>, h: S.Hash)
    requires more == [] || |more| == 1
    ensures S.LatestPositive(log + more, h) <==>
            more == [S.Mined(h)] || (S.LatestPositive(log, h) && more != [S.NotMined(h)])
  {
    if more == [] {
      assert log + more == log;
    } else {
      assert more == [more[0]];
      S.LatestPositiveStep(log, more[0], h);
    }
  }

  lemma OneHolder(cfg: Config, steps: seq<Step>, ms: seq<Machine>, n: nat, h: S.Hash, id: nat, id': nat)
    requires Run(cfg, steps, ms) && n <= |steps| && OnePoller(steps, ms, n, h)
    requires Holds(ms[n], id, h) && Holds(ms[n], id', h)
    ensures id == id'
  {
    var q := HolderAsked(cfg, steps, ms, n, id, h);
    var q' := HolderAsked(cfg, steps, ms, n, id', h);
  }

  lemma {:induction false} ReadingsHold(cfg: Config, steps: seq<Step>, ms: seq<Machine>, n: nat, h: S.Hash)
    requires Run(cfg, steps, ms) && n <= |steps| && OnePoller(steps, ms, n, h)
    ensures ReadingsRelated(ms[n], Queried(steps, ms, n), Recorded(steps, ms, n), h)
  {
    if n > 0 {
      var k := n - 1;
      ReadingsHold(cfg, steps, ms, k, h);
      assert Goes(cfg, steps, ms, k);
      var m, s := ms[k], steps[k];
      RecordsWhatItHolds(m, s, h);
      ReadingAfter(Queried(steps, ms, k), QueryOf(m, s), h);
      ReadingAfter(Recorded(steps, ms, k), EventOf(m, s), h);
      NewIdsAreNew(cfg, steps, ms, k);
      forall id { HoldsStep(cfg, m, s, id, h); }
      forall id | Holds(ms[n], id, h)
        ensures S.LatestPositive(Queried(steps, ms, n), h) <==> ms[n].live[id].Found?
      {
        if s.Worker? && Holds(ms[n], s.id, h) { OneHolder(cfg, steps, ms, n, h, id, s.id); }
        if Asks(steps, ms, k, h) { assert Holds(ms[n], s.id, h); }
      }
      if forall id :: !Holds(ms[n], id, h) {
        if id :| Holds(m, id, h) {
          assert s.Worker? && s.id == id;
        }
      }
    }
  }

  /** The goroutine holds an answer that contradicts what is recorded. */
  predicate Contradicts(m: Machine, id: nat, h: S.Hash) {
    Holds(m, id, h) && (m.live[id].Found? <==> h !in m.send.mined)
  }

  lemma RelatedAgreeIff(m: Machine, queried: seq<S.Event>, recorded: seq<S.Event>, h: S.Hash)
    requires ReadingsRelated(m, queried, recorded, h) && (h in m.send.mined <==> S.LatestPositive(recorded, h))
    ensures (S.LatestPositive(queried, h) <==> S.LatestPositive(recorded, h)) <==> forall id :: !Contradicts(m, id, h)
  {
    if id :| Holds(m, id, h) {
      assert S.LatestPositive(queried, h) <==> m.live[id].Found?;
      if S.LatestPositive(queried, h) == S.LatestPositive(recorded, h) {
        forall id' ensures !Contradicts(m, id', h) {
          if Holds(m, id', h) { assert S.LatestPositive(queried, h) <==> m.live[id'].Found?; }
        }
      } else {
        assert Contradicts(m, id, h);
      }
    }
  }

  /** With one poller for the hash, the readings agree if and only if nobody holds a contradicting answer. */
  lemma ReadingsAgreeIff(cfg: Config, steps: seq<Step>, ms: seq<Machine>, n: nat, h: S.Hash)
    requires Run(cfg, steps, ms) && n <= |steps| && OnePoller(steps, ms, n, h)
    ensures (S.LatestPositive(Queried(steps, ms, n), h) <==> S.LatestPositive(Recorded(steps, ms, n), h)) <==>
            forall id :: !Contradicts(ms[n], id, h)
  {
    ReadingsHold(cfg, steps, ms, n, h);
    SendIsReplay(cfg, steps, ms, n);
    S.ReplayMined(Recorded(steps, ms, n), h);
    RelatedAgreeIff(ms[n], Queried(steps, ms, n), Recorded(steps, ms, n), h);
  }

  /** In general the readings differ only by one of two routes: an answer that is held back, or two goroutines
      that ask about the same hash. */
  lemma ReadingsDifferOnlyIf(cfg: Config, steps: seq<Step>, ms: seq<Machine>, n: nat, h: S.Hash)
    requires Run(cfg, steps, ms) && n <= |steps|
    requires S.LatestPositive(Queried(steps, ms, n), h) != S.LatestPositive(Recorded(steps, ms, n), h)
    ensures (exists id :: Contradicts(ms[n], id, h)) || !OnePoller(steps, ms, n, h)
  {
    if OnePoller(steps, ms, n, h) { ReadingsAgreeIff(cfg, steps, ms, n, h); }
  }

  /** With nothing recorded as mined and one poller, the latest query was positive exactly for a held receipt. */
  lemma PositiveMeansHeld(cfg: Config, steps: seq<Step>, ms: seq<Machine>, n: nat, h: S.Hash)
    requires Run(cfg, steps, ms) && n <= |steps| && OnePoller(steps, ms, n, h) && ms[n].send.mined == {}
    ensures S.LatestPositive(Queried(steps, ms, n), h) <==> exists id :: Holds(ms[n], id, h) && ms[n].live[id].Found?
  {
    ReadingsHold(cfg, steps, ms, n, h);
    SendIsReplay(cfg, steps, ms, n);
    S.ReplayMined(Recorded(steps, ms, n), h);
    if S.LatestPositive(Queried(steps, ms, n), h) {
      var id :| Holds(ms[n], id, h);
    }
  }

  /** When a verdict to abort falls and every price update returned a transaction of its own, no hash's latest
      query was positive if and only if no goroutine holds a receipt that it has not recorded yet. */
  lemma AbortAndQueries(cfg: Config, steps: seq<Step>, ms: seq<Machine>, i: nat)
    requires Run(cfg, steps, ms) && i < |steps| && Aborts(cfg, steps, ms, i) && FreshHashes(steps)
    ensures S.NothingMined(Queried(steps, ms, i)) <==> forall id | id in ms[i].live :: !ms[i].live[id].Found?
  {
    forall h
      ensures S.LatestPositive(Queried(steps, ms, i), h) <==> exists id :: Holds(ms[i], id, h) && ms[i].live[id].Found?
    {
      FreshMeansOnePoller(cfg, steps, ms, i, h);
      PositiveMeansHeld(cfg, steps, ms, i, h);
    }
    if id :| id in ms[i].live && ms[i].live[id].Found? {
      var h := ms[i].live[id].hash;
      assert Holds(ms[i], id, h);
      assert S.LatestPositive(Queried(steps, ms, i), h);
    }
  }
}
