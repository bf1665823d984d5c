/**
 The publication state that all attempts of one Send share, and its meaning as the replay of a log of
 what was observed: nonce-too-low errors and receipt queries that found, or did not find, a receipt.
 */
module SendState {
  import opened Common

  type Hash = nat

  datatype Event = NonceTooLow | Mined(hash: Hash) | NotMined(hash: Hash)

  datatype State = State(mined: set<Hash>, nonceTooLow: nat)

  const NONCE_TOO_LOW := "nonce too low"

  const FRESH := State({}, 0)

  function Apply(s: State, e: Event): State {
    match e
    case NonceTooLow => s.(nonceTooLow := s.nonceTooLow + 1)
    case Mined(h) => s.(mined := s.mined + {h})
    case NotMined(h) =>
      var left := s.mined - {h};
      State(left, if left == {} && h in s.mined then 0 else s.nonceTooLow)
  }

  function Replay(log: seq<Event>): State {
    if log == [] then FRESH else Apply(Replay(log[..|log| - 1]), log[|log| - 1])
  }

  lemma ReplayStep(log: seq<Event>, e: Event)
    ensures Replay(log + [e]) == Apply(Replay(log), e)
  {
    assert (log + [e])[..|log|] == log;
  }

  lemma ApplyNotMined(s: State, h: Hash)
    ensures Apply(s, NotMined(h)) ==
              State(s.mined - {h}, if |s.mined - {h}| == 0 && h in s.mined then 0 else s.nonceTooLow)
  {
  }

  /** The two-part test for giving up. */
  predicate ShouldAbort(s: State, threshold: nat) {
    s.mined == {} && s.nonceTooLow >= threshold
  }

  // ---- what the log says, without replaying it ----

  /** Nothing after event i takes the hash back. */
  predicate StaysMined(log: seq<Event>, i: nat, h: Hash) {
    forall j | i < j < |log| :: log[j] != NotMined(h)
  }

  /** The last thing the log says about the hash is that it is mined. */
  predicate LatestPositive(log: seq<Event>, h: Hash) {
    exists i :: 0 <= i < |log| && log[i] == Mined(h) && StaysMined(log, i, h)
  }

  /** No hash is currently believed mined. */
  ghost predicate NothingMined(log: seq<Event>) {
    forall h :: !LatestPositive(log, h)
  }

  /** Event n took the last mined hash away. */
  ghost predicate BecameEmpty(log: seq<Event>, n: nat)
    requires n < |log|
  {
    log[n].NotMined? && LatestPositive(log[..n], log[n].hash) && NothingMined(log[..n + 1])
  }

  /** The length of the log up to and including the last moment the mined set became empty. */
  ghost function LastReset(log: seq<Event>): (n: nat)
    ensures n <= |log|
  {
    if log == [] then 0
    else if BecameEmpty(log, |log| - 1) then |log|
    else LastReset(log[..|log| - 1])
  }

  function NonceErrors(log: seq<Event>): nat {
    if log == [] then 0
    else NonceErrors(log[..|log| - 1]) + if log[|log| - 1] == NonceTooLow then 1 else 0
  }

  /** Nonce-too-low errors since the mined set last became empty. */
  ghost function ErrorsSinceReset(log: seq<Event>): nat {
    NonceErrors(log[LastReset(log)..])
  }

  lemma LatestPositiveStep(log: seq<Event>, e: Event, h: Hash)
    ensures LatestPositive(log + [e], h) <==> e == Mined(h) || (LatestPositive(log, h) && e != NotMined(h))
  {
    var log' := log + [e];
    if e == Mined(h) {
      assert log'[|log|] == Mined(h) && StaysMined(log', |log|, h);
    } else if LatestPositive(log, h) && e != NotMined(h) {
      var i :| 0 <= i < |log| && log[i] == Mined(h) && StaysMined(log, i, h);
      assert log'[i] == Mined(h) && StaysMined(log', i, h);
    }
    if LatestPositive(log', h) && e != Mined(h) {
      LatestPositiveBack(log, e, h);
    }
  }

  lemma LatestPositiveBack(log: seq<Event>, e: Event, h: Hash)
    requires LatestPositive(log + [e], h) && e != Mined(h)
    ensures LatestPositive(log, h) && e != NotMined(h)
  {
    var log' := log + [e];
    var i :| 0 <= i < |log'| && log'[i] == Mined(h) && StaysMined(log', i, h);
    assert log'[|log|] == e;
    assert forall j | i < j < |log| :: log[j] == log'[j];
    assert log[i] == Mined(h) && StaysMined(log, i, h);
  }

  /** The mined set is the set of hashes whose latest query was positive. */
  lemma {:induction false} ReplayMined(log: seq<Event>, h: Hash)
    ensures h in Replay(log).mined <==> LatestPositive(log, h)
  {
    if log != [] {
      var front, e := log[..|log| - 1], log[|log| - 1];
      assert log == front + [e];
      ReplayMined(front, h);
      LatestPositiveStep(front, e, h);
    }
  }

  lemma ReplayNothingMined(log: seq<Event>)
    ensures Replay(log).mined == {} <==> NothingMined(log)
  {
    forall h { ReplayMined(log, h); }
  }

  /** The counter is the number of nonce-too-low errors since the mined set last became empty. */
  lemma {:induction false} ReplayCount(log: seq<Event>)
    ensures Replay(log).nonceTooLow == ErrorsSinceReset(log)
  {
    if log != [] {
      var front, e := log[..|log| - 1], log[|log| - 1];
      assert log == front + [e];
      assert log[..|log|] == log;
      ReplayCount(front);
      ReplayNothingMined(log);
      if e.NotMined? { ReplayMined(front, e.hash); }
      if BecameEmpty(log, |log| - 1) {
        assert log[LastReset(log)..] == [];
      } else {
        var r := LastReset(front);
        assert LastReset(log) == r;
        assert log[r..] == front[r..] + [e];
        assert log[r..][..|log[r..]| - 1] == front[r..];
      }
    }
  }

  /** The abort test, read off the log. */
  lemma AbortMeaning(log: seq<Event>, threshold: nat)
    ensures ShouldAbort(Replay(log), threshold) <==> NothingMined(log) && ErrorsSinceReset(log) >= threshold
  {
    ReplayNothingMined(log);
    ReplayCount(log);
  }

  predicate Contains(s: string, sub: string) {
    |sub| <= |s| && (s[..|sub|] == sub || (s != [] && Contains(s[1..], sub)))
  }

  /** The shared object. `log` records the events that reached it. */
  class SendState {
    var minedTxs: set<Hash>
    var nonceTooLowCount: nat
    const safeAbortNonceTooLowCount: nat
    ghost var log: seq<Event>

    ghost predicate Valid()
      reads this
    {
      State(minedTxs, nonceTooLowCount) == Replay(log)
    }

    constructor (safeAbort: nat)
      requires safeAbort != 0
      ensures Valid() && log == [] && safeAbortNonceTooLowCount == safeAbort
    {
      minedTxs, nonceTooLowCount, safeAbortNonceTooLowCount, log := {}, 0, safeAbort, [];
    }

    method ProcessSendError(err: Option<string>)
      requires Valid()
      modifies this
      ensures Valid()
      ensures log == old(log) + if err.Some? && Contains(err.value, NONCE_TOO_LOW) then [NonceTooLow] else []
    {
      if err.None? { return; }
      if !Contains(err.value, NONCE_TOO_LOW) { return; }
      nonceTooLowCount := nonceTooLowCount + 1;
      ReplayStep(log, NonceTooLow);
      log := log + [NonceTooLow];
    }

    method TxMined(hash: Hash)
      requires Valid()
      modifies this
      ensures Valid() && log == old(log) + [Mined(hash)]
    {
      minedTxs := minedTxs + {hash};
      ReplayStep(log, Mined(hash));
      log := log + [Mined(hash)];
    }

    method TxNotMined(hash: Hash)
      requires Valid()
      modifies this
      ensures Valid() && log == old(log) + [NotMined(hash)]
    {
      ReplayStep(log, NotMined(hash));
      ApplyNotMined(State(minedTxs, nonceTooLowCount), hash);
      var wasMined := hash in minedTxs;
      minedTxs := minedTxs - {hash};
      if |minedTxs| == 0 && wasMined {
        nonceTooLowCount := 0;
      }
      log := log + [NotMined(hash)];
    }

    method ShouldAbortImmediately() returns (abort: bool)
      requires Valid()
      ensures abort <==> NothingMined(log) && ErrorsSinceReset(log) >= safeAbortNonceTooLowCount
    {
      AbortMeaning(log, safeAbortNonceTooLowCount);
      if |minedTxs| > 0 { return false; }
      return nonceTooLowCount >= safeAbortNonceTooLowCount;
    }

    method IsWaitingForConfirmation() returns (waiting: bool)
      requires Valid()
      ensures waiting <==> exists h :: LatestPositive(log, h)
    {
      ReplayNothingMined(log);
      return |minedTxs| > 0;
    }
  }
}
