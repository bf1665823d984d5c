/**
 WebSocket sessions and the local limiter's connection counters, under any interleaving of attempts,
 saturated and offline backends, failed dials, failover and closes.
 */
module WsLimiter {
  import opened Common

  type Counters = map<string, nat>

  function Count(c: Counters, name: string): nat {
    if name in c then c[name] else 0
  }

  /** The count of this name changed by d, and no other. */
  ghost predicate Moved(before: Counters, after: Counters, name: string, d: int) {
    && Count(after, name) == Count(before, name) + d
    && forall other | other != name :: Count(after, other) == Count(before, other)
  }

  function AfterInc(c: Counters, name: string, max: nat): (c': Counters)
    ensures Moved(c, c', name, if Count(c, name) == max then 0 else 1)
  {
    if Count(c, name) == max then c else c[name := Count(c, name) + 1]
  }

  function AfterDec(c: Counters, name: string): (c': Counters)
    ensures Moved(c, c', name, if Count(c, name) == 0 then 0 else -1)
  {
    if Count(c, name) == 0 then c else c[name := Count(c, name) - 1]
  }

  class LocalBackendRateLimiter {
    var backendWSConns: Counters

    constructor ()
      ensures forall name :: Count(backendWSConns, name) == 0
    {
      backendWSConns := map[];
    }

    /** Takes a slot of this backend, unless all are taken; a count within the maximum stays so. */
    method IncBackendWSConns(name: string, max: nat) returns (incremented: bool)
      modifies this
      ensures Moved(old(backendWSConns), backendWSConns, name, if incremented then 1 else 0)
      ensures incremented <==> Count(old(backendWSConns), name) != max
      ensures Count(old(backendWSConns), name) <= max ==>
                Count(backendWSConns, name) <= max && (incremented <==> Count(old(backendWSConns), name) < max)
    {
      if Count(backendWSConns, name) == max { return false; }
      backendWSConns := backendWSConns[name := Count(backendWSConns, name) + 1];
      return true;
    }

    /** Gives back a slot of this backend if one was taken. */
    method DecBackendWSConns(name: string)
      modifies this
      ensures Moved(old(backendWSConns), backendWSConns, name, if Count(old(backendWSConns), name) == 0 then 0 else -1)
    {
      if Count(backendWSConns, name) == 0 { return; }
      backendWSConns := backendWSConns[name := Count(backendWSConns, name) - 1];
    }

    /** An attempt that is turned away, or whose dial fails, leaves every count as it was if and only if the backend
        is limited or has no count. */
    method FailedDial(name: string, maxWSConns: nat) returns (admitted: bool)
      modifies this
      ensures admitted <==> maxWSConns == 0 || Count(old(backendWSConns), name) != maxWSConns
      ensures (forall other :: Count(backendWSConns, other) == Count(old(backendWSConns), other)) <==>
              (maxWSConns != 0 || Count(old(backendWSConns), name) == 0)
    {
      if maxWSConns != 0 {
        var incremented := IncBackendWSConns(name, maxWSConns);
        if !incremented { return false; }
      }
      DecBackendWSConns(name);
      return true;
    }
  }

  /** A client's WebSocket session. `rest` are the backends of the group still to be tried. */
  datatype Session =
    | Trying(rest: seq<string>)
    | Dialing(name: string, rest: seq<string>)
    | Undoing(name: string, rest: seq<string>)   // the dial failed, the slot is about to be given back
    | Open(name: string)
    | Closing(name: string)                      // both ends closed, the slot is about to be given back

  /** `limits` holds maxWSConns by backend; zero means unlimited and uncounted. */
  datatype World = World(counters: Counters, sessions: map<nat, Session>, nextId: nat)

  type Limits = map<string, nat>

  function Limit(limits: Limits, name: string): nat {
    if name in limits then limits[name] else 0
  }

  datatype Step =
    | Arrive(backends: seq<string>)
    | SkipOffline(id: nat)
    | Admit(id: nat)
    | DialOk(id: nat)
    | DialFails(id: nat)
    | Undo(id: nat)
    | GiveUp(id: nat)
    | Close(id: nat)
    | Release(id: nat)

  predicate Enabled(w: World, s: Step) {
    match s
    case Arrive(_) => true
    case SkipOffline(id) => id in w.sessions && w.sessions[id].Trying? && w.sessions[id].rest != []
    case Admit(id) => id in w.sessions && w.sessions[id].Trying? && w.sessions[id].rest != []
    case DialOk(id) => id in w.sessions && w.sessions[id].Dialing?
    case DialFails(id) => id in w.sessions && w.sessions[id].Dialing?
    case Undo(id) => id in w.sessions && w.sessions[id].Undoing?
    case GiveUp(id) => id in w.sessions && w.sessions[id] == Trying([])
    case Close(id) => id in w.sessions && w.sessions[id].Open?
    case Release(id) => id in w.sessions && w.sessions[id].Closing?
  }

  function To(w: World, id: nat, s: Session): World {
    w.(sessions := w.sessions[id := s])
  }

  function Do(limits: Limits, w: World, s: Step): World
    requires Enabled(w, s)
  {
    match s
    case Arrive(backends) => To(w, w.nextId, Trying(backends)).(nextId := w.nextId + 1)
    case SkipOffline(id) => To(w, id, Trying(w.sessions[id].rest[1..]))
    case Admit(id) =>
      var name, rest := w.sessions[id].rest[0], w.sessions[id].rest[1..];
      var max := Limit(limits, name);
      if max == 0 then To(w, id, Dialing(name, rest))
      else if Count(w.counters, name) == max then To(w, id, Trying(rest))
      else To(w, id, Dialing(name, rest)).(counters := AfterInc(w.counters, name, max))
    case DialOk(id) => To(w, id, Open(w.sessions[id].name))
    case DialFails(id) => To(w, id, Undoing(w.sessions[id].name, w.sessions[id].rest))
    case Undo(id) =>
      To(w, id, Trying(w.sessions[id].rest)).(counters := AfterDec(w.counters, w.sessions[id].name))
    case GiveUp(id) => w.(sessions := w.sessions - {id})
    case Close(id) => To(w, id, Closing(w.sessions[id].name))
    case Release(id) =>
      w.(sessions := w.sessions - {id}, counters := AfterDec(w.counters, w.sessions[id].name))
  }

  const START := World(map[], map[], 0)

  function Exec(limits: Limits, steps: seq<Step>): Option<World> {
    if steps == [] then Some(START)
    else
      var before := Exec(limits, steps[..|steps| - 1]);
      if before.Some? && Enabled(before.value, steps[|steps| - 1])
      then Some(Do(limits, before.value, steps[|steps| - 1]))
      else None
  }

  /** The session occupies a connection slot of the backend. */
  predicate Holds(s: Session, name: string) {
    !s.Trying? && s.name == name
  }

  function Holders(sessions: map<nat, Session>, name: string): set<nat> {
    set id | id in sessions && Holds(sessions[id], name)
  }

  /** A limited backend's counter is the number of its sessions and stays within the limit;
      an unlimited backend's counter stays zero. */
  predicate CountsExact(limits: Limits, w: World, name: string) {
    if Limit(limits, name) == 0 then Count(w.counters, name) == 0
    else Count(w.counters, name) == |Holders(w.sessions, name)| <= Limit(limits, name)
  }

  ghost predicate Inv(limits: Limits, w: World) {
    && (forall name :: CountsExact(limits, w, name))
    && (forall id | id in w.sessions :: id < w.nextId)
  }

  function Held(sessions: map<nat, Session>, id: nat, name: string): nat {
    if id in sessions && Holds(sessions[id], name) then 1 else 0
  }

  /** Changing one session changes the number of holders by that session. */
  lemma HoldersOfUpdate(sessions: map<nat, Session>, id: nat, s: Session, name: string)
    ensures |Holders(sessions[id := s], name)| ==
            |Holders(sessions, name)| - Held(sessions, id, name) + (if Holds(s, name) then 1 else 0)
  {
    var rest := Holders(sessions, name) - {id};
    assert Holders(sessions, name) == if Held(sessions, id, name) == 1 then rest + {id} else rest;
    assert Holders(sessions[id := s], name) == if Holds(s, name) then rest + {id} else rest;
  }

  lemma HoldersOfRemoval(sessions: map<nat, Session>, id: nat, name: string)
    ensures |Holders(sessions - {id}, name)| == |Holders(sessions, name)| - Held(sessions, id, name)
  {
    var rest := Holders(sessions, name) - {id};
    assert Holders(sessions, name) == if Held(sessions, id, name) == 1 then rest + {id} else rest;
    assert Holders(sessions - {id}, name) == rest;
  }

  /** A session that holds a slot is counted. */
  lemma HolderCounted(sessions: map<nat, Session>, id: nat, name: string)
    requires Held(sessions, id, name) == 1
    ensures |Holders(sessions, name)| >= 1
  {
    assert id in Holders(sessions, name);
  }

  /** Every step keeps every counter exact. */
  lemma StepKeepsCount(limits: Limits, w: World, s: Step, name: string)
    requires Inv(limits, w) && Enabled(w, s)
    ensures CountsExact(limits, Do(limits, w, s), name)
  {
    var w' := Do(limits, w, s);
    var id := if s.Arrive? then w.nextId else s.id;
    assert CountsExact(limits, w, name);
    if Held(w.sessions, id, name) == 1 { HolderCounted(w.sessions, id, name); }
    if s.GiveUp? || s.Release? {
      HoldersOfRemoval(w.sessions, id, name);
    } else {
      HoldersOfUpdate(w.sessions, id, w'.sessions[id], name);
    }
  }

  lemma {:induction false} RunsKeepInv(limits: Limits, steps: seq<Step>)
    requires Exec(limits, steps).Some?
    ensures Inv(limits, Exec(limits, steps).value)
  {
    if steps == [] {
      forall name ensures CountsExact(limits, START, name) {
        assert Holders(START.sessions, name) == {};
      }
    } else {
      var front, s := steps[..|steps| - 1], steps[|steps| - 1];
      RunsKeepInv(limits, front);
      var w := Exec(limits, front).value;
      forall name ensures CountsExact(limits, Do(limits, w, s), name) {
        StepKeepsCount(limits, w, s, name);
      }
    }
  }

  /** In every interleaving the counter of a limited backend equals the number of sessions that are
      dialing, open, or about to give their slot back, and never exceeds the limit. */
  lemma CountersAreExact(limits: Limits, steps: seq<Step>, name: string)
    requires Exec(limits, steps).Some? && Limit(limits, name) >= 1
    ensures var w := Exec(limits, steps).value;
            Count(w.counters, name) == |Holders(w.sessions, name)| <= Limit(limits, name)
  {
    RunsKeepInv(limits, steps);
    assert CountsExact(limits, Exec(limits, steps).value, name);
  }

  /** No slot leaks: once no session but unsuccessful attempts is left, every counter is back to zero. */
  lemma NoSlotLeaks(limits: Limits, steps: seq<Step>, name: string)
    requires Exec(limits, steps).Some?
    requires forall id | id in Exec(limits, steps).value.sessions :: Exec(limits, steps).value.sessions[id].Trying?
    ensures Count(Exec(limits, steps).value.counters, name) == 0
  {
    RunsKeepInv(limits, steps);
    var w := Exec(limits, steps).value;
    assert CountsExact(limits, w, name);
    assert Holders(w.sessions, name) == {};
  }

  /** An attempt is turned away by a limited backend exactly when the backend's slots are all taken. */
  lemma SaturationIsReal(limits: Limits, steps: seq<Step>, id: nat)
    requires Exec(limits, steps).Some? && Enabled(Exec(limits, steps).value, Admit(id))
    requires Limit(limits, Exec(limits, steps).value.sessions[id].rest[0]) >= 1
    ensures var w := Exec(limits, steps).value;
            var name := w.sessions[id].rest[0];
            Do(limits, w, Admit(id)).sessions[id].Trying? <==> |Holders(w.sessions, name)| >= Limit(limits, name)
  {
    CountersAreExact(limits, steps, Exec(limits, steps).value.sessions[id].rest[0]);
  }
}
