/**
 proxyd's batch handler: group, look up the cache, cut into mini-batches, forward, scatter.
 The order in which the batch map is visited is left open (`:|`), so every result holds for all orders.
 */
module BatchServer {
  import opened Common
  import opened JsonRpc
  import opened BatchForward
  import opened BatchGroups
  import opened BatchTraffic

  datatype Outcome = Responses(slots: seq<Option<Res>>, cached: bool) | DeadlineExceeded | Crashed

  datatype Progress = Done | TimedOut | Broken

  predicate Increasing(elems: seq<Elem>) {
    forall i, j | 0 <= i < j < |elems| :: elems[i].index < elems[j].index
  }

  predicate Below(elems: seq<Elem>, n: nat) {
    forall e | e in elems :: e.index < n
  }

  predicate HasIndex(elems: seq<Elem>, k: nat) {
    exists i :: 0 <= i < |elems| && elems[i].index == k
  }

  /** The elements that the cache did not answer. */
  function Misses(elems: seq<Elem>, hits: set<nat>): seq<Elem> {
    if elems == [] then []
    else Misses(elems[..|elems| - 1], hits) +
         if elems[|elems| - 1].index in hits then [] else [elems[|elems| - 1]]
  }

  /** The cache was asked about this very element, and this is what it said: its answer on a hit, else nothing. */
  predicate Consulted(env: Env, looks: seq<Lookup>, e: Elem, hit: bool, slot: Option<Res>) {
    exists l | l in looks :: l.e == e && env.cached(l.t, e.req) == if hit then slot else None
  }

  /** What the call says about the request: what the last backend tried said about it, or, if every backend
      of the group declined, the no-backends error under the request's own ID. */
  predicate SettledBy(env: Env, backends: seq<Backend>, c: Call, req: Req, res: Res) {
    || Told(env, c, req, res)
    || (res == ErrorRes(req.id, Rpc(NO_BACKENDS)) && Exhausted(env, backends, c))
  }

  /** The request was forwarded in one of these calls, and that very call settled it. */
  predicate Settled(env: Env, backends: seq<Backend>, calls: seq<Call>, e: Elem, res: Res) {
    exists c | c in calls :: e in c.elems && SettledBy(env, backends, c, e.req, res)
  }

  /** Slot contents that the handler owes to request k. */
  predicate SlotOk(cfg: Config, env: Env, calls: seq<Call>, looks: seq<Lookup>, c: Class, k: nat, hit: bool,
                   slot: Option<Res>)
    requires ValidConfig(cfg) && (c.Routed? ==> c.group in cfg.groups)
  {
    && slot.Some?
    && match c
       case Direct(r) => slot.value == r
       case Routed(req, group) =>
         && Consulted(env, looks, Elem(req, k), hit, slot)
         && (hit || Settled(env, cfg.groups[group], calls, Elem(req, k), slot.value))
  }

  /** Upstream traffic, whatever became of the batch: each call fits, and the calls of each batch group are the
      first mini-batches of the group's cache misses. */
  ghost predicate Underway(cfg: Config, env: Env, cs: seq<Class>, calls: seq<Call>, hits: set<nat>) {
    && (forall c | c in calls :: c.key in RoutedKeys(cs) && CallFits(cfg, env, c))
    && (forall g | g in RoutedKeys(cs) :: Cut(cfg.maxUpstream, CallsOf(calls, g), Misses(Members(cs, g), hits)))
    && (forall k | k in hits :: k < |cs| && cs[k].Routed?)
  }

  /** Upstream traffic of a batch that was answered: the calls of each batch group are all the mini-batches. */
  ghost predicate Routing(cfg: Config, env: Env, cs: seq<Class>, calls: seq<Call>, hits: set<nat>) {
    && Underway(cfg, env, cs, calls, hits)
    && (forall g | g in RoutedKeys(cs) :: FullCut(cfg.maxUpstream, CallsOf(calls, g), Misses(Members(cs, g), hits)))
  }

  lemma {:induction false} MissesProps(elems: seq<Elem>, hits: set<nat>)
    requires Increasing(elems)
    ensures Increasing(Misses(elems, hits))
    ensures forall e :: e in Misses(elems, hits) <==> e in elems && e.index !in hits
  {
    if elems != [] {
      var front := elems[..|elems| - 1];
      MissesProps(front, hits);
      assert elems == front + [elems[|elems| - 1]];
      var last := elems[|elems| - 1];
      forall e | e in Misses(front, hits) ensures e.index < last.index {
        assert e in front;
      }
    }
  }

  /** Sub-selections of a group keep its distinct IDs. */
  lemma SelectionDistinct(elems: seq<Elem>, part: seq<Elem>)
    requires Increasing(elems) && Increasing(part) && DistinctIds(Reqs(elems))
    requires forall e | e in part :: e in elems
    ensures DistinctIds(Reqs(part))
  {
    forall i, j | 0 <= i < j < |part| ensures part[i].req.id != part[j].req.id {
      assert part[i] in elems && part[j] in elems;
      var a :| 0 <= a < |elems| && elems[a] == part[i];
      var b :| 0 <= b < |elems| && elems[b] == part[j];
      assert a != b;
      assert Reqs(elems)[a] == part[i].req && Reqs(elems)[b] == part[j].req;
    }
  }

  lemma {:induction false} MissesAgree(elems: seq<Elem>, hits: set<nat>, hits': set<nat>)
    requires forall e | e in elems :: e.index in hits <==> e.index in hits'
    ensures Misses(elems, hits) == Misses(elems, hits')
  {
    if elems != [] {
      assert elems[|elems| - 1] in elems;
      MissesAgree(elems[..|elems| - 1], hits, hits');
    }
  }

  // ---- the handler ----

  /** `batches` and `ids` are what the first pass has built after the requests `cs`. */
  ghost predicate Grouped(cs: seq<Class>, batches: map<BatchGroup, seq<Elem>>, ids: map<string, nat>) {
    && (forall g :: Batch(batches, g) == Members(cs, g))
    && (forall g | g in batches :: batches[g] != [])
    && (forall id :: Count(ids, id) == Occurrences(cs, id))
  }

  function Count(ids: map<string, nat>, id: string): nat {
    if id in ids then ids[id] else 0
  }

  function Batch(batches: map<BatchGroup, seq<Elem>>, key: BatchGroup): seq<Elem> {
    if key in batches then batches[key] else []
  }

  /** `batches[key] = append(batches[key], e)` */
  function Append(batches: map<BatchGroup, seq<Elem>>, key: BatchGroup, e: Elem): map<BatchGroup, seq<Elem>> {
    batches[key := Batch(batches, key) + [e]]
  }

  lemma GroupedDirect(cs: seq<Class>, c: Class, batches: map<BatchGroup, seq<Elem>>, ids: map<string, nat>)
    requires Grouped(cs, batches, ids) && c.Direct?
    ensures Grouped(cs + [c], batches, ids)
  {
    assert (cs + [c])[..|cs|] == cs;
  }

  lemma OccurrencesExtend(cs: seq<Class>, c: Class, id: string)
    requires c.Routed?
    ensures Occurrences(cs + [c], id) == Occurrences(cs, id) + if c.req.id == id then 1 else 0
  {
    assert (cs + [c])[..|cs|] == cs;
  }

  lemma MembersExtend(cs: seq<Class>, c: Class, g: BatchGroup)
    requires c.Routed?
    ensures Members(cs + [c], g) == Members(cs, g) +
              if g == BatchGroup(Occurrences(cs, c.req.id) + 1, c.group) then [Elem(c.req, |cs|)] else []
  {
    var cs' := cs + [c];
    assert cs'[..|cs|] == cs && cs'[..|cs| + 1] == cs';
  }

  lemma GroupedRouted(cs: seq<Class>, c: Class, batches: map<BatchGroup, seq<Elem>>, ids: map<string, nat>)
    requires Grouped(cs, batches, ids) && c.Routed?
    ensures var n := Count(ids, c.req.id) + 1;
            Grouped(cs + [c], Append(batches, BatchGroup(n, c.group), Elem(c.req, |cs|)), ids[c.req.id := n])
  {
    var n := Count(ids, c.req.id) + 1;
    var batches' := Append(batches, BatchGroup(n, c.group), Elem(c.req, |cs|));
    assert n == Occurrences(cs, c.req.id) + 1;
    forall g ensures Batch(batches', g) == Members(cs + [c], g) {
      MembersExtend(cs, c, g);
    }
    forall id ensures Count(ids[c.req.id := n], id) == Occurrences(cs + [c], id) {
      OccurrencesExtend(cs, c, id);
    }
  }

  /** The batch map holds exactly the groups of the routed requests, each with all its members in order. */
  predicate IsPartition(cs: seq<Class>, batches: map<BatchGroup, seq<Elem>>) {
    batches.Keys == RoutedKeys(cs) && forall g | g in batches :: batches[g] == Members(cs, g)
  }

  /** The groups built are exactly those of the routed requests. */
  lemma GroupedKeys(cs: seq<Class>, batches: map<BatchGroup, seq<Elem>>, ids: map<string, nat>)
    requires Grouped(cs, batches, ids)
    ensures IsPartition(cs, batches)
  {
    forall g | g in batches ensures g in RoutedKeys(cs) {
      MembersSound(cs, g);
      assert batches[g][0] in Members(cs, g);
    }
    forall k: nat | k < |cs| && cs[k].Routed? ensures KeyOf(cs, k) in batches {
      MembersComplete(cs, k);
    }
  }

  /** Every answer that proxyd gives itself is in its slot. */
  predicate DirectFiled(cs: seq<Class>, slots: seq<Option<Res>>) {
    |slots| == |cs| && forall k | 0 <= k < |cs| && cs[k].Direct? :: slots[k] == Some(cs[k].res)
  }

  /** The state of the first pass after i requests. */
  ghost predicate FirstPass(cs: seq<Class>, i: nat, batches: map<BatchGroup, seq<Elem>>, ids: map<string, nat>,
                            slots: seq<Option<Res>>)
  {
    i <= |cs| == |slots| && Grouped(cs[..i], batches, ids) && DirectFiled(cs[..i], slots[..i])
  }

  lemma FirstPassDirect(cs: seq<Class>, i: nat, batches: map<BatchGroup, seq<Elem>>, ids: map<string, nat>,
                        slots: seq<Option<Res>>)
    requires i < |cs| && FirstPass(cs, i, batches, ids, slots) && cs[i].Direct?
    ensures FirstPass(cs, i + 1, batches, ids, slots[i := Some(cs[i].res)])
  {
    assert cs[..i + 1] == cs[..i] + [cs[i]];
    GroupedDirect(cs[..i], cs[i], batches, ids);
  }

  lemma FirstPassRouted(cs: seq<Class>, i: nat, batches: map<BatchGroup, seq<Elem>>, ids: map<string, nat>,
                        slots: seq<Option<Res>>)
    requires i < |cs| && FirstPass(cs, i, batches, ids, slots) && cs[i].Routed?
    ensures var n := Count(ids, cs[i].req.id) + 1;
            FirstPass(cs, i + 1, Append(batches, BatchGroup(n, cs[i].group), Elem(cs[i].req, i)),
                      ids[cs[i].req.id := n], slots)
  {
    assert cs[..i + 1] == cs[..i] + [cs[i]];
    GroupedRouted(cs[..i], cs[i], batches, ids);
  }

  lemma FirstPassDone(cs: seq<Class>, batches: map<BatchGroup, seq<Elem>>, ids: map<string, nat>,
                      slots: seq<Option<Res>>)
    requires FirstPass(cs, |cs|, batches, ids, slots)
    ensures IsPartition(cs, batches) && DirectFiled(cs, slots)
  {
    assert cs[..|cs|] == cs && slots[..|cs|] == slots;
    GroupedKeys(cs, batches, ids);
  }

  lemma FirstPassStart(cs: seq<Class>, slots: seq<Option<Res>>)
    requires |cs| == |slots|
    ensures FirstPass(cs, 0, map[], map[], slots)
  {
    assert cs[..0] == [];
  }

  /** One request of the first pass. */
  method SortNext(cfg: Config, env: Env, raw: string, i: nat, batches: map<BatchGroup, seq<Elem>>,
                  ids: map<string, nat>, slots: array<Option<Res>>, ghost cs: seq<Class>)
    returns (batches': map<BatchGroup, seq<Elem>>, ids': map<string, nat>)
    requires i < slots.Length == |cs| && cs[i] == Classify(cfg, env, raw)
    requires FirstPass(cs, i, batches, ids, slots[..])
    modifies slots
    ensures FirstPass(cs, i + 1, batches', ids', slots[..])
  {
    ghost var before := slots[..];
    batches', ids' := batches, ids;
    match Classify(cfg, env, raw)
    case Direct(res) =>
      FirstPassDirect(cs, i, batches, ids, before);
      slots[i] := Some(res);
      assert slots[..] == before[i := Some(res)];
    case Routed(req, group) =>
      FirstPassRouted(cs, i, batches, ids, before);
      var n := Count(ids, req.id) + 1;
      ids' := ids[req.id := n];
      batches' := Append(batches, BatchGroup(n, group), Elem(req, i));
  }

  /** The loop of the first pass. */
  method SortIntoGroups(cfg: Config, env: Env, raws: seq<string>, slots: array<Option<Res>>)
    returns (batches: map<BatchGroup, seq<Elem>>, ids: map<string, nat>)
    requires slots.Length == |raws|
    modifies slots
    ensures FirstPass(Classes(cfg, env, raws), |raws|, batches, ids, slots[..])
  {
    ghost var cs := Classes(cfg, env, raws);
    batches, ids := map[], map[];
    FirstPassStart(cs, slots[..]);
    for i := 0 to |raws|
      invariant FirstPass(cs, i, batches, ids, slots[..])
    {
      batches, ids := SortNext(cfg, env, raws[i], i, batches, ids, slots, cs);
    }
  }

  /** First pass: answer what needs no backend, and sort the rest into batch groups. */
  method GroupRequests(cfg: Config, env: Env, raws: seq<string>, slots: array<Option<Res>>)
    returns (batches: map<BatchGroup, seq<Elem>>)
    requires slots.Length == |raws|
    modifies slots
    ensures IsPartition(Classes(cfg, env, raws), batches)
    ensures DirectFiled(Classes(cfg, env, raws), slots[..])
  {
    var ids;
    batches, ids := SortIntoGroups(cfg, env, raws, slots);
    FirstPassDone(Classes(cfg, env, raws), batches, ids, slots[..]);
  }

  /** One more element looked up in the cache. */
  lemma MissesStep(batch: seq<Elem>, i: nat, hits: set<nat>, hit: bool)
    requires Increasing(batch) && i < |batch|
    requires forall k | k in hits :: HasIndex(batch[..i], k)
    ensures batch[i].index !in hits
    ensures var hits' := if hit then hits + {batch[i].index} else hits;
            && Misses(batch[..i + 1], hits') == Misses(batch[..i], hits) + (if hit then [] else [batch[i]])
            && forall k | k in hits' :: HasIndex(batch[..i + 1], k)
  {
    var hits' := if hit then hits + {batch[i].index} else hits;
    assert batch[..i + 1][..i] == batch[..i];
    MissesAgree(batch[..i], hits, hits');
    forall k | k in hits' ensures HasIndex(batch[..i + 1], k) {
      if k in hits {
        var j :| 0 <= j < |batch[..i]| && batch[..i][j].index == k;
        assert batch[..i + 1][j].index == k;
      } else {
        assert batch[..i + 1][i].index == k;
      }
    }
  }

  /** The lookups of these elements, one after the other from time t on. */
  function LookupsFrom(elems: seq<Elem>, t: nat): seq<Lookup> {
    seq(|elems|, i requires 0 <= i < |elems| => Lookup(t + i, elems[i]))
  }

  /** The hits are exactly the elements that the cache, asked in turn from time t on, answered, and each has
      that answer in its slot. */
  predicate CacheFiled(env: Env, t: nat, elems: seq<Elem>, hits: set<nat>, slots: seq<Option<Res>>)
    requires Below(elems, |slots|)
  {
    forall i | 0 <= i < |elems| ::
      && (elems[i].index in hits <==> env.cached(t + i, elems[i].req).Some?)
      && (elems[i].index in hits ==> slots[elems[i].index] == env.cached(t + i, elems[i].req))
  }

  lemma CacheFiledStep(env: Env, t: nat, batch: seq<Elem>, i: nat, hits: set<nat>, slots: seq<Option<Res>>)
    requires Increasing(batch) && Below(batch, |slots|) && i < |batch|
    requires CacheFiled(env, t, batch[..i], hits, slots) && batch[i].index !in hits
    ensures var e := batch[i]; var res := env.cached(t + i, e.req);
            if res.Some? then CacheFiled(env, t, batch[..i + 1], hits + {e.index}, slots[e.index := res])
            else CacheFiled(env, t, batch[..i + 1], hits, slots)
    ensures LookupsFrom(batch[..i + 1], t) == LookupsFrom(batch[..i], t) + [Lookup(t + i, batch[i])]
  {
    assert forall j | 0 <= j < i :: batch[..i + 1][j] == batch[..i][j] && batch[j].index < batch[i].index;
  }

  /** The state of the second pass over slots that began as `start`, once these elements have been looked up. */
  predicate SecondPass(env: Env, t: nat, elems: seq<Elem>, hits: set<nat>, misses: seq<Elem>,
                       start: seq<Option<Res>>, slots: seq<Option<Res>>)
    requires Below(elems, |slots|) && |start| == |slots|
  {
    && misses == Misses(elems, hits)
    && (forall k | k in hits :: HasIndex(elems, k))
    && CacheFiled(env, t, elems, hits, slots)
    && (forall k | 0 <= k < |slots| && k !in hits :: slots[k] == start[k])
  }

  lemma SecondPassStep(env: Env, t: nat, batch: seq<Elem>, i: nat, hits: set<nat>, misses: seq<Elem>,
                       start: seq<Option<Res>>, slots: seq<Option<Res>>)
    requires Increasing(batch) && Below(batch, |slots|) && i < |batch| && |start| == |slots|
    requires SecondPass(env, t, batch[..i], hits, misses, start, slots)
    ensures var e := batch[i]; var res := env.cached(t + i, e.req);
            if res.Some? then SecondPass(env, t, batch[..i + 1], hits + {e.index}, misses, start, slots[e.index := res])
            else SecondPass(env, t, batch[..i + 1], hits, misses + [e], start, slots)
    ensures LookupsFrom(batch[..i + 1], t) == LookupsFrom(batch[..i], t) + [Lookup(t + i, batch[i])]
  {
    var res := env.cached(t + i, batch[i].req);
    MissesStep(batch, i, hits, res.Some?);
    CacheFiledStep(env, t, batch, i, hits, slots);
  }

  /** Looks up one element and files a hit. */
  method LookUp(out: Outside, e: Elem, slots: array<Option<Res>>) returns (hit: bool)
    requires e.index < slots.Length
    modifies slots, out`now, out`lookups
    ensures out.now == old(out.now) + 1 && out.lookups == old(out.lookups) + [Lookup(old(out.now), e)]
    ensures var res := out.env.cached(old(out.now), e.req);
            hit == res.Some? && slots[..] == if hit then old(slots[..])[e.index := res] else old(slots[..])
  {
    var res := out.AskCache(e.req, e.index);
    hit := res.Some?;
    if hit {
      slots[e.index] := res;
    }
  }

  /** Second pass, one group: answer from the cache what it knows. */
  method SplitByCache(out: Outside, batch: seq<Elem>, slots: array<Option<Res>>)
    returns (misses: seq<Elem>, cached: bool, ghost hits: set<nat>)
    requires Increasing(batch) && Below(batch, slots.Length)
    modifies slots, out`now, out`lookups
    ensures out.lookups == old(out.lookups) + LookupsFrom(batch, old(out.now)) && out.now >= old(out.now)
    ensures SecondPass(out.env, old(out.now), batch, hits, misses, old(slots[..]), slots[..])
    ensures cached <==> hits != {}
  {
    ghost var t, start, looked := out.now, slots[..], out.lookups;
    misses, cached, hits := [], false, {};
    for i := 0 to |batch|
      invariant out.now == t + i && out.lookups == looked + LookupsFrom(batch[..i], t)
      invariant SecondPass(out.env, t, batch[..i], hits, misses, start, slots[..])
      invariant cached <==> hits != {}
    {
      var e := batch[i];
      assert e in batch;
      SecondPassStep(out.env, t, batch, i, hits, misses, start, slots[..]);
      ConcatAssociates(looked, LookupsFrom(batch[..i], t), [Lookup(out.now, e)]);
      var hit := LookUp(out, e, slots);
      if hit {
        cached := true;
        hits := hits + {e.index};
      } else {
        misses := misses + [e];
      }
    }
    assert batch[..|batch|] == batch;
  }

  /** Writes each answer into the slot of its request. */
  method Scatter(elems: seq<Elem>, res: seq<Res>, slots: array<Option<Res>>)
    requires Increasing(elems) && Below(elems, slots.Length) && |res| == |elems|
    modifies slots
    ensures forall i | 0 <= i < |elems| :: slots[elems[i].index] == Some(res[i])
    ensures forall k | 0 <= k < slots.Length && !HasIndex(elems, k) :: slots[k] == old(slots[k])
  {
    for n := 0 to |elems|
      invariant forall i | 0 <= i < n :: slots[elems[i].index] == Some(res[i])
      invariant forall k | 0 <= k < slots.Length && !HasIndex(elems, k) :: slots[k] == old(slots[k])
    {
      assert elems[n] in elems;
      slots[elems[n].index] := Some(res[n]);
    }
  }

  /** Forwards one mini-batch and files its answers, or the forwarding error under each request's ID. */
  method ForwardMiniBatch(cfg: Config, out: Outside, g: BatchGroup, elems: seq<Elem>, slots: array<Option<Res>>)
    returns (ok: bool, ghost c: Call)
    requires out.Valid() && g.backendGroup in cfg.groups
    requires Increasing(elems) && Below(elems, slots.Length)
    modifies slots, out`now, out`posts, out`calls
    ensures out.Valid() && out.calls == old(out.calls) + [c]
    ensures c.key == g && c.elems == elems && Orderly(out.env, cfg.groups[g.backendGroup], c)
    ensures c.t == old(out.now) <= out.now
    ensures Honest(out.env) && DistinctIds(Reqs(elems)) ==> ok
    ensures ok ==> forall e | e in elems :: slots[e.index].Some?
    ensures ok && Honest(out.env) && DistinctIds(Reqs(elems)) ==>
              forall e | e in elems :: SettledBy(out.env, cfg.groups[g.backendGroup], c, e.req, slots[e.index].value)
    ensures forall k | 0 <= k < slots.Length && !HasIndex(elems, k) :: slots[k] == old(slots[k])
  {
    var reqs := Reqs(elems);
    var reply;
    reply, c := GroupForward(out, cfg.groups, g.backendGroup, reqs, g, elems);
    if reply.Panicked? { return false, c; }
    var res := if reply.Answers? then reply.res
               else seq(|elems|, i requires 0 <= i < |elems| => ErrorRes(elems[i].req.id, reply.failure));
    Scatter(elems, res, slots);
    ok := true;
    forall e | e in elems ensures slots[e.index].Some? {
      var i :| 0 <= i < |elems| && elems[i] == e;
    }
    if Honest(out.env) && DistinctIds(reqs) {
      forall e | e in elems ensures SettledBy(out.env, cfg.groups[g.backendGroup], c, e.req, slots[e.index].value) {
        var i :| 0 <= i < |elems| && elems[i] == e;
        assert slots[e.index] == Some(res[i]) && reqs[i] == e.req;
      }
    }
  }

  /** A contiguous part of a list with increasing indices and distinct IDs. */
  lemma SliceProps(elems: seq<Elem>, lo: nat, hi: nat)
    requires lo <= hi <= |elems| && Increasing(elems)
    ensures Increasing(elems[lo..hi])
    ensures forall n | Below(elems, n) :: Below(elems[lo..hi], n)
    ensures DistinctIds(Reqs(elems)) ==> DistinctIds(Reqs(elems[lo..hi]))
    ensures forall i | 0 <= i < |elems| && !(lo <= i < hi) :: !HasIndex(elems[lo..hi], elems[i].index)
    ensures forall k | !HasIndex(elems, k) :: !HasIndex(elems[lo..hi], k)
  {
    var part := elems[lo..hi];
    assert forall i | 0 <= i < |part| :: part[i] == elems[lo + i] && Reqs(part)[i] == Reqs(elems)[lo + i];
  }

  /** Every element has a response in its slot, the right one if backends are honest. */
  ghost predicate Filed(env: Env, backends: seq<Backend>, calls: seq<Call>, elems: seq<Elem>, slots: seq<Option<Res>>)
    requires Below(elems, |slots|)
  {
    && (forall e | e in elems :: slots[e.index].Some?)
    && (Honest(env) ==> forall e | e in elems :: Settled(env, backends, calls, e, slots[e.index].value))
  }

  lemma SettledMore(env: Env, backends: seq<Backend>, calls: seq<Call>, more: seq<Call>, e: Elem, res: Res)
    requires Settled(env, backends, calls, e, res) || Settled(env, backends, more, e, res)
    ensures Settled(env, backends, calls + more, e, res)
  {
    var c :| (c in calls || c in more) && e in c.elems && SettledBy(env, backends, c, e.req, res);
    assert c in calls + more;
  }

  /** Filing a further part in one more call leaves the earlier one filed. */
  lemma FiledMore(env: Env, backends: seq<Backend>, calls: seq<Call>, c: Call, elems: seq<Elem>, lo: nat, hi: nat,
                  before: seq<Option<Res>>, after: seq<Option<Res>>)
    requires |before| == |after| && Increasing(elems) && Below(elems, |after|) && lo <= hi <= |elems|
    requires Filed(env, backends, calls, elems[..lo], before) && c.elems == elems[lo..hi]
    requires forall e | e in elems[lo..hi] ::
               after[e.index].Some? && (Honest(env) ==> SettledBy(env, backends, c, e.req, after[e.index].value))
    requires forall k | 0 <= k < |after| && !HasIndex(elems[lo..hi], k) :: after[k] == before[k]
    ensures Filed(env, backends, calls + [c], elems[..hi], after)
  {
    SliceProps(elems, lo, hi);
    forall e | e in elems[..hi]
      ensures after[e.index].Some? && (Honest(env) ==> Settled(env, backends, calls + [c], e, after[e.index].value))
    {
      var j :| 0 <= j < hi && elems[j] == e;
      if j < lo {
        assert e in elems[..lo];
        assert after[e.index] == before[e.index];
        if Honest(env) { SettledMore(env, backends, calls, [c], e, after[e.index].value); }
      } else {
        assert elems[lo..hi][j - lo] == e;
        if Honest(env) {
          assert c in [c];
          SettledMore(env, backends, calls, [c], e, after[e.index].value);
        }
      }
    }
  }

  /** What has been sent for one group: fitting calls, which are the first mini-batches of its misses. */
  predicate GroupTraffic(cfg: Config, env: Env, g: BatchGroup, calls: seq<Call>, misses: seq<Elem>) {
    CallsFit(cfg, env, calls, g) && Cut(cfg.maxUpstream, calls, misses)
  }

  lemma NextCall(cfg: Config, env: Env, calls: seq<Call>, g: BatchGroup, misses: seq<Elem>, lo: nat, hi: nat, c: Call)
    requires GroupTraffic(cfg, env, g, calls, misses) && |calls| < NumBatches(|misses|, cfg.maxUpstream)
    requires lo == Offset(|misses|, cfg.maxUpstream, |calls|) && hi == Offset(|misses|, cfg.maxUpstream, |calls| + 1)
    requires lo < hi <= |misses| && hi - lo <= cfg.maxUpstream && Increasing(misses) && DistinctIds(Reqs(misses))
    requires c.key == g && c.elems == misses[lo..hi]
    requires g.backendGroup in cfg.groups && Orderly(env, cfg.groups[g.backendGroup], c)
    ensures GroupTraffic(cfg, env, g, calls + [c], misses)
  {
    SliceProps(misses, lo, hi);
    CutMore(cfg.maxUpstream, calls, misses, c);
  }

  /** Forwards the mini-batch misses[lo..hi] when those before it are filed. */
  method ForwardChunk(cfg: Config, out: Outside, g: BatchGroup, misses: seq<Elem>, lo: nat, hi: nat,
                      slots: array<Option<Res>>, ghost calls: seq<Call>)
    returns (ok: bool, ghost c: Call)
    requires out.Valid() && Increasing(misses) && Below(misses, slots.Length) && DistinctIds(Reqs(misses))
    requires lo < hi <= |misses| && g.backendGroup in cfg.groups
    requires Filed(out.env, cfg.groups[g.backendGroup], calls, misses[..lo], slots[..])
    modifies slots, out`now, out`posts, out`calls
    ensures out.Valid() && out.calls == old(out.calls) + [c]
    ensures c.key == g && c.elems == misses[lo..hi] && Orderly(out.env, cfg.groups[g.backendGroup], c)
    ensures c.t == old(out.now) <= out.now
    ensures Honest(out.env) ==> ok
    ensures ok ==> Filed(out.env, cfg.groups[g.backendGroup], calls + [c], misses[..hi], slots[..])
    ensures forall k | 0 <= k < slots.Length && !HasIndex(misses, k) :: slots[k] == old(slots[k])
  {
    ghost var before := slots[..];
    SliceProps(misses, lo, hi);
    ok, c := ForwardMiniBatch(cfg, out, g, misses[lo..hi], slots);
    if ok {
      FiledMore(out.env, cfg.groups[g.backendGroup], calls, c, misses, lo, hi, before, slots[..]);
    }
  }

  /** Checks the deadline and then forwards the mini-batch misses[lo..hi]; if the deadline has passed, forwards
      nothing. */
  method ForwardNext(cfg: Config, out: Outside, g: BatchGroup, misses: seq<Elem>, lo: nat, hi: nat,
                     slots: array<Option<Res>>, ghost calls: seq<Call>)
    returns (p: Progress, ghost more: seq<Call>)
    requires out.Valid() && Increasing(misses) && Below(misses, slots.Length) && DistinctIds(Reqs(misses))
    requires lo < hi <= |misses| && g.backendGroup in cfg.groups
    requires Filed(out.env, cfg.groups[g.backendGroup], calls, misses[..lo], slots[..])
    modifies slots, out`now, out`posts, out`calls, out`checks
    ensures out.Valid() && out.calls == old(out.calls) + more && out.now >= old(out.now)
    ensures Honest(out.env) ==> !p.Broken?
    ensures p.TimedOut? ==> more == [] && CutShort(out.env, old(out.now), old(out.checks), out.checks, more)
    ensures !p.TimedOut? ==> |more| == 1 && Paced(out.env, old(out.checks), out.checks, more)
    ensures !p.TimedOut? ==> more[0].key == g && more[0].elems == misses[lo..hi]
    ensures AllBefore(more, out.now)
    ensures !p.TimedOut? ==> Orderly(out.env, cfg.groups[g.backendGroup], more[0])
    ensures p.Done? ==> Filed(out.env, cfg.groups[g.backendGroup], calls + more, misses[..hi], slots[..])
    ensures forall k | 0 <= k < slots.Length && !HasIndex(misses, k) :: slots[k] == old(slots[k])
  {
    ghost var before := out.checks;
    var past := out.PastDeadline();
    if past {
      assert out.checks[..|out.checks| - 1] == before;
      return TimedOut, [];
    }
    var ok;
    ghost var c;
    ok, c := ForwardChunk(cfg, out, g, misses, lo, hi, slots, calls);
    return if ok then Done else Broken, [c];
  }

  /** The third pass over one group has made these calls, and the first of the misses are filed. */
  ghost predicate ThirdPass(cfg: Config, env: Env, g: BatchGroup, calls: seq<Call>, misses: seq<Elem>,
                            slots: seq<Option<Res>>)
    requires Below(misses, |slots|) && g.backendGroup in cfg.groups
  {
    && GroupTraffic(cfg, env, g, calls, misses)
    && Filed(env, cfg.groups[g.backendGroup], calls, misses[..Offset(|misses|, cfg.maxUpstream, |calls|)], slots)
  }

  /** One more mini-batch of the cut, unless the deadline has passed. */
  method ForwardCut(cfg: Config, out: Outside, g: BatchGroup, misses: seq<Elem>, i: nat, slots: array<Option<Res>>,
                    ghost calls: seq<Call>)
    returns (p: Progress, ghost more: seq<Call>)
    requires out.Valid() && cfg.maxUpstream >= 1 && g.backendGroup in cfg.groups
    requires Increasing(misses) && Below(misses, slots.Length) && DistinctIds(Reqs(misses))
    requires |calls| == i < NumBatches(|misses|, cfg.maxUpstream)
    requires ThirdPass(cfg, out.env, g, calls, misses, slots[..])
    modifies slots, out`now, out`posts, out`calls, out`checks
    ensures out.Valid() && out.calls == old(out.calls) + more
    ensures out.now >= old(out.now) && AllBefore(more, out.now)
    ensures Honest(out.env) ==> !p.Broken?
    ensures p.TimedOut? ==> more == [] && CutShort(out.env, old(out.now), old(out.checks), out.checks, more)
    ensures !p.TimedOut? ==> |more| == 1 && Paced(out.env, old(out.checks), out.checks, more)
    ensures GroupTraffic(cfg, out.env, g, calls + more, misses)
    ensures p.Done? ==> ThirdPass(cfg, out.env, g, calls + more, misses, slots[..])
    ensures forall k | 0 <= k < slots.Length && !HasIndex(misses, k) :: slots[k] == old(slots[k])
  {
    var start, end := ChunkRange(|misses|, cfg.maxUpstream, i);
    p, more := ForwardNext(cfg, out, g, misses, start, end, slots, calls);
    ThirdPassMore(cfg, out.env, g, calls, more, misses, start, end);
  }

  lemma ThirdPassMore(cfg: Config, env: Env, g: BatchGroup, calls: seq<Call>, more: seq<Call>, misses: seq<Elem>,
                      lo: nat, hi: nat)
    requires GroupTraffic(cfg, env, g, calls, misses) && |calls| < NumBatches(|misses|, cfg.maxUpstream)
    requires lo == Offset(|misses|, cfg.maxUpstream, |calls|) && hi == Offset(|misses|, cfg.maxUpstream, |calls| + 1)
    requires lo < hi <= |misses| && hi - lo <= cfg.maxUpstream && Increasing(misses) && DistinctIds(Reqs(misses))
    requires g.backendGroup in cfg.groups && |more| <= 1
    requires more != [] ==> more[0].key == g && more[0].elems == misses[lo..hi]
    requires more != [] ==> Orderly(env, cfg.groups[g.backendGroup], more[0])
    ensures GroupTraffic(cfg, env, g, calls + more, misses)
    ensures more != [] ==> Offset(|misses|, cfg.maxUpstream, |calls + more|) == hi
  {
    if more == [] {
      assert calls + more == calls;
    } else {
      assert more == [more[0]];
      NextCall(cfg, env, calls, g, misses, lo, hi, more[0]);
    }
  }

  /** Third pass, one group: forward the misses in mini-batches. */
  method ForwardMisses(cfg: Config, out: Outside, g: BatchGroup, misses: seq<Elem>, slots: array<Option<Res>>)
    returns (p: Progress, ghost calls: seq<Call>)
    requires out.Valid() && ValidConfig(cfg) && g.backendGroup in cfg.groups
    requires Increasing(misses) && Below(misses, slots.Length) && DistinctIds(Reqs(misses))
    modifies slots, out`now, out`posts, out`calls, out`checks
    ensures out.Valid() && out.calls == old(out.calls) + calls
    ensures out.now >= old(out.now) && AllBefore(calls, out.now)
    ensures Honest(out.env) ==> !p.Broken?
    ensures p.TimedOut? ==> CutShort(out.env, old(out.now), old(out.checks), out.checks, calls)
    ensures !p.TimedOut? ==> Paced(out.env, old(out.checks), out.checks, calls)
    ensures GroupTraffic(cfg, out.env, g, calls, misses)
    ensures p.Done? ==> FullCut(cfg.maxUpstream, calls, misses)
    ensures p.Done? ==> Filed(out.env, cfg.groups[g.backendGroup], calls, misses, slots[..])
    ensures forall k | 0 <= k < slots.Length && !HasIndex(misses, k) :: slots[k] == old(slots[k])
  {
    calls := [];
    var numBatches := NumBatches(|misses|, cfg.maxUpstream);
    ChunksCover(|misses|, cfg.maxUpstream);
    for i := 0 to numBatches
      invariant out.Valid() && out.calls == old(out.calls) + calls && |calls| == i
      invariant out.now >= old(out.now) && AllBefore(calls, out.now)
      invariant Paced(out.env, old(out.checks), out.checks, calls)
      invariant ThirdPass(cfg, out.env, g, calls, misses, slots[..])
      invariant forall k | 0 <= k < slots.Length && !HasIndex(misses, k) :: slots[k] == old(slots[k])
    {
      ghost var checked, now, more := out.checks, out.now, [];
      p, more := ForwardCut(cfg, out, g, misses, i, slots, calls);
      ConcatAssociates(old(out.calls), calls, more);
      if p.TimedOut? {
        CutShortMore(out.env, old(out.now), now, old(out.checks), checked, out.checks, calls, more);
      } else {
        PacedMore(out.env, old(out.checks), checked, out.checks, calls, more);
      }
      AllBeforeMore(calls, now, more, out.now);
      calls := calls + more;
      if !p.Done? { return; }
    }
    assert misses[..|misses|] == misses;
    p := Done;
  }

  /** What the handler owes the elements of one processed group. */
  ghost predicate GroupDone(env: Env, backends: seq<Backend>, calls: seq<Call>, looks: seq<Lookup>, batch: seq<Elem>,
                            hits: set<nat>, slots: seq<Option<Res>>)
    requires Below(batch, |slots|)
  {
    forall e | e in batch ::
      && slots[e.index].Some?
      && Consulted(env, looks, e, e.index in hits, slots[e.index])
      && (e.index !in hits ==> Honest(env) ==> Settled(env, backends, calls, e, slots[e.index].value))
  }

  /** Processing group g turned the slots `before` into `after`, looked up `looks`, sent `calls` and found `hits`
      in the cache. */
  ghost predicate GroupStep(cfg: Config, env: Env, g: BatchGroup, batch: seq<Elem>, before: seq<Option<Res>>,
                            after: seq<Option<Res>>, calls: seq<Call>, looks: seq<Lookup>, hits: set<nat>)
  {
    && |before| == |after| && g.backendGroup in cfg.groups && Below(batch, |after|)
    && GroupDone(env, cfg.groups[g.backendGroup], calls, looks, batch, hits, after)
    && GroupTraffic(cfg, env, g, calls, Misses(batch, hits)) && FullCut(cfg.maxUpstream, calls, Misses(batch, hits))
    && (forall k | k in hits :: HasIndex(batch, k))
    && (forall k | 0 <= k < |after| && !HasIndex(batch, k) :: after[k] == before[k])
  }

  /** Element i was looked up, whether the cache knew it or not. */
  lemma ElemConsulted(env: Env, t: nat, batch: seq<Elem>, hits: set<nat>, mid: seq<Option<Res>>, i: nat,
                      slot: Option<Res>)
    requires i < |batch| && Below(batch, |mid|) && CacheFiled(env, t, batch, hits, mid)
    requires batch[i].index in hits ==> slot == mid[batch[i].index]
    ensures Consulted(env, LookupsFrom(batch, t), batch[i], batch[i].index in hits, slot)
  {
    var l := LookupsFrom(batch, t)[i];
    assert l in LookupsFrom(batch, t) && l == Lookup(t + i, batch[i]);
  }

  /** Cache answers and forwarded answers together are what the group is owed. */
  lemma GroupIsDone(env: Env, backends: seq<Backend>, t: nat, calls: seq<Call>, batch: seq<Elem>, hits: set<nat>,
                    misses: seq<Elem>, mid: seq<Option<Res>>, after: seq<Option<Res>>)
    requires |mid| == |after| && Below(batch, |after|) && CacheFiled(env, t, batch, hits, mid)
    requires Below(misses, |after|) && Filed(env, backends, calls, misses, after)
    requires forall e | e in batch :: e in misses || (e.index in hits && after[e.index] == mid[e.index])
    requires forall e | e in misses :: e.index !in hits
    ensures GroupDone(env, backends, calls, LookupsFrom(batch, t), batch, hits, after)
  {
    forall e | e in batch
      ensures after[e.index].Some? && Consulted(env, LookupsFrom(batch, t), e, e.index in hits, after[e.index])
      ensures e.index !in hits ==> Honest(env) ==> Settled(env, backends, calls, e, after[e.index].value)
    {
      var i :| 0 <= i < |batch| && batch[i] == e;
      ElemConsulted(env, t, batch, hits, mid, i, after[e.index]);
    }
  }

  /** Every element is a miss, or a hit whose slot the misses leave alone. */
  lemma MissOrHit(batch: seq<Elem>, hits: set<nat>, mid: seq<Option<Res>>, after: seq<Option<Res>>)
    requires Increasing(batch) && |mid| == |after| && Below(batch, |after|)
    requires forall k | 0 <= k < |after| && !HasIndex(Misses(batch, hits), k) :: after[k] == mid[k]
    ensures forall e | e in batch :: e in Misses(batch, hits) || (e.index in hits && after[e.index] == mid[e.index])
    ensures forall e | e in Misses(batch, hits) :: e.index !in hits
  {
    MissesProps(batch, hits);
    MissIndices(batch, hits);
  }

  /** The misses of a group can be forwarded. */
  lemma MissesReady(batch: seq<Elem>, hits: set<nat>, n: nat)
    requires Increasing(batch) && Below(batch, n) && DistinctIds(Reqs(batch))
    ensures var misses := Misses(batch, hits); Increasing(misses) && Below(misses, n) && DistinctIds(Reqs(misses))
  {
    MissesProps(batch, hits);
    SelectionDistinct(batch, Misses(batch, hits));
  }

  /** What the two passes over a group did, put together. */
  lemma GroupStepped(cfg: Config, env: Env, g: BatchGroup, batch: seq<Elem>, t: nat, hits: set<nat>, misses: seq<Elem>,
                     calls: seq<Call>, before: seq<Option<Res>>, mid: seq<Option<Res>>, after: seq<Option<Res>>)
    requires |before| == |mid| == |after| && Increasing(batch) && Below(batch, |after|)
    requires SecondPass(env, t, batch, hits, misses, before, mid)
    requires Below(misses, |after|) && g.backendGroup in cfg.groups && FullCut(cfg.maxUpstream, calls, misses)
    requires GroupTraffic(cfg, env, g, calls, misses) && Filed(env, cfg.groups[g.backendGroup], calls, misses, after)
    requires forall k | 0 <= k < |after| && !HasIndex(misses, k) :: after[k] == mid[k]
    ensures GroupStep(cfg, env, g, batch, before, after, calls, LookupsFrom(batch, t), hits)
  {
    MissOrHit(batch, hits, mid, after);
    MissIndices(batch, hits);
    GroupIsDone(env, cfg.groups[g.backendGroup], t, calls, batch, hits, misses, mid, after);
  }

  /** The body of the loop over the batch map. */
  method ProcessGroup(cfg: Config, out: Outside, g: BatchGroup, batch: seq<Elem>, slots: array<Option<Res>>)
    returns (p: Progress, cached: bool, ghost calls: seq<Call>, ghost looks: seq<Lookup>, ghost hits: set<nat>)
    requires out.Valid() && ValidConfig(cfg) && g.backendGroup in cfg.groups
    requires Increasing(batch) && Below(batch, slots.Length) && DistinctIds(Reqs(batch))
    modifies slots, out
    ensures out.Valid() && out.calls == old(out.calls) + calls && out.lookups == old(out.lookups) + looks
    ensures out.now >= old(out.now) && AllBefore(calls, out.now)
    ensures Honest(out.env) ==> !p.Broken?
    ensures p.TimedOut? ==> CutShort(out.env, old(out.now), old(out.checks), out.checks, calls)
    ensures !p.TimedOut? ==> Paced(out.env, old(out.checks), out.checks, calls)
    ensures GroupTraffic(cfg, out.env, g, calls, Misses(batch, hits))
    ensures forall k | k in hits :: HasIndex(batch, k)
    ensures p.Done? ==> GroupStep(cfg, out.env, g, batch, old(slots[..]), slots[..], calls, looks, hits)
    ensures cached <==> hits != {}
  {
    ghost var t, before := out.now, slots[..];
    var misses;
    misses, cached, hits := SplitByCache(out, batch, slots);
    looks := LookupsFrom(batch, t);
    ghost var mid := slots[..];
    MissesReady(batch, hits, slots.Length);
    p, calls := ForwardMisses(cfg, out, g, misses, slots);
    if p.Done? {
      GroupStepped(cfg, out.env, g, batch, t, hits, misses, calls, before, mid, slots[..]);
    }
  }

  lemma MissIndices(batch: seq<Elem>, hits: set<nat>)
    requires Increasing(batch)
    ensures forall k | HasIndex(Misses(batch, hits), k) :: HasIndex(batch, k) && k !in hits
  {
    MissesProps(batch, hits);
    var misses := Misses(batch, hits);
    forall k | HasIndex(misses, k) ensures HasIndex(batch, k) && k !in hits {
      var i :| 0 <= i < |misses| && misses[i].index == k;
      assert misses[i] in batch;
    }
  }

  predicate GroupsExist(cfg: Config, cs: seq<Class>) {
    forall k | 0 <= k < |cs| && cs[k].Routed? :: cs[k].group in cfg.groups
  }

  predicate Ready(cs: seq<Class>, done: set<BatchGroup>, k: nat)
    requires k < |cs|
  {
    cs[k].Routed? ==> KeyOf(cs, k) in done
  }

  /** The slots once the groups in `done` are processed. */
  ghost predicate SlotsHandled(cfg: Config, env: Env, cs: seq<Class>, done: set<BatchGroup>, slots: seq<Option<Res>>,
                               calls: seq<Call>, looks: seq<Lookup>, hits: set<nat>)
    requires ValidConfig(cfg) && |slots| == |cs| && GroupsExist(cfg, cs)
  {
    forall k: nat | k < |cs| && Ready(cs, done, k) ::
      && slots[k].Some?
      && (cs[k].Routed? ==> Consulted(env, looks, Elem(cs[k].req, k), k in hits, slots[k]))
      && (Honest(env) ==> SlotOk(cfg, env, calls, looks, cs[k], k, k in hits, slots[k]))
  }

  /** The upstream traffic once the groups in `keys` have been begun. */
  ghost predicate TrafficSoFar(cfg: Config, env: Env, cs: seq<Class>, keys: set<BatchGroup>, calls: seq<Call>,
                               hits: set<nat>)
  {
    && (forall c | c in calls :: c.key in keys && CallFits(cfg, env, c))
    && (forall g {:trigger CallsOf(calls, g)} :: Cut(cfg.maxUpstream, CallsOf(calls, g), Misses(Members(cs, g), hits)))
  }

  /** The groups in `done` have been forwarded to the end. */
  ghost predicate Complete(cfg: Config, cs: seq<Class>, done: set<BatchGroup>, calls: seq<Call>, hits: set<nat>) {
    forall g | g in done :: FullCut(cfg.maxUpstream, CallsOf(calls, g), Misses(Members(cs, g), hits))
  }

  ghost predicate HitsHandled(cs: seq<Class>, done: set<BatchGroup>, hits: set<nat>) {
    forall k | k in hits :: k < |cs| && cs[k].Routed? && KeyOf(cs, k) in done
  }

  ghost predicate Handled(cfg: Config, env: Env, cs: seq<Class>, done: set<BatchGroup>, slots: seq<Option<Res>>,
                          calls: seq<Call>, looks: seq<Lookup>, hits: set<nat>)
    requires ValidConfig(cfg) && |slots| == |cs| && GroupsExist(cfg, cs)
  {
    && SlotsHandled(cfg, env, cs, done, slots, calls, looks, hits)
    && TrafficSoFar(cfg, env, cs, done, calls, hits)
    && Complete(cfg, cs, done, calls, hits)
    && HitsHandled(cs, done, hits)
  }

  lemma HitsMore(cs: seq<Class>, done: set<BatchGroup>, g: BatchGroup, hits: set<nat>, newHits: set<nat>)
    requires HitsHandled(cs, done, hits)
    requires forall k | k in newHits :: HasIndex(Members(cs, g), k)
    ensures HitsHandled(cs, {g}, newHits)
    ensures HitsHandled(cs, done + {g}, hits + newHits)
  {
    MembersSound(cs, g);
    forall k | k in newHits ensures k < |cs| && cs[k].Routed? && KeyOf(cs, k) == g {
      var i :| 0 <= i < |Members(cs, g)| && Members(cs, g)[i].index == k;
      assert Members(cs, g)[i] in Members(cs, g);
    }
  }

  /** The calls of a group that was not begun before. */
  lemma CallsOfGroup(cfg: Config, env: Env, cs: seq<Class>, done: set<BatchGroup>, g: BatchGroup, calls: seq<Call>,
                     more: seq<Call>, hits: set<nat>, h: BatchGroup)
    requires TrafficSoFar(cfg, env, cs, done, calls, hits) && g !in done && CallsFit(cfg, env, more, g)
    ensures CallsOf(calls + more, h) == if h == g then more else CallsOf(calls, h)
  {
    CallsOfConcat(calls, more, h);
    CallsOfOwn(more, g, h);
    if h == g && CallsOf(calls, g) != [] {
      CallsOfMembers(calls, g, CallsOf(calls, g)[0]);
    }
  }

  /** New hits of group g are no hits of another. */
  lemma MissesOfGroup(cs: seq<Class>, done: set<BatchGroup>, g: BatchGroup, hits: set<nat>, newHits: set<nat>,
                      h: BatchGroup)
    requires HitsHandled(cs, done, hits) && HitsHandled(cs, {g}, newHits) && g !in done
    ensures Misses(Members(cs, h), hits + newHits) == Misses(Members(cs, h), if h == g then newHits else hits)
  {
    MembersSound(cs, h);
    MissesAgree(Members(cs, h), if h == g then newHits else hits, hits + newHits);
  }

  lemma TrafficMore(cfg: Config, env: Env, cs: seq<Class>, done: set<BatchGroup>, g: BatchGroup,
                    calls: seq<Call>, more: seq<Call>, hits: set<nat>, newHits: set<nat>)
    requires TrafficSoFar(cfg, env, cs, done, calls, hits) && HitsHandled(cs, done, hits)
    requires HitsHandled(cs, {g}, newHits) && g !in done
    requires GroupTraffic(cfg, env, g, more, Misses(Members(cs, g), newHits))
    ensures TrafficSoFar(cfg, env, cs, done + {g}, calls + more, hits + newHits)
  {
    forall h ensures Cut(cfg.maxUpstream, CallsOf(calls + more, h), Misses(Members(cs, h), hits + newHits)) {
      CallsOfGroup(cfg, env, cs, done, g, calls, more, hits, h);
      MissesOfGroup(cs, done, g, hits, newHits, h);
    }
  }

  lemma CompleteMore(cfg: Config, env: Env, cs: seq<Class>, done: set<BatchGroup>, g: BatchGroup,
                     calls: seq<Call>, more: seq<Call>, hits: set<nat>, newHits: set<nat>)
    requires TrafficSoFar(cfg, env, cs, done, calls, hits) && HitsHandled(cs, done, hits)
    requires HitsHandled(cs, {g}, newHits) && g !in done && CallsFit(cfg, env, more, g)
    requires Complete(cfg, cs, done, calls, hits)
    requires FullCut(cfg.maxUpstream, more, Misses(Members(cs, g), newHits))
    ensures Complete(cfg, cs, done + {g}, calls + more, hits + newHits)
  {
    forall h | h in done + {g}
      ensures FullCut(cfg.maxUpstream, CallsOf(calls + more, h), Misses(Members(cs, h), hits + newHits))
    {
      CallsOfGroup(cfg, env, cs, done, g, calls, more, hits, h);
      MissesOfGroup(cs, done, g, hits, newHits, h);
    }
  }

  lemma ConsultedMore(env: Env, looks: seq<Lookup>, more: seq<Lookup>, e: Elem, hit: bool, slot: Option<Res>)
    requires Consulted(env, looks, e, hit, slot) || Consulted(env, more, e, hit, slot)
    ensures Consulted(env, looks + more, e, hit, slot)
  {
    var l :| (l in looks || l in more) && l.e == e && env.cached(l.t, e.req) == if hit then slot else None;
    assert l in looks + more;
  }

  /** What a slot was owed earlier it is still owed when more has happened. */
  lemma SlotOkMore(cfg: Config, env: Env, calls: seq<Call>, more: seq<Call>, looks: seq<Lookup>, moreLooks: seq<Lookup>,
                   c: Class, k: nat, hit: bool, slot: Option<Res>)
    requires ValidConfig(cfg) && (c.Routed? ==> c.group in cfg.groups)
    requires SlotOk(cfg, env, calls, looks, c, k, hit, slot) || SlotOk(cfg, env, more, moreLooks, c, k, hit, slot)
    ensures SlotOk(cfg, env, calls + more, looks + moreLooks, c, k, hit, slot)
  {
    if c.Routed? {
      ConsultedMore(env, looks, moreLooks, Elem(c.req, k), hit, slot);
      if !hit { SettledMore(env, cfg.groups[c.group], calls, more, Elem(c.req, k), slot.value); }
    }
  }

  lemma SlotsMore(cfg: Config, env: Env, cs: seq<Class>, done: set<BatchGroup>, g: BatchGroup,
                  before: seq<Option<Res>>, after: seq<Option<Res>>, calls: seq<Call>, more: seq<Call>,
                  looks: seq<Lookup>, moreLooks: seq<Lookup>, hits: set<nat>, newHits: set<nat>)
    requires ValidConfig(cfg) && |before| == |after| == |cs| && GroupsExist(cfg, cs)
    requires SlotsHandled(cfg, env, cs, done, before, calls, looks, hits)
    requires HitsHandled(cs, done, hits) && HitsHandled(cs, {g}, newHits)
    requires g !in done && g.backendGroup in cfg.groups && Below(Members(cs, g), |after|)
    requires GroupDone(env, cfg.groups[g.backendGroup], more, moreLooks, Members(cs, g), newHits, after)
    requires forall k | 0 <= k < |after| && !HasIndex(Members(cs, g), k) :: after[k] == before[k]
    ensures SlotsHandled(cfg, env, cs, done + {g}, after, calls + more, looks + moreLooks, hits + newHits)
  {
    forall k: nat | k < |cs| && Ready(cs, done + {g}, k)
      ensures after[k].Some?
      ensures cs[k].Routed? ==> Consulted(env, looks + moreLooks, Elem(cs[k].req, k), k in hits + newHits, after[k])
      ensures Honest(env) ==> SlotOk(cfg, env, calls + more, looks + moreLooks, cs[k], k, k in hits + newHits, after[k])
    {
      if cs[k].Routed? && KeyOf(cs, k) == g {
        MembersComplete(cs, k);
        assert Elem(cs[k].req, k) in Members(cs, g);
        assert k !in hits;
        assert k in hits + newHits <==> k in newHits;
      } else {
        assert Ready(cs, done, k);
        NotMember(cs, g, k);
        assert k !in newHits;
        assert k in hits + newHits <==> k in hits;
      }
      if cs[k].Routed? {
        ConsultedMore(env, looks, moreLooks, Elem(cs[k].req, k), k in hits + newHits, after[k]);
      }
      if Honest(env) { SlotOkMore(cfg, env, calls, more, looks, moreLooks, cs[k], k, k in hits + newHits, after[k]); }
    }
  }

  lemma NotMember(cs: seq<Class>, g: BatchGroup, k: nat)
    requires k < |cs| && !(cs[k].Routed? && KeyOf(cs, k) == g)
    ensures !HasIndex(Members(cs, g), k)
  {
    MembersSound(cs, g);
  }

  lemma HandledMore(cfg: Config, env: Env, cs: seq<Class>, done: set<BatchGroup>, g: BatchGroup,
                    before: seq<Option<Res>>, after: seq<Option<Res>>, calls: seq<Call>, more: seq<Call>,
                    looks: seq<Lookup>, moreLooks: seq<Lookup>, hits: set<nat>, newHits: set<nat>)
    requires ValidConfig(cfg) && |before| == |after| == |cs| && GroupsExist(cfg, cs)
    requires Handled(cfg, env, cs, done, before, calls, looks, hits)
    requires g !in done && GroupStep(cfg, env, g, Members(cs, g), before, after, more, moreLooks, newHits)
    ensures Handled(cfg, env, cs, done + {g}, after, calls + more, looks + moreLooks, hits + newHits)
  {
    HitsMore(cs, done, g, hits, newHits);
    TrafficMore(cfg, env, cs, done, g, calls, more, hits, newHits);
    CompleteMore(cfg, env, cs, done, g, calls, more, hits, newHits);
    SlotsMore(cfg, env, cs, done, g, before, after, calls, more, looks, moreLooks, hits, newHits);
  }

  /** Every slot holds what its request is owed. */
  ghost predicate AllSlotsOk(cfg: Config, env: Env, raws: seq<string>, calls: seq<Call>, looks: seq<Lookup>,
                             hits: set<nat>, slots: seq<Option<Res>>)
    requires ValidConfig(cfg)
  {
    && |slots| == |raws|
    && forall k: nat | k < |raws| :: SlotOk(cfg, env, calls, looks, Classify(cfg, env, raws[k]), k, k in hits, slots[k])
  }

  lemma UnionEmpty(a: set<nat>, b: set<nat>)
    ensures a + b != {} <==> a != {} || b != {}
  {
    if b != {} {
      var k :| k in b;
      assert k in a + b;
    }
  }

  /** Every group of the batch map can be processed. */
  predicate AllReady(cfg: Config, cs: seq<Class>, batches: map<BatchGroup, seq<Elem>>) {
    forall g | g in batches ::
      && batches[g] == Members(cs, g) && g.backendGroup in cfg.groups
      && Increasing(batches[g]) && Below(batches[g], |cs|) && DistinctIds(Reqs(batches[g]))
  }

  /** The groups still to be visited and those already done. */
  predicate Split(keys: set<BatchGroup>, remaining: set<BatchGroup>, done: set<BatchGroup>) {
    remaining + done == keys && remaining !! done
  }

  lemma OneLess(keys: set<BatchGroup>, remaining: set<BatchGroup>, done: set<BatchGroup>, g: BatchGroup)
    requires Split(keys, remaining, done) && g in remaining
    ensures Split(keys, remaining - {g}, done + {g}) && remaining - {g} < remaining
  {
  }

  /** Processes one entry of the batch map. */
  method ProcessNext(cfg: Config, out: Outside, ghost cs: seq<Class>, g: BatchGroup, batch: seq<Elem>,
                     slots: array<Option<Res>>, ghost done: set<BatchGroup>, ghost calls: seq<Call>,
                     ghost looks: seq<Lookup>, ghost hits: set<nat>)
    returns (p: Progress, cached: bool, ghost more: seq<Call>, ghost moreLooks: seq<Lookup>, ghost newHits: set<nat>)
    requires out.Valid() && ValidConfig(cfg) && slots.Length == |cs| && GroupsExist(cfg, cs)
    requires batch == Members(cs, g) && g.backendGroup in cfg.groups && g !in done
    requires Increasing(batch) && Below(batch, |cs|) && DistinctIds(Reqs(batch))
    requires Handled(cfg, out.env, cs, done, slots[..], calls, looks, hits)
    modifies slots, out
    ensures out.Valid() && out.calls == old(out.calls) + more && out.lookups == old(out.lookups) + moreLooks
    ensures out.now >= old(out.now) && AllBefore(more, out.now)
    ensures Honest(out.env) ==> !p.Broken?
    ensures p.TimedOut? ==> CutShort(out.env, old(out.now), old(out.checks), out.checks, more)
    ensures !p.TimedOut? ==> Paced(out.env, old(out.checks), out.checks, more)
    ensures TrafficSoFar(cfg, out.env, cs, done + {g}, calls + more, hits + newHits)
    ensures HitsHandled(cs, done + {g}, hits + newHits)
    ensures p.Done? ==>
              Handled(cfg, out.env, cs, done + {g}, slots[..], calls + more, looks + moreLooks, hits + newHits)
    ensures cached <==> newHits != {}
  {
    ghost var before := slots[..];
    p, cached, more, moreLooks, newHits := ProcessGroup(cfg, out, g, batch, slots);
    GroupBegun(cfg, out.env, cs, done, g, calls, more, hits, newHits);
    if p.Done? {
      HandledMore(cfg, out.env, cs, done, g, before, slots[..], calls, more, looks, moreLooks, hits, newHits);
    }
  }

  /** The loop over the batch map, in any order. */
  method ProcessAll(cfg: Config, out: Outside, ghost cs: seq<Class>, batches: map<BatchGroup, seq<Elem>>,
                    slots: array<Option<Res>>)
    returns (p: Progress, cached: bool, ghost calls: seq<Call>, ghost looks: seq<Lookup>, ghost hits: set<nat>)
    requires out.Valid() && ValidConfig(cfg) && slots.Length == |cs| && GroupsExist(cfg, cs)
    requires AllReady(cfg, cs, batches)
    requires Handled(cfg, out.env, cs, {}, slots[..], [], [], {})
    modifies slots, out
    ensures out.Valid() && out.calls == old(out.calls) + calls && out.lookups == old(out.lookups) + looks
    ensures Honest(out.env) ==> !p.Broken?
    ensures p.TimedOut? ==> CutShort(out.env, old(out.now), old(out.checks), out.checks, calls)
    ensures !p.TimedOut? ==> Paced(out.env, old(out.checks), out.checks, calls)
    ensures TrafficSoFar(cfg, out.env, cs, batches.Keys, calls, hits) && HitsHandled(cs, batches.Keys, hits)
    ensures p.Done? ==> Handled(cfg, out.env, cs, batches.Keys, slots[..], calls, looks, hits)
    ensures p.Done? ==> (cached <==> hits != {})
  {
    var remaining := batches.Keys;
    ghost var done := {};
    cached, calls, looks, hits := false, [], [], {};
    while remaining != {}
      invariant Split(batches.Keys, remaining, done)
      invariant out.Valid() && out.calls == old(out.calls) + calls && out.lookups == old(out.lookups) + looks
      invariant out.now >= old(out.now) && AllBefore(calls, out.now)
      invariant Paced(out.env, old(out.checks), out.checks, calls)
      invariant Handled(cfg, out.env, cs, done, slots[..], calls, looks, hits)
      invariant cached <==> hits != {}
      decreases remaining
    {
      var g :| g in remaining;
      ghost var checked, now := out.checks, out.now;
      var c;
      ghost var more, moreLooks, newHits;
      p, c, more, moreLooks, newHits :=
        ProcessNext(cfg, out, cs, g, batches[g], slots, done, calls, looks, hits);
      ConcatAssociates(old(out.calls), calls, more);
      ConcatAssociates(old(out.lookups), looks, moreLooks);
      if p.TimedOut? {
        CutShortMore(out.env, old(out.now), now, old(out.checks), checked, out.checks, calls, more);
      } else {
        PacedMore(out.env, old(out.checks), checked, out.checks, calls, more);
      }
      UnionEmpty(hits, newHits);
      AllBeforeMore(calls, now, more, out.now);
      calls, looks, hits := calls + more, looks + moreLooks, hits + newHits;
      if !p.Done? {
        BegunAmongAll(cfg, out.env, cs, done + {g}, batches.Keys, calls, hits);
        return;
      }
      OneLess(batches.Keys, remaining, done, g);
      done := done + {g};
      remaining := remaining - {g};
      cached := cached || c;
    }
    assert done == batches.Keys;
    p := Done;
  }

  /** A group that was begun, finished or not. */
  lemma GroupBegun(cfg: Config, env: Env, cs: seq<Class>, done: set<BatchGroup>, g: BatchGroup,
                   calls: seq<Call>, more: seq<Call>, hits: set<nat>, newHits: set<nat>)
    requires TrafficSoFar(cfg, env, cs, done, calls, hits) && HitsHandled(cs, done, hits) && g !in done
    requires GroupTraffic(cfg, env, g, more, Misses(Members(cs, g), newHits))
    requires forall k | k in newHits :: HasIndex(Members(cs, g), k)
    ensures TrafficSoFar(cfg, env, cs, done + {g}, calls + more, hits + newHits)
    ensures HitsHandled(cs, done + {g}, hits + newHits)
  {
    HitsMore(cs, done, g, hits, newHits);
    TrafficMore(cfg, env, cs, done, g, calls, more, hits, newHits);
  }

  lemma BegunAmongAll(cfg: Config, env: Env, cs: seq<Class>, begun: set<BatchGroup>, keys: set<BatchGroup>,
                      calls: seq<Call>, hits: set<nat>)
    requires TrafficSoFar(cfg, env, cs, begun, calls, hits) && HitsHandled(cs, begun, hits) && begun <= keys
    ensures TrafficSoFar(cfg, env, cs, keys, calls, hits) && HitsHandled(cs, keys, hits)
  {
  }

  /** The batch handler. Honest backends never crash it, and it gives up only after it found the deadline passed;
      otherwise every slot holds what its request is owed. Whatever the outcome, no call follows a failed check,
      and what was sent for each batch group is a beginning of its cut into mini-batches. */
  method HandleBatchRPC(cfg: Config, out: Outside, raws: seq<string>)
    returns (r: Outcome, ghost calls: seq<Call>, ghost looks: seq<Lookup>, ghost hits: set<nat>)
    requires out.Valid() && ValidConfig(cfg)
    modifies out
    ensures out.Valid() && out.calls == old(out.calls) + calls && out.lookups == old(out.lookups) + looks
    ensures Honest(out.env) ==> !r.Crashed?
    ensures r.DeadlineExceeded? ==> CutShort(out.env, old(out.now), old(out.checks), out.checks, calls)
    ensures !r.DeadlineExceeded? ==> Paced(out.env, old(out.checks), out.checks, calls)
    ensures Underway(cfg, out.env, Classes(cfg, out.env, raws), calls, hits)
    ensures r.Responses? ==>
              && |r.slots| == |raws|
              && (forall k | 0 <= k < |raws| :: r.slots[k].Some?)
              && (r.cached <==> hits != {})
              && Routing(cfg, out.env, Classes(cfg, out.env, raws), calls, hits)
              && (Honest(out.env) ==> AllSlotsOk(cfg, out.env, raws, calls, looks, hits, r.slots))
  {
    ghost var cs := Classes(cfg, out.env, raws);
    var slots := new Option<Res>[|raws|](_ => None);
    var batches := GroupRequests(cfg, out.env, raws, slots);
    HandledStart(cfg, out.env, cs, slots[..]);
    GroupsReady(cfg, cs, batches);
    var p, cached;
    p, cached, calls, looks, hits := ProcessAll(cfg, out, cs, batches, slots);
    HandledUnderway(cfg, out.env, cs, calls, hits);
    match p
    case TimedOut => r := DeadlineExceeded;
    case Broken => r := Crashed;
    case Done =>
      AllHandled(cfg, out.env, raws, slots[..], calls, looks, hits);
      r := Responses(slots[..], cached);
  }

  /** After the first pass: nothing sent, and proxyd's own answers in place. */
  lemma HandledStart(cfg: Config, env: Env, cs: seq<Class>, slots: seq<Option<Res>>)
    requires ValidConfig(cfg) && |slots| == |cs| && GroupsExist(cfg, cs)
    requires DirectFiled(cs, slots)
    ensures Handled(cfg, env, cs, {}, slots, [], [], {})
  {
    forall g ensures Cut(cfg.maxUpstream, [], Misses(Members(cs, g), {})) { }
  }

  lemma HandledUnderway(cfg: Config, env: Env, cs: seq<Class>, calls: seq<Call>, hits: set<nat>)
    requires TrafficSoFar(cfg, env, cs, RoutedKeys(cs), calls, hits) && HitsHandled(cs, RoutedKeys(cs), hits)
    ensures Underway(cfg, env, cs, calls, hits)
  {
  }

  lemma AllHandled(cfg: Config, env: Env, raws: seq<string>, slots: seq<Option<Res>>, calls: seq<Call>,
                   looks: seq<Lookup>, hits: set<nat>)
    requires ValidConfig(cfg) && |slots| == |raws|
    requires var cs := Classes(cfg, env, raws); Handled(cfg, env, cs, RoutedKeys(cs), slots, calls, looks, hits)
    ensures forall k | 0 <= k < |raws| :: slots[k].Some?
    ensures Routing(cfg, env, Classes(cfg, env, raws), calls, hits)
    ensures Honest(env) ==> AllSlotsOk(cfg, env, raws, calls, looks, hits, slots)
  {
    var cs := Classes(cfg, env, raws);
    HandledUnderway(cfg, env, cs, calls, hits);
    assert forall k: nat | k < |cs| && cs[k].Routed? :: KeyOf(cs, k) in RoutedKeys(cs);
  }

  lemma GroupsReady(cfg: Config, cs: seq<Class>, batches: map<BatchGroup, seq<Elem>>)
    requires GroupsExist(cfg, cs) && IsPartition(cs, batches)
    ensures AllReady(cfg, cs, batches)
  {
    forall g | g in batches
      ensures g.backendGroup in cfg.groups
      ensures Increasing(batches[g]) && Below(batches[g], |cs|) && DistinctIds(Reqs(batches[g]))
    {
      MembersSound(cs, g);
      MembersHaveDistinctIds(cs, g);
    }
  }
}
