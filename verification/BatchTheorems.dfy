/** What the contract of the batch handler means for a client. */
module BatchTheorems {
  import opened Common
  import opened JsonRpc
  import opened BatchForward
  import opened BatchGroups
  import opened BatchTraffic
  import opened BatchServer

  predicate Accepted(env: Env, raw: string) {
    env.parse(raw).Some? && Validate(env.parse(raw).value).None?
  }

  /** Slot k answers under request k's own ID whenever request k parsed and validated, whatever the cache holds. */
  lemma SlotsCarryIds(cfg: Config, env: Env, cache: Cache, raws: seq<string>, calls: seq<Call>, looks: seq<Lookup>,
                      hits: set<nat>, slots: seq<Option<Res>>)
    requires ValidConfig(cfg) && AllSlotsOk(cfg, env, raws, calls, looks, hits, slots) && CacheIs(env, cache)
    ensures forall k | 0 <= k < |raws| && Accepted(env, raws[k]) ::
              slots[k].Some? && slots[k].value.id == env.parse(raws[k]).value.id
  {
    forall k: nat | k < |raws| && Accepted(env, raws[k])
      ensures slots[k].Some? && slots[k].value.id == env.parse(raws[k]).value.id
    {
      var c := Classify(cfg, env, raws[k]);
      assert SlotOk(cfg, env, calls, looks, c, k, k in hits, slots[k]);
      if c.Routed? && k in hits {
        var l :| l in looks && l.e == Elem(c.req, k) && env.cached(l.t, c.req) == slots[k];
        assert slots[k] == Ask(cache, l.t, c.req);
      }
    }
  }

  // ---- batch equals one by one ----

  /** The backends agree on one answer per request, whenever and together with whatever it is asked. */
  ghost predicate Stateless(env: Env, answer: Req -> Res) {
    forall t: nat, name, reqs, req, res :: ToldAt(env, t, name, reqs, req, res) ==> res == answer(req)
  }

  /** Every group that requests are mapped to has a backend that always answers. */
  ghost predicate Served(cfg: Config, env: Env)
    requires ValidConfig(cfg)
  {
    forall m | m in cfg.methods ::
      exists i :: 0 <= i < |cfg.groups[cfg.methods[m]]| && Serves(env, cfg.groups[cfg.methods[m]][i])
  }

  ghost predicate NoDeadline(env: Env) {
    forall t: nat :: !env.pastDeadline(t)
  }

  /** What a single request deserves. */
  function Reference(cfg: Config, env: Env, answer: Req -> Res, raw: string): Res {
    match Classify(cfg, env, raw)
    case Direct(r) => r
    case Routed(req, _) => answer(req)
  }

  function References(cfg: Config, env: Env, answer: Req -> Res, raws: seq<string>): seq<Option<Res>> {
    seq(|raws|, k requires 0 <= k < |raws| => Some(Reference(cfg, env, answer, raws[k])))
  }

  /** A group with a serving backend is never exhausted. */
  lemma ServedNeverExhausted(env: Env, backends: seq<Backend>, c: Call, i: nat)
    requires i < |backends| && Serves(env, backends[i]) && |c.elems| >= 1 && DistinctIds(Reqs(c.elems))
    ensures !Exhausted(env, backends, c)
  {
    if Exhausted(env, backends, c) {
      ServingNeverDeclines(env, Reqs(c.elems), c.attempts[i]);
    }
  }

  lemma SlotsAreReference(cfg: Config, env: Env, answer: Req -> Res, raws: seq<string>, calls: seq<Call>,
                          looks: seq<Lookup>, hits: set<nat>, slots: seq<Option<Res>>)
    requires ValidConfig(cfg) && AllSlotsOk(cfg, env, raws, calls, looks, hits, slots)
    requires Routing(cfg, env, Classes(cfg, env, raws), calls, hits)
    requires Stateless(env, answer) && CacheIs(env, NoCache) && Served(cfg, env)
    ensures slots == References(cfg, env, answer, raws)
  {
    forall k: nat | k < |raws| ensures slots[k] == Some(Reference(cfg, env, answer, raws[k])) {
      var c := Classify(cfg, env, raws[k]);
      assert SlotOk(cfg, env, calls, looks, c, k, k in hits, slots[k]);
      if c.Routed? {
        RoutedIsReference(cfg, env, answer, calls, looks, c, k, k in hits, slots[k]);
      }
    }
  }

  lemma RoutedIsReference(cfg: Config, env: Env, answer: Req -> Res, calls: seq<Call>, looks: seq<Lookup>, c: Class,
                          k: nat, hit: bool, slot: Option<Res>)
    requires ValidConfig(cfg) && c.Routed? && c.req.rpcMethod in cfg.methods && cfg.methods[c.req.rpcMethod] == c.group
    requires SlotOk(cfg, env, calls, looks, c, k, hit, slot)
    requires forall d | d in calls :: CallFits(cfg, env, d)
    requires Stateless(env, answer) && CacheIs(env, NoCache) && Served(cfg, env)
    ensures slot == Some(answer(c.req))
  {
    var l :| l in looks && l.e == Elem(c.req, k) && env.cached(l.t, c.req) == if hit then slot else None;
    assert env.cached(l.t, c.req) == Ask(NoCache, l.t, c.req) == None;
    var backends := cfg.groups[c.group];
    var d :| d in calls && Elem(c.req, k) in d.elems && SettledBy(env, backends, d, c.req, slot.value);
    var i :| 0 <= i < |backends| && Serves(env, backends[i]);
    ServedNeverExhausted(env, backends, d, i);
  }

  /** Handling a batch gives, slot for slot, what handling one of its requests alone gives, whatever IDs repeat,
      however the batch map is visited and however upstream batches are cut; and both give answers. */
  method BatchEqualsAlone(cfg: Config, out: Outside, ghost answer: Req -> Res, raws: seq<string>, k: nat)
    returns (batch: Outcome, alone: Outcome)
    requires out.Valid() && ValidConfig(cfg) && k < |raws|
    requires Honest(out.env) && Stateless(out.env, answer) && CacheIs(out.env, NoCache)
    requires Served(cfg, out.env) && NoDeadline(out.env)
    modifies out
    ensures batch.Responses? && batch.slots == References(cfg, out.env, answer, raws)
    ensures alone.Responses? && alone.slots == [batch.slots[k]]
  {
    ghost var calls, looks, hits;
    batch, calls, looks, hits := HandleBatchRPC(cfg, out, raws);
    SlotsAreReference(cfg, out.env, answer, raws, calls, looks, hits, batch.slots);
    alone, calls, looks, hits := HandleBatchRPC(cfg, out, [raws[k]]);
    SlotsAreReference(cfg, out.env, answer, [raws[k]], calls, looks, hits, alone.slots);
  }

  /** Answers every request, in order, with its ID and the same result. */
  function Obliging(reqs: seq<Req>): HttpReply {
    Response(200, if |reqs| == 1 then Object(ResultRes(reqs[0].id, "0x1"))
                  else List(seq(|reqs|, i requires 0 <= i < |reqs| => Some(ResultRes(reqs[i].id, "0x1")))))
  }

  predicate HasUnlimited(backends: seq<Backend>) {
    exists i :: 0 <= i < |backends| && backends[i].maxRPS == 0 && backends[i].maxRetries >= 0
  }

  /** The assumptions on the backends can be met. */
  lemma SuchBackendsExist(cfg: Config, env: Env)
    requires ValidConfig(cfg) && (forall t: nat, name, reqs :: env.http(t, name, reqs) == Obliging(reqs))
    requires forall t: nat, name :: env.online(t, name)
    requires forall m | m in cfg.methods :: HasUnlimited(cfg.groups[cfg.methods[m]])
    ensures Honest(env) && Stateless(env, (req: Req) => ResultRes(req.id, "0x1")) && Served(cfg, env)
  {
    forall t: nat, name, reqs | |reqs| >= 1 && DistinctIds(reqs) ensures HonestReply(reqs, env.http(t, name, reqs)) {
      if |reqs| != 1 {
        var items := Obliging(reqs).body.items;
        assert ResIds(Unwrap(items)) == ReqIds(reqs);
      }
    }
    forall m | m in cfg.methods
      ensures exists i :: 0 <= i < |cfg.groups[cfg.methods[m]]| && Serves(env, cfg.groups[cfg.methods[m]][i])
    {
      var bs := cfg.groups[cfg.methods[m]];
      assert HasUnlimited(bs);
      var i :| 0 <= i < |bs| && bs[i].maxRPS == 0 && bs[i].maxRetries >= 0;
      assert Serves(env, bs[i]);
    }
  }

  // ---- every request travels exactly once ----

  function CountIndex(elems: seq<Elem>, k: nat): nat {
    if elems == [] then 0
    else CountIndex(elems[..|elems| - 1], k) + if elems[|elems| - 1].index == k then 1 else 0
  }

  /** How often request k was put into an upstream call of backend group `group`. */
  function Sends(calls: seq<Call>, group: string, k: nat): nat {
    if calls == [] then 0
    else Sends(calls[..|calls| - 1], group, k) +
         if calls[|calls| - 1].key.backendGroup == group then CountIndex(calls[|calls| - 1].elems, k) else 0
  }

  lemma {:induction false} CountConcat(a: seq<Elem>, b: seq<Elem>, k: nat)
    ensures CountIndex(a + b, k) == CountIndex(a, k) + CountIndex(b, k)
  {
    if b == [] {
      assert a + b == a;
    } else {
      assert (a + b)[..|a + b| - 1] == a + b[..|b| - 1];
      CountConcat(a, b[..|b| - 1], k);
    }
  }

  lemma {:induction false} CountAbsent(elems: seq<Elem>, k: nat)
    requires !HasIndex(elems, k)
    ensures CountIndex(elems, k) == 0
  {
    if elems != [] {
      assert elems[|elems| - 1].index != k;
      var front := elems[..|elems| - 1];
      assert forall i | 0 <= i < |front| :: front[i] == elems[i];
      CountAbsent(front, k);
    }
  }

  lemma {:induction false} CountOnce(elems: seq<Elem>, k: nat)
    requires Increasing(elems)
    ensures CountIndex(elems, k) == if HasIndex(elems, k) then 1 else 0
  {
    if HasIndex(elems, k) {
      var front, last := elems[..|elems| - 1], elems[|elems| - 1];
      if last.index == k {
        assert !HasIndex(front, k);
        CountAbsent(front, k);
      } else {
        var i :| 0 <= i < |elems| && elems[i].index == k;
        assert front[i].index == k;
        CountOnce(front, k);
      }
    } else {
      CountAbsent(elems, k);
    }
  }

  lemma {:induction false} CountPrefix(elems: seq<Elem>, n: nat, k: nat)
    requires n <= |elems|
    ensures CountIndex(elems[..n], k) <= CountIndex(elems, k)
  {
    CountConcat(elems[..n], elems[n..], k);
    assert elems[..n] + elems[n..] == elems;
  }

  lemma {:induction false} SentHasCall(calls: seq<Call>, i: nat)
    requires i < |calls|
    ensures forall e | e in calls[i].elems :: e in Sent(calls)
  {
    if i < |calls| - 1 {
      SentHasCall(calls[..|calls| - 1], i);
    }
  }

  /** A call carries request k only if it belongs to k's own batch group. */
  lemma CallKeyOfMember(cfg: Config, env: Env, cs: seq<Class>, calls: seq<Call>, hits: set<nat>, i: nat, k: nat)
    requires Underway(cfg, env, cs, calls, hits) && i < |calls| && HasIndex(calls[i].elems, k)
    ensures k < |cs| && cs[k].Routed? && calls[i].key == KeyOf(cs, k)
  {
    var c := calls[i];
    var g := c.key;
    assert c in calls;
    var misses := Misses(Members(cs, g), hits);
    var j :| 0 <= j < |c.elems| && c.elems[j].index == k;
    CallsOfMembers(calls, g, c);
    var own := CallsOf(calls, g);
    var m :| 0 <= m < |own| && own[m] == c;
    SentHasCall(own, m);
    CutCarries(cfg.maxUpstream, own, misses);
    MembersSound(cs, g);
    MissesProps(Members(cs, g), hits);
    assert c.elems[j] in misses;
  }

  /** What one call adds for request k: something only if the call is for k's own batch group. */
  lemma CallCounts(cfg: Config, env: Env, cs: seq<Class>, calls: seq<Call>, hits: set<nat>, i: nat, k: nat)
    requires Underway(cfg, env, cs, calls, hits) && i < |calls| && k < |cs|
    ensures CountIndex(calls[i].elems, k) > 0 ==> cs[k].Routed? && calls[i].key == KeyOf(cs, k)
  {
    if HasIndex(calls[i].elems, k) {
      CallKeyOfMember(cfg, env, cs, calls, hits, i, k);
    } else {
      CountAbsent(calls[i].elems, k);
    }
  }

  lemma {:induction false} SendsElsewhere(cfg: Config, env: Env, cs: seq<Class>, calls: seq<Call>, hits: set<nat>,
                                          n: nat, group: string, k: nat)
    requires Underway(cfg, env, cs, calls, hits) && n <= |calls| && k < |cs|
    requires cs[k].Routed? ==> group != cs[k].group
    ensures Sends(calls[..n], group, k) == 0
  {
    if n > 0 {
      assert calls[..n][..n - 1] == calls[..n - 1];
      SendsElsewhere(cfg, env, cs, calls, hits, n - 1, group, k);
      CallCounts(cfg, env, cs, calls, hits, n - 1, k);
    }
  }

  lemma {:induction false} SendsInOwnGroup(cfg: Config, env: Env, cs: seq<Class>, calls: seq<Call>, hits: set<nat>,
                                           n: nat, k: nat)
    requires Underway(cfg, env, cs, calls, hits) && n <= |calls| && k < |cs| && cs[k].Routed?
    ensures Sends(calls[..n], cs[k].group, k) == CountIndex(Sent(CallsOf(calls[..n], KeyOf(cs, k))), k)
  {
    if n > 0 {
      var g, front, c := KeyOf(cs, k), calls[..n - 1], calls[n - 1];
      assert calls[..n][..n - 1] == front;
      SendsInOwnGroup(cfg, env, cs, calls, hits, n - 1, k);
      CallCounts(cfg, env, cs, calls, hits, n - 1, k);
      if c.key == g {
        SentOneMore(CallsOf(front, g), c);
        CountConcat(Sent(CallsOf(front, g)), c.elems, k);
      } else {
        assert CallsOf(calls[..n], g) == CallsOf(front, g);
      }
    }
  }

  lemma SentOneMore(calls: seq<Call>, c: Call)
    ensures Sent(calls + [c]) == Sent(calls) + c.elems
  {
    assert (calls + [c])[..|calls|] == calls;
  }

  /** Whatever became of the batch, a routed request was sent at most once, not at all if it was answered from the
      cache, and only to the backend group of its own method. */
  lemma RoutedAtMostOnce(cfg: Config, env: Env, raws: seq<string>, calls: seq<Call>, hits: set<nat>, k: nat)
    requires Underway(cfg, env, Classes(cfg, env, raws), calls, hits)
    requires k < |raws| && Classify(cfg, env, raws[k]).Routed?
    ensures var c := Classify(cfg, env, raws[k]);
            && c.group == cfg.methods[c.req.rpcMethod]
            && Sends(calls, c.group, k) <= (if k in hits then 0 else 1)
            && forall other | other != c.group :: Sends(calls, other, k) == 0
  {
    var cs := Classes(cfg, env, raws);
    var g := KeyOf(cs, k);
    assert g in RoutedKeys(cs);
    assert calls[..|calls|] == calls;
    SendsInOwnGroup(cfg, env, cs, calls, hits, |calls|, k);
    forall other | other != cs[k].group ensures Sends(calls, other, k) == 0 {
      SendsElsewhere(cfg, env, cs, calls, hits, |calls|, other, k);
    }
    var misses := Misses(Members(cs, g), hits);
    CutCarries(cfg.maxUpstream, CallsOf(calls, g), misses);
    CountPrefix(misses, Offset(|misses|, cfg.maxUpstream, |CallsOf(calls, g)|), k);
    MissOnce(cs, hits, k);
  }

  /** If the batch was answered, a routed request was answered from the cache and never sent, or it was sent exactly
      once, and to the backend group of its own method; no other group ever saw it. */
  lemma RoutedExactlyOnce(cfg: Config, env: Env, raws: seq<string>, calls: seq<Call>, hits: set<nat>, k: nat)
    requires Routing(cfg, env, Classes(cfg, env, raws), calls, hits)
    requires k < |raws| && Classify(cfg, env, raws[k]).Routed?
    ensures var c := Classify(cfg, env, raws[k]);
            && c.group == cfg.methods[c.req.rpcMethod]
            && Sends(calls, c.group, k) == (if k in hits then 0 else 1)
            && forall other | other != c.group :: Sends(calls, other, k) == 0
  {
    var cs := Classes(cfg, env, raws);
    var g := KeyOf(cs, k);
    assert g in RoutedKeys(cs);
    assert calls[..|calls|] == calls;
    RoutedAtMostOnce(cfg, env, raws, calls, hits, k);
    SendsInOwnGroup(cfg, env, cs, calls, hits, |calls|, k);
    CutCarries(cfg.maxUpstream, CallsOf(calls, g), Misses(Members(cs, g), hits));
    MissOnce(cs, hits, k);
  }

  lemma MissOnce(cs: seq<Class>, hits: set<nat>, k: nat)
    requires k < |cs| && cs[k].Routed?
    ensures CountIndex(Misses(Members(cs, KeyOf(cs, k)), hits), k) == if k in hits then 0 else 1
  {
    var ms := Members(cs, KeyOf(cs, k));
    var misses := Misses(ms, hits);
    MembersSound(cs, KeyOf(cs, k));
    MembersComplete(cs, k);
    MissesProps(ms, hits);
    MissIndices(ms, hits);
    CountOnce(misses, k);
    if k !in hits {
      var i :| 0 <= i < |misses| && misses[i] == Elem(cs[k].req, k);
      assert misses[i].index == k;
    }
  }

  /** A request that proxyd answers itself never travels. */
  lemma DirectNeverSent(cfg: Config, env: Env, raws: seq<string>, calls: seq<Call>, hits: set<nat>, group: string,
                        k: nat)
    requires Underway(cfg, env, Classes(cfg, env, raws), calls, hits)
    requires k < |raws| && Classify(cfg, env, raws[k]).Direct?
    ensures Sends(calls, group, k) == 0
  {
    assert calls[..|calls|] == calls;
    SendsElsewhere(cfg, env, Classes(cfg, env, raws), calls, hits, |calls|, group, k);
  }

  // ---- how large the batches of repeated IDs are ----

  /** A call for a batch group of repeated IDs carries several requests. */
  predicate RepeatsShare(calls: seq<Call>) {
    exists c | c in calls :: c.key.groupId >= 2 && |c.elems| >= 2
  }

  /** A batch group of repeated IDs has several cache misses. */
  ghost predicate RepeatsMiss(cs: seq<Class>, hits: set<nat>) {
    exists g | g in RoutedKeys(cs) :: g.groupId >= 2 && |Misses(Members(cs, g), hits)| >= 2
  }

  /** A call carries no more than the misses of its group. */
  lemma CallWithinMisses(cfg: Config, env: Env, cs: seq<Class>, calls: seq<Call>, hits: set<nat>, c: Call)
    requires Underway(cfg, env, cs, calls, hits) && c in calls
    ensures c.key in RoutedKeys(cs) && |c.elems| <= |Misses(Members(cs, c.key), hits)|
  {
    CallsOfMembers(calls, c.key, c);
    var own, misses := CallsOf(calls, c.key), Misses(Members(cs, c.key), hits);
    var i :| 0 <= i < |own| && own[i] == c;
    assert IsChunk(cfg.maxUpstream, misses, i, own[i].elems);
  }

  /** The first call of a group carries as many of its misses as allowed. */
  lemma FirstCall(cfg: Config, env: Env, cs: seq<Class>, calls: seq<Call>, hits: set<nat>, g: BatchGroup)
    returns (c: Call)
    requires Routing(cfg, env, cs, calls, hits) && g in RoutedKeys(cs) && Misses(Members(cs, g), hits) != []
    ensures c in calls && c.key == g
    ensures var misses := Misses(Members(cs, g), hits); c.elems == misses[..Min(cfg.maxUpstream, |misses|)]
  {
    var own, misses := CallsOf(calls, g), Misses(Members(cs, g), hits);
    ChunkStart(|misses|, cfg.maxUpstream, 0);
    c := own[0];
    CallsOfMembers(calls, g, c);
    FirstChunk(cfg.maxUpstream, misses, c.elems);
  }

  lemma FirstChunk(m: nat, misses: seq<Elem>, elems: seq<Elem>)
    requires IsChunk(m, misses, 0, elems)
    ensures elems == misses[..Min(m, |misses|)]
  {
    assert Offset(|misses|, m, 0) == 0 && Offset(|misses|, m, 1) == Min(m, |misses|);
  }

  /** In a batch that was answered, repeated IDs share an upstream batch if and only if upstream batches may hold two
      requests and some batch group of repeated IDs has two cache misses. */
  lemma RepeatsShareIff(cfg: Config, env: Env, cs: seq<Class>, calls: seq<Call>, hits: set<nat>)
    requires Routing(cfg, env, cs, calls, hits)
    ensures RepeatsShare(calls) <==> cfg.maxUpstream >= 2 && RepeatsMiss(cs, hits)
  {
    if RepeatsShare(calls) {
      var c :| c in calls && c.key.groupId >= 2 && |c.elems| >= 2;
      CallWithinMisses(cfg, env, cs, calls, hits, c);
    }
    if cfg.maxUpstream >= 2 && RepeatsMiss(cs, hits) {
      var g :| g in RoutedKeys(cs) && g.groupId >= 2 && |Misses(Members(cs, g), hits)| >= 2;
      var c := FirstCall(cfg, env, cs, calls, hits, g);
    }
  }

  lemma {:induction false} NoHitsAllMiss(elems: seq<Elem>)
    ensures Misses(elems, {}) == elems
  {
    if elems != [] {
      NoHitsAllMiss(elems[..|elems| - 1]);
      assert elems == elems[..|elems| - 1] + [elems[|elems| - 1]];
    }
  }

  /** Without cache hits this can be read off the requests: two IDs must meet in a later occurrence. */
  lemma RepeatsShareWithoutHits(cfg: Config, env: Env, cs: seq<Class>, calls: seq<Call>)
    requires Routing(cfg, env, cs, calls, {})
    ensures RepeatsShare(calls) <==> cfg.maxUpstream >= 2 && RepeatsMeet(cs)
  {
    RepeatsShareIff(cfg, env, cs, calls, {});
    RepeatsTravelAloneIff(cs);
    if RepeatsMiss(cs, {}) {
      var g :| g in RoutedKeys(cs) && g.groupId >= 2 && |Misses(Members(cs, g), {})| >= 2;
      NoHitsAllMiss(Members(cs, g));
    }
    if !RepeatsTravelAlone(cs) {
      var g: BatchGroup :| g.groupId >= 2 && |Members(cs, g)| > 1;
      NoHitsAllMiss(Members(cs, g));
      MembersSound(cs, g);
      assert Members(cs, g)[0] in Members(cs, g);
      assert g in RoutedKeys(cs);
    }
  }

  lemma NoCacheNoHit(cfg: Config, env: Env, calls: seq<Call>, looks: seq<Lookup>, c: Class, k: nat, hit: bool,
                     slot: Option<Res>)
    requires ValidConfig(cfg) && c.Routed? && c.group in cfg.groups && CacheIs(env, NoCache)
    requires SlotOk(cfg, env, calls, looks, c, k, hit, slot)
    ensures !hit
  {
    var l :| l in looks && l.e == Elem(c.req, k) && env.cached(l.t, c.req) == if hit then slot else None;
    assert env.cached(l.t, c.req) == Ask(NoCache, l.t, c.req) == None;
  }

  /** Without a cache there are no hits. */
  lemma NoCacheNoHits(cfg: Config, env: Env, raws: seq<string>, calls: seq<Call>, looks: seq<Lookup>, hits: set<nat>,
                      slots: seq<Option<Res>>)
    requires ValidConfig(cfg) && AllSlotsOk(cfg, env, raws, calls, looks, hits, slots) && CacheIs(env, NoCache)
    requires Underway(cfg, env, Classes(cfg, env, raws), calls, hits)
    ensures hits == {}
  {
    forall k: nat | k < |raws| && Classify(cfg, env, raws[k]).Routed? ensures k !in hits {
      var c := Classify(cfg, env, raws[k]);
      assert SlotOk(cfg, env, calls, looks, c, k, k in hits, slots[k]);
      NoCacheNoHit(cfg, env, calls, looks, c, k, k in hits, slots[k]);
    }
  }

  /** Four requests for one backend group, with IDs 1, 2, 1, 2. */
  predicate TwoTwice(cs: seq<Class>, group: string) {
    && |cs| == 4 && (forall k | 0 <= k < 4 :: cs[k].Routed? && cs[k].group == group)
    && cs[0].req.id == cs[2].req.id == "1" && cs[1].req.id == cs[3].req.id == "2"
  }

  lemma TwoTwiceMisses(cs: seq<Class>, group: string)
    requires TwoTwice(cs, group)
    ensures BatchGroup(2, group) in RoutedKeys(cs)
    ensures Misses(Members(cs, BatchGroup(2, group)), {}) == [Elem(cs[2].req, 2), Elem(cs[3].req, 3)]
  {
    var ms := Members(cs, BatchGroup(2, group));
    RepeatsCanShareAGroup(cs, group);
    NoHitsAllMiss(ms);
    MembersSound(cs, BatchGroup(2, group));
    assert ms[0] in ms;
  }

  lemma SharedCall(cfg: Config, env: Env, cs: seq<Class>, calls: seq<Call>, group: string) returns (c: Call)
    requires Routing(cfg, env, cs, calls, {}) && cfg.maxUpstream >= 2 && TwoTwice(cs, group)
    ensures c in calls && c.key == BatchGroup(2, group) && c.elems == [Elem(cs[2].req, 2), Elem(cs[3].req, 3)]
  {
    TwoTwiceMisses(cs, group);
    c := FirstCall(cfg, env, cs, calls, {}, BatchGroup(2, group));
  }

  /** A client that sends four requests with IDs 1, 2, 1, 2 for one backend group causes an upstream batch that
      carries the last two together. */
  method RepeatsShareABatch(cfg: Config, out: Outside, raws: seq<string>, group: string)
    returns (r: Outcome, ghost c: Call)
    requires out.Valid() && ValidConfig(cfg) && cfg.maxUpstream >= 2
    requires Honest(out.env) && CacheIs(out.env, NoCache) && NoDeadline(out.env)
    requires TwoTwice(Classes(cfg, out.env, raws), group)
    modifies out
    ensures r.Responses? && c in out.calls && c.key == BatchGroup(2, group)
    ensures |c.elems| == 2 && c.elems[0].index == 2 && c.elems[1].index == 3
  {
    ghost var calls, looks, hits;
    r, calls, looks, hits := HandleBatchRPC(cfg, out, raws);
    NoCacheNoHits(cfg, out.env, raws, calls, looks, hits, r.slots);
    c := SharedCall(cfg, out.env, Classes(cfg, out.env, raws), calls, group);
  }
}
