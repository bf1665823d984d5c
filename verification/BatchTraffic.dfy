/**
 The traffic that a batch causes: which calls belong to a batch group, how its cache misses are cut into
 mini-batches, and how deadline checks and calls alternate.
 */
module BatchTraffic {
  import opened Common
  import opened JsonRpc
  import opened BatchForward
  import opened BatchGroups

  // ---- the cut ----

  function Min(a: nat, b: nat): nat {
    if a <= b then a else b
  }

  /** The number of mini-batches of size m that n elements need. */
  function NumBatches(n: nat, m: nat): nat
    requires m >= 1
  {
    (n + m - 1) / m
  }

  /** Mini-batch i starts inside the list exactly when i is below the count. */
  lemma ChunkStart(n: nat, m: nat, i: nat)
    requires m >= 1
    ensures i < NumBatches(n, m) <==> i * m < n
  {
    var q, r := NumBatches(n, m), (n + m - 1) % m;
    assert n + m - 1 == q * m + r;
    if i < q {
      MulMonotone(i + 1, q, m);
      assert (i + 1) * m == i * m + m;
    } else {
      MulMonotone(q, i, m);
    }
  }

  /** Where mini-batch i starts, or the end of the list. */
  function Offset(n: nat, m: nat, i: nat): nat {
    Min(i * m, n)
  }

  /** Mini-batch i covers the elements from i m up to (i + 1) m or the end. */
  lemma ChunkBounds(n: nat, m: nat, i: nat)
    requires m >= 1 && i < NumBatches(n, m)
    ensures i * m == Offset(n, m, i) < Min(i * m + m, n) == Offset(n, m, i + 1)
    ensures Offset(n, m, i + 1) - Offset(n, m, i) <= m
  {
    ChunkStart(n, m, i);
    assert (i + 1) * m == i * m + m;
  }

  method ChunkRange(n: nat, m: nat, i: nat) returns (start: nat, end: nat)
    requires m >= 1 && i < NumBatches(n, m)
    ensures Offset(n, m, i) == start < end == Offset(n, m, i + 1) && end <= n && end - start <= m
  {
    ChunkBounds(n, m, i);
    start := i * m;
    end := Min(start + m, n);
  }

  /** The mini-batches cover the whole list. */
  lemma ChunksCover(n: nat, m: nat)
    requires m >= 1
    ensures Offset(n, m, 0) == 0 && Offset(n, m, NumBatches(n, m)) == n
  {
    ChunkStart(n, m, NumBatches(n, m));
  }

  lemma MulMonotone(a: nat, b: nat, m: nat)
    requires a <= b
    ensures a * m <= b * m
  {
  }

  /** These elements are mini-batch i of the misses. */
  predicate IsChunk(m: nat, misses: seq<Elem>, i: nat, elems: seq<Elem>) {
    var lo, hi := Offset(|misses|, m, i), Offset(|misses|, m, i + 1);
    lo <= hi && elems == misses[lo..hi]
  }

  /** The calls are the first mini-batches of the misses, one after the other. */
  predicate Cut(m: nat, calls: seq<Call>, misses: seq<Elem>) {
    && m >= 1 && |calls| <= NumBatches(|misses|, m)
    && forall i | 0 <= i < |calls| :: IsChunk(m, misses, i, calls[i].elems)
  }

  /** The calls are all the mini-batches of the misses. */
  predicate FullCut(m: nat, calls: seq<Call>, misses: seq<Elem>) {
    Cut(m, calls, misses) && |calls| == NumBatches(|misses|, m)
  }

  lemma CutMore(m: nat, calls: seq<Call>, misses: seq<Elem>, c: Call)
    requires Cut(m, calls, misses) && |calls| < NumBatches(|misses|, m) && IsChunk(m, misses, |calls|, c.elems)
    ensures Cut(m, calls + [c], misses)
  {
    forall i | 0 <= i < |calls + [c]| ensures IsChunk(m, misses, i, (calls + [c])[i].elems) {
      if i < |calls| { assert IsChunk(m, misses, i, calls[i].elems); }
    }
  }

  /** Everything that these calls carry, in order. */
  function Sent(calls: seq<Call>): seq<Elem> {
    if calls == [] then [] else Sent(calls[..|calls| - 1]) + calls[|calls| - 1].elems
  }

  /** What a cut carries is the beginning of the misses, and all of them once the cut is full. */
  lemma {:induction false} CutCarries(m: nat, calls: seq<Call>, misses: seq<Elem>)
    requires Cut(m, calls, misses)
    ensures Sent(calls) == misses[..Offset(|misses|, m, |calls|)]
    ensures FullCut(m, calls, misses) ==> Sent(calls) == misses
  {
    ChunksCover(|misses|, m);
    if calls != [] {
      var k := |calls| - 1;
      var front := calls[..k];
      forall i | 0 <= i < k ensures IsChunk(m, misses, i, front[i].elems) {
        assert front[i] == calls[i];
      }
      CutCarries(m, front, misses);
      assert IsChunk(m, misses, k, calls[k].elems);
      ChunkJoin(misses, Offset(|misses|, m, k), Offset(|misses|, m, k + 1));
    }
    assert misses[..|misses|] == misses;
  }

  lemma ChunkJoin(misses: seq<Elem>, lo: nat, hi: nat)
    requires lo <= hi <= |misses|
    ensures misses[..lo] + misses[lo..hi] == misses[..hi]
  {
  }

  // ---- the calls of one batch group ----

  function CallsOf(calls: seq<Call>, g: BatchGroup): seq<Call> {
    if calls == [] then []
    else CallsOf(calls[..|calls| - 1], g) + if calls[|calls| - 1].key == g then [calls[|calls| - 1]] else []
  }

  lemma {:induction false} CallsOfConcat(a: seq<Call>, b: seq<Call>, g: BatchGroup)
    ensures CallsOf(a + b, g) == CallsOf(a, g) + CallsOf(b, g)
  {
    if b == [] {
      assert a + b == a;
    } else {
      var front := b[..|b| - 1];
      assert (a + b)[..|a + b| - 1] == a + front;
      CallsOfConcat(a, front, g);
    }
  }

  lemma {:induction false} CallsOfOwn(calls: seq<Call>, g: BatchGroup, h: BatchGroup)
    requires forall c | c in calls :: c.key == g
    ensures CallsOf(calls, h) == if h == g then calls else []
  {
    if calls != [] {
      var last := calls[|calls| - 1];
      assert last in calls && calls == calls[..|calls| - 1] + [last];
      CallsOfOwn(calls[..|calls| - 1], g, h);
    }
  }

  lemma {:induction false} CallsOfMembers(calls: seq<Call>, g: BatchGroup, c: Call)
    ensures c in CallsOf(calls, g) <==> c in calls && c.key == g
  {
    if calls != [] {
      CallsOfMembers(calls[..|calls| - 1], g, c);
      assert calls == calls[..|calls| - 1] + [calls[|calls| - 1]];
    }
  }

  /** The call is non-empty, no larger than allowed, free of duplicate IDs, and tries backends in order. */
  predicate CallFits(cfg: Config, env: Env, c: Call) {
    && 1 <= |c.elems| <= cfg.maxUpstream && DistinctIds(Reqs(c.elems))
    && c.key.backendGroup in cfg.groups && Orderly(env, cfg.groups[c.key.backendGroup], c)
  }

  predicate CallsFit(cfg: Config, env: Env, calls: seq<Call>, g: BatchGroup) {
    forall c | c in calls :: c.key == g && CallFits(cfg, env, c)
  }

  // ---- deadline checks ----

  /** The check at time t allowed this call, which began right after it. */
  predicate Allows(env: Env, t: nat, c: Call) {
    !env.pastDeadline(t) && c.t == t + 1
  }

  /** Since `before` the deadline was checked once for each call, right before it, and had not passed. */
  predicate Paced(env: Env, before: seq<nat>, checks: seq<nat>, calls: seq<Call>) {
    && |checks| == |before| + |calls| && before <= checks
    && forall i | 0 <= i < |calls| :: Allows(env, checks[|before| + i], calls[i])
  }

  predicate AllBefore(calls: seq<Call>, t: nat) {
    forall c | c in calls :: c.t <= t
  }

  lemma AllBeforeMore(calls: seq<Call>, t: nat, more: seq<Call>, t': nat)
    requires AllBefore(calls, t) && t <= t' && AllBefore(more, t')
    ensures AllBefore(calls + more, t')
  {
  }

  /** Likewise, but one more check found the deadline passed, and no call came after it. */
  predicate CutShort(env: Env, since: nat, before: seq<nat>, checks: seq<nat>, calls: seq<Call>) {
    && |checks| > |before|
    && var last := checks[|checks| - 1];
       && Paced(env, before, checks[..|checks| - 1], calls)
       && env.pastDeadline(last) && last >= since && AllBefore(calls, last)
  }

  lemma PacedMore(env: Env, before: seq<nat>, mid: seq<nat>, after: seq<nat>, calls: seq<Call>, more: seq<Call>)
    requires Paced(env, before, mid, calls) && Paced(env, mid, after, more)
    ensures Paced(env, before, after, calls + more)
  {
    forall i | 0 <= i < |calls + more| ensures Allows(env, after[|before| + i], (calls + more)[i]) {
      if i < |calls| {
        assert after[|before| + i] == mid[|before| + i];
        assert Allows(env, mid[|before| + i], calls[i]);
      } else {
        assert Allows(env, after[|mid| + (i - |calls|)], more[i - |calls|]);
      }
    }
  }

  lemma CutShortMore(env: Env, since: nat, now: nat, before: seq<nat>, mid: seq<nat>, after: seq<nat>,
                     calls: seq<Call>, more: seq<Call>)
    requires Paced(env, before, mid, calls) && AllBefore(calls, now) && since <= now
    requires CutShort(env, now, mid, after, more)
    ensures CutShort(env, since, before, after, calls + more)
  {
    PacedMore(env, before, mid, after[..|after| - 1], calls, more);
  }
}
