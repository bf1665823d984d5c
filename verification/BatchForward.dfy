/**
 One upstream batch: a backend's HTTP exchange, its retries, and failover within a backend group.
 What the outside world answers is a function of the time at which it is asked, so a contract that holds for
 every `Env` holds for every behaviour of the network, the limiter, the clock and the cache. Every question to
 it goes through the object `Outside`, which remembers them all: nothing can be sent without leaving a trace.
 */
module BatchForward {
  import opened Common
  import opened JsonRpc
  import opened BatchSort
  import C = RpcCache

  /** A response body: not JSON-RPC at all, JSON null, one response object, or a list (null entries are None). */
  datatype Body = Garbage | Null | Object(res: Res) | List(items: seq<Option<Res>>)

  datatype HttpReply = NoResponse(message: string) | Response(status: int, body: Body)

  datatype Env = Env(
    parse: string -> Option<Req>,
    http: (nat, string, seq<Req>) -> HttpReply,
    online: (nat, string) -> bool,
    usedRPS: (nat, string) -> Option<int>,
    pastDeadline: nat -> bool,
    cached: (nat, Req) -> Option<Res>)

  /** No cache, or proxyd's own, with whatever it holds at each time. */
  datatype Cache = NoCache | ResponseCache(codec: C.Codec, memory: nat -> C.Memory)

  /** What the cache answers at time t, always under the ID of the request. */
  function Ask(cache: Cache, t: nat, req: Req): (res: Option<Res>)
    ensures res.Some? ==> res.value.id == req.id
  {
    if cache.NoCache? then None else C.Get(cache.codec, cache.memory(t), req)
  }

  ghost predicate CacheIs(env: Env, cache: Cache) {
    forall t: nat, req :: env.cached(t, req) == Ask(cache, t, req)
  }

  datatype Backend = Backend(name: string, maxRetries: int, maxRPS: nat)

  /** The result of a forward: answers in request order, an error, or a panic. */
  datatype Reply = Answers(res: seq<Res>) | Failed(failure: Failure) | Panicked

  /** A request and its position in the client's batch. */
  datatype Elem = Elem(req: Req, index: nat)

  function Reqs(elems: seq<Elem>): seq<Req> {
    seq(|elems|, i requires 0 <= i < |elems| => elems[i].req)
  }

  datatype BatchGroup = BatchGroup(groupId: nat, backendGroup: string)

  // ---- what happened ----

  datatype Post = Post(t: nat, name: string, reqs: seq<Req>)

  datatype Lookup = Lookup(t: nat, e: Elem)

  /** One backend was tried from time t on, with this many HTTP requests. */
  datatype Attempt = Attempt(backend: Backend, t: nat, tries: nat)

  /** One forward of a backend group: when it began, the elements it was for, and the backends that were tried. */
  datatype Call = Call(key: BatchGroup, t: nat, elems: seq<Elem>, attempts: seq<Attempt>)

  /** The limiter is asked for the state of the backend, and for its rate unless that is unlimited. */
  function PostTime(a: Attempt, i: nat): nat {
    a.t + (if a.backend.maxRPS == 0 then 1 else 2) + i
  }

  function AttemptPosts(a: Attempt, reqs: seq<Req>): seq<Post> {
    seq(a.tries, i requires 0 <= i < a.tries => Post(PostTime(a, i), a.backend.name, reqs))
  }

  function AttemptsPosts(attempts: seq<Attempt>, reqs: seq<Req>): seq<Post> {
    if attempts == [] then []
    else AttemptsPosts(attempts[..|attempts| - 1], reqs) + AttemptPosts(attempts[|attempts| - 1], reqs)
  }

  function CallPosts(calls: seq<Call>): seq<Post> {
    if calls == [] then []
    else
      var last := calls[|calls| - 1];
      CallPosts(calls[..|calls| - 1]) + AttemptsPosts(last.attempts, Reqs(last.elems))
  }

  /** The world outside proxyd, and the record of everything that was asked of it. */
  class Outside {
    const env: Env
    var now: nat
    ghost var posts: seq<Post>
    ghost var lookups: seq<Lookup>
    ghost var checks: seq<nat>
    ghost var calls: seq<Call>

    /** Every HTTP request belongs to a forward of a backend group. */
    ghost predicate Valid()
      reads this
    {
      posts == CallPosts(calls)
    }

    constructor (env: Env, cache: Cache)
      ensures this.env == env.(cached := this.env.cached) && CacheIs(this.env, cache)
      ensures Valid() && calls == [] && lookups == [] && checks == []
    {
      this.env, now := env.(cached := (t: nat, req: Req) => Ask(cache, t, req)), 0;
      posts, lookups, checks, calls := [], [], [], [];
    }

    method IsOnline(name: string) returns (online: bool)
      modifies `now
      ensures now == old(now) + 1 && online == env.online(old(now), name)
    {
      online := env.online(now, name);
      now := now + 1;
    }

    method UsedRPS(name: string) returns (used: Option<int>)
      modifies `now
      ensures now == old(now) + 1 && used == env.usedRPS(old(now), name)
    {
      used := env.usedRPS(now, name);
      now := now + 1;
    }

    method Send(name: string, reqs: seq<Req>) returns (reply: HttpReply)
      modifies `now, `posts
      ensures now == old(now) + 1 && reply == env.http(old(now), name, reqs)
      ensures posts == old(posts) + [Post(old(now), name, reqs)]
    {
      reply := env.http(now, name, reqs);
      posts := posts + [Post(now, name, reqs)];
      now := now + 1;
    }

    method PastDeadline() returns (past: bool)
      modifies `now, `checks
      ensures now == old(now) + 1 && past == env.pastDeadline(old(now))
      ensures checks == old(checks) + [old(now)]
    {
      past := env.pastDeadline(now);
      checks := checks + [now];
      now := now + 1;
    }

    /** The record also says for which position of the client's batch the cache was asked. */
    method AskCache(req: Req, ghost index: nat) returns (res: Option<Res>)
      modifies `now, `lookups
      ensures now == old(now) + 1 && res == env.cached(old(now), req)
      ensures lookups == old(lookups) + [Lookup(old(now), Elem(req, index))]
    {
      res := env.cached(now, req);
      lookups := lookups + [Lookup(now, Elem(req, index))];
      now := now + 1;
    }
  }

  // ---- one exchange ----

  /** The zero RPCRes, which decoding JSON null into a struct leaves behind. */
  const ZERO_RES := Res("", None, None, "")

  /** Captures a non-200 status in the error of a response. */
  function Stamp(status: int, r: Res): (s: Res)
    ensures s.id == r.id
  {
    if status == 200 || r.error.None? then r else r.(error := Some(r.error.value.(httpCode := status)))
  }

  predicate AllPresent(items: seq<Option<Res>>) {
    forall i | 0 <= i < |items| :: items[i].Some?
  }

  function Unwrap(items: seq<Option<Res>>): seq<Res>
    requires AllPresent(items)
  {
    seq(|items|, i requires 0 <= i < |items| => items[i].value)
  }

  predicate Readable(status: int) {
    status == 200 || status == 400
  }

  /** What JSON-RPC 2.0 lets an honest server answer: each request ID once, in any order,
      non-null, and an HTTP 400 only with error objects. Not answering at all, or answering with
      something that is no response list of the right length, is honest too. */
  predicate HonestReply(reqs: seq<Req>, reply: HttpReply) {
    reply.Response? && Readable(reply.status) ==>
      if |reqs| == 1 then
        && !reply.body.Null?
        && (reply.body.Object? ==>
              reply.body.res.id == reqs[0].id && (reply.status == 400 ==> reply.body.res.error.Some?))
      else
        reply.body.List? && |reply.body.items| == |reqs| ==>
          && AllPresent(reply.body.items)
          && multiset(ResIds(Unwrap(reply.body.items))) == multiset(ReqIds(reqs))
          && (reply.status == 400 ==> forall r | r in Unwrap(reply.body.items) :: r.error.Some?)
  }

  ghost predicate Honest(env: Env) {
    forall t: nat, name, reqs | |reqs| >= 1 && DistinctIds(reqs) :: HonestReply(reqs, env.http(t, name, reqs))
  }

  /** A reply of the expected shape. */
  predicate WellFormed(reqs: seq<Req>, reply: HttpReply) {
    && reply.Response? && Readable(reply.status)
    && if |reqs| == 1 then reply.body.Object? else reply.body.List? && |reply.body.items| == |reqs|
  }

  /** Backend `name`, asked `reqs` at time t, said `res` about `req`. */
  predicate ToldAt(env: Env, t: nat, name: string, reqs: seq<Req>, req: Req, res: Res) {
    var reply := env.http(t, name, reqs);
    && req in reqs && DistinctIds(reqs) && reply.Response?
    && ToldIn(reply, req, res)
  }

  predicate ToldIn(reply: HttpReply, req: Req, res: Res)
    requires reply.Response?
  {
    res.id == req.id &&
    match reply.body
    case Object(r) => res == Stamp(reply.status, r)
    case List(items) => exists i :: 0 <= i < |items| && items[i].Some? && res == Stamp(reply.status, items[i].value)
    case _ => false
  }

  /** Backend `name`, asked `reqs` at time t, said res[i] about reqs[i] for every i. */
  predicate AnsweredBy(env: Env, t: nat, name: string, reqs: seq<Req>, res: seq<Res>) {
    |res| == |reqs| && forall i | 0 <= i < |reqs| :: ToldAt(env, t, name, reqs, reqs[i], res[i])
  }

  datatype Decoded = Items(items: seq<Option<Res>>) | Rejected(failure: Failure)

  /** Decodes a body the way the batch size calls for: a lone request is sent, and answered, unwrapped. */
  function Decode(single: bool, body: Body): Decoded {
    match body
    case Garbage => Rejected(Rpc(BAD_RESPONSE))
    case Null => Items(if single then [Some(ZERO_RES)] else [])
    case Object(r) => if single then Items([Some(r)]) else Rejected(UnexpectedJsonRpc)
    case List(items) => if single then Rejected(Rpc(BAD_RESPONSE)) else Items(items)
  }

  /** No usable reply: none at all, another status, or no JSON-RPC of the kind that was asked for. */
  predicate Retryable(reqs: seq<Req>, reply: HttpReply) {
    || reply.NoResponse?
    || !Readable(reply.status)
    || reply.body.Garbage?
    || (|reqs| == 1 && reply.body.List?)
  }

  /** A single object for a batch, or a list of another length. */
  predicate Unexpected(reqs: seq<Req>, reply: HttpReply) {
    && !Retryable(reqs, reply)
    && |reqs| != 1 && (reply.body.Object? || |reqs| != if reply.body.List? then |reply.body.items| else 0)
  }

  /** Writes the HTTP status into every error object; a response without one is a nil dereference. */
  method StampAll(status: int, a: array<Res>) returns (panicked: bool)
    modifies a
    ensures panicked <==> status != 200 && exists i :: 0 <= i < a.Length && old(a[i]).error.None?
    ensures !panicked ==> forall i | 0 <= i < a.Length :: a[i] == Stamp(status, old(a[i]))
  {
    if status == 200 { return false; }
    for n := 0 to a.Length
      invariant forall i | 0 <= i < n :: old(a[i]).error.Some? && a[i] == Stamp(status, old(a[i]))
      invariant forall i | n <= i < a.Length :: a[i] == old(a[i])
    {
      if a[n].error.None? { return true; }
      a[n] := Stamp(status, a[n]);
    }
    return false;
  }

  /** Stamps and sorts decoded answers. */
  method Arrange(reqs: seq<Req>, status: int, decoded: seq<Res>) returns (r: Reply)
    requires |decoded| == |reqs|
    ensures r.Panicked? || (r.Answers? && |r.res| == |reqs|)
    ensures DistinctIds(reqs) && (status == 200 || forall x | x in decoded :: x.error.Some?) ==> r.Answers?
    ensures r.Answers? && multiset(ResIds(decoded)) == multiset(ReqIds(reqs)) ==>
              ReqIds(reqs) == ResIds(r.res)
    ensures r.Answers? ==> forall i | 0 <= i < |r.res| ::
              exists j :: 0 <= j < |decoded| && r.res[i] == Stamp(status, decoded[j])
  {
    var a := new Res[|decoded|](i requires 0 <= i < |decoded| => decoded[i]);
    var panicked := StampAll(status, a);
    if panicked { return Panicked; }
    ghost var stamped := a[..];
    assert ResIds(stamped) == ResIds(decoded);
    panicked := SortBatchRPCResponse(reqs, a);
    if panicked { return Panicked; }
    r := Answers(a[..]);
    forall i | 0 <= i < |r.res| ensures exists j :: 0 <= j < |decoded| && r.res[i] == Stamp(status, decoded[j]) {
      assert r.res[i] in multiset(r.res);
      assert r.res[i] in stamped;
    }
  }

  /** Reads a reply. One that is neither retried nor of an unexpected shape yields answers or a panic; an honest
      one never panics, and what it yields is in request order. */
  method ReadReply(reqs: seq<Req>, reply: HttpReply) returns (r: Reply)
    requires |reqs| >= 1
    ensures r.Failed? <==> Retryable(reqs, reply) || Unexpected(reqs, reply)
    ensures r.Failed? ==> (r.failure == UnexpectedJsonRpc <==> Unexpected(reqs, reply))
    ensures r.Failed? ==> r.failure != Rpc(NOT_WHITELISTED)
    ensures r.Answers? ==> |r.res| == |reqs| && reply.Response?
    ensures DistinctIds(reqs) && HonestReply(reqs, reply) ==>
              !r.Panicked? && (r.Answers? ==> forall i | 0 <= i < |reqs| :: ToldIn(reply, reqs[i], r.res[i]))
  {
    if reply.NoResponse? { return Failed(Plain("error in backend request " + reply.message)); }
    if !Readable(reply.status) { return Failed(Plain("response code")); }
    var decoded := Decode(|reqs| == 1, reply.body);
    if decoded.Rejected? { return Failed(decoded.failure); }
    if |decoded.items| != |reqs| { return Failed(UnexpectedJsonRpc); }
    if !AllPresent(decoded.items) { return Panicked; }
    var items := Unwrap(decoded.items);
    r := Arrange(reqs, reply.status, items);
    if DistinctIds(reqs) && HonestReply(reqs, reply) && r.Answers? {
      if |reqs| == 1 { assert ResIds(items) == ReqIds(reqs); }
      forall i | 0 <= i < |reqs| ensures ToldIn(reply, reqs[i], r.res[i]) {
        assert ReqIds(reqs)[i] == ResIds(r.res)[i];
        var j :| 0 <= j < |items| && r.res[i] == Stamp(reply.status, items[j]);
        assert decoded.items[j] == Some(items[j]);
      }
    }
  }

  /** One HTTP exchange. */
  method DoForward(out: Outside, name: string, reqs: seq<Req>) returns (r: Reply)
    requires |reqs| >= 1
    modifies out`now, out`posts
    ensures out.now == old(out.now) + 1 && out.posts == old(out.posts) + [Post(old(out.now), name, reqs)]
    ensures r.Answers? ==> |r.res| == |reqs|
    ensures var reply := out.env.http(old(out.now), name, reqs);
            && (r.Failed? <==> Retryable(reqs, reply) || Unexpected(reqs, reply))
            && (r.Failed? ==> (r.failure == UnexpectedJsonRpc <==> Unexpected(reqs, reply)))
            && (r.Failed? ==> r.failure != Rpc(NOT_WHITELISTED))
            && (DistinctIds(reqs) && HonestReply(reqs, reply) ==>
                  !r.Panicked? && (r.Answers? ==> AnsweredBy(out.env, old(out.now), name, reqs, r.res)))
  {
    var reply := out.Send(name, reqs);
    r := ReadReply(reqs, reply);
  }

  // ---- one backend ----

  /** How often a backend is tried at most. */
  function MaxTries(b: Backend): nat {
    if b.maxRetries >= 0 then b.maxRetries + 1 else 0
  }

  predicate OverLimit(env: Env, a: Attempt) {
    && a.backend.maxRPS != 0
    && var used := env.usedRPS(a.t + 1, a.backend.name);
       used.None? || a.backend.maxRPS < used.value
  }

  predicate Admitted(env: Env, a: Attempt) {
    env.online(a.t, a.backend.name) && !OverLimit(env, a)
  }

  function ReplyTo(env: Env, reqs: seq<Req>, a: Attempt, i: nat): HttpReply {
    env.http(PostTime(a, i), a.backend.name, reqs)
  }

  /** The first n exchanges of the attempt failed in a way that is retried. */
  predicate FirstFailed(env: Env, reqs: seq<Req>, a: Attempt, n: nat) {
    forall i: nat | i < n :: Retryable(reqs, ReplyTo(env, reqs, a, i))
  }

  /** The backend was offline, or over its rate limit, or answered in an unexpected shape, or failed each time
      it was tried, which was as often as allowed. */
  predicate Declined(env: Env, reqs: seq<Req>, a: Attempt) {
    || (a.tries == 0 && !Admitted(env, a))
    || (Admitted(env, a) && a.tries == MaxTries(a.backend) && FirstFailed(env, reqs, a, a.tries))
    || (&& Admitted(env, a) && 1 <= a.tries <= MaxTries(a.backend) && FirstFailed(env, reqs, a, a.tries - 1)
        && Unexpected(reqs, ReplyTo(env, reqs, a, a.tries - 1)))
  }

  /** The last exchange of the attempt, and no earlier one, brought a reply of the right shape. */
  predicate Accepted(env: Env, reqs: seq<Req>, a: Attempt) {
    && Admitted(env, a) && 1 <= a.tries <= MaxTries(a.backend) && FirstFailed(env, reqs, a, a.tries - 1)
    && var reply := ReplyTo(env, reqs, a, a.tries - 1);
       !Retryable(reqs, reply) && !Unexpected(reqs, reply)
  }

  /** The backend said this about the request in the last exchange of the attempt. */
  predicate Says(env: Env, reqs: seq<Req>, a: Attempt, req: Req, res: Res) {
    a.tries >= 1 && ToldAt(env, PostTime(a, a.tries - 1), a.backend.name, reqs, req, res)
  }

  /** The attempt accounts for the result: an error exactly if the backend declined, otherwise what it said. */
  ghost predicate Explained(env: Env, reqs: seq<Req>, a: Attempt, r: Reply) {
    && (r.Failed? ==> Declined(env, reqs, a) && r.failure != Rpc(NOT_WHITELISTED))
    && (!r.Failed? ==> Accepted(env, reqs, a))
    && (r.Answers? ==> |r.res| == |reqs|)
    && (Honest(env) && DistinctIds(reqs) ==>
          !r.Panicked? && (r.Answers? ==> forall i | 0 <= i < |reqs| :: Says(env, reqs, a, reqs[i], r.res[i])))
  }

  /** The backend is always up, below its rate limit, allowed an attempt, and replies well-formedly. */
  ghost predicate Serves(env: Env, b: Backend) {
    && b.maxRetries >= 0
    && (forall t: nat :: env.online(t, b.name))
    && (b.maxRPS == 0 || forall t: nat :: env.usedRPS(t, b.name).Some? && env.usedRPS(t, b.name).value <= b.maxRPS)
    && (forall t: nat, reqs | |reqs| >= 1 && DistinctIds(reqs) :: WellFormed(reqs, env.http(t, b.name, reqs)))
  }

  /** A serving backend declines nothing. */
  lemma ServingNeverDeclines(env: Env, reqs: seq<Req>, a: Attempt)
    requires Serves(env, a.backend) && |reqs| >= 1 && DistinctIds(reqs)
    ensures !Declined(env, reqs, a)
  {
    assert env.online(a.t, a.backend.name);
    if a.tries >= 1 {
      assert WellFormed(reqs, ReplyTo(env, reqs, a, a.tries - 1));
    }
  }

  /** Tries a backend up to maxRetries + 1 times; only errors other than an unexpected shape are retried. */
  method Forward(out: Outside, b: Backend, reqs: seq<Req>) returns (r: Reply, ghost a: Attempt)
    requires |reqs| >= 1
    modifies out`now, out`posts
    ensures a.backend == b && a.t == old(out.now) <= out.now
    ensures out.posts == old(out.posts) + AttemptPosts(a, reqs)
    ensures Explained(out.env, reqs, a, r)
  {
    a := Attempt(b, out.now, 0);
    var online := out.IsOnline(b.name);
    if !online { return Failed(Rpc(BACKEND_OFFLINE)), a; }
    if b.maxRPS != 0 {
      var used := out.UsedRPS(b.name);
      if used.None? || b.maxRPS < used.value { return Failed(Rpc(OVER_CAPACITY)), a; }
    }
    r, a := Retry(out, b, reqs, a);
  }

  method Retry(out: Outside, b: Backend, reqs: seq<Req>, ghost start: Attempt) returns (r: Reply, ghost a: Attempt)
    requires |reqs| >= 1 && start.backend == b && start.tries == 0 && Admitted(out.env, start)
    requires out.now == PostTime(start, 0)
    modifies out`now, out`posts
    ensures a == start.(tries := a.tries) && out.now >= old(out.now)
    ensures out.posts == old(out.posts) + AttemptPosts(a, reqs)
    ensures Explained(out.env, reqs, a, r)
  {
    a := start;
    var lastError := "<nil>";
    for i := 0 to MaxTries(b)
      invariant a == start.(tries := i) && out.now == PostTime(a, i)
      invariant FirstFailed(out.env, reqs, a, i)
      invariant out.posts == old(out.posts) + AttemptPosts(a, reqs)
    {
      OneMoreTry(out.env, reqs, a);
      ConcatAssociates(old(out.posts), AttemptPosts(a, reqs), [Post(out.now, b.name, reqs)]);
      r := DoForward(out, b.name, reqs);
      a := a.(tries := i + 1);
      if !r.Failed? || r.failure == UnexpectedJsonRpc { return; }
      lastError := FailureMessage(r.failure);
    }
    r := Failed(Plain("permanent error forwarding request " + lastError));
  }

  lemma OneMoreTry(env: Env, reqs: seq<Req>, a: Attempt)
    ensures var next := a.(tries := a.tries + 1);
            && AttemptPosts(next, reqs) == AttemptPosts(a, reqs) + [Post(PostTime(a, a.tries), a.backend.name, reqs)]
            && forall i: nat ::
                 PostTime(next, i) == PostTime(a, i) && ReplyTo(env, reqs, next, i) == ReplyTo(env, reqs, a, i)
  {
  }

  // ---- one backend group ----

  /** The backends were tried in order, each but the last after the one before had declined. */
  predicate Orderly(env: Env, backends: seq<Backend>, c: Call) {
    && |c.attempts| <= |backends|
    && (forall i | 0 <= i < |c.attempts| :: c.attempts[i].backend == backends[i])
    && (forall i | 0 <= i < |c.attempts| - 1 :: Declined(env, Reqs(c.elems), c.attempts[i]))
  }

  /** Every backend of the group declined. */
  predicate Exhausted(env: Env, backends: seq<Backend>, c: Call) {
    && Orderly(env, backends, c) && |c.attempts| == |backends|
    && forall i | 0 <= i < |c.attempts| :: Declined(env, Reqs(c.elems), c.attempts[i])
  }

  /** In this very call, the last backend tried said `res` about `req`. */
  predicate Told(env: Env, c: Call, req: Req, res: Res) {
    |c.attempts| >= 1 && Says(env, Reqs(c.elems), c.attempts[|c.attempts| - 1], req, res)
  }

  lemma PostsOfOneMore(attempts: seq<Attempt>, a: Attempt, reqs: seq<Req>)
    ensures AttemptsPosts(attempts + [a], reqs) == AttemptsPosts(attempts, reqs) + AttemptPosts(a, reqs)
  {
    assert (attempts + [a])[..|attempts|] == attempts;
  }

  lemma PostsOfCall(calls: seq<Call>, c: Call)
    ensures CallPosts(calls + [c]) == CallPosts(calls) + AttemptsPosts(c.attempts, Reqs(c.elems))
  {
    assert (calls + [c])[..|calls|] == calls;
  }

  /** The call accounts for the result of trying these backends: the no-backends error exactly if all of them
      declined, otherwise what the last one said. */
  ghost predicate GroupExplained(env: Env, backends: seq<Backend>, c: Call, r: Reply) {
    var reqs := Reqs(c.elems);
    && Orderly(env, backends, c)
    && (r.Failed? ==> r.failure == Rpc(NO_BACKENDS) && Exhausted(env, backends, c))
    && (!r.Failed? && reqs != [] ==> |c.attempts| >= 1 && Accepted(env, reqs, c.attempts[|c.attempts| - 1]))
    && (r.Answers? ==> |r.res| == |reqs|)
    && (Honest(env) && DistinctIds(reqs) ==>
          !r.Panicked? && (r.Answers? ==> forall i | 0 <= i < |reqs| :: Told(env, c, reqs[i], r.res[i])))
  }

  /** One more backend, after those before it declined. */
  lemma NextBackend(env: Env, backends: seq<Backend>, n: nat, c: Call, a: Attempt, r: Reply)
    requires n < |backends| && a.backend == backends[n] && Exhausted(env, backends[..n], c)
    requires Explained(env, Reqs(c.elems), a, r)
    ensures var c' := c.(attempts := c.attempts + [a]);
            if r.Failed? then Exhausted(env, backends[..n + 1], c') else GroupExplained(env, backends, c', r)
  {
    var c' := c.(attempts := c.attempts + [a]);
    assert |c.attempts| == n && c'.attempts[n] == a;
    assert forall i | 0 <= i < n :: c'.attempts[i] == c.attempts[i] && backends[..n][i] == backends[i];
  }

  /** Failover: the first backend that answers wins; if every one declines, none is available. */
  method GroupForward(out: Outside, groups: map<string, seq<Backend>>, group: string, reqs: seq<Req>,
                      ghost key: BatchGroup, ghost elems: seq<Elem>)
    returns (r: Reply, ghost c: Call)
    requires out.Valid() && group in groups && group == key.backendGroup && reqs == Reqs(elems)
    modifies out`now, out`posts, out`calls
    ensures out.Valid() && out.calls == old(out.calls) + [c] && c.key == key && c.elems == elems
    ensures c.t == old(out.now) <= out.now
    ensures GroupExplained(out.env, groups[group], c, r)
  {
    c := Call(key, out.now, elems, []);
    r := Answers([]);
    if |reqs| > 0 {
      r, c := TryBackends(out, groups[group], reqs, c);
    }
    PostsOfCall(out.calls, c);
    out.calls := out.calls + [c];
  }

  method TryBackends(out: Outside, backends: seq<Backend>, reqs: seq<Req>, ghost start: Call)
    returns (r: Reply, ghost c: Call)
    requires |reqs| > 0 && reqs == Reqs(start.elems) && start.attempts == []
    modifies out`now, out`posts
    ensures c == start.(attempts := c.attempts) && out.now >= old(out.now)
    ensures out.posts == old(out.posts) + AttemptsPosts(c.attempts, reqs)
    ensures GroupExplained(out.env, backends, c, r)
  {
    c := start;
    for n := 0 to |backends|
      invariant c == start.(attempts := c.attempts) && out.now >= old(out.now)
      invariant out.posts == old(out.posts) + AttemptsPosts(c.attempts, reqs)
      invariant Exhausted(out.env, backends[..n], c)
    {
      ghost var a;
      r, a := Forward(out, backends[n], reqs);
      // A method that is not whitelisted would end the search, but no backend reports that.
      assert r != Failed(Rpc(NOT_WHITELISTED));
      PostsOfOneMore(c.attempts, a, reqs);
      ConcatAssociates(old(out.posts), AttemptsPosts(c.attempts, reqs), AttemptPosts(a, reqs));
      NextBackend(out.env, backends, n, c, a, r);
      c := c.(attempts := c.attempts + [a]);
      if !r.Failed? { return; }
    }
    assert backends[..|backends|] == backends;
    r := Failed(Rpc(NO_BACKENDS));
  }
}
