/**
 The grouping of a batch: which requests proxyd answers itself, and how the others are split by
 backend group and by how often their ID has occurred so far.
 */
module BatchGroups {
  import opened Common
  import opened JsonRpc
  import opened BatchForward

  datatype Config = Config(groups: map<string, seq<Backend>>, methods: map<string, string>, maxUpstream: nat)

  /** What start-up enforces: mini-batches have a positive size and mapped groups exist. */
  predicate ValidConfig(cfg: Config) {
    cfg.maxUpstream >= 1 && forall m | m in cfg.methods :: cfg.methods[m] in cfg.groups
  }

  /** Either proxyd answers the request itself, or it goes to a backend group. */
  datatype Class = Direct(res: Res) | Routed(req: Req, group: string)

  function Classify(cfg: Config, env: Env, raw: string): (c: Class)
    ensures c.Routed? ==> c.req.id != "" && c.req.rpcMethod in cfg.methods && cfg.methods[c.req.rpcMethod] == c.group
  {
    match env.parse(raw)
    case None => Direct(ErrorRes("", Rpc(PARSE_ERROR)))
    case Some(req) =>
      if Validate(req).Some? then Direct(ErrorRes("", Rpc(Validate(req).value)))
      else if req.rpcMethod == "eth_accounts" then Direct(ResultRes(req.id, "[]"))
      else if req.rpcMethod !in cfg.methods || cfg.methods[req.rpcMethod] == "" then
        Direct(ErrorRes(req.id, Rpc(NOT_WHITELISTED)))
      else Routed(req, cfg.methods[req.rpcMethod])
  }

  function Classes(cfg: Config, env: Env, raws: seq<string>): seq<Class> {
    seq(|raws|, i requires 0 <= i < |raws| => Classify(cfg, env, raws[i]))
  }

  /** How many routed requests carry this ID. */
  function Occurrences(cs: seq<Class>, id: string): nat {
    if cs == [] then 0
    else Occurrences(cs[..|cs| - 1], id) + (if cs[|cs| - 1].Routed? && cs[|cs| - 1].req.id == id then 1 else 0)
  }

  /** The batch group of routed request k. */
  function KeyOf(cs: seq<Class>, k: nat): BatchGroup
    requires k < |cs| && cs[k].Routed?
  {
    BatchGroup(Occurrences(cs[..k + 1], cs[k].req.id), cs[k].group)
  }

  function RoutedKeys(cs: seq<Class>): set<BatchGroup> {
    set k: nat | k < |cs| && cs[k].Routed? :: KeyOf(cs, k)
  }

  /** The members of a batch group, in request order. */
  function Members(cs: seq<Class>, g: BatchGroup): seq<Elem> {
    if cs == [] then [] else
      var last := |cs| - 1;
      Members(cs[..last], g) +
      if cs[last].Routed? && KeyOf(cs, last) == g then [Elem(cs[last].req, last)] else []
  }

  lemma {:induction false} OccurrencesGrow(cs: seq<Class>, id: string, i: nat, j: nat)
    requires i <= j <= |cs|
    ensures Occurrences(cs[..i], id) <= Occurrences(cs[..j], id)
    ensures i < j && cs[j - 1].Routed? && cs[j - 1].req.id == id ==>
              Occurrences(cs[..i], id) < Occurrences(cs[..j], id)
    decreases j
  {
    if i < j {
      assert cs[..j][..j - 1] == cs[..j - 1];
      OccurrencesGrow(cs, id, i, j - 1);
    }
  }

  lemma KeyOfPrefix(cs: seq<Class>, n: nat, k: nat)
    requires k < n <= |cs| && cs[k].Routed?
    ensures KeyOf(cs[..n], k) == KeyOf(cs, k)
  {
    assert cs[..n][..k + 1] == cs[..k + 1];
  }

  /** Each member is a routed request of this very group, and indices increase. */
  lemma {:induction false} MembersSound(cs: seq<Class>, g: BatchGroup)
    ensures forall e | e in Members(cs, g) ::
              e.index < |cs| && cs[e.index] == Routed(e.req, g.backendGroup) && KeyOf(cs, e.index) == g
    ensures forall i, j | 0 <= i < j < |Members(cs, g)| :: Members(cs, g)[i].index < Members(cs, g)[j].index
  {
    if cs != [] {
      var front := cs[..|cs| - 1];
      MembersSound(front, g);
      forall e | e in Members(front, g) ensures cs[e.index] == front[e.index] && KeyOf(cs, e.index) == g {
        KeyOfPrefix(cs, |cs| - 1, e.index);
      }
    }
  }

  /** Every routed request is a member of its group. */
  lemma {:induction false} MembersComplete(cs: seq<Class>, k: nat)
    requires k < |cs| && cs[k].Routed?
    ensures Elem(cs[k].req, k) in Members(cs, KeyOf(cs, k))
  {
    if k < |cs| - 1 {
      MembersComplete(cs[..|cs| - 1], k);
      KeyOfPrefix(cs, |cs| - 1, k);
    }
  }

  /** Elements of one group never share an ID, so no upstream batch can trip the duplicate-ID panic. */
  lemma MembersHaveDistinctIds(cs: seq<Class>, g: BatchGroup)
    ensures DistinctIds(Reqs(Members(cs, g)))
  {
    var ms := Members(cs, g);
    MembersSound(cs, g);
    forall i, j | 0 <= i < j < |ms| ensures ms[i].req.id != ms[j].req.id {
      assert ms[i] in ms && ms[j] in ms;
      OccurrencesGrow(cs, ms[j].req.id, ms[i].index + 1, ms[j].index + 1);
    }
  }

  // ---- how large the groups of repeated IDs are ----

  /** Request k is the c-th routed request with this ID. */
  predicate Nth(cs: seq<Class>, id: string, c: nat, k: nat) {
    k < |cs| && cs[k].Routed? && cs[k].req.id == id && Occurrences(cs[..k + 1], id) == c
  }

  lemma {:induction false} NthExists(cs: seq<Class>, id: string, c: nat) returns (k: nat)
    requires 1 <= c <= Occurrences(cs, id)
    ensures Nth(cs, id, c, k)
  {
    var last := |cs| - 1;
    assert cs[..|cs|] == cs;
    if c <= Occurrences(cs[..last], id) {
      k := NthExists(cs[..last], id, c);
      assert cs[..last][..k + 1] == cs[..k + 1];
    } else {
      k := last;
    }
  }

  /** Batch groups of repeated IDs have one member each. */
  ghost predicate RepeatsTravelAlone(cs: seq<Class>) {
    forall g: BatchGroup | g.groupId >= 2 :: |Members(cs, g)| <= 1
  }

  /** The c-th occurrences of two IDs, for some c >= 2, go to the same backend group. */
  ghost predicate RepeatsMeet(cs: seq<Class>) {
    exists id, id', c: nat, k: nat, k': nat ::
      id != id' && c >= 2 && Nth(cs, id, c, k) && Nth(cs, id', c, k') && cs[k].group == cs[k'].group
  }

  lemma MeetingIsShared(cs: seq<Class>, id: string, id': string, c: nat, k: nat, k': nat)
    requires id != id' && Nth(cs, id, c, k) && Nth(cs, id', c, k') && cs[k].group == cs[k'].group
    ensures |Members(cs, BatchGroup(c, cs[k].group))| >= 2
  {
    var ms := Members(cs, BatchGroup(c, cs[k].group));
    MembersComplete(cs, k);
    MembersComplete(cs, k');
    var i :| 0 <= i < |ms| && ms[i] == Elem(cs[k].req, k);
    var j :| 0 <= j < |ms| && ms[j] == Elem(cs[k'].req, k');
    assert i != j;
  }

  lemma SharedIsMeeting(cs: seq<Class>, g: BatchGroup)
    requires g.groupId >= 2 && |Members(cs, g)| >= 2
    ensures RepeatsMeet(cs)
  {
    var ms := Members(cs, g);
    MembersSound(cs, g);
    MembersHaveDistinctIds(cs, g);
    assert ms[0] in ms && ms[1] in ms;
    assert Reqs(ms)[0].id != Reqs(ms)[1].id;
    assert Nth(cs, ms[0].req.id, g.groupId, ms[0].index) && Nth(cs, ms[1].req.id, g.groupId, ms[1].index);
  }

  /** Repeated IDs lead to batches of one if and only if no two IDs meet in a later occurrence. */
  lemma RepeatsTravelAloneIff(cs: seq<Class>)
    ensures RepeatsTravelAlone(cs) <==> !RepeatsMeet(cs)
  {
    if RepeatsMeet(cs) {
      var id, id', c: nat, k: nat, k': nat :|
        id != id' && c >= 2 && Nth(cs, id, c, k) && Nth(cs, id', c, k') && cs[k].group == cs[k'].group;
      MeetingIsShared(cs, id, id', c, k, k');
    }
    if !RepeatsTravelAlone(cs) {
      var g: BatchGroup :| g.groupId >= 2 && |Members(cs, g)| > 1;
      SharedIsMeeting(cs, g);
    }
  }

  lemma RepeatedIdsMeet(cs: seq<Class>, group: string, id: string, id': string)
    requires forall k | 0 <= k < |cs| && cs[k].Routed? :: cs[k].group == group
    requires id != id' && Occurrences(cs, id) >= 2 && Occurrences(cs, id') >= 2
    ensures RepeatsMeet(cs)
  {
    var k := NthExists(cs, id, 2);
    var k' := NthExists(cs, id', 2);
    assert cs[k].group == cs[k'].group;
  }

  lemma MeetingIdsAreRepeated(cs: seq<Class>) returns (id: string, id': string)
    requires RepeatsMeet(cs)
    ensures id != id' && Occurrences(cs, id) >= 2 && Occurrences(cs, id') >= 2
  {
    var c: nat, k: nat, k': nat;
    id, id', c, k, k' :|
      id != id' && c >= 2 && Nth(cs, id, c, k) && Nth(cs, id', c, k') && cs[k].group == cs[k'].group;
    assert cs[..|cs|] == cs;
    OccurrencesGrow(cs, id, k + 1, |cs|);
    OccurrencesGrow(cs, id', k' + 1, |cs|);
  }

  /** Two IDs are repeated. */
  ghost predicate TwoRepeated(cs: seq<Class>) {
    exists id, id' :: id != id' && Occurrences(cs, id) >= 2 && Occurrences(cs, id') >= 2
  }

  /** With a single backend group: if and only if at most one ID is repeated. */
  lemma RepeatsTravelAloneInOneGroup(cs: seq<Class>, group: string)
    requires forall k | 0 <= k < |cs| && cs[k].Routed? :: cs[k].group == group
    ensures RepeatsMeet(cs) <==> TwoRepeated(cs)
    ensures RepeatsTravelAlone(cs) <==> !TwoRepeated(cs)
  {
    RepeatsTravelAloneIff(cs);
    if TwoRepeated(cs) {
      var id, id' :| id != id' && Occurrences(cs, id) >= 2 && Occurrences(cs, id') >= 2;
      RepeatedIdsMeet(cs, group, id, id');
    }
    if RepeatsMeet(cs) {
      var id, id' := MeetingIdsAreRepeated(cs);
    }
  }

  /** IDs 1, 2, 1, 2 in one backend group: the second occurrences are in one batch group. */
  lemma RepeatsCanShareAGroup(cs: seq<Class>, group: string)
    requires |cs| == 4 && forall k | 0 <= k < 4 :: cs[k].Routed? && cs[k].group == group
    requires cs[0].req.id == cs[2].req.id == "1" && cs[1].req.id == cs[3].req.id == "2"
    ensures Members(cs, BatchGroup(2, group)) == [Elem(cs[2].req, 2), Elem(cs[3].req, 3)]
  {
    var c1, c2, c3 := cs[..1], cs[..2], cs[..3];
    assert cs[..4] == cs && c3[..2] == c2 && c3[..3] == c3 && c2[..1] == c1 && c2[..2] == c2;
    assert c1[..0] == [] && c1[..1] == c1;
    var g := BatchGroup(2, group);
    assert Occurrences(c1, "1") == 1 && Occurrences(c1, "2") == 0;
    assert Occurrences(c2, "1") == 1 && Occurrences(c2, "2") == 1;
    assert Occurrences(c3, "1") == 2 && Occurrences(c3, "2") == 1;
    assert Occurrences(cs, "2") == 2;
    assert Members(c1, g) == [];
    assert Members(c2, g) == [];
    assert Members(c3, g) == [Elem(cs[2].req, 2)];
  }
}
