/**
 Putting the answers of one upstream batch back into request order.
 The sort is in place and need not be stable, so only its contract (sorted, a permutation) is used.
 */
module BatchSort {
  import opened Common
  import opened JsonRpc

  /** `pos[string(id)]`: a missing key reads as zero. */
  function Rank(pos: map<string, nat>, id: string): nat {
    if id in pos then pos[id] else 0
  }

  predicate Sorted(pos: map<string, nat>, s: seq<Res>) {
    forall i, j | 0 <= i < j < |s| :: Rank(pos, s[i].id) <= Rank(pos, s[j].id)
  }

  /** `pos` sends the ID of each request to that request's position, and nothing else. */
  predicate IsPositionMap(reqs: seq<Req>, pos: map<string, nat>) {
    && (forall i | 0 <= i < |reqs| :: reqs[i].id in pos && pos[reqs[i].id] == i)
    && (forall id | id in pos :: pos[id] < |reqs| && reqs[pos[id]].id == id)
  }

  method SwapDown(a: array<Res>, j: nat)
    requires 0 < j < a.Length
    modifies a
    ensures a[..] == old(a[..])[j - 1 := old(a[j])][j := old(a[j - 1])]
    ensures multiset(a[..]) == old(multiset(a[..]))
  {
    a[j - 1], a[j] := a[j], a[j - 1];
  }

  /** a[..n + 1] is sorted once its element j is left out, and nothing after j is below it. */
  predicate SortedBut(pos: map<string, nat>, s: seq<Res>, j: nat) {
    forall p, q | 0 <= p < q < |s| && q != j :: Rank(pos, s[p].id) <= Rank(pos, s[q].id)
  }

  lemma SortedButDown(pos: map<string, nat>, s: seq<Res>, j: nat)
    requires 0 < j < |s| && SortedBut(pos, s, j) && Rank(pos, s[j].id) < Rank(pos, s[j - 1].id)
    ensures SortedBut(pos, s[j - 1 := s[j]][j := s[j - 1]], j - 1)
  {
    var t := s[j - 1 := s[j]][j := s[j - 1]];
    forall p, q | 0 <= p < q < |t| && q != j - 1 ensures Rank(pos, t[p].id) <= Rank(pos, t[q].id) {
      var p' := if p == j - 1 then j else if p == j then j - 1 else p;
      var q' := if q == j then j - 1 else q;
      assert t[p] == s[p'] && t[q] == s[q'];
    }
  }

  /** Moves a[n] down into the sorted prefix a[..n]. */
  method Sink(a: array<Res>, n: nat, pos: map<string, nat>)
    requires n < a.Length
    requires Sorted(pos, a[..n])
    modifies a
    ensures Sorted(pos, a[..n + 1])
    ensures multiset(a[..]) == old(multiset(a[..]))
  {
    var j := n;
    assert a[..n + 1][..n] == a[..n];
    while j > 0 && Rank(pos, a[j].id) < Rank(pos, a[j - 1].id)
      invariant 0 <= j <= n
      invariant multiset(a[..]) == old(multiset(a[..]))
      invariant SortedBut(pos, a[..n + 1], j)
    {
      ghost var s := a[..n + 1];
      SortedButDown(pos, s, j);
      SwapDown(a, j);
      assert a[..n + 1] == s[j - 1 := s[j]][j := s[j - 1]];
      j := j - 1;
    }
  }

  method SortSlice(a: array<Res>, pos: map<string, nat>)
    modifies a
    ensures Sorted(pos, a[..])
    ensures multiset(a[..]) == old(multiset(a[..]))
  {
    for n := 0 to a.Length
      invariant Sorted(pos, a[..n])
      invariant multiset(a[..]) == old(multiset(a[..]))
    {
      Sink(a, n, pos);
    }
    assert a[..a.Length] == a[..];
  }

  /** Panics exactly on duplicate request IDs; otherwise every answer sits at its request's position
      if and only if the answers carry the request IDs, each once. */
  method SortBatchRPCResponse(reqs: seq<Req>, res: array<Res>) returns (panicked: bool)
    requires res.Length == |reqs|
    modifies res
    ensures panicked <==> !DistinctIds(reqs)
    ensures multiset(res[..]) == old(multiset(res[..]))
    ensures !panicked ==>
              (ReqIds(reqs) == ResIds(res[..]) <==> multiset(ResIds(old(res[..]))) == multiset(ReqIds(reqs)))
  {
    var pos: map<string, nat> := map[];
    for i := 0 to |reqs|
      invariant IsPositionMap(reqs[..i], pos)
      invariant DistinctIds(reqs[..i])
    {
      if reqs[i].id in pos {
        assert reqs[pos[reqs[i].id]].id == reqs[i].id;
        return true;
      }
      pos := pos[reqs[i].id := i];
    }
    assert reqs[..|reqs|] == reqs;
    ghost var before := res[..];
    SortSlice(res, pos);
    IdsOfPermutation(before, res[..]);
    SortedPlacesIds(reqs, res[..], pos);
    return false;
  }

  function Without(s: seq<Res>, k: nat): seq<Res>
    requires k < |s|
  {
    s[..k] + s[k + 1..]
  }

  lemma WithoutCounts(s: seq<Res>, k: nat)
    requires k < |s|
    ensures multiset(s) == multiset(Without(s, k)) + multiset{s[k]}
    ensures multiset(ResIds(s)) == multiset(ResIds(Without(s, k))) + multiset{s[k].id}
  {
    assert s == s[..k] + [s[k]] + s[k + 1..];
    var before, after := ResIds(s[..k]), ResIds(s[k + 1..]);
    assert ResIds(s) == before + [s[k].id] + after;
    assert ResIds(Without(s, k)) == before + after;
  }

  /** Equal multisets of answers carry equal multisets of IDs. */
  lemma {:induction false} IdsOfPermutation(a: seq<Res>, b: seq<Res>)
    requires multiset(a) == multiset(b)
    ensures multiset(ResIds(a)) == multiset(ResIds(b))
    decreases |a|
  {
    if a == [] {
      assert |multiset(b)| == 0;
    } else {
      assert a[0] in multiset(b);
      var k :| 0 <= k < |b| && b[k] == a[0];
      WithoutCounts(a, 0);
      WithoutCounts(b, k);
      assert multiset(Without(a, 0)) == multiset(a) - multiset{a[0]} == multiset(Without(b, k));
      IdsOfPermutation(Without(a, 0), Without(b, k));
    }
  }

  lemma SortedPlacesIds(reqs: seq<Req>, res: seq<Res>, pos: map<string, nat>)
    requires |res| == |reqs| && DistinctIds(reqs) && IsPositionMap(reqs, pos) && Sorted(pos, res)
    ensures ReqIds(reqs) == ResIds(res) <==> multiset(ResIds(res)) == multiset(ReqIds(reqs))
  {
    var ids, want := ResIds(res), ReqIds(reqs);
    if multiset(ids) == multiset(want) {
      assert NoDuplicates(want);
      SameElementsOnce(ids, want);
      var ranks := seq(|res|, i requires 0 <= i < |res| => Rank(pos, ids[i]));
      forall i | 0 <= i < |res| ensures ids[i] in pos {
        assert ids[i] in want;
      }
      assert forall i | 0 <= i < |res| :: want[ranks[i]] == ids[i];
      forall i, j | 0 <= i < j < |res| ensures ranks[i] < ranks[j] {
        assert res[i].id == ids[i] != ids[j] == res[j].id;
      }
      StrictRanksAreIndices(ranks);
      assert ids == want;
    }
  }

  /** A permutation of a duplicate-free sequence has the same members and no duplicates. */
  lemma SameElementsOnce(s: seq<string>, t: seq<string>)
    requires multiset(s) == multiset(t) && NoDuplicates(t)
    ensures NoDuplicates(s) && forall x | x in s :: x in t
  {
    forall x | x in s ensures x in t {
      assert x in multiset(s);
    }
    forall i, j | 0 <= i < j < |s| ensures s[i] != s[j] {
      if s[i] == s[j] {
        RepeatedTwice(s, i, j);
        AtMostOnce(t, s[i]);
      }
    }
  }

  lemma RepeatedTwice(s: seq<string>, i: nat, j: nat)
    requires i < j < |s| && s[i] == s[j]
    ensures multiset(s)[s[i]] >= 2
  {
    assert s == s[..i] + [s[i]] + s[i + 1..j] + [s[j]] + s[j + 1..];
  }

  lemma {:induction false} AtMostOnce(s: seq<string>, x: string)
    requires NoDuplicates(s)
    ensures multiset(s)[x] <= 1
  {
    if s != [] {
      AtMostOnce(s[1..], x);
      assert s == [s[0]] + s[1..];
      if x == s[0] {
        assert x !in s[1..];
      }
    }
  }

  /** n strictly increasing numbers below n are 0, 1, ..., n - 1. */
  lemma StrictRanksAreIndices(ranks: seq<nat>)
    requires forall i | 0 <= i < |ranks| :: ranks[i] < |ranks|
    requires forall i, j | 0 <= i < j < |ranks| :: ranks[i] < ranks[j]
    ensures forall i | 0 <= i < |ranks| :: ranks[i] == i
  {
    var n := |ranks|;
    forall i | 0 <= i < n ensures ranks[i] == i {
      var lo := i;
      while lo > 0
        invariant 0 <= lo <= i
        invariant ranks[lo] - lo <= ranks[i] - i
      { lo := lo - 1; }
      var hi := i;
      while hi < n - 1
        invariant i <= hi < n
        invariant ranks[hi] - hi >= ranks[i] - i
      { hi := hi + 1; }
    }
  }
}
