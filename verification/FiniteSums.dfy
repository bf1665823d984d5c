/** Sums of the values of finite maps: the arithmetic of "all balances together". */
module FiniteSums {

  ghost function Total<K(!new)>(m: map<K, int>): int
    decreases |m|
  {
    if m == map[] then 0
    else
      var k :| k in m;
      assert |m - {k}| < |m| by { assert (m - {k}).Keys == m.Keys - {k}; }
      m[k] + Total(m - {k})
  }

  lemma {:induction false} TotalTake<K(!new)>(m: map<K, int>, k: K)
    requires k in m
    ensures Total(m) == m[k] + Total(m - {k})
    decreases |m|
  {
    var j :| j in m && Total(m) == m[j] + Total(m - {j});
    if j != k {
      var mj, mk := m - {j}, m - {k};
      assert mj.Keys == m.Keys - {j};
      assert mk.Keys == m.Keys - {k};
      TotalTake(mj, k);
      TotalTake(mk, j);
      assert mj - {k} == mk - {j};
    }
  }

  lemma TotalInsert<K(!new)>(m: map<K, int>, k: K, v: int)
    ensures Total(m[k := v]) == Total(m) - (if k in m then m[k] else 0) + v
  {
    var m' := m[k := v];
    TotalTake(m', k);
    assert m' - {k} == m - {k};
    if k in m {
      TotalTake(m, k);
    } else {
      assert m - {k} == m;
    }
  }

  /** The entries of m whose keys are in `part`. */
  function Only<K, V>(m: map<K, V>, part: set<K>): (r: map<K, V>)
    ensures r.Keys == m.Keys * part
    ensures forall k | k in r :: r[k] == m[k]
  {
    map k | k in m && k in part :: m[k]
  }

  /** Summing over part of the keys and over the rest. */
  lemma {:induction false} TotalSplit<K(!new)>(m: map<K, int>, part: set<K>)
    ensures Total(m) == Total(Only(m, part)) + Total(m - part)
    decreases part
  {
    if part == {} {
      assert Only(m, part) == map[];
      assert m - part == m;
    } else {
      var k :| k in part;
      var rest := part - {k};
      TotalSplit(m, rest);
      if k in m {
        TotalTake(m - rest, k);
        assert (m - rest) - {k} == m - part;
        TotalTake(Only(m, part), k);
        assert Only(m, part) - {k} == Only(m, rest);
      } else {
        assert Only(m, part) == Only(m, rest);
        assert m - part == m - rest;
      }
    }
  }

  lemma TotalUnion<K(!new)>(m: map<K, int>, n: map<K, int>)
    requires m.Keys !! n.Keys
    ensures Total(m + n) == Total(m) + Total(n)
  {
    TotalSplit(m + n, m.Keys);
    assert Only(m + n, m.Keys) == m;
    assert (m + n) - m.Keys == n;
  }

  lemma {:induction false} TotalZeros<K(!new)>(m: map<K, int>)
    requires forall k | k in m :: m[k] == 0
    ensures Total(m) == 0
    decreases |m|
  {
    if m != map[] {
      var k :| k in m;
      TotalTake(m, k);
      assert (m - {k}).Keys == m.Keys - {k};
      TotalZeros(m - {k});
    }
  }

  /** Non-negative values sum to zero only if they are all zero. */
  lemma {:induction false} TotalNonNegative<K(!new)>(m: map<K, int>)
    requires forall k | k in m :: m[k] >= 0
    ensures Total(m) >= 0
    ensures Total(m) == 0 ==> forall k | k in m :: m[k] == 0
    decreases |m|
  {
    if m != map[] {
      var k :| k in m;
      TotalTake(m, k);
      assert (m - {k}).Keys == m.Keys - {k};
      TotalNonNegative(m - {k});
      assert forall j | j in m :: j == k || j in m - {k};
    }
  }

  /** Two maps with the same non-zero part have the same total. */
  lemma TotalIgnoresZeros<K(!new)>(m: map<K, int>, n: map<K, int>)
    requires forall k | k in m :: if k in n then m[k] == n[k] else m[k] == 0
    requires forall k | k in n && k !in m :: n[k] == 0
    ensures Total(m) == Total(n)
  {
    TotalSplit(m, n.Keys);
    TotalSplit(n, m.Keys);
    TotalZeros(m - n.Keys);
    TotalZeros(n - m.Keys);
    assert Only(m, n.Keys) == Only(n, m.Keys);
  }

  /** Re-indexing by an injective key function does not change a total. */
  lemma {:induction false} TotalRekey<K(!new), L(!new)>(m: map<K, int>, n: map<L, int>, f: K -> L)
    requires forall k | k in m :: f(k) in n && n[f(k)] == m[k]
    requires forall j, k | j in m && k in m && f(j) == f(k) :: j == k
    requires forall l | l in n :: exists k :: k in m && f(k) == l
    ensures Total(m) == Total(n)
    decreases |m|
  {
    if m == map[] {
      assert n == map[];
    } else {
      var k :| k in m;
      var m', n' := m - {k}, n - {f(k)};
      assert m'.Keys == m.Keys - {k};
      forall l | l in n' ensures exists j :: j in m' && f(j) == l {
        var j :| j in m && f(j) == l;
        assert j in m';
      }
      TotalRekey(m', n', f);
      TotalTake(m, k);
      TotalTake(n, f(k));
    }
  }

  function Get<K>(m: map<K, int>, k: K): int {
    if k in m then m[k] else 0
  }

  lemma TotalDrop<K(!new)>(m: map<K, int>, k: K)
    ensures Total(m) == Get(m, k) + Total(m - {k})
  {
    if k in m {
      TotalTake(m, k);
    } else {
      assert m - {k} == m;
    }
  }

  /** s is m plus n, key by key. */
  ghost predicate Pointwise<K(!new)>(m: map<K, int>, n: map<K, int>, s: map<K, int>) {
    s.Keys == m.Keys + n.Keys && forall k | k in s :: s[k] == Get(m, k) + Get(n, k)
  }

  lemma PointwiseDrop<K(!new)>(m: map<K, int>, n: map<K, int>, s: map<K, int>, k: K)
    requires Pointwise(m, n, s)
    ensures Pointwise(m - {k}, n - {k}, s - {k})
  {
    assert (m - {k}).Keys == m.Keys - {k};
    assert (n - {k}).Keys == n.Keys - {k};
    assert (s - {k}).Keys == s.Keys - {k};
  }

  /** Totals add up pointwise. */
  lemma {:induction false} TotalAdd<K(!new)>(m: map<K, int>, n: map<K, int>, s: map<K, int>)
    requires Pointwise(m, n, s)
    ensures Total(s) == Total(m) + Total(n)
    decreases |s|
  {
    if s == map[] {
      assert m.Keys == {} && n.Keys == {};
      assert m == map[] && n == map[];
    } else {
      var k :| k in s;
      PointwiseDrop(m, n, s, k);
      assert (s - {k}).Keys == s.Keys - {k};
      TotalAdd(m - {k}, n - {k}, s - {k});
      TotalDrop(m, k);
      TotalDrop(n, k);
      TotalDrop(s, k);
    }
  }
}
