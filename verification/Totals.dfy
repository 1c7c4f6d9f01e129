/**
 Sums over finite maps. Go code that accumulates `dst[k] += v` while ranging over a map visits the
 entries in an unspecified order, so everything here is defined from the map alone.
 */
module Totals {

  type Spend = map<string, int>

  /** A Go map read: the zero value for a missing key. */
  function Get<K>(m: map<K, int>, k: K): int {
    if k in m then m[k] else 0
  }

  ghost function Total<K>(m: map<K, int>): int
    decreases |m|
  {
    if m == map[] then 0 else
      var k :| k in m;
      m[k] + Total(m - {k})
  }

  lemma {:induction false} TotalSplit<K>(m: map<K, int>, k: K)
    requires k in m
    ensures Total(m) == m[k] + Total(m - {k})
    decreases |m|
  {
    var c :| c in m && Total(m) == m[c] + Total(m - {c});
    if c != k {
      TotalSplit(m - {c}, k);
      TotalSplit(m - {k}, c);
      assert m - {c} - {k} == m - {k} - {c};
    }
  }

  lemma TotalWithout<K>(m: map<K, int>, k: K)
    ensures Total(m) == Get(m, k) + Total(m - {k})
  {
    if k in m {
      TotalSplit(m, k);
    } else {
      assert m - {k} == m;
    }
  }

  lemma TotalUpdate<K>(m: map<K, int>, k: K, v: int)
    ensures Total(m[k := v]) == Total(m) - Get(m, k) + v
  {
    TotalSplit(m[k := v], k);
    TotalWithout(m, k);
    assert m[k := v] - {k} == m - {k};
  }

  lemma GetMinus<K>(m: map<K, int>, k: K, j: K)
    ensures Get(m - {k}, j) == if j == k then 0 else Get(m, j)
  {
  }

  lemma {:induction false} TotalNonNegative<K(!new)>(m: map<K, int>)
    requires forall k: K :: Get(m, k) >= 0
    ensures Total(m) >= 0
    decreases |m|
  {
    hide Get, Total;
    if m == map[] {
      TotalEmpty(m);
    } else {
      var k :| k in m;
      TotalWithout(m, k);
      forall j ensures Get(m - {k}, j) >= 0 { GetMinus(m, k, j); }
      TotalNonNegative(m - {k});
    }
  }

  /** What is at most as much of every key is at most as much in total. */
  lemma {:induction false} TotalAtMost<K(!new)>(a: map<K, int>, b: map<K, int>)
    requires forall k: K :: Get(a, k) <= Get(b, k)
    ensures Total(a) <= Total(b)
    decreases |a|
  {
    hide Get, Total;
    if a == map[] {
      TotalEmpty(a);
      forall k: K ensures Get(b, k) >= 0 { NothingAt(a, k); }
      TotalNonNegative(b);
    } else {
      var k :| k in a;
      TotalWithout(a, k);
      TotalWithout(b, k);
      forall j
        ensures Get(a - {k}, j) <= Get(b - {k}, j)
      {
        GetMinus(a, k, j);
        GetMinus(b, k, j);
      }
      TotalAtMost(a - {k}, b - {k});
    }
  }

  lemma NothingAt<K>(m: map<K, int>, k: K)
    ensures m == map[] ==> Get(m, k) == 0
  {
  }

  lemma UnionMinus<K, V>(a: map<K, V>, b: map<K, V>, k: K)
    requires k in a && k !in b
    ensures (a + b) - {k} == (a - {k}) + b
  {
  }

  /** `for k, v := range src { dst[k] += v }`, as one value. */
  function AddMaps<K>(a: map<K, int>, b: map<K, int>): map<K, int> {
    map k | k in a.Keys + b.Keys :: Get(a, k) + Get(b, k)
  }

  lemma AddMapsCommute<K>(a: map<K, int>, b: map<K, int>)
    ensures AddMaps(a, b) == AddMaps(b, a)
  {
    assert AddMaps(a, b).Keys == AddMaps(b, a).Keys;
  }

  lemma AddMapsAssociate<K>(a: map<K, int>, b: map<K, int>, c: map<K, int>)
    ensures AddMaps(a, AddMaps(b, c)) == AddMaps(AddMaps(a, b), c)
  {
    var l, r := AddMaps(a, AddMaps(b, c)), AddMaps(AddMaps(a, b), c);
    assert l.Keys == a.Keys + b.Keys + c.Keys;
    assert r.Keys == a.Keys + b.Keys + c.Keys;
    forall k | k in l
      ensures l[k] == r[k]
    {
      assert l[k] == Get(a, k) + Get(b, k) + Get(c, k);
    }
  }

  lemma AddMapsEmpty<K>(a: map<K, int>)
    ensures AddMaps(a, map[]) == a && AddMaps(map[], a) == a
  {
    assert AddMaps(a, map[]).Keys == a.Keys;
    assert AddMaps(map[], a).Keys == a.Keys;
  }

  lemma {:induction false} TotalAddMaps<K>(a: map<K, int>, b: map<K, int>)
    ensures Total(AddMaps(a, b)) == Total(a) + Total(b)
    decreases |b|
  {
    hide AddMaps, Total, Get;
    if b == map[] {
      AddMapsEmpty(a);
      TotalEmpty(b);
    } else {
      var k :| k in b;
      var rest := b - {k};
      assert b == rest[k := b[k]];
      TotalAddMaps(a, rest);
      AddMapsInsert(a, rest, k, b[k]);
      TotalUpdate(AddMaps(a, rest), k, Get(AddMaps(a, rest), k) + b[k]);
      TotalSplit(b, k);
    }
  }

  lemma TotalEmpty<K>(m: map<K, int>)
    requires m == map[]
    ensures Total(m) == 0
  {
  }

  lemma AddMapsInsert<K>(a: map<K, int>, b: map<K, int>, k: K, v: int)
    requires k !in b
    ensures AddMaps(a, b[k := v]) == AddMaps(a, b)[k := Get(AddMaps(a, b), k) + v]
  {
    assert AddMaps(a, b[k := v]).Keys == AddMaps(a, b).Keys + {k};
  }

  /** Ranging over a map, one key further: the visited part grows by that entry, if it is one. */
  lemma Visit<K, V>(all: map<K, V>, todo: set<K>, k: K)
    requires k in todo
    ensures all - (todo - {k}) == if k in all then (all - todo)[k := all[k]] else all - todo
    ensures k !in all - todo
  {
  }

  /** The sum of a family of spend maps. */
  ghost function Merge<K>(parts: map<K, Spend>): Spend
    decreases |parts|
  {
    if parts == map[] then map[] else
      var k :| k in parts;
      AddMaps(parts[k], Merge(parts - {k}))
  }

  lemma {:induction false} MergeSplit<K>(parts: map<K, Spend>, k: K)
    requires k in parts
    ensures Merge(parts) == AddMaps(parts[k], Merge(parts - {k}))
    decreases |parts|
  {
    var c :| c in parts && Merge(parts) == AddMaps(parts[c], Merge(parts - {c}));
    if c != k {
      MergeSplit(parts - {c}, k);
      MergeSplit(parts - {k}, c);
      assert parts - {c} - {k} == parts - {k} - {c};
      var rest := Merge(parts - {k} - {c});
      hide AddMaps;
      AddMapsAssociate(parts[c], parts[k], rest);
      AddMapsAssociate(parts[k], parts[c], rest);
      AddMapsCommute(parts[c], parts[k]);
    }
  }

  lemma MergeInsert<K>(parts: map<K, Spend>, k: K, s: Spend)
    requires k !in parts
    ensures Merge(parts[k := s]) == AddMaps(Merge(parts), s)
  {
    MergeSplit(parts[k := s], k);
    assert parts[k := s] - {k} == parts;
    AddMapsCommute(Merge(parts), s);
  }

  /** Replacing one part moves each namespace by the difference. */
  lemma MergeUpdate<K>(parts: map<K, Spend>, k: K, s: Spend, ns: string)
    ensures Get(Merge(parts[k := s]), ns) ==
            Get(Merge(parts), ns) - (if k in parts then Get(parts[k], ns) else 0) + Get(s, ns)
  {
    hide Merge, AddMaps, Get;
    MergeSplit(parts[k := s], k);
    assert parts[k := s] - {k} == parts - {k};
    AddMapsGet(s, Merge(parts - {k}), ns);
    if k in parts {
      MergeSplit(parts, k);
      AddMapsGet(parts[k], Merge(parts - {k}), ns);
    } else {
      assert parts - {k} == parts;
    }
  }

  /** The running sum of a range loop: nothing at the start, one part more per key, everything at the end. */
  ghost function MergeVisited<K>(all: map<K, Spend>, todo: set<K>): Spend {
    Merge(all - todo)
  }

  lemma MergeVisit<K>(all: map<K, Spend>, todo: set<K>, k: K)
    requires k in todo
    ensures MergeVisited(all, todo - {k}) ==
            if k in all then AddMaps(MergeVisited(all, todo), all[k]) else MergeVisited(all, todo)
  {
    hide AddMaps, Merge;
    Visit(all, todo, k);
    if k in all {
      MergeInsert(all - todo, k, all[k]);
    }
  }

  lemma MergeVisitedEnds<K>(all: map<K, Spend>, todo: set<K>)
    ensures all.Keys <= todo ==> MergeVisited(all, todo) == map[]
    ensures todo == {} ==> MergeVisited(all, todo) == Merge(all)
  {
    assert all.Keys <= todo ==> all - todo == map[];
    assert todo == {} ==> all - todo == all;
  }

  lemma {:induction false} MergeUnion<K>(a: map<K, Spend>, b: map<K, Spend>)
    requires forall k :: k in a ==> k !in b
    ensures Merge(a + b) == AddMaps(Merge(a), Merge(b))
    decreases |a|
  {
    hide AddMaps;
    if a == map[] {
      assert a + b == b;
      AddMapsEmpty(Merge(b));
    } else {
      var k :| k in a;
      var a' := a - {k};
      calc {
        Merge(a + b);
        { MergeSplit(a + b, k); UnionMinus(a, b, k); }
        AddMaps(a[k], Merge(a' + b));
        { MergeUnion(a', b); }
        AddMaps(a[k], AddMaps(Merge(a'), Merge(b)));
        { AddMapsAssociate(a[k], Merge(a'), Merge(b)); }
        AddMaps(AddMaps(a[k], Merge(a')), Merge(b));
        { MergeSplit(a, k); }
        AddMaps(Merge(a), Merge(b));
      }
    }
  }

  lemma MergeSingle<K>(k: K, s: Spend)
    ensures Merge(map[k := s]) == s
  {
    MergeInsert(map[], k, s);
    assert map[k := s] == map[][k := s];
    AddMapsEmpty(s);
  }

  /** The column of one namespace across a family of partials. */
  ghost function Column<K>(parts: map<K, Spend>, ns: string): map<K, int> {
    map k | k in parts && ns in parts[k] :: parts[k][ns]
  }

  lemma MinusLeft<K, V>(a: map<K, V>, b: map<K, V>, k: K)
    requires k !in b
    ensures (a + b) - {k} == (a - {k}) + b
  {
  }

  lemma UpdateIsUnion<K, V>(m: map<K, V>, k: K, v: V)
    ensures m[k := v] == (m - {k}) + map[k := v]
  {
  }

  lemma UpdateTwice<K, V>(m: map<K, V>, k: K, v: V)
    ensures m[k := v][k := v] == m[k := v]
  {
  }

  /** Collapsing some parts into one entry is invisible to a reader that skips another entry. */
  lemma MergeCollapse<K>(a: map<K, Spend>, b: map<K, Spend>, key: K, skip: K)
    requires forall k :: k in a ==> k !in b
    requires key !in a && skip !in b && skip != key
    ensures Merge((a + map[key := Merge(b)]) - {skip}) == Merge((a + b) - {skip})
  {
    hide Merge, AddMaps;
    var acc := map[key := Merge(b)];
    MinusLeft(a, b, skip);
    MinusLeft(a, acc, skip);
    MergeUnion(a - {skip}, b);
    MergeUnion(a - {skip}, acc);
    MergeSingle(key, Merge(b));
  }

  lemma {:induction false} MergeKeys<K>(parts: map<K, Spend>, ns: string)
    ensures ns in Merge(parts) <==> exists k :: k in parts && ns in parts[k]
    decreases |parts|
  {
    if parts != map[] {
      var k :| k in parts;
      MergeSplit(parts, k);
      MergeKeys(parts - {k}, ns);
      assert forall c :: c in parts && c != k ==> c in parts - {k};
    }
  }

  lemma AddMapsGet<K>(a: map<K, int>, b: map<K, int>, k: K)
    ensures Get(AddMaps(a, b), k) == Get(a, k) + Get(b, k)
  {
  }

  lemma ColumnMinus<K>(parts: map<K, Spend>, ns: string, k: K)
    requires k in parts
    ensures Column(parts - {k}, ns) == Column(parts, ns) - {k}
    ensures Get(Column(parts, ns), k) == Get(parts[k], ns)
  {
    assert Column(parts - {k}, ns).Keys == (Column(parts, ns) - {k}).Keys;
  }

  /** `Merge` is the column-wise sum: what it says about one namespace is the plain total over the parts. */
  lemma {:induction false} MergeColumn<K>(parts: map<K, Spend>, ns: string)
    ensures Get(Merge(parts), ns) == Total(Column(parts, ns))
    decreases |parts|
  {
    if parts == map[] {
      assert Column(parts, ns) == map[];
    } else {
      hide AddMaps, Column, Merge, Total, Get;
      var k :| k in parts;
      MergeSplit(parts, k);
      MergeColumn(parts - {k}, ns);
      AddMapsGet(parts[k], Merge(parts - {k}), ns);
      ColumnMinus(parts, ns, k);
      TotalWithout(Column(parts, ns), k);
    }
  }
}
