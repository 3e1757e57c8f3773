/** Sums over tables: over an append-only sequence and over a keyed map. */
module Sums {

  /** The sum of `f` over a sequence, last element outermost because ledgers grow at the end. */
  ghost function Total<T>(s: seq<T>, f: T -> int): int {
    if s == [] then 0 else Total(s[..|s| - 1], f) + f(s[|s| - 1])
  }

  lemma {:induction false} TotalConcat<T>(s: seq<T>, t: seq<T>, f: T -> int)
    ensures Total(s + t, f) == Total(s, f) + Total(t, f)
  {
    if t == [] {
      assert s + t == s;
    } else {
      assert (s + t)[..|s + t| - 1] == s + t[..|t| - 1];
      TotalConcat(s, t[..|t| - 1], f);
    }
  }

  lemma TotalOne<T>(a: T, f: T -> int)
    ensures Total([a], f) == f(a)
  {
    assert [a][..0] == [];
  }

  lemma TotalTwo<T>(a: T, b: T, f: T -> int)
    ensures Total([a, b], f) == f(a) + f(b)
  {
    assert [a, b][..1] == [a];
    TotalOne(a, f);
  }

  lemma TotalThree<T>(a: T, b: T, c: T, f: T -> int)
    ensures Total([a, b, c], f) == f(a) + f(b) + f(c)
  {
    assert [a, b, c][..2] == [a, b];
    TotalTwo(a, b, f);
  }

  /** A sum over a sequence that maps element by element to another one. */
  lemma {:induction false} TotalPointwise<S, T>(s: seq<S>, t: seq<T>, f: S -> int, g: T -> int)
    requires |s| == |t|
    requires forall i :: 0 <= i < |s| ==> f(s[i]) == g(t[i])
    ensures Total(s, f) == Total(t, g)
  {
    if s != [] {
      TotalPointwise(s[..|s| - 1], t[..|t| - 1], f, g);
    }
  }

  /** Sums depend only on how often each element occurs. */
  lemma {:induction false} TotalPermuted<T>(s: seq<T>, t: seq<T>, f: T -> int)
    requires multiset(s) == multiset(t)
    ensures Total(s, f) == Total(t, f)
    decreases |s|
  {
    if s == [] {
      assert |multiset(t)| == 0;
      assert t == [];
    } else {
      var last := s[|s| - 1];
      assert last in multiset(t);
      var i :| 0 <= i < |t| && t[i] == last;
      var before, after := t[..i], t[i + 1..];
      assert t == before + [last] + after;
      assert s == s[..|s| - 1] + [last];
      assert multiset(s) == multiset(s[..|s| - 1]) + multiset{last};
      assert multiset(t) == multiset(before + after) + multiset{last};
      assert multiset(s[..|s| - 1]) == multiset(s) - multiset{last} == multiset(before + after);
      TotalPermuted(s[..|s| - 1], before + after, f);
      TotalConcat(before, after, f);
      TotalConcat(before + [last], after, f);
      TotalConcat(before, [last], f);
      TotalOne(last, f);
    }
  }

  /** The sum of `f` over the rows of a table. */
  ghost function Sum<K, V>(m: map<K, V>, f: V -> int): int
    decreases |m|
  {
    if m == map[] then 0 else
      var k :| k in m;
      f(m[k]) + Sum(m - {k}, f)
  }

  lemma {:induction false} SumRemove<K, V>(m: map<K, V>, k: K, f: V -> int)
    requires k in m
    ensures Sum(m, f) == f(m[k]) + Sum(m - {k}, f)
    decreases |m|
  {
    var j :| j in m && Sum(m, f) == f(m[j]) + Sum(m - {j}, f);
    if j != k {
      SumRemove(m - {j}, k, f);
      SumRemove(m - {k}, j, f);
      assert m - {j} - {k} == m - {k} - {j};
    }
  }

  ghost function ValueOr<K, V>(m: map<K, V>, k: K, f: V -> int): int {
    if k in m then f(m[k]) else 0
  }

  /** Writing one row changes the sum by the change of that row; an absent row counts zero. */
  lemma SumPut<K, V>(m: map<K, V>, k: K, v: V, f: V -> int)
    ensures Sum(m[k := v], f) == Sum(m, f) - ValueOr(m, k, f) + f(v)
  {
    SumRemove(m[k := v], k, f);
    assert m[k := v] - {k} == m - {k};
    if k in m {
      SumRemove(m, k, f);
    } else {
      assert m - {k} == m;
    }
  }

  lemma {:induction false} SumSame<K, V>(m: map<K, V>, n: map<K, V>, f: V -> int)
    requires m.Keys == n.Keys
    requires forall k :: k in m ==> f(m[k]) == f(n[k])
    ensures Sum(m, f) == Sum(n, f)
    decreases |m|
  {
    if m == map[] {
      assert n == map[];
    } else {
      var k :| k in m;
      SumRemove(m, k, f);
      SumRemove(n, k, f);
      SumSame(m - {k}, n - {k}, f);
    }
  }

  /** If two tables agree under `f` except at `p` and `q`, only those two rows move the sum. */
  lemma SumTwoRows<K, V>(m: map<K, V>, n: map<K, V>, p: K, q: K, f: V -> int)
    requires m.Keys == n.Keys && p in m && q in m && p != q
    requires forall k :: k in m && k != p && k != q ==> f(m[k]) == f(n[k])
    ensures Sum(n, f) == Sum(m, f) + f(n[p]) - f(m[p]) + f(n[q]) - f(m[q])
  {
    SumRemove(m, p, f);
    SumRemove(m - {p}, q, f);
    SumRemove(n, p, f);
    SumRemove(n - {p}, q, f);
    SumSame(m - {p} - {q}, n - {p} - {q}, f);
  }

  lemma {:induction false} SumAtMost<K, V>(m: map<K, V>, f: V -> int, g: V -> int)
    requires forall k :: k in m ==> f(m[k]) <= g(m[k])
    ensures Sum(m, f) <= Sum(m, g)
    decreases |m|
  {
    if m != map[] {
      var k :| k in m;
      SumRemove(m, k, f);
      SumRemove(m, k, g);
      SumAtMost(m - {k}, f, g);
    }
  }

  function Zero<V>(): V -> int {
    (v: V) => 0
  }

  lemma {:induction false} SumZero<K, V>(m: map<K, V>)
    ensures Sum(m, Zero<V>()) == 0
    decreases |m|
  {
    if m != map[] {
      var k :| k in m;
      SumRemove(m, k, Zero<V>());
      SumZero(m - {k});
    }
  }

  /** One row never exceeds the sum of rows that are all non-negative. */
  lemma SumCovers<K, V>(m: map<K, V>, k: K, f: V -> int)
    requires k in m
    requires forall j :: j in m ==> 0 <= f(m[j])
    ensures f(m[k]) <= Sum(m, f)
  {
    SumRemove(m, k, f);
    SumZero(m - {k});
    SumAtMost(m - {k}, Zero<V>(), f);
  }
}
