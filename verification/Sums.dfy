/** What SQL's `sum` means over a table: a table is a finite map from primary keys to rows,
    and a column of it is a function from key and row to an amount. */
module Sums {

  /** `select coalesce(sum(f), 0) from m`. */
  ghost function Sum<K, V>(m: map<K, V>, f: (K, V) -> real): real
    decreases |m|
  {
    if m == map[] then 0.0
    else
      var k :| k in m;
      assert m.Keys == (m - {k}).Keys + {k};
      f(k, m[k]) + Sum(m - {k}, f)
  }

  /** Any row may be taken out first: the order of summation does not matter. */
  lemma {:induction false} SumTake<K, V>(m: map<K, V>, f: (K, V) -> real, k: K)
    requires k in m
    ensures Sum(m, f) == f(k, m[k]) + Sum(m - {k}, f)
    decreases |m|
  {
    var j :| j in m && Sum(m, f) == f(j, m[j]) + Sum(m - {j}, f);
    assert m.Keys == (m - {j}).Keys + {j};
    assert m.Keys == (m - {k}).Keys + {k};
    if j != k {
      SumTake(m - {j}, f, k);
      SumTake(m - {k}, f, j);
      assert m - {j} - {k} == m - {k} - {j};
    }
  }

  /** Inserting or overwriting one row. */
  lemma SumPut<K, V>(m: map<K, V>, f: (K, V) -> real, k: K, v: V)
    ensures Sum(m[k := v], f) == Sum(m - {k}, f) + f(k, v)
    ensures k in m ==> Sum(m[k := v], f) == Sum(m, f) - f(k, m[k]) + f(k, v)
    ensures k !in m ==> Sum(m[k := v], f) == Sum(m, f) + f(k, v)
  {
    SumTake(m[k := v], f, k);
    assert m[k := v] - {k} == m - {k};
    if k in m {
      SumTake(m, f, k);
    } else {
      assert m - {k} == m;
    }
  }

  lemma SomeRow<K, V>(m: map<K, V>) returns (k: K)
    requires m != map[]
    ensures k in m
  {
    k :| k in m;
  }

  /** Two tables with the same keys whose rows contribute alike have the same sum. */
  lemma {:induction false} SumCong<K, V, W>(m: map<K, V>, f: (K, V) -> real, n: map<K, W>, g: (K, W) -> real)
    requires m.Keys == n.Keys
    requires forall k :: k in m ==> f(k, m[k]) == g(k, n[k])
    ensures Sum(m, f) == Sum(n, g)
    decreases |m|
  {
    if m == map[] {
      assert n == map[];
    } else {
      var k :| k in m;
      SumTake(m, f, k);
      SumTake(n, g, k);
      assert m.Keys == (m - {k}).Keys + {k};
      SumCong(m - {k}, f, n - {k}, g);
    }
  }

  /** Rows that contribute nothing may be dropped. */
  lemma {:induction false} SumZero<K, V>(m: map<K, V>, f: (K, V) -> real)
    requires forall k :: k in m ==> f(k, m[k]) == 0.0
    ensures Sum(m, f) == 0.0
    decreases |m|
  {
    if m != map[] {
      var k :| k in m;
      SumTake(m, f, k);
      assert m.Keys == (m - {k}).Keys + {k};
      SumZero(m - {k}, f);
    }
  }

  /** A column that is the sum of two others. */
  lemma {:induction false} SumAdd<K, V>(m: map<K, V>, f: (K, V) -> real, g: (K, V) -> real, h: (K, V) -> real)
    requires forall k :: k in m ==> h(k, m[k]) == f(k, m[k]) + g(k, m[k])
    ensures Sum(m, h) == Sum(m, f) + Sum(m, g)
    decreases |m|
  {
    if m != map[] {
      var k :| k in m;
      SumTake(m, f, k);
      SumTake(m, g, k);
      SumTake(m, h, k);
      assert m.Keys == (m - {k}).Keys + {k};
      SumAdd(m - {k}, f, g, h);
    }
  }

  /** A column that is the difference of two others. */
  lemma SumSub<K, V>(m: map<K, V>, f: (K, V) -> real, g: (K, V) -> real, h: (K, V) -> real)
    requires forall k :: k in m ==> h(k, m[k]) == f(k, m[k]) - g(k, m[k])
    ensures Sum(m, h) == Sum(m, f) - Sum(m, g)
  {
    SumAdd(m, h, g, f);
  }

  /** Two columns that agree except possibly in one row. */
  lemma SumOneOff<K, V>(m: map<K, V>, f: (K, V) -> real, g: (K, V) -> real, k: K)
    requires k in m
    requires forall j :: j in m && j != k ==> f(j, m[j]) == g(j, m[j])
    ensures Sum(m, f) - Sum(m, g) == f(k, m[k]) - g(k, m[k])
  {
    SumTake(m, f, k);
    SumTake(m, g, k);
    SumCong(m - {k}, f, m - {k}, g);
  }

  /** Rows outside a set of keys contribute nothing: the sum over the table is the sum over the set. */
  lemma {:induction false} SumRestrict<K, V>(m: map<K, V>, f: (K, V) -> real, drop: set<K>)
    requires forall k :: k in m && k in drop ==> f(k, m[k]) == 0.0
    ensures Sum(m, f) == Sum(m - drop, f)
    decreases |m|
  {
    if k :| k in m && k in drop {
      SumTake(m, f, k);
      assert m.Keys == (m - {k}).Keys + {k};
      SumRestrict(m - {k}, f, drop);
      assert m - {k} - drop == m - drop;
    } else {
      assert m - drop == m;
    }
  }

  /** Columns that differ, row by row, by at most a third. */
  lemma {:induction false} SumNear<K, V>(m: map<K, V>, f: (K, V) -> real, g: (K, V) -> real, c: (K, V) -> real)
    requires forall k :: k in m ==> -c(k, m[k]) <= f(k, m[k]) - g(k, m[k]) <= c(k, m[k])
    ensures -Sum(m, c) <= Sum(m, f) - Sum(m, g) <= Sum(m, c)
    decreases |m|
  {
    if m != map[] {
      var k :| k in m;
      SumTake(m, f, k);
      SumTake(m, g, k);
      SumTake(m, c, k);
      assert m.Keys == (m - {k}).Keys + {k};
      SumNear(m - {k}, f, g, c);
    }
  }

  /** A column that is nowhere larger. */
  lemma {:induction false} SumMono<K, V>(m: map<K, V>, f: (K, V) -> real, g: (K, V) -> real)
    requires forall k :: k in m ==> f(k, m[k]) <= g(k, m[k])
    ensures Sum(m, f) <= Sum(m, g)
    decreases |m|
  {
    if m != map[] {
      var k :| k in m;
      SumTake(m, f, k);
      SumTake(m, g, k);
      assert m.Keys == (m - {k}).Keys + {k};
      SumMono(m - {k}, f, g);
    }
  }

  /** A table in two parts. */
  lemma SumSplit<K, V>(m: map<K, V>, f: (K, V) -> real, part: set<K>)
    requires part <= m.Keys
    ensures Sum(m, f) == Sum(m - part, f) + Sum(m - (m.Keys - part), f)
  {
    var inside := (k: K, v: V) => if k in part then f(k, v) else 0.0;
    var outside := (k: K, v: V) => if k in part then 0.0 else f(k, v);
    SumAdd(m, outside, inside, f);
    SumRestrict(m, outside, part);
    SumRestrict(m, inside, m.Keys - part);
    SumCong(m - part, outside, m - part, f);
    SumCong(m - (m.Keys - part), inside, m - (m.Keys - part), f);
  }

  /** Two tables whose rows differ by the rows `kept` of a third, whose other rows contribute nothing. */
  lemma {:induction false} SumDiff<K, V, W, X>(m: map<K, V>, f: (K, V) -> real, n: map<K, W>, g: (K, W) -> real,
                                               w: map<K, X>, h: (K, X) -> real, kept: set<K>)
    requires m.Keys == n.Keys && kept <= m.Keys && kept <= w.Keys
    requires forall k :: k in m ==> f(k, m[k]) == g(k, n[k]) + (if k in kept then h(k, w[k]) else 0.0)
    requires forall k :: k in w && k !in kept ==> h(k, w[k]) == 0.0
    ensures Sum(m, f) == Sum(n, g) + Sum(w, h)
    decreases |m|
  {
    if m == map[] {
      assert n == map[];
      SumZero(w, h);
    } else {
      var k :| k in m;
      SumTake(m, f, k);
      SumTake(n, g, k);
      assert m.Keys == (m - {k}).Keys + {k};
      if k in kept {
        SumTake(w, h, k);
        SumDiff(m - {k}, f, n - {k}, g, w - {k}, h, kept - {k});
      } else {
        SumDiff(m - {k}, f, n - {k}, g, w, h, kept);
      }
    }
  }

  /** Rows of `m` whose foreign key `link` is `l`, as a column. */
  ghost function Fibre<K, V, L(!new)>(f: (K, V) -> real, link: (K, V) -> L, l: L): (K, V) -> real {
    (k, v) => if link(k, v) == l then f(k, v) else 0.0
  }

  /** Sum of `f` over the rows of `m` that refer to row `l` of `n`, for the rows of `n` picked by `pick`. */
  ghost function PerGroup<K, V, L(!new), W>(m: map<K, V>, f: (K, V) -> real, link: (K, V) -> L, pick: (L, W) -> bool)
    : (L, W) -> real
  {
    (l, w) => if pick(l, w) then Sum(m, Fibre(f, link, l)) else 0.0
  }

  /** Rows of `m` that refer to a picked row of `n`, as a column. */
  ghost function InPicked<K, V, L(!new), W>(n: map<L, W>, f: (K, V) -> real, link: (K, V) -> L, pick: (L, W) -> bool)
    : (K, V) -> real
  {
    (k, v) => if link(k, v) in n && pick(link(k, v), n[link(k, v)]) then f(k, v) else 0.0
  }

  /** Grouping: summing the per-group sums over the picked groups is summing once over the rows of those groups. */
  lemma {:induction false} SumByGroup<K, V, L(!new), W>(
      m: map<K, V>, f: (K, V) -> real, link: (K, V) -> L, n: map<L, W>, pick: (L, W) -> bool)
    ensures Sum(n, PerGroup(m, f, link, pick)) == Sum(m, InPicked(n, f, link, pick))
    decreases |m|
  {
    if m == map[] {
      forall j | j in n ensures PerGroup(m, f, link, pick)(j, n[j]) == 0.0 {
        SumZero(m, Fibre(f, link, j));
      }
      SumZero(n, PerGroup(m, f, link, pick));
    } else {
      var k :| k in m;
      var rest, l := m - {k}, link(k, m[k]);
      assert m.Keys == rest.Keys + {k};
      SumByGroup(rest, f, link, n, pick);
      SumTake(m, InPicked(n, f, link, pick), k);
      forall j | j in n
        ensures Sum(m, Fibre(f, link, j)) == Sum(rest, Fibre(f, link, j)) + (if j == l then f(k, m[k]) else 0.0)
      {
        SumTake(m, Fibre(f, link, j), k);
      }
      var all, less := PerGroup(m, f, link, pick), PerGroup(rest, f, link, pick);
      if l in n {
        SumOneOff(n, all, less, l);
      } else {
        SumCong(n, all, n, less);
      }
    }
  }

  /** The query itself, executed: visit every row once, in any order. */
  method Total<K(==), V>(m: map<K, V>, f: (K, V) -> real) returns (s: real)
    ensures s == Sum(m, f)
  {
    var rest := m;
    s := 0.0;
    while rest != map[]
      invariant s + Sum(rest, f) == Sum(m, f)
      decreases |rest|
    {
      var k :| k in rest;
      SumTake(rest, f, k);
      assert rest.Keys == (rest - {k}).Keys + {k};
      s, rest := s + f(k, rest[k]), rest - {k};
    }
  }

  /** `gen_random_uuid()`: an id outside the ids in use. Callers learn nothing else about it. */
  method NotIn(used: set<int>) returns (x: int)
    ensures x !in used
  {
    x := 0;
    var rest := used;
    while rest != {}
      invariant rest <= used && forall y :: y in used && y !in rest ==> y < x
      decreases rest
    {
      var y := AnyOf(rest);
      if x <= y {
        x := y + 1;
      }
      rest := rest - {y};
    }
  }

  /** Some element of a nonempty set: SQL visits rows in no particular order. */
  method AnyOf<T(==)>(s: set<T>) returns (x: T)
    requires s != {}
    ensures x in s
  {
    x :| x in s;
  }

  /** `n` is `m` with exactly the keys `keys` written. */
  ghost predicate Overlay<K(!new), V>(m: map<K, V>, n: map<K, V>, keys: set<K>) {
    n.Keys == m.Keys + keys && forall x :: x in m && x !in keys ==> n[x] == m[x]
  }

  lemma OverlayStep<K(!new), V>(m: map<K, V>, n: map<K, V>, keys: set<K>, k: K, v: V)
    requires Overlay(m, n, keys)
    ensures Overlay(m, n[k := v], keys + {k})
  {
  }

  /** Dropping some rows and writing others, seen past both. */
  lemma OverlayWithout<K(!new), V>(was: map<K, V>, now: map<K, V>, missed: set<K>, gone: set<K>, written: set<K>)
    requires Overlay(was - missed, now, written)
    requires missed <= gone && gone - missed <= written && written * was.Keys <= gone
    ensures now - written == was - gone
  {
    assert (now - written).Keys == (was - gone).Keys;
  }
}
