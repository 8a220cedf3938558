/** Sums over the rows of a table.  A `SUM(...)` of the SQL text becomes `Total` of a
    map comprehension that selects the rows and names the summed column. */
module Totals {

  /** Adding a row adds its amount. */
  ghost predicate Additive<K(!new)>(f: map<K, int> -> int) {
    && f(map[]) == 0
    && forall m: map<K, int>, k: K, v: int {:trigger f(m[k := v])} :: k !in m ==> f(m[k := v]) == f(m) + v
  }

  /** The sum of a table column: the only additive function on tables (`TotalUnique`).
      It is introduced by its law and not by recursion over the rows, so that a proof
      about a balance does not start to enumerate them. */
  ghost function Total<K(!new)>(m: map<K, int>): int {
    AdditiveExists<K>();
    var f: map<K, int> -> int :| Additive(f);
    f(m)
  }

  ghost function RowByRow<K(!new)>(m: map<K, int>): int
    decreases |m|
  {
    if m.Keys == {} then 0
    else
      var k :| k in m.Keys;
      m[k] + RowByRow(m - {k})
  }

  lemma {:induction false} AnyRowFirst<K(!new)>(m: map<K, int>, k: K)
    requires k in m
    ensures RowByRow(m) == m[k] + RowByRow(m - {k})
    decreases |m|
  {
    var j :| j in m && RowByRow(m) == m[j] + RowByRow(m - {j});
    if j != k {
      AnyRowFirst(m - {j}, k);
      AnyRowFirst(m - {k}, j);
      assert (m - {j}) - {k} == (m - {k}) - {j};
    }
  }

  lemma AdditiveExists<K(!new)>()
    ensures exists f: map<K, int> -> int :: Additive(f)
  {
    var f := (m: map<K, int>) => RowByRow(m);
    forall m: map<K, int>, k: K, v: int {:trigger f(m[k := v])} | k !in m ensures f(m[k := v]) == f(m) + v {
      AnyRowFirst(m[k := v], k);
      assert m[k := v] - {k} == m;
    }
    assert Additive(f);
  }

  lemma {:induction false} TotalUnique<K(!new)>(f: map<K, int> -> int, m: map<K, int>)
    requires Additive(f)
    ensures f(m) == RowByRow(m)
    decreases |m|
  {
    if m.Keys == {} {
      assert m == map[];
    } else {
      var k :| k in m.Keys;
      TotalUnique(f, m - {k});
      AnyRowFirst(m, k);
      assert m == (m - {k})[k := m[k]];
    }
  }

  lemma TotalIsRowByRow<K(!new)>(m: map<K, int>)
    ensures Total(m) == RowByRow(m)
  {
    AdditiveExists<K>();
    var f: map<K, int> -> int :| Additive(f) && Total(m) == f(m);
    TotalUnique(f, m);
  }

  lemma TotalPick<K(!new)>(m: map<K, int>, k: K)
    requires k in m
    ensures Total(m) == m[k] + Total(m - {k})
  {
    TotalIsRowByRow(m);
    TotalIsRowByRow(m - {k});
    AnyRowFirst(m, k);
  }

  lemma TotalEmpty<K(!new)>()
    ensures Total<K>(map[]) == 0
  {
    TotalIsRowByRow<K>(map[]);
  }

  lemma TotalSet<K(!new)>(m: map<K, int>, k: K, v: int)
    ensures Total(m[k := v]) == Total(m) + v - (if k in m then m[k] else 0)
  {
    TotalPick(m[k := v], k);
    if k in m {
      TotalPick(m, k);
      assert m[k := v] - {k} == m - {k};
    } else {
      assert m[k := v] - {k} == m;
    }
  }

  lemma {:induction false} TotalUnion<K(!new)>(a: map<K, int>, b: map<K, int>)
    requires forall k :: k in a ==> k !in b
    ensures Total(a + b) == Total(a) + Total(b)
    decreases |b|
  {
    if b.Keys == {} {
      assert a + b == a && b == map[];
      TotalEmpty<K>();
    } else {
      var k :| k in b.Keys;
      var rest := b - {k};
      assert b == rest[k := b[k]];
      assert a + b == (a + rest)[k := b[k]];
      TotalUnion(a, rest);
      TotalSet(a + rest, k, b[k]);
      TotalSet(rest, k, b[k]);
    }
  }

  lemma {:induction false} TotalNonNegative<K(!new)>(m: map<K, int>)
    requires forall k :: k in m ==> 0 <= m[k]
    ensures 0 <= Total(m)
    ensures forall k :: k in m ==> m[k] <= Total(m)
    decreases |m|
  {
    if m.Keys == {} {
      assert m == map[];
      TotalEmpty<K>();
    } else {
      forall k | k in m ensures m[k] <= Total(m) && 0 <= Total(m) {
        TotalPick(m, k);
        TotalNonNegative(m - {k});
      }
      var k :| k in m.Keys;
      assert 0 <= Total(m);
    }
  }

  /** Evaluates a `SUM(...)` by visiting every row once. */
  method Sum<K(!new, ==)>(m: map<K, int>) returns (t: int)
    ensures t == Total(m)
  {
    t := 0;
    var rest := m;
    TotalEmpty<K>();
    while rest.Keys != {}
      invariant t + Total(rest) == Total(m)
      decreases |rest|
    {
      var k :| k in rest.Keys;
      TotalPick(rest, k);
      t := t + rest[k];
      rest := rest - {k};
    }
    assert rest == map[];
  }
}
