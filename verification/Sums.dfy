/** Totals over finite maps, independent of the order in which entries are visited. */
module Sums {
  import opened Base

  ghost function Sum<T(!new)>(m: map<Uuid, T>, f: T -> nat): nat
  {
    if m == map[] then 0 else var k :| k in m; f(m[k]) + Sum(m - {k}, f)
  }

  lemma {:induction false} SumSplit<T(!new)>(m: map<Uuid, T>, f: T -> nat, k: Uuid)
    requires k in m
    ensures Sum(m, f) == f(m[k]) + Sum(m - {k}, f)
    decreases |m|
  {
    var c :| c in m && Sum(m, f) == f(m[c]) + Sum(m - {c}, f);
    if c != k {
      SumSplit(m - {c}, f, k);
      SumSplit(m - {k}, f, c);
      assert m - {c} - {k} == m - {k} - {c};
    }
  }

  /** Writing one entry changes the total by the difference of that entry. */
  lemma {:induction false} SumWrite<T(!new)>(m: map<Uuid, T>, f: T -> nat, k: Uuid, v: T)
    ensures Sum(m[k := v], f) == Sum(m - {k}, f) + f(v)
    ensures k in m ==> Sum(m, f) == Sum(m - {k}, f) + f(m[k])
    ensures k !in m ==> Sum(m, f) == Sum(m - {k}, f)
  {
    SumSplit(m[k := v], f, k);
    assert m[k := v] - {k} == m - {k};
    if k in m {
      SumSplit(m, f, k);
    } else {
      assert m - {k} == m;
    }
  }

  /** Maps with the same keys and the same weight at each key have the same total. */
  lemma {:induction false} SumCongruent<T(!new)>(m: map<Uuid, T>, w: map<Uuid, T>, f: T -> nat, g: T -> nat)
    requires m.Keys == w.Keys
    requires forall k :: k in m ==> f(m[k]) == g(w[k])
    ensures Sum(m, f) == Sum(w, g)
    decreases |m|
  {
    if m == map[] {
      assert w == map[];
    } else {
      var k :| k in m;
      SumSplit(m, f, k);
      SumSplit(w, g, k);
      assert (m - {k}).Keys == (w - {k}).Keys;
      SumCongruent(m - {k}, w - {k}, f, g);
    }
  }

  /** A pointwise identity `f = g + h` or inequality `f <= g` carries over to the totals. */
  lemma {:induction false} SumPlus<T(!new)>(m: map<Uuid, T>, f: T -> nat, g: T -> nat, h: T -> nat)
    requires forall k :: k in m ==> f(m[k]) == g(m[k]) + h(m[k])
    ensures Sum(m, f) == Sum(m, g) + Sum(m, h)
    decreases |m|
  {
    if m != map[] {
      var k :| k in m;
      SumSplit(m, f, k);
      SumSplit(m, g, k);
      SumSplit(m, h, k);
      SumPlus(m - {k}, f, g, h);
    }
  }

  lemma {:induction false} SumAtMost<T(!new)>(m: map<Uuid, T>, f: T -> nat, g: T -> nat)
    requires forall k :: k in m ==> f(m[k]) <= g(m[k])
    ensures Sum(m, f) <= Sum(m, g)
    decreases |m|
  {
    if m != map[] {
      var k :| k in m;
      SumSplit(m, f, k);
      SumSplit(m, g, k);
      SumAtMost(m - {k}, f, g);
    }
  }

  lemma {:induction false} SumZero<T(!new)>(m: map<Uuid, T>, f: T -> nat)
    ensures Sum(m, f) == 0 <==> forall k :: k in m ==> f(m[k]) == 0
    decreases |m|
  {
    if m != map[] {
      var k :| k in m;
      SumSplit(m, f, k);
      SumZero(m - {k}, f);
      if Sum(m, f) == 0 {
        forall j | j in m ensures f(m[j]) == 0 {
          if j != k { assert j in m - {k}; }
        }
      }
    }
  }

  /** What a loop over the entries still to visit adds up, and that it never exceeds the total. */
  lemma {:induction false} SumAdvance<T(!new)>(m: map<Uuid, T>, f: T -> nat, todo: set<Uuid>, k: Uuid)
    requires todo <= m.Keys && k in todo
    ensures Sum(m - (todo - {k}), f) == Sum(m - todo, f) + f(m[k])
    ensures Sum(m - (todo - {k}), f) <= Sum(m, f)
    decreases |todo|
  {
    SumWrite(m - todo, f, k, m[k]);
    assert (m - todo)[k := m[k]] == m - (todo - {k});
    if j :| j in todo && j != k {
      SumAdvance(m, f, todo - {k}, j);
    } else {
      assert todo == {k};
      assert m - (todo - {k}) == m;
    }
  }
}
