/** Sums over finite sets, for loops whose iteration order the source leaves open. */
module SetSums {

  /** The multiset of everything f yields over s. */
  ghost function Gather<T, M>(s: set<T>, f: T -> multiset<M>): multiset<M>
    decreases |s|
  {
    if s == {} then multiset{} else
    var x :| x in s;
    f(x) + Gather(s - {x}, f)
  }

  /** The order in which elements are picked does not matter. */
  lemma {:induction false} GatherExtract<T, M>(s: set<T>, x: T, f: T -> multiset<M>)
    requires x in s
    ensures Gather(s, f) == f(x) + Gather(s - {x}, f)
    decreases |s|
  {
    var y :| y in s && Gather(s, f) == f(y) + Gather(s - {y}, f);
    if y != x {
      GatherExtract(s - {y}, x, f);
      GatherExtract(s - {x}, y, f);
      assert s - {y} - {x} == s - {x} - {y};
    }
  }

  lemma GatherInsert<T, M>(s: set<T>, x: T, f: T -> multiset<M>)
    requires x !in s
    ensures Gather(s + {x}, f) == f(x) + Gather(s, f)
  {
    GatherExtract(s + {x}, x, f);
    assert s + {x} - {x} == s;
  }

  /** One round of a loop over `all` that picks `x` from what is left to do. */
  lemma GatherStep<T, M>(all: set<T>, todo: set<T>, x: T, f: T -> multiset<M>)
    requires x in todo && todo <= all
    ensures Gather(all - (todo - {x}), f) == Gather(all - todo, f) + f(x)
  {
    assert all - (todo - {x}) == (all - todo) + {x};
    GatherInsert(all - todo, x, f);
  }

  lemma GatherNone<T, M>(all: set<T>, f: T -> multiset<M>)
    ensures Gather(all - all, f) == multiset{} && Gather(all - {}, f) == Gather(all, f)
  {
    assert all - all == {} && all - {} == all;
  }

  lemma {:induction false} GatherSame<T, M>(s: set<T>, f: T -> multiset<M>, g: T -> multiset<M>)
    requires forall x :: x in s ==> f(x) == g(x)
    ensures Gather(s, f) == Gather(s, g)
    decreases |s|
  {
    if s == {} {
    } else {
      var x :| x in s;
      GatherExtract(s, x, f);
      GatherExtract(s, x, g);
      GatherSame(s - {x}, f, g);
    }
  }

  lemma {:induction false} GatherUnion<T, M>(a: set<T>, b: set<T>, f: T -> multiset<M>)
    requires a !! b
    ensures Gather(a + b, f) == Gather(a, f) + Gather(b, f)
    decreases |b|
  {
    if b == {} {
      assert a + b == a;
    } else {
      var x :| x in b;
      GatherExtract(b, x, f);
      GatherExtract(a + b, x, f);
      assert a + b - {x} == a + (b - {x});
      GatherUnion(a, b - {x}, f);
    }
  }

  /** One element, old or new, yields more; the rest is unchanged. */
  lemma GatherGrow<T, M>(s: set<T>, x: T, f: T -> multiset<M>, g: T -> multiset<M>, extra: multiset<M>)
    requires forall y :: y in s && y != x ==> f(y) == g(y)
    requires g(x) == (if x in s then f(x) else multiset{}) + extra
    ensures Gather(s + {x}, g) == Gather(s, f) + extra
  {
    if x in s {
      assert s + {x} == s;
      GatherExtract(s, x, f);
      GatherExtract(s, x, g);
      GatherSame(s - {x}, f, g);
    } else {
      GatherInsert(s, x, g);
      GatherSame(s, f, g);
    }
  }

  /** Summing over an injective image is summing over the index set. */
  lemma {:induction false} GatherImage<T, U, M>(s: set<T>, r: T -> U, f: U -> multiset<M>, g: T -> multiset<M>)
    requires forall x, y :: x in s && y in s && r(x) == r(y) ==> x == y
    requires forall x :: x in s ==> g(x) == f(r(x))
    ensures Gather(set x | x in s :: r(x), f) == Gather(s, g)
    decreases |s|
  {
    var image := set x | x in s :: r(x);
    if s == {} {
      assert image == {};
    } else {
      var x :| x in s;
      GatherExtract(s, x, g);
      GatherExtract(image, r(x), f);
      assert image - {r(x)} == set y | y in s - {x} :: r(y);
      GatherImage(s - {x}, r, f, g);
    }
  }

  lemma {:induction false} GatherEmpty<T, M>(s: set<T>, f: T -> multiset<M>)
    ensures Gather(s, f) == multiset{} <==> forall x :: x in s ==> f(x) == multiset{}
    decreases |s|
  {
    if s == {} {
    } else {
      var x :| x in s;
      GatherExtract(s, x, f);
      GatherEmpty(s - {x}, f);
      if Gather(s, f) == multiset{} {
        assert f(x) <= Gather(s, f) && Gather(s - {x}, f) <= Gather(s, f);
      }
    }
  }

  // ---- Rows grouped by key ----

  ghost function Under<K, V>(rows: set<(K, V)>, keys: set<K>): set<(K, V)> {
    set row | row in rows && row.0 in keys
  }

  ghost function Column<K, V>(rows: set<(K, V)>, k: K): set<V> {
    set row | row in rows && row.0 == k :: row.1
  }

  lemma GatherOneKey<K, V, M>(rows: set<(K, V)>, k: K, f: ((K, V)) -> multiset<M>, g: V -> multiset<M>)
    requires forall v :: v in Column(rows, k) ==> g(v) == f((k, v))
    ensures Gather(Column(rows, k), g) == Gather(Under(rows, {k}), f)
  {
    var pair := (v: V) => (k, v);
    GatherImage(Column(rows, k), pair, f, g);
    var image := set v | v in Column(rows, k) :: pair(v);
    forall row | row in Under(rows, {k}) ensures row in image {
      assert row.1 in Column(rows, k) && row == pair(row.1);
    }
    assert image == Under(rows, {k});
  }

  lemma Cancel<M>(a: multiset<M>, b: multiset<M>, c: multiset<M>)
    requires a + b == a + c
    ensures b == c
  {
    assert b == a + b - a && c == a + c - a;
  }

  /** Key by key is row by row. */
  lemma {:induction false} GatherByKey<K, V, M>(rows: set<(K, V)>, keys: set<K>, f: ((K, V)) -> multiset<M>,
                                                g: K -> multiset<M>)
    requires forall k :: k in keys ==> g(k) == Gather(Under(rows, {k}), f)
    ensures Gather(keys, g) == Gather(Under(rows, keys), f)
    decreases |keys|
  {
    if keys == {} {
      assert Under(rows, keys) == {};
    } else {
      var k :| k in keys;
      GatherExtract(keys, k, g);
      GatherByKey(rows, keys - {k}, f, g);
      assert Under(rows, keys) == Under(rows, {k}) + Under(rows, keys - {k});
      GatherUnion(Under(rows, {k}), Under(rows, keys - {k}), f);
    }
  }
}
