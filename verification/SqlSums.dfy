/** WHERE, SUM, COUNT and GROUP BY over a table given as a sequence of rows. */
module SqlSums {
  import opened Wrappers

  ghost function Where<R>(rows: seq<R>, p: R -> bool): seq<R> {
    if rows == [] then [] else
    Where(rows[..|rows| - 1], p) + if p(rows[|rows| - 1]) then [rows[|rows| - 1]] else []
  }

  ghost function Sum<R>(rows: seq<R>, w: R -> int): int {
    if rows == [] then 0 else Sum(rows[..|rows| - 1], w) + w(rows[|rows| - 1])
  }

  /** SUM over no rows is NULL. */
  ghost function SumOrNull<R>(rows: seq<R>, w: R -> int): Option<int> {
    if rows == [] then None else Some(Sum(rows, w))
  }

  function Coalesce(x: Option<int>): int { if x.Some? then x.value else 0 }

  function One<R>(): R -> int { _ => 1 }

  ghost function Only<R>(p: R -> bool, w: R -> int): R -> int { r => if p(r) then w(r) else 0 }

  lemma {:induction false} WhereMembers<R>(rows: seq<R>, p: R -> bool)
    ensures forall r :: r in Where(rows, p) <==> r in rows && p(r)
  {
    if rows == [] {
    } else {
      WhereMembers(rows[..|rows| - 1], p);
      assert rows == rows[..|rows| - 1] + [rows[|rows| - 1]];
    }
  }

  lemma {:induction false} WhereNone<R>(rows: seq<R>, p: R -> bool)
    requires forall r :: r in rows ==> !p(r)
    ensures Where(rows, p) == []
  {
    if rows == [] {
    } else {
      WhereNone(rows[..|rows| - 1], p);
    }
  }

  lemma {:induction false} SumWhere<R>(rows: seq<R>, p: R -> bool, w: R -> int)
    ensures Sum(Where(rows, p), w) == Sum(rows, Only(p, w))
  {
    if rows == [] {
    } else {
      var front, last := rows[..|rows| - 1], rows[|rows| - 1];
      SumWhere(front, p, w);
      if p(last) {
        assert (Where(front, p) + [last])[..|Where(front, p)|] == Where(front, p);
      } else {
        assert Where(front, p) + [] == Where(front, p);
      }
    }
  }

  lemma {:induction false} SumSame<R>(rows: seq<R>, v: R -> int, w: R -> int)
    requires forall r :: r in rows ==> v(r) == w(r)
    ensures Sum(rows, v) == Sum(rows, w)
  {
    if rows == [] {
    } else {
      SumSame(rows[..|rows| - 1], v, w);
    }
  }

  lemma {:induction false} SumPlus<R>(rows: seq<R>, u: R -> int, v: R -> int, w: R -> int)
    requires forall r :: r in rows ==> w(r) == u(r) + v(r)
    ensures Sum(rows, w) == Sum(rows, u) + Sum(rows, v)
  {
    if rows == [] {
    } else {
      SumPlus(rows[..|rows| - 1], u, v, w);
    }
  }

  /** COUNT(*) is the sum of ones. */
  lemma {:induction false} SumOnes<R>(rows: seq<R>, w: R -> int)
    requires forall r :: r in rows ==> w(r) == 1
    ensures Sum(rows, w) == |rows|
  {
    if rows == [] {
    } else {
      SumOnes(rows[..|rows| - 1], w);
    }
  }

  /** Filtering twice counts the rows that pass both. */
  lemma CountTwice<R>(rows: seq<R>, p: R -> bool, q: R -> bool)
    requires forall r :: r in rows && q(r) ==> p(r)
    ensures |Where(Where(rows, p), q)| == |Where(rows, q)|
  {
    SumTwice(rows, p, q, One());
    SumOnes(Where(Where(rows, p), q), One());
    SumOnes(Where(rows, q), One());
  }

  lemma SumTwice<R>(rows: seq<R>, p: R -> bool, q: R -> bool, w: R -> int)
    requires forall r :: r in rows && q(r) ==> p(r)
    ensures Sum(Where(Where(rows, p), q), w) == Sum(Where(rows, q), w)
  {
    SumWhere(Where(rows, p), q, w);
    SumWhere(rows, p, Only(q, w));
    SumWhere(rows, q, w);
    SumSame(rows, Only(p, Only(q, w)), Only(q, w));
  }

  // ---- Counting rows where they stand ----

  ghost function Places<R>(rows: seq<R>, p: R -> bool): set<nat> { set i: nat | i < |rows| && p(rows[i]) }

  /** How many rows have the property. */
  ghost function Tally<R>(rows: seq<R>, p: R -> bool): nat { |Places(rows, p)| }

  lemma {:induction false} WhereTallies<R>(rows: seq<R>, p: R -> bool, q: R -> bool)
    requires forall r :: r in rows ==> p(r) == q(r)
    ensures |Where(rows, p)| == Tally(rows, q)
  {
    if rows == [] {
      assert Places(rows, q) == {};
    } else {
      var front, n := rows[..|rows| - 1], |rows| - 1;
      WhereTallies(front, p, q);
      assert Places(rows, q) == Places(front, q) + if q(rows[n]) then {n} else {};
    }
  }

  lemma SumOfWhere<R>(rows: seq<R>, p: R -> bool, w: R -> int, v: R -> int)
    requires forall r :: r in rows ==> v(r) == if p(r) then w(r) else 0
    ensures Sum(Where(rows, p), w) == Sum(rows, v)
  {
    SumWhere(rows, p, w);
    SumSame(rows, Only(p, w), v);
  }

  // ---- GROUP BY ----

  ghost function Having<R, K>(key: R -> K, k: K): R -> bool { r => key(r) == k }

  ghost function Among<R, K>(key: R -> K, keys: set<K>): R -> bool { r => key(r) in keys }

  ghost function Group<R, K>(rows: seq<R>, key: R -> K, k: K): seq<R> { Where(rows, Having(key, k)) }

  ghost function Keys<R, K>(rows: seq<R>, key: R -> K): set<K> { set r | r in rows :: key(r) }

  /** The sum over all groups of an aggregate. */
  ghost function Total<K>(keys: set<K>, f: K -> int): int
    decreases |keys|
  {
    if keys == {} then 0 else
    var k :| k in keys;
    f(k) + Total(keys - {k}, f)
  }

  lemma {:induction false} TotalExtract<K>(keys: set<K>, k: K, f: K -> int)
    requires k in keys
    ensures Total(keys, f) == f(k) + Total(keys - {k}, f)
    decreases |keys|
  {
    var y :| y in keys && Total(keys, f) == f(y) + Total(keys - {y}, f);
    if y != k {
      TotalExtract(keys - {y}, k, f);
      TotalExtract(keys - {k}, y, f);
      assert keys - {y} - {k} == keys - {k} - {y};
    }
  }

  lemma {:induction false} TotalSame<K>(keys: set<K>, f: K -> int, g: K -> int)
    requires forall k :: k in keys ==> f(k) == g(k)
    ensures Total(keys, f) == Total(keys, g)
    decreases |keys|
  {
    if keys == {} {
    } else {
      var k :| k in keys;
      TotalExtract(keys, k, f);
      TotalExtract(keys, k, g);
      TotalSame(keys - {k}, f, g);
    }
  }

  lemma {:induction false} TotalZero<K>(keys: set<K>, f: K -> int)
    requires forall k :: k in keys ==> f(k) == 0
    ensures Total(keys, f) == 0
    decreases |keys|
  {
    if keys == {} {
    } else {
      var k :| k in keys;
      TotalExtract(keys, k, f);
      TotalZero(keys - {k}, f);
    }
  }

  /** One group grows, the others keep their sum. */
  lemma TotalBump<K>(keys: set<K>, k: K, f: K -> int, g: K -> int)
    requires k in keys && forall y :: y in keys && y != k ==> g(y) == f(y)
    ensures Total(keys, g) - Total(keys, f) == g(k) - f(k)
  {
    TotalExtract(keys, k, f);
    TotalExtract(keys, k, g);
    TotalSame(keys - {k}, f, g);
  }

  ghost function GroupSum<R, K>(rows: seq<R>, key: R -> K, w: R -> int): K -> int {
    k => Sum(Group(rows, key, k), w)
  }

  lemma GroupSnoc<R, K>(rows: seq<R>, last: R, key: R -> K, w: R -> int, k: K)
    ensures GroupSum(rows + [last], key, w)(k) == GroupSum(rows, key, w)(k) + if key(last) == k then w(last) else 0
  {
    assert (rows + [last])[..|rows|] == rows;
    var g := Group(rows, key, k);
    assert (g + [last])[..|g|] == g && g + [] == g;
  }

  /** However rows are grouped, the group sums add up to the sum over the groups taken. */
  lemma {:induction false} GroupsAddUp<R, K>(rows: seq<R>, key: R -> K, w: R -> int, keys: set<K>)
    ensures Total(keys, GroupSum(rows, key, w)) == Sum(rows, Only(Among(key, keys), w))
  {
    if rows == [] {
      TotalZero(keys, GroupSum(rows, key, w));
    } else {
      var front, last := rows[..|rows| - 1], rows[|rows| - 1];
      GroupsAddUp(front, key, w, keys);
      assert rows == front + [last];
      forall k ensures GroupSum(rows, key, w)(k) == GroupSum(front, key, w)(k) + if key(last) == k then w(last) else 0 {
        GroupSnoc(front, last, key, w, k);
      }
      if key(last) in keys {
        TotalBump(keys, key(last), GroupSum(front, key, w), GroupSum(rows, key, w));
      } else {
        TotalSame(keys, GroupSum(front, key, w), GroupSum(rows, key, w));
      }
    }
  }

  /** An aggregate that is a sum in every group adds up to the ungrouped sum. */
  lemma AllGroupsAddUp<R, K>(rows: seq<R>, key: R -> K, w: R -> int, f: K -> int)
    requires forall k :: k in Keys(rows, key) ==> f(k) == Sum(Group(rows, key, k), w)
    ensures Total(Keys(rows, key), f) == Sum(rows, w)
  {
    var keys := Keys(rows, key);
    GroupsAddUp(rows, key, w, keys);
    TotalSame(keys, f, GroupSum(rows, key, w));
    SumSame(rows, Only(Among(key, keys), w), w);
  }
}
