// Finite sums of integer weights over row ids 0 .. n - 1, the shape every
// SQL SUM and every Python sum() of the services takes here.
module Sums {

  function Sum(w: nat -> int, n: nat): int {
    if n == 0 then 0 else Sum(w, n - 1) + w(n - 1)
  }

  lemma {:induction false} SumSame(w: nat -> int, v: nat -> int, n: nat)
    requires forall i: nat | i < n :: w(i) == v(i)
    ensures Sum(w, n) == Sum(v, n)
  {
    if n == 0 {
    } else {
      SumSame(w, v, n - 1);
    }
  }

  lemma {:induction false} SumZero(w: nat -> int, n: nat)
    requires forall i: nat | i < n :: w(i) == 0
    ensures Sum(w, n) == 0
  {
    if n == 0 {
    } else {
      SumZero(w, n - 1);
    }
  }

  // Weights that add up pointwise have sums that add up.
  lemma {:induction false} SumAdds(w: nat -> int, v: nat -> int, u: nat -> int, n: nat)
    requires forall i: nat | i < n :: u(i) == w(i) + v(i)
    ensures Sum(u, n) == Sum(w, n) + Sum(v, n)
  {
    if n == 0 {
    } else {
      SumAdds(w, v, u, n - 1);
    }
  }

  // Changing the weight of one id changes the sum by that much.
  lemma {:induction false} SumChanges(w: nat -> int, v: nat -> int, n: nat, k: nat)
    requires k < n && forall i: nat | i < n && i != k :: w(i) == v(i)
    ensures Sum(v, n) == Sum(w, n) + v(k) - w(k)
  {
    if k == n - 1 {
      SumSame(w, v, n - 1);
    } else {
      SumChanges(w, v, n - 1, k);
    }
  }

  // A longer range adds nothing when the extra ids weigh nothing.
  lemma {:induction false} SumPads(w: nat -> int, n: nat, m: nat)
    requires n <= m && forall i: nat | n <= i < m :: w(i) == 0
    ensures Sum(w, m) == Sum(w, n)
  {
    if n == m {
    } else {
      SumPads(w, n, m - 1);
    }
  }

  lemma {:induction false} SumIsOne(w: nat -> int, n: nat, k: nat)
    requires k < n && forall i: nat | i < n && i != k :: w(i) == 0
    ensures Sum(w, n) == w(k)
  {
    if k == n - 1 {
      SumZero(w, n - 1);
    } else {
      SumIsOne(w, n - 1, k);
    }
  }

  // ---- Sums of sums ----

  function Row(f: (nat, nat) -> int, i: nat): nat -> int { (j: nat) => f(i, j) }

  function Column(f: (nat, nat) -> int, j: nat): nat -> int { (i: nat) => f(i, j) }

  function RowSums(f: (nat, nat) -> int, m: nat): nat -> int { (i: nat) => Sum(Row(f, i), m) }

  function ColumnSums(f: (nat, nat) -> int, n: nat): nat -> int { (j: nat) => Sum(Column(f, j), n) }

  // The order of summation does not matter.
  lemma {:induction false} SumSwaps(f: (nat, nat) -> int, n: nat, m: nat)
    ensures Sum(RowSums(f, m), n) == Sum(ColumnSums(f, n), m)
  {
    if n == 0 {
      SumZero(ColumnSums(f, 0), m);
    } else {
      SumSwaps(f, n - 1, m);
      SumAdds(ColumnSums(f, n - 1), Row(f, n - 1), ColumnSums(f, n), m);
    }
  }

  // ---- Sums over sets of keys ----

  ghost function SetSum<K>(s: set<K>, f: K -> int): int {
    if s == {} then 0
    else
      var k :| k in s;
      f(k) + SetSum(s - {k}, f)
  }

  // Any key may be taken first.
  lemma {:induction false} SetSumTakes<K>(s: set<K>, f: K -> int, k: K)
    requires k in s
    ensures SetSum(s, f) == f(k) + SetSum(s - {k}, f)
    decreases |s|
  {
    var first :| first in s && SetSum(s, f) == f(first) + SetSum(s - {first}, f);
    if first == k {
    } else {
      SetSumTakes(s - {first}, f, k);
      SetSumTakes(s - {k}, f, first);
      assert s - {first} - {k} == s - {k} - {first};
    }
  }

  lemma {:induction false} SetSumSame<K>(s: set<K>, f: K -> int, g: K -> int)
    requires forall k | k in s :: f(k) == g(k)
    ensures SetSum(s, f) == SetSum(s, g)
    decreases |s|
  {
    if s == {} {
    } else {
      var k :| k in s;
      SetSumTakes(s, f, k);
      SetSumTakes(s, g, k);
      SetSumSame(s - {k}, f, g);
    }
  }

  lemma {:induction false} SetSumAdds<K>(s: set<K>, f: K -> int, g: K -> int, h: K -> int)
    requires forall k | k in s :: h(k) == f(k) + g(k)
    ensures SetSum(s, h) == SetSum(s, f) + SetSum(s, g)
    decreases |s|
  {
    if s == {} {
    } else {
      var k :| k in s;
      SetSumTakes(s, f, k);
      SetSumTakes(s, g, k);
      SetSumTakes(s, h, k);
      SetSumAdds(s - {k}, f, g, h);
    }
  }

  // Keys that weigh nothing may be left out.
  lemma {:induction false} SetSumShrinks<K>(part: set<K>, s: set<K>, f: K -> int)
    requires part <= s && forall k | k in s - part :: f(k) == 0
    ensures SetSum(s, f) == SetSum(part, f)
    decreases |s|
  {
    if k :| k in s && k !in part {
      SetSumTakes(s, f, k);
      SetSumShrinks(part, s - {k}, f);
    } else {
      assert s == part;
    }
  }

  lemma SetSumIsOne<K>(s: set<K>, f: K -> int, k: K)
    requires k in s && forall other | other in s && other != k :: f(other) == 0
    ensures SetSum(s, f) == f(k)
  {
    SetSumShrinks({k}, s, f);
    SetSumTakes({k}, f, k);
  }

  lemma {:induction false} SetSumUnion<K>(s: set<K>, t: set<K>, f: K -> int)
    requires s !! t
    ensures SetSum(s + t, f) == SetSum(s, f) + SetSum(t, f)
    decreases |s|
  {
    if s == {} {
      assert s + t == t;
    } else {
      var k :| k in s;
      SetSumTakes(s, f, k);
      SetSumTakes(s + t, f, k);
      assert s + t - {k} == (s - {k}) + t;
      SetSumUnion(s - {k}, t, f);
    }
  }

  // The weights of the ids with key k.
  function Group<K(==)>(w: nat -> int, key: nat -> K, k: K): nat -> int { (i: nat) => if key(i) == k then w(i) else 0 }

  function GroupSums<K(==)>(w: nat -> int, key: nat -> K, n: nat): K -> int { (k: K) => Sum(Group(w, key, k), n) }

  function GroupsAt<K(==)>(w: nat -> int, key: nat -> K, i: nat): K -> int { (k: K) => if key(i) == k then w(i) else 0 }

  // GROUP BY loses nothing: the group sums add up to the plain sum, as long as
  // every id that weighs something has its key among the groups.
  lemma {:induction false} GroupsAddUp<K>(s: set<K>, w: nat -> int, key: nat -> K, n: nat)
    requires forall i: nat | i < n && w(i) != 0 :: key(i) in s
    ensures SetSum(s, GroupSums(w, key, n)) == Sum(w, n)
  {
    if n == 0 {
      SetSumShrinks({}, s, GroupSums(w, key, 0));
    } else {
      GroupsAddUp(s, w, key, n - 1);
      SetSumAdds(s, GroupSums(w, key, n - 1), GroupsAt(w, key, n - 1), GroupSums(w, key, n));
      if key(n - 1) in s {
        SetSumIsOne(s, GroupsAt(w, key, n - 1), key(n - 1));
      } else {
        SetSumShrinks({}, s, GroupsAt(w, key, n - 1));
      }
    }
  }

  function KeyedIn<K(==)>(w: nat -> int, key: nat -> K, s: set<K>): nat -> int {
    (i: nat) => if key(i) in s then w(i) else 0
  }

  // Summing some of the groups is summing the ids whose key is one of them.
  lemma SomeGroupsAddUp<K>(s: set<K>, w: nat -> int, key: nat -> K, n: nat)
    ensures SetSum(s, GroupSums(w, key, n)) == Sum(KeyedIn(w, key, s), n)
  {
    var v := KeyedIn(w, key, s);
    forall k | k in s
      ensures GroupSums(w, key, n)(k) == GroupSums(v, key, n)(k)
    {
      SumSame(Group(w, key, k), Group(v, key, k), n);
    }
    SetSumSame(s, GroupSums(w, key, n), GroupSums(v, key, n));
    GroupsAddUp(s, v, key, n);
  }
}
