/** Grouping a list by a key into a dict of lists (`setdefault(k, []).append(x)`, or a
    `defaultdict(list)`), sums over the groups, and Python's stable `list.sort(key=...)`. */
module Grouping {

  /** The distinct keys of `s` in order of first occurrence: the key order of a Python dict
      filled by one pass over `s`. */
  function Keys<T, K(==)>(s: seq<T>, key: T -> K): (ks: seq<K>)
    ensures |ks| <= |s|
  {
    if s == [] then []
    else
      var p := Keys(s[..|s| - 1], key);
      var k := key(s[|s| - 1]);
      if k in p then p else p + [k]
  }

  /** No element occurs twice in `ks`. */
  ghost predicate Distinct<K>(ks: seq<K>)
  {
    forall i, j :: 0 <= i < j < |ks| ==> ks[i] != ks[j]
  }

  /** No key is listed twice. */
  lemma {:induction false} KeysDistinct<T, K>(s: seq<T>, key: T -> K)
    ensures Distinct(Keys(s, key))
  {
    if s != [] {
      KeysDistinct(s[..|s| - 1], key);
      var p, k := Keys(s[..|s| - 1], key), key(s[|s| - 1]);
      if k !in p {
        assert Keys(s, key) == p + [k];
      }
    }
  }

  /** The key of every element is listed. */
  lemma {:induction false} KeysComplete<T, K>(s: seq<T>, key: T -> K)
    ensures forall i :: 0 <= i < |s| ==> key(s[i]) in Keys(s, key)
  {
    if s != [] {
      var front := s[..|s| - 1];
      KeysComplete(front, key);
      assert forall i :: 0 <= i < |front| ==> front[i] == s[i];
    }
  }

  /** The elements of `s` whose key is `k`, in their order in `s`. */
  function Members<T, K(==)>(s: seq<T>, key: T -> K, k: K): (m: seq<T>)
    ensures |m| <= |s|
  {
    if s == [] then [] else Members(s[..|s| - 1], key, k) + (if key(s[|s| - 1]) == k then [s[|s| - 1]] else [])
  }

  /** A group holds only elements of `s` that have its key. */
  lemma {:induction false} MembersHaveKey<T, K>(s: seq<T>, key: T -> K, k: K)
    ensures forall x :: x in Members(s, key, k) ==> key(x) == k && x in s
  {
    if s != [] {
      MembersHaveKey(s[..|s| - 1], key, k);
      assert forall x :: x in s[..|s| - 1] ==> x in s;
    }
  }

  /** A key has a non-empty group exactly when it is one of the keys. */
  lemma {:induction false} MembersNonEmpty<T, K>(s: seq<T>, key: T -> K, k: K)
    ensures |Members(s, key, k)| > 0 <==> k in Keys(s, key)
  {
    if s != [] {
      MembersNonEmpty(s[..|s| - 1], key, k);
    }
  }

  /** Every element is in the group of its own key. */
  lemma {:induction false} MemberOfOwnGroup<T, K>(s: seq<T>, key: T -> K, i: int)
    requires 0 <= i < |s|
    ensures s[i] in Members(s, key, key(s[i]))
  {
    if i < |s| - 1 {
      MemberOfOwnGroup(s[..|s| - 1], key, i);
      assert s[..|s| - 1][i] == s[i];
    }
  }

  /** `for x in s: groups.setdefault(key(x), []).append(x)`, with the insertion order of the
      keys kept in `keys`. */
  method GroupBy<T, K(==)>(s: seq<T>, key: T -> K) returns (keys: seq<K>, groups: map<K, seq<T>>)
    ensures keys == Keys(s, key)
    ensures forall k :: k in groups <==> k in keys
    ensures forall k :: k in groups ==> groups[k] == Members(s, key, k)
  {
    keys, groups := [], map[];
    for i := 0 to |s|
      invariant keys == Keys(s[..i], key)
      invariant forall k :: k in groups <==> k in keys
      invariant forall k :: k in groups ==> groups[k] == Members(s[..i], key, k)
    {
      var prefix := s[..i];
      keys, groups := GroupAppend(prefix, key, keys, groups, s[i]);
      assert prefix + [s[i]] == s[..i + 1];
    }
    assert s[..|s|] == s;
  }

  /** One round of `GroupBy`: `x` goes to the end of the group of its key, which is created
      (and its key listed) when it does not exist yet. */
  method GroupAppend<T, K(==)>(p: seq<T>, key: T -> K, keys: seq<K>, groups: map<K, seq<T>>, x: T)
      returns (keys': seq<K>, groups': map<K, seq<T>>)
    requires keys == Keys(p, key)
    requires forall k :: k in groups <==> k in keys
    requires forall k :: k in groups ==> groups[k] == Members(p, key, k)
    ensures keys' == Keys(p + [x], key)
    ensures forall k :: k in groups' <==> k in keys'
    ensures forall k :: k in groups' ==> groups'[k] == Members(p + [x], key, k)
  {
    KeysSnoc(p, x, key);
    var k := key(x);
    MembersSnoc(p, x, key, k);
    if k !in groups {
      MembersNonEmpty(p, key, k);
      keys', groups' := keys + [k], groups[k := [x]];
    } else {
      keys', groups' := keys, groups[k := groups[k] + [x]];
    }
    forall j | j in groups' && j != k
      ensures groups'[j] == Members(p + [x], key, j)
    {
      MembersSnoc(p, x, key, j);
    }
  }

  /** One more element adds its key at the end when the key is new. */
  lemma KeysSnoc<T, K>(s: seq<T>, x: T, key: T -> K)
    ensures Keys(s + [x], key) == if key(x) in Keys(s, key) then Keys(s, key) else Keys(s, key) + [key(x)]
  {
    assert (s + [x])[..|s|] == s;
  }

  /** One more element goes to the end of the group of its own key and of no other. */
  lemma MembersSnoc<T, K>(s: seq<T>, x: T, key: T -> K, k: K)
    ensures Members(s + [x], key, k) == Members(s, key, k) + (if key(x) == k then [x] else [])
  {
    assert (s + [x])[..|s|] == s;
  }

  /** `groups.get(k, [])` on the result of `GroupBy`: the group of `k`, empty when `k` is
      not a key. */
  method GroupOf<T, K(==)>(s: seq<T>, key: T -> K, keys: seq<K>, groups: map<K, seq<T>>, k: K) returns (g: seq<T>)
    requires keys == Keys(s, key)
    requires forall k :: k in groups <==> k in keys
    requires forall k :: k in groups ==> groups[k] == Members(s, key, k)
    ensures g == Members(s, key, k)
  {
    MembersNonEmpty(s, key, k);
    g := if k in groups then groups[k] else [];
  }

  /** `sum(f(x) for x in s)` */
  function Sum<T>(s: seq<T>, f: T -> real): real
  {
    if s == [] then 0.0 else Sum(s[..|s| - 1], f) + f(s[|s| - 1])
  }

  lemma {:induction false} SumAppend<T>(a: seq<T>, b: seq<T>, f: T -> real)
    ensures Sum(a + b, f) == Sum(a, f) + Sum(b, f)
  {
    if b == [] {
      assert a + b == a;
    } else {
      assert (a + b)[..|a + b| - 1] == a + b[..|b| - 1];
      SumAppend(a, b[..|b| - 1], f);
    }
  }

  /** The sum of the per-group sums, for the groups of `ks` in that order. */
  function SumOfGroups<T, K(==)>(s: seq<T>, key: T -> K, ks: seq<K>, f: T -> real): real
  {
    if ks == [] then 0.0 else SumOfGroups(s, key, ks[..|ks| - 1], f) + Sum(Members(s, key, ks[|ks| - 1]), f)
  }

  /** One more key adds its group's sum. */
  lemma SumOfGroupsSnoc<T, K>(s: seq<T>, key: T -> K, ks: seq<K>, k: K, f: T -> real)
    ensures SumOfGroups(s, key, ks + [k], f) == SumOfGroups(s, key, ks, f) + Sum(Members(s, key, k), f)
  {
    assert (ks + [k])[..|ks|] == ks;
  }

  lemma SumOne<T>(x: T, f: T -> real)
    ensures Sum([x], f) == f(x)
  {
    assert [x][..0] == [];
  }

  /** One more element adds its value to the sum of the groups exactly when its key is one
      of theirs. */
  lemma {:induction false} SumOfGroupsStep<T, K>(s: seq<T>, x: T, key: T -> K, ks: seq<K>, f: T -> real)
    requires forall i, j :: 0 <= i < j < |ks| ==> ks[i] != ks[j]
    ensures SumOfGroups(s + [x], key, ks, f) == SumOfGroups(s, key, ks, f) + (if key(x) in ks then f(x) else 0.0)
  {
    if ks != [] {
      var front, k := ks[..|ks| - 1], ks[|ks| - 1];
      assert ks == front + [k];
      SumOfGroupsStep(s, x, key, front, f);
      SumOfGroupsSnoc(s + [x], key, front, k, f);
      SumOfGroupsSnoc(s, key, front, k, f);
      MembersSnoc(s, x, key, k);
      var m := Members(s, key, k);
      if key(x) == k {
        assert key(x) !in front;
        SumAppend(m, [x], f);
        SumOne(x, f);
      } else {
        assert m + [] == m;
      }
    }
  }

  /** The elements of `s` whose key is one of `ks`, in their order in `s`. */
  function Filter<T, K(==)>(s: seq<T>, key: T -> K, ks: seq<K>): (r: seq<T>)
    ensures |r| <= |s|
  {
    if s == [] then [] else Filter(s[..|s| - 1], key, ks) + (if key(s[|s| - 1]) in ks then [s[|s| - 1]] else [])
  }

  lemma {:induction false} SumOfGroupsOfNothing<T, K>(key: T -> K, ks: seq<K>, f: T -> real)
    ensures SumOfGroups([], key, ks, f) == 0.0
  {
    if ks != [] {
      SumOfGroupsOfNothing(key, ks[..|ks| - 1], f);
    }
  }

  /** Adding up the groups of distinct keys is adding up the elements that have one of those
      keys; elements with any other key count for nothing. */
  lemma {:induction false} SumOfGroupsFilter<T, K>(s: seq<T>, key: T -> K, ks: seq<K>, f: T -> real)
    requires forall i, j :: 0 <= i < j < |ks| ==> ks[i] != ks[j]
    ensures SumOfGroups(s, key, ks, f) == Sum(Filter(s, key, ks), f)
  {
    if s == [] {
      SumOfGroupsOfNothing(key, ks, f);
    } else {
      var front, x := s[..|s| - 1], s[|s| - 1];
      assert s == front + [x];
      SumOfGroupsFilter(front, key, ks, f);
      SumOfGroupsStep(front, x, key, ks, f);
      var r := Filter(front, key, ks);
      if key(x) in ks {
        SumAppend(r, [x], f);
        SumOne(x, f);
      } else {
        assert Filter(s, key, ks) == r + [] == r;
      }
    }
  }

  /** Splitting `s` into its groups and adding up the group sums gives the sum over `s`. */
  lemma {:induction false} PartitionSum<T, K>(s: seq<T>, key: T -> K, f: T -> real)
    ensures SumOfGroups(s, key, Keys(s, key), f) == Sum(s, f)
  {
    if s != [] {
      var front, x := s[..|s| - 1], s[|s| - 1];
      assert s == front + [x];
      PartitionSum(front, key, f);
      var ks := Keys(front, key);
      KeysDistinct(front, key);
      SumOfGroupsStep(front, x, key, ks, f);
      KeysSnoc(front, x, key);
      if key(x) !in ks {
        MembersNonEmpty(front, key, key(x));
        MembersSnoc(front, x, key, key(x));
        assert Members(s, key, key(x)) == [x];
        SumOne(x, f);
        SumOfGroupsSnoc(s, key, ks, key(x), f);
      }
    }
  }

  /** The order `sorted(..., reverse=desc)` puts keys in; equal keys are in order both ways. */
  predicate InOrder(a: int, b: int, desc: bool)
  {
    if desc then a >= b else a <= b
  }

  predicate Sorted<T>(s: seq<T>, key: T -> int, desc: bool)
  {
    forall i, j :: 0 <= i < j < |s| ==> InOrder(key(s[i]), key(s[j]), desc)
  }

  /** Inserting `x` into a sorted list behind every element that does not have to follow it. */
  function Insert<T>(t: seq<T>, x: T, key: T -> int, desc: bool): (r: seq<T>)
    ensures |r| == |t| + 1
  {
    if t == [] then [x]
    else if !InOrder(key(t[|t| - 1]), key(x), desc) then
      Insert(t[..|t| - 1], x, key, desc) + [t[|t| - 1]]
    else t + [x]
  }

  /** `list.sort(key=key, reverse=desc)`: Python's sort is stable, also when reversed, so it is
      modelled as a stable insertion sort. */
  function SortBy<T>(s: seq<T>, key: T -> int, desc: bool): (r: seq<T>)
    ensures |r| == |s|
  {
    if s == [] then []
    else Insert(SortBy(s[..|s| - 1], key, desc), s[|s| - 1], key, desc)
  }

  lemma {:induction false} InsertPermutes<T>(t: seq<T>, x: T, key: T -> int, desc: bool)
    ensures multiset(Insert(t, x, key, desc)) == multiset(t) + multiset{x}
  {
    if t != [] && !InOrder(key(t[|t| - 1]), key(x), desc) {
      var front, last := t[..|t| - 1], t[|t| - 1];
      assert t == front + [last];
      InsertPermutes(front, x, key, desc);
    }
  }

  /** Sorting only reorders: the result holds the same elements, as often as `s` does. */
  lemma {:induction false} SortByPermutes<T>(s: seq<T>, key: T -> int, desc: bool)
    ensures multiset(SortBy(s, key, desc)) == multiset(s)
  {
    if s != [] {
      var front, last := s[..|s| - 1], s[|s| - 1];
      assert s == front + [last];
      SortByPermutes(front, key, desc);
      InsertPermutes(SortBy(front, key, desc), last, key, desc);
    }
  }

  /** Every element of `s` may stand before an element whose key is `b`. */
  ghost predicate AllBefore<T>(s: seq<T>, key: T -> int, b: int, desc: bool)
  {
    forall i :: 0 <= i < |s| ==> InOrder(key(s[i]), b, desc)
  }

  lemma {:induction false} InsertAllBefore<T>(t: seq<T>, x: T, key: T -> int, desc: bool, b: int)
    requires AllBefore(t, key, b, desc) && InOrder(key(x), b, desc)
    ensures AllBefore(Insert(t, x, key, desc), key, b, desc)
  {
    if t != [] {
      var front, last := t[..|t| - 1], t[|t| - 1];
      if !InOrder(key(last), key(x), desc) {
        assert forall i :: 0 <= i < |front| ==> front[i] == t[i];
        InsertAllBefore(front, x, key, desc, b);
      }
    }
  }

  lemma {:induction false} InsertSorted<T>(t: seq<T>, x: T, key: T -> int, desc: bool)
    requires Sorted(t, key, desc)
    ensures Sorted(Insert(t, x, key, desc), key, desc)
  {
    if t != [] {
      var front, last := t[..|t| - 1], t[|t| - 1];
      if !InOrder(key(last), key(x), desc) {
        assert forall i :: 0 <= i < |front| ==> front[i] == t[i];
        InsertSorted(front, x, key, desc);
        InsertAllBefore(front, x, key, desc, key(last));
        var r' := Insert(front, x, key, desc);
        assert Insert(t, x, key, desc) == r' + [last];
      }
    }
  }

  lemma {:induction false} SortBySorted<T>(s: seq<T>, key: T -> int, desc: bool)
    ensures Sorted(SortBy(s, key, desc), key, desc)
  {
    if s != [] {
      SortBySorted(s[..|s| - 1], key, desc);
      InsertSorted(SortBy(s[..|s| - 1], key, desc), s[|s| - 1], key, desc);
    }
  }

  lemma {:induction false} MembersInsert<T>(t: seq<T>, x: T, key: T -> int, desc: bool, k: int)
    ensures Members(Insert(t, x, key, desc), key, k) == Members(t, key, k) + (if key(x) == k then [x] else [])
  {
    if t == [] {
      assert [x][..0] == [];
    } else {
      var front, last := t[..|t| - 1], t[|t| - 1];
      if !InOrder(key(last), key(x), desc) {
        MembersInsert(front, x, key, desc, k);
        var r' := Insert(front, x, key, desc);
        assert (r' + [last])[..|r'|] == r';
      } else {
        assert (t + [x])[..|t|] == t;
      }
    }
  }

  lemma {:induction false} InsertSum<T>(t: seq<T>, x: T, key: T -> int, desc: bool, f: T -> real)
    ensures Sum(Insert(t, x, key, desc), f) == Sum(t, f) + f(x)
  {
    if t == [] {
      assert [x][..0] == [];
    } else {
      var front, last := t[..|t| - 1], t[|t| - 1];
      if !InOrder(key(last), key(x), desc) {
        InsertSum(front, x, key, desc, f);
        var r' := Insert(front, x, key, desc);
        assert Insert(t, x, key, desc) == r' + [last];
        assert (r' + [last])[..|r'|] == r';
        assert Sum(r' + [last], f) == Sum(r', f) + f(last);
      } else {
        assert Insert(t, x, key, desc) == t + [x];
        assert (t + [x])[..|t|] == t;
        assert Sum(t + [x], f) == Sum(t, f) + f(x);
      }
    }
  }

  /** Sorting does not change a sum. */
  lemma {:induction false} SortBySum<T>(s: seq<T>, key: T -> int, desc: bool, f: T -> real)
    ensures Sum(SortBy(s, key, desc), f) == Sum(s, f)
  {
    if s != [] {
      SortBySum(s[..|s| - 1], key, desc, f);
      InsertSum(SortBy(s[..|s| - 1], key, desc), s[|s| - 1], key, desc, f);
    }
  }

  /** Stability: for every key, the elements with that key keep their relative order. */
  lemma {:induction false} SortByStable<T>(s: seq<T>, key: T -> int, desc: bool, k: int)
    ensures Members(SortBy(s, key, desc), key, k) == Members(s, key, k)
  {
    if s != [] {
      SortByStable(s[..|s| - 1], key, desc, k);
      MembersInsert(SortBy(s[..|s| - 1], key, desc), s[|s| - 1], key, desc, k);
    }
  }
}
