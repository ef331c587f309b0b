/**
 * Sequence helpers for the group-by-key reductions that appear in several
 * places (shop items by type, inventory items by type, wheel rewards by
 * rarity): `items.reduce((acc, item) => { (acc[k] ||= []).push(item) }, {})`.
 */
module Collections {

  /** The order-preserving subsequence of the elements whose key is `k`. */
  function WithKey<T(==), K(==)>(s: seq<T>, key: T -> K, k: K): (r: seq<T>)
    ensures |r| <= |s|
    ensures forall x :: x in r ==> x in s && key(x) == k
    ensures forall x :: x in s && key(x) == k ==> x in r
  {
    if s == [] then []
    else WithKey(s[..|s| - 1], key, k) + (if key(s[|s| - 1]) == k then [s[|s| - 1]] else [])
  }

  /**
   * The accumulator that `reduce` builds: for each element in order, the
   * group named by its key is created if missing and the element pushed
   * onto its end.
   */
  function GroupBy<T, K(==)>(s: seq<T>, key: T -> K): map<K, seq<T>>
  {
    if s == [] then map[]
    else
      var groups := GroupBy(s[..|s| - 1], key);
      var x := s[|s| - 1];
      groups[key(x) := (if key(x) in groups then groups[key(x)] else []) + [x]]
  }

  /**
   * Grouping partitions the input: the group under `k` is exactly the
   * elements with key `k`, in input order, and a key has a group iff some
   * element carries it. So every element lands in exactly one group.
   */
  lemma {:induction false} GroupByPartitions<T, K>(s: seq<T>, key: T -> K)
    ensures forall k :: k in GroupBy(s, key) ==> GroupBy(s, key)[k] == WithKey(s, key, k)
    ensures forall k :: k in GroupBy(s, key) ==> WithKey(s, key, k) != []
    ensures forall k :: k !in GroupBy(s, key) ==> WithKey(s, key, k) == []
  {
    if s != [] {
      var init, x := s[..|s| - 1], s[|s| - 1];
      GroupByPartitions(init, key);
      var g := GroupBy(init, key);
      assert GroupBy(s, key) == g[key(x) := (if key(x) in g then g[key(x)] else []) + [x]];
      var G := GroupBy(s, key);
      forall k | k in G ensures G[k] == WithKey(s, key, k) && WithKey(s, key, k) != [] {
        assert WithKey(s, key, k) == WithKey(init, key, k) + (if key(x) == k then [x] else []);
        if k != key(x) {
          assert G[k] == g[k];
        }
      }
      forall k | k !in G ensures WithKey(s, key, k) == [] {
        assert WithKey(s, key, k) == WithKey(init, key, k) + (if key(x) == k then [x] else []);
      }
    }
  }

  /** Every element is in the group of its own key, and only there. */
  lemma GroupByPlacesEachElement<T, K>(s: seq<T>, key: T -> K, x: T)
    requires x in s
    ensures key(x) in GroupBy(s, key) && x in GroupBy(s, key)[key(x)]
    ensures forall k :: k in GroupBy(s, key) && x in GroupBy(s, key)[k] ==> k == key(x)
  {
    GroupByPartitions(s, key);
  }

  /**
   * Filtering distributes over concatenation: the kept elements of a
   * prefix come first, in their order, then those of the rest, so the
   * result is the input's order-preserving subsequence of matches.
   */
  lemma {:induction false} WithKeyAppend<T, K>(s: seq<T>, t: seq<T>, key: T -> K, k: K)
    ensures WithKey(s + t, key, k) == WithKey(s, key, k) + WithKey(t, key, k)
  {
    if t == [] {
      assert s + t == s;
    } else {
      var p, x := t[..|t| - 1], t[|t| - 1];
      var last := if key(x) == k then [x] else [];
      assert t == p + [x];
      assert s + t == (s + p) + [x];
      calc {
        WithKey(s + t, key, k);
        { WithKeySnoc(s + p, x, key, k); }
        WithKey(s + p, key, k) + last;
        { WithKeyAppend(s, p, key, k); }
        (WithKey(s, key, k) + WithKey(p, key, k)) + last;
        WithKey(s, key, k) + (WithKey(p, key, k) + last);
        { WithKeySnoc(p, x, key, k); }
        WithKey(s, key, k) + WithKey(t, key, k);
      }
    }
  }

  /** Appending one element extends the kept elements by it exactly when its key matches. */
  lemma WithKeySnoc<T, K>(s: seq<T>, x: T, key: T -> K, k: K)
    ensures WithKey(s + [x], key, k) == WithKey(s, key, k) + (if key(x) == k then [x] else [])
  {
    var u := s + [x];
    assert u[..|u| - 1] == s;
  }

  /** The distinct keys of `s` in order of first appearance: the key order of the object `reduce` builds. */
  function KeysInOrder<T, K(==,!new)>(s: seq<T>, key: T -> K): (ks: seq<K>)
    ensures forall i, j :: 0 <= i < j < |ks| ==> ks[i] != ks[j]
    ensures forall k :: k in ks <==> k in GroupBy(s, key)
  {
    if s == [] then []
    else
      var ks := KeysInOrder(s[..|s| - 1], key);
      var k := key(s[|s| - 1]);
      if k in ks then ks else ks + [k]
  }

  /** The sizes of the groups named by `ks`, added up. */
  function GroupSizes<T, K>(groups: map<K, seq<T>>, ks: seq<K>): nat
    requires forall k :: k in ks ==> k in groups
  {
    if ks == [] then 0 else GroupSizes(groups, ks[..|ks| - 1]) + |groups[ks[|ks| - 1]]|
  }

  /** Growing one listed group by one element grows the sum by one; an unlisted group does not count. */
  lemma {:induction false} GroupSizesUpdate<T, K>(groups: map<K, seq<T>>, ks: seq<K>, k: K, v: seq<T>)
    requires forall j :: j in ks ==> j in groups
    requires forall i, j :: 0 <= i < j < |ks| ==> ks[i] != ks[j]
    ensures k in ks && |v| == |groups[k]| + 1 ==> GroupSizes(groups[k := v], ks) == GroupSizes(groups, ks) + 1
    ensures k !in ks ==> GroupSizes(groups[k := v], ks) == GroupSizes(groups, ks)
  {
    if ks != [] {
      var n := |ks| - 1;
      GroupSizesUpdate(groups, ks[..n], k, v);
      assert ks[n] !in ks[..n];
    }
  }

  /** The groups together hold exactly as many elements as the input. */
  lemma {:induction false} GroupSizesSum<T, K(!new)>(s: seq<T>, key: T -> K)
    ensures GroupSizes(GroupBy(s, key), KeysInOrder(s, key)) == |s|
  {
    if s != [] {
      var init, x := s[..|s| - 1], s[|s| - 1];
      GroupSizesSum(init, key);
      var g, ks := GroupBy(init, key), KeysInOrder(init, key);
      var v := (if key(x) in g then g[key(x)] else []) + [x];
      assert GroupBy(s, key) == g[key(x) := v];
      GroupSizesUpdate(g, ks, key(x), v);
      if key(x) !in ks {
        var ks' := ks + [key(x)];
        assert ks'[..|ks'| - 1] == ks;
        assert GroupSizes(g[key(x) := v], ks') == GroupSizes(g[key(x) := v], ks) + |v|;
      }
    }
  }

  function Min(a: int, b: int): int {
    if a <= b then a else b
  }

  function Max(a: int, b: int): int {
    if a >= b then a else b
  }
}
