/**
 * `ORDER BY key DESC LIMIT n`, as the store evaluates it for the leaderboard,
 * the planet resource list and the expedition history. SQL fixes only the
 * order of distinct keys; IsTopSelection states exactly that much, and TopBy
 * is one evaluation (a stable insertion sort) that meets it.
 */
module Ordering {
  import opened Collections

  ghost predicate SortedDesc<T>(s: seq<T>, key: T -> int) {
    forall i, j :: 0 <= i < j < |s| ==> key(s[i]) >= key(s[j])
  }

  /**
   * What any evaluation of `ORDER BY key DESC LIMIT limit` over `cands`
   * returns: as many rows as the limit allows, drawn from the candidates,
   * in descending key order, and no row left out outranks a row kept.
   */
  ghost predicate IsTopSelection<T>(out: seq<T>, cands: seq<T>, key: T -> int, limit: nat) {
    && |out| == Min(limit, |cands|)
    && multiset(out) <= multiset(cands)
    && SortedDesc(out, key)
    && forall x, y :: x in multiset(cands) - multiset(out) && y in out ==> key(x) <= key(y)
  }

  /** Inserts `x` in front of the first element whose key is not above its own. */
  function Insert<T(==)>(x: T, s: seq<T>, key: T -> int): (r: seq<T>)
    ensures multiset(r) == multiset(s) + multiset{x}
    ensures |r| == |s| + 1
  {
    if s == [] || key(x) >= key(s[0]) then [x] + s
    else
      assert s == [s[0]] + s[1..];
      [s[0]] + Insert(x, s[1..], key)
  }

  lemma {:induction false} InsertSorted<T>(x: T, s: seq<T>, key: T -> int)
    requires SortedDesc(s, key)
    ensures SortedDesc(Insert(x, s, key), key)
  {
    if s != [] && key(x) < key(s[0]) {
      var t := Insert(x, s[1..], key);
      InsertSorted(x, s[1..], key);
      assert Insert(x, s, key) == [s[0]] + t;
      forall j | 0 <= j < |t| ensures key(t[j]) <= key(s[0]) {
        assert t[j] in multiset(t);
        if t[j] != x {
          assert t[j] in multiset(s[1..]);
          assert t[j] in s[1..];
        }
      }
    }
  }

  /** Stable insertion sort on descending keys. */
  function SortDesc<T(==)>(s: seq<T>, key: T -> int): (r: seq<T>)
    ensures multiset(r) == multiset(s)
    ensures |r| == |s|
    ensures SortedDesc(r, key)
  {
    if s == [] then []
    else
      var rest := SortDesc(s[1..], key);
      InsertSorted(s[0], rest, key);
      assert s == [s[0]] + s[1..];
      Insert(s[0], rest, key)
  }

  /** `ORDER BY key DESC LIMIT limit`. */
  function TopBy<T(==)>(cands: seq<T>, key: T -> int, limit: nat): (out: seq<T>)
    ensures IsTopSelection(out, cands, key, limit)
  {
    var sorted := SortDesc(cands, key);
    PrefixOfSortedIsTop(sorted, cands, key, limit);
    sorted[..Min(limit, |cands|)]
  }

  /** Any prefix of a descending arrangement of the candidates is a top selection. */
  lemma PrefixOfSortedIsTop<T>(sorted: seq<T>, cands: seq<T>, key: T -> int, limit: nat)
    requires |sorted| == |cands|
    requires multiset(sorted) == multiset(cands) && SortedDesc(sorted, key)
    ensures IsTopSelection(sorted[..Min(limit, |cands|)], cands, key, limit)
  {
    var k := Min(limit, |cands|);
    SplitMultiset(sorted, k);
    SortedSplit(sorted, key, k);
    forall x, y | x in multiset(cands) - multiset(sorted[..k]) && y in sorted[..k] ensures key(x) <= key(y) {
      assert x in sorted[k..];
    }
  }

  /** Cutting a sequence at `k` splits its multiset between the two halves. */
  lemma SplitMultiset<T>(s: seq<T>, k: nat)
    requires k <= |s|
    ensures multiset(s[..k]) <= multiset(s)
    ensures multiset(s) - multiset(s[..k]) == multiset(s[k..])
  {
    assert s == s[..k] + s[k..];
  }

  /** In a descending arrangement nothing after position `k` outranks anything before it. */
  lemma SortedSplit<T>(s: seq<T>, key: T -> int, k: nat)
    requires SortedDesc(s, key) && k <= |s|
    ensures forall x, y :: x in s[k..] && y in s[..k] ==> key(x) <= key(y)
  {
    forall x, y | x in s[k..] && y in s[..k] ensures key(x) <= key(y) {
      var j :| 0 <= j < |s[k..]| && s[k..][j] == x;
      var i :| 0 <= i < k && s[..k][i] == y;
      assert s[k + j] == x && s[i] == y;
    }
  }

  /** Every selected row is one of the candidates. */
  lemma SelectionFromCandidates<T>(out: seq<T>, cands: seq<T>, key: T -> int, limit: nat)
    requires IsTopSelection(out, cands, key, limit)
    ensures forall x :: x in out ==> x in cands
  {
    forall x | x in out ensures x in cands {
      assert x in multiset(out);
    }
  }
}
