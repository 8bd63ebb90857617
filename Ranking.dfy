/**
 Scene ranking of `SentinelSTACLoader.search_images`: the fetched items are
 passed through Python's `sorted` with the key
 `item.properties.get("eo:cloud_cover", 100)`. `sorted` is stable, so the
 model is an insertion sort that places each item before the first item whose
 key is not smaller, and its contract is stated against three independent
 predicates: ordered by key, a permutation, and order-preserving per key.
 */
module Ranking {
  import opened StacTypes

  /** The sort key: the cloud cover, or 100 when the property is absent. */
  function RankKey(it: Item): real {
    it.cloudCover.GetOr(100.0)
  }

  /** Non-decreasing by sort key. */
  predicate SortedByCloud(s: seq<Item>) {
    forall i, j :: 0 <= i < j < |s| ==> RankKey(s[i]) <= RankKey(s[j])
  }

  /** The items of `s` whose sort key is `c`, in their order in `s`. */
  function WithKey(s: seq<Item>, c: real): seq<Item> {
    if s == [] then []
    else (if RankKey(s[0]) == c then [s[0]] else []) + WithKey(s[1..], c)
  }

  /** Stability: for every key, the items carrying it appear in the same
      relative order in `r` as in `s`. */
  ghost predicate SameOrderPerKey(s: seq<Item>, r: seq<Item>) {
    forall c :: WithKey(r, c) == WithKey(s, c)
  }

  /** Inserts `x` into `r` in front of the first item whose key is not smaller
      than `x`'s, so that `x` stays ahead of the items with its key. */
  function Insert(x: Item, r: seq<Item>): seq<Item> {
    if r == [] then [x]
    else if RankKey(x) <= RankKey(r[0]) then [x] + r
    else [r[0]] + Insert(x, r[1..])
  }

  /** `sorted(items, key=lambda x: x.properties.get("eo:cloud_cover", 100))`. */
  function SortByCloud(s: seq<Item>): seq<Item> {
    if s == [] then [] else Insert(s[0], SortByCloud(s[1..]))
  }

  /** Every key in `s` is at least `b`. */
  predicate KeysAtLeast(s: seq<Item>, b: real) {
    forall k :: 0 <= k < |s| ==> b <= RankKey(s[k])
  }

  lemma {:induction false} InsertKeysAtLeast(x: Item, r: seq<Item>, b: real)
    requires KeysAtLeast(r, b) && b <= RankKey(x)
    ensures KeysAtLeast(Insert(x, r), b)
  {
    if r != [] && RankKey(x) > RankKey(r[0]) {
      InsertKeysAtLeast(x, r[1..], b);
    }
  }

  lemma {:induction false} InsertSorted(x: Item, r: seq<Item>)
    requires SortedByCloud(r)
    ensures SortedByCloud(Insert(x, r))
  {
    if r != [] && RankKey(x) > RankKey(r[0]) {
      InsertSorted(x, r[1..]);
      InsertKeysAtLeast(x, r[1..], RankKey(r[0]));
    }
  }

  lemma {:induction false} InsertMultiset(x: Item, r: seq<Item>)
    ensures multiset(Insert(x, r)) == multiset(r) + multiset{x}
  {
    if r != [] && RankKey(x) > RankKey(r[0]) {
      InsertMultiset(x, r[1..]);
      assert r == [r[0]] + r[1..];
    } else if r != [] {
      assert r == [r[0]] + r[1..];
    }
  }

  lemma {:induction false} InsertWithKey(x: Item, r: seq<Item>, c: real)
    ensures WithKey(Insert(x, r), c) == (if RankKey(x) == c then [x] else []) + WithKey(r, c)
  {
    if r == [] {
      assert WithKey([x], c) == (if RankKey(x) == c then [x] else []) + WithKey([], c);
    } else if RankKey(x) <= RankKey(r[0]) {
      assert ([x] + r)[1..] == r;
    } else {
      InsertWithKey(x, r[1..], c);
      var t := [r[0]] + Insert(x, r[1..]);
      assert t[1..] == Insert(x, r[1..]);
      assert r[0] == t[0];
      // r[0]'s key is below x's, so it never sits next to x in the same key class
      assert RankKey(r[0]) == c ==> RankKey(x) != c;
    }
  }

  /** The ranking is a sorted, stable permutation of what the catalog returned. */
  lemma {:induction false} SortByCloudCorrect(s: seq<Item>)
    ensures SortedByCloud(SortByCloud(s))
    ensures multiset(SortByCloud(s)) == multiset(s)
    ensures SameOrderPerKey(s, SortByCloud(s))
  {
    if s != [] {
      SortByCloudCorrect(s[1..]);
      InsertSorted(s[0], SortByCloud(s[1..]));
      InsertMultiset(s[0], SortByCloud(s[1..]));
      assert s == [s[0]] + s[1..];
      forall c ensures WithKey(SortByCloud(s), c) == WithKey(s, c) {
        InsertWithKey(s[0], SortByCloud(s[1..]), c);
      }
    }
  }

  /** The permutation keeps the length: nothing fetched is dropped or duplicated. */
  lemma SortByCloudLength(s: seq<Item>)
    ensures |SortByCloud(s)| == |s|
  {
    SortByCloudCorrect(s);
    assert |multiset(SortByCloud(s))| == |multiset(s)|;
  }

  /** An item without `eo:cloud_cover` ranks after every item whose cover is
      below 100: with the default it is treated as fully clouded. */
  lemma {:induction false} MissingCoverRanksLast(s: seq<Item>, i: nat, j: nat)
    requires i < |SortByCloud(s)| && j < |SortByCloud(s)|
    requires SortByCloud(s)[i].cloudCover.None?
    requires SortByCloud(s)[j].cloudCover.Some? && SortByCloud(s)[j].cloudCover.value < 100.0
    ensures j < i
  {
    SortByCloudCorrect(s);
  }

  /** Three items with covers 20, 5 and none come back as 5, 20, none. */
  lemma RankingScenario(a: Item, b: Item, c: Item)
    requires a.cloudCover == Some(20.0) && b.cloudCover == Some(5.0) && c.cloudCover.None?
    ensures SortByCloud([a, b, c]) == [b, a, c]
  {
    assert [a, b, c][1..] == [b, c];
    assert [b, c][1..] == [c];
    assert SortByCloud([c]) == [c];
    assert SortByCloud([b, c]) == Insert(b, [c]) == [b, c];
    assert Insert(a, [b, c]) == [b] + Insert(a, [c]);
  }
}
