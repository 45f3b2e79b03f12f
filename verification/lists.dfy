/**
  The array operations the mock catalogues are queried with: `filter`,
  a stable `sort` by a numeric key (ECMAScript's `Array.prototype.sort`
  is stable), and the `slice` that cuts one page out of a result.
 */
module Lists {

  // ---------------------------------------------------------------------
  // filter

  /** The number of positions of `s` whose element passes `p`. */
  function Count<T>(s: seq<T>, p: T -> bool): (n: nat)
    ensures n <= |s|
    decreases |s|
  {
    if |s| == 0 then 0 else (if p(s[0]) then 1 else 0) + Count(s[1..], p)
  }

  /** Two sequences that pass two tests at the same positions have the same count. */
  lemma {:induction false} CountPointwise<T, U>(a: seq<T>, p: T -> bool, b: seq<U>, q: U -> bool)
    requires |a| == |b|
    requires forall k :: 0 <= k < |a| ==> (p(a[k]) <==> q(b[k]))
    ensures Count(a, p) == Count(b, q)
    decreases |a|
  {
    if |a| > 0 {
      CountPointwise(a[1..], p, b[1..], q);
    }
  }

  /** `s.filter(p)` */
  function Filter<T>(s: seq<T>, p: T -> bool): (r: seq<T>)
    ensures |r| == Count(s, p)
    ensures forall k :: 0 <= k < |r| ==> p(r[k])
    ensures forall x :: x in r ==> x in s
    ensures forall x :: x in s && p(x) ==> x in r
    decreases |s|
  {
    if |s| == 0 then []
    else if p(s[0]) then [s[0]] + Filter(s[1..], p)
    else Filter(s[1..], p)
  }

  /** A test every element passes counts every position. */
  lemma {:induction false} CountAll<T>(s: seq<T>, p: T -> bool)
    requires forall x :: p(x)
    ensures Count(s, p) == |s|
    decreases |s|
  {
    if |s| > 0 {
      CountAll(s[1..], p);
    }
  }

  /** A filter that every element passes keeps the whole sequence. */
  lemma {:induction false} FilterAll<T>(s: seq<T>, p: T -> bool)
    requires forall k :: 0 <= k < |s| ==> p(s[k])
    ensures Filter(s, p) == s
    decreases |s|
  {
    if |s| > 0 {
      FilterAll(s[1..], p);
      assert [s[0]] + s[1..] == s;
    }
  }

  /** A filter that no element passes keeps nothing. */
  lemma FilterNone<T>(s: seq<T>, p: T -> bool)
    requires forall k :: 0 <= k < |s| ==> !p(s[k])
    ensures Filter(s, p) == []
  {
  }

  /** Filtering distributes over concatenation. */
  lemma {:induction false} FilterConcat<T>(a: seq<T>, b: seq<T>, p: T -> bool)
    ensures Filter(a + b, p) == Filter(a, p) + Filter(b, p)
    decreases |a|
  {
    if |a| > 0 {
      assert (a + b)[1..] == a[1..] + b;
      FilterConcat(a[1..], b, p);
    } else {
      assert a + b == b;
    }
  }

  /** Two tests that agree everywhere filter alike. */
  lemma {:induction false} FilterSame<T>(s: seq<T>, p: T -> bool, q: T -> bool)
    requires forall x :: p(x) <==> q(x)
    ensures Filter(s, p) == Filter(s, q)
    decreases |s|
  {
    if |s| > 0 {
      FilterSame(s[1..], p, q);
    }
  }

  /** Two filters in a row keep what a single filter by both tests keeps. */
  lemma {:induction false} FilterTwice<T>(s: seq<T>, p: T -> bool, q: T -> bool, both: T -> bool)
    requires forall x :: both(x) <==> p(x) && q(x)
    ensures Filter(Filter(s, p), q) == Filter(s, both)
    decreases |s|
  {
    if |s| > 0 {
      FilterTwice(s[1..], p, q, both);
      if p(s[0]) {
        var f := Filter(s, p);
        assert f == [s[0]] + Filter(s[1..], p);
        assert f[1..] == Filter(s[1..], p);
      }
    }
  }

  /**
    In a sequence where exactly the elements at even (or exactly those at
    odd) positions pass, a filter over 2m elements keeps m of them.
   */
  lemma {:induction false} FilterAlternating<T>(s: seq<T>, p: T -> bool, parity: nat, m: nat)
    requires parity < 2
    requires |s| == 2 * m
    requires forall k :: 0 <= k < |s| ==> (p(s[k]) <==> k % 2 == parity)
    ensures |Filter(s, p)| == m
    decreases m
  {
    if m > 0 {
      var rest := s[2..];
      forall k | 0 <= k < |rest|
        ensures p(rest[k]) <==> k % 2 == parity
      {
        assert rest[k] == s[k + 2];
        assert (k + 2) % 2 == k % 2;
      }
      FilterAlternating(rest, p, parity, m - 1);
      assert s == [s[0], s[1]] + rest;
      FilterConcat([s[0], s[1]], rest, p);
      assert 0 % 2 == 0 && 1 % 2 == 1;
      FilterPair(s[0], s[1], p);
    }
  }

  lemma FilterPair<T>(a: T, b: T, p: T -> bool)
    ensures |Filter([a, b], p)| == (if p(a) then 1 else 0) + (if p(b) then 1 else 0)
  {
    assert [a, b][1..] == [b];
    assert [b][1..] == [];
  }

  // ---------------------------------------------------------------------
  // stable sort by a numeric key

  /** `s` is ordered so that `key` never decreases. */
  ghost predicate SortedBy<T>(s: seq<T>, key: T -> int) {
    forall i, j :: 0 <= i < j < |s| ==> key(s[i]) <= key(s[j])
  }

  /**
    Inserts `x` in front of the first element whose key is not smaller:
    `x` stays ahead of every element with an equal key.
   */
  function InsertByKey<T>(x: T, s: seq<T>, key: T -> int): (r: seq<T>)
    requires SortedBy(s, key)
    ensures |r| == |s| + 1
    ensures multiset(r) == multiset(s) + multiset{x}
    ensures SortedBy(r, key)
    decreases |s|
  {
    if |s| == 0 || key(x) <= key(s[0]) then [x] + s
    else
      var rest := InsertByKey(x, s[1..], key);
      InsertBehindHead(x, s, rest, key);
      [s[0]] + rest
  }

  /** The step of `InsertByKey` that keeps the head: putting it back in front of the insertion into the tail. */
  lemma InsertBehindHead<T>(x: T, s: seq<T>, rest: seq<T>, key: T -> int)
    requires |s| > 0 && SortedBy(s, key) && key(s[0]) < key(x)
    requires SortedBy(rest, key) && multiset(rest) == multiset(s[1..]) + multiset{x}
    ensures multiset([s[0]] + rest) == multiset(s) + multiset{x}
    ensures SortedBy([s[0]] + rest, key)
  {
    assert s == [s[0]] + s[1..];
    forall k | 0 <= k < |rest|
      ensures key(s[0]) <= key(rest[k])
    {
      assert rest[k] in multiset(rest);
      if rest[k] != x {
        assert rest[k] in multiset(s[1..]);
        var m :| 0 <= m < |s[1..]| && s[1..][m] == rest[k];
        assert s[m + 1] == rest[k];
      }
    }
    var r := [s[0]] + rest;
    forall i, j | 0 <= i < j < |r|
      ensures key(r[i]) <= key(r[j])
    {
      assert r[j] == rest[j - 1];
      if i > 0 {
        assert r[i] == rest[i - 1];
      }
    }
  }

  /** `s.slice().sort((a, b) => key(a) - key(b))`, a stable insertion sort. */
  function SortByKey<T>(s: seq<T>, key: T -> int): (r: seq<T>)
    ensures SortedBy(r, key)
    ensures multiset(r) == multiset(s)
    ensures |r| == |s|
    decreases |s|
  {
    if |s| == 0 then []
    else
      assert s == [s[0]] + s[1..];
      InsertByKey(s[0], SortByKey(s[1..], key), key)
  }

  /** Sorting a sequence that is already in key order changes nothing. */
  lemma {:induction false} SortSortedIsIdentity<T>(s: seq<T>, key: T -> int)
    requires SortedBy(s, key)
    ensures SortByKey(s, key) == s
    decreases |s|
  {
    if |s| > 0 {
      SortSortedIsIdentity(s[1..], key);
      assert SortByKey(s[1..], key) == s[1..];
      assert [s[0]] + s[1..] == s;
    }
  }

  /** A filter keeps an ordered sequence ordered. */
  lemma {:induction false} FilterKeepsSorted<T>(s: seq<T>, p: T -> bool, key: T -> int)
    requires SortedBy(s, key)
    ensures SortedBy(Filter(s, p), key)
    decreases |s|
  {
    if |s| > 0 {
      FilterKeepsSorted(s[1..], p, key);
      var rest := Filter(s[1..], p);
      forall k | 0 <= k < |rest|
        ensures key(s[0]) <= key(rest[k])
      {
        assert rest[k] in s[1..];
      }
    }
  }

  // ---------------------------------------------------------------------
  // pages

  /** `page || 1` with 0 standing for a missing page. */
  function EffectivePage(page: nat): (p: nat)
    ensures p >= 1
    ensures page == 0 ==> p == 1
    ensures page != 0 ==> p == page
  {
    if page == 0 then 1 else page
  }

  /** `pageSize || 20` with 0 standing for a missing page size. */
  function EffectiveSize(pageSize: nat): (n: nat)
    ensures n >= 1
    ensures pageSize == 0 ==> n == 20
    ensures pageSize != 0 ==> n == pageSize
  {
    if pageSize == 0 then 20 else pageSize
  }

  /** `((page || 1) - 1) * (pageSize || 20)` */
  function Start(page: nat, pageSize: nat): nat {
    (EffectivePage(page) - 1) * EffectiveSize(pageSize)
  }

  function Min(a: int, b: int): int {
    if a <= b then a else b
  }

  /** The number of items on a page of a result with `total` items. */
  function PageLength(total: nat, page: nat, pageSize: nat): nat {
    var start := Start(page, pageSize);
    if start >= total then 0 else Min(EffectiveSize(pageSize), total - start)
  }

  /** `items.slice(start, start + (pageSize || 20))` */
  function PageOf<T>(items: seq<T>, page: nat, pageSize: nat): (r: seq<T>)
    ensures |r| == PageLength(|items|, page, pageSize)
    ensures |r| <= EffectiveSize(pageSize)
    ensures forall k :: 0 <= k < |r| ==> r[k] == items[Start(page, pageSize) + k]
  {
    var start := Start(page, pageSize);
    if start >= |items| then [] else items[start..Min(start + EffectiveSize(pageSize), |items|)]
  }

  /** Every item is on exactly the page its index says, at the matching offset. */
  lemma PageOfIndex<T>(items: seq<T>, k: nat, pageSize: nat)
    requires k < |items|
    requires pageSize >= 1
    ensures var page := k / pageSize + 1;
            var r := PageOf(items, page, pageSize);
            k % pageSize < |r| && r[k % pageSize] == items[k]
  {
    var page := k / pageSize + 1;
    assert Start(page, pageSize) == (k / pageSize) * pageSize;
    assert Start(page, pageSize) + k % pageSize == k;
  }

  /** A page cut out of an ordered sequence is ordered. */
  lemma PageKeepsSorted<T>(items: seq<T>, page: nat, pageSize: nat, key: T -> int)
    requires SortedBy(items, key)
    ensures SortedBy(PageOf(items, page, pageSize), key)
  {
    var r := PageOf(items, page, pageSize);
    var start := Start(page, pageSize);
    forall i, j | 0 <= i < j < |r|
      ensures key(r[i]) <= key(r[j])
    {
      assert r[i] == items[start + i] && r[j] == items[start + j];
    }
  }
}
