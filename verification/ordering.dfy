/** `OrderByDescending(x => x.PublishedDate)`: a stable sort of the posts,
    most recent first, posts with equal dates keeping their input order. */
module Ordering {
  import opened Syndication

  /** Each post is at least as recent as the next one. */
  predicate SortedDesc(ps: seq<Post>)
  {
    |ps| <= 1 || (ps[0].publishedDate >= ps[1].publishedDate && SortedDesc(ps[1..]))
  }

  /** Sorted lists are ordered between any two positions, not only
      neighbouring ones: no post is more recent than one before it. */
  lemma {:induction false} SortedDescPairwise(ps: seq<Post>)
    requires SortedDesc(ps)
    ensures forall i, j :: 0 <= i < j < |ps| ==> ps[i].publishedDate >= ps[j].publishedDate
    decreases |ps|
  {
    if |ps| > 1 {
      SortedDescPairwise(ps[1..]);
      assert forall j :: 1 <= j < |ps| ==> ps[j] == ps[1..][j - 1];
    }
  }

  /** The posts of `ps` dated `d`, in their order in `ps`. */
  function WithDate(ps: seq<Post>, d: int): (r: seq<Post>)
    ensures forall i :: 0 <= i < |r| ==> r[i].publishedDate == d
  {
    if |ps| == 0 then []
    else (if ps[0].publishedDate == d then [ps[0]] else []) + WithDate(ps[1..], d)
  }

  /** Insert `p` into a sorted list before the first post that is not more
      recent than it. */
  function Insert(p: Post, s: seq<Post>): (r: seq<Post>)
    ensures SortedDesc(s) ==> SortedDesc(r)
    ensures multiset(r) == multiset(s) + multiset{p}
    ensures |r| == |s| + 1 && (r[0] == p || (|s| > 0 && r[0] == s[0]))
  {
    if |s| == 0 then [p]
    else if s[0].publishedDate <= p.publishedDate then
      assert ([p] + s)[1..] == s;
      [p] + s
    else
      var r' := Insert(p, s[1..]);
      assert s == [s[0]] + s[1..];
      assert ([s[0]] + r')[1..] == r';
      [s[0]] + r'
  }

  /** The stable descending sort by published date: the result is sorted
      most recent first and is a permutation of the input. */
  function OrderByDescending(ps: seq<Post>): (r: seq<Post>)
    ensures SortedDesc(r)
    ensures multiset(r) == multiset(ps)
  {
    if |ps| == 0 then []
    else
      assert ps == [ps[0]] + ps[1..];
      Insert(ps[0], OrderByDescending(ps[1..]))
  }

  /** Selecting one date distributes over concatenation. */
  lemma {:induction false} WithDateAppend(a: seq<Post>, b: seq<Post>, d: int)
    ensures WithDate(a + b, d) == WithDate(a, d) + WithDate(b, d)
    decreases |a|
  {
    if |a| == 0 {
      assert a + b == b;
    } else {
      assert (a + b)[1..] == a[1..] + b;
      WithDateAppend(a[1..], b, d);
    }
  }

  lemma WithDateCons(x: Post, t: seq<Post>, d: int)
    ensures WithDate([x] + t, d) == (if x.publishedDate == d then [x] else []) + WithDate(t, d)
  {
  }

  /** Inserting `p` puts it before every post of its own date already present,
      and leaves the order among the posts of any other date unchanged. */
  lemma {:induction false} InsertKeepsDateOrder(p: Post, s: seq<Post>, d: int)
    ensures WithDate(Insert(p, s), d)
         == (if p.publishedDate == d then [p] else []) + WithDate(s, d)
    decreases |s|
  {
    if |s| == 0 {
      WithDateCons(p, [], d);
    } else if s[0].publishedDate > p.publishedDate {
      var rest := Insert(p, s[1..]);
      assert Insert(p, s) == [s[0]] + rest;
      assert s == [s[0]] + s[1..];
      InsertKeepsDateOrder(p, s[1..], d);
      WithDateCons(s[0], rest, d);
      WithDateCons(s[0], s[1..], d);
      if p.publishedDate == d {
        // s[0] is strictly more recent than p, so it is not dated d
        assert WithDate(Insert(p, s), d) == [] + WithDate(rest, d) == WithDate(rest, d);
        assert WithDate(s, d) == [] + WithDate(s[1..], d) == WithDate(s[1..], d);
      } else {
        assert WithDate(rest, d) == [] + WithDate(s[1..], d) == WithDate(s[1..], d);
      }
    } else {
      assert Insert(p, s) == [p] + s;
      WithDateCons(p, s, d);
    }
  }

  /** Stability: for every date, the posts of that date appear in the sorted
      list in the same order as in the input. */
  lemma {:induction false} OrderByDescendingIsStable(ps: seq<Post>, d: int)
    ensures WithDate(OrderByDescending(ps), d) == WithDate(ps, d)
    decreases |ps|
  {
    if |ps| > 0 {
      OrderByDescendingIsStable(ps[1..], d);
      InsertKeepsDateOrder(ps[0], OrderByDescending(ps[1..]), d);
    }
  }

  /** Sorting a batch made of an earlier part and a later part puts the
      posts of each date from the earlier part before those of the same date
      from the later part. */
  lemma EarlierPartFirst(a: seq<Post>, b: seq<Post>, d: int)
    ensures WithDate(OrderByDescending(a + b), d) == WithDate(a, d) + WithDate(b, d)
  {
    OrderByDescendingIsStable(a + b, d);
    WithDateAppend(a, b, d);
  }

  /** Three posts dated 2021, 2023 and 2022 come out as 2023, 2022, 2021. */
  lemma MostRecentFirst(a: Post, b: Post, c: Post)
    requires a.publishedDate == 2021 && b.publishedDate == 2023 && c.publishedDate == 2022
    ensures OrderByDescending([a, b, c]) == [b, c, a]
  {
    assert [a, b, c][1..] == [b, c] && [b, c][1..] == [c] && [c][1..] == [];
    assert OrderByDescending([c]) == [c];
    assert OrderByDescending([b, c]) == [b, c];
    assert Insert(a, [c]) == [c, a];
  }
}
