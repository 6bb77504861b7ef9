/** `GetData`: the cache check, then loading every source, flattening the
    pages into tagged items, keeping the items of an interesting category,
    normalising them, sorting by date and storing the result in the cache. */
module Aggregate {
  import opened Common
  import opened Syndication
  import opened Pagination
  import opened Normalization
  import opened Ordering

  /** The key under which the aggregated posts are cached. */
  const CacheKey := "blogposts"

  /** The memory cache as a value: expiry and eviction are not modelled. */
  type Cache = map<string, seq<Post>>

  /** What the factory is built from: the configured sources, the
      interesting categories of the site settings, and the collaborators it
      calls (document loading and HTML truncation). `fuel` bounds the
      pagination depth; it is a modelling device, not a setting. */
  datatype Factory = Factory(
    data: seq<MetaData>,
    categories: seq<string>,
    fetch: Fetch,
    truncate: TruncateHtml,
    fuel: nat)

  // ---------------------------------------------------------------------
  // Flattening pages into tagged items.
  // ---------------------------------------------------------------------

  /** The items of one page, each tagged with the page's source id. */
  function TagItems(p: Page): (r: seq<TaggedItem>)
    ensures |r| == |p.feed.items|
    ensures forall i :: 0 <= i < |r| ==> r[i] == TaggedItem(p.id, p.feed.items[i])
    ensures forall it :: it in p.feed.items ==> TaggedItem(p.id, it) in r
  {
    seq(|p.feed.items|, i requires 0 <= i < |p.feed.items| => TaggedItem(p.id, p.feed.items[i]))
  }

  /** `SelectMany`: the items of every page, page by page, each tagged with
      the id of the source owning its page. Every item of every page is in
      the result, and nothing else is; `FlattenSingle` and `FlattenAppend`
      fix the order and the multiplicities. */
  function Flatten(pages: seq<Page>): (r: seq<TaggedItem>)
    ensures forall t :: t in r ==> exists p :: p in pages && p.id == t.id && t.item in p.feed.items
    ensures forall p, it :: p in pages && it in p.feed.items ==> TaggedItem(p.id, it) in r
  {
    if |pages| == 0 then []
    else
      var head := TagItems(pages[0]);
      assert forall t :: t in head ==> t.id == pages[0].id && t.item in pages[0].feed.items;
      head + Flatten(pages[1..])
  }

  /** One page flattens to its own items, in order, tagged with its id. */
  lemma FlattenSingle(p: Page)
    ensures Flatten([p]) == TagItems(p)
  {
    assert [p][1..] == [];
    assert TagItems(p) + [] == TagItems(p);
  }

  /** Flattening preserves page order. */
  lemma {:induction false} FlattenAppend(a: seq<Page>, b: seq<Page>)
    ensures Flatten(a + b) == Flatten(a) + Flatten(b)
    decreases |a|
  {
    if |a| == 0 {
      assert a + b == b;
    } else {
      assert (a + b)[1..] == a[1..] + b;
      FlattenAppend(a[1..], b);
    }
  }

  // ---------------------------------------------------------------------
  // The category filter.
  // ---------------------------------------------------------------------

  /** Ordinal upper-casing of one character (ASCII letters only). */
  function ToUpper(c: char): char
  {
    if 'a' <= c <= 'z' then (c as int - 32) as char else c
  }

  /** `string.Equals(a, b, StringComparison.OrdinalIgnoreCase)`: equal
      lengths, and equal characters after upper-casing each one. */
  predicate EqualsIgnoreCase(a: string, b: string)
  {
    |a| == |b| && forall i :: 0 <= i < |a| ==> ToUpper(a[i]) == ToUpper(b[i])
  }

  /** A string with every character upper-cased. */
  function ToUpperString(s: string): (r: string)
    ensures |r| == |s| && forall i :: 0 <= i < |s| ==> r[i] == ToUpper(s[i])
  {
    seq(|s|, i requires 0 <= i < |s| => ToUpper(s[i]))
  }

  /** Two strings are equal ignoring case exactly when their upper-cased
      forms are equal; so the comparison is reflexive, symmetric and
      transitive. */
  lemma EqualsIgnoreCaseIsUpperEquality(a: string, b: string, c: string)
    ensures EqualsIgnoreCase(a, b) <==> ToUpperString(a) == ToUpperString(b)
    ensures EqualsIgnoreCase(a, a)
    ensures EqualsIgnoreCase(a, b) ==> EqualsIgnoreCase(b, a)
    ensures EqualsIgnoreCase(a, b) && EqualsIgnoreCase(b, c) ==> EqualsIgnoreCase(a, c)
  {
    if ToUpperString(a) == ToUpperString(b) {
      assert forall i :: 0 <= i < |a| ==> ToUpper(a[i]) == ToUpperString(a)[i] == ToUpperString(b)[i] == ToUpper(b[i]);
    }
  }

  /** Some category name of the item equals some interesting category,
      ignoring case. */
  predicate Matches(item: Item, categories: seq<string>)
  {
    exists c :: c in item.categories && exists s :: s in categories && EqualsIgnoreCase(s, c)
  }

  /** `Where`: the tagged items whose item matches an interesting category.
      A matching item is kept with its multiplicity and a non-matching one
      is dropped. */
  function FilterCategories(ts: seq<TaggedItem>, categories: seq<string>): (r: seq<TaggedItem>)
    ensures forall t :: t in r ==> Matches(t.item, categories)
    ensures forall t: TaggedItem :: Matches(t.item, categories) ==> multiset(r)[t] == multiset(ts)[t]
    ensures forall t :: t in r ==> t in ts
  {
    if |ts| == 0 then []
    else
      assert ts == [ts[0]] + ts[1..];
      (if Matches(ts[0].item, categories) then [ts[0]] else []) + FilterCategories(ts[1..], categories)
  }

  /** Filtering preserves order. */
  lemma {:induction false} FilterAppend(a: seq<TaggedItem>, b: seq<TaggedItem>, categories: seq<string>)
    ensures FilterCategories(a + b, categories) == FilterCategories(a, categories) + FilterCategories(b, categories)
    decreases |a|
  {
    if |a| == 0 {
      assert a + b == b;
    } else {
      assert (a + b)[1..] == a[1..] + b;
      FilterAppend(a[1..], b, categories);
    }
  }

  /** Whether an item matches depends on its category names only up to case:
      items whose category names agree position by position, ignoring case,
      match the same interesting categories. */
  lemma MatchesUpToCase(x: Item, y: Item, categories: seq<string>)
    requires |x.categories| == |y.categories|
    requires forall i :: 0 <= i < |x.categories| ==> EqualsIgnoreCase(x.categories[i], y.categories[i])
    ensures Matches(x, categories) <==> Matches(y, categories)
  {
    if Matches(x, categories) {
      var c, s :| c in x.categories && s in categories && EqualsIgnoreCase(s, c);
      var i :| 0 <= i < |x.categories| && x.categories[i] == c;
      EqualsIgnoreCaseIsUpperEquality(s, c, y.categories[i]);
      assert y.categories[i] in y.categories;
    }
    if Matches(y, categories) {
      var c, s :| c in y.categories && s in categories && EqualsIgnoreCase(s, c);
      var i :| 0 <= i < |y.categories| && y.categories[i] == c;
      EqualsIgnoreCaseIsUpperEquality(x.categories[i], c, s);
      EqualsIgnoreCaseIsUpperEquality(s, c, x.categories[i]);
      assert x.categories[i] in x.categories;
    }
  }

  /** An interesting category written in another case still matches. */
  lemma CategoryCaseIgnored(item: Item)
    requires item.categories == ["ASP.NET"]
    ensures Matches(item, ["asp.net"])
  {
    assert "ASP.NET" in item.categories;
    assert "asp.net" in ["asp.net"];
    assert EqualsIgnoreCase("asp.net", "ASP.NET");
  }

  // ---------------------------------------------------------------------
  // Normalising every kept item.
  // ---------------------------------------------------------------------

  /** `Select` followed by `ToList`: every item normalised in order; the first
      item whose normalisation throws aborts the whole list with its error. */
  function NormalizeAll(ts: seq<TaggedItem>, metas: seq<MetaData>, truncate: TruncateHtml): (r: Result<seq<Post>, NormalizeError>)
    ensures r.Ok? <==> forall i :: 0 <= i < |ts| ==> Normalize(ts[i], metas, truncate).Ok?
    ensures r.Ok? ==> |r.value| == |ts|
    ensures r.Ok? ==> forall i :: 0 <= i < |ts| ==> Normalize(ts[i], metas, truncate) == Ok(r.value[i])
    ensures r.Err? ==> exists i :: 0 <= i < |ts| && Normalize(ts[i], metas, truncate) == Err(r.error)
                         && forall j :: 0 <= j < i ==> Normalize(ts[j], metas, truncate).Ok?
  {
    TryMap(ts, t => Normalize(t, metas, truncate))
  }

  // ---------------------------------------------------------------------
  // GetData.
  // ---------------------------------------------------------------------

  /** The tagged items that pass the category filter, in flatten order:
      source order, then page pre-order, then item order. */
  function Passing(f: Factory): (r: seq<TaggedItem>)
    ensures forall t :: t in r ==> Matches(t.item, f.categories)
    ensures forall p, it ::
              (p in GetSyndicationFeeds(f.fetch, f.data, f.fuel) && it in p.feed.items && Matches(it, f.categories))
              ==> TaggedItem(p.id, it) in r
  {
    var flat := Flatten(GetSyndicationFeeds(f.fetch, f.data, f.fuel));
    assert forall t :: t in flat && Matches(t.item, f.categories) ==> t in multiset(FilterCategories(flat, f.categories));
    FilterCategories(flat, f.categories)
  }

  /** The aggregation on a cache miss: the passing items normalised, then
      sorted by date, most recent first. */
  function Compute(f: Factory): (r: Result<seq<Post>, NormalizeError>)
    ensures r.Ok? ==> NormalizeAll(Passing(f), f.data, f.truncate).Ok?
    ensures r.Ok? ==> multiset(r.value) == multiset(NormalizeAll(Passing(f), f.data, f.truncate).value)
    ensures r.Ok? ==> SortedDesc(r.value)
    ensures r.Ok? ==> |r.value| == |Passing(f)|
    ensures r.Err? ==> NormalizeAll(Passing(f), f.data, f.truncate) == Err(r.error)
  {
    match NormalizeAll(Passing(f), f.data, f.truncate)
    case Err(e) => Err(e)
    case Ok(ps) =>
      var sorted := OrderByDescending(ps);
      assert |sorted| == |multiset(sorted)| == |multiset(ps)| == |ps|;
      Ok(sorted)
  }

  /** `GetData`. A cached value is returned as it is, with the cache
      unchanged and nothing loaded. On a miss, a successful aggregation is
      stored under the cache key and returned; one that throws leaves the
      cache unchanged. */
  function GetData(cache: Cache, f: Factory): (r: (Result<seq<Post>, NormalizeError>, Cache))
    ensures CacheKey in cache ==> r == (Ok(cache[CacheKey]), cache)
    ensures CacheKey !in cache && r.0.Ok? ==> r.1 == cache[CacheKey := r.0.value]
    ensures CacheKey !in cache && r.0.Err? ==> r.1 == cache
    ensures CacheKey !in cache ==> r.0 == Compute(f)
  {
    if CacheKey in cache then (Ok(cache[CacheKey]), cache)
    else match Compute(f)
      case Err(e) => (Err(e), cache)
      case Ok(posts) => (Ok(posts), cache[CacheKey := posts])
  }

  /** A call right after a successful one returns the same posts, whatever
      the sources now hold, and leaves the cache as it was. */
  lemma SecondCallServedFromCache(cache: Cache, f: Factory, g: Factory)
    requires GetData(cache, f).0.Ok?
    ensures GetData(GetData(cache, f).1, g) == GetData(cache, f)
  {
  }

  /** Every item kept by the filter comes from a configured source, so the
      source lookup of the normalisation never fails inside `GetData`. */
  lemma PassingIdsKnown(f: Factory)
    ensures forall t :: t in Passing(f) ==> t.id in Ids(f.data)
  {
  }

  /** Items from known sources fail to normalise exactly when one of them has
      neither a summary nor a content body, and then with that error. */
  lemma NormalizeAllFailsOnlyWithoutText(ts: seq<TaggedItem>, metas: seq<MetaData>, truncate: TruncateHtml)
    requires forall t :: t in ts ==> t.id in Ids(metas)
    ensures NormalizeAll(ts, metas, truncate).Err? <==>
              exists t :: t in ts && t.item.summary.None? && t.item.content.None?
    ensures NormalizeAll(ts, metas, truncate).Err? ==> NormalizeAll(ts, metas, truncate).error == NoSummaryOrContent
  {
  }

  /** On a miss the aggregation throws exactly when some kept item has neither
      a summary nor a content body, and then with that error. */
  lemma ComputeFailsOnlyWithoutText(f: Factory)
    ensures Compute(f).Err? <==>
              exists t :: t in Passing(f) && t.item.summary.None? && t.item.content.None?
    ensures Compute(f).Err? ==> Compute(f).error == NoSummaryOrContent
  {
    PassingIdsKnown(f);
    NormalizeAllFailsOnlyWithoutText(Passing(f), f.data, f.truncate);
  }

  /** Each post of a successful aggregation is the normalisation of a kept
      item, and each kept item gives exactly one post: the posts are a
      permutation of the normalised kept items. */
  lemma PostsAreNormalizedPassingItems(f: Factory)
    ensures Compute(f).Ok? ==>
              forall p :: p in Compute(f).value ==>
                exists t :: t in Passing(f) && Normalize(t, f.data, f.truncate) == Ok(p)
  {
    if Compute(f).Ok? {
      var posts := Compute(f).value;
      var ts := Passing(f);
      var ns := NormalizeAll(ts, f.data, f.truncate).value;
      assert forall p :: p in posts ==> p in ns by {
        forall p | p in posts ensures p in ns {
          assert p in multiset(posts);
        }
      }
      NormalizedPostsFromItems(ts, f.data, f.truncate);
    }
  }

  /** Every post produced by a successful normalisation is the normalisation
      of one of the items. */
  lemma NormalizedPostsFromItems(ts: seq<TaggedItem>, metas: seq<MetaData>, truncate: TruncateHtml)
    ensures NormalizeAll(ts, metas, truncate).Ok? ==>
              forall p :: p in NormalizeAll(ts, metas, truncate).value ==>
                exists t :: t in ts && Normalize(t, metas, truncate) == Ok(p)
  {
  }

  /** End to end: an item of a loaded page whose category matches becomes a
      post of a successful aggregation. */
  lemma KeptItemBecomesPost(f: Factory, p: Page, it: Item)
    ensures p in GetSyndicationFeeds(f.fetch, f.data, f.fuel) && it in p.feed.items
            && Matches(it, f.categories) && Compute(f).Ok? ==>
              Normalize(TaggedItem(p.id, it), f.data, f.truncate).Ok?
              && Normalize(TaggedItem(p.id, it), f.data, f.truncate).value in Compute(f).value
  {
    var t := TaggedItem(p.id, it);
    if p in GetSyndicationFeeds(f.fetch, f.data, f.fuel) && it in p.feed.items
       && Matches(it, f.categories) && Compute(f).Ok? {
      var ts := Passing(f);
      assert t in ts;
      var i :| 0 <= i < |ts| && ts[i] == t;
      var ns := NormalizeAll(ts, f.data, f.truncate).value;
      assert Normalize(t, f.data, f.truncate) == Ok(ns[i]);
      assert ns[i] in multiset(ns);
      assert ns[i] in multiset(Compute(f).value);
    }
  }

  /** Posts with equal dates keep flatten order in the result. */
  lemma ComputeIsStable(f: Factory, d: int)
    ensures Compute(f).Ok? ==>
              WithDate(Compute(f).value, d) == WithDate(NormalizeAll(Passing(f), f.data, f.truncate).value, d)
  {
    if Compute(f).Ok? {
      OrderByDescendingIsStable(NormalizeAll(Passing(f), f.data, f.truncate).value, d);
    }
  }

  /** When no source can be loaded, a miss yields no posts and caches the
      empty list. */
  lemma AllSourcesFailingCachesEmpty(cache: Cache, f: Factory)
    requires CacheKey !in cache
    requires forall m :: m in f.data ==> f.fetch(m.feedUrl).None?
    ensures GetData(cache, f) == (Ok([]), cache[CacheKey := []])
  {
    AllSourcesFailing(f.fetch, f.data, f.fuel);
    assert Passing(f) == [];
  }
}
