# BlogPostFactory: a Dafny model of the blog-post aggregator

This project models the blog-post aggregation of DotNetMashup, the class
`BlogPostFactory`. The aggregator builds one list of blog posts from a set
of configured syndication sources:

- it loads each source's feed and follows the feed's "next" pagination links;
- it swallows the load failures of single pages;
- it keeps the items that carry one of the site's interesting categories;
- it normalises each kept item into a `BlogPost`;
- it sorts the posts most recent first;
- it caches the result under the key `"blogposts"`.

The model is functional. Loading a document is a function `Fetch` from a URL
to an optional feed, where `None` stands for a `WebException` or an
`XmlException`. The memory cache is a map value passed in and returned.
`TruncateHtml` is a function parameter.

Modules, one per part of the class:

- `Common` (common.dfy): option and result types, the first-match search
  behind LINQ `First`/`FirstOrDefault`, `IndexOf`, and a map that stops at
  the first error (`Select(...).ToList()` with a lambda that may throw).
- `Syndication` (syndication.dfy): items, links, feeds, source metadata,
  posts and tagged pages.
- `Pagination` (pagination.dfy): `GetFeed` and `GetSyndicationFeeds` as
  written, threading one output list. They are proved equal to `Walk`, a
  pre-order reference walk.
- `Normalization` (normalize.dfy): the lambda that turns a tagged item into
  a post.
- `Ordering` (ordering.dfy): the stable `OrderByDescending` on the
  published date.
- `Aggregate` (aggregate.dfy): flattening, the category filter, `GetData`
  and the cache.

The source recursion in `GetFeed` has no depth bound. The model adds a
`fuel` parameter: the maximum depth of the pagination chain that is
followed. It exists only so that every function terminates.
`Pagination.FuelSettles` shows that once a walk has enough fuel, more fuel
changes nothing. `Pagination.SelfLinkedPageNeverSettles` shows the case where
the source would not terminate: a page whose "next" link points back to
itself.

Three points where the code is easy to misread:

- The local slug is cut before the FIRST "." of the last URI segment
  (`IndexOf`, line 60), not before the last one. So "release.v2.html" gives
  "release".
- When an item has no `content:encoded` and no content body, its content is
  the UNTRUNCATED summary (line 87), not the truncated one.
- An item kept by the filter that has neither a summary nor a content body
  makes the lambda dereference null (line 67). That exception escapes
  `GetData`, so the whole aggregation fails and nothing is cached. The model
  returns `Err(NoSummaryOrContent)` and leaves the cache unchanged.
  `Aggregate.ComputeFailsOnlyWithoutText` proves this is the only way the
  modelled `GetData` can fail; the other exceptions listed under "Left out"
  are not modelled.

## Model

| member | source | states |
|---|---|---|
| `Common.FirstWhere` | src/DotNetMashup.Web/Factories/BlogPostFactory.cs:53 | the index found is the first element satisfying the predicate; none is found exactly when no element satisfies it |
| `Common.IndexOf` | src/DotNetMashup.Web/Factories/BlogPostFactory.cs:58-60 | -1 exactly when the character is absent; otherwise the position of its first occurrence |
| `Common.TryMap` | src/DotNetMashup.Web/Factories/BlogPostFactory.cs:47-103 | succeeds exactly when every element maps successfully, and then gives the mapped elements in order; otherwise fails with the error of the first failing element |
| `Pagination.GetFeed` | src/DotNetMashup.Web/Factories/BlogPostFactory.cs:119-149 | the output list is only appended to, so earlier entries stay; every page appended is tagged with the walked source's id |
| `Pagination.GetPagingLinks` | src/DotNetMashup.Web/Factories/BlogPostFactory.cs:132-138 | walking the "next" links only appends, and every appended page carries the same id |
| `Pagination.FeedsFrom` | src/DotNetMashup.Web/Factories/BlogPostFactory.cs:110-116 | walking the sources one after another only appends to the shared list |
| `Pagination.Walk` | src/DotNetMashup.Web/Factories/BlogPostFactory.cs:119-149 | reference pre-order walk: all pages carry the id; the walk is empty exactly when the first load fails (or the fuel is spent); otherwise it starts with that page |
| `Pagination.WalkLinks` | src/DotNetMashup.Web/Factories/BlogPostFactory.cs:132-138 | the walks of the "next" links carry the same id |
| `Pagination.SourcesWalk` | src/DotNetMashup.Web/Factories/BlogPostFactory.cs:108-117 | every page of the combined walk is tagged with the id of a configured source |
| `Pagination.GetFeedIsWalk` | src/DotNetMashup.Web/Factories/BlogPostFactory.cs:119-149 | `GetFeed` appends exactly the pre-order walk: the loaded page first, then each "next" link's pages in link order |
| `Pagination.GetPagingLinksIsWalkLinks` | src/DotNetMashup.Web/Factories/BlogPostFactory.cs:132-138 | the loop over "next" links appends the walks of those links, in link order, skipping other relations |
| `Pagination.FeedsFromIsSourcesWalk` | src/DotNetMashup.Web/Factories/BlogPostFactory.cs:111-114 | the loop over sources appends each source's walk in configuration order |
| `Pagination.GetSyndicationFeeds` | src/DotNetMashup.Web/Factories/BlogPostFactory.cs:108-117 | the loaded pages are the sources' pre-order walks in configuration order, each page tagged with a configured id |
| `Pagination.WalkPagesLoaded` | src/DotNetMashup.Web/Factories/BlogPostFactory.cs:124-131 | every page of a walk is a document that loaded successfully from some URL |
| `Pagination.WalkLinksPagesLoaded` | src/DotNetMashup.Web/Factories/BlogPostFactory.cs:132-138 | every page reached through "next" links loaded successfully from some URL |
| `Pagination.SourcesWalkAppend` | src/DotNetMashup.Web/Factories/BlogPostFactory.cs:111-114 | sources contribute independently: the walk of a + b is the walk of a followed by the walk of b |
| `Pagination.FailingSourceContributesNothing` | src/DotNetMashup.Web/Factories/BlogPostFactory.cs:141-148 | a source whose feed fails to load can be removed without changing the pages of the other sources or their order |
| `Pagination.AllSourcesFailing` | src/DotNetMashup.Web/Factories/BlogPostFactory.cs:141-148 | when no source loads there are no pages |
| `Pagination.NoNextLinks` | src/DotNetMashup.Web/Factories/BlogPostFactory.cs:132-134 | links with relations other than "next" are not followed |
| `Pagination.NextPageFollowed` | src/DotNetMashup.Web/Factories/BlogPostFactory.cs:129-137 | a first page with one "next" link to a last page yields both pages, in order, both tagged with the source id |
| `Pagination.FuelSettles` | src/DotNetMashup.Web/Factories/BlogPostFactory.cs:119-149 | a walk that never ran out of depth stays the same under any larger depth bound |
| `Pagination.FuelSettlesLinks` | src/DotNetMashup.Web/Factories/BlogPostFactory.cs:132-138 | the same for the walks of a page's "next" links |
| `Pagination.SelfLinkedPageNeverSettles` | src/DotNetMashup.Web/Factories/BlogPostFactory.cs:134-137 | a page whose only "next" link is itself never settles: the walk is that page, tagged with the source id, once per unit of depth, where the unbounded recursion would not end |
| `Normalization.FindMeta` | src/DotNetMashup.Web/Factories/BlogPostFactory.cs:49-51 | the result is the first configured source with the item's id; there is none exactly when the id is not configured |
| `Normalization.FirstAlternate` | src/DotNetMashup.Web/Factories/BlogPostFactory.cs:53 | the first link whose relation is exactly "alternate"; none exactly when no link has that relation |
| `Normalization.Slug` | src/DotNetMashup.Web/Factories/BlogPostFactory.cs:57-61 | the slug is a prefix of the segment, contains no ".", and is either the whole segment or stops right before a "." |
| `Normalization.SlugIsLongestDotFreePrefix` | src/DotNetMashup.Web/Factories/BlogPostFactory.cs:57-61 | the slug is the unique such prefix: the segment cut before its first ".", or the whole segment when it has none |
| `Normalization.SlugOfPostPage` | src/DotNetMashup.Web/Factories/BlogPostFactory.cs:57-61 | the segment "my-post.html" gives the slug "my-post" |
| `Normalization.SlugCutsAtFirstDot` | src/DotNetMashup.Web/Factories/BlogPostFactory.cs:60 | the segment "release.v2.html" gives "release": the cut is at the first dot, not the last |
| `Normalization.ResolveLinks` | src/DotNetMashup.Web/Factories/BlogPostFactory.cs:53-64 | no "alternate" link gives two empty strings; otherwise the original link is its absolute URI and the slug is the dot-free prefix of its last segment that stops at the first "." |
| `Normalization.SummarySource` | src/DotNetMashup.Web/Factories/BlogPostFactory.cs:66-68 | the summary text if present, else the content text; an error exactly when both are absent |
| `Normalization.ResolveContent` | src/DotNetMashup.Web/Factories/BlogPostFactory.cs:72-88 | the first encoded extension if any; else the content body if present; else the untruncated summary |
| `Normalization.Normalize` | src/DotNetMashup.Web/Factories/BlogPostFactory.cs:47-101 | fails exactly for an unknown source id (with that id as the error) or a missing summary and content (with that error); author and e-mail come from the first source with the id; title and date are copied; summary is the truncation to 700 with no ellipsis; the content precedence; the resolved links |
| `Ordering.SortedDescPairwise` | src/DotNetMashup.Web/Factories/BlogPostFactory.cs:102 | in a sorted list no post is more recent than any post before it, not only the one right before it |
| `Ordering.Insert` | src/DotNetMashup.Web/Factories/BlogPostFactory.cs:102 | inserting into a date-sorted list keeps it sorted and adds exactly the one post |
| `Ordering.OrderByDescending` | src/DotNetMashup.Web/Factories/BlogPostFactory.cs:102 | the result is sorted by date, each post at least as recent as the next, and is a permutation of the input |
| `Ordering.InsertKeepsDateOrder` | src/DotNetMashup.Web/Factories/BlogPostFactory.cs:102 | an inserted post goes before the posts of its own date already present, and leaves the order of the other dates alone |
| `Ordering.OrderByDescendingIsStable` | src/DotNetMashup.Web/Factories/BlogPostFactory.cs:102 | for every date, the posts of that date keep their input order |
| `Ordering.WithDateAppend` | src/DotNetMashup.Web/Factories/BlogPostFactory.cs:102 | the posts of one date in a concatenation are those of the first part followed by those of the second |
| `Ordering.EarlierPartFirst` | src/DotNetMashup.Web/Factories/BlogPostFactory.cs:102 | sorting an earlier part followed by a later part keeps, for every date, the earlier part's posts of that date before the later part's |
| `Ordering.MostRecentFirst` | src/DotNetMashup.Web/Factories/BlogPostFactory.cs:102 | posts dated 2021, 2023, 2022 come out as 2023, 2022, 2021 |
| `Aggregate.TagItems` | src/DotNetMashup.Web/Factories/BlogPostFactory.cs:45 | each item of a page, in order, paired with the page's source id; no item of the page is missing |
| `Aggregate.Flatten` | src/DotNetMashup.Web/Factories/BlogPostFactory.cs:44-45 | every tagged item is an item of some page and carries that page's id, and every item of every page appears, tagged with its page's id |
| `Aggregate.FlattenSingle` | src/DotNetMashup.Web/Factories/BlogPostFactory.cs:44-45 | a single page flattens to its own items in order, each tagged with the page's id |
| `Aggregate.FlattenAppend` | src/DotNetMashup.Web/Factories/BlogPostFactory.cs:44-45 | flattening keeps page order, and so source order and page pre-order |
| `Aggregate.FilterCategories` | src/DotNetMashup.Web/Factories/BlogPostFactory.cs:46 | an item with a category equal to an interesting one, ignoring case, is kept as often as it occurs; any other item is dropped; nothing new appears |
| `Aggregate.FilterAppend` | src/DotNetMashup.Web/Factories/BlogPostFactory.cs:46 | filtering keeps the order of the items |
| `Aggregate.EqualsIgnoreCaseIsUpperEquality` | src/DotNetMashup.Web/Factories/BlogPostFactory.cs:46 | two names are equal ignoring case exactly when their upper-cased forms are equal; the comparison is reflexive, symmetric and transitive |
| `Aggregate.MatchesUpToCase` | src/DotNetMashup.Web/Factories/BlogPostFactory.cs:46 | items whose category names agree position by position ignoring case match exactly the same interesting categories |
| `Aggregate.Passing` | src/DotNetMashup.Web/Factories/BlogPostFactory.cs:42-46 | every kept item has an interesting category, and every item of a loaded page with an interesting category is kept, tagged with its source id |
| `Aggregate.CategoryCaseIgnored` | src/DotNetMashup.Web/Factories/BlogPostFactory.cs:46 | a category "ASP.NET" matches the interesting category "asp.net" |
| `Aggregate.NormalizeAll` | src/DotNetMashup.Web/Factories/BlogPostFactory.cs:47-103 | succeeds exactly when every kept item normalises, and then gives one post per item in order; otherwise fails with the first item's error |
| `Aggregate.Compute` | src/DotNetMashup.Web/Factories/BlogPostFactory.cs:42-103 | on success the posts are a permutation of the normalised kept items, sorted most recent first, as many as the kept items; otherwise the normalisation error |
| `Aggregate.GetData` | src/DotNetMashup.Web/Factories/BlogPostFactory.cs:38-106 | a hit returns the cached value and leaves the cache as it was, whatever the sources; a successful miss stores under "blogposts" the value it returns; a failing miss stores nothing |
| `Aggregate.SecondCallServedFromCache` | src/DotNetMashup.Web/Factories/BlogPostFactory.cs:40-41 | a call right after a successful call returns the same posts and cache, whatever the sources hold |
| `Aggregate.PassingIdsKnown` | src/DotNetMashup.Web/Factories/BlogPostFactory.cs:49 | every kept item's id is a configured source id, so the source lookup never fails |
| `Aggregate.NormalizeAllFailsOnlyWithoutText` | src/DotNetMashup.Web/Factories/BlogPostFactory.cs:47-103 | items whose source ids are known fail to normalise exactly when one has neither summary nor content, and then with that error |
| `Aggregate.ComputeFailsOnlyWithoutText` | src/DotNetMashup.Web/Factories/BlogPostFactory.cs:66-68 | the aggregation fails exactly when a kept item has neither summary nor content, and then with that error |
| `Aggregate.PostsAreNormalizedPassingItems` | src/DotNetMashup.Web/Factories/BlogPostFactory.cs:44-103 | every returned post is the normalisation of a kept item |
| `Aggregate.NormalizedPostsFromItems` | src/DotNetMashup.Web/Factories/BlogPostFactory.cs:47-101 | every post of a successful normalisation is the normalisation of one of the items |
| `Aggregate.KeptItemBecomesPost` | src/DotNetMashup.Web/Factories/BlogPostFactory.cs:42-103 | when the aggregation succeeds, every item of a loaded page with an interesting category normalises, and its post is in the result |
| `Aggregate.ComputeIsStable` | src/DotNetMashup.Web/Factories/BlogPostFactory.cs:102 | posts with the same date keep flatten order: source, then page pre-order, then item |
| `Aggregate.AllSourcesFailingCachesEmpty` | src/DotNetMashup.Web/Factories/BlogPostFactory.cs:104-105 | when no source loads, a miss returns the empty list and caches it |

## Left out

- Network and XML loading (`XmlReader.Create`, `SyndicationFeed.Load`, lines 124-127) is the `Fetch` parameter. `None` stands for both caught exception types.
- Other exceptions are not modelled: a malformed URL (`UriFormatException`), or a content body that is not `TextSyndicationContent` (`InvalidCastException`). They would escape `GetData`. The model's content is always text.
- Relative link URIs are not modelled. On a relative `Uri`, `AbsoluteUri` and `Segments` throw (lines 57, 64, 136), and that exception would escape `GetData`. Every `Uri` in the model is absolute.
- A null item title (line 92) is not modelled; titles are always strings.
- A null category name is not modelled. In the code it matches only a null interesting category (`string.Equals` is true for two nulls, line 46); the model's category names and interesting categories are non-null strings.
- `TruncateHtml` is in `DotNetMashup.Web.Extensions`, which is not part of this model. It is an uninterpreted function parameter. No length bound or tag safety is claimed for the summary.
- Aggregate.EqualsIgnoreCase: upper-cases ASCII letters only, while `OrdinalIgnoreCase` also folds non-ASCII letters.
- `IMemoryCache` expiry and eviction are not modelled, nor a cached value of another type. The cache is a map from key to post list.
- Aggregate.GetData: the code caches a view of the same `List<BlogPost>` it returns (lines 103-105), so a caller that mutates the returned list or its posts changes what later cache hits return; the model's cache holds an immutable sequence, and `Aggregate.SecondCallServedFromCache` holds only while no caller mutates the result.
- `DateTimeOffset.DateTime` is an integer timestamp. The offset that `.DateTime` drops is not modelled.
- `Uri` parsing is not modelled. A URI is its absolute text plus a non-empty list of path segments.
- `Fetch` is a function of the URL, so a URL loaded twice (a diamond or a cycle of "next" links, or two sources with the same feed URL) gives the same document both times, whereas the source sends a fresh request each time. `Pagination.SelfLinkedPageNeverSettles` relies on this: with a changing document the self-linked page could stop linking to itself.
- The `fuel` depth bound is a modelling device, not source behaviour. The source's unbounded recursion on a "next" cycle, which ends in a stack overflow, is represented by `Pagination.SelfLinkedPageNeverSettles` only.
- `FactoryName` is a constant and is not modelled.
- LINQ's lazy evaluation is not modelled. `ToList` forces the whole pipeline before the cache write, so the sequence semantics give the same result.
- Concurrent callers are not modelled. The source has no concurrency.
