/** Loading the configured sources and following their "next" pagination
    links (`GetSyndicationFeeds` and `GetFeed`).

    The source recursion has no bound: a chain of "next" links that returns to
    a page already visited recurses until the stack is exhausted. The model
    threads a `fuel` depth bound through the walk so that every function
    terminates; a walk whose fuel never ran out (`Settled`) is exactly the
    source's result, and `FuelSettles` shows that more fuel changes nothing. */
module Pagination {
  import opened Common
  import opened Syndication

  const NextRelation := "next"

  predicate IsNext(l: Link)
  {
    l.relationshipType == NextRelation
  }

  /** `feed` is the document loaded from some URL. */
  ghost predicate Loaded(fetch: Fetch, feed: Feed)
  {
    exists u :: fetch(u) == Some(feed)
  }

  // ---------------------------------------------------------------------
  // The walk as written: one output list, appended to in place.
  // ---------------------------------------------------------------------

  /** `GetFeed(url, id, syndicationFeeds)`: load `url`; on success append the
      page tagged `id`, then walk each "next" link of the page in link order.
      A failed load appends nothing. Earlier entries are never changed and
      every appended page carries `id`. */
  function GetFeed(fetch: Fetch, url: string, id: string, acc: seq<Page>, fuel: nat): (r: seq<Page>)
    ensures |acc| <= |r| && r[..|acc|] == acc
    ensures forall i :: |acc| <= i < |r| ==> r[i].id == id
    decreases fuel, 0
  {
    if fuel == 0 then acc
    else match fetch(url)
      case None => acc
      case Some(feed) => GetPagingLinks(fetch, feed.links, id, acc + [Page(id, feed)], fuel - 1)
  }

  /** The `foreach` over the "next" links of a loaded page. */
  function GetPagingLinks(fetch: Fetch, links: seq<Link>, id: string, acc: seq<Page>, fuel: nat): (r: seq<Page>)
    ensures |acc| <= |r| && r[..|acc|] == acc
    ensures forall i :: |acc| <= i < |r| ==> r[i].id == id
    decreases fuel, |links|
  {
    if |links| == 0 then acc
    else
      var acc' := if IsNext(links[0]) then GetFeed(fetch, links[0].uri.absoluteUri, id, acc, fuel) else acc;
      GetPagingLinks(fetch, links[1..], id, acc', fuel)
  }

  /** `GetSyndicationFeeds`: walk every source in configuration order into
      one list. The list is the sources' pre-order walks one after another,
      and every page in it is tagged with a configured source id. */
  function GetSyndicationFeeds(fetch: Fetch, metas: seq<MetaData>, fuel: nat): (r: seq<Page>)
    ensures r == SourcesWalk(fetch, metas, fuel)
    ensures forall p :: p in r ==> p.id in Ids(metas)
  {
    FeedsFromIsSourcesWalk(fetch, metas, [], fuel);
    assert [] + SourcesWalk(fetch, metas, fuel) == SourcesWalk(fetch, metas, fuel);
    FeedsFrom(fetch, metas, [], fuel)
  }

  /** The `foreach` over the configured sources. */
  function FeedsFrom(fetch: Fetch, metas: seq<MetaData>, acc: seq<Page>, fuel: nat): (r: seq<Page>)
    ensures |acc| <= |r| && r[..|acc|] == acc
  {
    if |metas| == 0 then acc
    else FeedsFrom(fetch, metas[1..], GetFeed(fetch, metas[0].feedUrl, metas[0].id, acc, fuel), fuel)
  }

  // ---------------------------------------------------------------------
  // Reference definition: the pre-order list of reachable pages.
  // ---------------------------------------------------------------------

  /** The pages reachable from `url` in pre-order: the page itself first, then
      the walks of its "next" links in link order. Every page carries `id`; the walk is empty exactly when the first load
      fails (or the fuel is spent), and otherwise starts with that page. */
  function Walk(fetch: Fetch, url: string, id: string, fuel: nat): (r: seq<Page>)
    ensures forall p :: p in r ==> p.id == id
    ensures |r| > 0 <==> fuel > 0 && fetch(url).Some?
    ensures |r| > 0 ==> r[0] == Page(id, fetch(url).value)
    decreases fuel, 0
  {
    if fuel == 0 then []
    else match fetch(url)
      case None => []
      case Some(feed) => [Page(id, feed)] + WalkLinks(fetch, feed.links, id, fuel - 1)
  }

  /** The concatenated walks of the "next" links among `links`. */
  function WalkLinks(fetch: Fetch, links: seq<Link>, id: string, fuel: nat): (r: seq<Page>)
    ensures forall p :: p in r ==> p.id == id
    decreases fuel, |links|
  {
    if |links| == 0 then []
    else
      (if IsNext(links[0]) then Walk(fetch, links[0].uri.absoluteUri, id, fuel) else [])
      + WalkLinks(fetch, links[1..], id, fuel)
  }

  /** Every page of a walk is a document that was loaded from some URL. */
  lemma {:induction false} WalkPagesLoaded(fetch: Fetch, url: string, id: string, fuel: nat)
    ensures forall p :: p in Walk(fetch, url, id, fuel) ==> Loaded(fetch, p.feed)
    decreases fuel, 0
  {
    if fuel > 0 && fetch(url).Some? {
      WalkLinksPagesLoaded(fetch, fetch(url).value.links, id, fuel - 1);
    }
  }

  lemma {:induction false} WalkLinksPagesLoaded(fetch: Fetch, links: seq<Link>, id: string, fuel: nat)
    ensures forall p :: p in WalkLinks(fetch, links, id, fuel) ==> Loaded(fetch, p.feed)
    decreases fuel, |links|
  {
    if |links| > 0 {
      if IsNext(links[0]) {
        WalkPagesLoaded(fetch, links[0].uri.absoluteUri, id, fuel);
      }
      WalkLinksPagesLoaded(fetch, links[1..], id, fuel);
    }
  }

  /** The walks of all sources, in configuration order. Every page is tagged
      with the id of a configured source. */
  function SourcesWalk(fetch: Fetch, metas: seq<MetaData>, fuel: nat): (r: seq<Page>)
    ensures forall p :: p in r ==> p.id in Ids(metas)
  {
    if |metas| == 0 then []
    else
      assert metas[0] in metas;
      assert Ids(metas[1..]) <= Ids(metas);
      Walk(fetch, metas[0].feedUrl, metas[0].id, fuel) + SourcesWalk(fetch, metas[1..], fuel)
  }

  // ---------------------------------------------------------------------
  // The walk as written agrees with the reference.
  // ---------------------------------------------------------------------

  lemma {:induction false} GetFeedIsWalk(fetch: Fetch, url: string, id: string, acc: seq<Page>, fuel: nat)
    ensures GetFeed(fetch, url, id, acc, fuel) == acc + Walk(fetch, url, id, fuel)
    decreases fuel, 0
  {
    if fuel > 0 && fetch(url).Some? {
      var feed := fetch(url).value;
      GetPagingLinksIsWalkLinks(fetch, feed.links, id, acc + [Page(id, feed)], fuel - 1);
      assert acc + [Page(id, feed)] + WalkLinks(fetch, feed.links, id, fuel - 1)
          == acc + ([Page(id, feed)] + WalkLinks(fetch, feed.links, id, fuel - 1));
    }
  }

  lemma {:induction false} GetPagingLinksIsWalkLinks(fetch: Fetch, links: seq<Link>, id: string, acc: seq<Page>, fuel: nat)
    ensures GetPagingLinks(fetch, links, id, acc, fuel) == acc + WalkLinks(fetch, links, id, fuel)
    decreases fuel, |links|
  {
    if |links| > 0 {
      var rest := WalkLinks(fetch, links[1..], id, fuel);
      if IsNext(links[0]) {
        var url := links[0].uri.absoluteUri;
        var head := Walk(fetch, url, id, fuel);
        GetFeedIsWalk(fetch, url, id, acc, fuel);
        assert GetPagingLinks(fetch, links, id, acc, fuel) == GetPagingLinks(fetch, links[1..], id, acc + head, fuel);
        GetPagingLinksIsWalkLinks(fetch, links[1..], id, acc + head, fuel);
        assert WalkLinks(fetch, links, id, fuel) == head + rest;
        assert acc + head + rest == acc + (head + rest);
      } else {
        assert GetPagingLinks(fetch, links, id, acc, fuel) == GetPagingLinks(fetch, links[1..], id, acc, fuel);
        GetPagingLinksIsWalkLinks(fetch, links[1..], id, acc, fuel);
        assert WalkLinks(fetch, links, id, fuel) == [] + rest;
        assert [] + rest == rest;
      }
    }
  }

  lemma {:induction false} FeedsFromIsSourcesWalk(fetch: Fetch, metas: seq<MetaData>, acc: seq<Page>, fuel: nat)
    ensures FeedsFrom(fetch, metas, acc, fuel) == acc + SourcesWalk(fetch, metas, fuel)
    decreases |metas|
  {
    if |metas| > 0 {
      var m := metas[0];
      var w := Walk(fetch, m.feedUrl, m.id, fuel);
      var rest := SourcesWalk(fetch, metas[1..], fuel);
      var acc' := GetFeed(fetch, m.feedUrl, m.id, acc, fuel);
      GetFeedIsWalk(fetch, m.feedUrl, m.id, acc, fuel);
      assert FeedsFrom(fetch, metas, acc, fuel) == FeedsFrom(fetch, metas[1..], acc', fuel);
      FeedsFromIsSourcesWalk(fetch, metas[1..], acc', fuel);
      assert SourcesWalk(fetch, metas, fuel) == w + rest;
      assert acc + w + rest == acc + (w + rest);
    }
  }

  // ---------------------------------------------------------------------
  // Fault isolation between sources.
  // ---------------------------------------------------------------------

  /** Sources contribute independently: the walk of two lists of sources is the
      walk of the first followed by the walk of the second. */
  lemma {:induction false} SourcesWalkAppend(fetch: Fetch, a: seq<MetaData>, b: seq<MetaData>, fuel: nat)
    ensures SourcesWalk(fetch, a + b, fuel) == SourcesWalk(fetch, a, fuel) + SourcesWalk(fetch, b, fuel)
    decreases |a|
  {
    if |a| > 0 {
      assert (a + b)[1..] == a[1..] + b;
      SourcesWalkAppend(fetch, a[1..], b, fuel);
    } else {
      assert a + b == b;
    }
  }

  /** A source whose feed cannot be loaded contributes nothing and leaves the
      pages of every other source, and their order, unchanged. */
  lemma FailingSourceContributesNothing(fetch: Fetch, a: seq<MetaData>, m: MetaData, b: seq<MetaData>, fuel: nat)
    requires fetch(m.feedUrl).None?
    ensures SourcesWalk(fetch, a + [m] + b, fuel) == SourcesWalk(fetch, a + b, fuel)
  {
    SourcesWalkAppend(fetch, a + [m], b, fuel);
    SourcesWalkAppend(fetch, a, [m], fuel);
    SourcesWalkAppend(fetch, a, b, fuel);
    assert SourcesWalk(fetch, [m], fuel) == [];
    assert SourcesWalk(fetch, a + [m], fuel) == SourcesWalk(fetch, a, fuel);
  }

  /** When no source can be loaded there are no pages at all. */
  lemma {:induction false} AllSourcesFailing(fetch: Fetch, metas: seq<MetaData>, fuel: nat)
    requires forall m :: m in metas ==> fetch(m.feedUrl).None?
    ensures SourcesWalk(fetch, metas, fuel) == []
    decreases |metas|
  {
    if |metas| > 0 {
      assert metas[0] in metas;
      AllSourcesFailing(fetch, metas[1..], fuel);
    }
  }

  // ---------------------------------------------------------------------
  // Pagination examples and the role of the fuel bound.
  // ---------------------------------------------------------------------

  /** Links without a "next" relation are not followed. */
  lemma {:induction false} NoNextLinks(fetch: Fetch, links: seq<Link>, id: string, fuel: nat)
    requires forall l :: l in links ==> !IsNext(l)
    ensures WalkLinks(fetch, links, id, fuel) == []
    decreases |links|
  {
    if |links| > 0 {
      assert links[0] in links;
      NoNextLinks(fetch, links[1..], id, fuel);
    }
  }

  /** A first page whose only "next" link leads to a last page yields both
      pages, in order, both tagged with the source id. */
  lemma NextPageFollowed(fetch: Fetch, first: string, id: string, f1: Feed, f2: Feed, fuel: nat)
    requires fuel >= 2
    requires fetch(first) == Some(f1)
    requires |f1.links| == 1 && IsNext(f1.links[0])
    requires fetch(f1.links[0].uri.absoluteUri) == Some(f2)
    requires forall l :: l in f2.links ==> !IsNext(l)
    ensures Walk(fetch, first, id, fuel) == [Page(id, f1), Page(id, f2)]
  {
    var second := f1.links[0].uri.absoluteUri;
    NoNextLinks(fetch, f2.links, id, fuel - 2);
    assert Walk(fetch, second, id, fuel - 1) == [Page(id, f2)];
    assert WalkLinks(fetch, f1.links[1..], id, fuel - 1) == [];
    assert WalkLinks(fetch, f1.links, id, fuel - 1) == [Page(id, f2)];
  }

  /** The walk from `url` never ran out of fuel: every page loaded on the way
      still had fuel left to follow its "next" links. */
  predicate Settled(fetch: Fetch, url: string, fuel: nat)
    decreases fuel, 0
  {
    fuel > 0 && (fetch(url).None? || SettledLinks(fetch, fetch(url).value.links, fuel - 1))
  }

  predicate SettledLinks(fetch: Fetch, links: seq<Link>, fuel: nat)
    decreases fuel, |links|
  {
    |links| == 0 ||
    ((!IsNext(links[0]) || Settled(fetch, links[0].uri.absoluteUri, fuel))
     && SettledLinks(fetch, links[1..], fuel))
  }

  /** Once a walk is settled, more fuel neither changes its pages nor unsettles it:
      the fuel bound is only a device for termination. */
  lemma {:induction false} FuelSettles(fetch: Fetch, url: string, id: string, fuel: nat, more: nat)
    requires Settled(fetch, url, fuel) && fuel <= more
    ensures Settled(fetch, url, more)
    ensures Walk(fetch, url, id, more) == Walk(fetch, url, id, fuel)
    decreases fuel, 0
  {
    if fetch(url).Some? {
      FuelSettlesLinks(fetch, fetch(url).value.links, id, fuel - 1, more - 1);
    }
  }

  lemma {:induction false} FuelSettlesLinks(fetch: Fetch, links: seq<Link>, id: string, fuel: nat, more: nat)
    requires SettledLinks(fetch, links, fuel) && fuel <= more
    ensures SettledLinks(fetch, links, more)
    ensures WalkLinks(fetch, links, id, more) == WalkLinks(fetch, links, id, fuel)
    decreases fuel, |links|
  {
    if |links| > 0 {
      if IsNext(links[0]) {
        FuelSettles(fetch, links[0].uri.absoluteUri, id, fuel, more);
      }
      FuelSettlesLinks(fetch, links[1..], id, fuel, more);
    }
  }

  /** A page whose only "next" link points back to itself never settles: with
      any fuel the walk lists the page once per unit of fuel, where the source
      recursion would not terminate. */
  lemma {:induction false} SelfLinkedPageNeverSettles(fetch: Fetch, url: string, id: string, feed: Feed, fuel: nat)
    requires fetch(url) == Some(feed)
    requires |feed.links| == 1 && IsNext(feed.links[0]) && feed.links[0].uri.absoluteUri == url
    ensures !Settled(fetch, url, fuel)
    ensures Walk(fetch, url, id, fuel) == seq(fuel, _ => Page(id, feed))
    decreases fuel
  {
    if fuel > 0 {
      SelfLinkedPageNeverSettles(fetch, url, id, feed, fuel - 1);
      assert WalkLinks(fetch, feed.links, id, fuel - 1) == Walk(fetch, url, id, fuel - 1);
      assert WalkLinks(fetch, feed.links[1..], id, fuel - 1) == [];
      assert !SettledLinks(fetch, feed.links, fuel - 1);
    }
  }
}
