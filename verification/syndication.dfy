/** The syndication documents the aggregator reads, the configuration that
    names their sources, and the posts it produces. */
module Syndication {
  import opened Common

  /** Path segments of an absolute URI (`Uri.Segments`). An absolute URI always
      has at least the root segment "/", so the sequence is never empty. */
  type Segments = s: seq<string> | |s| > 0 witness ["/"]

  /** An absolute URI: its absolute text and its path segments. */
  datatype Uri = Uri(absoluteUri: string, segments: Segments)
  {
    /** `Segments.Last()`. */
    function LastSegment(): string
    {
      segments[|segments| - 1]
    }
  }

  /** A syndication link and its relation type ("alternate", "next", ...). */
  datatype Link = Link(relationshipType: string, uri: Uri)

  /** One syndication item as loaded from a feed. `summary` and `content` are
      the optional text bodies (null in the source when absent); `encoded`
      holds the `content:encoded` extension elements in document order;
      `categories` are the category names. The item's own author fields are
      never read, so they are not part of the model. */
  datatype Item = Item(
    title: string,
    summary: Option<string>,
    content: Option<string>,
    encoded: seq<string>,
    categories: seq<string>,
    links: seq<Link>,
    publishDate: int)

  /** One loaded feed document (one page of a paginated feed). */
  datatype Feed = Feed(links: seq<Link>, items: seq<Item>)

  /** A configured source: its id, feed URL and the attributed author. */
  datatype MetaData = MetaData(id: string, feedUrl: string, author: string, authorEmail: string)

  /** The normalised blog post the aggregator returns. */
  datatype Post = Post(
    title: string,
    summary: string,
    author: string,
    authorEmail: string,
    localink: string,
    originalLink: string,
    publishedDate: int,
    content: string)

  /** A loaded page tagged with the id of the source that owns it
      (`KeyValuePair<string, SyndicationFeed>`). */
  datatype Page = Page(id: string, feed: Feed)

  /** An item tagged with the id of the source it came from. */
  datatype TaggedItem = TaggedItem(id: string, item: Item)

  /** Loading the document at a URL: `None` when the load throws a transport
      (`WebException`) or parse (`XmlException`) error. */
  type Fetch = string -> Option<Feed>

  /** The ids of the configured sources. */
  function Ids(metas: seq<MetaData>): set<string>
  {
    set m | m in metas :: m.id
  }
}
