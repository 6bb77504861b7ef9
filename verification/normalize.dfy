/** Normalising one tagged syndication item into a post (the `Select` lambda
    of `GetData`): author attribution, link and slug resolution, the summary
    source and the content precedence chain. */
module Normalization {
  import opened Common
  import opened Syndication

  const AlternateRelation := "alternate"

  /** Summaries are cut to this many characters, with no ellipsis marker. */
  const SummaryLength := 700
  const SummaryEllipsis := ""

  /** `TruncateHtml(text, length, ellipsis)`, whose definition is not part of
      this model: it is supplied as an uninterpreted function. */
  type TruncateHtml = (string, int, string) -> string

  /** The two failures of the lambda that the model keeps: no configured
      source has the item's id (`First` finds nothing), or the item has
      neither a summary nor a content body (null dereference). */
  datatype NormalizeError = UnknownSource(id: string) | NoSummaryOrContent

  /** The first configured source whose id is `id` (`_data.First(y => y.Id == id)`). */
  function FindMeta(metas: seq<MetaData>, id: string): (r: Option<MetaData>)
    ensures r.None? <==> id !in Ids(metas)
    ensures r.Some? ==> exists i :: 0 <= i < |metas| && metas[i] == r.value
                          && forall j :: 0 <= j < i ==> metas[j].id != id
    ensures r.Some? ==> r.value.id == id
  {
    match FirstWhere(metas, (m: MetaData) => m.id == id)
    case None =>
      assert forall m :: m in metas ==> m.id != id;
      None
    case Some(i) =>
      assert metas[i] in metas;
      Some(metas[i])
  }

  /** The first link whose relation type is exactly "alternate"
      (`Links.FirstOrDefault(y => y.RelationshipType == "alternate")`). */
  function FirstAlternate(links: seq<Link>): (r: Option<Link>)
    ensures r.None? <==> forall l :: l in links ==> l.relationshipType != AlternateRelation
    ensures r.Some? ==> exists i :: 0 <= i < |links| && links[i] == r.value
                          && forall j :: 0 <= j < i ==> links[j].relationshipType != AlternateRelation
    ensures r.Some? ==> r.value.relationshipType == AlternateRelation
  {
    match FirstWhere(links, (l: Link) => l.relationshipType == AlternateRelation)
    case None => None
    case Some(i) => Some(links[i])
  }

  /** The local slug of a URI segment: the segment cut before its FIRST "."
      when it contains one, the whole segment otherwise. Equivalently, the
      longest prefix of the segment that contains no ".". */
  function Slug(segment: string): (r: string)
    ensures r <= segment
    ensures '.' !in r
    ensures |r| < |segment| ==> segment[|r|] == '.'
  {
    if '.' in segment then segment[..IndexOf(segment, '.')] else segment
  }

  /** The original link and the local slug of an item, in that order. */
  datatype ResolvedLinks = ResolvedLinks(originalLink: string, localink: string)

  /** Link resolution from the first "alternate" link: both fields are empty
      when there is none; otherwise the original link is that link's absolute
      URI and the slug comes from its last path segment. */
  function ResolveLinks(links: seq<Link>): (r: ResolvedLinks)
    ensures FirstAlternate(links).None? ==> r == ResolvedLinks("", "")
    ensures FirstAlternate(links).Some? ==>
              r.originalLink == FirstAlternate(links).value.uri.absoluteUri
              && r.localink <= FirstAlternate(links).value.uri.LastSegment()
              && '.' !in r.localink
              && (|r.localink| < |FirstAlternate(links).value.uri.LastSegment()| ==>
                    FirstAlternate(links).value.uri.LastSegment()[|r.localink|] == '.')
  {
    match FirstAlternate(links)
    case None => ResolvedLinks("", "")
    case Some(link) => ResolvedLinks(link.uri.absoluteUri, Slug(link.uri.LastSegment()))
  }

  /** The untruncated summary: the item's summary text when it has one,
      otherwise its content text; an error when it has neither. */
  function SummarySource(item: Item): (r: Result<string, NormalizeError>)
    ensures r.Err? <==> item.summary.None? && item.content.None?
    ensures r.Ok? && item.summary.Some? ==> r.value == item.summary.value
    ensures r.Ok? && item.summary.None? ==> r.value == item.content.value
  {
    if item.summary.Some? then Ok(item.summary.value)
    else if item.content.Some? then Ok(item.content.value)
    else Err(NoSummaryOrContent)
  }

  /** The content precedence chain: the first `content:encoded` extension,
      else the content body, else the untruncated `summary`. */
  function ResolveContent(item: Item, summary: string): (r: string)
    ensures |item.encoded| > 0 ==> r == item.encoded[0]
    ensures |item.encoded| == 0 && item.content.Some? ==> r == item.content.value
    ensures |item.encoded| == 0 && item.content.None? ==> r == summary
  {
    if |item.encoded| > 0 then item.encoded[0]
    else if item.content.Some? then item.content.value
    else summary
  }

  /** The post built from one tagged item. Author and e-mail come from the
      first configured source with the item's id and never from the item;
      title and date are copied from the item; the summary is the truncated
      summary source; content follows the precedence chain, whose last step
      is the item's own (untruncated) summary. In the model, the lambda fails
      exactly when the source id is unknown or the item has neither summary
      nor content. */
  function Normalize(t: TaggedItem, metas: seq<MetaData>, truncate: TruncateHtml): (r: Result<Post, NormalizeError>)
    ensures r.Err? <==> t.id !in Ids(metas) || (t.item.summary.None? && t.item.content.None?)
    ensures r.Err? && t.id !in Ids(metas) ==> r.error == UnknownSource(t.id)
    ensures r.Err? && t.id in Ids(metas) ==> r.error == NoSummaryOrContent
    ensures r.Ok? ==> exists i :: 0 <= i < |metas| && metas[i].id == t.id
                        && (forall j :: 0 <= j < i ==> metas[j].id != t.id)
                        && r.value.author == metas[i].author
                        && r.value.authorEmail == metas[i].authorEmail
    ensures r.Ok? ==> r.value.title == t.item.title && r.value.publishedDate == t.item.publishDate
    ensures r.Ok? ==> r.value.summary == truncate(
                        if t.item.summary.Some? then t.item.summary.value else t.item.content.value,
                        SummaryLength, SummaryEllipsis)
    ensures r.Ok? && |t.item.encoded| > 0 ==> r.value.content == t.item.encoded[0]
    ensures r.Ok? && |t.item.encoded| == 0 && t.item.content.Some? ==> r.value.content == t.item.content.value
    ensures r.Ok? && |t.item.encoded| == 0 && t.item.content.None? ==> r.value.content == t.item.summary.value
    ensures r.Ok? ==> r.value.originalLink == ResolveLinks(t.item.links).originalLink
                        && r.value.localink == ResolveLinks(t.item.links).localink
  {
    match FindMeta(metas, t.id)
    case None => Err(UnknownSource(t.id))
    case Some(meta) =>
      var links := ResolveLinks(t.item.links);
      match SummarySource(t.item)
      case Err(e) => Err(e)
      case Ok(summary) =>
        Ok(Post(
          t.item.title,
          truncate(summary, SummaryLength, SummaryEllipsis),
          meta.author,
          meta.authorEmail,
          links.localink,
          links.originalLink,
          t.item.publishDate,
          ResolveContent(t.item, summary)))
  }

  /** The slug is the only prefix of the segment that contains no "." and
      either is the whole segment or stops right before a ".". */
  lemma SlugIsLongestDotFreePrefix(segment: string, k: nat)
    requires k <= |segment| && '.' !in segment[..k]
    requires k == |segment| || segment[k] == '.'
    ensures Slug(segment) == segment[..k]
  {
  }

  /** A blog post URL: the slug drops the ".html" extension. */
  lemma SlugOfPostPage()
    ensures Slug("my-post.html") == "my-post"
  {
    var segment := "my-post.html";
    assert segment[..7] == "my-post";
    SlugIsLongestDotFreePrefix(segment, 7);
  }

  /** The slug is cut at the first ".", so a segment with several dots keeps
      only the text before the first one. */
  lemma SlugCutsAtFirstDot()
    ensures Slug("release.v2.html") == "release"
  {
    var segment := "release.v2.html";
    assert segment[..7] == "release";
    SlugIsLongestDotFreePrefix(segment, 7);
  }
}
