/**
 * Url records of every variant, the `<url>` fragment each is rendered as, and the renderer a
 * generator of each variant hands its documents.
 */
module Sitemaps {
  import opened Wrappers
  import opened Text
  import W3CDates
  import opened SitemapUrls
  import NewsRenderer
  import VideoRenderer
  import LinkRenderer
  import opened Urlsets

  /** What a record carries beyond the base fields; it selects the renderer. */
  datatype Extension =
    | Plain
    | News(news: NewsRenderer.NewsFields)
    | Video(video: VideoRenderer.VideoFields)
    | Links(alternates: seq<LinkRenderer.Alternate>)

  datatype UrlRecord = UrlRecord(base: BaseFields, ext: Extension)

  /** The kind of generator, which fixes its renderer and so the records it takes. */
  datatype Variant = Web | GoogleNews | GoogleVideo | GoogleLink

  /** The renderer's extra namespace declaration; the plain web renderer declares none. */
  function Namespaces(v: Variant): Option<string> {
    match v
    case Web => None
    case GoogleNews => Some(NewsRenderer.XmlNamespaces())
    case GoogleVideo => Some(VideoRenderer.XmlNamespaces())
    case GoogleLink => Some(LinkRenderer.XmlNamespaces())
  }

  /** The extension block of a record: nothing for a plain record. */
  function ExtensionBlock(ext: Extension, fmt: W3CDates.W3CDateFormat): string {
    match ext
    case Plain => ""
    case News(n) => NewsRenderer.NewsBlock(n, fmt)
    case Video(v) => VideoRenderer.VideoBlock(v, fmt)
    case Links(alts) => LinkRenderer.LinkBlocks(alts)
  }

  /** The `<url>` fragment of a record. */
  function Fragment(r: UrlRecord, fmt: W3CDates.W3CDateFormat): string {
    UrlBlock(r.base, fmt, ExtensionBlock(r.ext, fmt))
  }

  /** Appends the fragment of a record, through the renderer its extension selects. */
  method RenderUrl(r: UrlRecord, sb: StringBuilder, fmt: W3CDates.W3CDateFormat)
    modifies sb
    ensures sb.contents == old(sb.contents) + Fragment(r, fmt)
  {
    match r.ext
    case Plain => RenderPlain(r, sb, fmt);
    case News(n) => RenderNews(r, n, sb, fmt);
    case Video(v) => RenderVideo(r, v, sb, fmt);
    case Links(alts) => RenderLinks(r, alts, sb, fmt);
  }

  method RenderPlain(r: UrlRecord, sb: StringBuilder, fmt: W3CDates.W3CDateFormat)
    requires r.ext == Plain
    modifies sb
    ensures sb.contents == old(sb.contents) + Fragment(r, fmt)
  {
    RenderBase(r.base, fmt, sb, "");
  }

  method RenderNews(r: UrlRecord, n: NewsRenderer.NewsFields, sb: StringBuilder, fmt: W3CDates.W3CDateFormat)
    requires r.ext == News(n)
    modifies sb
    ensures sb.contents == old(sb.contents) + Fragment(r, fmt)
  {
    NewsRenderer.Render(NewsRenderer.NewsUrl(r.base, n), sb, fmt);
  }

  method RenderVideo(r: UrlRecord, v: VideoRenderer.VideoFields, sb: StringBuilder, fmt: W3CDates.W3CDateFormat)
    requires r.ext == Video(v)
    modifies sb
    ensures sb.contents == old(sb.contents) + Fragment(r, fmt)
  {
    VideoRenderer.Render(VideoRenderer.VideoUrl(r.base, v), sb, fmt);
  }

  method RenderLinks(r: UrlRecord, alts: seq<LinkRenderer.Alternate>, sb: StringBuilder, fmt: W3CDates.W3CDateFormat)
    requires r.ext == Links(alts)
    modifies sb
    ensures sb.contents == old(sb.contents) + Fragment(r, fmt)
  {
    LinkRenderer.Render(LinkRenderer.LinkUrl(r.base, alts), sb, fmt);
  }

  /** A plain record with only a location is the two-line `<url>` block around its `<loc>` line. */
  lemma LocationOnlyFragment(loc: Url, fmt: W3CDates.W3CDateFormat)
    ensures Fragment(UrlRecord(LocationOnly(loc), Plain), fmt) ==
      "  <url>\n" + ("    <loc>" + loc.text + "</loc>\n") + "" + "  </url>\n"
  {
    var es := BaseElements(LocationOnly(loc), fmt);
    assert es == [Element(LocRank, 4, "loc", "", loc.text)];
    LocLine(loc.text);
  }

  lemma LocLine(text: string)
    ensures Lines([Element(LocRank, 4, "loc", "", text)]) == "    <loc>" + text + "</loc>\n"
  {
    LinesSingle(Element(LocRank, 4, "loc", "", text));
    assert Spaces(4) == "    ";
  }

  /** The renderer a generator of the variant uses, dates printed with the given formatter. */
  function RendererFor(v: Variant, fmt: W3CDates.W3CDateFormat): Renderer<UrlRecord> {
    Renderer(Namespaces(v), (r: UrlRecord) => Fragment(r, fmt))
  }

  /** Each extended variant declares the prefix its blocks use on the urlset root; the plain one declares nothing. */
  lemma NamespacesDeclarePrefix(v: Variant)
    ensures v == Web <==> Namespaces(v).None?
    ensures v == GoogleNews ==> DeclaredPrefix(Namespaces(v).value) == Some(NewsRenderer.Prefix)
    ensures v == GoogleVideo ==> DeclaredPrefix(Namespaces(v).value) == Some(VideoRenderer.Prefix)
    ensures v == GoogleLink ==> DeclaredPrefix(Namespaces(v).value) == Some(LinkRenderer.Prefix)
  {
    NewsRenderer.XmlNamespacesPrefix();
    VideoRenderer.XmlNamespacesPrefix();
    LinkRenderer.XmlNamespacesPrefix();
  }

  /** The document of one location-only record from a web generator. */
  lemma LocationOnlyDocument(loc: Url, fmt: W3CDates.W3CDateFormat)
    ensures Document(RendererFor(Web, fmt), [UrlRecord(LocationOnly(loc), Plain)]) ==
      UrlsetOpen(None) + ("  <url>\n" + ("    <loc>" + loc.text + "</loc>\n") + "" + "  </url>\n") + UrlsetClose
  {
    var r := UrlRecord(LocationOnly(loc), Plain);
    FragmentsSingle(RendererFor(Web, fmt), r);
    LocationOnlyFragment(loc, fmt);
  }
}
