/**
 * The alternate-link sitemap extension: one `<xhtml:link>` block per alternate URL of a record,
 * and the namespace declaration its documents carry.
 */
module LinkRenderer {
  import opened Wrappers
  import W3CDates
  import opened SitemapUrls

  const Prefix: string := "xhtml"
  const NamespaceUri: string := "http://www.w3.org/1999/xhtml"

  /** One alternate: its URL and its attributes (hreflang, media, ...) in iteration order. */
  datatype Alternate = Alternate(href: string, attributes: seq<(string, string)>)

  /**
   * The alternates of a record, an insertion-ordered map from alternate URL to attributes:
   * no URL appears twice.
   */
  predicate Keyed(alts: seq<Alternate>) {
    forall i, j :: 0 <= i < j < |alts| ==> alts[i].href != alts[j].href
  }

  datatype LinkUrl = LinkUrl(base: BaseFields, alternates: seq<Alternate>)

  /** The declaration `xmlns:xhtml="<uri>"` added to the urlset root. */
  function XmlNamespaces(): string {
    Declaration(Prefix, NamespaceUri)
  }

  /** The declaration binds the prefix the block's element names carry. */
  lemma XmlNamespacesPrefix()
    ensures DeclaredPrefix(XmlNamespaces()) == Some(Prefix)
  {
    DeclarationPrefix(Prefix, NamespaceUri);
  }

  // ---------------------------------------------------------------- the alternates map

  /** The position of an alternate URL, if present. */
  function IndexOf(alts: seq<Alternate>, href: string): (r: Option<nat>)
    ensures r.Some? ==> r.value < |alts| && alts[r.value].href == href
    ensures r.None? ==> forall i :: 0 <= i < |alts| ==> alts[i].href != href
    decreases |alts|
  {
    if alts == [] then None
    else if alts[|alts| - 1].href == href then Some(|alts| - 1)
    else IndexOf(alts[..|alts| - 1], href)
  }

  /** The attributes stored for an alternate URL. */
  function Get(alts: seq<Alternate>, href: string): Option<seq<(string, string)>> {
    var k := IndexOf(alts, href);
    if k.Some? then Some(alts[k.value].attributes) else None
  }

  /**
   * Storing attributes for a URL: a new URL goes to the end; a URL already present keeps its
   * place and has its attributes replaced.
   */
  function Put(alts: seq<Alternate>, href: string, attributes: seq<(string, string)>): (r: seq<Alternate>)
    ensures |r| == if IndexOf(alts, href).Some? then |alts| else |alts| + 1
  {
    var k := IndexOf(alts, href);
    if k.Some? then alts[k.value := Alternate(href, attributes)]
    else alts + [Alternate(href, attributes)]
  }

  /** Putting keeps the map keyed, and the URL then maps to the attributes just stored. */
  lemma PutGet(alts: seq<Alternate>, href: string, attributes: seq<(string, string)>)
    requires Keyed(alts)
    ensures Keyed(Put(alts, href, attributes))
    ensures Get(Put(alts, href, attributes), href) == Some(attributes)
  {
    var r := Put(alts, href, attributes);
    var k := IndexOf(r, href);
    assert r[IndexOf(alts, href).GetOr(|alts|)].href == href;
    if k.Some? {
      assert k.value == IndexOf(alts, href).GetOr(|alts|);
    }
  }

  /** Putting never disturbs the other URLs or their order. */
  lemma PutKeepsOthers(alts: seq<Alternate>, href: string, attributes: seq<(string, string)>, i: nat)
    requires i < |alts| && alts[i].href != href
    ensures i < |Put(alts, href, attributes)| && Put(alts, href, attributes)[i] == alts[i]
  {
  }

  // ---------------------------------------------------------------- the blocks

  /** An attribute line: `      name="value"`, the value copied verbatim. */
  function AttributeLine(name: string, value: string): string {
    "      " + name + "=\"" + value + "\"\n"
  }

  /** The value of an attribute line sits, unchanged, right after `name="`. */
  lemma AttributeValueVerbatim(name: string, value: string)
    ensures |AttributeLine(name, value)| == |name| + |value| + 10
    ensures AttributeLine(name, value)[6..6 + |name|] == name
    ensures AttributeLine(name, value)[8 + |name|..8 + |name| + |value|] == value
  {
    var line := AttributeLine(name, value);
    assert line == ("      " + name + "=\"") + value + "\"\n";
    assert line == "      " + name + ("=\"" + value + "\"\n");
  }

  /** The line of each attribute, in iteration order. */
  function AttributeTexts(attributes: seq<(string, string)>): seq<string>
  {
    seq(|attributes|, i requires 0 <= i < |attributes| => AttributeLine(attributes[i].0, attributes[i].1))
  }

  /** The attribute lines of an alternate, in iteration order. */
  function AttributeLines(attributes: seq<(string, string)>): string {
    Concat(AttributeTexts(attributes))
  }

  /** One block: the opening line, rel="alternate", the attributes, href, and the closing line. */
  function LinkBlock(a: Alternate): string {
    "    <xhtml:link\n"
    + AttributeLine("rel", "alternate")
    + AttributeLines(a.attributes)
    + AttributeLine("href", a.href)
    + "    />\n"
  }

  /** The block of each alternate, in order. */
  function BlockTexts(alts: seq<Alternate>): seq<string>
  {
    seq(|alts|, i requires 0 <= i < |alts| => LinkBlock(alts[i]))
  }

  /** The blocks of all alternates, in the map's order. */
  function LinkBlocks(alts: seq<Alternate>): string {
    Concat(BlockTexts(alts))
  }

  /** The blocks of a run of alternates are the blocks of its parts, one after another. */
  lemma LinkBlocksAppend(a: seq<Alternate>, b: seq<Alternate>)
    ensures LinkBlocks(a + b) == LinkBlocks(a) + LinkBlocks(b)
  {
    assert BlockTexts(a + b) == BlockTexts(a) + BlockTexts(b);
    ConcatAppend(BlockTexts(a), BlockTexts(b));
  }

  /** A single alternate gives exactly its block. */
  lemma LinkBlocksSingle(a: Alternate)
    ensures LinkBlocks([a]) == LinkBlock(a)
  {
    var bs := BlockTexts([a]);
    assert bs == [LinkBlock(a)];
    assert bs[..0] == [];
    assert Concat(bs) == Concat([]) + LinkBlock(a);
  }

  /** A URL not yet among the alternates adds its block after all the others. */
  lemma PutNewAppendsBlock(alts: seq<Alternate>, href: string, attributes: seq<(string, string)>)
    requires Get(alts, href).None?
    ensures LinkBlocks(Put(alts, href, attributes)) == LinkBlocks(alts) + LinkBlock(Alternate(href, attributes))
  {
    var last := [Alternate(href, attributes)];
    LinkBlocksAppend(alts, last);
    LinkBlocksSingle(Alternate(href, attributes));
  }

  /** A single attribute gives exactly its line. */
  lemma AttributeLinesSingle(name: string, value: string)
    ensures AttributeLines([(name, value)]) == AttributeLine(name, value)
  {
    var lines := AttributeTexts([(name, value)]);
    assert lines == [AttributeLine(name, value)];
    assert lines[..0] == [];
    assert Concat(lines) == Concat([]) + AttributeLine(name, value);
  }

  /** The block of an alternate with a single hreflang attribute, as in the hreflang example. */
  lemma ExampleHrefLangBlock(href: string)
    ensures LinkBlock(Alternate(href, [("hreflang", "en-GB")])) ==
      "    <xhtml:link\n"
      + "      rel=\"alternate\"\n"
      + "      hreflang=\"en-GB\"\n"
      + "      href=\"" + href + "\"\n"
      + "    />\n"
  {
    AttributeLinesSingle("hreflang", "en-GB");
    assert AttributeLine("rel", "alternate") == "      rel=\"alternate\"\n";
    assert AttributeLine("hreflang", "en-GB") == "      hreflang=\"en-GB\"\n";
    assert AttributeLine("href", href) == "      href=\"" + href + "\"\n";
  }

  /** Renders a link record: the base block with the alternates' blocks as its extension. */
  method Render(url: LinkUrl, sb: StringBuilder, fmt: W3CDates.W3CDateFormat)
    modifies sb
    ensures sb.contents == old(sb.contents) + UrlBlock(url.base, fmt, LinkBlocks(url.alternates))
  {
    RenderBase(url.base, fmt, sb, LinkBlocks(url.alternates));
  }
}
