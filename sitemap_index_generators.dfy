/**
 * The sitemap index generator: it accumulates the locations of sitemaps, up to a ceiling it never
 * splits, and writes them once as a single `<sitemapindex>` document.
 */
module SitemapIndexGenerators {
  import opened Wrappers
  import opened Text
  import opened Calendar
  import W3CDates
  import opened SitemapUrls
  import opened Urlsets
  import opened SitemapGenerators

  /** One entry of the index: where a sitemap lives and, if known, when it last changed. */
  datatype IndexEntry = IndexEntry(loc: Url, lastMod: Option<Timestamp>)

  /**
   * The index generator's configuration: the base URL entries must share a host with, the path of
   * the index file, the ceiling, whether an empty index may be written, the last-modified time of
   * entries that carry none, and the date format.
   */
  datatype IndexOptions = IndexOptions(
    baseUrl: Url,
    outFile: string,
    maxUrls: nat,
    allowEmptyIndex: bool,
    defaultLastMod: Option<Timestamp>,
    dateFormat: W3CDates.W3CDateFormat)

  /** An entry for a location with no last-modified time of its own. */
  function EntryFor(loc: Url): IndexEntry {
    IndexEntry(loc, None)
  }

  /** A name resolved against the base URL: appended to its text, on its host. */
  function Resolve(base: Url, name: string): Url {
    Url(base.text + name, base.host)
  }

  /** The `count` entries `prefix1suffix`, `prefix2suffix`, ... resolved against the base URL. */
  function Synthesized(base: Url, prefix: string, suffix: string, count: nat): (es: seq<IndexEntry>)
    ensures |es| == count
    ensures forall i :: 0 <= i < count ==> es[i] == EntryFor(Resolve(base, prefix + NatToString(i + 1) + suffix))
  {
    seq(count, i requires 0 <= i < count => EntryFor(Resolve(base, prefix + NatToString(i + 1) + suffix)))
  }

  /** The synthesized locations are all different and all on the base URL's host. */
  lemma SynthesizedDistinct(base: Url, prefix: string, suffix: string, count: nat)
    ensures forall i :: 0 <= i < count ==> Synthesized(base, prefix, suffix, count)[i].loc.host == base.host
    ensures forall i, j :: 0 <= i < j < count ==>
      Synthesized(base, prefix, suffix, count)[i].loc != Synthesized(base, prefix, suffix, count)[j].loc
  {
    var es := Synthesized(base, prefix, suffix, count);
    forall i, j | 0 <= i < j < count
      ensures es[i].loc != es[j].loc
    {
      var a := NatToString(i + 1);
      var b := NatToString(j + 1);
      if es[i].loc == es[j].loc {
        var head := base.text + prefix;
        assert es[i].loc.text == head + a + suffix;
        assert es[j].loc.text == head + b + suffix;
        assert |a| == |b|;
        assert a == es[i].loc.text[|head|..|head| + |a|];
        assert b == es[j].loc.text[|head|..|head| + |b|];
        NatToStringInjective(i + 1, j + 1);
      }
    }
  }

  /** The tenth name of `sitemap`/`.xml` is `sitemap10.xml` under the base URL. */
  lemma SynthesizedTenth(base: Url)
    ensures Synthesized(base, "sitemap", ".xml", 10)[0].loc.text == base.text + "sitemap1.xml"
    ensures Synthesized(base, "sitemap", ".xml", 10)[9].loc.text == base.text + "sitemap10.xml"
  {
    assert NatToString(10) == "10";
  }

  // ---------------------------------------------------------------- the document

  /** The time an entry is listed with: its own, else the configured default. */
  function ListedLastMod(o: IndexOptions, e: IndexEntry): Option<Timestamp> {
    if e.lastMod.Some? then e.lastMod else o.defaultLastMod
  }

  /** The text an entry's time is listed as, under the date format. */
  function ListedTime(o: IndexOptions, e: IndexEntry): Option<string> {
    FormattedDate(o.dateFormat, ListedLastMod(o, e))
  }

  /** The children of `<sitemap>`: the location, then the listed time when there is one. */
  function EntryElements(o: IndexOptions, e: IndexEntry): seq<Element> {
    BaseChildren(e.loc.text, ListedTime(o, e), None, None)
  }

  /** A `<sitemap>` block, indented two spaces, its children four. */
  function SitemapBlock(loc: string, lastMod: Option<string>): string {
    "  <sitemap>\n" + Lines(BaseChildren(loc, lastMod, None, None)) + "  </sitemap>\n"
  }

  /** The `<sitemap>` block of an entry. */
  function EntryBlock(o: IndexOptions, e: IndexEntry): string {
    SitemapBlock(e.loc.text, ListedTime(o, e))
  }

  /**
   * An entry lists its location, then its last-modified time under the date format: its own
   * time when it has one, the default otherwise, and no `<lastmod>` when neither is set.
   */
  lemma EntryElementsSpec(o: IndexOptions, e: IndexEntry)
    ensures Ordered(EntryElements(o, e))
    ensures Values(EntryElements(o, e), LocRank) == [e.loc.text]
    ensures e.lastMod.Some? ==> Values(EntryElements(o, e), LastModRank) == [W3CDates.FormatAsWritten(o.dateFormat, e.lastMod.value)]
    ensures e.lastMod.None? && o.defaultLastMod.Some? ==>
      Values(EntryElements(o, e), LastModRank) == [W3CDates.FormatAsWritten(o.dateFormat, o.defaultLastMod.value)]
    ensures e.lastMod.None? && o.defaultLastMod.None? ==> Values(EntryElements(o, e), LastModRank) == []
    ensures Values(EntryElements(o, e), ChangeFreqRank) == [] && Values(EntryElements(o, e), PriorityRank) == []
  {
    var lastMod := ListedTime(o, e);
    BaseChildrenOrdered(e.loc.text, lastMod, None, None);
    BaseChildrenValues(e.loc.text, lastMod, None, None, LocRank);
    BaseChildrenValues(e.loc.text, lastMod, None, None, LastModRank);
    BaseChildrenValues(e.loc.text, lastMod, None, None, ChangeFreqRank);
    BaseChildrenValues(e.loc.text, lastMod, None, None, PriorityRank);
  }

  /** The renderer of index entries, as the generic fragment machinery takes it. */
  function EntryRenderer(o: IndexOptions): Renderer<IndexEntry> {
    Renderer(None, (e: IndexEntry) => EntryBlock(o, e))
  }

  /** The declaration line and the index root, whose `>` follows the namespace with no space. */
  const IndexOpen: string := XmlDeclaration + "<sitemapindex xmlns=\"" + SitemapNamespaceUri + "\">\n"
  const IndexClose: string := "</sitemapindex>"

  /** The index document: the root holding each entry's block in add order. */
  function IndexDocument(o: IndexOptions, es: seq<IndexEntry>): string {
    IndexOpen + Fragments(EntryRenderer(o), es) + IndexClose
  }

  /** The index root closes its tag right after the namespace, where the urlset root has a space. */
  lemma IndexRootHasNoSpace()
    ensures IndexOpen[|IndexOpen| - 3..] == "\">\n"
    ensures UrlsetOpen(None)[|UrlsetOpen(None)| - 4..] == "\" >\n"
  {
    var head := XmlDeclaration + "<sitemapindex xmlns=\"" + SitemapNamespaceUri;
    assert IndexOpen == head + "\">\n";
    var uhead := XmlDeclaration + "<urlset xmlns=\"" + SitemapNamespaceUri;
    assert UrlsetOpen(None) == uhead + "\" >\n";
  }

  /** An empty index is the root with no children. */
  lemma EmptyIndexDocument(o: IndexOptions)
    ensures IndexDocument(o, []) == IndexOpen + IndexClose
  {
    assert FragmentTexts(EntryRenderer(o), []) == [];
  }

  /** An index of one entry is the root around that entry's block alone. */
  lemma SingleEntryIndexDocument(o: IndexOptions, e: IndexEntry)
    ensures IndexDocument(o, [e]) == IndexOpen + EntryBlock(o, e) + IndexClose
  {
    FragmentsSingle(EntryRenderer(o), e);
  }

  /** Adding an entry inserts its block right before the closing tag, leaving what came before intact. */
  lemma IndexDocumentAppend(o: IndexOptions, es: seq<IndexEntry>, e: IndexEntry)
    ensures IndexDocument(o, es + [e]) == IndexOpen + Fragments(EntryRenderer(o), es) + EntryBlock(o, e) + IndexClose
  {
    var r := EntryRenderer(o);
    FragmentsAppend(r, es, [e]);
    FragmentsSingle(r, e);
    AppendAssoc(IndexOpen, Fragments(r, es), r.fragment(e));
  }

  /** A child of `<sitemap>` is one line, indented four spaces. */
  lemma ChildLine(rank: nat, name: string, value: string)
    ensures Line(Element(rank, 4, name, "", value)) == "    <" + name + ">" + value + "</" + name + ">\n"
  {
    assert Spaces(4) == "    ";
  }

  /** An entry listed with a time prints its `<loc>` line, then its `<lastmod>` line. */
  lemma EntryLinesWithTime(loc: string, time: string)
    ensures Lines(BaseChildren(loc, Some(time), None, None)) ==
      Line(Element(LocRank, 4, "loc", "", loc)) + Line(Element(LastModRank, 4, "lastmod", "", time))
  {
    var l := Element(LocRank, 4, "loc", "", loc);
    var m := Element(LastModRank, 4, "lastmod", "", time);
    assert BaseChildren(loc, Some(time), None, None) == [l] + [m];
    LinesAppend([l], [m]);
    LinesSingle(l);
    LinesSingle(m);
  }

  /** A block listing a time holds its `<loc>` line, then its `<lastmod>` line. */
  lemma SitemapBlockWithTime(loc: string, time: string)
    ensures SitemapBlock(loc, Some(time)) ==
      "  <sitemap>\n" + Line(Element(LocRank, 4, "loc", "", loc))
      + Line(Element(LastModRank, 4, "lastmod", "", time)) + "  </sitemap>\n"
  {
    EntryLinesWithTime(loc, time);
    AppendAssoc("  <sitemap>\n", Line(Element(LocRank, 4, "loc", "", loc)), Line(Element(LastModRank, 4, "lastmod", "", time)));
  }

  /** Under AUTO in UTC, an entry without a time of its own is listed with the epoch default as a bare date. */
  lemma ExampleEntryBlock(o: IndexOptions, loc: Url)
    requires o.dateFormat == W3CDates.WithZone(W3CDates.NewDefault(), W3CDates.UTC)
    requires o.defaultLastMod == Some(W3CDates.Epoch)
    ensures EntryBlock(o, EntryFor(loc)) ==
      "  <sitemap>\n" + Line(Element(LocRank, 4, "loc", "", loc.text))
      + Line(Element(LastModRank, 4, "lastmod", "", "1970-01-01")) + "  </sitemap>\n"
  {
    W3CDates.EpochAsAuto();
    assert ListedTime(o, EntryFor(loc)) == Some("1970-01-01");
    SitemapBlockWithTime(loc.text, "1970-01-01");
  }

  // ---------------------------------------------------------------- the generator

  class SitemapIndexGenerator {
    const options: IndexOptions
    /** The entries added, in add order. */
    var entries: seq<IndexEntry>
    var finished: bool
    /** The index file, once written. */
    var written: Option<OutFile>

    ghost predicate Valid()
      reads this
    {
      && |entries| <= options.maxUrls
      && written == (if finished then Some(OutFile(options.outFile, IndexDocument(options, entries))) else None)
    }

    constructor (o: IndexOptions)
      ensures Valid() && options == o && entries == [] && !finished
    {
      options := o;
      entries := [];
      finished := false;
      written := None;
    }

    /** Adds an entry. Refused once written, for a foreign host, and at the ceiling: the index never splits. */
    method AddUrl(e: IndexEntry) returns (r: Outcome<Error>)
      requires Valid()
      modifies this
      ensures Valid()
      ensures r == if old(finished) then Fail(AlreadyWritten)
                   else if e.loc.host != options.baseUrl.host then Fail(WrongHost)
                   else if |old(entries)| >= options.maxUrls then Fail(TooManyUrls)
                   else Pass
      ensures r.Pass? ==> entries == old(entries) + [e] && finished == old(finished) && written == old(written)
      ensures r.Fail? ==> unchanged(this)
    {
      if finished {
        return Fail(AlreadyWritten);
      }
      if e.loc.host != options.baseUrl.host {
        return Fail(WrongHost);
      }
      if |entries| >= options.maxUrls {
        return Fail(TooManyUrls);
      }
      entries := entries + [e];
      r := Pass;
    }

    /**
     * Adds `prefix1suffix` ... `prefix<count>suffix`, resolved against the base URL, one by one
     * and in order, stopping at the first refusal: the entries that fit stay added.
     */
    method AddUrls(prefix: string, suffix: string, count: nat) returns (r: Outcome<Error>)
      requires Valid()
      modifies this
      ensures Valid() && finished == old(finished)
      ensures count == 0 ==> r == Pass && entries == old(entries)
      ensures count > 0 && old(finished) ==> r == Fail(AlreadyWritten) && entries == old(entries)
      ensures !old(finished) && |old(entries)| + count <= options.maxUrls ==>
        r == Pass && entries == old(entries) + Synthesized(options.baseUrl, prefix, suffix, count)
      ensures !old(finished) && |old(entries)| + count > options.maxUrls ==>
        r == Fail(TooManyUrls)
        && entries == old(entries) + Synthesized(options.baseUrl, prefix, suffix, count)[..options.maxUrls - |old(entries)|]
    {
      var all := Synthesized(options.baseUrl, prefix, suffix, count);
      ghost var start := entries;
      var i := 0;
      while i < count
        invariant 0 <= i <= count && Valid() && finished == old(finished)
        invariant entries == start + all[..i]
        invariant !finished ==> |start| + i <= options.maxUrls
        invariant finished ==> i == 0
      {
        var e := EntryFor(Resolve(options.baseUrl, prefix + NatToString(i + 1) + suffix));
        assert e == all[i];
        r := AddUrl(e);
        if r.Fail? {
          return;
        }
        assert all[..i + 1] == all[..i] + [e];
        i := i + 1;
      }
      assert all[..count] == all;
      r := Pass;
    }

    /** The index document of the entries added so far, without touching storage. */
    method WriteAsString() returns (doc: string)
      ensures doc == IndexDocument(options, entries)
    {
      doc := RenderIndex(options, entries);
    }

    /**
     * The terminal write: refused a second time, and refused for an empty index unless that is
     * allowed. Otherwise writes the index file, whose text is what `WriteAsString` returns.
     */
    method Write() returns (r: Result<OutFile, Error>)
      requires Valid()
      modifies this
      ensures Valid()
      ensures r == if old(finished) then Failure(AlreadyWritten)
                   else if !options.allowEmptyIndex && old(entries) == [] then Failure(NoUrls)
                   else Success(OutFile(options.outFile, IndexDocument(options, old(entries))))
      ensures r.Failure? ==> unchanged(this)
      ensures r.Success? ==> finished && written == Some(r.value) && entries == old(entries)
    {
      if finished {
        return Failure(AlreadyWritten);
      }
      if !options.allowEmptyIndex && entries == [] {
        return Failure(NoUrls);
      }
      var doc := WriteAsString();
      written := Some(OutFile(options.outFile, doc));
      finished := true;
      r := Success(written.value);
    }
  }

  /** Writes the index document of the entries: the root, each entry's block in order, the closing tag. */
  method RenderIndex(o: IndexOptions, es: seq<IndexEntry>) returns (doc: string)
    ensures doc == IndexDocument(o, es)
  {
    var r := EntryRenderer(o);
    var sb := new StringBuilder();
    sb.Append(IndexOpen);
    var i := 0;
    assert es[..0] == [];
    while i < |es|
      invariant 0 <= i <= |es|
      invariant sb.contents == IndexOpen + Fragments(r, es[..i])
    {
      RenderEntry(o, es[i], sb);
      FragmentsStep(IndexOpen, r, es, i);
      i := i + 1;
    }
    assert es[..i] == es;
    sb.Append(IndexClose);
    doc := sb.contents;
  }

  /** Appends an entry's block: the opening tag, the location and listed time, the closing tag. */
  method RenderEntry(o: IndexOptions, e: IndexEntry, sb: StringBuilder)
    modifies sb
    ensures sb.contents == old(sb.contents) + EntryRenderer(o).fragment(e)
  {
    ghost var s0 := sb.contents;
    var children := Lines(EntryElements(o, e));
    sb.Append("  <sitemap>\n");
    RenderBaseChildren(sb, e.loc.text, ListedTime(o, e), None, None);
    sb.Append("  </sitemap>\n");
    AppendAssoc(s0, "  <sitemap>\n" + children, "  </sitemap>\n");
    AppendAssoc(s0, "  <sitemap>\n", children);
  }
}
