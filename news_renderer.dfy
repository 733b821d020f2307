/**
 * The Google News sitemap extension: the `<news:news>` block of one url record and the namespace
 * declaration its documents carry.
 */
module NewsRenderer {
  import opened Wrappers
  import opened Text
  import opened Calendar
  import W3CDates
  import opened SitemapUrls

  const Prefix: string := "news"
  const NamespaceUri: string := "http://www.google.com/schemas/sitemap-news/0.9"

  /**
   * The news part of a record. Genres and keywords are lists printed joined by ", "; an empty
   * list means the field is unset.
   */
  datatype NewsFields = NewsFields(
    publicationName: string,
    language: string,
    genres: seq<string>,
    publicationDate: Timestamp,
    title: string,
    keywords: seq<string>)

  datatype NewsUrl = NewsUrl(base: BaseFields, news: NewsFields)

  /** The declaration `xmlns:news="<uri>"` added to the urlset root. */
  function XmlNamespaces(): string {
    Declaration(Prefix, NamespaceUri)
  }

  /** The declaration binds the prefix the block's element names carry. */
  lemma XmlNamespacesPrefix()
    ensures DeclaredPrefix(XmlNamespaces()) == Some(Prefix)
  {
    DeclarationPrefix(Prefix, NamespaceUri);
  }

  function News(name: string): string {
    Qualified(Prefix, name)
  }

  /** The text of a list field: its items joined by ", ", or nothing for an empty list. */
  function ListText(items: seq<string>): (s: Option<string>)
    ensures s.Some? <==> items != []
  {
    if items == [] then None else Some(Join(items, ", "))
  }

  /** Joining two non-empty runs of items puts one separator between them. */
  lemma {:induction false} JoinAppend(a: seq<string>, b: seq<string>, sep: string)
    requires a != [] && b != []
    ensures Join(a + b, sep) == Join(a, sep) + sep + Join(b, sep)
    decreases |a|
  {
    if |a| == 1 {
      assert (a + b)[1..] == b;
    } else {
      assert (a + b)[1..] == a[1..] + b;
      JoinAppend(a[1..], b, sep);
    }
  }

  // Places in the fixed emission order.
  const NameRank: nat := 0
  const LanguageRank: nat := 1
  const GenresRank: nat := 0
  const PublicationDateRank: nat := 1
  const TitleRank: nat := 2
  const KeywordsRank: nat := 3

  /** The children of `<news:publication>`: the name, then the language. */
  function PublicationElements(n: NewsFields): seq<Element> {
    [Element(NameRank, 8, News("name"), "", n.publicationName),
     Element(LanguageRank, 8, News("language"), "", n.language)]
  }

  /** The children of `<news:news>` after the publication sub-block. */
  function NewsChildren(genres: Option<string>, date: string, title: string, keywords: Option<string>): seq<Element> {
    Optional(GenresRank, 6, News("genres"), genres)
    + [Element(PublicationDateRank, 6, News("publication_date"), "", date)]
    + [Element(TitleRank, 6, News("title"), "", title)]
    + Optional(KeywordsRank, 6, News("keywords"), keywords)
  }

  /** The children for a record, the publication date through the formatter. */
  function NewsElements(n: NewsFields, fmt: W3CDates.W3CDateFormat): seq<Element> {
    NewsChildren(ListText(n.genres), W3CDates.FormatAsWritten(fmt, n.publicationDate), n.title, ListText(n.keywords))
  }

  /** The extension block handed to the base renderer. */
  function NewsBlock(n: NewsFields, fmt: W3CDates.W3CDateFormat): string {
    "    <news:news>\n"
    + "      <news:publication>\n" + Lines(PublicationElements(n)) + "      </news:publication>\n"
    + Lines(NewsElements(n, fmt))
    + "    </news:news>\n"
  }

  /** The publication sub-block names the publication, then its language. */
  lemma PublicationSpec(n: NewsFields)
    ensures Ordered(PublicationElements(n))
    ensures Values(PublicationElements(n), NameRank) == [n.publicationName]
    ensures Values(PublicationElements(n), LanguageRank) == [n.language]
  {
    var p0 := Optional(NameRank, 8, News("name"), Some(n.publicationName));
    var p1 := Optional(LanguageRank, 8, News("language"), Some(n.language));
    assert PublicationElements(n) == p0 + p1;
    OrderedAppend(p0, p1, LanguageRank);
    ValuesAppend(p0, p1, NameRank);
    ValuesAppend(p0, p1, LanguageRank);
    ValuesOfOptional(NameRank, 8, News("name"), Some(n.publicationName), NameRank);
    ValuesOfOptional(LanguageRank, 8, News("language"), Some(n.language), NameRank);
    ValuesOfOptional(NameRank, 8, News("name"), Some(n.publicationName), LanguageRank);
    ValuesOfOptional(LanguageRank, 8, News("language"), Some(n.language), LanguageRank);
  }

  lemma NewsChildrenOrdered(genres: Option<string>, date: string, title: string, keywords: Option<string>)
    ensures Ordered(NewsChildren(genres, date, title, keywords))
  {
    var p0 := Optional(GenresRank, 6, News("genres"), genres);
    var p1 := [Element(PublicationDateRank, 6, News("publication_date"), "", date)];
    var p2 := [Element(TitleRank, 6, News("title"), "", title)];
    var p3 := Optional(KeywordsRank, 6, News("keywords"), keywords);
    OrderedAppend(p0, p1, PublicationDateRank);
    OrderedAppend(p0 + p1, p2, TitleRank);
    OrderedAppend(p0 + p1 + p2, p3, KeywordsRank);
  }

  lemma NewsChildrenValues(genres: Option<string>, date: string, title: string, keywords: Option<string>, r: nat)
    ensures Values(NewsChildren(genres, date, title, keywords), r) ==
      (if r == GenresRank then Present(genres) else [])
      + (if r == PublicationDateRank then [date] else [])
      + (if r == TitleRank then [title] else [])
      + (if r == KeywordsRank then Present(keywords) else [])
  {
    var p0 := Optional(GenresRank, 6, News("genres"), genres);
    var p1 := [Element(PublicationDateRank, 6, News("publication_date"), "", date)];
    var p2 := [Element(TitleRank, 6, News("title"), "", title)];
    var p3 := Optional(KeywordsRank, 6, News("keywords"), keywords);
    ValuesAppend(p0, p1, r);
    ValuesAppend(p0 + p1, p2, r);
    ValuesAppend(p0 + p1 + p2, p3, r);
    ValuesOfOptional(GenresRank, 6, News("genres"), genres, r);
    ValuesOfOptional(PublicationDateRank, 6, News("publication_date"), Some(date), r);
    ValuesOfOptional(TitleRank, 6, News("title"), Some(title), r);
    ValuesOfOptional(KeywordsRank, 6, News("keywords"), keywords, r);
  }

  /**
   * After the publication sub-block come genres (only when there are any), the publication date
   * as the formatter prints it, the title, and keywords (only when there are any), in that order;
   * the list fields hold their items joined by ", ".
   */
  lemma NewsElementsSpec(n: NewsFields, fmt: W3CDates.W3CDateFormat)
    ensures Ordered(NewsElements(n, fmt))
    ensures Values(NewsElements(n, fmt), GenresRank) == Present(ListText(n.genres))
    ensures Values(NewsElements(n, fmt), PublicationDateRank) == [W3CDates.FormatAsWritten(fmt, n.publicationDate)]
    ensures Values(NewsElements(n, fmt), TitleRank) == [n.title]
    ensures Values(NewsElements(n, fmt), KeywordsRank) == Present(ListText(n.keywords))
  {
    var g, d, t, k := ListText(n.genres), W3CDates.FormatAsWritten(fmt, n.publicationDate), n.title, ListText(n.keywords);
    NewsChildrenOrdered(g, d, t, k);
    NewsChildrenValues(g, d, t, k, GenresRank);
    NewsChildrenValues(g, d, t, k, PublicationDateRank);
    NewsChildrenValues(g, d, t, k, TitleRank);
    NewsChildrenValues(g, d, t, k, KeywordsRank);
  }

  /** Unset genres and keywords leave no element behind, not even an empty one. */
  lemma UnsetListsOmitted(n: NewsFields, fmt: W3CDates.W3CDateFormat)
    requires n.genres == [] && n.keywords == []
    ensures NewsElements(n, fmt) ==
      [Element(PublicationDateRank, 6, News("publication_date"), "", W3CDates.FormatAsWritten(fmt, n.publicationDate)),
       Element(TitleRank, 6, News("title"), "", n.title)]
  {
  }

  /** The keywords of the example record print as one comma-separated list in the given order. */
  lemma ExampleKeywords()
    ensures ListText(["Klaatu", "Barrata", "Nicto"]) == Some("Klaatu, Barrata, Nicto")
  {
    var items := ["Klaatu", "Barrata", "Nicto"];
    assert items[1..] == ["Barrata", "Nicto"];
    assert items[1..][1..] == ["Nicto"];
    assert Join(items[1..], ", ") == "Barrata" + ", " + "Nicto";
    assert Join(items, ", ") == "Klaatu" + ", " + ("Barrata" + ", " + "Nicto");
    assert "Klaatu" + ", " + ("Barrata" + ", " + "Nicto") == "Klaatu, Barrata, Nicto";
  }

  /** The epoch under the second-precision formatter in UTC prints as the news test expects. */
  lemma ExamplePublicationDate(n: NewsFields)
    requires n.publicationDate == W3CDates.Epoch
    ensures Values(NewsElements(n, W3CDates.WithZone(W3CDates.SECOND, W3CDates.UTC)), PublicationDateRank)
      == ["1970-01-01T00:00:00Z"]
  {
    NewsElementsSpec(n, W3CDates.WithZone(W3CDates.SECOND, W3CDates.UTC));
    W3CDates.EpochAsSecond();
  }

  /** Renders a news record: the base block with the news block as its extension. */
  method Render(url: NewsUrl, sb: StringBuilder, fmt: W3CDates.W3CDateFormat)
    modifies sb
    ensures sb.contents == old(sb.contents) + UrlBlock(url.base, fmt, NewsBlock(url.news, fmt))
  {
    RenderBase(url.base, fmt, sb, NewsBlock(url.news, fmt));
  }
}
