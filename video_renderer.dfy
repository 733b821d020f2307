/**
 * The Google video sitemap extension: the `<video:video>` block of one url record and the
 * namespace declaration its documents carry.
 */
module VideoRenderer {
  import opened Wrappers
  import opened Text
  import opened Calendar
  import W3CDates
  import opened SitemapUrls

  const Prefix: string := "video"
  const NamespaceUri: string := "http://www.google.com/schemas/sitemap-video/1.1"

  /**
   * The video part of a record. Values whose Java types are not part of this model (URLs, the
   * rating, the family-friendly and allow-embed flags) are carried as the text they print as.
   */
  datatype VideoFields = VideoFields(
    contentUrl: Option<string>,
    playerUrl: Option<string>,
    allowEmbed: string,
    thumbnailUrl: Option<string>,
    title: Option<string>,
    description: Option<string>,
    rating: Option<string>,
    viewCount: Option<int>,
    publicationDate: Option<Timestamp>,
    tags: Option<seq<string>>,
    category: Option<string>,
    familyFriendly: Option<string>,
    durationInSeconds: Option<int>)

  datatype VideoUrl = VideoUrl(base: BaseFields, video: VideoFields)

  /** The declaration `xmlns:video="<uri>"` added to the urlset root. */
  function XmlNamespaces(): string {
    Declaration(Prefix, NamespaceUri)
  }

  /** The declaration binds the prefix the block's element names carry. */
  lemma XmlNamespacesPrefix()
    ensures DeclaredPrefix(XmlNamespaces()) == Some(Prefix)
  {
    DeclarationPrefix(Prefix, NamespaceUri);
  }

  // Places in the fixed emission order.
  const ContentRank: nat := 0
  const PlayerRank: nat := 1
  const ThumbnailRank: nat := 2
  const TitleRank: nat := 3
  const DescriptionRank: nat := 4
  const RatingRank: nat := 5
  const ViewCountRank: nat := 6
  const PublicationDateRank: nat := 7
  const TagRank: nat := 8
  const CategoryRank: nat := 9
  const FamilyFriendlyRank: nat := 10
  const DurationRank: nat := 11

  /** Every value as the text its line carries. */
  datatype VideoTexts = VideoTexts(
    content: Option<string>,
    player: Option<string>,
    allowEmbed: string,
    thumbnail: Option<string>,
    title: Option<string>,
    description: Option<string>,
    rating: Option<string>,
    viewCount: Option<string>,
    publicationDate: Option<string>,
    tags: seq<string>,
    category: Option<string>,
    familyFriendly: Option<string>,
    duration: Option<string>)

  function IntText(i: Option<int>): (s: Option<string>)
    ensures s.Some? <==> i.Some?
  {
    if i.Some? then Some(IntToString(i.value)) else None
  }

  /** The texts of a record: the publication date through the formatter, a missing tag list as no tags. */
  function TextsOf(v: VideoFields, fmt: W3CDates.W3CDateFormat): VideoTexts {
    VideoTexts(v.contentUrl, v.playerUrl, v.allowEmbed, v.thumbnailUrl, v.title, v.description,
      v.rating, IntText(v.viewCount), FormattedDate(fmt, v.publicationDate), v.tags.GetOr([]),
      v.category, v.familyFriendly, IntText(v.durationInSeconds))
  }

  function Video(name: string): string {
    Qualified(Prefix, name)
  }

  /** player_loc, carrying the allow_embed attribute, when there is a player URL. */
  function PlayerChild(t: VideoTexts): (es: seq<Element>)
    ensures |es| <= 1
  {
    if t.player.Some? then [Element(PlayerRank, 6, Video("player_loc"), " allow_embed=\"" + t.allowEmbed + "\"", t.player.value)]
    else []
  }

  /** One tag element per tag, in order. */
  function TagChildren(tags: seq<string>): seq<Element>
  {
    seq(|tags|, i requires 0 <= i < |tags| => Element(TagRank, 6, Video("tag"), "", tags[i]))
  }

  /** content_loc to title. */
  function GroupA(t: VideoTexts): seq<Element> {
    Optional(ContentRank, 6, Video("content_loc"), t.content)
    + PlayerChild(t)
    + Optional(ThumbnailRank, 6, Video("thumbnail_loc"), t.thumbnail)
    + Optional(TitleRank, 6, Video("title"), t.title)
  }

  /** description to publication_date. */
  function GroupB(t: VideoTexts): seq<Element> {
    Optional(DescriptionRank, 6, Video("description"), t.description)
    + Optional(RatingRank, 6, Video("rating"), t.rating)
    + Optional(ViewCountRank, 6, Video("view_count"), t.viewCount)
    + Optional(PublicationDateRank, 6, Video("publication_date"), t.publicationDate)
  }

  /** The children after the tags. */
  function TailChildren(t: VideoTexts): seq<Element> {
    Optional(CategoryRank, 6, Video("category"), t.category)
    + Optional(FamilyFriendlyRank, 6, Video("family_friendly"), t.familyFriendly)
    + Optional(DurationRank, 6, Video("duration"), t.duration)
  }

  function Children(t: VideoTexts): seq<Element> {
    GroupA(t) + GroupB(t) + TagChildren(t.tags) + TailChildren(t)
  }

  /** The children of `<video:video>` for a record, in emission order. */
  function VideoElements(v: VideoFields, fmt: W3CDates.W3CDateFormat): seq<Element> {
    Children(TextsOf(v, fmt))
  }

  /** The block for given texts. */
  function TextBlock(t: VideoTexts): string {
    "    <video:video>\n" + Lines(Children(t)) + "    </video:video>\n"
  }

  /** The extension block handed to the base renderer. */
  function VideoBlock(v: VideoFields, fmt: W3CDates.W3CDateFormat): string {
    TextBlock(TextsOf(v, fmt))
  }

  /** The values each rank holds: the field's text, once, when set; all tags for the tag rank. */
  function FieldValues(t: VideoTexts, r: nat): seq<string> {
    if r == ContentRank then Present(t.content)
    else if r == PlayerRank then Present(t.player)
    else if r == ThumbnailRank then Present(t.thumbnail)
    else if r == TitleRank then Present(t.title)
    else if r == DescriptionRank then Present(t.description)
    else if r == RatingRank then Present(t.rating)
    else if r == ViewCountRank then Present(t.viewCount)
    else if r == PublicationDateRank then Present(t.publicationDate)
    else if r == TagRank then t.tags
    else if r == CategoryRank then Present(t.category)
    else if r == FamilyFriendlyRank then Present(t.familyFriendly)
    else if r == DurationRank then Present(t.duration)
    else []
  }

  // ---------------------------------------------------------------- order and presence

  predicate OfRank(es: seq<Element>, r: nat) {
    forall i :: 0 <= i < |es| ==> es[i].rank == r
  }

  /** Appending elements of a rank no lower than any before keeps the list ordered. */
  lemma Extend(a: seq<Element>, b: seq<Element>, q: nat, r: nat)
    requires Ordered(a) && RanksAtMost(a, q) && q <= r && OfRank(b, r)
    ensures Ordered(a + b) && RanksAtMost(a + b, r)
  {
  }

  lemma GroupAOrdered(t: VideoTexts)
    ensures Ordered(GroupA(t)) && RanksAtMost(GroupA(t), TitleRank)
  {
    var p0 := Optional(ContentRank, 6, Video("content_loc"), t.content);
    var p1 := PlayerChild(t);
    var p2 := Optional(ThumbnailRank, 6, Video("thumbnail_loc"), t.thumbnail);
    var p3 := Optional(TitleRank, 6, Video("title"), t.title);
    Extend(p0, p1, ContentRank, PlayerRank);
    Extend(p0 + p1, p2, PlayerRank, ThumbnailRank);
    Extend(p0 + p1 + p2, p3, ThumbnailRank, TitleRank);
  }

  lemma GroupBOrdered(t: VideoTexts, a: seq<Element>)
    requires Ordered(a) && RanksAtMost(a, TitleRank)
    ensures Ordered(a + GroupB(t)) && RanksAtMost(a + GroupB(t), PublicationDateRank)
  {
    var p0 := Optional(DescriptionRank, 6, Video("description"), t.description);
    var p1 := Optional(RatingRank, 6, Video("rating"), t.rating);
    var p2 := Optional(ViewCountRank, 6, Video("view_count"), t.viewCount);
    var p3 := Optional(PublicationDateRank, 6, Video("publication_date"), t.publicationDate);
    Extend(a, p0, TitleRank, DescriptionRank);
    Extend(a + p0, p1, DescriptionRank, RatingRank);
    Extend(a + p0 + p1, p2, RatingRank, ViewCountRank);
    Extend(a + p0 + p1 + p2, p3, ViewCountRank, PublicationDateRank);
    assert a + p0 + p1 + p2 + p3 == a + GroupB(t);
  }

  lemma TailOrdered(t: VideoTexts, a: seq<Element>)
    requires Ordered(a) && RanksAtMost(a, TagRank)
    ensures Ordered(a + TailChildren(t))
  {
    var p0 := Optional(CategoryRank, 6, Video("category"), t.category);
    var p1 := Optional(FamilyFriendlyRank, 6, Video("family_friendly"), t.familyFriendly);
    var p2 := Optional(DurationRank, 6, Video("duration"), t.duration);
    Extend(a, p0, TagRank, CategoryRank);
    Extend(a + p0, p1, CategoryRank, FamilyFriendlyRank);
    Extend(a + p0 + p1, p2, FamilyFriendlyRank, DurationRank);
    assert a + p0 + p1 + p2 == a + TailChildren(t);
  }

  /**
   * The children follow the fixed order content_loc, player_loc, thumbnail_loc, title,
   * description, rating, view_count, publication_date, tag*, category, family_friendly, duration.
   */
  lemma ChildrenOrdered(t: VideoTexts)
    ensures Ordered(Children(t))
  {
    GroupAOrdered(t);
    GroupBOrdered(t, GroupA(t));
    Extend(GroupA(t) + GroupB(t), TagChildren(t.tags), PublicationDateRank, TagRank);
    TailOrdered(t, GroupA(t) + GroupB(t) + TagChildren(t.tags));
  }

  lemma PlayerValues(t: VideoTexts, r: nat)
    ensures Values(PlayerChild(t), r) == if r == PlayerRank then Present(t.player) else []
  {
    if t.player.Some? {
      assert PlayerChild(t)[..0] == [];
    }
  }

  lemma GroupAValues(t: VideoTexts, r: nat)
    ensures Values(GroupA(t), r) == if r <= TitleRank then FieldValues(t, r) else []
  {
    var p0 := Optional(ContentRank, 6, Video("content_loc"), t.content);
    var p1 := PlayerChild(t);
    var p2 := Optional(ThumbnailRank, 6, Video("thumbnail_loc"), t.thumbnail);
    var p3 := Optional(TitleRank, 6, Video("title"), t.title);
    ValuesAppend(p0, p1, r);
    ValuesAppend(p0 + p1, p2, r);
    ValuesAppend(p0 + p1 + p2, p3, r);
    ValuesOfOptional(ContentRank, 6, Video("content_loc"), t.content, r);
    PlayerValues(t, r);
    ValuesOfOptional(ThumbnailRank, 6, Video("thumbnail_loc"), t.thumbnail, r);
    ValuesOfOptional(TitleRank, 6, Video("title"), t.title, r);
  }

  lemma GroupBValues(t: VideoTexts, r: nat)
    ensures Values(GroupB(t), r) == if TitleRank < r <= PublicationDateRank then FieldValues(t, r) else []
  {
    var p0 := Optional(DescriptionRank, 6, Video("description"), t.description);
    var p1 := Optional(RatingRank, 6, Video("rating"), t.rating);
    var p2 := Optional(ViewCountRank, 6, Video("view_count"), t.viewCount);
    var p3 := Optional(PublicationDateRank, 6, Video("publication_date"), t.publicationDate);
    ValuesAppend(p0, p1, r);
    ValuesAppend(p0 + p1, p2, r);
    ValuesAppend(p0 + p1 + p2, p3, r);
    ValuesOfOptional(DescriptionRank, 6, Video("description"), t.description, r);
    ValuesOfOptional(RatingRank, 6, Video("rating"), t.rating, r);
    ValuesOfOptional(ViewCountRank, 6, Video("view_count"), t.viewCount, r);
    ValuesOfOptional(PublicationDateRank, 6, Video("publication_date"), t.publicationDate, r);
  }

  lemma {:induction false} TagValues(tags: seq<string>, r: nat)
    ensures Values(TagChildren(tags), r) == if r == TagRank then tags else []
    decreases |tags|
  {
    if tags != [] {
      var front := tags[..|tags| - 1];
      assert TagChildren(tags)[..|tags| - 1] == TagChildren(front);
      TagValues(front, r);
      assert tags == front + [tags[|tags| - 1]];
    }
  }

  lemma TailValues(t: VideoTexts, r: nat)
    ensures Values(TailChildren(t), r) == if TagRank < r then FieldValues(t, r) else []
  {
    var p0 := Optional(CategoryRank, 6, Video("category"), t.category);
    var p1 := Optional(FamilyFriendlyRank, 6, Video("family_friendly"), t.familyFriendly);
    var p2 := Optional(DurationRank, 6, Video("duration"), t.duration);
    ValuesAppend(p0, p1, r);
    ValuesAppend(p0 + p1, p2, r);
    ValuesOfOptional(CategoryRank, 6, Video("category"), t.category, r);
    ValuesOfOptional(FamilyFriendlyRank, 6, Video("family_friendly"), t.familyFriendly, r);
    ValuesOfOptional(DurationRank, 6, Video("duration"), t.duration, r);
  }

  /** The values of one rank, group by group. */
  lemma ChildrenValues(t: VideoTexts, r: nat)
    ensures Values(Children(t), r) ==
      Values(GroupA(t), r) + Values(GroupB(t), r) + Values(TagChildren(t.tags), r) + Values(TailChildren(t), r)
  {
    ValuesAppend(GroupA(t), GroupB(t), r);
    ValuesAppend(GroupA(t) + GroupB(t), TagChildren(t.tags), r);
    ValuesAppend(GroupA(t) + GroupB(t) + TagChildren(t.tags), TailChildren(t), r);
  }

  // The values of a rank come from the one group that holds it.

  lemma FromGroupA(t: VideoTexts, r: nat)
    requires r <= TitleRank
    ensures Values(Children(t), r) == Values(GroupA(t), r)
  {
    ChildrenValues(t, r);
    GroupBValues(t, r);
    TagValues(t.tags, r);
    TailValues(t, r);
  }

  lemma FromGroupB(t: VideoTexts, r: nat)
    requires TitleRank < r <= PublicationDateRank
    ensures Values(Children(t), r) == Values(GroupB(t), r)
  {
    ChildrenValues(t, r);
    GroupAValues(t, r);
    TagValues(t.tags, r);
    TailValues(t, r);
  }

  lemma FromTags(t: VideoTexts)
    ensures Values(Children(t), TagRank) == Values(TagChildren(t.tags), TagRank)
  {
    ChildrenValues(t, TagRank);
    GroupAValues(t, TagRank);
    GroupBValues(t, TagRank);
    TailValues(t, TagRank);
  }

  lemma FromTail(t: VideoTexts, r: nat)
    requires TagRank < r
    ensures Values(Children(t), r) == Values(TailChildren(t), r)
  {
    ChildrenValues(t, r);
    GroupAValues(t, r);
    GroupBValues(t, r);
    TagValues(t.tags, r);
  }

  /** Each rank holds the values FieldValues assigns it. */
  lemma RankValues(t: VideoTexts, r: nat)
    ensures Values(Children(t), r) == FieldValues(t, r)
  {
    if r <= TitleRank {
      FromGroupA(t, r);
      GroupAValues(t, r);
    } else if r <= PublicationDateRank {
      FromGroupB(t, r);
      GroupBValues(t, r);
    } else if r == TagRank {
      FromTags(t);
      TagValues(t.tags, r);
    } else {
      FromTail(t, r);
      TailValues(t, r);
    }
  }

  /**
   * The video children of a record come in the fixed order content_loc, player_loc,
   * thumbnail_loc, title, description, rating, view_count, publication_date, tag*, category,
   * family_friendly, duration.
   */
  lemma VideoElementsOrdered(v: VideoFields, fmt: W3CDates.W3CDateFormat)
    ensures Ordered(VideoElements(v, fmt))
  {
    ChildrenOrdered(TextsOf(v, fmt));
  }

  /** Every optional child appears exactly when its field is set, holding the field's text. */
  lemma VideoElementValues(v: VideoFields, fmt: W3CDates.W3CDateFormat, r: nat)
    ensures Values(VideoElements(v, fmt), r) == FieldValues(TextsOf(v, fmt), r)
  {
    RankValues(TextsOf(v, fmt), r);
  }

  /** player_loc appears exactly when the player URL is set, and holds it verbatim. */
  lemma PlayerLocation(v: VideoFields, fmt: W3CDates.W3CDateFormat)
    ensures Values(VideoElements(v, fmt), PlayerRank) == Present(v.playerUrl)
  {
    RankValues(TextsOf(v, fmt), PlayerRank);
  }

  /** publication_date appears exactly when a date is set, holding the formatter's text of it. */
  lemma PublicationDate(v: VideoFields, fmt: W3CDates.W3CDateFormat)
    ensures Values(VideoElements(v, fmt), PublicationDateRank) == Present(FormattedDate(fmt, v.publicationDate))
  {
    RankValues(TextsOf(v, fmt), PublicationDateRank);
  }

  /** One tag element per tag, in list order; none for a missing list. */
  lemma Tags(v: VideoFields, fmt: W3CDates.W3CDateFormat)
    ensures Values(VideoElements(v, fmt), TagRank) == v.tags.GetOr([])
  {
    RankValues(TextsOf(v, fmt), TagRank);
  }

  /** The player_loc element for an allow-embed flag and a player URL. */
  function PlayerElement(allowEmbed: string, url: string): Element {
    Element(PlayerRank, 6, Video("player_loc"), " allow_embed=\"" + allowEmbed + "\"", url)
  }

  /** Every element of the player rank, if any, is the player_loc element of the record's URL. */
  predicate PlayerOnly(es: seq<Element>, t: VideoTexts) {
    forall i :: 0 <= i < |es| && es[i].rank == PlayerRank ==>
      t.player.Some? && es[i] == PlayerElement(t.allowEmbed, t.player.value)
  }

  lemma PlayerOnlyAppend(a: seq<Element>, b: seq<Element>, t: VideoTexts)
    requires PlayerOnly(a, t) && PlayerOnly(b, t)
    ensures PlayerOnly(a + b, t)
  {
    forall i | 0 <= i < |a + b| && (a + b)[i].rank == PlayerRank
      ensures t.player.Some? && (a + b)[i] == PlayerElement(t.allowEmbed, t.player.value)
    {
      if i >= |a| {
        assert (a + b)[i] == b[i - |a|];
      }
    }
  }

  /**
   * player_loc carries the allow_embed attribute with the flag's text and holds the player URL
   * verbatim; no other child has its rank.
   */
  lemma PlayerAttribute(v: VideoFields, fmt: W3CDates.W3CDateFormat)
    ensures forall i :: 0 <= i < |VideoElements(v, fmt)| && VideoElements(v, fmt)[i].rank == PlayerRank ==>
      v.playerUrl.Some? && VideoElements(v, fmt)[i] == PlayerElement(v.allowEmbed, v.playerUrl.value)
  {
    var t := TextsOf(v, fmt);
    GroupAPlayerOnly(t);
    GroupBPlayerOnly(t);
    TagsPlayerOnly(t);
    TailPlayerOnly(t);
    PlayerOnlyAppend(GroupA(t), GroupB(t), t);
    PlayerOnlyAppend(GroupA(t) + GroupB(t), TagChildren(t.tags), t);
    PlayerOnlyAppend(GroupA(t) + GroupB(t) + TagChildren(t.tags), TailChildren(t), t);
  }

  lemma GroupAPlayerOnly(t: VideoTexts)
    ensures PlayerOnly(GroupA(t), t)
  {
    var p0 := Optional(ContentRank, 6, Video("content_loc"), t.content);
    var p2 := Optional(ThumbnailRank, 6, Video("thumbnail_loc"), t.thumbnail);
    var p3 := Optional(TitleRank, 6, Video("title"), t.title);
    PlayerOnlyAppend(p0, PlayerChild(t), t);
    PlayerOnlyAppend(p0 + PlayerChild(t), p2, t);
    PlayerOnlyAppend(p0 + PlayerChild(t) + p2, p3, t);
  }

  lemma GroupBPlayerOnly(t: VideoTexts)
    ensures PlayerOnly(GroupB(t), t)
  {
    var q0 := Optional(DescriptionRank, 6, Video("description"), t.description);
    var q1 := Optional(RatingRank, 6, Video("rating"), t.rating);
    var q2 := Optional(ViewCountRank, 6, Video("view_count"), t.viewCount);
    var q3 := Optional(PublicationDateRank, 6, Video("publication_date"), t.publicationDate);
    PlayerOnlyAppend(q0, q1, t);
    PlayerOnlyAppend(q0 + q1, q2, t);
    PlayerOnlyAppend(q0 + q1 + q2, q3, t);
  }

  lemma TagsPlayerOnly(t: VideoTexts)
    ensures PlayerOnly(TagChildren(t.tags), t)
  {
    var es := TagChildren(t.tags);
    forall i | 0 <= i < |es|
      ensures es[i].rank == TagRank
    {
    }
  }

  lemma TailPlayerOnly(t: VideoTexts)
    ensures PlayerOnly(TailChildren(t), t)
  {
    var r0 := Optional(CategoryRank, 6, Video("category"), t.category);
    var r1 := Optional(FamilyFriendlyRank, 6, Video("family_friendly"), t.familyFriendly);
    var r2 := Optional(DurationRank, 6, Video("duration"), t.duration);
    PlayerOnlyAppend(r0, r1, t);
    PlayerOnlyAppend(r0 + r1, r2, t);
  }

  /** The player_loc line: the attribute inside the opening tag, the URL appended verbatim. */
  lemma PlayerLine(allowEmbed: string, url: string)
    ensures Line(PlayerElement(allowEmbed, url)) ==
      "      <" + Video("player_loc") + " allow_embed=\"" + allowEmbed + "\">" + url + "</" + Video("player_loc") + ">\n"
  {
    var n := Video("player_loc");
    var open := " allow_embed=\"" + allowEmbed + "\"";
    assert Spaces(6) + "<" == "      <";
    assert open + ">" == " allow_embed=\"" + allowEmbed + "\">";
    AppendAssoc("      <" + n, open, ">");
  }

  // ---------------------------------------------------------------- the renderer

  /** Appends content_loc to title. */
  method RenderGroupA(t: VideoTexts, sb: StringBuilder)
    modifies sb
    ensures sb.contents == old(sb.contents) + Lines(GroupA(t))
  {
    ghost var s0 := sb.contents;
    var p0 := Optional(ContentRank, 6, Video("content_loc"), t.content);
    var p1 := PlayerChild(t);
    var p2 := Optional(ThumbnailRank, 6, Video("thumbnail_loc"), t.thumbnail);
    var p3 := Optional(TitleRank, 6, Video("title"), t.title);
    RenderTag(sb, ContentRank, 6, Video("content_loc"), t.content);
    RenderOptional(sb, p1);
    Step(s0, p0, p1);
    RenderTag(sb, ThumbnailRank, 6, Video("thumbnail_loc"), t.thumbnail);
    Step(s0, p0 + p1, p2);
    RenderTag(sb, TitleRank, 6, Video("title"), t.title);
    Step(s0, p0 + p1 + p2, p3);
  }

  /** Appends description to publication_date. */
  method RenderGroupB(t: VideoTexts, sb: StringBuilder)
    modifies sb
    ensures sb.contents == old(sb.contents) + Lines(GroupB(t))
  {
    ghost var s0 := sb.contents;
    var p0 := Optional(DescriptionRank, 6, Video("description"), t.description);
    var p1 := Optional(RatingRank, 6, Video("rating"), t.rating);
    var p2 := Optional(ViewCountRank, 6, Video("view_count"), t.viewCount);
    var p3 := Optional(PublicationDateRank, 6, Video("publication_date"), t.publicationDate);
    RenderTag(sb, DescriptionRank, 6, Video("description"), t.description);
    RenderTag(sb, RatingRank, 6, Video("rating"), t.rating);
    Step(s0, p0, p1);
    RenderTag(sb, ViewCountRank, 6, Video("view_count"), t.viewCount);
    Step(s0, p0 + p1, p2);
    RenderTag(sb, PublicationDateRank, 6, Video("publication_date"), t.publicationDate);
    Step(s0, p0 + p1 + p2, p3);
  }

  /** What has been appended so far, extended by one more group of lines. */
  lemma Step(s0: string, done: seq<Element>, next: seq<Element>)
    ensures s0 + Lines(done) + Lines(next) == s0 + Lines(done + next)
  {
    LinesAppend(done, next);
    AppendAssoc(s0, Lines(done), Lines(next));
  }

  /** Appends one tag line per tag, in list order. */
  method RenderTags(tags: seq<string>, sb: StringBuilder)
    modifies sb
    ensures sb.contents == old(sb.contents) + Lines(TagChildren(tags))
  {
    ghost var s0 := sb.contents;
    var i := 0;
    assert TagChildren(tags[..0]) == [];
    while i < |tags|
      invariant 0 <= i <= |tags|
      invariant sb.contents == s0 + Lines(TagChildren(tags[..i]))
    {
      RenderTag(sb, TagRank, 6, Video("tag"), Some(tags[i]));
      assert TagChildren(tags[..i + 1]) == TagChildren(tags[..i]) + Optional(TagRank, 6, Video("tag"), Some(tags[i]));
      Step(s0, TagChildren(tags[..i]), Optional(TagRank, 6, Video("tag"), Some(tags[i])));
      i := i + 1;
    }
    assert tags[..i] == tags;
  }

  /** Appends the children after the tags. */
  method RenderTail(t: VideoTexts, sb: StringBuilder)
    modifies sb
    ensures sb.contents == old(sb.contents) + Lines(TailChildren(t))
  {
    ghost var s0 := sb.contents;
    var p0 := Optional(CategoryRank, 6, Video("category"), t.category);
    var p1 := Optional(FamilyFriendlyRank, 6, Video("family_friendly"), t.familyFriendly);
    var p2 := Optional(DurationRank, 6, Video("duration"), t.duration);
    RenderTag(sb, CategoryRank, 6, Video("category"), t.category);
    RenderTag(sb, FamilyFriendlyRank, 6, Video("family_friendly"), t.familyFriendly);
    Step(s0, p0, p1);
    RenderTag(sb, DurationRank, 6, Video("duration"), t.duration);
    Step(s0, p0 + p1, p2);
  }

  /** Appends the children of `<video:video>` in their fixed order. */
  method RenderChildren(t: VideoTexts, sb: StringBuilder)
    modifies sb
    ensures sb.contents == old(sb.contents) + Lines(Children(t))
  {
    ghost var s0 := sb.contents;
    RenderGroupA(t, sb);
    RenderGroupB(t, sb);
    Step(s0, GroupA(t), GroupB(t));
    RenderTags(t.tags, sb);
    Step(s0, GroupA(t) + GroupB(t), TagChildren(t.tags));
    RenderTail(t, sb);
    Step(s0, GroupA(t) + GroupB(t) + TagChildren(t.tags), TailChildren(t));
  }

  /** Builds the `<video:video>` block in a buffer of its own. */
  method BuildBlock(t: VideoTexts) returns (block: string)
    ensures block == TextBlock(t)
  {
    var tagSb := new StringBuilder();
    tagSb.Append("    <video:video>\n");
    assert tagSb.contents == "    <video:video>\n";
    RenderChildren(t, tagSb);
    tagSb.Append("    </video:video>\n");
    block := tagSb.contents;
  }

  /**
   * Renders a video record: the video block is built in a buffer of its own and handed to the
   * base renderer, which appends the whole `<url>` block to the caller's buffer.
   */
  method Render(url: VideoUrl, sb: StringBuilder, fmt: W3CDates.W3CDateFormat)
    modifies sb
    ensures sb.contents == old(sb.contents) + UrlBlock(url.base, fmt, VideoBlock(url.video, fmt))
  {
    var block := BuildBlock(TextsOf(url.video, fmt));
    RenderBase(url.base, fmt, sb, block);
  }
}
