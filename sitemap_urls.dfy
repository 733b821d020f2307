/**
 * The pieces every sitemap renderer shares: the base url record (loc, lastmod, changefreq,
 * priority), one-line child elements, the `<url>` block that wraps a variant's extension text,
 * and the string builder the renderers append to.
 */
module SitemapUrls {
  import opened Wrappers
  import opened Text
  import opened Calendar
  import W3CDates

  /** An absolute URL: the text it prints as, and its host (host extraction itself is not modelled). */
  datatype Url = Url(text: string, host: string)

  /** The sitemaps.org change frequencies. */
  datatype ChangeFreq = Always | Hourly | Daily | Weekly | Monthly | Yearly | Never

  /** The enum constant's name in lower case, as the protocol spells it. */
  function ChangeFreqText(c: ChangeFreq): string {
    match c
    case Always => "always"
    case Hourly => "hourly"
    case Daily => "daily"
    case Weekly => "weekly"
    case Monthly => "monthly"
    case Yearly => "yearly"
    case Never => "never"
  }

  /** Distinct frequencies print distinctly, so a reader can tell them apart. */
  lemma ChangeFreqTextInjective(a: ChangeFreq, b: ChangeFreq)
    ensures ChangeFreqText(a) == ChangeFreqText(b) <==> a == b
  {
  }

  /** A priority between 0.0 and 1.0 in tenths: the values a one-decimal rendering can show. */
  type Tenths = t: nat | t <= 10

  /** One decimal place, as Java's "%.1f" prints a value of this form. */
  function PriorityText(p: Tenths): (s: string)
    ensures |s| == 3 && s[1] == '.' && IsDigit(s[0]) && IsDigit(s[2])
    ensures DigitValue(s[0]) * 10 + DigitValue(s[2]) == p
  {
    [DigitChar(p / 10), '.', DigitChar(p % 10)]
  }

  /** The fields every url record carries. */
  datatype BaseFields = BaseFields(
    loc: Url,
    lastMod: Option<Timestamp>,
    changeFreq: Option<ChangeFreq>,
    priority: Option<Tenths>)

  /** A record holding only a location. */
  function LocationOnly(loc: Url): BaseFields {
    BaseFields(loc, None, None, None)
  }

  // ---------------------------------------------------------------- child elements

  /**
   * A child element on a line of its own: `indent` spaces, the opening tag with any attribute
   * text, the value copied verbatim, the closing tag and a newline. `rank` is the element's
   * place in its parent's fixed emission order.
   */
  datatype Element = Element(rank: nat, indent: nat, name: string, attributes: string, value: string)

  function Spaces(n: nat): (s: string)
    ensures |s| == n && forall i :: 0 <= i < n ==> s[i] == ' '
  {
    if n == 0 then "" else Spaces(n - 1) + " "
  }

  /** The qualified tag name `prefix:name`. */
  function Qualified(prefix: string, name: string): string {
    prefix + ":" + name
  }

  /** The namespace declaration `xmlns:prefix="uri"` an extension adds to the document root. */
  function Declaration(prefix: string, uri: string): string {
    "xmlns:" + prefix + "=\"" + uri + "\""
  }

  /** The text of s before its first c (all of s when there is none). */
  function Before(s: string, c: char): (r: string)
    ensures |r| <= |s| && r == s[..|r|] && c !in r
    decreases |s|
  {
    if s == [] || s[0] == c then "" else [s[0]] + Before(s[1..], c)
  }

  /** The prefix a declaration binds, read back from its text. */
  function DeclaredPrefix(s: string): Option<string> {
    if |s| >= 6 && s[..6] == "xmlns:" then Some(Before(s[6..], '=')) else None
  }

  lemma {:induction false} BeforeStop(p: string, rest: string, c: char)
    requires c !in p && |rest| > 0 && rest[0] == c
    ensures Before(p + rest, c) == p
    decreases |p|
  {
    if p != [] {
      assert (p + rest)[1..] == p[1..] + rest;
      BeforeStop(p[1..], rest, c);
    } else {
      assert p + rest == rest;
    }
  }

  /** A prefix without `=` is read back from its declaration unchanged. */
  lemma DeclarationPrefix(prefix: string, uri: string)
    requires '=' !in prefix
    ensures DeclaredPrefix(Declaration(prefix, uri)) == Some(prefix)
  {
    var s := Declaration(prefix, uri);
    var rest := "=\"" + uri + "\"";
    assert s == "xmlns:" + (prefix + rest);
    assert s[..6] == "xmlns:";
    assert s[6..] == prefix + rest;
    BeforeStop(prefix, rest, '=');
  }

  function Line(e: Element): string {
    Spaces(e.indent) + "<" + e.name + e.attributes + ">" + e.value + "</" + e.name + ">\n"
  }

  /** The parts one after another. */
  function Concat(parts: seq<string>): string
    decreases |parts|
  {
    if parts == [] then "" else Concat(parts[..|parts| - 1]) + parts[|parts| - 1]
  }

  /** The line of each element, in order. */
  function LineTexts(es: seq<Element>): seq<string>
  {
    seq(|es|, i requires 0 <= i < |es| => Line(es[i]))
  }

  /** The lines of the elements, in order. */
  function Lines(es: seq<Element>): string {
    Concat(LineTexts(es))
  }

  /** An element present exactly when its value is. */
  function Optional(rank: nat, indent: nat, name: string, value: Option<string>): (es: seq<Element>)
    ensures |es| <= 1
  {
    if value.Some? then [Element(rank, indent, name, "", value.value)] else []
  }

  /** The values of the elements of one rank, in order. */
  function Values(es: seq<Element>, rank: nat): seq<string>
    decreases |es|
  {
    if es == [] then []
    else Values(es[..|es| - 1], rank) + (if es[|es| - 1].rank == rank then [es[|es| - 1].value] else [])
  }

  /** The value of an optional field as a sequence: empty when unset. */
  function Present<T>(o: Option<T>): (s: seq<T>)
    ensures |s| <= 1 && (|s| == 1 <==> o.Some?)
  {
    if o.Some? then [o.value] else []
  }

  predicate Ordered(es: seq<Element>) {
    forall i, j :: 0 <= i < j < |es| ==> es[i].rank <= es[j].rank
  }

  predicate RanksAtMost(es: seq<Element>, r: nat) {
    forall i :: 0 <= i < |es| ==> es[i].rank <= r
  }

  predicate RanksAtLeast(es: seq<Element>, r: nat) {
    forall i :: 0 <= i < |es| ==> r <= es[i].rank
  }

  /** A single element renders as its own line. */
  lemma LinesSingle(e: Element)
    ensures Lines([e]) == Line(e)
  {
    var ts := LineTexts([e]);
    assert ts == [Line(e)];
    assert ts[..0] == [];
    assert Concat(ts) == Concat([]) + Line(e);
  }

  /** Concatenating two sequences of parts concatenates their texts. */
  lemma {:induction false} ConcatAppend(a: seq<string>, b: seq<string>)
    ensures Concat(a + b) == Concat(a) + Concat(b)
    decreases |b|
  {
    if b == [] {
      assert a + b == a;
    } else {
      var front := b[..|b| - 1];
      var ab := a + b;
      assert ab[..|ab| - 1] == a + front;
      ConcatAppend(a, front);
    }
  }

  /** Rendering a concatenation renders each part in turn. */
  lemma LinesAppend(a: seq<Element>, b: seq<Element>)
    ensures Lines(a + b) == Lines(a) + Lines(b)
  {
    assert LineTexts(a + b) == LineTexts(a) + LineTexts(b);
    ConcatAppend(LineTexts(a), LineTexts(b));
  }

  /** Selecting one rank commutes with concatenation. */
  lemma {:induction false} ValuesAppend(a: seq<Element>, b: seq<Element>, rank: nat)
    ensures Values(a + b, rank) == Values(a, rank) + Values(b, rank)
    decreases |b|
  {
    if b == [] {
      assert a + b == a;
    } else {
      var front := b[..|b| - 1];
      assert (a + b)[..|a + b| - 1] == a + front;
      ValuesAppend(a, front, rank);
    }
  }

  lemma OrderedAppend(a: seq<Element>, b: seq<Element>, r: nat)
    requires Ordered(a) && Ordered(b) && RanksAtMost(a, r) && RanksAtLeast(b, r)
    ensures Ordered(a + b)
  {
  }

  /** An element list of a single rank holds that rank's values and nothing of any other. */
  lemma ValuesOfOptional(rank: nat, indent: nat, name: string, value: Option<string>, other: nat)
    ensures Values(Optional(rank, indent, name, value), other) == if other == rank then Present(value) else []
  {
    if value.Some? {
      assert Optional(rank, indent, name, value)[..0] == [];
    }
  }

  // ---------------------------------------------------------------- the base url block

  const LocRank: nat := 0
  const LastModRank: nat := 1
  const ChangeFreqRank: nat := 2
  const PriorityRank: nat := 3

  /** The date's text under the generator's formatter, when there is a date. */
  function FormattedDate(fmt: W3CDates.W3CDateFormat, d: Option<Timestamp>): (s: Option<string>)
    ensures s.Some? <==> d.Some?
  {
    if d.Some? then Some(W3CDates.FormatAsWritten(fmt, d.value)) else None
  }

  function FreqText(c: Option<ChangeFreq>): (s: Option<string>)
    ensures s.Some? <==> c.Some?
  {
    if c.Some? then Some(ChangeFreqText(c.value)) else None
  }

  function PriorityOf(p: Option<Tenths>): (s: Option<string>)
    ensures s.Some? <==> p.Some?
  {
    if p.Some? then Some(PriorityText(p.value)) else None
  }

  /** The base children for given field texts. */
  function BaseChildren(loc: string, lastMod: Option<string>, changeFreq: Option<string>, priority: Option<string>): seq<Element> {
    [Element(LocRank, 4, "loc", "", loc)]
    + Optional(LastModRank, 4, "lastmod", lastMod)
    + Optional(ChangeFreqRank, 4, "changefreq", changeFreq)
    + Optional(PriorityRank, 4, "priority", priority)
  }

  /** The base children of `<url>`: loc, then lastmod, changefreq and priority when set. */
  function BaseElements(b: BaseFields, fmt: W3CDates.W3CDateFormat): seq<Element> {
    BaseChildren(b.loc.text, FormattedDate(fmt, b.lastMod), FreqText(b.changeFreq), PriorityOf(b.priority))
  }

  lemma BaseChildrenOrdered(loc: string, lastMod: Option<string>, changeFreq: Option<string>, priority: Option<string>)
    ensures Ordered(BaseChildren(loc, lastMod, changeFreq, priority))
  {
    var p0: seq<Element> := [Element(LocRank, 4, "loc", "", loc)];
    var p1 := Optional(LastModRank, 4, "lastmod", lastMod);
    var p2 := Optional(ChangeFreqRank, 4, "changefreq", changeFreq);
    var p3 := Optional(PriorityRank, 4, "priority", priority);
    OrderedAppend(p0, p1, LastModRank);
    OrderedAppend(p0 + p1, p2, ChangeFreqRank);
    OrderedAppend(p0 + p1 + p2, p3, PriorityRank);
  }

  lemma BaseChildrenValues(loc: string, lastMod: Option<string>, changeFreq: Option<string>, priority: Option<string>, r: nat)
    ensures Values(BaseChildren(loc, lastMod, changeFreq, priority), r) ==
      (if r == LocRank then [loc] else []) + (if r == LastModRank then Present(lastMod) else [])
      + (if r == ChangeFreqRank then Present(changeFreq) else []) + (if r == PriorityRank then Present(priority) else [])
  {
    var p0 := Optional(LocRank, 4, "loc", Some(loc));
    var p1 := Optional(LastModRank, 4, "lastmod", lastMod);
    var p2 := Optional(ChangeFreqRank, 4, "changefreq", changeFreq);
    var p3 := Optional(PriorityRank, 4, "priority", priority);
    assert BaseChildren(loc, lastMod, changeFreq, priority) == p0 + p1 + p2 + p3;
    ValuesAppend(p0, p1, r);
    ValuesAppend(p0 + p1, p2, r);
    ValuesAppend(p0 + p1 + p2, p3, r);
    ValuesOfOptional(LocRank, 4, "loc", Some(loc), r);
    ValuesOfOptional(LastModRank, 4, "lastmod", lastMod, r);
    ValuesOfOptional(ChangeFreqRank, 4, "changefreq", changeFreq, r);
    ValuesOfOptional(PriorityRank, 4, "priority", priority, r);
  }

  /**
   * The base children come in the order loc, lastmod, changefreq, priority; loc always appears,
   * and each other child appears exactly once when its field is set and not at all otherwise,
   * holding the field's text.
   */
  lemma BaseElementsSpec(b: BaseFields, fmt: W3CDates.W3CDateFormat)
    ensures Ordered(BaseElements(b, fmt))
    ensures Values(BaseElements(b, fmt), LocRank) == [b.loc.text]
    ensures Values(BaseElements(b, fmt), LastModRank) == Present(FormattedDate(fmt, b.lastMod))
    ensures Values(BaseElements(b, fmt), ChangeFreqRank) == Present(FreqText(b.changeFreq))
    ensures Values(BaseElements(b, fmt), PriorityRank) == Present(PriorityOf(b.priority))
  {
    var loc, lastMod, changeFreq, priority := b.loc.text, FormattedDate(fmt, b.lastMod), FreqText(b.changeFreq), PriorityOf(b.priority);
    BaseChildrenOrdered(loc, lastMod, changeFreq, priority);
    BaseChildrenValues(loc, lastMod, changeFreq, priority, LocRank);
    BaseChildrenValues(loc, lastMod, changeFreq, priority, LastModRank);
    BaseChildrenValues(loc, lastMod, changeFreq, priority, ChangeFreqRank);
    BaseChildrenValues(loc, lastMod, changeFreq, priority, PriorityRank);
  }

  /** The `<url>` block: the base children, then the variant's extension text, then the closing tag. */
  function UrlBlock(b: BaseFields, fmt: W3CDates.W3CDateFormat, extension: string): string {
    "  <url>\n" + Lines(BaseElements(b, fmt)) + extension + "  </url>\n"
  }

  // ---------------------------------------------------------------- string builder

  /** A growable character buffer that can only be appended to. */
  class StringBuilder {
    var contents: string

    constructor ()
      ensures contents == ""
    {
      contents := "";
    }

    method Append(s: string)
      modifies this
      ensures contents == old(contents) + s
    {
      contents := contents + s;
    }
  }

  /** Appends one child line when the value is present and nothing otherwise. */
  method RenderTag(sb: StringBuilder, rank: nat, indent: nat, name: string, value: Option<string>)
    modifies sb
    ensures sb.contents == old(sb.contents) + Lines(Optional(rank, indent, name, value))
  {
    if value.Some? {
      var e := Element(rank, indent, name, "", value.value);
      LinesSingle(e);
      sb.Append(Line(e));
    }
  }

  /** Appends the line of the element, if there is one. */
  method RenderOptional(sb: StringBuilder, es: seq<Element>)
    requires |es| <= 1
    modifies sb
    ensures sb.contents == old(sb.contents) + Lines(es)
  {
    if |es| == 1 {
      LinesSingle(es[0]);
      sb.Append(Line(es[0]));
    } else {
      assert LineTexts(es) == [];
    }
  }

  /** Appends the base children for given field texts, in their fixed order. */
  method RenderBaseChildren(sb: StringBuilder, loc: string, lastMod: Option<string>, changeFreq: Option<string>, priority: Option<string>)
    modifies sb
    ensures sb.contents == old(sb.contents) + Lines(BaseChildren(loc, lastMod, changeFreq, priority))
  {
    ghost var s0 := sb.contents;
    var p0: seq<Element> := [Element(LocRank, 4, "loc", "", loc)];
    var p1 := Optional(LastModRank, 4, "lastmod", lastMod);
    var p2 := Optional(ChangeFreqRank, 4, "changefreq", changeFreq);
    var p3 := Optional(PriorityRank, 4, "priority", priority);
    sb.Append(Line(p0[0]));
    LinesSingle(p0[0]);
    RenderTag(sb, LastModRank, 4, "lastmod", lastMod);
    LinesAppend(p0, p1);
    AppendAssoc(s0, Lines(p0), Lines(p1));
    RenderTag(sb, ChangeFreqRank, 4, "changefreq", changeFreq);
    LinesAppend(p0 + p1, p2);
    AppendAssoc(s0, Lines(p0 + p1), Lines(p2));
    RenderTag(sb, PriorityRank, 4, "priority", priority);
    LinesAppend(p0 + p1 + p2, p3);
    AppendAssoc(s0, Lines(p0 + p1 + p2), Lines(p3));
  }

  /**
   * The base renderer: appends the `<url>` block holding the base children and the extension
   * text to the caller's buffer, and changes nothing else.
   */
  method RenderBase(b: BaseFields, fmt: W3CDates.W3CDateFormat, sb: StringBuilder, extension: string)
    modifies sb
    ensures sb.contents == old(sb.contents) + UrlBlock(b, fmt, extension)
  {
    ghost var s0 := sb.contents;
    var children := Lines(BaseElements(b, fmt));
    sb.Append("  <url>\n");
    RenderBaseChildren(sb, b.loc.text, FormattedDate(fmt, b.lastMod), FreqText(b.changeFreq), PriorityOf(b.priority));
    sb.Append(extension);
    sb.Append("  </url>\n");
    AppendAssoc(s0, "  <url>\n" + children + extension, "  </url>\n");
    AppendAssoc(s0, "  <url>\n" + children, extension);
    AppendAssoc(s0, "  <url>\n", children);
  }
}
