/**
 * The urlset document a run of url records is written as, for any renderer: the XML declaration,
 * the `<urlset>` opening tag with the sitemap namespace and the renderer's own declaration, one
 * fragment per record in run order, and the closing tag.
 */
module Urlsets {
  import opened Wrappers
  import opened Text
  import opened SitemapUrls

  /**
   * What a generator takes from its renderer: the extra namespace declaration its documents
   * carry, if any, and the fragment it writes for one record.
   */
  datatype Renderer<!T> = Renderer(namespaces: Option<string>, fragment: T -> string)

  /** The fragment of each record, in order. */
  function FragmentTexts<T>(r: Renderer<T>, run: seq<T>): seq<string>
  {
    seq(|run|, i requires 0 <= i < |run| => r.fragment(run[i]))
  }

  function Fragments<T>(r: Renderer<T>, run: seq<T>): string {
    Concat(FragmentTexts(r, run))
  }

  /** The fragments of a run are those of its parts, one after another, in add order. */
  lemma FragmentsAppend<T>(r: Renderer<T>, a: seq<T>, b: seq<T>)
    ensures Fragments(r, a + b) == Fragments(r, a) + Fragments(r, b)
  {
    assert FragmentTexts(r, a + b) == FragmentTexts(r, a) + FragmentTexts(r, b);
    ConcatAppend(FragmentTexts(r, a), FragmentTexts(r, b));
  }

  lemma FragmentsSingle<T>(r: Renderer<T>, x: T)
    ensures Fragments(r, [x]) == r.fragment(x)
  {
    var fs := FragmentTexts(r, [x]);
    assert fs == [r.fragment(x)];
    assert fs[..0] == [];
    assert Concat(fs) == Concat([]) + r.fragment(x);
  }

  /** One more record's fragment extends the fragments of the records before it. */
  lemma FragmentsStep<T>(head: string, r: Renderer<T>, run: seq<T>, i: nat)
    requires i < |run|
    ensures head + Fragments(r, run[..i]) + r.fragment(run[i]) == head + Fragments(r, run[..i + 1])
  {
    assert run[..i + 1] == run[..i] + [run[i]];
    FragmentsAppend(r, run[..i], [run[i]]);
    FragmentsSingle(r, run[i]);
    AppendAssoc(head, Fragments(r, run[..i]), r.fragment(run[i]));
  }

  const XmlDeclaration: string := "<?xml version=\"1.0\" encoding=\"UTF-8\"?>\n"
  const SitemapNamespaceUri: string := "http://www.sitemaps.org/schemas/sitemap/0.9"

  /** The declaration line and the urlset opening tag, with a space before its `>`. */
  function UrlsetOpen(namespaces: Option<string>): string {
    XmlDeclaration
    + "<urlset xmlns=\"" + SitemapNamespaceUri + "\" "
    + (match namespaces case Some(ns) => ns + " " case None => "")
    + ">\n"
  }

  const UrlsetClose: string := "</urlset>"

  /** The document a run of records is written as. */
  function Document<T>(r: Renderer<T>, run: seq<T>): string {
    UrlsetOpen(r.namespaces) + Fragments(r, run) + UrlsetClose
  }

  /** The urlset opening tag ends in ` >` and a newline, with or without an extra declaration. */
  lemma UrlsetOpenEnds(namespaces: Option<string>)
    ensures |UrlsetOpen(namespaces)| >= 3
    ensures UrlsetOpen(namespaces)[|UrlsetOpen(namespaces)| - 3..] == " >\n"
  {
    var head := XmlDeclaration + "<urlset xmlns=\"" + SitemapNamespaceUri + "\"";
    var body := match namespaces case Some(d) => " " + d case None => "";
    assert UrlsetOpen(namespaces) == (head + body) + " >\n";
  }

  /** The extra declaration, when there is one, sits between the sitemap namespace and the `>`. */
  lemma UrlsetOpenDeclares(d: string)
    ensures UrlsetOpen(Some(d)) == UrlsetOpen(None)[..|UrlsetOpen(None)| - 2] + d + " >\n"
  {
    var head := XmlDeclaration + "<urlset xmlns=\"" + SitemapNamespaceUri + "\" ";
    assert UrlsetOpen(None) == head + ">\n";
    assert UrlsetOpen(None)[..|UrlsetOpen(None)| - 2] == head;
  }

  /** An empty run is written as the urlset element with no url children. */
  lemma EmptyDocument<T>(r: Renderer<T>)
    ensures Document(r, []) == UrlsetOpen(r.namespaces) + UrlsetClose
  {
    assert FragmentTexts(r, []) == [];
  }

  /** A document holds the fragments of its records in run order. */
  lemma DocumentAppend<T>(r: Renderer<T>, a: seq<T>, x: T)
    ensures Document(r, a + [x]) == UrlsetOpen(r.namespaces) + Fragments(r, a) + r.fragment(x) + UrlsetClose
  {
    FragmentsAppend(r, a, [x]);
    FragmentsSingle(r, x);
  }

  /** Writes the document of a run: the opening, each record's fragment in order, the closing. */
  method WriteDocument<T>(r: Renderer<T>, run: seq<T>) returns (doc: string)
    ensures doc == Document(r, run)
  {
    var sb := new StringBuilder();
    sb.Append(UrlsetOpen(r.namespaces));
    var i := 0;
    assert run[..0] == [];
    while i < |run|
      invariant 0 <= i <= |run|
      invariant sb.contents == UrlsetOpen(r.namespaces) + Fragments(r, run[..i])
    {
      sb.Append(r.fragment(run[i]));
      FragmentsStep(UrlsetOpen(r.namespaces), r, run, i);
      i := i + 1;
    }
    assert run[..i] == run;
    sb.Append(UrlsetClose);
    doc := sb.contents;
  }
}
