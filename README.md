# sitemapgen4j in Dafny

This project models the core of sitemapgen4j, a Java library that writes XML sitemaps following
the sitemaps.org Sitemap protocol 0.9. The model has three parts.

- **`W3CDateFormat`.** The formatter and parser for the W3C "Date and Time Formats" note.
  - There are six fixed-precision shapes: YEAR, MONTH, DAY, MINUTE, SECOND and MILLISECOND.
  - The AUTO mode picks the coarsest of DAY, MINUTE, SECOND and MILLISECOND that drops no non-zero field.
  - There is also a target zone, and a flag that says whether the zone is applied when printing.
- **The url renderers.** These are the `<url>` block every renderer shares, the Google video block
  (`GoogleVideoSitemapGenerator.Renderer`), the Google News block and the `xhtml:link` alternates block.
  Each renderer also carries the namespace declaration it adds to the `<urlset>` root.
- **The generators.**
  - The sitemap generator accepts url records one at a time, checks their host and the ceiling,
    writes each full run of records as the next numbered file, and is written exactly once.
  - The sitemap index generator accumulates sitemap locations up to a ceiling it never splits,
    can synthesize `prefixNsuffix` locations, and writes one `<sitemapindex>` document.

## Modules

- `Wrappers`: `Option`, `Result` and `Outcome`.
- `Text`: digits, decimal printing and padding, and `Join`.
- `Calendar`: date-times with a fixed offset, and conversion to another offset at the same instant.
- `W3CDates`: the `W3CDateFormat` record, printing, AUTO selection, parsing, and the round-trip lemmas.
- `SitemapUrls`: base url fields and child elements.
  - It defines the `<url>` block and the append-only `StringBuilder` class.
  - It also defines the base renderer (`RenderBase` and the methods it calls).
- `NewsRenderer`, `VideoRenderer` and `LinkRenderer`: the extension blocks and their `Render` methods.
- `Sitemaps`: url records of every variant, dispatch to the right renderer, and the renderer a generator of each variant uses.
- `Urlsets`: the `<urlset>` document of a run of records, for any renderer.
- `SitemapGenerators`: run splitting, file names, and the `SitemapGenerator` class.
- `SitemapIndexGenerators`: index entries, the `<sitemapindex>` document, and the `SitemapIndexGenerator` class.

The generator classes are modelled from the behaviour that `SitemapGeneratorTest.java` and
`SitemapIndexGeneratorTest.java` check. Their state changes become Dafny classes whose methods state
their whole new state. The properties the tests check are lemmas about the functions those methods
are proved against. A full run is written as the next numbered file as soon as the next record
arrives: `SitemapGeneratorTest.java:222-225` reads `sitemap1.xml` after the eleventh `addUrl` and
before any `write()`.

Every renderer prints its dates with `W3CDates.FormatAsWritten`, the formatter as the program
writes it. The corrected `W3CDates.Format` of the Findings row differs from it only under AUTO with
the UTC target, for a value at another offset (`W3CDates.FormatAgreesWithAsWritten`).

## Model

| member | source | states |
|---|---|---|
| W3CDates.NewDefaultRoundTrip | src/main/java/com/redfin/sitemapgenerator/W3CDateFormat.java:130-135 | What the no-argument constructor's formatter prints for a UTC value with whole milliseconds parses back to that very value. |
| W3CDates.NewRoundTrip | src/main/java/com/redfin/sitemapgenerator/W3CDateFormat.java:137-142 | A formatter from the public three-argument constructor is fixed: what it prints parses back to its pattern's part of the printed value. |
| W3CDates.WithZoneKeepsInstant | src/main/java/com/redfin/sitemapgenerator/W3CDateFormat.java:155-157 | A zoned time formatter moved by withZone prints the same instant: its output parses back at the new zone, at the same minute. |
| W3CDates.ZoneText | src/main/java/com/redfin/sitemapgenerator/W3CDateFormat.java:67-85 | The `XXX` designator is `Z` exactly for offset zero; otherwise it is six characters: a sign that is `-` exactly for negative offsets, hours, a colon, minutes. |
| W3CDates.AutoShape | src/main/java/com/redfin/sitemapgenerator/W3CDateFormat.java:177-187 | The AUTO decision table never selects YEAR or MONTH. |
| W3CDates.Shown | src/main/java/com/redfin/sitemapgenerator/W3CDateFormat.java:159-172 | The value format prints is the same instant, with seconds and nanos untouched; it is at the target zone whenever the zone is printed or the target zone is not UTC. |
| Calendar.ToOffset | src/main/java/com/redfin/sitemapgenerator/W3CDateFormat.java:160-162 | Converting to another zone keeps the instant and the seconds and nanos, and gives a well-formed date at the new offset. |
| W3CDates.Parse | src/main/java/com/redfin/sitemapgenerator/W3CDateFormat.java:151-153 | A parsed value has a representable year and whole milliseconds; a date-only fixed pattern always yields offset zero. |
| W3CDates.Resolve | src/main/java/com/redfin/sitemapgenerator/W3CDateFormat.java:54-63 | Omitted fields take their defaults: the offset is the written one or zero, and the nanos are the written milliseconds or zero. |
| W3CDates.PrintParseRoundTrip | src/main/java/com/redfin/sitemapgenerator/W3CDateFormat.java:54-119 | Parsing the text of a shape with that shape's pattern, or with AUTO, gives back exactly the fields the shape prints, the others at their defaults. |
| W3CDates.FixedPatternsDisjoint | src/main/java/com/redfin/sitemapgenerator/W3CDateFormat.java:66-119 | A fixed pattern accepts the text of its own shape and rejects the text of every other shape. |
| W3CDates.FormatParseFixed | src/main/java/com/redfin/sitemapgenerator/W3CDateFormat.java:151-174 | A fixed formatter's output parses back to the shape's part of the value it printed. |
| W3CDates.ZonedFormatKeepsInstant | src/main/java/com/redfin/sitemapgenerator/W3CDateFormat.java:159-174 | A zoned time pattern's output parses to the same instant (to the minute, and to the second for SECOND and MILLISECOND), at the target zone. |
| W3CDates.AutoShapeIsCoarsestExact | src/main/java/com/redfin/sitemapgenerator/W3CDateFormat.java:177-187 | For a UTC value with whole milliseconds, a shape from DAY up keeps the value unchanged if and only if it is at least as fine as the AUTO choice. |
| W3CDates.AutoRoundTrip | src/main/java/com/redfin/sitemapgenerator/W3CDateFormat.java:55-62 | With whole milliseconds, AUTO parse of the corrected AUTO format gives the same instant in UTC. For a value in UTC, where format as written agrees, it gives the very same value. |
| W3CDates.AutoPrintLossless | src/main/java/com/redfin/sitemapgenerator/W3CDateFormat.java:177-187 | Printing a UTC value in the shape AUTO selects and parsing it back loses nothing. |
| W3CDates.PrintTruncate | src/main/java/com/redfin/sitemapgenerator/W3CDateFormat.java:88-118 | Printing a shape reads only the fields that shape keeps. |
| W3CDates.AutoFormatIdempotent | src/main/java/com/redfin/sitemapgenerator/W3CDateFormat.java:159-187 | Under the corrected AUTO format, format, parse, format gives back the first text, at any precision. |
| W3CDates.SubMillisecondsIgnored | src/main/java/com/redfin/sitemapgenerator/W3CDateFormat.java:178 | AUTO reads milli-of-second, so nanos below one millisecond never select MILLISECOND and never change the text. |
| W3CDates.FormatAgreesWithAsWritten | src/main/java/com/redfin/sitemapgenerator/W3CDateFormat.java:159-174 | The corrected format equals format as written except for AUTO in UTC applied to a value at another offset. |
| W3CDates.EpochAsSecond | src/test/java/com/redfin/sitemapgenerator/GoogleNewsSitemapUrlTest.java:34 | The epoch under SECOND in UTC prints as `1970-01-01T00:00:00Z`, as written and corrected alike. |
| W3CDates.EpochAsAuto | src/test/java/com/redfin/sitemapgenerator/SitemapIndexGeneratorTest.java:22 | The epoch under AUTO in UTC prints as `1970-01-01`, as written and corrected alike. |
| W3CDates.ParseYearDefaults | src/main/java/com/redfin/sitemapgenerator/W3CDateFormat.java:55-62 | AUTO parses `2009` to January 1st 2009, midnight, UTC. |
| W3CDates.ParseRejectsLongYear | src/main/java/com/redfin/sitemapgenerator/W3CDateFormat.java:55 | Five unsigned year digits are malformed. |
| W3CDates.ParseRejectsShortMonth | src/main/java/com/redfin/sitemapgenerator/W3CDateFormat.java:55 | A one-digit month is malformed. |
| W3CDates.ParseRejectsDanglingTime | src/main/java/com/redfin/sitemapgenerator/W3CDateFormat.java:55 | A `T` with no hour after it is malformed. |
| W3CDates.ParseRejectsMonth13 | src/main/java/com/redfin/sitemapgenerator/W3CDateFormat.java:54-63 | A month past December does not resolve. |
| W3CDates.AsWrittenAutoLosesTime | src/main/java/com/redfin/sitemapgenerator/W3CDateFormat.java:160-169 | As written, AUTO in UTC prints 2020-01-01T00:00+01:00 as `2019-12-31`, a day that starts 23 hours before that instant. |
| W3CDates.AsWrittenAutoNotIdempotent | src/main/java/com/redfin/sitemapgenerator/W3CDateFormat.java:160-169 | As written, formatting 01:00+01:00 gives a text that formats differently once parsed back. |
| W3CDates.AutoKeepsTime | src/main/java/com/redfin/sitemapgenerator/W3CDateFormat.java:160-169 | The corrected format prints 2020-01-01T00:00+01:00 as `2019-12-31T23:00Z`. |
| SitemapUrls.ChangeFreqTextInjective | src/test/java/com/redfin/sitemapgenerator/SitemapGeneratorTest.java:135-143 | Distinct change frequencies print distinctly. |
| SitemapUrls.PriorityText | src/test/java/com/redfin/sitemapgenerator/SitemapGeneratorTest.java:135-143 | A priority prints as one digit, a point and one digit whose value is the priority in tenths (1.0 as `1.0`). |
| SitemapUrls.DeclarationPrefix | src/main/java/com/redfin/sitemapgenerator/GoogleVideoSitemapGenerator.java:84-86 | A namespace declaration reads back as the prefix it binds. |
| SitemapUrls.BaseElementsSpec | src/test/java/com/redfin/sitemapgenerator/SitemapGeneratorTest.java:129-148 | The url children come in the order loc, lastmod, changefreq, priority. loc is always there. Each other child appears once exactly when its field is set, holding the field's text; lastmod holds the date as format as written prints it. |
| SitemapUrls.RenderBase | src/main/java/com/redfin/sitemapgenerator/GoogleVideoSitemapGenerator.java:115 | The base renderer appends the url block with the extension text after the base children, and changes nothing else. |
| VideoRenderer.XmlNamespacesPrefix | src/main/java/com/redfin/sitemapgenerator/GoogleVideoSitemapGenerator.java:84-86 | The declaration binds the `video` prefix the block's elements use. |
| VideoRenderer.VideoElementsOrdered | src/main/java/com/redfin/sitemapgenerator/GoogleVideoSitemapGenerator.java:91-113 | The children are in the fixed order content_loc, player_loc, thumbnail_loc, title, description, rating, view_count, publication_date, tag*, category, family_friendly, duration. |
| VideoRenderer.VideoElementValues | src/main/java/com/redfin/sitemapgenerator/GoogleVideoSitemapGenerator.java:91-113 | Each optional child appears exactly when its field is set, holding its text. |
| VideoRenderer.PlayerLocation | src/main/java/com/redfin/sitemapgenerator/GoogleVideoSitemapGenerator.java:92-97 | player_loc appears once exactly when the player URL is set, and holds it. |
| VideoRenderer.PlayerAttribute | src/main/java/com/redfin/sitemapgenerator/GoogleVideoSitemapGenerator.java:92-97 | A player_loc child exists only when the URL is set. It carries `allow_embed` with the flag's text and the player URL verbatim. |
| VideoRenderer.PlayerLine | src/main/java/com/redfin/sitemapgenerator/GoogleVideoSitemapGenerator.java:93-96 | The player_loc line is the opening tag with the attribute, the URL, and the closing tag. |
| VideoRenderer.PublicationDate | src/main/java/com/redfin/sitemapgenerator/GoogleVideoSitemapGenerator.java:103-105 | publication_date appears only when set, holding the date as the passed formatter prints it as written. |
| VideoRenderer.Tags | src/main/java/com/redfin/sitemapgenerator/GoogleVideoSitemapGenerator.java:106-110 | One tag element per tag in list order, none for a missing list. |
| VideoRenderer.RenderTags | src/main/java/com/redfin/sitemapgenerator/GoogleVideoSitemapGenerator.java:106-110 | The tag loop appends exactly the tag lines, in order. |
| VideoRenderer.BuildBlock | src/main/java/com/redfin/sitemapgenerator/GoogleVideoSitemapGenerator.java:89-114 | The local buffer ends up holding the `<video:video>` line, the children in order, and the `</video:video>` line. |
| VideoRenderer.Render | src/main/java/com/redfin/sitemapgenerator/GoogleVideoSitemapGenerator.java:88-116 | render appends the url block with the video block as its extension to the caller's buffer, and nothing else. |
| NewsRenderer.XmlNamespacesPrefix | src/test/java/com/redfin/sitemapgenerator/GoogleNewsSitemapUrlTest.java:25-26 | The declaration binds the `news` prefix. |
| NewsRenderer.PublicationSpec | src/test/java/com/redfin/sitemapgenerator/GoogleNewsSitemapUrlTest.java:30-33 | The publication sub-block holds the name, then the language. |
| NewsRenderer.NewsElementsSpec | src/test/java/com/redfin/sitemapgenerator/GoogleNewsSitemapUrlTest.java:29-36 | The elements come in the order genres, publication_date, title, keywords. Genres and keywords appear only when set. The date is the formatter's text as written. |
| NewsRenderer.UnsetListsOmitted | src/test/java/com/redfin/sitemapgenerator/GoogleNewsSitemapUrlTest.java:29-36 | Unset genres and keywords leave only publication_date and title, with no empty element. |
| NewsRenderer.JoinAppend | src/test/java/com/redfin/sitemapgenerator/GoogleNewsSitemapUrlTest.java:48 | Joining two non-empty runs of items puts exactly one separator between them. |
| NewsRenderer.ExampleKeywords | src/test/java/com/redfin/sitemapgenerator/GoogleNewsSitemapUrlTest.java:63 | Klaatu, Barrata, Nicto print as `Klaatu, Barrata, Nicto`. |
| NewsRenderer.ExamplePublicationDate | src/test/java/com/redfin/sitemapgenerator/GoogleNewsSitemapUrlTest.java:34 | The epoch publication date under SECOND in UTC is `1970-01-01T00:00:00Z`. |
| NewsRenderer.Render | src/test/java/com/redfin/sitemapgenerator/GoogleNewsSitemapUrlTest.java:27-37 | A news record renders as the url block with the news block after loc. |
| LinkRenderer.XmlNamespacesPrefix | src/test/java/com/redfin/sitemapgenerator/GoogleLinkSitemapUrlTest.java:31-32 | The declaration binds the `xhtml` prefix. |
| LinkRenderer.PutGet | src/test/java/com/redfin/sitemapgenerator/GoogleLinkSitemapUrlTest.java:23-26 | Putting into the insertion-ordered alternates map keeps URLs unique and maps the URL to the attributes just put. |
| LinkRenderer.PutKeepsOthers | src/test/java/com/redfin/sitemapgenerator/GoogleLinkSitemapUrlTest.java:23-26 | Putting leaves every other alternate and its position unchanged. |
| LinkRenderer.PutNewAppendsBlock | src/test/java/com/redfin/sitemapgenerator/GoogleLinkSitemapUrlTest.java:35-49 | A new URL's block comes after the blocks of all URLs put before it. |
| LinkRenderer.LinkBlocksAppend | src/test/java/com/redfin/sitemapgenerator/GoogleLinkSitemapUrlTest.java:35-49 | The blocks of the alternates are laid out one per alternate, in map order. |
| LinkRenderer.AttributeValueVerbatim | src/test/java/com/redfin/sitemapgenerator/GoogleLinkSitemapUrlTest.java:74 | An attribute value sits unchanged between `name="` and the closing quote. |
| LinkRenderer.ExampleHrefLangBlock | src/test/java/com/redfin/sitemapgenerator/GoogleLinkSitemapUrlTest.java:35-39 | One block has the lines `<xhtml:link`, `rel="alternate"`, the attribute, `href="…"` and `/>`. |
| LinkRenderer.Render | src/test/java/com/redfin/sitemapgenerator/GoogleLinkSitemapUrlTest.java:33-50 | A link record renders as the url block with the link blocks after loc. |
| Sitemaps.RenderUrl | src/test/java/com/redfin/sitemapgenerator/SitemapGeneratorTest.java:98-103 | Each record is appended as its variant's url fragment. |
| Sitemaps.NamespacesDeclarePrefix | src/test/java/com/redfin/sitemapgenerator/GoogleNewsSitemapUrlTest.java:25-26 | The web renderer declares no extra namespace. News, video and link each declare the prefix their blocks use. |
| Sitemaps.LocationOnlyDocument | src/test/java/com/redfin/sitemapgenerator/SitemapGeneratorTest.java:94-108 | One location-only record gives the declaration, `<urlset xmlns="…" >`, the two-space url block with its four-space loc line, and `</urlset>`. |
| Urlsets.UrlsetOpenEnds | src/test/java/com/redfin/sitemapgenerator/SitemapGeneratorTest.java:99 | The urlset root tag ends in ` >`. |
| Urlsets.UrlsetOpenDeclares | src/test/java/com/redfin/sitemapgenerator/GoogleNewsSitemapUrlTest.java:25-26 | An extra declaration sits after the sitemap namespace, before ` >`. |
| Urlsets.EmptyDocument | src/test/java/com/redfin/sitemapgenerator/SitemapGeneratorTest.java:365-373 | An empty run is the urlset with no url children. |
| Urlsets.DocumentAppend | src/test/java/com/redfin/sitemapgenerator/SitemapGeneratorTest.java:20-91 | A document holds its records' fragments in run order. |
| Urlsets.WriteDocument | src/test/java/com/redfin/sitemapgenerator/SitemapGeneratorTest.java:20-91 | Writing a run yields exactly its document. |
| SitemapGenerators.ChunksFlatten | src/test/java/com/redfin/sitemapgenerator/SitemapGeneratorTest.java:288-302 | Cutting the records into runs loses, duplicates and reorders nothing. |
| SitemapGenerators.ChunksCount | src/test/java/com/redfin/sitemapgenerator/SitemapGeneratorTest.java:216-305 | There are ceil(N / C) runs. |
| SitemapGenerators.Chunks | src/test/java/com/redfin/sitemapgenerator/SitemapGeneratorTest.java:20-91 | Each run is non-empty and at most C long; every run but the last is exactly C. |
| SitemapGenerators.ChunksOfFullRuns | src/test/java/com/redfin/sitemapgenerator/SitemapGeneratorTest.java:273-305 | Full runs already written, followed by pending records, cut back into those same runs and then the pending ones. |
| SitemapGenerators.FileNamesDistinct | src/test/java/com/redfin/sitemapgenerator/SitemapGeneratorTest.java:228-229 | Different file numbers never give the same name. |
| SitemapGenerators.DefaultNames | src/test/java/com/redfin/sitemapgenerator/SitemapGeneratorTest.java:189-205 | The names are `sitemap.xml`, `sitemap1.xml`, `sitemap2.xml` and so on; gzip gives `sitemap.xml.gz`; the suffix `01` gives `sitemap01.xml`. |
| SitemapGenerators.PlannedFilesSpec | src/test/java/com/redfin/sitemapgenerator/SitemapGeneratorTest.java:216-305 | The files hold consecutive runs in add order. None is over C, and all but the last are full. There are ceil(N / C) files, and one when N <= C. A lone file is unnumbered; otherwise files are numbered from 1. |
| SitemapGenerators.SplitCounts | src/test/java/com/redfin/sitemapgenerator/SitemapGeneratorTest.java:216-305 | With C = 10: 10 records give 1 file, 11 give 2, 20 give 2, 21 give 3. |
| SitemapGenerators.FilesMatchStrings | src/test/java/com/redfin/sitemapgenerator/SitemapGeneratorTest.java:352-363 | Writing to files and writing as strings give the same documents. |
| SitemapGenerators.SitemapGenerator.PendingIsLastFile | src/test/java/com/redfin/sitemapgenerator/SitemapGeneratorTest.java:222-231 | The files already flushed plus the pending run, under the current number, are the planned files. |
| SitemapGenerators.SitemapGenerator.AddUrl | src/test/java/com/redfin/sitemapgenerator/SitemapGeneratorTest.java:150-154 | Refused once written, for a foreign host, and at the ceiling when splitting is off; a refusal changes nothing. Otherwise the record is added, after the full pending run is flushed as the next numbered file when writing to files. |
| SitemapGenerators.SitemapGenerator.Write | src/test/java/com/redfin/sitemapgenerator/SitemapGeneratorTest.java:174-187 | A second write fails, and so does an empty write unless allowed. Otherwise the result is exactly the planned files for everything added, and the generator is finished. |
| SitemapGenerators.SitemapGenerator.WriteAsStrings | src/test/java/com/redfin/sitemapgenerator/SitemapGeneratorTest.java:352-363 | One document per run of the pending records, in order. |
| SitemapGenerators.FlushedBeforeWrite | src/test/java/com/redfin/sitemapgenerator/SitemapGeneratorTest.java:216-229 | More than C records were added if and only if a file was flushed; the flushed files are the first runs of the cut. |
| SitemapGenerators.ElevenWithCeilingTen | src/test/java/com/redfin/sitemapgenerator/SitemapGeneratorTest.java:222-225 | With C = 10 and eleven records, `sitemap1.xml` holds the first ten before write. |
| SitemapIndexGenerators.SynthesizedDistinct | src/test/java/com/redfin/sitemapgenerator/SitemapIndexGeneratorTest.java:126-136 | The synthesized locations are pairwise distinct and all on the base host. |
| SitemapIndexGenerators.SynthesizedTenth | src/test/java/com/redfin/sitemapgenerator/SitemapIndexGeneratorTest.java:21-57 | With `sitemap`/`.xml`, the first is `sitemap1.xml` and the tenth is `sitemap10.xml`. |
| SitemapIndexGenerators.EntryElementsSpec | src/test/java/com/redfin/sitemapgenerator/SitemapIndexGeneratorTest.java:92-124 | An entry lists loc, then lastmod: its own time, else the default, else none, as format as written prints it; never changefreq or priority. |
| SitemapIndexGenerators.IndexRootHasNoSpace | src/test/java/com/redfin/sitemapgenerator/SitemapIndexGeneratorTest.java:19 | The index root ends in `">` with no space, unlike the urlset root. |
| SitemapIndexGenerators.EmptyIndexDocument | src/test/java/com/redfin/sitemapgenerator/SitemapIndexGeneratorTest.java:84-86 | An empty index is the root with no children. |
| SitemapIndexGenerators.SingleEntryIndexDocument | src/test/java/com/redfin/sitemapgenerator/SitemapIndexGeneratorTest.java:115-121 | One entry gives the root, its sitemap block and the close. |
| SitemapIndexGenerators.IndexDocumentAppend | src/test/java/com/redfin/sitemapgenerator/SitemapIndexGeneratorTest.java:18-60 | Entry blocks follow in add order. |
| SitemapIndexGenerators.ExampleEntryBlock | src/test/java/com/redfin/sitemapgenerator/SitemapIndexGeneratorTest.java:20-23 | With the epoch as the default and AUTO in UTC, an entry is `<sitemap>`, the loc line, `<lastmod>1970-01-01</lastmod>` and `</sitemap>`. |
| SitemapIndexGenerators.SitemapIndexGenerator.AddUrl | src/test/java/com/redfin/sitemapgenerator/SitemapIndexGeneratorTest.java:64-72 | Refused once written, for a foreign host, and at the ceiling, because the index never splits; otherwise the entry is appended. |
| SitemapIndexGenerators.SitemapIndexGenerator.AddUrls | src/test/java/com/redfin/sitemapgenerator/SitemapIndexGeneratorTest.java:126-136 | The synthesized entries are appended in order. When they overflow, the ones that fit stay and the result is TooManyUrls. |
| SitemapIndexGenerators.SitemapIndexGenerator.WriteAsString | src/test/java/com/redfin/sitemapgenerator/SitemapIndexGeneratorTest.java:101-104 | Returns the index document of the entries added. |
| SitemapIndexGenerators.SitemapIndexGenerator.Write | src/test/java/com/redfin/sitemapgenerator/SitemapIndexGeneratorTest.java:73-90 | An empty index is refused unless allowed, and so is a second write. Otherwise the configured file holds exactly the document WriteAsString returns. |
| SitemapIndexGenerators.RenderIndex | src/test/java/com/redfin/sitemapgenerator/SitemapIndexGeneratorTest.java:18-60 | The rendering loop yields exactly the index document. |

## Left out

- Zones are fixed offsets in whole minutes, up to 18 hours either side of UTC.
  - Region zones with daylight saving are not modelled.
  - The conversion is exact for fixed offsets.
- Years before year 1 are printed as their year-of-era, as `yyyy` does, and are never parsed. The era itself is not modelled.
- `FORMAT_RFC_822` and `equals`/`hashCode` are left out. The constant is unused by the core, and equality is reference identity.
- The parser is the W3C grammar of the patterns, written by hand. The general `DateTimeFormatter` pattern language is not modelled.
- XML escaping of values is not modelled. Values are written verbatim, as the tests' values need no escaping.
- URL parsing and host extraction are not modelled.
  - A URL is its text plus a given host.
  - Resolving a name against the base URL is concatenation.
- File I/O, gzip bytes, the base directory's path handling, XSD validation and autoValidate are left out.
  - A written file is a name and its text.
  - gzip shows only as the `.gz` name suffix.
- SitemapGenerators.SitemapGenerator.Write: requires a configured base directory. A null base directory is a precondition, not the NullPointerException of `SitemapGeneratorTest.java:338-350`.
- The video rating, the family-friendly flag and allow-embed are carried as the text they print as, because the rating is a Java double.
- Priority is a whole number of tenths from 0.0 to 1.0, the values a one-decimal rendering shows. Other doubles are not modelled.
- News genres are a list joined by ", ", like keywords. An empty list means unset.
- A null video tag list is modelled as absent and renders no tag elements.
- The default last-modified time of the index generator is a configured value. The clock is not consulted.
- Constructor and builder overloads and `SitemapGeneratorOptions.java` are left out: they only parse URLs and set the fields the options records hold.
- SitemapGenerators.FileName: a numbered file's name puts the suffix pattern before the run number (`sitemap` + `01` + `1` + `.xml`). The tests pin the suffix pattern only for unnumbered names, so that order is assumed.
- `TutorialExampleTest.java` asserts nothing and is not modelled.
- The renderer a generator uses is a value carrying its namespace declaration and its fragment function, so the generator reasoning does not depend on any one variant's layout.

## Findings

| source | as written | input that shows it | evidently intended | confidence | as-written member | corrected member |
|---|---|---|---|---|---|---|
| src/main/java/com/redfin/sitemapgenerator/W3CDateFormat.java:160-169 | With the UTC target zone, AUTO chooses the shape from the value's own local fields. It then prints the value converted to UTC, so the shape and the printed fields disagree. | 2020-01-01T00:00+01:00 under AUTO prints `2019-12-31`. 2020-01-01T01:00+01:00 prints `2020-01-01T00:00Z`, which formats again as `2020-01-01`. | Choose the shape from the fields that are printed. The first input then prints `2019-12-31T23:00Z`, and format, parse, format is stable. | not executed | W3CDates.AsWrittenAutoLosesTime, W3CDates.AsWrittenAutoNotIdempotent | W3CDates.AutoKeepsTime, W3CDates.AutoFormatIdempotent |
