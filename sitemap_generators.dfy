/**
 * The sitemap generator: it accumulates url records, splits them into runs of at most the
 * configured ceiling, writes each run as one numbered sitemap file, and refuses to be used again
 * once written.
 */
module SitemapGenerators {
  import opened Wrappers
  import opened Text
  import opened SitemapUrls
  import opened Sitemaps
  import opened Urlsets

  /** The protocol's ceiling on urls per sitemap, and the default ceiling. */
  const MaxUrlsPerSitemap: nat := 50_000

  /**
   * A generator's configuration. `baseHost` is the host of the base URL every record must share;
   * `toFiles` says whether a base directory is configured; the renderer comes with the
   * generator's variant and date format.
   */
  datatype Options = Options(
    baseHost: string,
    toFiles: bool,
    maxUrls: nat,
    allowMultiple: bool,
    allowEmpty: bool,
    gzip: bool,
    prefix: string,
    suffixPattern: string,
    renderer: Renderer<UrlRecord>)

  /** The builder's defaults: 50,000 urls per file, splitting on, empty output refused, no gzip. */
  function DefaultOptions(baseHost: string, toFiles: bool, renderer: Renderer<UrlRecord>): Options {
    Options(baseHost, toFiles, MaxUrlsPerSitemap, true, false, false, "sitemap", "", renderer)
  }

  /** Why an operation is refused. */
  datatype Error =
    | AlreadyWritten   // the generator was written already
    | WrongHost        // the url's host is not the base URL's host
    | TooManyUrls      // the ceiling is reached and splitting is off
    | NoUrls           // nothing to write and empty output is not allowed

  /** A file the generator wrote: its name in the base directory and its text before any gzip. */
  datatype OutFile = OutFile(name: string, content: string)

  // ---------------------------------------------------------------- runs

  /** The records cut into consecutive runs of `c`, the last run holding the remainder. */
  function Chunks<T>(xs: seq<T>, c: nat): (runs: seq<seq<T>>)
    requires c >= 1
    ensures forall i :: 0 <= i < |runs| ==> 1 <= |runs[i]| <= c
    ensures forall i :: 0 <= i < |runs| - 1 ==> |runs[i]| == c
    decreases |xs|
  {
    if xs == [] then []
    else if |xs| <= c then [xs]
    else [xs[..c]] + Chunks(xs[c..], c)
  }

  /** The runs laid end to end. */
  function Flatten<T>(runs: seq<seq<T>>): seq<T> {
    if runs == [] then [] else runs[0] + Flatten(runs[1..])
  }

  /** Every run holds exactly `c` records. */
  predicate Full<T>(runs: seq<seq<T>>, c: nat) {
    forall i :: 0 <= i < |runs| ==> |runs[i]| == c
  }

  /** Cutting loses, duplicates and reorders nothing. */
  lemma {:induction false} ChunksFlatten<T>(xs: seq<T>, c: nat)
    requires c >= 1
    ensures Flatten(Chunks(xs, c)) == xs
    decreases |xs|
  {
    if xs != [] && |xs| > c {
      var runs := Chunks(xs, c);
      assert runs[1..] == Chunks(xs[c..], c);
      ChunksFlatten(xs[c..], c);
      assert xs == xs[..c] + xs[c..];
    } else if xs != [] {
      assert Chunks(xs, c)[1..] == [];
    }
  }

  /** There are ceil(N / c) runs: the last one starts before the end and ends at or after it. */
  lemma {:induction false} ChunksCount<T>(xs: seq<T>, c: nat)
    requires c >= 1
    ensures |xs| <= |Chunks(xs, c)| * c
    ensures xs != [] ==> (|Chunks(xs, c)| - 1) * c < |xs|
    decreases |xs|
  {
    if |xs| > c {
      var k := |Chunks(xs[c..], c)|;
      ChunksCount(xs[c..], c);
      assert |Chunks(xs, c)| == k + 1;
      assert (k + 1) * c == k * c + c;
    }
  }

  /** Full runs laid end to end are cut back into the same runs, whatever follows them. */
  lemma {:induction false} ChunksOfFullRuns<T>(runs: seq<seq<T>>, tail: seq<T>, c: nat)
    requires c >= 1 && Full(runs, c)
    ensures Chunks(Flatten(runs) + tail, c) == runs + Chunks(tail, c)
    decreases |runs|
  {
    if runs != [] {
      var rest := Flatten(runs[1..]) + tail;
      ChunksOfFullRuns(runs[1..], tail, c);
      AppendAssoc(runs[0], Flatten(runs[1..]), tail);
      ChunksOfFullRun(runs[0], rest, c);
      AppendAssoc([runs[0]], runs[1..], Chunks(tail, c));
      assert runs == [runs[0]] + runs[1..];
    } else {
      assert Flatten(runs) + tail == tail;
      assert runs + Chunks(tail, c) == Chunks(tail, c);
    }
  }

  /** A full run at the front is cut off as the first run. */
  lemma ChunksOfFullRun<T>(run: seq<T>, rest: seq<T>, c: nat)
    requires c >= 1 && |run| == c
    ensures Chunks(run + rest, c) == [run] + Chunks(rest, c)
  {
    var xs := run + rest;
    if rest == [] {
      assert xs == run;
    } else {
      assert xs[..c] == run;
      assert xs[c..] == rest;
    }
  }

  /** A record that does not fill a run is cut into that single run. */
  lemma ChunksOfShort<T>(xs: seq<T>, c: nat)
    requires 1 <= |xs| <= c
    ensures Chunks(xs, c) == [xs]
  {
  }

  /** Full runs hold `c` records each. */
  lemma {:induction false} FlattenFullLength<T>(runs: seq<seq<T>>, c: nat)
    requires Full(runs, c)
    ensures |Flatten(runs)| == |runs| * c
    decreases |runs|
  {
    if runs != [] {
      FlattenFullLength(runs[1..], c);
      assert |runs| * c == (|runs| - 1) * c + c;
    }
  }

  // ---------------------------------------------------------------- files

  /**
   * The name of a file: the prefix, the suffix pattern, the run number when the output is
   * numbered (0 means unnumbered), `.xml`, and `.gz` when compressed.
   */
  function FileName(o: Options, n: nat): string {
    o.prefix + o.suffixPattern + (if n == 0 then "" else NatToString(n)) + (if o.gzip then ".xml.gz" else ".xml")
  }

  /** Different run numbers never give the same file name. */
  lemma FileNamesDistinct(o: Options, m: nat, n: nat)
    requires FileName(o, m) == FileName(o, n)
    ensures m == n
  {
    var head := o.prefix + o.suffixPattern;
    var x := if m == 0 then "" else NatToString(m);
    var y := if n == 0 then "" else NatToString(n);
    var ext := if o.gzip then ".xml.gz" else ".xml";
    assert FileName(o, m) == head + x + ext;
    assert FileName(o, n) == head + y + ext;
    assert |x| == |y|;
    assert x == FileName(o, m)[|head|..|head| + |x|];
    assert y == FileName(o, n)[|head|..|head| + |y|];
    if m != 0 && n != 0 {
      NatToStringInjective(m, n);
    }
  }

  /**
   * Default naming: `sitemap.xml` alone, `sitemap1.xml`, `sitemap2.xml`, ... when numbered,
   * `.gz` appended when compressed, a suffix pattern inserted before the number.
   */
  lemma DefaultNames(baseHost: string, toFiles: bool, r: Renderer<UrlRecord>)
    ensures FileName(DefaultOptions(baseHost, toFiles, r), 0) == "sitemap.xml"
    ensures FileName(DefaultOptions(baseHost, toFiles, r), 1) == "sitemap1.xml"
    ensures FileName(DefaultOptions(baseHost, toFiles, r), 2) == "sitemap2.xml"
    ensures FileName(DefaultOptions(baseHost, toFiles, r), 3) == "sitemap3.xml"
    ensures FileName(DefaultOptions(baseHost, toFiles, r).(gzip := true), 0) == "sitemap.xml.gz"
    ensures FileName(DefaultOptions(baseHost, toFiles, r).(suffixPattern := "01"), 0) == "sitemap01.xml"
  {
  }

  /** The document of a run, as the generator's renderer writes it. */
  function DocumentOf(o: Options, run: seq<UrlRecord>): string {
    Document(o.renderer, run)
  }

  /** The documents of the runs, in order. */
  function Documents(o: Options, runs: seq<seq<UrlRecord>>): seq<string>
  {
    seq(|runs|, i requires 0 <= i < |runs| => DocumentOf(o, runs[i]))
  }

  /** The runs written as files numbered from `first` on. */
  function NumberedFiles(o: Options, runs: seq<seq<UrlRecord>>, first: nat): seq<OutFile>
  {
    seq(|runs|, i requires 0 <= i < |runs| => OutFile(FileName(o, first + i), DocumentOf(o, runs[i])))
  }

  lemma NumberedFilesAppend(o: Options, runs: seq<seq<UrlRecord>>, run: seq<UrlRecord>, first: nat)
    ensures NumberedFiles(o, runs + [run], first) ==
      NumberedFiles(o, runs, first) + [OutFile(FileName(o, first + |runs|), DocumentOf(o, run))]
  {
    var all := NumberedFiles(o, runs + [run], first);
    var front := NumberedFiles(o, runs, first);
    assert forall i :: 0 <= i < |runs| ==> all[i] == front[i];
  }

  /** The runs `write` produces: one run when the records fit in one file, else the cut. */
  function Runs(o: Options, all: seq<UrlRecord>): seq<seq<UrlRecord>>
    requires o.maxUrls >= 1
  {
    if |all| <= o.maxUrls then [all] else Chunks(all, o.maxUrls)
  }

  /**
   * The files `write` leaves behind for the records added: a single unnumbered file when they fit
   * in one, else one file per run numbered from 1.
   */
  function PlannedFiles(o: Options, all: seq<UrlRecord>): seq<OutFile>
    requires o.maxUrls >= 1
  {
    if |all| <= o.maxUrls then [OutFile(FileName(o, 0), DocumentOf(o, all))]
    else NumberedFiles(o, Chunks(all, o.maxUrls), 1)
  }

  /**
   * The files hold consecutive runs of the records in add order, none over the ceiling and each
   * but the last exactly full; there are ceil(N / C) of them (one, possibly empty, when N <= C);
   * file i is named without a number when alone and with number i + 1 otherwise.
   */
  lemma PlannedFilesSpec(o: Options, all: seq<UrlRecord>)
    requires o.maxUrls >= 1
    ensures Flatten(Runs(o, all)) == all
    ensures |PlannedFiles(o, all)| == |Runs(o, all)| >= 1
    ensures forall i :: 0 <= i < |Runs(o, all)| ==> |Runs(o, all)[i]| <= o.maxUrls
    ensures forall i :: 0 <= i < |Runs(o, all)| - 1 ==> |Runs(o, all)[i]| == o.maxUrls
    ensures |all| <= |Runs(o, all)| * o.maxUrls && (all != [] ==> (|Runs(o, all)| - 1) * o.maxUrls < |all|)
    ensures forall i :: 0 <= i < |Runs(o, all)| ==>
      PlannedFiles(o, all)[i] == OutFile(FileName(o, if |all| <= o.maxUrls then 0 else i + 1), DocumentOf(o, Runs(o, all)[i]))
  {
    if |all| <= o.maxUrls {
      assert Flatten([all]) == all + Flatten([]);
    } else {
      ChunksFlatten(all, o.maxUrls);
      ChunksCount(all, o.maxUrls);
    }
  }

  /** With a ceiling of 10, 10 urls give one file, 11 and 20 give two, and 21 give three. */
  lemma SplitCounts(o: Options, all: seq<UrlRecord>)
    requires o.maxUrls == 10
    ensures |all| == 10 ==> |PlannedFiles(o, all)| == 1
    ensures |all| == 11 ==> |PlannedFiles(o, all)| == 2
    ensures |all| == 20 ==> |PlannedFiles(o, all)| == 2
    ensures |all| == 21 ==> |PlannedFiles(o, all)| == 3
  {
    PlannedFilesSpec(o, all);
  }

  /** Writing to files and writing as strings render the same documents for the same records. */
  lemma FilesMatchStrings(o: Options, all: seq<UrlRecord>)
    requires o.maxUrls >= 1 && all != []
    ensures |PlannedFiles(o, all)| == |Documents(o, Chunks(all, o.maxUrls))|
    ensures forall i :: 0 <= i < |PlannedFiles(o, all)| ==>
      PlannedFiles(o, all)[i].content == Documents(o, Chunks(all, o.maxUrls))[i]
  {
    if |all| <= o.maxUrls {
      ChunksOfShort(all, o.maxUrls);
    }
  }

  // ---------------------------------------------------------------- the generator

  class SitemapGenerator {
    const options: Options
    /** The records not yet written to a file, in add order. */
    var urls: seq<UrlRecord>
    /** 0 while nothing was flushed; otherwise the number the next file gets. */
    var mapCount: nat
    var finished: bool
    /** The files written so far, in order. */
    var outFiles: seq<OutFile>
    /** The runs already written to files, in order. */
    ghost var runs: seq<seq<UrlRecord>>

    /** Every record accepted so far, in add order. */
    ghost function Added(): seq<UrlRecord>
      reads this
    {
      Flatten(runs) + urls
    }

    ghost predicate Valid()
      reads this
    {
      && options.maxUrls >= 1
      && (options.toFiles || !options.allowMultiple ==> |urls| <= options.maxUrls)
      && (finished ==> options.toFiles)
      && Full(runs, options.maxUrls)
      && mapCount == (if runs == [] then 0 else |runs| + 1)
      && (runs != [] ==> options.toFiles && urls != [])
      && outFiles == (if finished then PlannedFiles(options, Added()) else NumberedFiles(options, runs, 1))
    }

    constructor (o: Options)
      requires o.maxUrls >= 1
      ensures Valid() && options == o
      ensures urls == [] && mapCount == 0 && !finished && outFiles == [] && Added() == []
    {
      options := o;
      urls := [];
      mapCount := 0;
      finished := false;
      outFiles := [];
      runs := [];
    }

    /**
     * The files already written are all the planned files for the records added so far except
     * the last, which holds the pending records and gets the current number.
     */
    lemma PendingIsLastFile()
      requires Valid() && !finished && options.toFiles
      ensures PlannedFiles(options, Added()) ==
        outFiles + [OutFile(FileName(options, mapCount), DocumentOf(options, urls))]
    {
      var c := options.maxUrls;
      if runs == [] {
        assert Added() == urls;
      } else {
        ChunksOfFullRuns(runs, urls, c);
        ChunksOfShort(urls, c);
        assert |Added()| > c by {
          assert Flatten(runs) == runs[0] + Flatten(runs[1..]);
        }
        NumberedFilesAppend(options, runs, urls, 1);
      }
    }

    /**
     * Adds a record. Refused once written, for a foreign host, and at the ceiling when splitting
     * is off. When writing to files and the pending run is full, the run is written first as the
     * next numbered file (number 1 for the first), before the record is added.
     */
    method AddUrl(url: UrlRecord) returns (r: Outcome<Error>)
      requires Valid()
      modifies this
      ensures Valid()
      ensures r == if old(finished) then Fail(AlreadyWritten)
                   else if url.base.loc.host != options.baseHost then Fail(WrongHost)
                   else if |old(urls)| == options.maxUrls && !options.allowMultiple then Fail(TooManyUrls)
                   else Pass
      ensures r.Fail? ==> unchanged(this)
      ensures r.Pass? ==> Added() == old(Added()) + [url] && !finished
      ensures r.Pass? && |old(urls)| == options.maxUrls && options.toFiles ==>
        && urls == [url]
        && mapCount == (if old(mapCount) == 0 then 2 else old(mapCount) + 1)
        && outFiles == old(outFiles) +
             [OutFile(FileName(options, if old(mapCount) == 0 then 1 else old(mapCount)), DocumentOf(options, old(urls)))]
      ensures r.Pass? && !(|old(urls)| == options.maxUrls && options.toFiles) ==>
        urls == old(urls) + [url] && mapCount == old(mapCount) && outFiles == old(outFiles)
    {
      if finished {
        return Fail(AlreadyWritten);
      }
      if url.base.loc.host != options.baseHost {
        return Fail(WrongHost);
      }
      if |urls| == options.maxUrls {
        if !options.allowMultiple {
          return Fail(TooManyUrls);
        }
        if options.toFiles {
          if mapCount == 0 {
            mapCount := 1;
          }
          WriteSiteMap();
          mapCount := mapCount + 1;
          urls := [];
        }
      }
      AppendAssoc(Flatten(runs), urls, [url]);
      urls := urls + [url];
      r := Pass;
    }

    /** Writes the pending records as the file numbered `mapCount` and records them as a written run. */
    method WriteSiteMap()
      requires options.maxUrls >= 1 && mapCount == |runs| + 1
      requires |urls| == options.maxUrls && Full(runs, options.maxUrls)
      requires outFiles == NumberedFiles(options, runs, 1)
      modifies this
      ensures outFiles == old(outFiles) + [OutFile(FileName(options, mapCount), DocumentOf(options, urls))]
      ensures runs == old(runs) + [urls] && Full(runs, options.maxUrls)
      ensures outFiles == NumberedFiles(options, runs, 1)
      ensures Flatten(runs) == Flatten(old(runs)) + urls
      ensures urls == old(urls) && mapCount == old(mapCount) && finished == old(finished)
    {
      var doc := WriteDocument(options.renderer, urls);
      outFiles := outFiles + [OutFile(FileName(options, mapCount), doc)];
      NumberedFilesAppend(options, runs, urls, 1);
      FlattenAppend(runs, urls);
      runs := runs + [urls];
    }

    /**
     * The terminal write: refused a second time, and refused with nothing added unless empty
     * output is allowed. Otherwise writes the pending records as the last file and returns every
     * file written, which are exactly the planned files for all records added.
     */
    method Write() returns (r: Result<seq<OutFile>, Error>)
      requires Valid() && options.toFiles
      modifies this
      ensures Valid()
      ensures r == if old(finished) then Failure(AlreadyWritten)
                   else if !options.allowEmpty && old(urls) == [] && old(mapCount) == 0 then Failure(NoUrls)
                   else Success(PlannedFiles(options, old(Added())))
      ensures r.Failure? ==> unchanged(this)
      ensures r.Success? ==> finished && outFiles == r.value && Added() == old(Added())
    {
      if finished {
        return Failure(AlreadyWritten);
      }
      if !options.allowEmpty && urls == [] && mapCount == 0 {
        return Failure(NoUrls);
      }
      PendingIsLastFile();
      var doc := WriteDocument(options.renderer, urls);
      outFiles := outFiles + [OutFile(FileName(options, mapCount), doc)];
      finished := true;
      r := Success(outFiles);
    }

    /**
     * The pending records as documents, without touching storage: one per run of at most the
     * ceiling, in add order; no document at all when nothing is pending.
     */
    method WriteAsStrings() returns (docs: seq<string>)
      requires Valid()
      ensures docs == Documents(options, Chunks(urls, options.maxUrls))
    {
      var c := options.maxUrls;
      docs := [];
      ghost var done: seq<seq<UrlRecord>> := [];
      var start := 0;
      assert urls[0..] == urls;
      while start < |urls|
        invariant Chunks(urls, c) == done + (if start < |urls| then Chunks(urls[start..], c) else [])
        invariant docs == Documents(options, done)
        decreases |urls| - start
      {
        var end := if start + c > |urls| then |urls| else start + c;
        ChunksAdvance(urls, done, start, c);
        var doc := WriteDocument(options.renderer, urls[start..end]);
        DocumentsAppend(options, done, urls[start..end]);
        done := done + [urls[start..end]];
        docs := docs + [doc];
        start := start + c;
      }
    }
  }

  lemma {:induction false} FlattenAppend<T>(runs: seq<seq<T>>, run: seq<T>)
    ensures Flatten(runs + [run]) == Flatten(runs) + run
    decreases |runs|
  {
    if runs == [] {
      assert Flatten([run]) == run + Flatten([]);
    } else {
      assert (runs + [run])[1..] == runs[1..] + [run];
      FlattenAppend(runs[1..], run);
    }
  }

  /** The cut of the records from `start` on begins with the next run of up to `c` records. */
  lemma ChunksStep<T>(xs: seq<T>, start: nat, c: nat)
    requires c >= 1 && start < |xs|
    ensures Chunks(xs[start..], c) ==
      [xs[start..if start + c > |xs| then |xs| else start + c]]
      + (if start + c < |xs| then Chunks(xs[start + c..], c) else [])
  {
    var ys := xs[start..];
    if |ys| > c {
      assert ys[..c] == xs[start..start + c];
      assert ys[c..] == xs[start + c..];
    } else {
      assert ys == xs[start..|xs|];
    }
  }

  /** One step of walking the cut from the front: the run at `start` joins the runs already done. */
  lemma ChunksAdvance<T>(xs: seq<T>, done: seq<seq<T>>, start: nat, c: nat)
    requires c >= 1 && start < |xs| && Chunks(xs, c) == done + Chunks(xs[start..], c)
    ensures Chunks(xs, c) ==
      done + [xs[start..if start + c > |xs| then |xs| else start + c]]
      + (if start + c < |xs| then Chunks(xs[start + c..], c) else [])
  {
    ChunksStep(xs, start, c);
  }

  lemma DocumentsAppend(o: Options, runs: seq<seq<UrlRecord>>, run: seq<UrlRecord>)
    ensures Documents(o, runs + [run]) == Documents(o, runs) + [DocumentOf(o, run)]
  {
  }

  /**
   * Once more than a ceiling's worth of records has been added to a file-writing generator, the
   * full runs are on storage before `write`: the files written are the first `mapCount - 1` runs
   * of the cut of everything added.
   */
  lemma FlushedBeforeWrite(g: SitemapGenerator)
    requires g.Valid() && !g.finished && g.options.toFiles
    ensures |g.Added()| > g.options.maxUrls <==> g.mapCount >= 2
    ensures g.mapCount >= 2 ==> g.mapCount - 1 < |Chunks(g.Added(), g.options.maxUrls)|
    ensures g.mapCount >= 2 ==>
      g.outFiles == NumberedFiles(g.options, Chunks(g.Added(), g.options.maxUrls)[..g.mapCount - 1], 1)
  {
    var c := g.options.maxUrls;
    if g.runs != [] {
      ChunksOfFullRuns(g.runs, g.urls, c);
      ChunksOfShort(g.urls, c);
      assert Chunks(g.Added(), c)[..g.mapCount - 1] == g.runs;
      assert Flatten(g.runs) == g.runs[0] + Flatten(g.runs[1..]);
    }
  }

  /**
   * With a ceiling of 10 and eleven records added, `sitemap1.xml` already holds the first ten
   * before `write` is called.
   */
  lemma ElevenWithCeilingTen(g: SitemapGenerator)
    requires g.Valid() && !g.finished && g.options.toFiles
    requires g.options.maxUrls == 10 && |g.Added()| == 11
    ensures g.outFiles == [OutFile(FileName(g.options, 1), DocumentOf(g.options, g.Added()[..10]))]
  {
    FlushedBeforeWrite(g);
    FlattenFullLength(g.runs, 10);
    assert |g.runs| == 1;
    assert Flatten(g.runs) == g.runs[0] + Flatten(g.runs[1..]);
    assert g.Added()[..10] == g.runs[0];
  }
}
