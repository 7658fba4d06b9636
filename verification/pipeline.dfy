/** The goroutine that takes one document through the stages: each stage moves the job's state,
    works on the data directory, and calls tools that are known by what they leave there
    (rinser/jobprocess.go:50-93, 190-257, 299-426). */
module Pipeline {
  import opened Basics
  import opened Documents
  import opened JobCore
  import opened Pages
  import opened Text
  import Tracking

  /** Fetching a document from its address: no file was created, or one was and it holds what had
      come when the fetch ended. */
  datatype Fetch = Refused(reason: Err) | Stored(name: string, size: nat, fault: Option<Err>) {
    function Failure(): Option<Err> {
      if Refused? then Some(reason) else fault
    }
  }

  /** Everything a run depends on that the program does not decide. */
  datatype World = World(
    ctxErrs: nat -> Option<Err>,
    fetch: Option<Fetch>,
    hsts: Scrub,
    statFails: bool,
    metaErr: Option<Err>,
    renameErr: Option<Err>,
    chmodErr: Option<Err>,
    convertErr: Option<Err>,
    docScrub: Scrub,
    cacheScrub: Scrub,
    configScrub: Scrub,
    pages: nat,
    watcher: nat -> bool,
    renderErr: Option<Err>,
    partial: nat,
    pdfScrub: Scrub,
    listErr: Option<Err>,
    lines: seq<Tracking.Line>,
    ocrErr: Option<Err>,
    resultErr: Option<Err>,
    sweep: string -> Scrub)

  function Arrived(dir: Dir, fetch: Option<Fetch>): Dir {
    if fetch.Some? && fetch.value.Stored? then
      dir[fetch.value.name := Given(fetch.value.name, fetch.value.size)]
    else dir
  }

  predicate Fetched(fetch: Option<Fetch>) {
    fetch.Some? ==> fetch.value.Stored? && fetch.value.fault.None?
  }

  // ---------------------------------------------------------------- where a run stops

  /** The error that a run gives up with, and the state it does so in. */
  datatype Stop = Stop(at: JobState, err: Err)

  /** An error met in some state stops the run there; otherwise what comes next decides. */
  function Before(at: JobState, err: Option<Err>, next: Option<Stop>): Option<Stop> {
    if err.Some? then Some(Stop(at, err.value)) else next
  }

  /** What transition makes of the context's error and the state it finds. */
  function Moves(ctxErr: Option<Err>, at: JobState, from: JobState): Option<Err> {
    ctxErr.Or(if at == from then None else Some(WrongState(from, at)))
  }

  function FetchErr(fetch: Option<Fetch>): Option<Err> {
    if fetch.None? then None else fetch.value.Failure()
  }

  /** What the walk in search of the document finds wrong: a file after the document, or no
      document with a size. */
  ghost function WalkErr(dir: Dir, statFails: bool): Option<Err>
    requires Documents.Fresh(dir)
  {
    if exists a, b :: a in dir && b in dir && a != HSTS && Below(a, b) then
      Some(StageError("multiple documents found"))
    else if statFails || forall d :: d in dir && d != HSTS ==> dir[d].size == 0 then
      Some(StageError("no document found"))
    else None
  }

  function TroubleErr(trouble: Option<Tracking.Trouble>): Option<Err> {
    match trouble
    case None => None
    case Some(SeenTwice) => Some(StageError("image file seen twice"))
    case Some(Reported(line)) => Some(StageError(line))
  }

  ghost predicate NeedsConversion(start: Dir, lower: char -> char) {
    exists doc :: Sole(start, doc) && !HasSuffix(WorkName(lower, doc), ".pdf")
  }

  /** Where the first half of the chain stops, if anywhere: everything that may go wrong, in the
      order in which it is met, with the state the job is then in. */
  ghost function FirstHalf(w: World, lower: char -> char, dir: Dir): Option<Stop>
    requires Documents.Fresh(Arrived(dir, w.fetch))
  {
    var converts := NeedsConversion(Arrived(dir, w.fetch), lower);
    Before(Starting, w.ctxErrs(1),
    Before(Download, FetchErr(w.fetch),
    Before(Download, WalkErr(Arrived(dir, w.fetch), w.statFails),
    Before(Download, w.ctxErrs(2),
    Before(ExtractMeta, w.metaErr,
    Before(ExtractMeta, w.renameErr,
    Before(ExtractMeta, w.chmodErr,
    Before(ExtractMeta, w.ctxErrs(3),
    Before(DetectLanguage, w.ctxErrs(4),
    Before(DocToPdf, if converts then w.convertErr else None,
    Before(DocToPdf, if converts then w.docScrub.Error() else None,
    Before(DocToPdf, w.cacheScrub.Error(),
    Before(DocToPdf, w.configScrub.Error(), None)))))))))))))
  }

  /** And where the second half does. */
  function SecondHalf(w: World, trouble: Option<Tracking.Trouble>): Option<Stop> {
    Before(DocToPdf, w.ctxErrs(5),
    Before(PdfToImages, w.renderErr,
    Before(PdfToImages, w.pdfScrub.Error(),
    Before(PdfToImages, w.listErr,
    Before(PdfToImages, w.ctxErrs(6),
    Before(Tesseract, TroubleErr(trouble),
    Before(Tesseract, w.ocrErr,
    Before(Tesseract, w.ctxErrs(7),
    Before(Ending, w.resultErr,
    Before(Ending, w.ctxErrs(8), None))))))))))
  }

  /** Up to input.pdf no tool, no file operation and no check of the context reports an error. */
  ghost predicate SmoothStart(w: World, lower: char -> char, dir: Dir) {
    && w.ctxErrs(1).None? && w.ctxErrs(2).None? && w.ctxErrs(3).None? && w.ctxErrs(4).None?
    && Fetched(w.fetch) && !w.statFails
    && (exists doc ::
          && Sole(Arrived(dir, w.fetch), doc)
          && (!HasSuffix(WorkName(lower, doc), ".pdf") ==> w.convertErr.None? && w.docScrub.Clean()))
    && w.metaErr.None? && w.renameErr.None? && w.chmodErr.None?
    && w.cacheScrub.Clean() && w.configScrub.Clean()
  }

  /** The same from input.pdf on, tesseract's own complaints aside. */
  ghost predicate SmoothEnd(w: World) {
    && w.ctxErrs(5).None? && w.ctxErrs(6).None? && w.ctxErrs(7).None? && w.ctxErrs(8).None?
    && w.renderErr.None? && w.pdfScrub.Clean() && w.listErr.None?
    && w.ocrErr.None? && w.resultErr.None?
  }

  /** The directory once the document has its working name. */
  function Moved(dir: Dir, w: World, lower: char -> char, doc: string): Dir
    requires doc in Cleared(Arrived(dir, w.fetch), w.hsts)
  {
    Renamed(Cleared(Arrived(dir, w.fetch), w.hsts), doc, WorkName(lower, doc))
  }

  /** The pictures collected by the transitions up to then. */
  function Early(img: map<string, bool>, dir: Dir, w: World, lower: char -> char, doc: string): map<string, bool>
    requires doc in Cleared(Arrived(dir, w.fetch), w.hsts)
  {
    var moved := Moved(dir, w, lower, doc).Keys;
    Refreshed(Refreshed(Refreshed(Refreshed(img, dir.Keys), Cleared(Arrived(dir, w.fetch), w.hsts).Keys), moved), moved)
  }

  class Worker {
    const job: Job
    const book: Book
    const lower: char -> char
    var dir: Dir
    var docName: string
    var pdfName: string

    constructor (job: Job, book: Book, lower: char -> char, dir: Dir)
      ensures this.job == job && this.book == book && this.lower == lower && this.dir == dir
    {
      this.job, this.book, this.lower, this.dir := job, book, lower, dir;
      docName, pdfName := "", "";
    }

    /** transition, with the look at the data directory that follows it. */
    method Advance(ctxErr: Option<Err>, from: JobState, to: JobState) returns (err: Option<Err>)
      modifies job`state, book
      ensures err == Moves(ctxErr, old(job.state), from)
      ensures err.None? <==> ctxErr.None? && old(job.state) == from
      ensures job.state == if err.None? then to else old(job.state)
      ensures book.img == if ctxErr.None? then Refreshed(old(book.img), dir.Keys) else old(book.img)
    {
      err := job.Transition(ctxErr, from, to);
      if ctxErr.None? {
        var entries := Sorted(dir.Keys);
        book.Refresh(entries);
      }
    }

    /** scrub, for one file of the directory: no error is reported unless the file is gone, an
        error of the removal alone means that it is not, and no other file is touched. */
    method Remove(name: string, s: Scrub) returns (err: Option<Err>)
      modifies this`dir
      ensures err.None? ==> name !in dir
      ensures name in dir <==> name in old(dir) && s.Kept()
      ensures forall n :: n != name ==> (n in dir <==> n in old(dir))
      ensures forall n :: n in dir ==> dir[n] == old(dir)[n]
      ensures err.None? <==> s.Clean()
      ensures err == s.Error() && err == if s.overwriting.Some? then s.overwriting else s.removing
      ensures dir == Scrubbed(old(dir), name, s)
    {
      err := s.overwriting;
      if s.removing.None? {
        dir := dir - {name};
      }
      err := err.Or(s.removing);
    }

    method RunDownload(ctxErr: Option<Err>, fetch: Option<Fetch>) returns (err: Option<Err>)
      modifies this`dir, job`state, book
      ensures err.None? <==> ctxErr.None? && old(job.state) == Starting && Fetched(fetch)
      ensures
        var moves := Moves(ctxErr, old(job.state), Starting);
        && err == moves.Or(FetchErr(fetch))
        && job.state == (if moves.None? then Download else old(job.state))
        && (moves.None? && fetch.Some? && fetch.value.Stored? ==>
              var f := fetch.value; dir == old(dir)[f.name := Given(f.name, f.size)])
        && (moves.Some? || fetch.None? || fetch.value.Refused? ==> dir == old(dir))
      ensures err.None? ==>
                && job.state == Download && dir == Arrived(old(dir), fetch)
                && book.img == Refreshed(old(book.img), old(dir).Keys)
    {
      err := Advance(ctxErr, Starting, Download);
      if err.None? && fetch.Some? {
        match fetch.value {
          case Stored(name, size, fault) =>
            dir := dir[name := Given(name, size)];
            err := fault;
          case Refused(reason) =>
            err := Some(reason);
        }
      }
    }

    /** The walk over the data directory in search of the document. */
    method RunDocumentName(hsts: Scrub, statFails: bool) returns (doc: string, wrk: string, err: Option<Err>)
      requires Documents.Fresh(dir)
      modifies this
      ensures err == WalkErr(old(dir), statFails)
      ensures err.None? ==>
                && !statFails && Sole(old(dir), doc) && dir == Cleared(old(dir), hsts)
                && wrk == WorkName(lower, doc) && docName == doc && pdfName == ResultNameOf(doc)
      ensures err.Some? && !statFails ==> forall d :: !Sole(old(dir), d)
      ensures err.Some? ==>
                && dir in {old(dir), Cleared(old(dir), hsts)}
                && docName == old(docName) && pdfName == old(pdfName)
    {
      hide Sole, Ascending, Below, Ext, Map, Unquoted, ResultNameOf, WorkName, WalkErr;
      ghost var start := dir;
      var names := Sorted(dir.Keys);
      doc, wrk, err := "", "", None;
      var size := 0;
      var i := 0;
      while i < |names|
        invariant 0 <= i <= |names| && docName == old(docName) && pdfName == old(pdfName)
        invariant forall k :: 0 <= k < (if doc == "" then i else i - 1) ==> names[k] == HSTS
        invariant doc == "" || (i > 0 && doc == names[i - 1] && doc != HSTS && doc in start
                                && size == if statFails then 0 else start[doc].size)
        invariant dir == if HSTS in names[..i] then Scrubbed(start, HSTS, hsts) else start
      {
        assert names[i] in ToSet(names);
        assert names[..i + 1] == names[..i] + [names[i]];
        if doc != "" {
          OtherFile(start, names, i, statFails);
          err := Some(StageError("multiple documents found"));
          return;
        }
        if names[i] == HSTS {
          HstsOnce(names, i);
          var ignored := Remove(HSTS, hsts);
        } else {
          doc := names[i];
          size := if statFails then 0 else dir[names[i]].size;
        }
        i := i + 1;
      }
      assert names[..|names|] == names;
      WalkEnds(start, names, doc, statFails);
      if doc == "" || size < 1 {
        err := Some(StageError("no document found"));
      } else {
        docName := doc;
        pdfName := ResultNameOf(doc);
        wrk := WorkName(lower, doc);
      }
    }

    method RunExtractMeta(ctxErr: Option<Err>, metaErr: Option<Err>) returns (err: Option<Err>)
      modifies job`state, book
      ensures err.None? <==> ctxErr.None? && old(job.state) == Download && metaErr.None?
      ensures
        var moves := Moves(ctxErr, old(job.state), Download);
        err == moves.Or(metaErr) && job.state == if moves.None? then ExtractMeta else old(job.state)
      ensures err.None? ==> book.img == Refreshed(old(book.img), dir.Keys)
    {
      err := Advance(ctxErr, Download, ExtractMeta);
      if err.None? {
        err := metaErr;
      }
    }

    method RenameDoc(doc: string, wrk: string, renameErr: Option<Err>, chmodErr: Option<Err>) returns (err: Option<Err>)
      requires doc in dir
      modifies this`dir
      ensures err == renameErr.Or(chmodErr)
      ensures dir == if renameErr.None? then Renamed(old(dir), doc, wrk) else old(dir)
    {
      err := renameErr;
      if err.None? {
        dir := (dir - {doc})[wrk := dir[doc]];
        err := chmodErr;
      }
    }

    /** The languages found are the subject of module Language. */
    method RunDetectLanguage(ctxErr: Option<Err>) returns (err: Option<Err>)
      modifies job`state, book
      ensures err == Moves(ctxErr, old(job.state), ExtractMeta)
      ensures job.state == if err.None? then DetectLanguage else old(job.state)
      ensures err.None? ==> book.img == Refreshed(old(book.img), dir.Keys)
    {
      err := Advance(ctxErr, ExtractMeta, DetectLanguage);
    }

    method WaitForDocToPdf(wrk: string, convertErr: Option<Err>, docScrub: Scrub) returns (err: Option<Err>)
      modifies this`dir
      ensures err == if HasSuffix(wrk, ".pdf") then None else convertErr.Or(docScrub.Error())
      ensures dir == if HasSuffix(wrk, ".pdf") || convertErr.Some? then old(dir)
                     else Scrubbed(Converting(old(dir)), wrk, docScrub)
      ensures err.None? ==> dir == if HasSuffix(wrk, ".pdf") then old(dir) else Converting(old(dir)) - {wrk}
    {
      err := None;
      if !HasSuffix(wrk, ".pdf") {
        err := convertErr;
        if err.None? {
          dir := dir["input.pdf" := Converted][".cache" := Scratch][".config" := Scratch];
          err := Remove(wrk, docScrub);
        }
      }
    }

    method RunDocToPdf(ctxErr: Option<Err>, wrk: string, convertErr: Option<Err>,
                       docScrub: Scrub, cacheScrub: Scrub, configScrub: Scrub)
      returns (err: Option<Err>)
      modifies this`dir, job`state, book
      ensures err.None? <==>
                && ctxErr.None? && old(job.state) == DetectLanguage
                && (!HasSuffix(wrk, ".pdf") ==> convertErr.None? && docScrub.Clean())
                && cacheScrub.Clean() && configScrub.Clean()
      ensures
        var moves := Moves(ctxErr, old(job.state), DetectLanguage);
        var converting := if HasSuffix(wrk, ".pdf") then None else convertErr.Or(docScrub.Error());
        && err == moves.Or(converting).Or(cacheScrub.Error()).Or(configScrub.Error())
        && job.state == (if moves.None? then DocToPdf else old(job.state))
      ensures err.None? ==>
                && dir == AsPdf(old(dir), wrk)
                && book.img == Refreshed(old(book.img), old(dir).Keys)
    {
      err := Advance(ctxErr, DetectLanguage, DocToPdf);
      if err.None? {
        err := WaitForDocToPdf(wrk, convertErr, docScrub);
        if err.None? {
          ghost var left := dir;
          err := Remove(".cache", cacheScrub);
          if err.None? {
            err := Remove(".config", configScrub);
            assert left - {".cache"} - {".config"} == left - {".cache", ".config"};
          }
        }
      }
    }

    /** pdftoppm writes one page after the other while a watcher looks in now and then, also when
        a page is only half written; if it fails, some pages may have been written, and one more
        begun. */
    method WaitForPdfToImages(count: nat, watcher: nat -> bool, renderErr: Option<Err>, partial: nat)
      returns (err: Option<Err>)
      modifies this`dir, book
      ensures err == renderErr
      ensures renderErr.None? ==> dir == Rendered(old(dir), count, count)
      ensures renderErr.Some? ==> dir == Broken(old(dir), count, partial)
      ensures Between(old(book.img), book.img, dir.Keys)
    {
      hide Between, PageName, Width;
      NothingCollected(book.img, dir.Keys);
      var upto := if renderErr.None? || count < partial then count else partial;
      var k := 0;
      while k < upto
        invariant 0 <= k <= upto
        invariant dir == Rendered(old(dir), count, k)
        invariant Between(old(book.img), book.img, dir.Keys)
      {
        k := k + 1;
        ghost var before := dir;
        WriteFile(PageName(k, Width(count)), Unfinished(k), watcher(2 * k), old(book.img));
        WriteFile(PageName(k, Width(count)), Image(k), watcher(2 * k + 1), old(book.img));
        assert dir == before[PageName(k, Width(count)) := Image(k)];
      }
      if upto < count {
        WriteFile(PageName(upto + 1, Width(count)), Unfinished(upto + 1), watcher(2 * upto + 2), old(book.img));
      }
      err := renderErr;
    }

    /** A file appears or is finished, and the watcher may look. */
    method WriteFile(name: string, content: Content, looks: bool, ghost img: map<string, bool>)
      requires Between(img, book.img, dir.Keys)
      modifies this`dir, book
      ensures dir == old(dir)[name := content] && Between(img, book.img, dir.Keys)
      ensures book.img == if looks then Refreshed(old(book.img), dir.Keys) else old(book.img)
    {
      ghost var before := dir;
      dir := dir[name := content];
      BetweenMore(img, book.img, before.Keys, dir.Keys);
      hide Between, Refreshed;
      if looks {
        var entries := Sorted(dir.Keys);
        book.Refresh(entries);
      }
    }

    method RunPdfToImages(ctxErr: Option<Err>, count: nat, watcher: nat -> bool,
                          renderErr: Option<Err>, partial: nat, pdfScrub: Scrub, listErr: Option<Err>)
      returns (listed: seq<string>, err: Option<Err>)
      modifies this`dir, job`state, book
      ensures err.None? <==>
                && ctxErr.None? && old(job.state) == DocToPdf
                && renderErr.None? && pdfScrub.Clean() && listErr.None?
      ensures
        var moves := Moves(ctxErr, old(job.state), DocToPdf);
        && err == moves.Or(renderErr).Or(pdfScrub.Error()).Or(listErr)
        && job.state == (if moves.None? then PdfToImages else old(job.state))
      ensures err.None? ==>
                && dir == Imaged(old(dir), count, Listing(listed))
                && Ascending(listed) && ToSet(listed) == book.img.Keys
                && book.img == Refreshed(old(book.img), old(dir).Keys + dir.Keys)
    {
      listed := [];
      err := Advance(ctxErr, DocToPdf, PdfToImages);
      if err.None? {
        ghost var first := book.img;
        err := WaitForPdfToImages(count, watcher, renderErr, partial);
        if err.None? {
          ghost var rendered, mid := dir, book.img;
          err := Remove("input.pdf", pdfScrub);
          if err.None? {
            var entries := Sorted(dir.Keys);
            book.Refresh(entries);
            err := listErr;
            if err.None? {
              var text;
              listed, text := book.MakeOutputTxt();
              dir := dir["output.txt" := PageList(text)];
              AllCollected(old(book.img), first, mid, book.img, old(dir).Keys, rendered.Keys, dir.Keys);
            }
          }
        }
      }
    }

    method RunTesseract(ctxErr: Option<Err>, lines: seq<Tracking.Line>, ocrErr: Option<Err>)
      returns (trouble: Option<Tracking.Trouble>, handled: nat, err: Option<Err>)
      modifies this`dir, job`state, book
      ensures err.None? <==> ctxErr.None? && old(job.state) == PdfToImages && trouble.None? && ocrErr.None?
      ensures
        var moves := Moves(ctxErr, old(job.state), PdfToImages);
        && err == moves.Or(TroubleErr(trouble)).Or(ocrErr)
        && (moves.Some? ==> trouble.None?)
        && (moves.None? && trouble == Some(Tracking.SeenTwice) ==> err == Some(StageError("image file seen twice")))
        && (moves.None? ==> forall s :: trouble == Some(Tracking.Reported(s)) ==> err == Some(StageError(s)))
        && job.state == (if moves.None? then Tesseract else old(job.state))
      ensures dir == if err.None? then old(dir)["output.pdf" := Searchable] else old(dir)
      ensures handled <= |lines|
      ensures ctxErr.None? && old(job.state) == PdfToImages ==>
                && (trouble.None? ==> handled == |lines|)
                && Tracking.MayAll(Refreshed(old(book.img), old(dir).Keys), lines[..handled], book.img, trouble)
    {
      trouble, handled := None, 0;
      err := Advance(ctxErr, PdfToImages, Tesseract);
      if err.None? {
        trouble, handled := Tracking.HandleAll(book, lines);
        if trouble.Some? {
          err := TroubleErr(trouble);
        } else {
          err := ocrErr;
          if err.None? {
            dir := dir["output.pdf" := Searchable];
          }
        }
      }
    }

    method JobEnding(ctxErr: Option<Err>, resultErr: Option<Err>, sweep: string -> Scrub) returns (err: Option<Err>)
      requires "output.pdf" in dir && pdfName == ResultNameOf(docName)
      modifies this`dir, job`state, book
      ensures err.None? <==> ctxErr.None? && old(job.state) == Tesseract && resultErr.None?
      ensures
        var moves := Moves(ctxErr, old(job.state), Tesseract);
        && err == moves.Or(resultErr)
        && job.state == (if moves.None? then Ending else old(job.state))
      ensures dir == if err.None? then Ended(old(dir), docName, sweep) else old(dir)
    {
      err := Advance(ctxErr, Tesseract, Ending);
      if err.None? {
        err := resultErr;
        if err.None? {
          dir := (dir - {"output.pdf"})[pdfName := dir["output.pdf"]];
          Sweep(sweep);
        }
      }
    }

    /** The final walk: whatever is not a picture, a PDF or JSON goes, errors being ignored. */
    method Sweep(sweep: string -> Scrub)
      modifies this`dir
      ensures dir == Swept(old(dir), sweep)
    {
      hide Wanted, Ascending, Below;
      var names := Sorted(dir.Keys);
      var i := 0;
      while i < |names|
        invariant 0 <= i <= |names|
        invariant dir.Keys <= old(dir).Keys
        invariant forall n :: n in dir ==> dir[n] == old(dir)[n]
        invariant forall n :: n in old(dir) ==>
          (n in dir <==> n !in names[..i] || Wanted(n) || sweep(n).Kept())
      {
        assert names[..i + 1] == names[..i] + [names[i]];
        if !Wanted(names[i]) {
          var ignored := Remove(names[i], sweep(names[i]));
        }
        i := i + 1;
      }
      assert names[..|names|] == names;
      assert forall n :: n in ToSet(names) ==> n in names;
    }

    /** The first six stages: from the document as it arrived to input.pdf. */
    method Prepare(w: World) returns (doc: string, err: Option<Err>)
      requires job.state == Starting && Documents.Fresh(Arrived(dir, w.fetch))
      modifies this, job`state, book
      ensures err.None? <==> SmoothStart(w, lower, old(dir))
      ensures
        var stop := FirstHalf(w, lower, old(dir));
        if err.Some? then stop == Some(Stop(job.state, err.value)) else stop.None? && job.state == DocToPdf
      ensures err.None? ==>
                && docName == doc && pdfName == ResultNameOf(doc)
                && Sole(Arrived(old(dir), w.fetch), doc)
                && doc in Cleared(Arrived(old(dir), w.fetch), w.hsts)
                && dir == AsPdf(Moved(old(dir), w, lower, doc), WorkName(lower, doc))
                && book.img == Early(old(book.img), old(dir), w, lower, doc)
    {
      hide Arrived, Fetched, Sole, Cleared, Renamed, AsPdf, WorkName, ResultNameOf, Refreshed, HasSuffix;
      hide Documents.Fresh, Scrubbed, Converting, Pngs;
      ghost var start := Arrived(dir, w.fetch);
      doc := "";
      var wrk;
      err := RunDownload(w.ctxErrs(1), w.fetch);
      if err.None? {
        doc, wrk, err := RunDocumentName(w.hsts, w.statFails);
        if err.None? {
          DocumentStays(start, doc, w.hsts);
          err := RunExtractMeta(w.ctxErrs(2), w.metaErr);
          if err.None? {
            err := RenameDoc(doc, wrk, w.renameErr, w.chmodErr);
            if err.None? {
              err := RunDetectLanguage(w.ctxErrs(3));
              if err.None? {
                err := RunDocToPdf(w.ctxErrs(4), wrk, w.convertErr, w.docScrub, w.cacheScrub, w.configScrub);
              }
            }
          }
        }
      }
    }

    /** The other four: from input.pdf to the finished job. */
    method Produce(w: World)
      returns (listed: seq<string>, trouble: Option<Tracking.Trouble>, handled: nat, err: Option<Err>)
      requires job.state == DocToPdf && pdfName == ResultNameOf(docName)
      modifies this`dir, job`state, book
      ensures
        var stop := SecondHalf(w, trouble);
        if err.Some? then stop == Some(Stop(job.state, err.value)) else stop.None? && job.state == Finished
      ensures err.None? <==> SmoothEnd(w) && trouble.None?
      ensures SmoothEnd(w) ==>
                && Ascending(listed)
                && var imaged := Imaged(old(dir), w.pages, Listing(listed));
                   var img := Refreshed(old(book.img), old(dir).Keys + imaged.Keys);
                   && ToSet(listed) == img.Keys
                   && handled <= |w.lines| && (trouble.None? ==> handled == |w.lines|)
                   && (exists after :: Tracking.MayAll(Refreshed(img, imaged.Keys), w.lines[..handled], after, trouble))
                   && (err.None? ==> dir == Ended(imaged["output.pdf" := Searchable], docName, w.sweep))
    {
      hide Imaged, Ended, Listing, Ascending, ToSet, Refreshed, ResultNameOf, Pngs, TroubleErr, Tracking.MayAll;
      listed, trouble, handled := [], None, 0;
      listed, err := RunPdfToImages(w.ctxErrs(5), w.pages, w.watcher, w.renderErr, w.partial,
                                    w.pdfScrub, w.listErr);
      if err.None? {
        trouble, handled, err := RunTesseract(w.ctxErrs(6), w.lines, w.ocrErr);
        if err.None? {
          err := JobEnding(w.ctxErrs(7), w.resultErr, w.sweep);
          if err.None? {
            err := Advance(w.ctxErrs(8), Ending, Finished);
          }
        }
      }
    }

    /** The whole chain. The processDone that follows it is part of JobCore. */
    method Process(w: World) returns (listed: seq<string>, trouble: Option<Tracking.Trouble>)
      requires job.state == Starting && Lowers(lower) && Documents.Fresh(Arrived(dir, w.fetch))
      requires book.img.Keys <= Pngs(dir.Keys) && Tracking.Seen(book.img) == {}
      modifies this, job, book
      ensures Terminal(job.state)
      ensures job.state == Finished <==> SmoothStart(w, lower, old(dir)) && SmoothEnd(w) && trouble.None?
      ensures SmoothStart(w, lower, old(dir)) && SmoothEnd(w) ==>
                && Ascending(listed)
                && (listed == PageNames(w.pages) <==> WorkName(lower, docName) != "input.png")
                && (Tracking.AllNameOne(w.lines, ToSet(listed)) ==>
                      (trouble.None? <==> NoRepeats(Tracking.Named(w.lines, ToSet(listed)))))
      ensures job.state == Finished ==>
                && Sole(Arrived(old(dir), w.fetch), docName)
                && Final(dir, docName, w.pages, Left(Arrived(old(dir), w.fetch), w.hsts, w.sweep))
      ensures
        var stop := FirstHalf(w, lower, old(dir)).Or(SecondHalf(w, trouble));
        if stop.None? then job.state == Finished && job.error == old(job.error)
        else
          && job.state == Failed && job.errstate == stop.value.at
          && job.error == if old(job.error).Some? then old(job.error) else Some(stop.value.err)
    {
      hide Arrived, Fetched, Sole, Cleared, Early, AsPdf, Imaged, Ended, Left, Final, WorkName, ResultNameOf,
        Refreshed, Pngs, PageNames, Listing, Ascending, ToSet, HasSuffix, SmoothStart, SmoothEnd, FirstHalf, SecondHalf,
        Lowers, NoRepeats, Tracking.AllNameOne, Tracking.Named, Tracking.Seen, Tracking.MayAll;
      listed, trouble := [], None;
      ghost var dir0, img0 := dir, book.img;
      var doc, err := Prepare(w);
      if err.None? {
        ghost var dir4, img4 := dir, book.img;
        var handled;
        listed, trouble, handled, err := Produce(w);
        if SmoothEnd(w) {
          ListedPages(dir0, img0, w, lower, doc, listed);
          TroubleMeans(dir0, img0, w, lower, doc, listed, handled, trouble);
        }
        if err.None? {
          WholeRun(Arrived(dir0, w.fetch), doc, w.hsts, lower, w.pages, Listing(listed), w.sweep);
          return;
        }
      }
      job.Fail(err.value);
    }
  }

  // ---------------------------------------------------------------- about single stages

  lemma OtherFile(start: Dir, names: seq<string>, i: nat, statFails: bool)
    requires Documents.Fresh(start) && Ascending(names) && ToSet(names) == start.Keys
    requires 0 < i < |names| && names[i - 1] != HSTS
    ensures WalkErr(start, statFails) == Some(StageError("multiple documents found"))
    ensures forall d :: !Sole(start, d)
  {
    hide Below;
    assert names[i - 1] in ToSet(names) && names[i] in ToSet(names);
    assert Below(names[i - 1], names[i]);
    BelowIrreflexive(names[i]);
    BelowAsymmetric(names[i - 1], names[i]);
  }

  lemma HstsOnce(names: seq<string>, i: nat)
    requires Ascending(names) && i < |names|
    ensures names[i] !in names[..i]
  {
    forall k | 0 <= k < i
      ensures names[k] != names[i]
    {
      BelowIrreflexive(names[i]);
    }
  }

  lemma WalkEnds(start: Dir, names: seq<string>, doc: string, statFails: bool)
    requires Documents.Fresh(start) && Ascending(names) && ToSet(names) == start.Keys
    requires forall k :: 0 <= k < (if doc == "" then |names| else |names| - 1) ==> names[k] == HSTS
    requires doc == "" || (|names| > 0 && doc == names[|names| - 1] && doc != HSTS)
    ensures doc == "" || start[doc].size == 0 ==> forall d :: !Sole(start, d)
    ensures doc != "" && start[doc].size > 0 ==> Sole(start, doc)
    ensures HSTS in names <==> HSTS in start
    ensures WalkErr(start, statFails)
         == if doc == "" || statFails || start[doc].size == 0 then Some(StageError("no document found")) else None
  {
    hide Below;
    assert forall n :: n in start ==> n in ToSet(names);
    forall a, b | a in start && b in start && a != HSTS
      ensures !Below(a, b)
    {
      BelowIrreflexive(a);
      BelowAsymmetric(a, b);
    }
  }

  /** What a failed pdftoppm leaves: the pages written, and the one it was writing. */
  function Broken(dir: Dir, count: nat, partial: nat): Dir {
    if count <= partial then Rendered(dir, count, count)
    else Rendered(dir, count, partial)[PageName(partial + 1, Width(count)) := Unfinished(partial + 1)]
  }

  /** Those are all the pages rendered, their names in the directory, and under the next name the
      page that was being written, if there was one left to write. All else is as it was. */
  lemma BrokenMeans(dir: Dir, count: nat, partial: nat)
    ensures
      var t, k := Broken(dir, count, partial), if partial < count then partial else count;
      var upto := if partial < count then partial + 1 else count;
      && t.Keys == dir.Keys + ToSet(PageNames(count)[..upto])
      && (forall i :: 1 <= i <= k ==>
            PageName(i, Width(count)) in t && t[PageName(i, Width(count))] == Image(i))
      && (partial < count ==>
            PageName(upto, Width(count)) in t && t[PageName(upto, Width(count))] == Unfinished(upto))
      && (forall n :: n in dir && n !in ToSet(PageNames(count)[..upto]) ==> n in t && t[n] == dir[n])
  {
    hide PageName, Width, PageNames, ToSet, Rendered;
    if partial < count {
      RenderedMeaning(dir, count, partial);
      OneMorePage(count, partial + 1);
      forall i | 1 <= i <= partial
        ensures PageName(i, Width(count)) != PageName(partial + 1, Width(count))
      {
        NamesDiffer(i, partial + 1, count);
      }
    } else {
      RenderedMeaning(dir, count, count);
    }
  }

  /** Names collected while `entries` were all there was to collect. */
  ghost predicate Between(img: map<string, bool>, after: map<string, bool>, entries: set<string>) {
    && img.Keys <= after.Keys <= img.Keys + Pngs(entries)
    && forall n :: n in after ==> after[n] == if n in img then img[n] else false
  }

  lemma NothingCollected(img: map<string, bool>, entries: set<string>)
    ensures Between(img, img, entries)
  {
  }

  lemma BetweenMore(img: map<string, bool>, after: map<string, bool>, entries: set<string>, more: set<string>)
    requires Between(img, after, entries) && entries <= more
    ensures Between(img, after, more) && Between(img, Refreshed(after, more), more)
  {
  }

  lemma AllCollected(img: map<string, bool>, first: map<string, bool>, mid: map<string, bool>, last: map<string, bool>,
                     before: set<string>, rendered: set<string>, after: set<string>)
    requires first == Refreshed(img, before) && Between(first, mid, rendered)
    requires last == Refreshed(mid, rendered - {"input.pdf"})
    requires after == rendered - {"input.pdf"} + {"output.txt"}
    ensures last == Refreshed(img, before + after)
  {
    SamePngs(rendered, after);
    hide HasSuffix;
    assert Pngs(before + after) == Pngs(before) + Pngs(after);
  }

  lemma SamePngs(rendered: set<string>, after: set<string>)
    requires after == rendered - {"input.pdf"} + {"output.txt"}
    ensures Pngs(rendered) == Pngs(rendered - {"input.pdf"}) == Pngs(after)
  {
    hide HasSuffix;
    OwnNames();
  }

  lemma DocumentStays(start: Dir, doc: string, hsts: Scrub)
    requires Sole(start, doc)
    ensures doc in Cleared(start, hsts)
    ensures forall d :: Sole(start, d) ==> d == doc
  {
    hide Below;
  }

  lemma ArrivedMore(dir: Dir, fetch: Option<Fetch>)
    ensures dir.Keys <= Arrived(dir, fetch).Keys
  {
  }

  lemma RefreshedKeys(img: map<string, bool>, entries: set<string>)
    ensures Refreshed(img, entries).Keys == img.Keys + Pngs(entries)
    ensures Tracking.Seen(Refreshed(img, entries)) == Tracking.Seen(img)
  {
  }

  lemma MorePngs(a: set<string>, b: set<string>)
    requires a <= b
    ensures Pngs(a) <= Pngs(b)
  {
  }

  lemma EarlyKeys(img: map<string, bool>, dir: Dir, w: World, lower: char -> char, doc: string)
    requires doc in Cleared(Arrived(dir, w.fetch), w.hsts) && img.Keys <= Pngs(dir.Keys)
    ensures Early(img, dir, w, lower, doc).Keys
         == Pngs(dir.Keys) + Pngs(Cleared(Arrived(dir, w.fetch), w.hsts).Keys) + Pngs(Moved(dir, w, lower, doc).Keys)
    ensures Tracking.Seen(Early(img, dir, w, lower, doc)) == Tracking.Seen(img)
  {
    hide Arrived, Cleared, Moved, Refreshed, Pngs, Tracking.Seen;
    var moved := Moved(dir, w, lower, doc).Keys;
    var cleared := Cleared(Arrived(dir, w.fetch), w.hsts).Keys;
    var a := Refreshed(img, dir.Keys);
    var b := Refreshed(a, cleared);
    RefreshedKeys(img, dir.Keys);
    RefreshedKeys(a, cleared);
    RefreshedKeys(b, moved);
    RefreshedKeys(Refreshed(b, moved), moved);
  }

  lemma ListedPages(dir: Dir, img: map<string, bool>, w: World, lower: char -> char, doc: string, listed: seq<string>)
    requires Lowers(lower) && Documents.Fresh(Arrived(dir, w.fetch)) && Sole(Arrived(dir, w.fetch), doc)
    requires doc in Cleared(Arrived(dir, w.fetch), w.hsts) && img.Keys <= Pngs(dir.Keys)
    requires Ascending(listed)
    requires
      var pdf := AsPdf(Moved(dir, w, lower, doc), WorkName(lower, doc));
      ToSet(listed)
        == Refreshed(Early(img, dir, w, lower, doc), pdf.Keys + Imaged(pdf, w.pages, Listing(listed)).Keys).Keys
    ensures listed == PageNames(w.pages) <==> WorkName(lower, doc) != "input.png"
  {
    hide Arrived, Sole, Cleared, Early, AsPdf, Imaged, WorkName, Refreshed, Pngs, Ascending, ToSet, Listing, PageNames;
    var start := Arrived(dir, w.fetch);
    ArrivedMore(dir, w.fetch);
    MorePngs(dir.Keys, start.Keys);
    Collected(start, doc, w.hsts, lower, w.pages, Listing(listed), Pngs(dir.Keys));
    EarlyKeys(img, dir, w, lower, doc);
    var pdf := AsPdf(Moved(dir, w, lower, doc), WorkName(lower, doc));
    RefreshedKeys(Early(img, dir, w, lower, doc), pdf.Keys + Imaged(pdf, w.pages, Listing(listed)).Keys);
    if ToSet(listed) == PageSet(w.pages) {
      OutputTxtInPageOrder(listed, w.pages);
    }
  }

  lemma TroubleMeans(dir: Dir, img: map<string, bool>, w: World, lower: char -> char, doc: string,
                     listed: seq<string>, handled: nat, trouble: Option<Tracking.Trouble>)
    requires doc in Cleared(Arrived(dir, w.fetch), w.hsts) && img.Keys <= Pngs(dir.Keys)
    requires Tracking.Seen(img) == {} && handled <= |w.lines| && (trouble.None? ==> handled == |w.lines|)
    requires
      var pdf := AsPdf(Moved(dir, w, lower, doc), WorkName(lower, doc));
      var imaged := Imaged(pdf, w.pages, Listing(listed));
      var img5 := Refreshed(Early(img, dir, w, lower, doc), pdf.Keys + imaged.Keys);
      && ToSet(listed) == img5.Keys
      && exists after :: Tracking.MayAll(Refreshed(img5, imaged.Keys), w.lines[..handled], after, trouble)
    ensures Tracking.AllNameOne(w.lines, ToSet(listed)) ==>
              (trouble.None? <==> NoRepeats(Tracking.Named(w.lines, ToSet(listed))))
  {
    hide Arrived, Cleared, Early, AsPdf, Imaged, WorkName, Refreshed, Pngs, ToSet, Listing,
      Tracking.MayAll, Tracking.Seen, Tracking.AllNameOne, Tracking.Named, NoRepeats;
    var pdf := AsPdf(Moved(dir, w, lower, doc), WorkName(lower, doc));
    var imaged := Imaged(pdf, w.pages, Listing(listed));
    var img5 := Refreshed(Early(img, dir, w, lower, doc), pdf.Keys + imaged.Keys);
    EarlyKeys(img, dir, w, lower, doc);
    RefreshedKeys(Early(img, dir, w, lower, doc), pdf.Keys + imaged.Keys);
    RefreshedKeys(img5, imaged.Keys);
    MorePngs(imaged.Keys, pdf.Keys + imaged.Keys);
    assert Refreshed(img5, imaged.Keys).Keys == ToSet(listed);
    if Tracking.AllNameOne(w.lines, ToSet(listed)) {
      var after :| Tracking.MayAll(Refreshed(img5, imaged.Keys), w.lines[..handled], after, trouble);
      Tracking.PagesAreSeenOnce(Refreshed(img5, imaged.Keys), w.lines, handled, after, trouble);
    }
  }

  /** `.wget-hsts` is passed over only if the walk meets it before the document: a directory with
      these two files has a sole document exactly when the document's name sorts higher. */
  lemma HstsComesFirst(dir: Dir, doc: string, size: nat)
    requires dir.Keys == {doc, HSTS} && doc != HSTS && dir[doc] == Given(doc, size) && size > 0
    ensures forall d :: Sole(dir, d) <==> d == doc && Below(HSTS, doc)
  {
    hide Below;
  }

  function BothFiles(size: nat): Dir {
    map["-" := Given("-", size), HSTS := Given(HSTS, 1)]
  }

  /** The walk refuses such a directory when the document is called "-". */
  lemma HstsAfterDocument(size: nat)
    requires size > 0
    ensures Documents.Fresh(BothFiles(size)) && forall d :: !Sole(BothFiles(size), d)
  {
    assert "-"[0] < HSTS[0];
    assert !Below(HSTS, "-");
    assert BothFiles(size).Keys == {"-", HSTS};
    HstsComesFirst(BothFiles(size), "-", size);
  }
}
