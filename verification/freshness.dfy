/** What the looks at the data directory of a job find, from its arrival to its end, and when
    the previews of its pages are fresh (rinser/job.go:266-291, rinser/jobpreview.go:18-32). */
module Freshness {
  import opened Basics
  import opened Documents
  import opened Pages
  import opened Text
  import P = Preview
  import C = PreviewCache

  /** When the directory is looked at: by a transition, by the watcher after k pages, or late. */
  datatype Moment =
    | Waiting
    | Arriving
    | Choosing
    | Working
    | Converting
    | Rendering(k: nat)
    | Listing
    | Reading
    | Ending

  /** What decides the directory's content at all of them. */
  datatype Course = Course(
    start: Dir,
    doc: string,
    hsts: Scrub,
    lower: char -> char,
    count: nat,
    text: string,
    sweep: string -> Scrub)

  /** A run with one document, which is not a .png. How far it comes is left open. */
  ghost predicate Plain(c: Course) {
    && Fresh(c.start) && Sole(c.start, c.doc) && c.doc in Cleared(c.start, c.hsts) && Lowers(c.lower)
    && WorkName(c.lower, c.doc) != "input.png"
  }

  ghost function Moved(c: Course): Dir
    requires Plain(c)
  {
    Renamed(Cleared(c.start, c.hsts), c.doc, WorkName(c.lower, c.doc))
  }

  ghost function Pdf(c: Course): Dir
    requires Plain(c)
  {
    AsPdf(Moved(c), WorkName(c.lower, c.doc))
  }

  ghost function DirAt(m: Moment, c: Course): Dir
    requires Plain(c)
  {
    match m
    case Waiting => map[]
    case Arriving => c.start
    case Choosing => Cleared(c.start, c.hsts)
    case Working => Moved(c)
    case Converting => Pdf(c)
    case Rendering(k) => Rendered(Pdf(c), c.count, k)
    case Listing => Imaged(Pdf(c), c.count, c.text)
    case Reading => Imaged(Pdf(c), c.count, c.text)["output.pdf" := Searchable]
    case Ending => Ended(Imaged(Pdf(c), c.count, c.text)["output.pdf" := Searchable], c.doc, c.sweep)
  }

  function PagesAt(m: Moment, count: nat): nat {
    match m
    case Waiting => 0
    case Arriving => 0
    case Choosing => 0
    case Working => 0
    case Converting => 0
    case Rendering(k) => if k < count then k else count
    case Listing => count
    case Reading => count
    case Ending => count
  }

  predicate Possible(m: Moment, count: nat) {
    m.Rendering? ==> m.k <= count
  }

  function FirstPages(count: nat, k: nat): set<string>
    requires k <= count
  {
    ToSet(PageNames(count)[..k])
  }

  lemma AllPages(count: nat)
    ensures FirstPages(count, count) == PageSet(count) && FirstPages(count, 0) == {}
  {
    assert PageNames(count)[..count] == PageNames(count);
  }

  lemma FirstPagesPng(count: nat, k: nat)
    requires k <= count
    ensures forall n :: n in FirstPages(count, k) ==> HasSuffix(n, ".png")
  {
    hide HasSuffix;
    PageOrder(count);
    forall n | n in FirstPages(count, k)
      ensures HasSuffix(n, ".png")
    {
      var i :| 0 <= i < k && PageNames(count)[..k][i] == n;
      assert PageNames(count)[i] in PageNames(count);
    }
  }

  lemma EarlyLook(m: Moment, c: Course)
    requires Plain(c) && (m.Waiting? || m.Arriving? || m.Choosing? || m.Working?)
    ensures Pngs(DirAt(m, c).Keys) == {}
  {
    hide WorkName, Renamed, HasSuffix, Below, Pngs, Lowers;
    WorkPng(c.lower, c.doc);
    EarlyPngs(c.doc, DirAt(Waiting, c).Keys);
    EarlyPngs(c.doc, c.start.Keys);
    EarlyPngs(c.doc, Cleared(c.start, c.hsts).Keys);
    WorkPdf(c.lower, c.doc);
    AfterRename(c.start, c.doc, c.hsts, WorkName(c.lower, c.doc));
    WorkPngs(WorkName(c.lower, c.doc), Stray(c.start, c.hsts));
  }

  lemma PdfHolds(c: Course)
    requires Plain(c)
    ensures Pdf(c).Keys == {"input.pdf"} + Stray(c.start, c.hsts)
    ensures forall n :: n in Pdf(c).Keys ==> !HasSuffix(n, ".png")
  {
    hide WorkName, AsPdf, Renamed, HasSuffix, Below, Lowers;
    AfterConversion(c.start, c.doc, c.hsts, c.lower);
    OwnNames();
  }

  lemma RenderingLook(c: Course, k: nat)
    requires Plain(c) && k <= c.count
    ensures Pngs(Rendered(Pdf(c), c.count, k).Keys) == FirstPages(c.count, k)
  {
    hide Plain, Pngs, Rendered, HasSuffix, PageNames;
    PdfHolds(c);
    RenderedMeaning(Pdf(c), c.count, k);
    FirstPagesPng(c.count, k);
    PngsOnly(FirstPages(c.count, k), Pdf(c).Keys);
  }

  lemma PagesAmong(pages: set<string>, x: string, rest: set<string>, all: set<string>)
    requires forall n :: n in pages ==> HasSuffix(n, ".png")
    requires !HasSuffix(x, ".png") && forall n :: n in rest ==> !HasSuffix(n, ".png")
    requires all == pages + {x} + rest
    ensures Pngs(all) == pages
  {
    hide HasSuffix, Pngs;
    PngsOnly(pages, {x} + rest);
    assert all == {x} + rest + pages;
  }

  lemma ImagedHolds(c: Course)
    requires Plain(c)
    ensures
      var dir := Imaged(Pdf(c), c.count, c.text);
      dir.Keys == PageSet(c.count) + {"output.txt"} + Stray(c.start, c.hsts)
    ensures forall n :: n in PageSet(c.count) ==> HasSuffix(n, ".png")
    ensures forall n :: n in Stray(c.start, c.hsts) ==> !HasSuffix(n, ".png")
  {
    hide Plain, Pdf, Imaged, HasSuffix, PageSet, Pictures;
    PdfHolds(c);
    AfterImages(Pdf(c), c.count, c.text, Stray(c.start, c.hsts));
    PageSetShape(c.count);
    OwnNames();
  }

  lemma TxtIsNoPicture()
    ensures !HasSuffix("output.txt", ".png")
  {
    OwnNames();
  }

  lemma PdfIsNoPicture(entries: set<string>)
    ensures Pngs(entries + {"output.pdf"}) == Pngs(entries)
  {
    OneMore(entries, "output.pdf");
  }

  lemma OneMore(entries: set<string>, x: string)
    ensures !HasSuffix(x, ".png") ==> Pngs(entries + {x}) == Pngs(entries)
  {
    hide HasSuffix;
  }

  lemma LeftIsNoPicture(c: Course)
    ensures forall n :: n in Left(c.start, c.hsts, c.sweep) ==> !HasSuffix(n, ".png")
  {
    hide HasSuffix;
    OwnNames();
  }

  lemma ListingLook(c: Course)
    requires Plain(c)
    ensures Pngs(DirAt(Listing, c).Keys) == PageSet(c.count)
  {
    hide Plain, Pdf, Imaged, HasSuffix, PageSet, Pngs, Stray;
    ImagedHolds(c);
    TxtIsNoPicture();
    PagesAmong(PageSet(c.count), "output.txt", Stray(c.start, c.hsts), DirAt(Listing, c).Keys);
  }

  lemma ReadingLook(c: Course)
    requires Plain(c)
    ensures Pngs(DirAt(Reading, c).Keys) == PageSet(c.count)
  {
    ListingLook(c);
    hide Plain, Pdf, Imaged, HasSuffix, PageSet, Pngs;
    PdfIsNoPicture(DirAt(Listing, c).Keys);
    assert DirAt(Reading, c).Keys == DirAt(Listing, c).Keys + {"output.pdf"};
  }

  lemma EndingLook(c: Course)
    requires Plain(c)
    ensures Pngs(DirAt(Ending, c).Keys) == PageSet(c.count)
  {
    hide WorkName, AsPdf, Renamed, Imaged, HasSuffix, PageSet, Pngs, ResultNameOf, Ended, Below, Lowers, Pictures;
    hide Left, Sole, Cleared, Ext;
    WholeRun(c.start, c.doc, c.hsts, c.lower, c.count, c.text, c.sweep);
    ImagedHolds(c);
    ResultShape(c.doc);
    LeftIsNoPicture(c);
    PagesAmong(PageSet(c.count), ResultNameOf(c.doc), Left(c.start, c.hsts, c.sweep), DirAt(Ending, c).Keys);
  }

  /** Whenever the directory is looked at, the pictures in it are the pages rendered so far. A late
      look of the watcher, after pdftoppm has ended, finds nothing that is not collected. */
  lemma LooksFindPages(m: Moment, c: Course)
    requires Plain(c) && Possible(m, c.count)
    ensures Pngs(DirAt(m, c).Keys) == FirstPages(c.count, PagesAt(m, c.count))
  {
    hide Plain, DirAt, Pngs, FirstPages;
    AllPages(c.count);
    match m
    case Rendering(k) => RenderingLook(c, k); RenderingDir(c, k);
    case Converting => RenderingLook(c, 0); RenderingDir(c, 0);
    case Listing => ListingLook(c);
    case Reading => ReadingLook(c);
    case Ending => EndingLook(c);
    case _ => EarlyLook(m, c);
  }

  lemma RenderingDir(c: Course, k: nat)
    requires Plain(c)
    ensures DirAt(Rendering(k), c) == Rendered(Pdf(c), c.count, k)
    ensures DirAt(Converting, c) == Rendered(Pdf(c), c.count, 0)
  {
    hide Plain;
  }

  // ---------------------------------------------------------------- previews of a real job

  /** What joins is what some look has found. Looks may be inserted in another order than they were
      made in. */
  ghost predicate Watched(steps: seq<C.Step>, whens: seq<Moment>, c: Course)
    requires Plain(c)
  {
    && |steps| == |whens|
    && (forall i :: 0 <= i < |steps| ==> Possible(whens[i], c.count))
    && (forall i :: 0 <= i < |steps| && steps[i].Collect? ==> steps[i].names == Pngs(DirAt(whens[i], c).Keys))
  }

  lemma FewerPages(count: nat, k: nat, m: nat)
    requires k <= m <= count
    ensures FirstPages(count, k) + FirstPages(count, m) == FirstPages(count, m)
  {
    hide PageNames;
    var names := PageNames(count);
    forall n | n in FirstPages(count, k)
      ensures n in FirstPages(count, m)
    {
      var i :| 0 <= i < k && names[..k][i] == n;
      assert names[..m][i] == n;
    }
  }

  lemma {:induction false} CollectedSoFar(steps: seq<C.Step>, whens: seq<Moment>, c: Course, n: nat, start: P.Disk)
    returns (k: nat)
    requires Plain(c) && Watched(steps, whens, c) && n <= |steps|
    ensures k <= c.count && C.Run(steps[..n], start).pages == FirstPages(c.count, k)
  {
    hide Plain, DirAt, Pngs, FirstPages, PageNames, P.Drawing, InOrder;
    if n == 0 {
      k := 0;
      AllPages(c.count);
    } else {
      k := CollectedSoFar(steps, whens, c, n - 1, start);
      assert steps[..n][..n - 1] == steps[..n - 1];
      if steps[n - 1].Collect? {
        LooksFindPages(whens[n - 1], c);
        k := Joined(c.count, k, PagesAt(whens[n - 1], c.count));
      }
    }
  }

  lemma Joined(count: nat, k: nat, m: nat) returns (j: nat)
    requires k <= count && m <= count
    ensures j <= count && FirstPages(count, k) + FirstPages(count, m) == FirstPages(count, j)
    ensures C.Joining(FirstPages(count, k), FirstPages(count, m))
  {
    hide FirstPages, PageNames, P.AllAfter;
    if k <= m {
      j := m;
      FewerPages(count, k, m);
      JoiningPages(count, k, m);
    } else {
      j := k;
      FewerPages(count, m, k);
      NothingJoins(FirstPages(count, k), FirstPages(count, m));
    }
  }

  lemma JoiningPages(count: nat, k: nat, m: nat)
    requires k <= m <= count
    ensures C.Joining(FirstPages(count, k), FirstPages(count, m))
  {
    hide PageNames, P.AllAfter;
    FewerPages(count, k, m);
    P.PagesJoinInTurn(count, k, m);
  }

  lemma NothingJoins(pages: set<string>, names: set<string>)
    requires names + pages == pages
    ensures C.Joining(pages, names) && pages + names == pages
  {
    hide Below;
    assert pages + names == pages;
  }

  /** Whichever order the looks are inserted in, the pages join in turn. */
  lemma WatchedInTurn(steps: seq<C.Step>, whens: seq<Moment>, c: Course, start: P.Disk)
    requires Plain(c) && Watched(steps, whens, c)
    ensures C.InTurn(steps, start)
  {
    hide Plain, DirAt, Pngs, PageNames, FirstPages, C.Run, C.Joining;
    forall i | 0 <= i < |steps| && steps[i].Collect?
      ensures C.Joining(C.Run(steps[..i], start).pages, steps[i].names)
    {
      var k := CollectedSoFar(steps, whens, c, i, start);
      LooksFindPages(whens[i], c);
      var _ := Joined(c.count, k, PagesAt(whens[i], c.count));
    }
  }

  /** A job whose document is not a .png: however requests, the stages, the watcher's looks and the
      writing of the pages are interleaved, what the cache answers is what drawing the first pages
      would give now exactly when it shows all of them that can be decoded now. */
  lemma JobPreviewMeans(steps: seq<C.Step>, whens: seq<Moment>, c: Course, start: P.Disk, numPages: int, imgWidth: int)
    requires Plain(c) && Watched(steps, whens, c) && C.Lawful(steps, start, None)
    ensures
      var s := C.Run(steps, start);
      var (p, w, hit) := C.LookSec(|s.pages|, s.cache, numPages, imgWidth);
      var names := InOrder(s.pages)[..p];
      hit.Some? ==> (hit == P.Drawing(names, w, s.disk) <==> C.Complete(hit.value, names, s.disk))
  {
    hide Plain, Watched, C.InTurn, C.Lawful, C.Run, C.Complete, P.Drawing, InOrder;
    WatchedInTurn(steps, whens, c, start);
    C.HitMeans(steps, start, numPages, imgWidth);
  }

  /** Such a job's previews are fresh if the pages are written in turn, and every request that
      draws asks for fewer pages than have been collected, or comes when all are finished. */
  lemma PreviewsOfJobsAreFresh(steps: seq<C.Step>, whens: seq<Moment>, c: Course, start: P.Disk,
                               numPages: int, imgWidth: int)
    requires Plain(c) && Watched(steps, whens, c) && C.Lawful(steps, start, None)
    requires forall k :: 0 <= k < |steps| ==> C.Careful(C.Run(steps[..k], start), steps[k], C.Run(steps, start).disk)
    ensures
      var s := C.Run(steps, start);
      var (p, w, hit) := C.LookSec(|s.pages|, s.cache, numPages, imgWidth);
      hit.Some? ==> hit == P.Drawing(InOrder(s.pages)[..p], w, s.disk)
  {
    hide Plain, Watched, C.InTurn, C.Lawful, C.Run, C.Careful, P.Drawing, InOrder;
    WatchedInTurn(steps, whens, c, start);
    C.CarefulIsFresh(steps, start, numPages, imgWidth);
  }

  /** The exception is real: in every such job with a page, a request that comes while the first
      page is being written caches a preview without it. */
  lemma FirstPageMayBeMissed(c: Course, early: P.Disk, late: P.Disk) returns (steps: seq<C.Step>, whens: seq<Moment>)
    requires Plain(c) && c.count > 0
    requires early(PageNames(c.count)[0]).Garbled? && late(PageNames(c.count)[0]).Shown?
    ensures Watched(steps, whens, c) && C.Lawful(steps, early, None)
    ensures
      var s := C.Run(steps, early);
      var (p, w, hit) := C.LookSec(|s.pages|, s.cache, 1, 96);
      s.disk == late && hit.Some? && hit != P.Drawing(InOrder(s.pages)[..p], w, late)
  {
    hide Plain, DirAt, Pngs, PageNames, C.Run, C.Lawful, C.InTurn, C.LookSec, P.Drawing, InOrder;
    var b := PageNames(c.count)[0];
    steps := C.UnfinishedPageIsMissed(b, early, late);
    whens := [Rendering(1), Rendering(1), Rendering(1), Rendering(1)];
    LooksFindPages(Rendering(1), c);
    assert PageNames(c.count)[..1] == [b];
  }
}
