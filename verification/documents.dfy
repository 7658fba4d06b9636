/** The data directory as the pipeline sees it, stage by stage, and what is left in it when a
    job has finished (rinser/jobprocess.go:183-234, 299-363, 400-426). */
module Documents {
  import opened Basics
  import opened JobCore
  import opened Pages
  import opened Text

  /** What a file holds, by provenance. A given file is one that was there before processing. */
  datatype Content =
    | Given(name: string, size: nat)
    | Converted
    | Unfinished(page: nat)
    | Image(page: nat)
    | PageList(text: string)
    | Searchable
    | Scratch

  type Dir = map<string, Content>

  /** The regular files a job starts with. */
  ghost predicate Fresh(dir: Dir) {
    forall n :: n in dir ==> n != "" && dir[n].Given? && dir[n].name == n
  }

  const HSTS := ".wget-hsts"

  /** What overwriting a file and then removing it have reported. Only the removal decides
      whether the file is gone; both errors are joined. */
  datatype Scrub = Scrub(overwriting: Option<Err>, removing: Option<Err>) {
    predicate Kept() {
      removing.Some?
    }

    predicate Clean() {
      overwriting.None? && removing.None?
    }

    /** Of two errors joined, the first stands for both. */
    function Error(): Option<Err> {
      if overwriting.Some? then overwriting else removing
    }
  }

  function Scrubbed(dir: Dir, name: string, s: Scrub): Dir {
    if s.Kept() then dir else dir - {name}
  }

  // ---------------------------------------------------------------- names

  /** The last dot of a file name and what follows it. */
  function Ext(name: string): (e: string)
    ensures |e| <= |name| && name[|name| - |e|..] == e
  {
    if '.' !in name then []
    else
      var last := |name| - 1;
      if name[last] == '.' then "." else Ext(name[..last]) + [name[last]]
  }

  function Map(lower: char -> char, s: string): (r: string)
    ensures |r| == |s|
  {
    if s == [] then [] else Map(lower, s[..|s| - 1]) + [lower(s[|s| - 1])]
  }

  /** What is needed of unicode.ToLower: it makes no dots and leaves small letters alone. */
  ghost predicate Lowers(lower: char -> char) {
    && (forall c :: lower(c) == '.' <==> c == '.')
    && (forall c :: 'a' <= c <= 'z' ==> lower(c) == c)
  }

  function Unquoted(s: string): string {
    if s == [] then []
    else Unquoted(s[..|s| - 1]) + if s[|s| - 1] == '"' then [] else [s[|s| - 1]]
  }

  function ResultNameOf(doc: string): string {
    var ext := Ext(doc);
    Unquoted(doc[..|doc| - |ext|] + "-" + (if "." <= ext then ext[1..] else ext) + "-rinsed.pdf")
  }

  function WorkName(lower: char -> char, doc: string): string {
    "input" + Map(lower, Ext(doc))
  }

  predicate Wanted(name: string) {
    Ext(name) in [".png", ".pdf", ".json"]
  }

  // ---------------------------------------------------------------- the directory, stage by stage

  /** There is exactly one document, it is not empty, and the walk meets it last. */
  ghost predicate Sole(dir: Dir, doc: string) {
    && doc in dir && doc != HSTS
    && dir.Keys <= {doc, HSTS}
    && (HSTS in dir ==> Below(HSTS, doc))
    && dir[doc].Given? && dir[doc].size > 0
  }

  function Cleared(dir: Dir, hsts: Scrub): Dir {
    if HSTS in dir then Scrubbed(dir, HSTS, hsts) else dir
  }

  function Renamed(dir: Dir, from: string, to: string): Dir
    requires from in dir
  {
    (dir - {from})[to := dir[from]]
  }

  /** LibreOffice leaves input.pdf and its own scratch directories. */
  function Converting(dir: Dir): Dir {
    dir["input.pdf" := Converted][".cache" := Scratch][".config" := Scratch]
  }

  function AsPdf(dir: Dir, wrk: string): Dir {
    (if HasSuffix(wrk, ".pdf") then dir else Converting(dir) - {wrk}) - {".cache", ".config"}
  }

  /** pdftoppm writes the first k of count pages. */
  function Rendered(dir: Dir, count: nat, k: nat): Dir {
    if k == 0 then dir else Rendered(dir, count, k - 1)[PageName(k, Width(count)) := Image(k)]
  }

  function Imaged(dir: Dir, count: nat, text: string): Dir {
    (Rendered(dir, count, count) - {"input.pdf"})["output.txt" := PageList(text)]
  }

  function Swept(dir: Dir, sweep: string -> Scrub): Dir {
    map n | n in dir && (Wanted(n) || sweep(n).Kept()) :: dir[n]
  }

  function Ended(dir: Dir, doc: string, sweep: string -> Scrub): Dir
    requires "output.pdf" in dir
  {
    Swept(Renamed(dir, "output.pdf", ResultNameOf(doc)), sweep)
  }

  // ---------------------------------------------------------------- about the names

  /** A dot and no other. */
  ghost predicate Dotted(e: string) {
    |e| > 0 && e[0] == '.' && forall i :: 1 <= i < |e| ==> e[i] != '.'
  }

  lemma ExtOfFront(front: string, c: char)
    ensures c == '.' ==> Ext(front + [c]) == "."
    ensures c != '.' && '.' in front ==> Ext(front + [c]) == Ext(front) + [c]
  {
  }

  lemma {:induction false} ExtOf(base: string, e: string)
    requires Dotted(e)
    ensures Ext(base + e) == e
  {
    hide Ext;
    var n := |e| - 1;
    var front := e[..n];
    assert e == front + [e[n]];
    assert base + e == (base + front) + [e[n]];
    ExtOfFront(base + front, e[n]);
    if n > 0 {
      ExtOf(base, front);
      assert (base + front)[|base|] == '.';
    }
  }

  lemma {:induction false} ExtShape(name: string)
    ensures Ext(name) == [] <==> '.' !in name
    ensures Ext(name) != [] ==> Dotted(Ext(name))
  {
    if '.' in name {
      var last := |name| - 1;
      if name[last] != '.' {
        assert name == name[..last] + [name[last]];
        ExtShape(name[..last]);
      }
    }
  }

  lemma SuffixExt(name: string, e: string)
    requires Dotted(e)
    ensures HasSuffix(name, e) <==> Ext(name) == e
  {
    hide Ext;
    if HasSuffix(name, e) {
      assert name == name[..|name| - |e|] + e;
      ExtOf(name[..|name| - |e|], e);
    }
  }

  lemma {:induction false} MapAt(lower: char -> char, s: string)
    ensures forall i :: 0 <= i < |s| ==> Map(lower, s)[i] == lower(s[i])
  {
    if s != [] {
      MapAt(lower, s[..|s| - 1]);
    }
  }

  lemma WorkExt(lower: char -> char, doc: string)
    requires Lowers(lower)
    ensures Ext(WorkName(lower, doc)) == Map(lower, Ext(doc))
  {
    hide Ext, Map;
    ExtShape(doc);
    WorkExtOf(lower, "input", Ext(doc));
  }

  lemma WorkExtOf(lower: char -> char, stem: string, ext: string)
    requires Lowers(lower) && '.' !in stem && (ext != [] ==> Dotted(ext))
    ensures Ext(stem + Map(lower, ext)) == Map(lower, ext)
  {
    hide Ext, Map;
    var m := Map(lower, ext);
    MapAt(lower, ext);
    if ext == [] {
      assert m == [] && stem + m == stem;
      ExtShape(stem);
    } else {
      assert Dotted(m);
      ExtOf(stem, m);
    }
  }

  /** The working name has a given extension when the document's, in small letters, is that one. */
  lemma WorkShape(lower: char -> char, doc: string, e: string)
    requires Lowers(lower) && Dotted(e)
    ensures HasSuffix(WorkName(lower, doc), e) <==> Map(lower, Ext(doc)) == e
    ensures HasSuffix(WorkName(lower, doc), e) ==> WorkName(lower, doc) == "input" + e
  {
    hide Ext, Map;
    WorkExt(lower, doc);
    SuffixExt(WorkName(lower, doc), e);
  }

  lemma WorkSame(lower: char -> char, doc: string, e: string)
    requires Lowers(lower) && Dotted(e) && HasSuffix(doc, e)
    requires forall i :: 1 <= i < |e| ==> 'a' <= e[i] <= 'z'
    ensures WorkName(lower, doc) == "input" + e
  {
    hide Ext, Map;
    SuffixExt(doc, e);
    MapAt(lower, e);
    assert Map(lower, e) == e;
  }

  lemma {:induction false} UnquotedAppend(a: string, b: string)
    ensures Unquoted(a + b) == Unquoted(a) + Unquoted(b)
  {
    if b == [] {
      assert a + b == a;
    } else {
      UnquotedAppend(a, b[..|b| - 1]);
      assert (a + b)[..|a + b| - 1] == a + b[..|b| - 1];
    }
  }

  lemma {:induction false} UnquotedPlain(s: string)
    requires forall i :: 0 <= i < |s| ==> s[i] != '"'
    ensures Unquoted(s) == s
  {
    if s != [] {
      UnquotedPlain(s[..|s| - 1]);
      assert s == s[..|s| - 1] + [s[|s| - 1]];
    }
  }

  lemma ResultEnds(doc: string)
    ensures HasSuffix(ResultNameOf(doc), "-rinsed.pdf")
  {
    hide Ext, Unquoted;
    var ext := Ext(doc);
    var front := doc[..|doc| - |ext|] + "-" + (if "." <= ext then ext[1..] else ext);
    UnquotedAppend(front, "-rinsed.pdf");
    UnquotedPlain("-rinsed.pdf");
  }

  lemma {:induction false} UnquotedHasNone(s: string)
    ensures '"' !in Unquoted(s)
  {
    if s != [] {
      UnquotedHasNone(s[..|s| - 1]);
    }
  }

  lemma ResultUnquoted(doc: string)
    ensures '"' !in ResultNameOf(doc)
  {
    hide Ext, Unquoted;
    var ext := Ext(doc);
    UnquotedHasNone(doc[..|doc| - |ext|] + "-" + (if "." <= ext then ext[1..] else ext) + "-rinsed.pdf");
  }

  /** For a plain name, stem.ext becomes stem-ext-rinsed.pdf. */
  lemma ResultOfPlainName(stem: string, e: string)
    requires Dotted(e) && '"' !in stem && '"' !in e
    ensures ResultNameOf(stem + e) == stem + "-" + e[1..] + "-rinsed.pdf"
  {
    hide Ext, Unquoted;
    ExtOf(stem, e);
    assert (stem + e)[..|stem|] == stem && "." <= e;
    UnquotedPlain(stem + "-" + e[1..] + "-rinsed.pdf");
  }

  /** Quotes are dropped from both parts; a name without a dot is all stem. */
  lemma ResultOfName(stem: string, e: string)
    requires if e == [] then '.' !in stem else Dotted(e)
    ensures ResultNameOf(stem + e)
         == Unquoted(stem) + "-" + Unquoted(if e == [] then [] else e[1..]) + "-rinsed.pdf"
  {
    hide Ext, Unquoted;
    if e == [] {
      assert stem + e == stem;
      ExtShape(stem);
    } else {
      ExtOf(stem, e);
    }
    assert (stem + e)[..|stem|] == stem;
    var tail := if e == [] then e else e[1..];
    UnquotedAppend(stem + "-" + tail, "-rinsed.pdf");
    UnquotedAppend(stem + "-", tail);
    UnquotedAppend(stem, "-");
    UnquotedPlain("-rinsed.pdf");
    UnquotedPlain("-");
  }

  lemma WantedMeans(name: string)
    ensures Wanted(name) <==> HasSuffix(name, ".png") || HasSuffix(name, ".pdf") || HasSuffix(name, ".json")
  {
    hide Ext;
    SuffixExt(name, ".png");
    SuffixExt(name, ".pdf");
    SuffixExt(name, ".json");
  }

  /** The result's name is that of a PDF file, and none that the pipeline uses itself. */
  lemma ResultShape(doc: string)
    ensures Ext(ResultNameOf(doc)) == ".pdf"
    ensures ResultNameOf(doc) !in {"input.pdf", "output.pdf", "output.txt", HSTS}
    ensures !HasSuffix(ResultNameOf(doc), ".png")
    ensures '"' !in ResultNameOf(doc)
  {
    ResultUnquoted(doc);
    hide Ext, ResultNameOf;
    ResultEnds(doc);
    var name := ResultNameOf(doc);
    var e := name[|name| - 4..];
    assert e == ".pdf" by {
      assert name[|name| - 11..][7..] == e;
    }
    SuffixExt(name, ".pdf");
    SuffixExt(name, ".png");
    OwnExts();
    assert ".pdf"[1] != ".png"[1] || ".pdf"[2] != ".png"[2];
  }

  lemma OwnExts()
    ensures Ext(HSTS) == ".wget-hsts" && Ext("output.txt") == ".txt"
  {
    hide Ext;
    SuffixExt(HSTS, HSTS);
    SuffixExt("output.txt", ".txt");
  }

  lemma OwnNames()
    ensures !Wanted(HSTS) && !Wanted("output.txt")
    ensures !HasSuffix(HSTS, ".png") && !HasSuffix("output.txt", ".png") && !HasSuffix("input.pdf", ".png")
    ensures !HasSuffix("output.pdf", ".png") && !HasSuffix(".cache", ".png") && !HasSuffix(".config", ".png")
  {
    hide Ext;
  }

  // ---------------------------------------------------------------- about the directory

  function PageSet(count: nat): set<string> {
    ToSet(PageNames(count))
  }

  /** The part of a wget session that a failed scrub leaves behind. */
  function Stray(start: Dir, hsts: Scrub): set<string> {
    if HSTS in start && hsts.Kept() then {HSTS} else {}
  }

  /** The page images are the rendered pages, each under its own name. */
  ghost predicate Pictures(dir: Dir, count: nat) {
    forall k :: 1 <= k <= count ==>
      PageName(k, Width(count)) in dir && dir[PageName(k, Width(count))] == Image(k)
  }

  lemma StartsWithO(k: nat, w: nat)
    ensures |PageName(k, w)| > 0 && PageName(k, w)[0] == 'o'
  {
  }

  lemma PageSetShape(count: nat)
    ensures forall n :: n in PageSet(count) ==> HasSuffix(n, ".png") && |n| > 0 && n[0] == 'o'
  {
    hide HasSuffix, Width, PageName;
    PageOrder(count);
    forall n | n in PageSet(count)
      ensures HasSuffix(n, ".png") && |n| > 0 && n[0] == 'o'
    {
      assert n in PageNames(count);
      var i :| 0 <= i < count && n == PageNames(count)[i];
      StartsWithO(i + 1, Width(count));
    }
  }

  lemma OwnNamesNoPages(count: nat)
    ensures "input.pdf" !in PageSet(count) && "output.pdf" !in PageSet(count) && "output.txt" !in PageSet(count)
    ensures "input.png" !in PageSet(count) && HSTS !in PageSet(count)
  {
    hide PageSet, HasSuffix;
    PageSetShape(count);
    OwnNames();
    assert "input.png"[0] == 'i';
  }

  lemma {:induction false} RenderedMeaning(dir: Dir, count: nat, k: nat)
    requires k <= count
    ensures Rendered(dir, count, k).Keys == dir.Keys + ToSet(PageNames(count)[..k])
    ensures forall i :: 1 <= i <= k ==>
              PageName(i, Width(count)) in Rendered(dir, count, k)
              && Rendered(dir, count, k)[PageName(i, Width(count))] == Image(i)
    ensures forall n :: n in dir && n !in ToSet(PageNames(count)[..k]) ==>
              n in Rendered(dir, count, k) && Rendered(dir, count, k)[n] == dir[n]
  {
    hide PageName, Width, PageNames, ToSet;
    if k == 0 {
      NoPages(count);
    } else {
      RenderedMeaning(dir, count, k - 1);
      OneMorePage(count, k);
      forall i | 1 <= i < k
        ensures PageName(i, Width(count)) != PageName(k, Width(count))
      {
        NamesDiffer(i, k, count);
      }
    }
  }

  lemma NoPages(count: nat)
    ensures ToSet(PageNames(count)[..0]) == {}
  {
  }

  lemma OneMorePage(count: nat, k: nat)
    requires 1 <= k <= count
    ensures ToSet(PageNames(count)[..k]) == ToSet(PageNames(count)[..k - 1]) + {PageName(k, Width(count))}
  {
    var names := PageNames(count);
    assert names[..k] == names[..k - 1] + [names[k - 1]];
    ToSetMore(names[..k - 1], names[k - 1]);
  }

  lemma NamesDiffer(i: nat, k: nat, count: nat)
    requires i < k <= count
    ensures PageName(i, Width(count)) != PageName(k, Width(count))
  {
    WidthFits(count);
    NameOrder(i, k, Width(count));
    BelowIrreflexive(PageName(k, Width(count)));
  }

  lemma AfterRename(start: Dir, doc: string, hsts: Scrub, wrk: string)
    requires Sole(start, doc) && wrk != HSTS
    ensures
      var dir := Renamed(Cleared(start, hsts), doc, wrk);
      && dir.Keys == {wrk} + Stray(start, hsts) && dir[wrk] == start[doc]
      && (HSTS in dir ==> dir[HSTS] == start[HSTS])
  {
    hide Below;
  }

  lemma AfterPdf(dir: Dir, wrk: string, stray: set<string>)
    requires dir.Keys == {wrk} + stray && stray <= {HSTS}
    requires wrk !in {HSTS, ".cache", ".config"} && (HasSuffix(wrk, ".pdf") <==> wrk == "input.pdf")
    ensures
      var t := AsPdf(dir, wrk);
      && t.Keys == {"input.pdf"} + stray
      && (HSTS in stray ==> t[HSTS] == dir[HSTS])
      && t["input.pdf"] == if wrk == "input.pdf" then dir[wrk] else Converted
  {
    hide HasSuffix;
  }

  /** After the conversion the directory holds input.pdf and nothing of the document but that. */
  lemma AfterConversion(start: Dir, doc: string, hsts: Scrub, lower: char -> char)
    requires Sole(start, doc) && Lowers(lower)
    ensures doc in Cleared(start, hsts)
    ensures
      var wrk := WorkName(lower, doc);
      var dir := AsPdf(Renamed(Cleared(start, hsts), doc, wrk), wrk);
      && dir.Keys == {"input.pdf"} + Stray(start, hsts)
      && dir["input.pdf"] == (if HasSuffix(wrk, ".pdf") then start[doc] else Converted)
      && (HSTS in dir ==> dir[HSTS] == start[HSTS])
  {
    hide WorkName, AsPdf, Renamed, HasSuffix, Below;
    var wrk := WorkName(lower, doc);
    WorkPdf(lower, doc);
    AfterRename(start, doc, hsts, wrk);
    AfterPdf(Renamed(Cleared(start, hsts), doc, wrk), wrk, Stray(start, hsts));
  }

  lemma WorkPdf(lower: char -> char, doc: string)
    requires Lowers(lower)
    ensures WorkName(lower, doc) !in {HSTS, ".cache", ".config"}
    ensures HasSuffix(WorkName(lower, doc), ".pdf") <==> WorkName(lower, doc) == "input.pdf"
  {
    hide Map, Ext;
    WorkShape(lower, doc, ".pdf");
    assert WorkName(lower, doc)[0] == 'i';
  }

  /** After rendering it holds the page images and the page list, and input.pdf is gone. */
  lemma AfterImages(dir: Dir, count: nat, text: string, stray: set<string>)
    requires dir.Keys == {"input.pdf"} + stray && stray <= {HSTS}
    ensures
      var t := Imaged(dir, count, text);
      && t.Keys == PageSet(count) + {"output.txt"} + stray
      && Pictures(t, count) && t["output.txt"] == PageList(text)
      && (HSTS in stray ==> t[HSTS] == dir[HSTS])
  {
    hide PageName, Width, PageNames, ToSet, Rendered, HasSuffix;
    RenderedMeaning(dir, count, count);
    assert PageNames(count)[..count] == PageNames(count);
    OwnNamesNoPages(count);
    PicturesIn(count);
  }

  /** What a finished job leaves: the result, the page images, and the files named in `left`. */
  ghost predicate Final(dir: Dir, doc: string, count: nat, left: set<string>) {
    && dir.Keys == PageSet(count) + {ResultNameOf(doc)} + left
    && dir[ResultNameOf(doc)] == Searchable
    && Pictures(dir, count)
    && left <= {HSTS, "output.txt"}
    && (forall n :: n in left ==> n in dir && (dir[n].PageList? || (dir[n].Given? && dir[n].name == HSTS)))
  }

  lemma PagesWanted(count: nat)
    ensures forall n :: n in PageSet(count) ==> Wanted(n)
  {
    hide Ext, PageSet;
    PageSetShape(count);
    forall n | n in PageSet(count)
      ensures Wanted(n)
    {
      SuffixExt(n, ".png");
    }
  }

  lemma AfterEnding(dir: Dir, doc: string, count: nat, stray: set<string>, sweep: string -> Scrub)
    requires dir.Keys == PageSet(count) + {"output.txt"} + stray && stray <= {HSTS}
    requires Pictures(dir, count) && dir["output.txt"].PageList?
    requires HSTS in stray ==> dir[HSTS].Given? && dir[HSTS].name == HSTS
    ensures
      var left := set n | n in {"output.txt"} + stray && sweep(n).Kept();
      Final(Ended(dir["output.pdf" := Searchable], doc, sweep), doc, count, left)
  {
    hide Ext, PageSet, PageName, Width, ResultNameOf, HasSuffix, Wanted;
    ResultShape(doc);
    ResultWanted(doc);
    PagesWanted(count);
    OwnNamesNoPages(count);
    OwnNames();
    PicturesIn(count);
  }

  lemma ResultWanted(doc: string)
    ensures Wanted(ResultNameOf(doc))
    ensures forall count: nat :: ResultNameOf(doc) !in PageSet(count)
  {
    hide Ext, PageSet, ResultNameOf;
    ResultShape(doc);
    forall count: nat
      ensures ResultNameOf(doc) !in PageSet(count)
    {
      PageSetShape(count);
    }
  }

  lemma PicturesIn(count: nat)
    ensures forall k :: 1 <= k <= count ==> PageName(k, Width(count)) in PageSet(count)
  {
    forall k | 1 <= k <= count
      ensures PageName(k, Width(count)) in PageSet(count)
    {
      assert PageNames(count)[k - 1] == PageName(k, Width(count));
    }
  }

  /** Nothing of the document or of its conversion is left, and all else is wanted. */
  lemma NothingOfTheDocument(dir: Dir, doc: string, count: nat, left: set<string>)
    requires Final(dir, doc, count, left) && doc != HSTS
    ensures forall n :: n in dir ==> dir[n] != Converted && !(dir[n].Given? && dir[n].name == doc)
    ensures forall n :: n in dir ==> Wanted(n) || n in left
  {
    hide Ext, PageName, Width, ResultNameOf, Wanted;
    ResultWanted(doc);
    PagesWanted(count);
    forall n | n in dir
      ensures dir[n] != Converted && !(dir[n].Given? && dir[n].name == doc)
    {
      if n in PageSet(count) {
        var i :| 0 <= i < count && n == PageNames(count)[i];
        assert n == PageName(i + 1, Width(count));
      }
    }
  }

  /** What may be left besides the result and the pages: files that the final walk could not remove. */
  function Left(start: Dir, hsts: Scrub, sweep: string -> Scrub): set<string> {
    set n | n in {"output.txt"} + Stray(start, hsts) && sweep(n).Kept()
  }

  /** The stages one after the other. */
  lemma WholeRun(start: Dir, doc: string, hsts: Scrub, lower: char -> char, count: nat, text: string,
                 sweep: string -> Scrub)
    requires Fresh(start) && Sole(start, doc) && Lowers(lower) && doc in Cleared(start, hsts)
    ensures
      var wrk := WorkName(lower, doc);
      var pdf := AsPdf(Renamed(Cleared(start, hsts), doc, wrk), wrk);
      var dir := Imaged(pdf, count, text)["output.pdf" := Searchable];
      Final(Ended(dir, doc, sweep), doc, count, Left(start, hsts, sweep))
  {
    hide WorkName, AsPdf, Renamed, HasSuffix, Below, Imaged, PageSet, Pictures, Ended, Final;
    var wrk := WorkName(lower, doc);
    var pdf := AsPdf(Renamed(Cleared(start, hsts), doc, wrk), wrk);
    AfterConversion(start, doc, hsts, lower);
    AfterImages(pdf, count, text, Stray(start, hsts));
    AfterEnding(Imaged(pdf, count, text), doc, count, Stray(start, hsts), sweep);
  }

  lemma PngsOnly(pages: set<string>, others: set<string>)
    requires forall n :: n in pages ==> HasSuffix(n, ".png")
    requires forall n :: n in others ==> !HasSuffix(n, ".png")
    ensures Pngs(others + pages) == pages
  {
    hide HasSuffix;
  }

  lemma PngsAmong(x: string, y: string, stray: set<string>, pages: set<string>)
    requires forall n :: n in pages ==> HasSuffix(n, ".png")
    requires !HasSuffix(x, ".png") && !HasSuffix(y, ".png")
    requires forall n :: n in stray ==> !HasSuffix(n, ".png")
    ensures Pngs({x} + stray + (pages + {y} + stray)) == pages
  {
    hide HasSuffix, Pngs;
    var others := {x} + stray + {y};
    PngsOnly(pages, others);
    assert {x} + stray + (pages + {y} + stray) == others + pages;
  }

  lemma PagesPngs(count: nat, stray: set<string>)
    requires stray <= {HSTS}
    ensures Pngs({"input.pdf"} + stray + (PageSet(count) + {"output.txt"} + stray)) == PageSet(count)
  {
    hide HasSuffix, PageSet, Pngs;
    PageSetShape(count);
    OwnNames();
    PngsAmong("input.pdf", "output.txt", stray, PageSet(count));
  }

  lemma WorkPngs(wrk: string, stray: set<string>)
    requires stray <= {HSTS} && (HasSuffix(wrk, ".png") <==> wrk == "input.png")
    ensures Pngs({wrk} + stray) == if wrk == "input.png" then {"input.png"} else {}
  {
    hide HasSuffix;
    OwnNames();
  }

  lemma EarlyPngs(doc: string, names: set<string>)
    requires names <= {doc, HSTS}
    ensures Pngs(names) <= if HasSuffix(doc, ".png") then {doc} else {}
  {
    hide HasSuffix;
    OwnNames();
  }

  /** The pictures that the looks at the directory can have collected by the time the pages are
      listed are the pages alone, unless the document is itself a picture of that kind. */
  lemma Collected(start: Dir, doc: string, hsts: Scrub, lower: char -> char, count: nat, text: string,
                  early: set<string>)
    requires Fresh(start) && Sole(start, doc) && Lowers(lower) && doc in Cleared(start, hsts)
    requires early <= Pngs(start.Keys)
    ensures
      var wrk := WorkName(lower, doc);
      var moved := Renamed(Cleared(start, hsts), doc, wrk);
      var imaged := Imaged(AsPdf(moved, wrk), count, text);
      var seen := Pngs(Cleared(start, hsts).Keys) + Pngs(moved.Keys);
      var all := early + seen + Pngs(AsPdf(moved, wrk).Keys + imaged.Keys);
      all == PageSet(count) <==> wrk != "input.png"
  {
    hide WorkName, AsPdf, Renamed, HasSuffix, Below, Imaged, PageSet, Pictures, Pngs;
    var wrk := WorkName(lower, doc);
    var moved := Renamed(Cleared(start, hsts), doc, wrk);
    var stray := Stray(start, hsts);
    WorkPdf(lower, doc);
    WorkPng(lower, doc);
    AfterRename(start, doc, hsts, wrk);
    AfterConversion(start, doc, hsts, lower);
    AfterImages(AsPdf(moved, wrk), count, text, stray);
    EarlyPngs(doc, start.Keys);
    EarlyPngs(doc, Cleared(start, hsts).Keys);
    WorkPngs(wrk, stray);
    PagesPngs(count, stray);
    OwnNamesNoPages(count);
  }

  lemma WorkPng(lower: char -> char, doc: string)
    requires Lowers(lower)
    ensures HasSuffix(WorkName(lower, doc), ".png") <==> WorkName(lower, doc) == "input.png"
    ensures HasSuffix(doc, ".png") ==> WorkName(lower, doc) == "input.png"
  {
    hide Map, Ext;
    WorkShape(lower, doc, ".png");
    if HasSuffix(doc, ".png") {
      WorkSame(lower, doc, ".png");
    }
  }
}
