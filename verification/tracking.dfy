/** Following tesseract's progress: a line of its standard error that names a page marks the
    page as seen, and a page named twice stops the run (rinser/jobprocess.go:365-387). */
module Tracking {
  import opened Basics
  import opened Pages
  import opened Text

  datatype Trouble = SeenTwice | Reported(line: string)

  predicate At(s: string, i: int, sub: string) {
    0 <= i <= |s| - |sub| && s[i..i + |sub|] == sub
  }

  predicate Contains(s: string, sub: string) {
    exists i :: 0 <= i <= |s| && At(s, i, sub)
  }

  /** A string contains those that stand somewhere between its beginning and its end. */
  lemma ContainsMeans(s: string, sub: string)
    ensures Contains(s, sub) <==> exists a, b :: s == a + sub + b
  {
    if Contains(s, sub) {
      var i :| 0 <= i <= |s| && At(s, i, sub);
      var a, b := s[..i], s[i + |sub|..];
      assert s == a + sub + b;
    }
    if exists a, b :: s == a + sub + b {
      var a, b :| s == a + sub + b;
      assert s[|a|..|a| + |sub|] == sub;
      assert At(s, |a|, sub);
    }
  }

  datatype Line = Line(text: string, isOut: bool)

  /** A page that the line could be about. Lines of standard output are about none. */
  predicate Names(line: Line, pages: set<string>, fn: string) {
    !line.isOut && fn in pages && Contains(line.text, fn)
  }

  function TroubleOf(line: Line): Trouble {
    if Contains(line.text, "file not found") then Reported(line.text) else SeenTwice
  }

  /** What one call of the handler may do, whichever page the map iteration meets first. */
  ghost predicate May(img: map<string, bool>, line: Line, after: map<string, bool>, err: Option<Trouble>) {
    || ((forall fn :: !Names(line, img.Keys, fn)) && after == img && err.None?)
    || (exists fn :: Names(line, img.Keys, fn) && Marks(img, line, fn, after, err))
  }

  ghost predicate Marks(img: map<string, bool>, line: Line, fn: string, after: map<string, bool>, err: Option<Trouble>)
    requires fn in img
  {
    if img[fn] then after == img && err == Some(TroubleOf(line))
    else after == img[fn := true] && err.None?
  }

  /** The handler. The choice of the next page is arbitrary, as a map iteration's is. */
  method HandleLine(book: Book, line: Line) returns (err: Option<Trouble>)
    modifies book
    ensures line.isOut ==> err.None? && book.img == old(book.img)
    ensures err.Some? ==>
              && book.img == old(book.img)
              && err.value == (if Contains(line.text, "file not found") then Reported(line.text) else SeenTwice)
              && exists fn :: fn in book.img && Contains(line.text, fn) && book.img[fn]
    ensures err.None? && !line.isOut ==>
              if book.img == old(book.img) then forall fn :: fn in book.img ==> !Contains(line.text, fn)
              else exists fn :: fn in old(book.img) && Contains(line.text, fn) && !old(book.img)[fn]
                                && book.img == old(book.img)[fn := true]
    ensures May(old(book.img), line, book.img, err)
  {
    hide Contains, May;
    err := None;
    if line.isOut {
      NothingNamed(book.img, line);
    } else {
      var rest := book.img.Keys;
      while rest != {}
        invariant rest <= book.img.Keys && book.img == old(book.img)
        invariant forall fn :: fn in book.img.Keys - rest ==> !Names(line, book.img.Keys, fn)
      {
        var fn :| fn in rest;
        if Contains(line.text, fn) {
          MeetsFirst(book.img, line, fn);
          if book.img[fn] {
            if Contains(line.text, "file not found") {
              return Some(Reported(line.text));
            }
            return Some(SeenTwice);
          }
          book.img := book.img[fn := true];
          return;
        }
        rest := rest - {fn};
      }
      assert forall fn :: fn in book.img.Keys ==> !Names(line, book.img.Keys, fn);
      NothingNamed(book.img, line);
    }
  }

  lemma NothingNamed(img: map<string, bool>, line: Line)
    requires forall fn :: !Names(line, img.Keys, fn)
    ensures May(img, line, img, None)
  {
  }

  /** Feeding lines until the first error. */
  method HandleAll(book: Book, lines: seq<Line>) returns (err: Option<Trouble>, handled: nat)
    modifies book
    ensures handled <= |lines| && (err.None? ==> handled == |lines|)
    ensures MayAll(old(book.img), lines[..handled], book.img, err)
  {
    err, handled := None, 0;
    while handled < |lines| && err.None?
      invariant handled <= |lines|
      invariant MayAll(old(book.img), lines[..handled], book.img, err)
    {
      err := HandleLine(book, lines[handled]);
      assert lines[..handled + 1][..handled] == lines[..handled];
      handled := handled + 1;
    }
  }

  ghost predicate MayAll(img: map<string, bool>, lines: seq<Line>, after: map<string, bool>, err: Option<Trouble>) {
    if lines == [] then after == img && err.None?
    else
      var n := |lines| - 1;
      exists mid :: MayAll(img, lines[..n], mid, None) && May(mid, lines[n], after, err)
  }

  // ---------------------------------------------------------------- lines that name one page

  ghost predicate NamesOne(line: Line, pages: set<string>) {
    forall f, g :: Names(line, pages, f) && Names(line, pages, g) ==> f == g
  }

  ghost predicate AllNameOne(lines: seq<Line>, pages: set<string>) {
    forall k :: 0 <= k < |lines| ==> NamesOne(lines[k], pages)
  }

  /** The names of the pages that the lines are about, in order. */
  ghost function Named(lines: seq<Line>, pages: set<string>): seq<string> {
    if lines == [] then []
    else
      var n := |lines| - 1;
      Named(lines[..n], pages) + NamedBy(lines[n], pages)
  }

  ghost function NamedBy(line: Line, pages: set<string>): seq<string> {
    if fn :| Names(line, pages, fn) then [fn] else []
  }

  ghost function Seen(img: map<string, bool>): set<string> {
    set fn | fn in img && img[fn]
  }

  lemma MayKeepsKeys(img: map<string, bool>, line: Line, after: map<string, bool>, err: Option<Trouble>)
    requires May(img, line, after, err)
    ensures after.Keys == img.Keys
  {
  }

  /** One line that names at most one page: it is refused exactly when it names a page already
      seen, and otherwise its page joins the seen ones. */
  lemma OneLine(img: map<string, bool>, line: Line, after: map<string, bool>, err: Option<Trouble>)
    requires NamesOne(line, img.Keys) && May(img, line, after, err)
    ensures err.None? <==> ToSet(NamedBy(line, img.Keys)) !! Seen(img)
    ensures err.None? ==> Seen(after) == Seen(img) + ToSet(NamedBy(line, img.Keys))
    ensures err.Some? ==> after == img && err == Some(TroubleOf(line))
  {
    if fn :| Names(line, img.Keys, fn) {
      assert NamedBy(line, img.Keys) == [fn] && ToSet([fn]) == {fn};
    } else {
      assert NamedBy(line, img.Keys) == [];
    }
  }

  /** The order in which the map is iterated does not matter. */
  lemma OneOutcome(img: map<string, bool>, line: Line, after: map<string, bool>, err: Option<Trouble>,
                   after': map<string, bool>, err': Option<Trouble>)
    requires NamesOne(line, img.Keys) && May(img, line, after, err) && May(img, line, after', err')
    ensures after == after' && err == err'
  {
  }

  /** Whichever page the map iteration meets first, the outcome is the same. */
  ghost predicate Settled(img: map<string, bool>, line: Line) {
    forall after, err, after', err' :: May(img, line, after, err) && May(img, line, after', err') ==>
      after == after' && err == err'
  }

  ghost predicate AllSeen(img: map<string, bool>, line: Line) {
    forall fn :: Names(line, img.Keys, fn) ==> img[fn]
  }

  /** Meeting an unseen page first marks it; meeting a seen one first refuses the line. */
  lemma MeetsFirst(img: map<string, bool>, line: Line, fn: string)
    requires Names(line, img.Keys, fn)
    ensures img[fn] ==> May(img, line, img, Some(TroubleOf(line)))
    ensures !img[fn] ==> May(img, line, img[fn := true], None)
  {
    if img[fn] {
      assert Marks(img, line, fn, img, Some(TroubleOf(line)));
    } else {
      assert Marks(img, line, fn, img[fn := true], None);
    }
  }

  lemma AllSeenSettles(img: map<string, bool>, line: Line, after: map<string, bool>, err: Option<Trouble>,
                       fn: string)
    requires AllSeen(img, line) && Names(line, img.Keys, fn) && May(img, line, after, err)
    ensures after == img && err == Some(TroubleOf(line))
  {
  }

  /** The outcome does not depend on the iteration exactly when the line names at most one page,
      or only pages already seen. */
  lemma SettledMeans(img: map<string, bool>, line: Line)
    ensures Settled(img, line) <==> NamesOne(line, img.Keys) || AllSeen(img, line)
  {
    if NamesOne(line, img.Keys) {
      forall after, err, after', err' | May(img, line, after, err) && May(img, line, after', err')
        ensures after == after' && err == err'
      {
        OneOutcome(img, line, after, err, after', err');
      }
    } else {
      hide May, TroubleOf;
      var f, g :| Names(line, img.Keys, f) && Names(line, img.Keys, g) && f != g;
      if AllSeen(img, line) {
        forall after, err, after', err' | May(img, line, after, err) && May(img, line, after', err')
          ensures after == after' && err == err'
        {
          AllSeenSettles(img, line, after, err, f);
          AllSeenSettles(img, line, after', err', f);
        }
      } else {
        var u :| Names(line, img.Keys, u) && !img[u];
        TwoNamesTwoOutcomes(img, line, u, if u == f then g else f);
      }
    }
  }

  lemma TwoNamesTwoOutcomes(img: map<string, bool>, line: Line, u: string, other: string)
    requires Names(line, img.Keys, u) && Names(line, img.Keys, other) && u != other && !img[u]
    ensures !Settled(img, line)
  {
    hide May, TroubleOf;
    MeetsFirst(img, line, u);
    MeetsFirst(img, line, other);
    assert img[u := true][u];
    if !img[other] {
      assert !img[other := true][u];
    }
  }

  /** No page is named twice, or after it had been seen. */
  ghost predicate Fresh(named: seq<string>, seen: set<string>) {
    NoRepeats(named) && ToSet(named) !! seen
  }

  lemma NoRepeatsMore(named: seq<string>, n: string)
    ensures NoRepeats(named + [n]) <==> NoRepeats(named) && n !in named
  {
    var all := named + [n];
    assert forall i :: 0 <= i < |named| ==> all[i] == named[i];
    assert all[|named|] == n;
  }

  lemma FreshMore(named: seq<string>, more: seq<string>, seen: set<string>)
    requires |more| <= 1
    ensures Fresh(named + more, seen) <==> Fresh(named, seen) && ToSet(more) !! seen + ToSet(named)
    ensures ToSet(named + more) == ToSet(named) + ToSet(more)
  {
    if more == [] {
      assert named + more == named;
    } else {
      assert more == [more[0]];
      NoRepeatsMore(named, more[0]);
      assert ToSet(more) == {more[0]};
    }
  }

  lemma {:induction false} LinesMeaning(img: map<string, bool>, lines: seq<Line>, after: map<string, bool>,
                                      err: Option<Trouble>)
    requires AllNameOne(lines, img.Keys) && MayAll(img, lines, after, err)
    ensures after.Keys == img.Keys
    ensures err.None? <==> Fresh(Named(lines, img.Keys), Seen(img))
    ensures err.None? ==> Seen(after) == Seen(img) + ToSet(Named(lines, img.Keys))
    ensures err.Some? ==> lines != [] && err == Some(TroubleOf(lines[|lines| - 1]))
    decreases |lines|
  {
    hide May, NamesOne, NamedBy, Fresh, ToSet, Seen;
    if lines == [] {
      NoneNamed(Seen(img));
    } else {
      var n := |lines| - 1;
      var mid :| MayAll(img, lines[..n], mid, None) && May(mid, lines[n], after, err);
      LinesMeaning(img, lines[..n], mid, None);
      MayKeepsKeys(mid, lines[n], after, err);
      OneLine(mid, lines[n], after, err);
      ByOne(lines[n], img.Keys);
      FreshMore(Named(lines[..n], img.Keys), NamedBy(lines[n], img.Keys), Seen(img));
    }
  }

  lemma NoneNamed(seen: set<string>)
    ensures Fresh([], seen) && ToSet([]) == {}
  {
  }

  lemma ByOne(line: Line, pages: set<string>)
    ensures |NamedBy(line, pages)| <= 1
    ensures ToSet(NamedBy(line, pages)) <= pages
  {
  }

  lemma {:induction false} NamedPrefix(lines: seq<Line>, k: nat, pages: set<string>)
    requires k <= |lines|
    ensures Named(lines[..k], pages) <= Named(lines, pages)
    ensures NoRepeats(Named(lines, pages)) ==> NoRepeats(Named(lines[..k], pages))
    decreases |lines| - k
  {
    if k < |lines| {
      NamedPrefix(lines, k + 1, pages);
      assert lines[..k + 1][..k] == lines[..k];
      var named, more := Named(lines[..k], pages), NamedBy(lines[k], pages);
      assert forall i :: 0 <= i < |named| ==> (named + more)[i] == named[i];
    } else {
      assert lines[..k] == lines;
    }
  }

  lemma {:induction false} SizeOfNames(names: seq<string>)
    requires NoRepeats(names)
    ensures |ToSet(names)| == |names|
  {
    if names != [] {
      var n := |names| - 1;
      SizeOfNames(names[..n]);
      assert ToSet(names) == ToSet(names[..n]) + {names[n]};
    }
  }

  lemma {:induction false} SmallerSet(a: set<string>, b: set<string>)
    requires a <= b
    ensures |a| <= |b|
  {
    if a != {} {
      var x :| x in a;
      SmallerSet(a - {x}, b - {x});
    }
  }

  /** Reading lines that each name at most one page succeeds exactly when no page is named twice.
      Then the seen pages are those named, one per line that names a page, and never more than
      there are pages; otherwise the line that repeats a page is the one reported. */
  lemma PagesAreSeenOnce(img: map<string, bool>, lines: seq<Line>, handled: nat, after: map<string, bool>,
                         err: Option<Trouble>)
    requires AllNameOne(lines, img.Keys) && Seen(img) == {}
    requires handled <= |lines| && (err.None? ==> handled == |lines|)
    requires MayAll(img, lines[..handled], after, err)
    ensures after.Keys == img.Keys
    ensures err.None? <==> NoRepeats(Named(lines, img.Keys))
    ensures err.None? ==>
              && Seen(after) == ToSet(Named(lines, img.Keys))
              && |Seen(after)| == |Named(lines, img.Keys)| <= |img|
    ensures err.Some? ==> handled > 0 && err == Some(TroubleOf(lines[handled - 1]))
  {
    hide May, MayAll, NamesOne, NamedBy, Named;
    LinesMeaning(img, lines[..handled], after, err);
    NamedPrefix(lines, handled, img.Keys);
    if err.None? {
      assert lines[..handled] == lines;
      SizeOfNames(Named(lines, img.Keys));
      SmallerSet(Seen(after), img.Keys);
    }
  }

  // ---------------------------------------------------------------- the names pdftoppm gives

  ghost predicate OneMark(text: string) {
    forall i, k :: At(text, i, "output-") && At(text, k, "output-") ==> i == k
  }

  lemma NameBegins(k: nat, w: nat)
    ensures |PageName(k, w)| == w + 11 && "output-" <= PageName(k, w)
  {
  }

  lemma MarkOfName(text: string, i: int, name: string, mark: string)
    requires At(text, i, name) && mark <= name
    ensures At(text, i, mark)
  {
    assert text[i..i + |mark|] == text[i..i + |name|][..|mark|];
  }

  lemma OneMarkOneName(text: string, a: nat, b: nat, w: nat)
    requires OneMark(text) && Contains(text, PageName(a, w)) && Contains(text, PageName(b, w))
    ensures PageName(a, w) == PageName(b, w)
  {
    NameBegins(a, w);
    NameBegins(b, w);
    hide PageName;
    var i :| At(text, i, PageName(a, w));
    var k :| At(text, k, PageName(b, w));
    MarkOfName(text, i, PageName(a, w), "output-");
    MarkOfName(text, k, PageName(b, w), "output-");
  }

  lemma MemberName(f: string, count: nat) returns (k: nat)
    requires f in ToSet(PageNames(count))
    ensures f == PageName(k, Width(count))
  {
    assert f in PageNames(count);
    var i :| 0 <= i < count && f == PageNames(count)[i];
    k := i + 1;
  }

  /** A line with the mark of a page name in one place names at most one page, since the names
      all have the same length. */
  lemma OneMarkNamesOne(line: Line, pages: set<string>, count: nat)
    requires OneMark(line.text) && pages <= ToSet(PageNames(count))
    ensures NamesOne(line, pages)
  {
    hide PageName, OneMark, Contains, PageNames, ToSet, Width;
    forall f, g | Names(line, pages, f) && Names(line, pages, g)
      ensures f == g
    {
      var a := MemberName(f, count);
      var b := MemberName(g, count);
      OneMarkOneName(line.text, a, b, Width(count));
    }
  }
}
