/** The page images of a job: the names pdftoppm gives them, the set of names collected from
    the data directory, and the list of pages handed to tesseract
    (rinser/job.go:266-291, rinser/jobprocess.go:328-351). */
module Pages {
  import opened Text

  // ---------------------------------------------------------------- names

  predicate HasSuffix(s: string, suffix: string) {
    |suffix| <= |s| && s[|s| - |suffix|..] == suffix
  }

  function Pow10(w: nat): nat {
    if w == 0 then 1 else 10 * Pow10(w - 1)
  }

  function DigitChar(d: nat): char
    requires d < 10
  {
    ('0' as int + d) as char
  }

  /** The last w decimal digits of n, padded with zeros. */
  function Digits(n: nat, w: nat): (s: string)
    ensures |s| == w
  {
    if w == 0 then [] else Digits(n / 10, w - 1) + [DigitChar(n % 10)]
  }

  function Width(n: nat): nat {
    if n < 10 then 1 else 1 + Width(n / 10)
  }

  /** Every page of a document gets a name of the same width. */
  function PageName(k: nat, w: nat): string {
    "output-" + Digits(k, w) + ".png"
  }

  function PageNames(count: nat): (names: seq<string>)
    ensures |names| == count
  {
    seq(count, i requires 0 <= i => PageName(i + 1, Width(count)))
  }

  /** The width is that of the number itself. */
  lemma {:induction false} WidthFits(n: nat)
    ensures n < Pow10(Width(n)) && (n > 0 ==> Pow10(Width(n) - 1) <= n)
  {
    if n >= 10 {
      WidthFits(n / 10);
    }
  }

  /** The number that a string of decimal digits stands for. */
  function Value(digits: string): int {
    if digits == [] then 0 else 10 * Value(digits[..|digits| - 1]) + (digits[|digits| - 1] as int - '0' as int)
  }

  lemma {:induction false} DigitsRead(n: nat, w: nat)
    requires n < Pow10(w)
    ensures Value(Digits(n, w)) == n && forall c :: c in Digits(n, w) ==> '0' <= c <= '9'
  {
    if w > 0 {
      DigitsRead(n / 10, w - 1);
      assert Digits(n, w)[..w - 1] == Digits(n / 10, w - 1);
    }
  }

  /** Strings of one length are compared before whatever follows them. */
  lemma {:induction false} BelowThen(a: string, b: string, x: string, y: string)
    requires |a| == |b|
    ensures Below(a + x, b + y) <==> Below(a, b) || (a == b && Below(x, y))
  {
    if a == [] {
      assert a + x == x && b + y == y;
    } else {
      BelowThen(a[1..], b[1..], x, y);
      assert (a + x)[1..] == a[1..] + x && (b + y)[1..] == b[1..] + y;
      assert a == [a[0]] + a[1..] && b == [b[0]] + b[1..];
    }
  }

  lemma {:induction false} DigitsOrder(n: nat, m: nat, w: nat)
    requires n < Pow10(w) && m < Pow10(w)
    ensures Below(Digits(n, w), Digits(m, w)) <==> n < m
    ensures Digits(n, w) == Digits(m, w) ==> n == m
  {
    if w > 0 {
      DigitsOrder(n / 10, m / 10, w - 1);
      var a, b := [DigitChar(n % 10)], [DigitChar(m % 10)];
      BelowThen(Digits(n / 10, w - 1), Digits(m / 10, w - 1), a, b);
      assert Below(a, b) <==> n % 10 < m % 10;
      assert Digits(n, w)[w - 1] == a[0] && Digits(m, w)[w - 1] == b[0];
      assert Digits(n, w)[..w - 1] == Digits(n / 10, w - 1) && Digits(m, w)[..w - 1] == Digits(m / 10, w - 1);
    }
  }

  lemma NameOrder(n: nat, m: nat, w: nat)
    requires n < Pow10(w) && m < Pow10(w)
    ensures Below(PageName(n, w), PageName(m, w)) <==> n < m
  {
    DigitsOrder(n, m, w);
    BelowThen(Digits(n, w), Digits(m, w), ".png", ".png");
    BelowIrreflexive(".png");
    BelowAfterPrefix("output-", Digits(n, w) + ".png", Digits(m, w) + ".png");
    assert "output-" + Digits(n, w) + ".png" == "output-" + (Digits(n, w) + ".png");
    assert "output-" + Digits(m, w) + ".png" == "output-" + (Digits(m, w) + ".png");
  }

  lemma NameEnds(k: nat, w: nat)
    ensures HasSuffix(PageName(k, w), ".png")
  {
  }

  /** The byte order of the names is the order of the pages. */
  lemma PageOrder(count: nat)
    ensures Ascending(PageNames(count))
    ensures forall n :: n in PageNames(count) ==> HasSuffix(n, ".png")
  {
    var w := Width(count);
    WidthFits(count);
    forall i, k | 0 <= i < k < count
      ensures Below(PageNames(count)[i], PageNames(count)[k])
    {
      NameOrder(i + 1, k + 1, w);
    }
    forall n | n in PageNames(count)
      ensures HasSuffix(n, ".png")
    {
      var i :| 0 <= i < count && n == PageNames(count)[i];
      NameEnds(i + 1, w);
    }
  }

  // ---------------------------------------------------------------- the collected names

  function Pngs(entries: set<string>): set<string> {
    set n | n in entries && HasSuffix(n, ".png")
  }

  lemma ToSetMore(names: seq<string>, n: string)
    ensures ToSet(names + [n]) == ToSet(names) + {n}
  {
  }

  /** New names join unseen; the others keep their mark. */
  function Refreshed(img: map<string, bool>, entries: set<string>): map<string, bool> {
    map n | n in img.Keys + Pngs(entries) :: if n in img then img[n] else false
  }

  /** One line of output.txt per name. */
  function Listing(names: seq<string>): string {
    if names == [] then []
    else Listing(names[..|names| - 1]) + "/var/rinse/" + names[|names| - 1] + "\n"
  }

  /** The names of a set in ascending order. */
  method Sorted(names: set<string>) returns (sorted: seq<string>)
    ensures Ascending(sorted) && ToSet(sorted) == names
  {
    var rest := names;
    var listed: seq<string> := [];
    while rest != {}
      invariant NoRepeats(listed) && rest !! ToSet(listed) && rest + ToSet(listed) == names
    {
      var n :| n in rest;
      assert ToSet(listed + [n]) == ToSet(listed) + {n} && n !in ToSet(listed);
      listed := listed + [n];
      rest := rest - {n};
    }
    SortMeaning(listed);
    sorted := SortStrings(listed);
  }

  class Book {
    var img: map<string, bool>

    constructor ()
      ensures img == map[]
    {
      img := map[];
    }

    method Refresh(entries: seq<string>)
      modifies this
      ensures img == Refreshed(old(img), ToSet(entries))
    {
      var found: seq<string> := [];
      for i := 0 to |entries|
        invariant img == old(img) && ToSet(found) == Pngs(ToSet(entries[..i]))
      {
        assert entries[..i + 1] == entries[..i] + [entries[i]];
        ToSetMore(entries[..i], entries[i]);
        ToSetMore(found, entries[i]);
        if HasSuffix(entries[i], ".png") {
          found := found + [entries[i]];
        }
      }
      assert entries[..|entries|] == entries;
      for i := 0 to |found|
        invariant img.Keys == old(img).Keys + ToSet(found[..i])
        invariant forall n :: n in img ==> img[n] == if n in old(img) then old(img)[n] else false
      {
        assert found[..i + 1] == found[..i] + [found[i]];
        ToSetMore(found[..i], found[i]);
        if found[i] !in img {
          img := img[found[i] := false];
        }
      }
      assert found[..|found|] == found;
    }

    method MakeOutputTxt() returns (outputFiles: seq<string>, text: string)
      ensures Ascending(outputFiles) && ToSet(outputFiles) == img.Keys && text == Listing(outputFiles)
    {
      outputFiles := Sorted(img.Keys);
      text := [];
      for i := 0 to |outputFiles|
        invariant text == Listing(outputFiles[..i])
      {
        assert outputFiles[..i + 1][..i] == outputFiles[..i];
        text := text + "/var/rinse/" + outputFiles[i] + "\n";
      }
      assert outputFiles[..|outputFiles|] == outputFiles;
    }
  }

  // ---------------------------------------------------------------- what they promise

  /** Collecting names never drops one and never takes back a mark. */
  lemma RefreshKeeps(img: map<string, bool>, entries: set<string>)
    ensures var r := Refreshed(img, entries);
      && (forall n :: n in img ==> n in r && r[n] == img[n])
      && (forall n :: n in r && n !in img ==> n in entries && HasSuffix(n, ".png") && !r[n])
      && (forall n :: n in entries && HasSuffix(n, ".png") ==> n in r)
      && Refreshed(r, entries) == r
  {
  }

  lemma {:induction false} FirstLine(names: seq<string>)
    requires names != []
    ensures Listing(names) == "/var/rinse/" + names[0] + "\n" + Listing(names[1..])
  {
    var n := |names| - 1;
    if n > 0 {
      FirstLine(names[..n]);
      assert names[..n][1..] == names[1..][..n - 1];
    }
  }

  /** Read line by line, the list has the path of each name on a line of its own, in order, and
      nothing after the last. */
  lemma {:induction false} ListingLines(names: seq<string>)
    requires forall n :: n in names ==> '\n' !in n
    ensures
      var lines := Split(Listing(names), '\n');
      && |lines| == |names| + 1 && lines[|names|] == []
      && forall i :: 0 <= i < |names| ==> lines[i] == "/var/rinse/" + names[i]
  {
    if names != [] {
      hide Split, Listing;
      FirstLine(names);
      ListingLines(names[1..]);
      SplitPrefix("/var/rinse/" + names[0], Listing(names[1..]), '\n');
    }
  }

  lemma NameOnOneLine(k: nat, w: nat)
    requires k < Pow10(w)
    ensures '\n' !in PageName(k, w)
  {
    DigitsRead(k, w);
  }

  lemma NamesOnLines(count: nat)
    ensures forall n :: n in PageNames(count) ==> '\n' !in n
    ensures forall i :: 0 <= i < count ==> PageNames(count)[i] == PageName(i + 1, Width(count))
  {
    hide PageName, Width;
    WidthFits(count);
    forall i | 0 <= i < count
      ensures '\n' !in PageNames(count)[i]
    {
      NameOnOneLine(i + 1, Width(count));
    }
  }

  /** When exactly the rendered pages have been collected, the i-th line of output.txt names the
      i-th page, and there are no other lines. */
  lemma OutputTxtInPageOrder(names: seq<string>, count: nat)
    requires Ascending(names) && ToSet(names) == ToSet(PageNames(count))
    ensures names == PageNames(count)
    ensures
      var lines := Split(Listing(names), '\n');
      && |lines| == count + 1 && lines[count] == []
      && forall i :: 0 <= i < count ==> lines[i] == "/var/rinse/" + PageName(i + 1, Width(count))
  {
    hide PageName, Width, PageNames, Split, Listing, Ascending, ToSet;
    PageOrder(count);
    AscendingUnique(names, PageNames(count));
    NamesOnLines(count);
    ListingLines(names);
  }
}
