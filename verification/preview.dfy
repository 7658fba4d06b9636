/** Previews: the first pages of a job drawn one below the other, with a cache keyed by the
    number of pages and the width (rinser/jobpreview.go:15-81). */
module Preview {
  import opened Basics
  import opened Text
  import Pages

  /** What opening and decoding a page finds. A page that cannot be decoded is passed over; one
      that can has, for each width, the height that scaling gives it. */
  datatype Page = Missing | Garbled | Shown(heightAt: nat -> nat)

  type Disk = string -> Page

  datatype Tile = Tile(name: string, top: nat, bottom: nat)

  datatype Picture = Picture(width: nat, height: nat, tiles: seq<Tile>)

  // ---------------------------------------------------------------- limits and the key

  function NumPages(numPages: int, count: nat): (p: nat)
    ensures p <= count && p <= 100 && (count > 0 ==> p > 0)
    ensures 1 <= numPages <= count && numPages <= 100 ==> p == numPages
    ensures numPages < 1 ==> p == if count == 0 then 0 else 1
    ensures numPages >= 1 && (numPages > count || numPages > 100) ==> p == if count < 100 then count else 100
  {
    var asked := if numPages < 1 then 1 else numPages;
    var bounded := if count < asked then count else asked;
    if bounded < 100 then bounded else 100
  }

  function ImgWidth(imgWidth: int): (w: nat)
    ensures 96 <= w <= 1920 && (96 <= imgWidth <= 1920 ==> w == imgWidth)
    ensures (imgWidth < 96 ==> w == 96) && (imgWidth > 1920 ==> w == 1920)
  {
    var asked := if imgWidth < 96 then 96 else imgWidth;
    if asked < 1920 then asked else 1920
  }

  /** The values a clamped request can have. */
  predicate Clamped(p: nat, w: nat) {
    p <= 100 && 96 <= w <= 1920
  }

  /** uint64(p)<<16 | uint64(w): the two parts have no bit in common. */
  function Key(p: nat, w: nat): nat {
    p * 0x1_0000 + w
  }

  /** On machine words, shifting and or-ing two clamped values is that sum, without overflow. */
  lemma PackedIsSum(p: bv64, w: bv64)
    requires p <= 100 && w <= 1920
    ensures (p << 16) | w == p * 0x1_0000 + w
    ensures ((p << 16) | w) >> 16 == p && ((p << 16) | w) & 0xFFFF == w
  {
  }

  /** No two requests share a key. */
  lemma KeyInjective(p: nat, w: nat, q: nat, v: nat)
    requires Clamped(p, w) && Clamped(q, v)
    ensures Key(p, w) == Key(q, v) <==> p == q && w == v
  {
  }

  // ---------------------------------------------------------------- drawing

  function Scaled(page: Page, width: nat): nat {
    if page.Shown? then page.heightAt(width) else 0
  }

  function Readable(names: seq<string>, disk: Disk): bool {
    forall n :: n in names ==> !disk(n).Missing?
  }

  /** The pages that can be shown, each below the one before it. */
  function Stack(names: seq<string>, width: nat, disk: Disk): (tiles: seq<Tile>) {
    if names == [] then []
    else
      var front := Stack(names[..|names| - 1], width, disk);
      var name := names[|names| - 1];
      if disk(name).Shown? then
        front + [Tile(name, Bottom(front), Bottom(front) + Scaled(disk(name), width))]
      else front
  }

  function Bottom(tiles: seq<Tile>): nat {
    if tiles == [] then 0 else tiles[|tiles| - 1].bottom
  }

  /** The JPEG format has no room for more rows; a clamped width is never too large. */
  predicate Encodes(height: nat) {
    height < 0x1_0000
  }

  /** The preview of some pages, unless one cannot be opened or the whole is too high. */
  function Drawing(names: seq<string>, width: nat, disk: Disk): Option<Picture> {
    if !Readable(names, disk) then None
    else
      var tiles := Stack(names, width, disk);
      if Encodes(Bottom(tiles)) then Some(Picture(width, Bottom(tiles), tiles)) else None
  }

  /** Which of the two it is when there is none. */
  lemma DrawingFails(names: seq<string>, width: nat, disk: Disk)
    ensures Drawing(names, width, disk).None? <==>
              || (exists n :: n in names && disk(n).Missing?)
              || Total(Heights(Shows(names, disk), width, disk)) >= 0x1_0000
  {
    hide Stack, Shows, Bottom, Total;
    StackHeight(names, width, disk);
  }

  function Heights(shown: seq<string>, width: nat, disk: Disk): (h: seq<nat>)
    ensures |h| == |shown| && forall i :: 0 <= i < |shown| ==> h[i] == Scaled(disk(shown[i]), width)
  {
    seq(|shown|, i requires 0 <= i < |shown| => Scaled(disk(shown[i]), width))
  }

  lemma {:induction false} StackHeight(names: seq<string>, width: nat, disk: Disk)
    ensures Bottom(Stack(names, width, disk)) == Total(Heights(Shows(names, disk), width, disk))
  {
    hide Bottom, Scaled, Stack, Shows, Total;
    NothingYet(width, disk);
    if names == [] {
      assert Heights([], width, disk) == [];
    } else {
      var front, last := names[..|names| - 1], names[|names| - 1];
      assert names == front + [last];
      StackHeight(front, width, disk);
      ShowsMore(front, last, disk);
      StackMore(front, last, width, disk);
      if disk(last).Shown? {
        var h := Scaled(disk(last), width);
        var shown := Shows(front, disk);
        assert Heights(shown + [last], width, disk) == Heights(shown, width, disk) + [h];
        TotalMore(Heights(shown, width, disk), h);
        BottomMore(Stack(front, width, disk),
                   Tile(last, Bottom(Stack(front, width, disk)), Bottom(Stack(front, width, disk)) + h));
      } else {
        assert Shows(front, disk) + [] == Shows(front, disk);
      }
    }
  }

  /** The pages that can be shown. */
  function Shows(names: seq<string>, disk: Disk): seq<string> {
    if names == [] then []
    else
      var last := names[|names| - 1];
      Shows(names[..|names| - 1], disk) + if disk(last).Shown? then [last] else []
  }

  lemma StackMore(names: seq<string>, name: string, width: nat, disk: Disk)
    ensures
      var front := Stack(names, width, disk);
      Stack(names + [name], width, disk)
        == if disk(name).Shown? then
             front + [Tile(name, Bottom(front), Bottom(front) + Scaled(disk(name), width))]
           else front
  {
    hide Bottom, Scaled;
  }

  lemma ShowsMore(names: seq<string>, name: string, disk: Disk)
    ensures Shows(names + [name], disk) == Shows(names, disk) + if disk(name).Shown? then [name] else []
  {
  }

  lemma {:induction false} StackShows(names: seq<string>, width: nat, disk: Disk)
    ensures Stack(Shows(names, disk), width, disk) == Stack(names, width, disk)
    ensures forall n :: n in Shows(names, disk) ==> disk(n).Shown?
  {
    if names != [] {
      var front, last := names[..|names| - 1], names[|names| - 1];
      StackShows(front, width, disk);
      assert names == front + [last];
      StackShowsMore(front, last, width, disk);
    }
  }

  lemma StackShowsMore(front: seq<string>, last: string, width: nat, disk: Disk)
    requires Stack(Shows(front, disk), width, disk) == Stack(front, width, disk)
    requires forall n :: n in Shows(front, disk) ==> disk(n).Shown?
    ensures Stack(Shows(front + [last], disk), width, disk) == Stack(front + [last], width, disk)
    ensures forall n :: n in Shows(front + [last], disk) ==> disk(n).Shown?
  {
    hide Bottom, Scaled, Stack, Shows;
    ShowsMore(front, last, disk);
    StackMore(front, last, width, disk);
    if disk(last).Shown? {
      StackMore(Shows(front, disk), last, width, disk);
    } else {
      assert Shows(front, disk) + [] == Shows(front, disk);
    }
  }

  function Total(heights: seq<nat>): nat {
    if heights == [] then 0 else Total(heights[..|heights| - 1]) + heights[|heights| - 1]
  }

  lemma TotalMore(heights: seq<nat>, h: nat)
    ensures Total(heights + [h]) == Total(heights) + h
  {
  }

  lemma NothingYet(width: nat, disk: Disk)
    ensures Shows([], disk) == [] && Stack([], width, disk) == [] && Bottom([]) == 0 && Total([]) == 0
  {
  }

  lemma BottomMore(tiles: seq<Tile>, t: Tile)
    ensures Bottom(tiles + [t]) == t.bottom
  {
  }

  /** The loops of Preview: open and measure the pages, place them, and encode the result. */
  method Draw(names: seq<string>, width: nat, disk: Disk) returns (picture: Option<Picture>)
    ensures picture == Drawing(names, width, disk)
  {
    hide Bottom, Scaled, Stack, Shows, Total;
    NothingYet(width, disk);
    var images: seq<string> := [];
    var heights: seq<nat> := [];
    var full := 0;
    assert names[..0] == [];
    for page := 0 to |names|
      invariant |images| == |heights| && full == Total(heights)
      invariant forall n :: n in names[..page] ==> !disk(n).Missing?
      invariant images == Shows(names[..page], disk)
      invariant forall i :: 0 <= i < |images| ==> heights[i] == Scaled(disk(images[i]), width)
    {
      assert names[..page + 1] == names[..page] + [names[page]];
      ShowsMore(names[..page], names[page], disk);
      if disk(names[page]).Missing? {
        return None;
      }
      if disk(names[page]).Shown? {
        var height := Scaled(disk(names[page]), width);
        images := images + [names[page]];
        TotalMore(heights, height);
        heights := heights + [height];
        full := full + height;
      }
    }
    assert names[..|names|] == names;
    StackShows(names, width, disk);
    var tiles: seq<Tile> := [];
    var y := 0;
    for i := 0 to |images|
      invariant tiles == Stack(images[..i], width, disk) && y == Bottom(tiles) == Total(heights[..i])
    {
      assert images[..i + 1] == images[..i] + [images[i]] && heights[..i + 1] == heights[..i] + [heights[i]];
      StackMore(images[..i], images[i], width, disk);
      TotalMore(heights[..i], heights[i]);
      assert images[i] in images;
      var tile := Tile(images[i], y, y + heights[i]);
      y := y + heights[i];
      BottomMore(tiles, tile);
      tiles := tiles + [tile];
    }
    assert images[..|images|] == images && heights[..|images|] == heights;
    picture := if Encodes(full) then Some(Picture(width, full, tiles)) else None;
  }

  /** The rectangles lie one below the other from the top to the full height. */
  lemma {:induction false} StackTiles(names: seq<string>, width: nat, disk: Disk)
    ensures var tiles := Stack(names, width, disk);
      && (tiles != [] ==> tiles[0].top == 0)
      && (forall i :: 0 <= i < |tiles| ==> tiles[i].top <= tiles[i].bottom <= Bottom(tiles))
      && (forall i, k :: 0 <= i < k < |tiles| ==> tiles[i].bottom <= tiles[k].top)
      && (forall i :: 0 <= i < |tiles| - 1 ==> tiles[i].bottom == tiles[i + 1].top)
  {
    if names != [] {
      StackTiles(names[..|names| - 1], width, disk);
    }
  }

  /** The pages are drawn in order, each at its own scaled height. */
  lemma {:induction false} StackInOrder(names: seq<string>, width: nat, disk: Disk)
    ensures var tiles, shown := Stack(names, width, disk), Shows(names, disk);
      && |tiles| == |shown|
      && forall i :: 0 <= i < |tiles| ==>
           tiles[i].name == shown[i] && tiles[i].bottom == tiles[i].top + Scaled(disk(shown[i]), width)
  {
    hide Scaled;
    if names != [] {
      StackInOrder(names[..|names| - 1], width, disk);
    }
  }

  /** A drawn preview has the width asked for. Its pages, each at the height that scaling to this
      width gives it, lie one below the other without a gap, from the top edge to the bottom edge. */
  lemma DrawingFits(names: seq<string>, width: nat, disk: Disk)
    requires Drawing(names, width, disk).Some?
    ensures
      var picture, shown := Drawing(names, width, disk).value, Shows(names, disk);
      var tiles := picture.tiles;
      && picture.width == width
      && picture.height == Total(Heights(shown, width, disk))
      && (if tiles == [] then picture.height == 0
          else tiles[0].top == 0 && tiles[|tiles| - 1].bottom == picture.height)
      && (forall i :: 0 <= i < |tiles| - 1 ==> tiles[i + 1].top == tiles[i].bottom)
      && |tiles| == |shown|
      && (forall i :: 0 <= i < |tiles| ==>
            && tiles[i].name == shown[i] && disk(shown[i]).Shown?
            && tiles[i].bottom == tiles[i].top + disk(shown[i]).heightAt(width))
  {
    hide Stack, Shows, Total;
    StackTiles(names, width, disk);
    StackInOrder(names, width, disk);
    StackHeight(names, width, disk);
    StackShows(names, width, disk);
  }

  /** The pages shown are those that can be, in the order given. */
  lemma {:induction false} ShowsConcat(a: seq<string>, b: seq<string>, disk: Disk)
    ensures Shows(a + b, disk) == Shows(a, disk) + Shows(b, disk)
  {
    if b == [] {
      assert a + b == a;
    } else {
      assert (a + b)[..|a + b| - 1] == a + b[..|b| - 1];
      ShowsConcat(a, b[..|b| - 1], disk);
    }
  }

  ghost predicate Covers(t: Tile, row: nat) {
    t.top <= row < t.bottom
  }

  lemma {:induction false} RowFound(tiles: seq<Tile>, row: nat) returns (i: nat)
    requires row < Bottom(tiles)
    requires tiles != [] ==> tiles[0].top == 0
    requires forall i :: 0 <= i < |tiles| - 1 ==> tiles[i].bottom == tiles[i + 1].top
    ensures i < |tiles| && Covers(tiles[i], row)
    decreases |tiles|
  {
    var last := |tiles| - 1;
    if row >= tiles[last].top {
      i := last;
    } else {
      i := RowFound(tiles[..last], row);
    }
  }

  /** Every row of a drawn preview belongs to exactly one page. */
  lemma RowsCoveredOnce(names: seq<string>, width: nat, disk: Disk, row: nat) returns (i: nat)
    requires Drawing(names, width, disk).Some? && row < Drawing(names, width, disk).value.height
    ensures
      var tiles := Drawing(names, width, disk).value.tiles;
      i < |tiles| && Covers(tiles[i], row) && forall k :: 0 <= k < |tiles| && Covers(tiles[k], row) ==> k == i
  {
    StackTiles(names, width, disk);
    i := RowFound(Stack(names, width, disk), row);
  }

  // ---------------------------------------------------------------- the sorted pages

  lemma PrefixAt(q: seq<string>, r: seq<string>, p: nat)
    requires p <= |q| <= |r| && r[..|q|] == q
    ensures r[..p] == q[..p]
  {
  }

  /** The sorted list keeps its beginning exactly when every name that joins comes after all
      those already there. */
  lemma PrefixKept(names: set<string>, more: set<string>)
    requires names <= more
    ensures |names| <= |more|
    ensures InOrder(more)[..|names|] == InOrder(names) <==> AllAfter(names, more)
  {
    hide AllAfter;
    SizeOfRest(names, more);
    if AllAfter(names, more) {
      AfterKeeps(names, more);
    }
    if InOrder(more)[..|names|] == InOrder(names) {
      KeptAfter(names, more);
    }
  }

  lemma SizeOfRest(names: set<string>, more: set<string>)
    requires names <= more
    ensures |more - names| == |more| - |names|
  {
  }

  lemma AfterKeeps(names: set<string>, more: set<string>)
    requires names <= more && AllAfter(names, more)
    ensures |names| <= |more| && InOrder(more)[..|names|] == InOrder(names)
  {
    hide Below, Ascending, ToSet;
    SizeOfRest(names, more);
    var q, rest := InOrder(names), InOrder(more - names);
    Concatenated(q, rest);
    assert names + (more - names) == more;
    AscendingUnique(q + rest, InOrder(more));
    assert (q + rest)[..|q|] == q;
  }

  lemma KeptAfter(names: set<string>, more: set<string>)
    requires names <= more && |names| <= |more| && InOrder(more)[..|names|] == InOrder(names)
    ensures AllAfter(names, more)
  {
    hide Below;
  }

  ghost predicate AllAfter(names: set<string>, more: set<string>) {
    forall o, n :: o in names && n in more - names ==> Below(o, n)
  }

  lemma Concatenated(q: seq<string>, rest: seq<string>)
    requires Ascending(q) && Ascending(rest)
    requires forall o, n :: o in ToSet(q) && n in ToSet(rest) ==> Below(o, n)
    ensures Ascending(q + rest) && ToSet(q + rest) == ToSet(q) + ToSet(rest)
  {
  }

  /** Pages written one after the other join in turn. */
  lemma PagesJoinInTurn(count: nat, k: nat, m: nat)
    requires k <= m <= count
    ensures AllAfter(ToSet(Pages.PageNames(count)[..k]), ToSet(Pages.PageNames(count)[..m]))
  {
    var names := Pages.PageNames(count);
    Pages.PageOrder(count);
    hide Pages.PageNames, Below;
    forall o, n | o in ToSet(names[..k]) && n in ToSet(names[..m]) - ToSet(names[..k])
      ensures Below(o, n)
    {
      var i :| 0 <= i < k && names[..k][i] == o;
      var j :| 0 <= j < m && names[..m][j] == n;
      assert forall x :: 0 <= x < k ==> names[..k][x] in ToSet(names[..k]);
      assert j >= k;
    }
  }

  // ---------------------------------------------------------------- when two drawings are the same

  lemma {:induction false} AllShown(names: seq<string>, disk: Disk)
    requires forall n :: n in names ==> disk(n).Shown?
    ensures Shows(names, disk) == names && Readable(names, disk)
  {
    if names != [] {
      AllShown(names[..|names| - 1], disk);
      assert names == names[..|names| - 1] + [names[|names| - 1]];
    }
  }

  /** Two lists of pages give the same preview exactly when they show the same pages. */
  lemma SameDrawing(a: seq<string>, b: seq<string>, width: nat, disk: Disk)
    requires Drawing(b, width, disk).Some?
    ensures Drawing(a, width, disk) == Drawing(b, width, disk)
       <==> Readable(a, disk) && Shows(a, disk) == Shows(b, disk)
  {
    hide Stack, Shows, Bottom, Scaled, Readable;
    StackShows(a, width, disk);
    StackShows(b, width, disk);
    StackInOrder(a, width, disk);
    StackInOrder(b, width, disk);
  }

  ghost predicate SameShows(a: seq<string>, b: seq<string>, disk: Disk) {
    Readable(a, disk) && Shows(a, disk) == Shows(b, disk)
  }

  lemma SameAsCached(a: seq<string>, b: seq<string>, width: nat, disk: Disk)
    requires Drawing(b, width, disk).Some?
    ensures Drawing(a, width, disk) == Drawing(b, width, disk) <==> SameShows(a, b, disk)
  {
    SameDrawing(a, b, width, disk);
  }

  lemma PrefixShown(pages: set<string>, p: nat, disk: Disk)
    requires p <= |pages| && forall n :: n in pages ==> disk(n).Shown?
    ensures Shows(InOrder(pages)[..p], disk) == InOrder(pages)[..p] && Readable(InOrder(pages)[..p], disk)
  {
    forall n | n in InOrder(pages)[..p]
      ensures disk(n).Shown?
    {
      assert n in ToSet(InOrder(pages));
    }
    AllShown(InOrder(pages)[..p], disk);
  }

  lemma InOrderTwo(a: string, b: string)
    requires Below(a, b)
    ensures InOrder({a, b}) == [a, b] && a != b
  {
    BelowIrreflexive(a);
    AscendingUnique([a, b], InOrder({a, b}));
  }

  lemma InOrderOne(b: string)
    ensures InOrder({b}) == [b]
  {
    AscendingUnique([b], InOrder({b}));
  }

  lemma DrawingOne(b: string, width: nat, disk: Disk)
    requires disk(b).Shown? && Encodes(Scaled(disk(b), width))
    ensures Drawing([b], width, disk).Some?
  {
    hide Scaled;
    StackMore([], b, width, disk);
    assert [] + [b] == [b] && Stack([], width, disk) == [];
    assert Stack([b], width, disk) == [Tile(b, 0, Scaled(disk(b), width))];
    assert forall n :: n in [b] ==> n == b;
  }

  ghost predicate Alike(names: seq<string>, before: Disk, after: Disk) {
    forall n :: n in names ==> before(n) == after(n)
  }

  lemma {:induction false} StackAlike(names: seq<string>, width: nat, before: Disk, after: Disk)
    requires Alike(names, before, after)
    ensures Stack(names, width, before) == Stack(names, width, after)
  {
    hide Bottom, Scaled;
    if names != [] {
      var front, last := names[..|names| - 1], names[|names| - 1];
      assert names == front + [last];
      StackAlike(front, width, before, after);
    }
  }

  lemma DrawingAlike(names: seq<string>, width: nat, before: Disk, after: Disk)
    requires Alike(names, before, after)
    ensures Drawing(names, width, before) == Drawing(names, width, after)
  {
    hide Bottom, Stack;
    StackAlike(names, width, before, after);
  }

  lemma {:induction false} ShowsMeans(names: seq<string>, disk: Disk, n: string)
    ensures n in Shows(names, disk) <==> n in names && disk(n).Shown?
  {
    if names != [] {
      var front, last := names[..|names| - 1], names[|names| - 1];
      assert names == front + [last];
      ShowsMeans(front, disk, n);
    }
  }

  /** The page stands somewhere in the picture. */
  ghost predicate In(n: string, picture: Picture) {
    exists i :: 0 <= i < |picture.tiles| && picture.tiles[i].name == n
  }

  lemma DrawnMeans(names: seq<string>, width: nat, disk: Disk, n: string)
    requires Drawing(names, width, disk).Some?
    ensures In(n, Drawing(names, width, disk).value) <==> n in names && disk(n).Shown?
  {
    hide Stack, Shows, Bottom, Scaled;
    StackInOrder(names, width, disk);
    ShowsMeans(names, disk, n);
    var shown := Shows(names, disk);
    if n in shown {
      var i :| 0 <= i < |shown| && shown[i] == n;
      assert Drawing(names, width, disk).value.tiles[i].name == n;
    }
  }

  /** Of each page, the file may have been completed since; nothing else has happened to it. */
  ghost predicate Earlier(names: seq<string>, before: Disk, after: Disk) {
    forall n :: n in names ==> before(n) == after(n) || (before(n).Garbled? && after(n).Shown?)
  }

  /** A picture drawn from files as they were is what drawing them now would give, exactly when
      all that can be shown now stands in it. */
  lemma OldDrawing(names: seq<string>, width: nat, before: Disk, after: Disk)
    requires Drawing(names, width, before).Some? && Earlier(names, before, after)
    ensures Drawing(names, width, after) == Drawing(names, width, before)
       <==> forall n :: n in names && after(n).Shown? ==> In(n, Drawing(names, width, before).value)
    ensures Drawing(names, width, after) == Drawing(names, width, before)
       <==> forall n :: n in names ==> !(before(n).Garbled? && after(n).Shown?)
  {
    hide Drawing, In;
    var was, now := Drawing(names, width, before), Drawing(names, width, after);
    forall n
      ensures In(n, was.value) <==> n in names && before(n).Shown?
      ensures now == was ==> (In(n, was.value) <==> n in names && after(n).Shown?)
    {
      DrawnMeans(names, width, before, n);
      if now == was {
        DrawnMeans(names, width, after, n);
      }
    }
    if forall n :: n in names ==> !(before(n).Garbled? && after(n).Shown?) {
      DrawingAlike(names, width, before, after);
    }
  }
}
