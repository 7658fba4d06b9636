/** The cache of previews under concurrent requests, while pages are collected and their files
    are still being written: exactly when what it answers is what drawing would give
    (rinser/jobpreview.go:18-32, 70-76; rinser/job.go:266-291). */
module PreviewCache {
  import opened Basics
  import opened Preview
  import opened Text

  // ---------------------------------------------------------------- requests and their sections

  /** A request between its two sections under the lock: what it will draw, under which key, and
      how the files were when it began. */
  datatype Call = Call(p: nat, w: nat, names: seq<string>, began: Disk)

  datatype Shop = Shop(pages: set<string>, cache: map<nat, Picture>, calls: seq<Call>, disk: Disk)

  /** Besides the sections: names are collected, and files change. `view` is how a request found
      each of its files, which it opens one by one. */
  datatype Step =
    | Collect(names: set<string>)
    | Look(numPages: int, imgWidth: int)
    | Store(i: nat, view: Disk)
    | Change(disk: Disk)

  /** The first section: clamp, look in the cache, and otherwise take the names to draw. */
  function LookSec(pages: nat, cache: map<nat, Picture>, numPages: int, imgWidth: int): (nat, nat, Option<Picture>) {
    var p, w := NumPages(numPages, pages), ImgWidth(imgWidth);
    (p, w, if p > 0 && Key(p, w) in cache then Some(cache[Key(p, w)]) else None)
  }

  ghost function Next(s: Shop, step: Step): Shop {
    match step
    case Collect(names) => s.(pages := s.pages + names)
    case Look(numPages, imgWidth) =>
      var (p, w, hit) := LookSec(|s.pages|, s.cache, numPages, imgWidth);
      if hit.Some? then s else s.(calls := s.calls + [Call(p, w, InOrder(s.pages)[..p], s.disk)])
    case Store(i, view) => if i < |s.calls| then Stored(s, i, view) else s
    case Change(disk) => s.(disk := disk)
  }

  /** The second section of request i. */
  ghost function Stored(s: Shop, i: nat, view: Disk): Shop
    requires i < |s.calls|
  {
    var c := s.calls[i];
    var drawn := Drawing(c.names, c.w, view);
    s.(calls := s.calls[..i] + s.calls[i + 1..],
       cache := if drawn.Some? then s.cache[Key(c.p, c.w) := drawn.value] else s.cache)
  }

  ghost function Run(steps: seq<Step>, start: Disk): Shop {
    if steps == [] then Shop({}, map[], [], start)
    else Next(Run(steps[..|steps| - 1], start), steps[|steps| - 1])
  }

  /** Names join in ascending order throughout the run. */
  ghost predicate InTurn(steps: seq<Step>, start: Disk) {
    forall k :: 0 <= k < |steps| && steps[k].Collect? ==> Joining(Run(steps[..k], start).pages, steps[k].names)
  }

  ghost predicate Joining(pages: set<string>, names: set<string>) {
    AllAfter(pages, pages + names)
  }

  /** The files of collected pages are there, and once they can be decoded stay as they are. */
  ghost predicate Progress(pages: set<string>, before: Disk, after: Disk) {
    forall n :: n in pages ==> before(n) == after(n) || (before(n).Garbled? && after(n).Shown?)
  }

  /** No page was found unfinished that is finished at the end. */
  ghost predicate Whole(names: seq<string>, view: Disk, end: Disk) {
    forall n :: n in names ==> !(view(n).Garbled? && end(n).Shown?)
  }

  /** A collected name has a file; files only get completed; a request finds each file as it was
      at some moment since it began. With an `end`, no request finds a page unfinished that is
      finished then. */
  ghost predicate StepOk(s: Shop, step: Step, end: Option<Disk>) {
    match step
    case Collect(names) => forall n :: n in names ==> !s.disk(n).Missing?
    case Look(_, _) => true
    case Store(i, view) => i < |s.calls| ==> ViewOk(s.calls[i], view, s.disk, end)
    case Change(disk) => Progress(s.pages, s.disk, disk)
  }

  ghost predicate ViewOk(c: Call, view: Disk, now: Disk, end: Option<Disk>) {
    && Earlier(c.names, c.began, view) && Earlier(c.names, view, now)
    && (end.Some? ==> Whole(c.names, view, end.value))
  }

  ghost predicate Lawful(steps: seq<Step>, start: Disk, end: Option<Disk>) {
    forall k :: 0 <= k < |steps| ==> StepOk(Run(steps[..k], start), steps[k], end)
  }

  // ---------------------------------------------------------------- what every run keeps

  /** The picture was drawn from these pages, with files as they were at some moment. */
  ghost predicate Was(names: seq<string>, width: nat, picture: Picture, now: Disk, end: Option<Disk>) {
    exists view :: DrawnFrom(names, width, picture, view, now, end)
  }

  ghost predicate DrawnFrom(names: seq<string>, width: nat, picture: Picture, view: Disk, now: Disk,
                            end: Option<Disk>)
  {
    && Drawing(names, width, view) == Some(picture) && Earlier(names, view, now)
    && (end.Some? ==> Whole(names, view, end.value))
  }

  ghost predicate CacheOk(s: Shop, end: Option<Disk>) {
    forall p: nat, w: nat :: Clamped(p, w) && Key(p, w) in s.cache ==>
      p <= |s.pages| && Was(InOrder(s.pages)[..p], w, s.cache[Key(p, w)], s.disk, end)
  }

  ghost predicate CallOk(s: Shop, c: Call) {
    && Clamped(c.p, c.w) && c.p <= |s.pages| && c.names == InOrder(s.pages)[..c.p]
    && Earlier(c.names, c.began, s.disk)
  }

  ghost predicate FilesThere(s: Shop) {
    forall n :: n in s.pages ==> !s.disk(n).Missing?
  }

  ghost predicate ShopInv(s: Shop, end: Option<Disk>) {
    CacheOk(s, end) && FilesThere(s) && forall c :: c in s.calls ==> CallOk(s, c)
  }

  lemma SamePrefixes(pages: set<string>, names: set<string>)
    requires Joining(pages, names)
    ensures |pages| <= |pages + names|
    ensures forall p :: 0 <= p <= |pages| ==> InOrder(pages + names)[..p] == InOrder(pages)[..p]
  {
    hide AllAfter, InOrder;
    PrefixKept(pages, pages + names);
    forall p | 0 <= p <= |pages|
      ensures InOrder(pages + names)[..p] == InOrder(pages)[..p]
    {
      PrefixAt(InOrder(pages), InOrder(pages + names), p);
    }
  }

  lemma CollectKeeps(s: Shop, names: set<string>, end: Option<Disk>)
    requires ShopInv(s, end) && Joining(s.pages, names) && StepOk(s, Collect(names), end)
    ensures ShopInv(Next(s, Collect(names)), end)
  {
    hide Was, InOrder, Key, Joining, Earlier;
    SamePrefixes(s.pages, names);
  }

  lemma LookKeeps(s: Shop, numPages: int, imgWidth: int, end: Option<Disk>)
    requires ShopInv(s, end)
    ensures ShopInv(Next(s, Look(numPages, imgWidth)), end)
  {
    hide Was, InOrder, Key;
  }

  lemma PrefixPages(pages: set<string>, p: nat)
    requires p <= |pages|
    ensures forall n :: n in InOrder(pages)[..p] ==> n in pages
  {
    forall n | n in InOrder(pages)[..p]
      ensures n in pages
    {
      assert n in ToSet(InOrder(pages));
    }
  }

  lemma WasStill(names: seq<string>, width: nat, picture: Picture, before: Disk, after: Disk, end: Option<Disk>)
    requires Was(names, width, picture, before, end) && Earlier(names, before, after)
    ensures Was(names, width, picture, after, end)
  {
    var view :| DrawnFrom(names, width, picture, view, before, end);
    hide Drawing;
    assert DrawnFrom(names, width, picture, view, after, end);
  }

  lemma ChangeKeeps(s: Shop, disk: Disk, end: Option<Disk>)
    requires ShopInv(s, end) && Progress(s.pages, s.disk, disk)
    ensures ShopInv(Next(s, Change(disk)), end)
  {
    hide Was, InOrder, Key;
    var t := Next(s, Change(disk));
    forall p: nat | p <= |s.pages|
      ensures Earlier(InOrder(s.pages)[..p], s.disk, disk)
    {
      PrefixPages(s.pages, p);
    }
    forall p: nat, w: nat | Clamped(p, w) && Key(p, w) in s.cache
      ensures Was(InOrder(s.pages)[..p], w, s.cache[Key(p, w)], disk, end)
    {
      WasStill(InOrder(s.pages)[..p], w, s.cache[Key(p, w)], s.disk, disk, end);
    }
  }

  lemma StoreKeeps(s: Shop, i: nat, view: Disk, end: Option<Disk>)
    requires ShopInv(s, end) && i < |s.calls| && ViewOk(s.calls[i], view, s.disk, end)
    ensures ShopInv(Stored(s, i, view), end)
  {
    hide Drawing, InOrder, Key, Was, Earlier, Whole;
    var c, t := s.calls[i], Stored(s, i, view);
    assert c in s.calls && CallOk(s, c);
    forall d | d in t.calls
      ensures CallOk(t, d)
    {
      assert d in s.calls && CallOk(s, d);
    }
    if Drawing(c.names, c.w, view).Some? {
      NowCached(c.names, c.w, view, s.disk, end);
    }
    forall p: nat, w: nat | Clamped(p, w) && Key(p, w) in t.cache
      ensures p <= |t.pages| && Was(InOrder(t.pages)[..p], w, t.cache[Key(p, w)], t.disk, end)
    {
      KeyInjective(p, w, c.p, c.w);
    }
  }

  lemma NowCached(names: seq<string>, width: nat, view: Disk, now: Disk, end: Option<Disk>)
    requires Drawing(names, width, view).Some? && Earlier(names, view, now)
    requires end.Some? ==> Whole(names, view, end.value)
    ensures Was(names, width, Drawing(names, width, view).value, now, end)
  {
    hide Drawing;
    assert DrawnFrom(names, width, Drawing(names, width, view).value, view, now, end);
  }

  lemma StepKeeps(s: Shop, step: Step, end: Option<Disk>)
    requires ShopInv(s, end) && StepOk(s, step, end) && (step.Collect? ==> Joining(s.pages, step.names))
    ensures ShopInv(Next(s, step), end)
  {
    hide ShopInv, Joining, Stored, ViewOk;
    match step
    case Collect(names) => CollectKeeps(s, names, end);
    case Look(numPages, imgWidth) => LookKeeps(s, numPages, imgWidth, end);
    case Change(disk) => ChangeKeeps(s, disk, end);
    case Store(i, view) =>
      if i < |s.calls| {
        StoreKeeps(s, i, view, end);
      }
  }

  lemma EmptyShop(start: Disk, end: Option<Disk>)
    ensures ShopInv(Shop({}, map[], [], start), end)
  {
  }

  lemma {:induction false} RunKeeps(steps: seq<Step>, start: Disk, end: Option<Disk>)
    requires InTurn(steps, start) && Lawful(steps, start, end)
    ensures ShopInv(Run(steps, start), end)
    decreases |steps|
  {
    hide ShopInv, Joining, Next, StepOk;
    if steps == [] {
      EmptyShop(start, end);
    } else {
      var n := |steps| - 1;
      forall k | 0 <= k < n
        ensures steps[..n][..k] == steps[..k]
      {
      }
      RunKeeps(steps[..n], start, end);
      StepKeeps(Run(steps[..n], start), steps[n], end);
    }
  }

  // ---------------------------------------------------------------- what is answered

  /** All of the first pages that can be decoded now stand in the picture. */
  ghost predicate Complete(picture: Picture, names: seq<string>, now: Disk) {
    forall n :: n in names && now(n).Shown? ==> In(n, picture)
  }

  lemma WasMeans(names: seq<string>, width: nat, picture: Picture, now: Disk, end: Option<Disk>)
    requires Was(names, width, picture, now, end)
    ensures Drawing(names, width, now) == Some(picture) <==> Complete(picture, names, now)
    ensures end == Some(now) ==> Drawing(names, width, now) == Some(picture)
  {
    hide Drawing, In;
    var view :| DrawnFrom(names, width, picture, view, now, end);
    OldDrawing(names, width, view, now);
  }

  /** However requests, newly collected pages and the writing of their files are interleaved: what
      the cache answers is what drawing the first pages would give now exactly when it shows all of
      them that can be decoded now. */
  lemma HitMeans(steps: seq<Step>, start: Disk, numPages: int, imgWidth: int)
    requires InTurn(steps, start) && Lawful(steps, start, None)
    ensures
      var s := Run(steps, start);
      var (p, w, hit) := LookSec(|s.pages|, s.cache, numPages, imgWidth);
      var names := InOrder(s.pages)[..p];
      && p == NumPages(numPages, |s.pages|) && w == ImgWidth(imgWidth)
      && (hit.Some? ==> (hit == Drawing(names, w, s.disk) <==> Complete(hit.value, names, s.disk)))
  {
    hide Drawing, InOrder, Key, Run, InTurn, Lawful, Was, Complete;
    RunKeeps(steps, start, None);
    var s := Run(steps, start);
    var (p, w, hit) := LookSec(|s.pages|, s.cache, numPages, imgWidth);
    if hit.Some? {
      WasMeans(InOrder(s.pages)[..p], w, hit.value, s.disk, None);
    }
  }

  /** In particular, if no request has found a page unfinished that is finished now, whatever the
      cache answers is fresh. */
  lemma CachedIsFresh(steps: seq<Step>, start: Disk, numPages: int, imgWidth: int)
    requires InTurn(steps, start) && Lawful(steps, start, Some(Run(steps, start).disk))
    ensures
      var s := Run(steps, start);
      var (p, w, hit) := LookSec(|s.pages|, s.cache, numPages, imgWidth);
      && p == NumPages(numPages, |s.pages|) && w == ImgWidth(imgWidth)
      && (hit.Some? ==> hit == Drawing(InOrder(s.pages)[..p], w, s.disk))
  {
    hide Drawing, InOrder, Key, Run, InTurn, Lawful, Was;
    var s := Run(steps, start);
    RunKeeps(steps, start, Some(s.disk));
    var (p, w, hit) := LookSec(|s.pages|, s.cache, numPages, imgWidth);
    if hit.Some? {
      WasMeans(InOrder(s.pages)[..p], w, hit.value, s.disk, Some(s.disk));
    }
  }

  // ---------------------------------------------------------------- requests that are always safe

  /** Pages are written one after the other: when a later one is there, the earlier are finished. */
  ghost predicate WrittenInTurn(pages: set<string>, disk: Disk, end: Disk) {
    forall m, n :: m in pages && n in pages && Below(m, n) ==> !(disk(m).Garbled? && end(m).Shown?)
  }

  /** A request that is not answered from the cache asks for fewer pages than have been collected,
      or comes when all are finished. */
  ghost predicate Careful(s: Shop, step: Step, end: Disk) {
    step.Look? ==>
      var (p, w, hit) := LookSec(|s.pages|, s.cache, step.numPages, step.imgWidth);
      || hit.Some?
      || (p < |s.pages| && WrittenInTurn(s.pages, s.disk, end))
      || (forall n :: n in s.pages ==> !(s.disk(n).Garbled? && end(n).Shown?))
  }

  lemma FewerAreFinished(pages: set<string>, p: nat, disk: Disk, end: Disk)
    requires p < |pages| && WrittenInTurn(pages, disk, end)
    ensures Whole(InOrder(pages)[..p], disk, end)
  {
    var q := InOrder(pages);
    assert q[p] in ToSet(q);
    forall n | n in q[..p]
      ensures !(disk(n).Garbled? && end(n).Shown?)
    {
      var i :| 0 <= i < p && q[..p][i] == n;
      assert n in ToSet(q) && Below(q[i], q[p]);
    }
  }

  ghost predicate CallsWhole(s: Shop, end: Disk) {
    forall c :: c in s.calls ==> Whole(c.names, c.began, end)
  }

  lemma CarefulStep(s: Shop, step: Step, end: Disk)
    requires CallsWhole(s, end) && Careful(s, step, end)
    ensures CallsWhole(Next(s, step), end)
  {
    hide InOrder, Drawing, WrittenInTurn, Key;
    if step.Look? {
      var (p, w, hit) := LookSec(|s.pages|, s.cache, step.numPages, step.imgWidth);
      PrefixPages(s.pages, p);
      if p < |s.pages| && WrittenInTurn(s.pages, s.disk, end) {
        FewerAreFinished(s.pages, p, s.disk, end);
      }
    } else if step.Store? && step.i < |s.calls| {
      assert forall c :: c in Next(s, step).calls ==> c in s.calls;
    }
  }

  lemma {:induction false} CarefulRun(steps: seq<Step>, start: Disk, end: Disk)
    requires forall k :: 0 <= k < |steps| ==> Careful(Run(steps[..k], start), steps[k], end)
    ensures CallsWhole(Run(steps, start), end)
    decreases |steps|
  {
    hide Careful, CallsWhole, Next;
    if steps == [] {
      NoCalls(start, end);
    } else {
      var n := |steps| - 1;
      forall k | 0 <= k < n
        ensures steps[..n][..k] == steps[..k]
      {
      }
      CarefulRun(steps[..n], start, end);
      CarefulStep(Run(steps[..n], start), steps[n], end);
    }
  }

  lemma NoCalls(start: Disk, end: Disk)
    ensures CallsWhole(Run([], start), end)
  {
  }

  lemma WholeLater(c: Call, view: Disk, end: Disk)
    requires Whole(c.names, c.began, end) && Earlier(c.names, c.began, view)
    ensures Whole(c.names, view, end)
  {
  }

  /** While pages are written in turn, careful requests find no page unfinished. */
  lemma CarefulIsWhole(steps: seq<Step>, start: Disk, end: Disk)
    requires Lawful(steps, start, None)
    requires forall k :: 0 <= k < |steps| ==> Careful(Run(steps[..k], start), steps[k], end)
    ensures Lawful(steps, start, Some(end))
  {
    hide Run, Careful, Whole, Earlier, Progress;
    forall k | 0 <= k < |steps|
      ensures StepOk(Run(steps[..k], start), steps[k], Some(end))
    {
      forall j | 0 <= j < k
        ensures steps[..k][..j] == steps[..j]
      {
      }
      var s := Run(steps[..k], start);
      CarefulRun(steps[..k], start, end);
      assert StepOk(s, steps[k], None);
      if steps[k].Store? && steps[k].i < |s.calls| {
        WholeLater(s.calls[steps[k].i], steps[k].view, end);
      }
    }
  }

  /** So if every request that draws asks for fewer pages than have been collected, or comes when
      all are finished, whatever the cache answers is fresh. */
  lemma CarefulIsFresh(steps: seq<Step>, start: Disk, numPages: int, imgWidth: int)
    requires InTurn(steps, start) && Lawful(steps, start, None)
    requires forall k :: 0 <= k < |steps| ==> Careful(Run(steps[..k], start), steps[k], Run(steps, start).disk)
    ensures
      var s := Run(steps, start);
      var (p, w, hit) := LookSec(|s.pages|, s.cache, numPages, imgWidth);
      && p == NumPages(numPages, |s.pages|) && w == ImgWidth(imgWidth)
      && (hit.Some? ==> hit == Drawing(InOrder(s.pages)[..p], w, s.disk))
  {
    hide Drawing, InOrder, Key, Run, InTurn, Lawful, Careful;
    CarefulIsWhole(steps, start, Run(steps, start).disk);
    CachedIsFresh(steps, start, numPages, imgWidth);
  }

  // ---------------------------------------------------------------- exactly when it goes stale

  /** What is cached for a request is what drawing the current first pages would give. */
  ghost predicate Agrees(pages: set<string>, cache: map<nat, Picture>, disk: Disk) {
    forall p: nat, w: nat :: Clamped(p, w) && Key(p, w) in cache ==>
      p <= |pages| && Drawing(InOrder(pages)[..p], w, disk) == Some(cache[Key(p, w)])
  }

  /** When files get completed, the cache stays right exactly when none of the pages of a cached
      request was unfinished before and can be decoded now. */
  lemma CompletionMeans(pages: set<string>, cache: map<nat, Picture>, before: Disk, after: Disk)
    requires Agrees(pages, cache, before) && Progress(pages, before, after)
    ensures Agrees(pages, cache, after) <==>
              forall p: nat, w: nat :: Clamped(p, w) && Key(p, w) in cache ==>
                p <= |pages| && Whole(InOrder(pages)[..p], before, after)
  {
    hide Drawing, InOrder, Key;
    forall p: nat, w: nat | Clamped(p, w) && Key(p, w) in cache
      ensures Drawing(InOrder(pages)[..p], w, after) == Some(cache[Key(p, w)])
         <==> Whole(InOrder(pages)[..p], before, after)
    {
      PrefixPages(pages, p);
      OldDrawing(InOrder(pages)[..p], w, before, after);
    }
  }

  /** When names join, in whatever order, the cache stays right exactly when for every cached
      request the new first pages can be opened and show what the old ones showed. */
  lemma StaleMeans(pages: set<string>, cache: map<nat, Picture>, names: set<string>, disk: Disk)
    requires Agrees(pages, cache, disk)
    ensures |pages| <= |pages + names|
    ensures Agrees(pages + names, cache, disk) <==>
              forall p: nat, w: nat :: Clamped(p, w) && Key(p, w) in cache ==>
                p <= |pages| && SameShows(InOrder(pages + names)[..p], InOrder(pages)[..p], disk)
  {
    hide Drawing, InOrder, Key, SameShows, AllAfter;
    var more := pages + names;
    PrefixKept(pages, more);
    forall p: nat, w: nat | Clamped(p, w) && Key(p, w) in cache
      ensures Drawing(InOrder(more)[..p], w, disk) == Some(cache[Key(p, w)])
         <==> SameShows(InOrder(more)[..p], InOrder(pages)[..p], disk)
    {
      SameAsCached(InOrder(more)[..p], InOrder(pages)[..p], w, disk);
    }
  }

  /** For pages that can all be shown: exactly when the first pages themselves are the same. */
  lemma StaleMeansOtherPages(pages: set<string>, cache: map<nat, Picture>, names: set<string>, disk: Disk)
    requires Agrees(pages, cache, disk) && forall n :: n in pages + names ==> disk(n).Shown?
    ensures |pages| <= |pages + names|
    ensures Agrees(pages + names, cache, disk) <==>
              forall p: nat, w: nat :: Clamped(p, w) && Key(p, w) in cache ==>
                p <= |pages| && InOrder(pages + names)[..p] == InOrder(pages)[..p]
  {
    hide Drawing, Key, Agrees;
    var more := pages + names;
    StaleMeans(pages, cache, names, disk);
    forall p: nat | p <= |pages|
      ensures SameShows(InOrder(more)[..p], InOrder(pages)[..p], disk)
         <==> InOrder(more)[..p] == InOrder(pages)[..p]
    {
      PrefixShown(more, p, disk);
      PrefixShown(pages, p, disk);
    }
  }

  /** If the only cached preview is wrong, it is what a request for it gets. */
  lemma OneWrong(pages: set<string>, cache: map<nat, Picture>, disk: Disk)
    requires cache.Keys == {Key(1, 96)} && |pages| >= 1 && !Agrees(pages, cache, disk)
    ensures
      var (p, w, hit) := LookSec(|pages|, cache, 1, 96);
      hit.Some? && hit != Drawing(InOrder(pages)[..p], w, disk)
  {
    hide Drawing, InOrder, Key;
    forall p: nat, w: nat | Clamped(p, w)
      ensures Key(p, w) == Key(1, 96) <==> p == 1 && w == 96
    {
      KeyInjective(p, w, 1, 96);
    }
  }

  /** Collecting one page, asking for it, and drawing it as it is: a lawful run after which the
      cache is right. */
  function FirstPage(b: string, disk: Disk): seq<Step> {
    [Collect({b}), Look(1, 96), Store(0, disk)]
  }

  lemma CachesFirst(b: string, disk: Disk)
    requires Drawing([b], 96, disk).Some?
    ensures
      var s := Run(FirstPage(b, disk), disk);
      && s.pages == {b} && s.disk == disk && s.cache == map[Key(1, 96) := Drawing([b], 96, disk).value]
      && Agrees(s.pages, s.cache, disk)
    ensures Lawful(FirstPage(b, disk), disk, None)
  {
    var s0, s1 := Shop({}, map[], [], disk), Shop({b}, map[], [], disk);
    var call := Call(1, 96, [b], disk);
    var s2 := Shop({b}, map[], [call], disk);
    var s3 := Shop({b}, map[Key(1, 96) := Drawing([b], 96, disk).value], [], disk);
    ThreeSteps(b, disk, s0, s1, s2, s3);
    OnlyCached(b, disk);
    forall k | 0 <= k < 3
      ensures StepOk(Run(FirstPage(b, disk)[..k], disk), FirstPage(b, disk)[k], None)
    {
      hide Drawing, InOrder, Key, Run;
    }
  }

  lemma OnlyCached(b: string, disk: Disk)
    requires Drawing([b], 96, disk).Some?
    ensures Agrees({b}, map[Key(1, 96) := Drawing([b], 96, disk).value], disk)
  {
    hide Drawing, InOrder, Key;
    InOrderOne(b);
    assert [b][..1] == [b];
    forall p: nat, w: nat | Clamped(p, w)
      ensures Key(p, w) == Key(1, 96) <==> p == 1 && w == 96
    {
      KeyInjective(p, w, 1, 96);
    }
  }

  lemma ThreeSteps(b: string, disk: Disk, s0: Shop, s1: Shop, s2: Shop, s3: Shop)
    requires Drawing([b], 96, disk).Some?
    requires s0 == Shop({}, map[], [], disk) && s1 == Shop({b}, map[], [], disk)
    requires s2 == Shop({b}, map[], [Call(1, 96, [b], disk)], disk)
    requires s3 == Shop({b}, map[Key(1, 96) := Drawing([b], 96, disk).value], [], disk)
    ensures
      var steps := FirstPage(b, disk);
      && Run(steps[..0], disk) == s0 && Run(steps[..1], disk) == s1 && Run(steps[..2], disk) == s2
      && Run(steps, disk) == s3
  {
    hide Drawing, InOrder, Key;
    var steps := FirstPage(b, disk);
    InOrderOne(b);
    assert [b][..1] == [b];
    assert steps[..1] == [] + [Collect({b})] && steps[..2] == steps[..1] + [Look(1, 96)];
    assert steps == steps[..2] + [Store(0, disk)];
    assert {} + {b} == {b};
    assert Next(s1, Look(1, 96)) == s2;
    assert s2.calls[..0] + s2.calls[1..] == [];
    RunOne([], Collect({b}), disk);
    RunOne(steps[..1], Look(1, 96), disk);
    RunOne(steps[..2], Store(0, disk), disk);
  }

  lemma RunOne(steps: seq<Step>, step: Step, start: Disk)
    ensures Run(steps + [step], start) == Next(Run(steps, start), step)
  {
    hide Next;
    assert (steps + [step])[..|steps|] == steps;
  }

  /** A page that sorts before a cached one makes the cache wrong: here the cached first page is b,
      and a joins before it. */
  lemma StaleOutOfTurn(a: string, b: string, disk: Disk) returns (steps: seq<Step>)
    requires Below(a, b) && disk(a).Shown? && disk(b).Shown? && Encodes(Scaled(disk(b), 96))
    ensures
      var s := Run(steps, disk);
      var (p, w, hit) := LookSec(|s.pages|, s.cache, 1, 96);
      s.pages == {a, b} && s.disk == disk && hit.Some? && hit != Drawing(InOrder(s.pages)[..p], w, disk)
  {
    hide Drawing, InOrder, Run, Key, Agrees, Scaled, FirstPage, Lawful;
    var front := FirstPage(b, disk);
    steps := front + [Collect({a})];
    DrawingOne(b, 96, disk);
    CachesFirst(b, disk);
    RunOne(front, Collect({a}), disk);
    var s := Run(front, disk);
    assert s.pages + {a} == {a, b};
    StaleMeansOtherPages(s.pages, s.cache, {a}, disk);
    InOrderOne(b);
    InOrderTwo(a, b);
    assert InOrder(s.pages + {a})[..1] == [a] && InOrder(s.pages)[..1] == [b];
    OneWrong({a, b}, s.cache, disk);
  }

  /** So does a page that was still being written when it was drawn: the preview without it is
      answered even when the page has been completed. */
  lemma UnfinishedPageIsMissed(b: string, early: Disk, late: Disk) returns (steps: seq<Step>)
    requires early(b).Garbled? && late(b).Shown?
    ensures steps == FirstPage(b, early) + [Change(late)]
    ensures InTurn(steps, early) && Lawful(steps, early, None)
    ensures
      var s := Run(steps, early);
      var (p, w, hit) := LookSec(|s.pages|, s.cache, 1, 96);
      s.pages == {b} && s.disk == late && hit.Some? && hit != Drawing(InOrder(s.pages)[..p], w, late)
  {
    hide Drawing, InOrder, Run, Key, Agrees, FirstPage, Lawful, InTurn, LookSec;
    var front := FirstPage(b, early);
    steps := front + [Change(late)];
    BlankDrawing(b, early);
    CachesFirst(b, early);
    RunOne(front, Change(late), early);
    var s := Run(front, early);
    CompletionMeans(s.pages, s.cache, early, late);
    InOrderOne(b);
    assert InOrder(s.pages)[..1] == [b];
    assert !Whole([b], early, late) by { assert b in [b]; }
    OneWrong({b}, s.cache, late);
    LawfulChange(b, early, late);
  }

  lemma BlankDrawing(b: string, disk: Disk)
    requires disk(b).Garbled?
    ensures Drawing([b], 96, disk).Some?
  {
    StackMore([], b, 96, disk);
    assert [] + [b] == [b];
    assert forall n :: n in [b] ==> n == b;
  }

  lemma LawfulChange(b: string, early: Disk, late: Disk)
    requires Lawful(FirstPage(b, early), early, None) && Run(FirstPage(b, early), early).pages == {b}
    requires Run(FirstPage(b, early), early).disk == early && early(b).Garbled? && late(b).Shown?
    ensures Lawful(FirstPage(b, early) + [Change(late)], early, None)
    ensures InTurn(FirstPage(b, early) + [Change(late)], early)
  {
    hide Run;
    var front := FirstPage(b, early);
    var steps := front + [Change(late)];
    forall k | 0 <= k < |steps|
      ensures steps[..k] == if k < 3 then front[..k] else front
    {
    }
    assert Run([], early).pages == {} by { NoSteps(early); }
    assert steps[..0] == [];
  }

  lemma NoSteps(start: Disk)
    ensures Run([], start) == Shop({}, map[], [], start)
  {
  }

  // ---------------------------------------------------------------- the object

  class Previewer {
    var imgfiles: map<string, bool>
    var previews: map<nat, Picture>

    constructor (imgfiles: map<string, bool>)
      ensures this.imgfiles == imgfiles && previews == map[]
    {
      this.imgfiles, previews := imgfiles, map[];
    }

    method Look(numPages: int, imgWidth: int) returns (p: nat, w: nat, hit: Option<Picture>, names: seq<string>)
      ensures (p, w, hit) == LookSec(|imgfiles.Keys|, previews, numPages, imgWidth)
      ensures p == NumPages(numPages, |imgfiles.Keys|) && w == ImgWidth(imgWidth)
      ensures hit == if p > 0 && Key(p, w) in previews then Some(previews[Key(p, w)]) else None
      ensures hit.None? ==> p <= |names| && names[..p] == InOrder(imgfiles.Keys)[..p]
    {
      p, w := NumPages(numPages, |imgfiles.Keys|), ImgWidth(imgWidth);
      names := [];
      hit := None;
      if p > 0 {
        var key := Key(p, w);
        if key in previews {
          hit := Some(previews[key]);
        } else {
          names := Pages.Sorted(imgfiles.Keys);
          AscendingUnique(names, InOrder(imgfiles.Keys));
        }
      }
    }

    /** A call that nothing comes between. It answers from the cache if it can; it draws the first
        pages otherwise, and stores the preview if there is one. A cache that was right stays so, and
        then the answer is what drawing gives. */
    method Preview(numPages: int, imgWidth: int, disk: Disk) returns (b: Option<Picture>)
      modifies this`previews
      ensures
        var p, w := NumPages(numPages, |imgfiles.Keys|), ImgWidth(imgWidth);
        var hit := p > 0 && Key(p, w) in old(previews);
        var drawn := Drawing(InOrder(imgfiles.Keys)[..p], w, disk);
        && b == (if hit then Some(old(previews)[Key(p, w)]) else drawn)
        && previews == (if !hit && drawn.Some? then old(previews)[Key(p, w) := drawn.value] else old(previews))
        && (Agrees(imgfiles.Keys, old(previews), disk) ==> b == drawn && Agrees(imgfiles.Keys, previews, disk))
    {
      hide InOrder, Drawing, Key;
      var p, w, hit, names := Look(numPages, imgWidth);
      b := hit;
      if b.None? {
        b := Draw(names[..p], w, disk);
        if b.Some? {
          forall q: nat, v: nat | Clamped(q, v)
            ensures Key(q, v) == Key(p, w) <==> q == p && v == w
          {
            KeyInjective(q, v, p, w);
          }
          previews := previews[Key(p, w) := b.value];
        }
      }
    }
  }
}
