/** The life cycle's promises, for every run of a job's threads from its creation. */
module JobTheorems {
  import opened Basics
  import opened JobCore
  import opened JobSteps
  import opened JobProofs

  // ---------------------------------------------------------------- clean-up

  /** The job's clean-up is over and complete: a removal that began after the last write has
      ended. The files were removed twice exactly when a Close came before a started job's
      cancelFn was published, and otherwise once. */
  ghost predicate CleanedUp(s: Sys) {
    && s.cleaned == s.writes
    && s.removals == (if s.winner.Some? && s.early then 2 else 1)
  }

  lemma CleanAtRest(s: Sys)
    requires JobInv(s) && s.v.closed && Quiescent(s)
    ensures CleanedUp(s)
  {
  }

  /** Once a job is closed and everything under way has run, it is cleaned up. */
  lemma CleanupHandOver(acts: seq<Act>)
    requires Run(FRESH, acts).Some?
    ensures var s := Run(FRESH, acts).value; s.v.closed && Quiescent(s) ==> CleanedUp(s)
  {
    ReachableInv(acts);
    var s := Run(FRESH, acts).value;
    if s.v.closed && Quiescent(s) {
      CleanAtRest(s);
    }
  }

  /** No file is removed while the process goroutine lives, and none twice. */
  ghost predicate RemovesOnce(s: Sys) {
    s.removals <= 1 && (ProcessLive(s) ==> s.removals == 0 && !RemovalUnderWay(s))
  }

  lemma NotEarlyRemovesOnce(s: Sys)
    requires JobInv(s) && (!s.early || s.winner.None?)
    ensures RemovesOnce(s)
  {
  }

  /** That holds of every run without such an early Close, and nothing is removed before a
      Close. */
  lemma NoRemovalWhileLive(acts: seq<Act>)
    requires Run(FRESH, acts).Some?
    ensures
      var s := Run(FRESH, acts).value;
      (!s.v.closed ==> s.removals == 0) && (!s.early || s.winner.None? ==> RemovesOnce(s))
  {
    ReachableInv(acts);
  }

  /** The exception is real: a Close between Start's compare-and-set and the publishing of
      cancelFn deletes files under the process goroutine. */
  lemma EarlyCloseRemovesUnderProcess() returns (acts: seq<Act>)
    ensures Run(FRESH, acts).Some?
    ensures var s := Run(FRESH, acts).value; s.early && ProcessLive(s) && RemovalUnderWay(s)
  {
    var s0 := Apply(FRESH, CallStart(0)).value;
    var s1 := Apply(s0, StepStart(0)).value;
    var s2 := Apply(s1, CallClose(7, None)).value;
    var s3 := Apply(s2, StepClose(7)).value;
    var s4 := Apply(s3, StepStart(0)).value;
    var s5 := Apply(s4, StepStart(0)).value;
    var s6 := Apply(s5, StepStart(0)).value;
    var s7 := Apply(s6, StepStart(0)).value;
    var s8 := Apply(s7, StepClose(7)).value;
    assert s8.closes[7].Removing?;
    acts := Prepend(s7, StepClose(7), s8, []);
    acts := Prepend(s6, StepStart(0), s7, acts);
    acts := Prepend(s5, StepStart(0), s6, acts);
    acts := Prepend(s4, StepStart(0), s5, acts);
    acts := Prepend(s3, StepStart(0), s4, acts);
    acts := Prepend(s2, StepClose(7), s3, acts);
    acts := Prepend(s1, CallClose(7, None), s2, acts);
    acts := Prepend(s0, StepStart(0), s1, acts);
    acts := Prepend(FRESH, CallStart(0), s0, acts);
  }

  /** One step in front of a run. */
  lemma Prepend(s: Sys, a: Act, t: Sys, acts: seq<Act>) returns (longer: seq<Act>)
    requires Apply(s, a) == Some(t)
    ensures longer == [a] + acts && Run(s, longer) == Run(t, acts)
  {
    longer := [a] + acts;
    assert longer[1..] == acts;
  }

  // ---------------------------------------------------------------- single run

  ghost predicate Succeeded(s: Sys, call: nat) {
    call in s.starts && s.starts[call] == Returned(true)
  }

  /** However many Starts race, one wins: there is at most one process goroutine, StoppedCh
      is closed at most once, and at most one call reports success. */
  lemma SingleRun(acts: seq<Act>)
    requires Run(FRESH, acts).Some?
    ensures
      var s := Run(FRESH, acts).value;
      && s.spawned <= 1
      && s.v.stopCloses <= 1
      && (s.v.stopCloses == 1 ==> s.spawned == 1)
      && forall c, d :: Succeeded(s, c) && Succeeded(s, d) ==> c == d
  {
    ReachableInv(acts);
  }

  /** The chain written out. */
  lemma ChainInFull()
    ensures Chain(9) == [New, Starting, Download, ExtractMeta, DetectLanguage, DocToPdf,
                         PdfToImages, Tesseract, Ending, Finished]
  {
    assert Chain(3) == [New, Starting, Download, ExtractMeta];
    assert Chain(6) == Chain(3) + [DetectLanguage, DocToPdf, PdfToImages];
  }

  lemma TrailMeans(s: Sys)
    requires TrailInv(s)
    ensures |s.trail| > 0 && s.trail[|s.trail| - 1] == s.v.state
    ensures s.v.state != Failed ==> s.trail == Chain(Ord(s.v.state))
    ensures s.v.state == Failed ==>
              1 <= Ord(s.v.errstate) <= LAST_STAGE && s.trail == Chain(Ord(s.v.errstate)) + [Failed]
  {
    if s.v.state != Failed {
      ChainEnds(Ord(s.v.state));
      StageOfOrd(s.v.state);
    }
  }

  lemma ChainEnds(k: nat)
    requires k <= 9
    ensures |Chain(k)| > 0 && Chain(k)[|Chain(k)| - 1] == Stage(k)
  {
    hide Stage;
    assert Stage(0) == New by { StageZero(); }
  }

  lemma StageZero()
    ensures Stage(0) == New
  {
  }

  lemma StageOfOrd(st: JobState)
    ensures st != Failed ==> Stage(Ord(st)) == st
  {
  }

  /** The states a job has been in are an initial part of the chain, possibly followed by
      Failed, and errstate is then the last of the others. */
  lemma StateHistory(acts: seq<Act>)
    requires Run(FRESH, acts).Some?
    ensures
      var s := Run(FRESH, acts).value;
      && |s.trail| > 0 && s.trail[|s.trail| - 1] == s.v.state
      && (s.v.state != Failed ==> s.trail == Chain(Ord(s.v.state)))
      && (s.v.state == Failed ==>
            1 <= Ord(s.v.errstate) <= LAST_STAGE && s.trail == Chain(Ord(s.v.errstate)) + [Failed])
  {
    ReachableInv(acts);
    hide Run, TrailInv, WinnerInv, ProcInv, DutyInv, TallyInv, CleanInv, WatchInv, Chain, Stage;
    TrailMeans(Run(FRESH, acts).value);
  }

  /** The guarded fields change only by one of the six critical sections, and the history
      grows exactly when the state moves. */
  ghost predicate BySection(s: Sys, t: Sys) {
    || (t.v == s.v && t.trail == s.trail)
    || (t.v == PublishSec(s.v) && t.trail == s.trail)
    || (t.v == DoneSec(s.v) && t.trail == s.trail)
    || (t.v == CloseSec(s.v, t.v.error) && t.v.error == s.v.error.Or(t.v.error) && t.trail == s.trail)
    || (!Terminal(s.v.state) && t.v == s.v.(state := t.v.state) && t.trail == s.trail + [t.v.state])
    || (!Terminal(s.v.state) && s.proc.Failing? && t.v == FailSec(s.v, s.proc.err) && t.trail == s.trail + [Failed])
  }

  lemma StartBySection(s: Sys, c: nat)
    requires ProcInv(s) && StartStep(s, c).Some?
    ensures BySection(s, StartStep(s, c).value)
  {
  }

  lemma CloseBySection(s: Sys, c: nat)
    requires ProcInv(s) && CloseStep(s, c).Some?
    ensures BySection(s, CloseStep(s, c).value)
  {
  }

  lemma ProcBySection(s: Sys)
    requires ProcInv(s) && ProcNext(s).Some?
    ensures BySection(s, ProcNext(s).value)
  {
    hide Stage;
    match s.proc
    case Stamp =>
    case Check(_) =>
    case Trans(_) =>
    case Body(_) =>
    case Failing(_) =>
    case Finishing =>
    case AfterDone(_) =>
    case Wiping(_) =>
  }

  lemma OnlySections(s: Sys, a: Act)
    requires ProcInv(s) && Apply(s, a).Some?
    ensures BySection(s, Apply(s, a).value)
  {
    hide StartStep, CloseStep, ProcNext;
    match a
    case StepStart(c) => StartBySection(s, c);
    case StepClose(c) => CloseBySection(s, c);
    case ProcStep => ProcBySection(s);
    case CallStart(_) =>
    case CallClose(_, _) =>
    case WatchTick(_) =>
    case WatchResume =>
    case WatchEnd =>
    case Deadline =>
    case ProcWrite =>
    case ProcFail(_) =>
  }

  /** Finished and Failed are never left. */
  lemma {:induction false} TerminalAbsorbs(s: Sys, acts: seq<Act>)
    requires JobInv(s) && Terminal(s.v.state) && Run(s, acts).Some?
    ensures Run(s, acts).value.v.state == s.v.state
    ensures Run(s, acts).value.trail == s.trail
    decreases |acts|
  {
    hide Apply;
    if acts != [] {
      var t := Apply(s, acts[0]).value;
      StepKeepsInv(s, acts[0]);
      OnlySections(s, acts[0]);
      TerminalAbsorbs(t, acts[1..]);
    }
  }

  // ---------------------------------------------------------------- cancellation

  /** The chain moves still possible once the context is done: the one whose context check
      has already passed. */
  function Budget(s: Sys): nat {
    Reached(s.v) + if s.proc.Trans? then 1 else 0
  }

  predicate Spends(s: Sys, t: Sys) {
    t.ctx == s.ctx && Budget(t) <= Budget(s) && Reached(s.v) <= Reached(t.v)
  }

  lemma StartSpends(s: Sys, c: nat)
    requires WinnerInv(s) && ProcInv(s) && s.ctx.Dead? && StartStep(s, c).Some?
    ensures Spends(s, StartStep(s, c).value)
  {
  }

  lemma CloseSpends(s: Sys, c: nat)
    requires WinnerInv(s) && ProcInv(s) && s.ctx.Dead? && CloseStep(s, c).Some?
    ensures Spends(s, CloseStep(s, c).value)
  {
    match s.closes[c]
    case Section(_) =>
    case Cancel =>
    case Remove =>
    case Removing(_) =>
  }

  lemma ProcSpends(s: Sys)
    requires WinnerInv(s) && ProcInv(s) && s.ctx.Dead? && ProcNext(s).Some?
    ensures Spends(s, ProcNext(s).value)
  {
    hide Stage;
    match s.proc
    case Stamp =>
    case Check(_) =>
    case Trans(_) =>
    case Body(_) =>
    case Failing(_) =>
    case Finishing =>
    case AfterDone(_) =>
    case Wiping(_) =>
  }

  lemma DeadStep(s: Sys, a: Act)
    requires JobInv(s) && s.ctx.Dead? && Apply(s, a).Some?
    ensures Spends(s, Apply(s, a).value)
  {
    hide StartStep, CloseStep, ProcNext;
    match a
    case StepStart(c) => StartSpends(s, c);
    case StepClose(c) => CloseSpends(s, c);
    case ProcStep => ProcSpends(s);
    case CallStart(_) =>
    case CallClose(_, _) =>
    case WatchTick(_) =>
    case WatchResume =>
    case WatchEnd =>
    case Deadline =>
    case ProcWrite =>
    case ProcFail(_) =>
  }

  /** After the context is done at most one transition succeeds, and none unless the process
      was just past its check. A job that ends in Finished all the same was making, or had
      made, its last transition. */
  lemma {:induction false} CancellationBound(s: Sys, acts: seq<Act>)
    requires JobInv(s) && s.ctx.Dead? && Run(s, acts).Some?
    ensures
      var t := Run(s, acts).value;
      && Reached(s.v) <= Reached(t.v) <= Reached(s.v) + (if s.proc.Trans? then 1 else 0)
      && (Past(t.proc) ==> Terminal(t.v.state))
      && (t.v.state == Finished ==> s.proc == Trans(LAST_STAGE) || s.v.state == Finished)
    decreases |acts|
  {
    hide Apply, DutyInv, TallyInv, CleanInv, WatchInv;
    if acts == [] {
    } else {
      var u := Apply(s, acts[0]).value;
      StepKeepsInv(s, acts[0]);
      DeadStep(s, acts[0]);
      assert Reached(u.v) + (if u.proc.Trans? then 1 else 0) <= Reached(s.v) + (if s.proc.Trans? then 1 else 0);
      CancellationBound(u, acts[1..]);
    }
    RunKeepsInv(s, acts);
  }

  // ---------------------------------------------------------------- errors and completion

  lemma LifecycleInvariant(acts: seq<Act>)
    requires Run(FRESH, acts).Some?
    ensures
      var v := Run(FRESH, acts).value.v;
      && (v.state == Failed ==> v.error.Some?)
      && (v.done <==> v.stopped) && (v.done <==> v.stopCloses == 1)
      && (v.done ==> Terminal(v.state) && !v.cancelSet)
  {
    ReachableInv(acts);
  }

  /** The first error set is the one the job reports ever after. */
  lemma {:induction false} FirstErrorStays(s: Sys, acts: seq<Act>)
    requires JobInv(s) && s.v.error.Some? && Run(s, acts).Some?
    ensures Run(s, acts).value.v.error == s.v.error
    decreases |acts|
  {
    hide Apply;
    if acts != [] {
      StepKeepsInv(s, acts[0]);
      OnlySections(s, acts[0]);
      FirstErrorStays(Apply(s, acts[0]).value, acts[1..]);
    }
  }

  lemma CheckPasses(s: Sys, k: nat)
    requires s.proc == Check(k) && !s.ctx.Dead?
    ensures Apply(s, ProcStep) == Some(s.(proc := Trans(k)))
  {
  }

  lemma TransMoves(s: Sys, k: nat)
    requires 1 <= k <= LAST_STAGE && s.proc == Trans(k) && s.v.state == Stage(k)
    ensures Apply(s, ProcStep)
         == Some(s.(v := s.v.(state := Stage(k + 1)), proc := if k == LAST_STAGE then Finishing else Body(k),
                    trail := s.trail + [Stage(k + 1)]))
  {
    hide Stage;
  }

  lemma BodyEnds(s: Sys, k: nat)
    requires s.proc == Body(k)
    ensures Apply(s, ProcStep) == Some(s.(proc := Check(k + 1)))
  {
  }

  /** Left alone, a job at its k-th check runs to the end of the chain. */
  lemma {:induction false} CanFinish(s: Sys, k: nat) returns (acts: seq<Act>)
    requires 1 <= k <= LAST_STAGE && s.proc == Check(k) && s.v.state == Stage(k) && !s.ctx.Dead?
    ensures Run(s, acts).Some?
    ensures
      var t := Run(s, acts).value;
      t == s.(v := s.v.(state := Finished), proc := Finishing, trail := t.trail)
    decreases LAST_STAGE - k
  {
    assert Stage(LAST_STAGE + 1) == Finished;
    hide Apply, Stage, Run;
    var s1 := s.(proc := Trans(k));
    CheckPasses(s, k);
    TransMoves(s1, k);
    var s2 := Apply(s1, ProcStep).value;
    if k == LAST_STAGE {
      acts := NoActs(s2);
    } else {
      BodyEnds(s2, k);
      var s3 := s2.(proc := Check(k + 1));
      acts := CanFinish(s3, k + 1);
      acts := Prepend(s2, ProcStep, s3, acts);
    }
    acts := Prepend(s1, ProcStep, s2, acts);
    acts := Prepend(s, ProcStep, s1, acts);
  }

  lemma NoActs(s: Sys) returns (acts: seq<Act>)
    ensures Run(s, acts) == Some(s)
  {
    acts := [];
  }

  lemma {:induction false} RunConcat(s: Sys, xs: seq<Act>, ys: seq<Act>)
    requires Run(s, xs).Some?
    ensures Run(s, xs + ys) == Run(Run(s, xs).value, ys)
    decreases |xs|
  {
    if xs == [] {
      assert xs + ys == ys;
    } else {
      assert (xs + ys)[1..] == xs[1..] + ys;
      RunConcat(Apply(s, xs[0]).value, xs[1..], ys);
    }
  }

  /** The step is the section of a Close that brings an error, such as the watchdog's. */
  predicate Blames(s: Sys, a: Act) {
    a.StepClose? && a.call in s.closes && s.closes[a.call].Section? && s.closes[a.call].err.Some?
  }

  /** Some step of the run is one. */
  predicate Blamed(s: Sys, acts: seq<Act>)
    requires Run(s, acts).Some?
    decreases |acts|
  {
    acts != [] && (Blames(s, acts[0]) || Blamed(Apply(s, acts[0]).value, acts[1..]))
  }

  ghost predicate BlameStep(s: Sys, a: Act, t: Sys) {
    t.v.state != Failed ==> (t.v.error.Some? <==> s.v.error.Some? || Blames(s, a))
  }

  lemma CloseBlames(s: Sys, c: nat)
    requires CloseStep(s, c).Some?
    ensures BlameStep(s, StepClose(c), CloseStep(s, c).value)
  {
    match s.closes[c]
    case Section(_) =>
    case Cancel =>
    case Remove =>
    case Removing(_) =>
  }

  lemma OneBlame(s: Sys, a: Act)
    requires ProcInv(s) && Apply(s, a).Some?
    ensures BlameStep(s, a, Apply(s, a).value)
  {
    if a.StepClose? {
      CloseBlames(s, a.call);
    } else {
      hide CloseStep, StartStep, ProcNext;
      match a
      case StepStart(c) => StartBySection(s, c); StartLeavesError(s, c);
      case ProcStep => ProcLeavesError(s);
      case CallStart(_) =>
      case CallClose(_, _) =>
      case WatchTick(_) =>
      case WatchResume =>
      case WatchEnd =>
      case Deadline =>
      case ProcWrite =>
      case ProcFail(_) =>
    }
  }

  lemma StartLeavesError(s: Sys, c: nat)
    requires StartStep(s, c).Some?
    ensures StartStep(s, c).value.v.error == s.v.error
  {
    match s.starts[c]
    case Cas =>
    case MakeCtx =>
    case Publish =>
    case SpawnWatch =>
    case SpawnProc =>
  }

  lemma ProcLeavesError(s: Sys)
    requires ProcNext(s).Some?
    ensures ProcNext(s).value.v.state != Failed ==> ProcNext(s).value.v.error == s.v.error
  {
    hide Stage;
    match s.proc
    case Stamp =>
    case Check(_) =>
    case Trans(_) =>
    case Body(_) =>
    case Failing(_) =>
    case Finishing =>
    case AfterDone(_) =>
    case Wiping(_) =>
  }

  /** A job that has not failed carries an error exactly when it had one already or, since
      then, a Close has brought one. */
  lemma {:induction false} ErrorMeansBlame(s: Sys, acts: seq<Act>)
    requires JobInv(s) && Run(s, acts).Some? && Run(s, acts).value.v.state != Failed
    ensures Run(s, acts).value.v.error.Some? <==> s.v.error.Some? || Blamed(s, acts)
    decreases |acts|
  {
    hide Apply, BlameStep;
    if acts != [] {
      var t := Apply(s, acts[0]).value;
      StepKeepsInv(s, acts[0]);
      OneBlame(s, acts[0]);
      if t.v.state == Failed {
        TerminalAbsorbs(t, acts[1..]);
      } else {
        NotFailed(s, acts[0], t);
        ErrorMeansBlame(t, acts[1..]);
      }
    }
  }

  lemma NotFailed(s: Sys, a: Act, t: Sys)
    requires BlameStep(s, a, t) && t.v.state != Failed
    ensures t.v.error.Some? <==> s.v.error.Some? || Blames(s, a)
  {
  }

  /** So a finished job carries an error exactly when some Close of the run brought one. */
  lemma FinishedErrorMeansBlame(acts: seq<Act>)
    requires Run(FRESH, acts).Some? && Run(FRESH, acts).value.v.state == Finished
    ensures Run(FRESH, acts).value.v.error.Some? <==> Blamed(FRESH, acts)
  {
    hide Run, Blamed, JobInv;
    FreshInv();
    ErrorMeansBlame(FRESH, acts);
  }

  /** A watchdog Close that is late leaves an error on a job that has finished, so Finished
      does not imply that no error is set. */
  lemma FinishedMayCarryError() returns (acts: seq<Act>)
    ensures Run(FRESH, acts).Some?
    ensures var v := Run(FRESH, acts).value.v; v.state == Finished && v.error == Some(NoProgress)
  {
    var s0 := Apply(FRESH, CallStart(0)).value;
    var s1 := Apply(s0, StepStart(0)).value;
    var s2 := Apply(s1, StepStart(0)).value;
    var s3 := Apply(s2, StepStart(0)).value;
    var s4 := Apply(s3, StepStart(0)).value;
    var s5 := Apply(s4, StepStart(0)).value;
    var s6 := Apply(s5, WatchTick(0)).value;
    var s7 := Apply(s6, ProcStep).value;
    var middle := CanFinish(s7, 1);
    var s8 := Run(s7, middle).value;
    var s9 := Apply(s8, StepClose(0)).value;
    var last := Prepend(s8, StepClose(0), s9, []);
    RunConcat(s7, middle, last);
    acts := Prepend(s6, ProcStep, s7, middle + last);
    acts := Prepend(s5, WatchTick(0), s6, acts);
    acts := Prepend(s4, StepStart(0), s5, acts);
    acts := Prepend(s3, StepStart(0), s4, acts);
    acts := Prepend(s2, StepStart(0), s3, acts);
    acts := Prepend(s1, StepStart(0), s2, acts);
    acts := Prepend(s0, StepStart(0), s1, acts);
    acts := Prepend(FRESH, CallStart(0), s0, acts);
  }
}
