/** What a Close does to a running job, and what a failing job reports. */
module JobClosing {
  import opened Basics
  import opened JobCore
  import opened JobSteps
  import opened JobProofs
  import opened JobTheorems

  // ---------------------------------------------------------------- the context

  /** What a step does to the context: it is made once, cancel() and the deadline end it while it
      is alive, and it stays as it ended. Nothing else touches it. */
  ghost predicate CtxMoves(s: Sys, a: Act, t: Sys) {
    if s.ctx.Dead? then t.ctx == s.ctx
    else if s.ctx.Live? && a.StepClose? && a.call in s.closes && s.closes[a.call].Cancel? then t.ctx == Dead(Canceled)
    else if s.ctx.Live? && a.Deadline? then t.ctx == Dead(DeadlineExceeded)
    else if s.ctx.NoCtx? && a.StepStart? && a.call in s.starts && s.starts[a.call].MakeCtx? then t.ctx == Live
    else t.ctx == s.ctx
  }

  lemma StartMovesCtx(s: Sys, c: nat)
    requires WinnerInv(s) && StartStep(s, c).Some?
    ensures CtxMoves(s, StepStart(c), StartStep(s, c).value)
  {
    match s.starts[c]
    case Cas =>
    case MakeCtx =>
    case Publish =>
    case SpawnWatch =>
    case SpawnProc =>
  }

  lemma CloseMovesCtx(s: Sys, c: nat)
    requires CloseStep(s, c).Some?
    ensures CtxMoves(s, StepClose(c), CloseStep(s, c).value)
  {
    match s.closes[c]
    case Section(_) =>
    case Cancel =>
    case Remove =>
    case Removing(_) =>
  }

  lemma ProcLeavesCtx(s: Sys)
    requires ProcNext(s).Some?
    ensures ProcNext(s).value.ctx == s.ctx
  {
    hide Stage;
    match s.proc
    case Stamp =>
    case Check(_) =>
    case Trans(_) =>
    case Body(_) =>
    case Failing(_) =>
    case Finishing =>
    case AfterDone(_) =>
    case Wiping(_) =>
  }

  lemma ContextMoves(s: Sys, a: Act)
    requires JobInv(s) && Apply(s, a).Some?
    ensures CtxMoves(s, a, Apply(s, a).value)
  {
    if a.StepStart? {
      StartMovesCtx(s, a.call);
    } else if a.StepClose? {
      CloseMovesCtx(s, a.call);
    } else {
      hide StartStep, CloseStep, ProcNext;
      if a.ProcStep? {
        ProcLeavesCtx(s);
      }
    }
  }

  lemma {:induction false} DeadForGood(s: Sys, acts: seq<Act>)
    requires JobInv(s) && s.ctx.Dead? && Run(s, acts).Some?
    ensures Run(s, acts).value.ctx == s.ctx
    decreases |acts|
  {
    hide Apply;
    if acts != [] {
      StepKeepsInv(s, acts[0]);
      ContextMoves(s, acts[0]);
      DeadForGood(Apply(s, acts[0]).value, acts[1..]);
    }
  }

  /** A Close that has found cancelFn, and is about to call it. */
  ghost predicate CancelInv(s: Sys) {
    forall c :: c in s.closes && s.closes[c].Cancel? ==> s.published
  }

  lemma StartKeepsCancel(s: Sys, c: nat)
    requires CancelInv(s) && StartStep(s, c).Some?
    ensures CancelInv(StartStep(s, c).value)
  {
    match s.starts[c]
    case Cas =>
    case MakeCtx =>
    case Publish =>
    case SpawnWatch =>
    case SpawnProc =>
  }

  lemma CloseKeepsCancel(s: Sys, c: nat)
    requires ProcInv(s) && CancelInv(s) && CloseStep(s, c).Some?
    ensures CancelInv(CloseStep(s, c).value)
  {
    hide Stage;
    match s.closes[c]
    case Section(_) =>
    case Cancel =>
    case Remove =>
    case Removing(_) =>
  }

  lemma ProcKeepsCancel(s: Sys)
    requires CancelInv(s) && ProcNext(s).Some?
    ensures CancelInv(ProcNext(s).value)
  {
    hide Stage;
  }

  lemma CancelKept(s: Sys, a: Act)
    requires ProcInv(s) && CancelInv(s) && Apply(s, a).Some?
    ensures CancelInv(Apply(s, a).value)
  {
    if a.StepStart? {
      StartKeepsCancel(s, a.call);
    } else if a.StepClose? {
      CloseKeepsCancel(s, a.call);
    } else if a.ProcStep? {
      ProcKeepsCancel(s);
    } else {
      hide StartStep, CloseStep, ProcNext, ProcInv;
    }
  }

  lemma FreshCancel()
    ensures CancelInv(FRESH)
  {
    hide Pristine;
    FreshPristine();
    PristineCancel(FRESH);
  }

  lemma PristineCancel(s: Sys)
    requires Pristine(s)
    ensures CancelInv(s)
  {
  }

  lemma {:induction false} RunKeepsCancel(s: Sys, acts: seq<Act>)
    requires JobInv(s) && CancelInv(s) && Run(s, acts).Some?
    ensures CancelInv(Run(s, acts).value)
    decreases |acts|
  {
    hide Apply, CancelInv;
    if acts != [] {
      StepKeepsInv(s, acts[0]);
      CancelKept(s, acts[0]);
      RunKeepsCancel(Apply(s, acts[0]).value, acts[1..]);
    }
  }

  lemma CancelReachable(acts: seq<Act>)
    requires Run(FRESH, acts).Some?
    ensures JobInv(Run(FRESH, acts).value) && CancelInv(Run(FRESH, acts).value)
  {
    hide Run, CancelInv, JobInv;
    ReachableInv(acts);
    FreshInv();
    FreshCancel();
    RunKeepsCancel(FRESH, acts);
  }

  lemma PublishedHasCtx(s: Sys)
    requires WinnerInv(s) && s.published
    ensures !s.ctx.NoCtx?
  {
  }

  /** The call of cancel(): it can always be made, and the context is done when it returns. */
  lemma CancelEnds(s: Sys, call: nat)
    requires JobInv(s) && CancelInv(s) && call in s.closes && s.closes[call].Cancel?
    ensures Apply(s, StepClose(call)).Some?
    ensures
      var u := Apply(s, StepClose(call)).value;
      JobInv(u) && !s.ctx.NoCtx? && u.ctx == (if s.ctx.Dead? then s.ctx else Dead(Canceled))
  {
    CancelIsEnabled(s, call);
    PublishedHasCtx(s);
    hide Apply;
    StepKeepsInv(s, StepClose(call));
    ContextMoves(s, StepClose(call));
  }

  lemma CancelIsEnabled(s: Sys, call: nat)
    requires call in s.closes && s.closes[call].Cancel?
    ensures Apply(s, StepClose(call)).Some?
  {
  }

  lemma CancelStops(s: Sys, call: nat, u: Sys, acts: seq<Act>)
    requires JobInv(s) && CancelInv(s) && call in s.closes && s.closes[call].Cancel?
    requires Apply(s, StepClose(call)) == Some(u) && Run(u, acts).Some?
    ensures Stopped(s, u, Run(u, acts).value)
  {
    hide Apply, Run, CancelInv;
    CancelEnds(s, call);
    hide JobInv;
    DeadForGood(u, acts);
    CancellationBound(u, acts);
  }

  /** From u on, the state after cancel() was called in s, the context is done. At most one more
      transition succeeds, and the job ends in Failed unless that was the last. */
  ghost predicate Stopped(s: Sys, u: Sys, t: Sys) {
    && u.ctx == (if s.ctx.Dead? then s.ctx else Dead(Canceled))
    && t.ctx == u.ctx
    && Reached(u.v) <= Reached(t.v) <= Reached(u.v) + 1
    && (Past(t.proc) ==> Terminal(t.v.state))
    && (t.v.state == Finished ==> u.proc == Trans(LAST_STAGE) || u.v.state == Finished)
  }

  /** A Close that has found a running job's cancelFn stops the job, in every run. */
  lemma CloseStopsJob(past: seq<Act>, call: nat, acts: seq<Act>)
    requires Run(FRESH, past).Some?
    requires call in Run(FRESH, past).value.closes && Run(FRESH, past).value.closes[call].Cancel?
    requires Apply(Run(FRESH, past).value, StepClose(call)).Some?
    requires Run(Apply(Run(FRESH, past).value, StepClose(call)).value, acts).Some?
    ensures
      var s := Run(FRESH, past).value;
      var u := Apply(s, StepClose(call)).value;
      Stopped(s, u, Run(u, acts).value)
  {
    hide Run, Apply, CancelInv, Stopped, JobInv;
    CancelReachable(past);
    var s := Run(FRESH, past).value;
    CancelStops(s, call, Apply(s, StepClose(call)).value, acts);
  }

  // ---------------------------------------------------------------- the watchdog

  /** What a step does to the watchdog: it is launched by the Start that wins; it calls Close, with an
      error, only when it is not in such a call already; it waits for that call to end; and it ends
      when the context is done or StoppedCh has been closed, both of which it never misses. */
  ghost predicate WatchMoves(s: Sys, a: Act, t: Sys) {
    && (t.watch == s.watch
        || (s.watch.Unborn? && t.watch.Selecting? && a.StepStart? && s.winner == Some(a.call))
        || (s.watch.Selecting? && a.WatchTick? && t.watch == InClose(a.call)
            && a.call !in s.closes && a.call in t.closes && t.closes[a.call] == Section(Some(NoProgress)))
        || (s.watch.InClose? && t.watch.Selecting? && s.watch.call in s.closes && s.closes[s.watch.call].Closed?)
        || (s.watch.Selecting? && t.watch.Ended? && (s.ctx.Dead? || s.v.done)))
    && (a.WatchTick? || a.WatchResume? || a.WatchEnd? ==> t.watch != s.watch)
  }

  lemma StartMovesWatch(s: Sys, c: nat)
    requires WinnerInv(s) && StartStep(s, c).Some?
    ensures WatchMoves(s, StepStart(c), StartStep(s, c).value)
  {
    match s.starts[c]
    case Cas =>
    case MakeCtx =>
    case Publish =>
    case SpawnWatch =>
    case SpawnProc =>
  }

  lemma OthersKeepWatch(s: Sys)
    ensures ProcNext(s).Some? ==> ProcNext(s).value.watch == s.watch
    ensures forall c :: CloseStep(s, c).Some? ==> CloseStep(s, c).value.watch == s.watch
  {
    hide Stage;
  }

  lemma WatchdogMoves(s: Sys, a: Act)
    requires JobInv(s) && Apply(s, a).Some?
    ensures WatchMoves(s, a, Apply(s, a).value)
  {
    OthersKeepWatch(s);
    hide CloseStep, ProcNext;
    if a.StepStart? {
      StartMovesWatch(s, a.call);
    }
    hide StartStep;
  }

  lemma WatchdogSees(s: Sys)
    requires JobInv(s) && s.watch.Selecting?
    ensures Apply(s, WatchEnd).Some? <==> s.ctx.Dead? || s.v.done
  {
    hide WinnerInv, TrailInv, DutyInv, TallyInv, CleanInv;
  }

  // ---------------------------------------------------------------- which error is reported

  /** Why the process gives up: at a check its context is done, or a stage's work has failed. The
      compare-and-set of its transition never fails, and a context that is done is never missed. */
  ghost predicate GivesUp(s: Sys, a: Act, t: Sys) {
    && (t.proc.Failing? && t.proc != s.proc ==>
          || (a.ProcStep? && s.proc.Check? && s.ctx == Dead(t.proc.err))
          || (s.proc.Body? && a == ProcFail(t.proc.err)))
    && (a.ProcStep? && s.proc.Check? && s.ctx.Dead? ==> t.proc == Failing(s.ctx.reason))
    && (a.ProcFail? ==> t.proc == Failing(a.reason))
  }

  lemma ProcGivesUp(s: Sys)
    requires ProcInv(s) && ProcNext(s).Some?
    ensures GivesUp(s, ProcStep, ProcNext(s).value)
  {
    hide Stage;
    match s.proc
    case Stamp =>
    case Check(_) =>
    case Trans(_) =>
    case Body(_) =>
    case Failing(_) =>
    case Finishing =>
    case AfterDone(_) =>
    case Wiping(_) =>
  }

  lemma OthersKeepProc(s: Sys, a: Act)
    requires WinnerInv(s) && !a.ProcStep? && !a.ProcFail? && Apply(s, a).Some?
    ensures Apply(s, a).value.proc == s.proc || (s.proc.NotSpawned? && Apply(s, a).value.proc == Stamp)
  {
    hide ProcNext;
    if a.StepStart? {
      match s.starts[a.call]
      case Cas =>
      case MakeCtx =>
      case Publish =>
      case SpawnWatch =>
      case SpawnProc =>
    } else {
      hide StartStep;
    }
  }

  lemma WhyItFails(s: Sys, a: Act)
    requires JobInv(s) && Apply(s, a).Some?
    ensures GivesUp(s, a, Apply(s, a).value)
  {
    hide ProcNext;
    if a.ProcStep? {
      ProcGivesUp(s);
    } else if !a.ProcFail? {
      OthersKeepProc(s, a);
    }
  }

  /** On its way from giving up with e, in state `at` and with the error `first` if there was one.
      Only a Close that brings an error of its own may then get ahead of e. */
  ghost predicate FailsWith(t: Sys, e: Err, at: JobState, first: Option<Err>, blamed: bool) {
    if t.proc == Failing(e) then t.v.state == at && (first.Some? || !blamed ==> t.v.error == first)
    else
      && (t.proc.Finishing? || Past(t.proc)) && t.v.state == Failed && t.v.errstate == at
      && (first.Some? || !blamed ==> t.v.error == Some(if first.Some? then first.value else e))
  }

  lemma ProcFails(s: Sys, e: Err, at: JobState, first: Option<Err>, blamed: bool)
    requires ProcNext(s).Some? && FailsWith(s, e, at, first, blamed)
    ensures FailsWith(ProcNext(s).value, e, at, first, blamed)
  {
    hide Stage, TransitionSec;
    if s.proc.Failing? {
      GivenUpFails(s);
    } else if s.proc.Finishing? {
      FailedFinishes(s);
    } else {
      DoneGoes(s);
    }
    hide ProcNext;
  }

  lemma GivenUpFails(s: Sys)
    requires s.proc.Failing?
    ensures ProcNext(s).Some?
    ensures ProcNext(s).value.proc == Finishing && ProcNext(s).value.v == FailSec(s.v, s.proc.err)
  {
  }

  lemma FailedFinishes(s: Sys)
    requires s.proc.Finishing?
    ensures ProcNext(s).Some?
    ensures ProcNext(s).value.proc.AfterDone? && ProcNext(s).value.v == DoneSec(s.v)
  {
  }

  lemma DoneGoes(s: Sys)
    requires Past(s.proc) && ProcNext(s).Some?
    ensures Past(ProcNext(s).value.proc) && ProcNext(s).value.v == s.v
  {
  }

  /** With the process goroutine launched, a Start can only lose. */
  lemma LateStart(s: Sys, c: nat)
    requires WinnerInv(s) && !s.proc.NotSpawned? && s.v.state != New && StartStep(s, c).Some?
    ensures StartStep(s, c).value.v == s.v && StartStep(s, c).value.proc == s.proc
  {
    match s.starts[c]
    case Cas =>
    case MakeCtx =>
    case Publish =>
    case SpawnWatch =>
    case SpawnProc =>
  }

  lemma FailingIsLate(s: Sys, e: Err, at: JobState, first: Option<Err>, blamed: bool)
    requires ProcInv(s) && FailsWith(s, e, at, first, blamed)
    ensures !s.proc.NotSpawned? && s.v.state != New
  {
    hide Stage;
  }

  lemma SameFailing(s: Sys, t: Sys, e: Err, at: JobState, first: Option<Err>, blamed: bool)
    requires FailsWith(s, e, at, first, blamed) && t.v == s.v && t.proc == s.proc
    ensures FailsWith(t, e, at, first, blamed)
  {
  }

  lemma CloseChanges(s: Sys, c: nat)
    requires CloseStep(s, c).Some?
    ensures CloseStep(s, c).value.proc == s.proc
    ensures CloseStep(s, c).value.v == if s.closes[c].Section? then CloseSec(s.v, s.closes[c].err) else s.v
  {
    match s.closes[c]
    case Section(_) =>
    case Cancel =>
    case Remove =>
    case Removing(_) =>
  }

  lemma CloseLeavesFailing(s: Sys, c: nat, e: Err, at: JobState, first: Option<Err>, blamed: bool)
    requires CloseStep(s, c).Some? && FailsWith(s, e, at, first, blamed)
    ensures FailsWith(CloseStep(s, c).value, e, at, first, blamed || Blames(s, StepClose(c)))
  {
    CloseChanges(s, c);
    assert c in s.closes;
    hide CloseStep;
  }

  lemma FailingStep(s: Sys, a: Act, e: Err, at: JobState, first: Option<Err>, blamed: bool)
    requires JobInv(s) && Apply(s, a).Some? && FailsWith(s, e, at, first, blamed)
    ensures FailsWith(Apply(s, a).value, e, at, first, blamed || Blames(s, a))
  {
    if a.ProcStep? {
      ProcFails(s, e, at, first, blamed);
    } else if a.StepStart? {
      FailingIsLate(s, e, at, first, blamed);
      LateStart(s, a.call);
      SameFailing(s, Apply(s, a).value, e, at, first, blamed);
    } else if a.StepClose? {
      CloseLeavesFailing(s, a.call, e, at, first, blamed);
    } else {
      hide StartStep, CloseStep, ProcNext;
    }
  }

  lemma {:induction false} FailingRun(s: Sys, acts: seq<Act>, e: Err, at: JobState, first: Option<Err>, blamed: bool)
    requires JobInv(s) && Run(s, acts).Some? && FailsWith(s, e, at, first, blamed)
    ensures FailsWith(Run(s, acts).value, e, at, first, blamed || Blamed(s, acts))
    decreases |acts|
  {
    hide Apply, FailsWith, JobInv;
    if acts != [] {
      StepKeepsInv(s, acts[0]);
      FailingStep(s, acts[0], e, at, first, blamed);
      FailingRun(Apply(s, acts[0]).value, acts[1..], e, at, first, blamed || Blames(s, acts[0]));
    }
  }

  /** A process that has given up with e ends in Failed with the state it gave up in as errstate, and
      reports e, unless the job had an error before or a Close has brought one since. */
  lemma FailureReported(s: Sys, acts: seq<Act>)
    requires JobInv(s) && s.proc.Failing? && Run(s, acts).Some? && Past(Run(s, acts).value.proc)
    ensures
      var t := Run(s, acts).value;
      && t.v.state == Failed && t.v.errstate == s.v.state
      && (s.v.error.Some? ==> t.v.error == s.v.error)
      && (s.v.error.None? && !Blamed(s, acts) ==> t.v.error == Some(s.proc.err))
  {
    hide Run, Apply, JobInv;
    FailingRun(s, acts, s.proc.err, s.v.state, s.v.error, false);
  }
}
