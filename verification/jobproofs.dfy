/** What every interleaving of one job's threads keeps. */
module JobProofs {
  import opened Basics
  import opened JobCore
  import opened JobSteps

  // ---------------------------------------------------------------- the invariant

  ghost predicate WinnerInv(s: Sys) {
    && (s.winner.None? <==> s.v.state == New)
    && (forall c :: c in s.starts && !s.starts[c].Cas? && s.starts[c] != Returned(false) ==> s.winner == Some(c))
    && (s.winner.None? ==>
          s.ctx.NoCtx? && !s.published && s.watch.Unborn? && s.proc.NotSpawned? && s.spawned == 0)
    && (s.winner.Some? ==> s.winner.value in s.starts && LaunchPhase(s, s.starts[s.winner.value]))
  }

  /** How far the one successful Start has come. */
  predicate LaunchPhase(s: Sys, pc: StartPc) {
    && !pc.Cas? && pc != Returned(false)
    && (pc.MakeCtx? <==> s.ctx.NoCtx?)
    && (s.published <==> !pc.MakeCtx? && !pc.Publish?)
    && (s.watch.Unborn? <==> pc.MakeCtx? || pc.Publish? || pc.SpawnWatch?)
    && (s.proc.NotSpawned? <==> !pc.Returned?)
    && s.spawned == (if pc.Returned? then 1 else 0)
  }

  predicate Past(p: ProcPc) {
    p.AfterDone? || p.Wiping? || p.Gone?
  }

  predicate ProcInv(s: Sys) {
    && match s.proc {
      case NotSpawned => s.v.state == New || s.v.state == Starting
      case Stamp => s.v.state == Starting
      case Check(k) => 1 <= k <= LAST_STAGE && s.v.state == Stage(k)
      case Trans(k) => 1 <= k <= LAST_STAGE && s.v.state == Stage(k)
      case Body(k) => 1 <= k < LAST_STAGE && s.v.state == Stage(k + 1)
      case Failing(_) => 1 <= Ord(s.v.state) <= LAST_STAGE
      case _ => Terminal(s.v.state)
    }
    && s.v.done == s.v.stopped == Past(s.proc)
    && s.v.stopCloses == (if Past(s.proc) then 1 else 0)
    && s.v.cancelSet == (s.published && !Past(s.proc))
  }

  predicate TrailInv(s: Sys) {
    if s.v.state == Failed then
      && 1 <= Ord(s.v.errstate) <= LAST_STAGE
      && s.trail == Chain(Ord(s.v.errstate)) + [Failed]
      && s.v.error.Some?
    else
      s.trail == Chain(Ord(s.v.state))
  }

  /** processDone saw the job closed, and so will remove, removes, or has removed its files. */
  predicate Wipes(p: ProcPc) {
    (p.AfterDone? && p.wipe) || p.Wiping? || (p.Gone? && p.wiped)
  }

  /** Who owes the removal: the first Close that found no cancelFn, processDone, or both. */
  ghost predicate DutyInv(s: Sys) {
    && (forall c :: c in s.closes && (s.closes[c].Remove? || s.closes[c].Removing?) ==> s.remover == Some(c))
    && (forall c :: c in s.closes && !s.closes[c].Section? ==> s.v.closed)
    && (s.remover.Some? ==>
          && s.v.closed
          && s.remover.value in s.closes
          && !s.closes[s.remover.value].Section? && !s.closes[s.remover.value].Cancel?)
    && (s.early ==> s.v.closed)
    && (!s.published ==> (s.v.closed <==> s.early))
    && (!Past(s.proc) || Wipes(s.proc) ==> (s.remover.Some? <==> s.early))
    && (Past(s.proc) && !Wipes(s.proc) ==> !s.early && (s.v.closed <==> s.remover.Some?))
    && (Wipes(s.proc) ==> s.v.closed)
  }

  ghost function CloserRemovals(s: Sys): nat {
    if s.remover.Some? && s.remover.value in s.closes && !s.closes[s.remover.value].Remove? then 1 else 0
  }

  function ProcRemovals(p: ProcPc): nat {
    if p.Wiping? || (p.Gone? && p.wiped) then 1 else 0
  }

  ghost predicate TallyInv(s: Sys) {
    s.removals == CloserRemovals(s) + ProcRemovals(s.proc)
  }

  ghost predicate CleanInv(s: Sys) {
    && s.cleaned <= s.writes
    && (s.proc.NotSpawned? ==> s.writes == 1)
    && (s.proc.Wiping? ==> s.proc.began == s.writes)
    && (s.proc.Gone? && s.proc.wiped ==> s.cleaned == s.writes)
    && (forall c :: c in s.closes && s.closes[c].Removing? ==> s.closes[c].began <= s.writes)
    && ((s.proc.NotSpawned? || (Past(s.proc) && !Wipes(s.proc))) && s.remover.Some? && s.remover.value in s.closes ==>
          && (s.closes[s.remover.value].Removing? ==> s.closes[s.remover.value].began == s.writes)
          && (s.closes[s.remover.value].Closed? ==> s.cleaned == s.writes))
  }

  ghost predicate WatchInv(s: Sys) {
    s.watch.InClose? ==> s.watch.call in s.closes
  }

  ghost predicate JobInv(s: Sys) {
    WinnerInv(s) && ProcInv(s) && TrailInv(s) && DutyInv(s) && TallyInv(s) && CleanInv(s) && WatchInv(s)
  }

  // ---------------------------------------------------------------- it is kept

  /** Nothing has been called and nothing has happened. */
  ghost predicate Pristine(s: Sys) {
    && s.v == FRESH_VARS && s.ctx.NoCtx?
    && (forall c :: c !in s.starts) && (forall c :: c !in s.closes)
    && s.watch.Unborn? && s.proc.NotSpawned?
    && s.writes == 1 && s.cleaned == 0 && s.removals == 0
    && s.winner.None? && !s.published && s.spawned == 0
    && s.remover.None? && !s.early && s.trail == [New]
  }

  lemma FreshPristine()
    ensures Pristine(FRESH)
  {
  }

  lemma PristineCalls(s: Sys)
    requires Pristine(s)
    ensures WinnerInv(s) && DutyInv(s) && WatchInv(s) && TallyInv(s) && CleanInv(s)
  {
    hide Stage, Chain;
  }

  lemma PristineProc(s: Sys)
    requires Pristine(s)
    ensures ProcInv(s) && TrailInv(s)
  {
    assert Chain(0) == [New];
  }

  lemma FreshInv()
    ensures JobInv(FRESH)
  {
    hide WinnerInv, ProcInv, TrailInv, DutyInv, TallyInv, CleanInv, WatchInv, Pristine;
    FreshPristine();
    PristineCalls(FRESH);
    PristineProc(FRESH);
  }

  lemma StartKeepsWinner(s: Sys, c: nat)
    requires StartStep(s, c).Some? && WinnerInv(s) && ProcInv(s)
    ensures WinnerInv(StartStep(s, c).value)
  {
    match s.starts[c]
    case Cas =>
    case MakeCtx =>
    case Publish =>
    case SpawnWatch =>
    case SpawnProc =>
  }

  lemma StartKeepsProc(s: Sys, c: nat)
    requires StartStep(s, c).Some? && WinnerInv(s) && ProcInv(s)
    ensures ProcInv(StartStep(s, c).value)
  {
  }

  lemma StartKeepsTrail(s: Sys, c: nat)
    requires StartStep(s, c).Some? && WinnerInv(s) && ProcInv(s) && TrailInv(s)
    ensures TrailInv(StartStep(s, c).value)
  {
  }

  lemma StartKeepsDuty(s: Sys, c: nat)
    requires StartStep(s, c).Some? && WinnerInv(s) && ProcInv(s) && DutyInv(s)
    ensures DutyInv(StartStep(s, c).value)
  {
    match s.starts[c]
    case Cas =>
    case MakeCtx =>
    case Publish =>
    case SpawnWatch =>
    case SpawnProc =>
  }

  lemma StartKeepsClean(s: Sys, c: nat)
    requires StartStep(s, c).Some? && WinnerInv(s) && ProcInv(s) && DutyInv(s) && CleanInv(s)
    ensures CleanInv(StartStep(s, c).value)
  {
    match s.starts[c]
    case Cas =>
    case MakeCtx =>
    case Publish =>
    case SpawnWatch =>
    case SpawnProc =>
  }

  lemma StartKeepsTally(s: Sys, c: nat)
    requires StartStep(s, c).Some? && WinnerInv(s) && ProcInv(s) && DutyInv(s) && TallyInv(s)
    ensures TallyInv(StartStep(s, c).value)
  {
    match s.starts[c]
    case Cas =>
    case MakeCtx =>
    case Publish =>
    case SpawnWatch =>
    case SpawnProc =>
  }

  lemma CloseKeepsWinner(s: Sys, c: nat)
    requires CloseStep(s, c).Some? && WinnerInv(s) && ProcInv(s)
    ensures WinnerInv(CloseStep(s, c).value)
  {
    match s.closes[c]
    case Section(_) =>
    case Cancel =>
    case Remove =>
    case Removing(_) =>
  }

  lemma CloseKeepsProc(s: Sys, c: nat)
    requires CloseStep(s, c).Some? && WinnerInv(s) && ProcInv(s)
    ensures ProcInv(CloseStep(s, c).value)
  {
    match s.closes[c]
    case Section(_) =>
    case Cancel =>
    case Remove =>
    case Removing(_) =>
  }

  lemma CloseKeepsTrail(s: Sys, c: nat)
    requires CloseStep(s, c).Some? && WinnerInv(s) && ProcInv(s) && TrailInv(s)
    ensures TrailInv(CloseStep(s, c).value)
  {
    match s.closes[c]
    case Section(_) =>
    case Cancel =>
    case Remove =>
    case Removing(_) =>
  }

  lemma CloseKeepsDuty(s: Sys, c: nat)
    requires CloseStep(s, c).Some? && WinnerInv(s) && ProcInv(s) && DutyInv(s)
    ensures DutyInv(CloseStep(s, c).value)
  {
    match s.closes[c]
    case Section(_) =>
    case Cancel =>
    case Remove =>
    case Removing(_) =>
  }

  lemma CloseKeepsClean(s: Sys, c: nat)
    requires CloseStep(s, c).Some? && WinnerInv(s) && ProcInv(s) && DutyInv(s) && CleanInv(s)
    ensures CleanInv(CloseStep(s, c).value)
  {
    match s.closes[c]
    case Section(_) =>
    case Cancel =>
    case Remove =>
    case Removing(_) =>
  }

  lemma CloseKeepsTally(s: Sys, c: nat)
    requires CloseStep(s, c).Some? && WinnerInv(s) && ProcInv(s) && DutyInv(s) && TallyInv(s)
    ensures TallyInv(CloseStep(s, c).value)
  {
    match s.closes[c]
    case Section(_) =>
    case Cancel =>
    case Remove =>
    case Removing(_) =>
  }

  lemma ProcKeepsWinner(s: Sys)
    requires ProcNext(s).Some? && WinnerInv(s) && ProcInv(s)
    ensures WinnerInv(ProcNext(s).value)
  {
    hide Chain;
    match s.proc
    case Stamp =>
    case Check(_) =>
    case Trans(_) =>
    case Body(_) =>
    case Failing(_) =>
    case Finishing =>
    case AfterDone(_) =>
    case Wiping(_) =>
  }

  lemma ProcKeepsProc(s: Sys)
    requires ProcNext(s).Some? && WinnerInv(s) && ProcInv(s)
    ensures ProcInv(ProcNext(s).value)
  {
    match s.proc
    case Stamp =>
    case Check(_) =>
    case Trans(_) =>
    case Body(_) =>
    case Failing(_) =>
    case Finishing =>
    case AfterDone(_) =>
    case Wiping(_) =>
  }

  lemma ProcKeepsTrail(s: Sys)
    requires ProcNext(s).Some? && WinnerInv(s) && ProcInv(s) && TrailInv(s)
    ensures TrailInv(ProcNext(s).value)
  {
    match s.proc
    case Stamp =>
    case Check(_) =>
    case Trans(_) =>
    case Body(_) =>
    case Failing(_) =>
    case Finishing =>
    case AfterDone(_) =>
    case Wiping(_) =>
  }

  lemma ProcKeepsDuty(s: Sys)
    requires ProcNext(s).Some? && WinnerInv(s) && ProcInv(s) && DutyInv(s)
    ensures DutyInv(ProcNext(s).value)
  {
    hide Stage, Chain;
    match s.proc
    case Stamp =>
    case Check(_) =>
    case Trans(_) =>
    case Body(_) =>
    case Failing(_) =>
    case Finishing =>
    case AfterDone(_) =>
    case Wiping(_) =>
  }

  lemma ProcKeepsClean(s: Sys)
    requires ProcNext(s).Some? && WinnerInv(s) && ProcInv(s) && DutyInv(s) && CleanInv(s)
    ensures CleanInv(ProcNext(s).value)
  {
    hide Stage, Chain, Ord, Terminal;
    match s.proc
    case Stamp =>
    case Check(_) =>
    case Trans(_) =>
    case Body(_) =>
    case Failing(_) =>
    case Finishing =>
    case AfterDone(_) =>
    case Wiping(_) =>
  }

  lemma ProcKeepsTally(s: Sys)
    requires ProcNext(s).Some? && WinnerInv(s) && ProcInv(s) && DutyInv(s) && TallyInv(s)
    ensures TallyInv(ProcNext(s).value)
  {
    hide Stage, Chain;
    match s.proc
    case Stamp =>
    case Check(_) =>
    case Trans(_) =>
    case Body(_) =>
    case Failing(_) =>
    case Finishing =>
    case AfterDone(_) =>
    case Wiping(_) =>
  }

  predicate Ambient(a: Act) {
    !a.StepStart? && !a.StepClose? && !a.ProcStep?
  }

  lemma AmbientKeepsWinner(s: Sys, a: Act)
    requires Ambient(a) && Apply(s, a).Some? && WinnerInv(s) && ProcInv(s)
    ensures WinnerInv(Apply(s, a).value)
  {
    match a
    case CallStart(_) =>
    case CallClose(_, _) =>
    case WatchTick(_) =>
    case WatchResume =>
    case WatchEnd =>
    case Deadline =>
    case ProcWrite =>
    case ProcFail(_) =>
  }

  lemma AmbientKeepsProc(s: Sys, a: Act)
    requires Ambient(a) && Apply(s, a).Some? && WinnerInv(s) && ProcInv(s)
    ensures ProcInv(Apply(s, a).value)
  {
    match a
    case CallStart(_) =>
    case CallClose(_, _) =>
    case WatchTick(_) =>
    case WatchResume =>
    case WatchEnd =>
    case Deadline =>
    case ProcWrite =>
    case ProcFail(_) =>
  }

  lemma AmbientKeepsTrail(s: Sys, a: Act)
    requires Ambient(a) && Apply(s, a).Some? && WinnerInv(s) && ProcInv(s) && TrailInv(s)
    ensures TrailInv(Apply(s, a).value)
  {
  }

  lemma AmbientKeepsDuty(s: Sys, a: Act)
    requires Ambient(a) && Apply(s, a).Some? && WinnerInv(s) && ProcInv(s) && DutyInv(s)
    ensures DutyInv(Apply(s, a).value)
  {
    match a
    case CallStart(_) =>
    case CallClose(_, _) =>
    case WatchTick(_) =>
    case WatchResume =>
    case WatchEnd =>
    case Deadline =>
    case ProcWrite =>
    case ProcFail(_) =>
  }

  lemma AmbientKeepsClean(s: Sys, a: Act)
    requires Ambient(a) && Apply(s, a).Some? && WinnerInv(s) && ProcInv(s) && DutyInv(s) && CleanInv(s)
    ensures CleanInv(Apply(s, a).value)
  {
    match a
    case CallStart(_) =>
    case CallClose(_, _) =>
    case WatchTick(_) =>
    case WatchResume =>
    case WatchEnd =>
    case Deadline =>
    case ProcWrite =>
    case ProcFail(_) =>
  }

  lemma AmbientKeepsTally(s: Sys, a: Act)
    requires Ambient(a) && Apply(s, a).Some? && WinnerInv(s) && ProcInv(s) && DutyInv(s) && TallyInv(s)
    ensures TallyInv(Apply(s, a).value)
  {
    match a
    case CallStart(_) =>
    case CallClose(_, _) =>
    case WatchTick(_) =>
    case WatchResume =>
    case WatchEnd =>
    case Deadline =>
    case ProcWrite =>
    case ProcFail(_) =>
  }

  lemma WatchKept(s: Sys, a: Act)
    requires WatchInv(s) && Apply(s, a).Some?
    ensures WatchInv(Apply(s, a).value)
  {
    match a
    case StepStart(_) =>
    case StepClose(_) =>
    case _ =>
  }

  lemma StepKeepsInv(s: Sys, a: Act)
    requires JobInv(s) && Apply(s, a).Some?
    ensures JobInv(Apply(s, a).value)
  {
    WatchKept(s, a);
    if a.StepStart? {
      StartKeepsWinner(s, a.call);
      StartKeepsProc(s, a.call);
      StartKeepsTrail(s, a.call);
      StartKeepsDuty(s, a.call);
      StartKeepsTally(s, a.call);
      StartKeepsClean(s, a.call);
    } else if a.StepClose? {
      CloseKeepsWinner(s, a.call);
      CloseKeepsProc(s, a.call);
      CloseKeepsTrail(s, a.call);
      CloseKeepsDuty(s, a.call);
      CloseKeepsTally(s, a.call);
      CloseKeepsClean(s, a.call);
    } else if a.ProcStep? {
      ProcKeepsWinner(s);
      ProcKeepsProc(s);
      ProcKeepsTrail(s);
      ProcKeepsDuty(s);
      ProcKeepsTally(s);
      ProcKeepsClean(s);
    } else {
      AmbientKeepsWinner(s, a);
      AmbientKeepsProc(s, a);
      AmbientKeepsTrail(s, a);
      AmbientKeepsDuty(s, a);
      AmbientKeepsTally(s, a);
      AmbientKeepsClean(s, a);
    }
  }

  lemma {:induction false} RunKeepsInv(s: Sys, acts: seq<Act>)
    requires JobInv(s) && Run(s, acts).Some?
    ensures JobInv(Run(s, acts).value)
    decreases |acts|
  {
    if acts != [] {
      StepKeepsInv(s, acts[0]);
      RunKeepsInv(Apply(s, acts[0]).value, acts[1..]);
    }
  }

  lemma ReachableInv(acts: seq<Act>)
    requires Run(FRESH, acts).Some?
    ensures JobInv(Run(FRESH, acts).value)
  {
    FreshInv();
    RunKeepsInv(FRESH, acts);
  }
}
