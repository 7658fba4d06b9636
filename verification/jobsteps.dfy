/** The threads that touch one job, interleaved at the granularity of the source: every
    critical section of job.mu is one step, and so are the context check, cancel(),
    publishing cancelFn, launching a goroutine, and the two ends of removeAll.
    (rinser/job.go:146-157, 206-219, 247-264; rinser/jobprocess.go:26-107) */
module JobSteps {
  import opened Basics
  import opened JobCore

  /** A call of Start. Its context check cannot fail: it uses the background context. */
  datatype StartPc = Cas | MakeCtx | Publish | SpawnWatch | SpawnProc | Returned(ok: bool)

  /** A call of Close. */
  datatype ClosePc = Section(err: Option<Err>) | Cancel | Remove | Removing(began: nat) | Closed

  datatype WatchPc = Unborn | Selecting | InClose(call: nat) | Ended

  /** The process goroutine. Stage k, for k in 1..8, first moves the state from Stage(k) to
      Stage(k + 1) and then, unless it was the last, does its work in Body(k). */
  datatype ProcPc =
    | NotSpawned | Stamp
    | Check(k: nat) | Trans(k: nat) | Body(k: nat)
    | Failing(err: Err) | Finishing | AfterDone(wipe: bool)
    | Wiping(began: nat) | Gone(wiped: bool)

  const LAST_STAGE: nat := 8

  /** `writes` counts the pipeline's writes below the work directory, the upload being the
      first, and `cleaned` how many of them precede the latest completed removal.
      The fields from `winner` on are history: nothing reads them but the proofs. */
  datatype Sys = Sys(
    v: JobVars,
    ctx: Ctx,
    starts: map<nat, StartPc>,
    closes: map<nat, ClosePc>,
    watch: WatchPc,
    proc: ProcPc,
    writes: nat,
    cleaned: nat,
    removals: nat,
    winner: Option<nat>,
    published: bool,
    spawned: nat,
    remover: Option<nat>,
    early: bool,
    trail: seq<JobState>)

  const FRESH: Sys :=
    Sys(FRESH_VARS, NoCtx, map[], map[], Unborn, NotSpawned, 1, 0, 0,
        None, false, 0, None, false, [New])

  datatype Act =
    | CallStart(call: nat)
    | StepStart(call: nat)
    | CallClose(call: nat, err: Option<Err>)
    | StepClose(call: nat)
    | WatchTick(call: nat)
    | WatchResume
    | WatchEnd
    | Deadline
    | ProcStep
    | ProcWrite
    | ProcFail(reason: Err)

  /** How far along the chain the job has come, a failure not counting as a move. */
  function Reached(v: JobVars): nat {
    if v.state == Failed then Ord(v.errstate) else Ord(v.state)
  }

  function StartStep(s: Sys, c: nat): Option<Sys> {
    if c !in s.starts then None else
    match s.starts[c]
    case Cas =>
      var (v, err) := TransitionSec(s.v, New, Starting);
      if err.None? then
        Some(s.(v := v, starts := s.starts[c := MakeCtx], winner := Some(c), trail := s.trail + [Starting]))
      else
        Some(s.(starts := s.starts[c := Returned(false)]))
    case MakeCtx => Some(s.(ctx := Live, starts := s.starts[c := Publish]))
    case Publish => Some(s.(v := PublishSec(s.v), published := true, starts := s.starts[c := SpawnWatch]))
    case SpawnWatch => Some(s.(watch := Selecting, starts := s.starts[c := SpawnProc]))
    case SpawnProc => Some(s.(proc := Stamp, spawned := s.spawned + 1, starts := s.starts[c := Returned(true)]))
    case Returned(_) => None
  }

  function CloseNext(v: JobVars): ClosePc {
    if v.cancelSet then Cancel else if !v.closed then Remove else Closed
  }

  function CloseStep(s: Sys, c: nat): Option<Sys> {
    if c !in s.closes then None else
    match s.closes[c]
    case Section(err) =>
      var next := CloseNext(s.v);
      Some(s.(v := CloseSec(s.v, err), closes := s.closes[c := next],
              remover := if next.Remove? then Some(c) else s.remover,
              early := s.early || !s.published))
    case Cancel => Some(s.(ctx := s.ctx.Kill(Canceled), closes := s.closes[c := Closed]))
    case Remove => Some(s.(removals := s.removals + 1, closes := s.closes[c := Removing(s.writes)]))
    case Removing(began) => Some(s.(cleaned := Max(s.cleaned, began), closes := s.closes[c := Closed]))
    case Closed => None
  }

  function ProcNext(s: Sys): Option<Sys> {
    match s.proc
    case NotSpawned => None
    case Stamp => Some(s.(proc := Check(1)))
    case Check(k) =>
      Some(s.(proc := if s.ctx.Dead? then Failing(s.ctx.reason) else Trans(k)))
    case Trans(k) =>
      if k == 0 || k > LAST_STAGE then None else
      var (v, err) := TransitionSec(s.v, Stage(k), Stage(k + 1));
      if err.Some? then Some(s.(proc := Failing(err.value)))
      else Some(s.(v := v, proc := if k == LAST_STAGE then Finishing else Body(k),
                   trail := s.trail + [Stage(k + 1)]))
    case Body(k) => Some(s.(proc := Check(k + 1)))
    case Failing(err) => Some(s.(v := FailSec(s.v, err), proc := Finishing, trail := s.trail + [Failed]))
    case Finishing => Some(s.(v := DoneSec(s.v), proc := AfterDone(s.v.closed)))
    case AfterDone(wipe) =>
      Some(if wipe then s.(removals := s.removals + 1, proc := Wiping(s.writes)) else s.(proc := Gone(false)))
    case Wiping(began) => Some(s.(cleaned := Max(s.cleaned, began), proc := Gone(true)))
    case Gone(_) => None
  }

  /** One step, or None when the step is not enabled. */
  function Apply(s: Sys, a: Act): Option<Sys> {
    match a
    case CallStart(c) => if c in s.starts then None else Some(s.(starts := s.starts[c := Cas]))
    case StepStart(c) => StartStep(s, c)
    case CallClose(c, err) => if c in s.closes then None else Some(s.(closes := s.closes[c := Section(err)]))
    case StepClose(c) => CloseStep(s, c)
    case WatchTick(c) =>
      if s.watch.Selecting? && c !in s.closes then
        Some(s.(watch := InClose(c), closes := s.closes[c := Section(Some(NoProgress))]))
      else None
    case WatchResume =>
      if s.watch.InClose? && s.watch.call in s.closes && s.closes[s.watch.call].Closed? then
        Some(s.(watch := Selecting))
      else None
    case WatchEnd =>
      if s.watch.Selecting? && (s.ctx.Dead? || s.v.stopCloses > 0) then Some(s.(watch := Ended)) else None
    case Deadline => if s.ctx.Live? then Some(s.(ctx := Dead(DeadlineExceeded))) else None
    case ProcStep => ProcNext(s)
    case ProcWrite => if s.proc.Body? then Some(s.(writes := s.writes + 1)) else None
    case ProcFail(reason) => if s.proc.Body? then Some(s.(proc := Failing(reason))) else None
  }

  function Run(s: Sys, acts: seq<Act>): Option<Sys>
    decreases |acts|
  {
    if acts == [] then Some(s)
    else
      var t := Apply(s, acts[0]);
      if t.None? then None else Run(t.value, acts[1..])
  }

  /** No call is under way and the process goroutine has ended or was never launched. */
  ghost predicate Quiescent(s: Sys) {
    && (forall c :: c in s.starts ==> s.starts[c].Returned?)
    && (forall c :: c in s.closes ==> s.closes[c].Closed?)
    && (s.proc.NotSpawned? || s.proc.Gone?)
  }

  /** From its launch until processDone has let go of the lock. */
  predicate ProcessLive(s: Sys) {
    !(s.proc.NotSpawned? || s.proc.AfterDone? || s.proc.Wiping? || s.proc.Gone?)
  }

  /** A removeAll is deleting files. */
  ghost predicate RemovalUnderWay(s: Sys) {
    s.proc.Wiping? || exists c :: c in s.closes && s.closes[c].Removing?
  }
}
