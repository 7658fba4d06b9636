/** One job: the fields guarded by its mutex, the critical sections that update them,
    and the object whose methods run those sections (rinser/job.go). */
module JobCore {
  import opened Basics

  datatype JobState =
    | New | Starting | Download | ExtractMeta | DetectLanguage | DocToPdf
    | PdfToImages | Tesseract | Ending | Finished | Failed

  datatype Err =
    | Canceled
    | DeadlineExceeded
    | NoProgress
    | WrongState(expected: JobState, have: JobState)
    | StageError(what: string)

  /** The chain that a job's stages walk along. Failed is off the chain. */
  function Stage(k: nat): (st: JobState)
    requires k <= 9
    ensures Ord(st) == k
  {
    match k
    case 0 => New
    case 1 => Starting
    case 2 => Download
    case 3 => ExtractMeta
    case 4 => DetectLanguage
    case 5 => DocToPdf
    case 6 => PdfToImages
    case 7 => Tesseract
    case 8 => Ending
    case _ => Finished
  }

  /** The first k+1 states of the chain. */
  function Chain(k: nat): seq<JobState>
    requires k <= 9
  {
    if k == 0 then [New] else Chain(k - 1) + [Stage(k)]
  }

  function Ord(st: JobState): nat {
    match st
    case New => 0
    case Starting => 1
    case Download => 2
    case ExtractMeta => 3
    case DetectLanguage => 4
    case DocToPdf => 5
    case PdfToImages => 6
    case Tesseract => 7
    case Ending => 8
    case Finished => 9
    case Failed => 10
  }

  predicate Terminal(st: JobState) {
    st == Finished || st == Failed
  }

  /** The fields under job.mu that decide the life cycle. `stopCloses` counts the calls of
      close(StoppedCh); a second one would panic. */
  datatype JobVars = JobVars(
    state: JobState,
    error: Option<Err>,
    done: bool,
    stopped: bool,
    cancelSet: bool,
    closed: bool,
    errstate: JobState,
    stopCloses: nat)

  const FRESH_VARS := JobVars(New, None, false, false, false, false, New, 0)

  /** The compare-and-set inside transition. */
  function TransitionSec(v: JobVars, from: JobState, to: JobState): (JobVars, Option<Err>) {
    if v.state == from then (v.(state := to), None)
    else (v, Some(WrongState(from, v.state)))
  }

  function PublishSec(v: JobVars): JobVars {
    v.(cancelSet := true)
  }

  function CloseSec(v: JobVars, err: Option<Err>): JobVars {
    v.(closed := true, error := v.error.Or(err))
  }

  function FailSec(v: JobVars, err: Err): JobVars {
    v.(errstate := v.state, error := v.error.Or(Some(err)), state := Failed)
  }

  function DoneSec(v: JobVars): JobVars {
    v.(stopped := true, done := true, cancelSet := false, stopCloses := v.stopCloses + 1)
  }

  datatype Ctx = NoCtx | Live | Dead(reason: Err) {
    function Err(): Option<Err> {
      if Dead? then Some(reason) else None
    }

    /** The first cancellation or deadline decides the context's error. */
    function Kill(reason: Err): Ctx {
      if Live? then Dead(reason) else this
    }
  }

  /** The job object. `workers` counts the process goroutines launched, `removals` the calls
      of removeAll. */
  class Job {
    const uuid: int
    const email: string
    const isPrivate: bool
    var state: JobState
    var error: Option<Err>
    var done: bool
    var stopped: bool
    var cancelSet: bool
    var closed: bool
    var errstate: JobState
    var stopCloses: nat
    var ctx: Ctx
    var workers: nat
    var removals: nat

    ghost function Vars(): JobVars
      reads this
    {
      JobVars(state, error, done, stopped, cancelSet, closed, errstate, stopCloses)
    }

    constructor (uuid: int, email: string, isPrivate: bool)
      ensures Vars() == FRESH_VARS && ctx == NoCtx && workers == 0 && removals == 0
      ensures this.uuid == uuid && this.email == email && this.isPrivate == isPrivate
    {
      this.uuid, this.email, this.isPrivate := uuid, email, isPrivate;
      state, error, done, stopped := New, None, false, false;
      cancelSet, closed, errstate, stopCloses := false, false, New, 0;
      ctx, workers, removals := NoCtx, 0, 0;
    }

    method Transition(ctxErr: Option<Err>, from: JobState, to: JobState) returns (err: Option<Err>)
      modifies this`state
      ensures err.None? <==> ctxErr.None? && old(state) == from
      ensures ctxErr.Some? ==> err == ctxErr && Vars() == old(Vars())
      ensures ctxErr.None? && old(state) != from ==>
                err == Some(WrongState(from, old(state))) && Vars() == old(Vars())
      ensures err.None? ==> Vars() == old(Vars()).(state := to)
    {
      err := ctxErr;
      if err.None? {
        if state == from {
          state := to;
        } else {
          err := Some(WrongState(from, state));
        }
      }
    }

    method Start() returns (err: Option<Err>)
      modifies this
      ensures err.None? <==> old(state) == New
      ensures err.None? ==>
                Vars() == PublishSec(old(Vars()).(state := Starting))
                && state == Starting && cancelSet && ctx == Live && workers == old(workers) + 1
      ensures err.Some? ==>
                err == Some(WrongState(New, old(state))) && Vars() == old(Vars())
                && ctx == old(ctx) && workers == old(workers)
      ensures removals == old(removals)
    {
      err := Transition(None, New, Starting);
      if err.None? {
        ctx := Live;
        cancelSet := true;
        workers := workers + 1;
      }
    }

    /** Undisturbed, Close either cancels the running job or removes its files, and the
        latter only the first time. */
    method Close(err: Option<Err>)
      modifies this
      ensures Vars() == CloseSec(old(Vars()), err)
      ensures closed && error == (if old(error).Some? then old(error) else err)
      ensures old(cancelSet) && old(ctx).Live? ==> ctx == Dead(Canceled)
      ensures !old(cancelSet) || !old(ctx).Live? ==> ctx == old(ctx)
      ensures removals == old(removals) + if old(cancelSet) || old(closed) then 0 else 1
      ensures workers == old(workers)
    {
      var cancel, wasClosed := cancelSet, closed;
      closed := true;
      if error.None? {
        error := err;
      }
      if cancel {
        ctx := ctx.Kill(Canceled);
      } else if !wasClosed {
        removals := removals + 1;
      }
    }

    /** The tail of process after a stage has failed. */
    method Fail(err: Err)
      modifies this
      ensures Vars() == FailSec(old(Vars()), err)
      ensures state == Failed && errstate == old(state)
      ensures error == if old(error).Some? then old(error) else Some(err)
      ensures ctx == old(ctx) && workers == old(workers) && removals == old(removals)
    {
      errstate := state;
      if error.None? {
        error := Some(err);
      }
      state := Failed;
    }

    method ProcessDone()
      modifies this
      ensures Vars() == DoneSec(old(Vars()))
      ensures done && stopped && !cancelSet && state == old(state) && error == old(error)
      ensures stopCloses == old(stopCloses) + 1
      ensures removals == old(removals) + if old(closed) then 1 else 0
      ensures ctx == old(ctx) && workers == old(workers)
    {
      stopped, done, cancelSet := true, true, false;
      var wasClosed := closed;
      stopCloses := stopCloses + 1;
      if wasClosed {
        removals := removals + 1;
      }
    }
  }
}
