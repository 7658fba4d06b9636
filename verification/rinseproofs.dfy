/** What every interleaving of the server's threads keeps. */
module RinseProofs {
  import opened Basics
  import opened JobCore
  import opened JobSteps
  import opened JobProofs
  import opened Scheduler
  import opened Registry
  import opened RinseSteps

  // ---------------------------------------------------------------- one job's step, seen from the list

  /** Nothing that a caller waits for is undone. */
  ghost predicate Grows(s: Sys, t: Sys) {
    && (s.v.closed ==> t.v.closed)
    && s.starts.Keys <= t.starts.Keys
    && s.closes.Keys <= t.closes.Keys
  }

  /** The job did not start: it waits if it waited and takes no slot it did not hold. */
  predicate CalmState(a: JobState, b: JobState) {
    (a == New <==> b == New) && (Running(b) ==> Running(a))
  }

  ghost predicate NoNewCas(s: Sys, t: Sys) {
    forall c :: c in t.starts && t.starts[c].Cas? ==> c in s.starts && s.starts[c].Cas?
  }

  predicate CasOf(s: Sys, a: Act) {
    a.StepStart? && a.call in s.starts && s.starts[a.call].Cas?
  }

  ghost predicate Seen(s: Sys, a: Act, t: Sys) {
    && Grows(s, t)
    && (!a.CallStart? ==> NoNewCas(s, t))
    && (!CasOf(s, a) ==> CalmState(s.v.state, t.v.state))
    && (CasOf(s, a) ==>
          && a.call in t.starts && !t.starts[a.call].Cas?
          && t.v.state == if s.v.state == New then Starting else s.v.state)
  }

  lemma StartStepSeen(s: Sys, c: nat)
    requires StartStep(s, c).Some?
    ensures Seen(s, StepStart(c), StartStep(s, c).value)
  {
    match s.starts[c]
    case Cas =>
    case MakeCtx =>
    case Publish =>
    case SpawnWatch =>
    case SpawnProc =>
  }

  lemma CloseStepSeen(s: Sys, c: nat)
    requires CloseStep(s, c).Some?
    ensures Seen(s, StepClose(c), CloseStep(s, c).value)
  {
  }

  lemma ProcStepSeen(s: Sys)
    requires ProcInv(s) && ProcNext(s).Some?
    ensures Seen(s, ProcStep, ProcNext(s).value)
  {
    hide Stage;
    match s.proc
    case Stamp =>
    case Check(_) =>
    case Trans(_) =>
    case Body(_) =>
    case Failing(_) =>
    case Finishing =>
    case AfterDone(_) =>
    case Wiping(_) =>
  }

  lemma JobStepSeen(s: Sys, a: Act)
    requires ProcInv(s) && Apply(s, a).Some?
    ensures Seen(s, a, Apply(s, a).value)
  {
    hide StartStep, CloseStep, ProcNext;
    match a
    case StepStart(c) => StartStepSeen(s, c);
    case StepClose(c) => CloseStepSeen(s, c);
    case ProcStep => ProcStepSeen(s);
    case CallStart(_) =>
    case CallClose(_, _) =>
    case WatchTick(_) =>
    case WatchResume =>
    case WatchEnd =>
    case Deadline =>
    case ProcWrite =>
    case ProcFail(_) =>
  }

  // ---------------------------------------------------------------- which job an event moves

  /** The job that a thread's step moves, and how. */
  function MoveTouch(g: Server, pc: Pc, call: nat): Option<(nat, Act)> {
    match pc
    case Scanning(errand, i, sc, _) =>
      if i < |g.list| || sc.next.None? || (errand.Ticking? && sc.running >= g.max) then None
      else if sc.next.value >= |g.list| then None
      else Some((g.list[sc.next.value], CallStart(call)))
    case RemClosing(queue, _) => if queue == [] then None else Some((queue[0], Act.CallClose(call, None)))
    case Closing(taken, i) => if i < |taken| then Some((taken[i], Act.CallClose(call, None))) else None
    case _ => None
  }

  /** The job an event moves, and how. */
  function Touch(g: Server, e: Event): Option<(nat, Act)> {
    match e
    case OutsideStart(j, c) => Some((j, CallStart(c)))
    case OutsideClose(j, c, err) => Some((j, Act.CallClose(c, err)))
    case JobMove(j, a) => Some((j, a))
    case Move(t, c, _) => if t in g.threads then MoveTouch(g, g.threads[t], c) else None
    case _ => None
  }

  /** The jobs after event e are those before it, but for the one it touches. */
  ghost predicate OnlyTouched(g: Server, m: Option<(nat, Act)>, h: Server) {
    if m.None? then h.jobs == g.jobs
    else
      && m.value.0 in g.jobs && Apply(g.jobs[m.value.0], m.value.1).Some?
      && h.jobs == g.jobs[m.value.0 := Apply(g.jobs[m.value.0], m.value.1).value]
  }

  lemma ScanEndTouches(g: Server, t: nat, pc: Pc, call: nat)
    requires pc.Scanning? && pc.i >= |g.list| && ScanEnd(g, t, pc, call).Some?
    ensures OnlyTouched(g, MoveTouch(g, pc, call), ScanEnd(g, t, pc, call).value)
  {
    hide Apply;
  }

  lemma BeginCloseTouches(g: Server, t: nat, j: nat, call: nat, after: Pc)
    requires BeginClose(g, t, j, call, after).Some?
    ensures OnlyTouched(g, Some((j, Act.CallClose(call, None))), BeginClose(g, t, j, call, after).value)
  {
    hide Apply;
  }

  lemma EnterTouches(g: Server, t: nat, e: Errand)
    requires Enter(g, t, e).Some?
    ensures Enter(g, t, e).value.jobs == g.jobs
  {
    hide HasUuid;
  }

  lemma ScanOneTouches(g: Server, t: nat, pc: Pc, due: bool)
    requires pc.Scanning? && pc.i < |g.list|
    ensures ScanOne(g, t, pc, due).jobs == g.jobs
  {
    hide Read, StateOf;
  }

  lemma MoveTouches(g: Server, t: nat, call: nat, due: bool)
    requires MoveStep(g, t, call, due).Some?
    ensures OnlyTouched(g, MoveTouch(g, g.threads[t], call), MoveStep(g, t, call, due).value)
  {
    hide Apply, Without, StartReturned, CloseReturned, Enter, ScanOne, ScanEnd, BeginClose;
    var pc := g.threads[t];
    if OnErrand(pc) {
      hide RemoveStep, ShutdownStep;
      match pc {
        case Want(e) => EnterTouches(g, t, e);
        case Scanning(_, i, _, _) =>
          if i < |g.list| {
            ScanOneTouches(g, t, pc, due);
          } else {
            ScanEndTouches(g, t, pc, call);
          }
        case Launching(_, _, _, _) =>
        case Leaving(_, _, _) =>
      }
    } else if OnRemoval(pc) {
      hide ErrandStep, ShutdownStep;
      match pc {
        case RemNext(_, _) =>
        case RemLeaving(_, _) =>
        case RemClosing(queue, gone) => BeginCloseTouches(g, t, queue[0], call, RemWaiting(queue, gone, call));
        case RemWaiting(_, _, _) =>
      }
    } else {
      hide ErrandStep, RemoveStep;
      match pc {
        case CloseWant =>
        case CloseLeaving(_) =>
        case Closing(taken, i) => BeginCloseTouches(g, t, taken[i], call, CloseWaiting(taken, i, call));
        case CloseWaiting(_, _, _) =>
      }
    }
  }

  lemma Touches(g: Server, e: Event)
    requires Happen(g, e).Some? && !e.CallAdd?
    ensures OnlyTouched(g, Touch(g, e), Happen(g, e).value)
  {
    match e
    case CallTasks(_) =>
    case CallRemove(_, _) =>
    case CallShutdown(_) =>
    case SetMax(_) =>
    case OutsideStart(_, _) =>
    case OutsideClose(_, _, _) =>
    case JobMove(_, _) =>
    case Move(t, c, due) => MoveTouches(g, t, c, due);
  }

  ghost predicate AllJobs(g: Server) {
    forall j :: j in g.jobs ==> JobInv(g.jobs[j])
  }

  /** Every event is, for each job, a step of that job or nothing: all that is proved of one
      job's threads holds of every job of the server. */
  lemma AllJobsKept(g: Server, e: Event)
    requires AllJobs(g) && Happen(g, e).Some?
    ensures AllJobs(Happen(g, e).value)
  {
    hide Apply, JobInv;
    var h := Happen(g, e).value;
    if e.CallAdd? {
      FreshInv();
      JobPut(g, h, e.job, FRESH);
    } else {
      Touches(g, e);
      var m := Touch(g, e);
      if m.Some? {
        StepKeepsInv(g.jobs[m.value.0], m.value.1);
        JobPut(g, h, m.value.0, Apply(g.jobs[m.value.0], m.value.1).value);
      }
    }
  }

  lemma JobPut(g: Server, h: Server, j: nat, s: Sys)
    requires AllJobs(g) && JobInv(s) && h.jobs == g.jobs[j := s]
    ensures AllJobs(h)
  {
    hide JobInv;
  }

  ghost predicate JobsGrow(g: Server, h: Server) {
    forall j :: j in g.jobs ==> j in h.jobs && Grows(g.jobs[j], h.jobs[j])
  }

  lemma SeenGrows(s: Sys, a: Act)
    requires JobInv(s) && Apply(s, a).Some?
    ensures Grows(s, Apply(s, a).value)
  {
    JobStepSeen(s, a);
    hide Apply, JobInv;
  }

  lemma JobsGrowBy(g: Server, e: Event)
    requires AllJobs(g) && Happen(g, e).Some?
    ensures JobsGrow(g, Happen(g, e).value)
  {
    hide Apply, Happen, Touch, DutyInv, TrailInv, TallyInv, CleanInv, WatchInv, Seen;
    if e.CallAdd? {
      AddGrows(g, e);
    } else {
      Touches(g, e);
      var m := Touch(g, e);
      if m.Some? {
        assert JobInv(g.jobs[m.value.0]);
        SeenGrows(g.jobs[m.value.0], m.value.1);
      }
    }
  }

  lemma AddGrows(g: Server, e: Event)
    requires e.CallAdd? && Happen(g, e).Some?
    ensures JobsGrow(g, Happen(g, e).value)
  {
  }
}
