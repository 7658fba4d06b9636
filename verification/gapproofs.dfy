/** A single job cannot rule out that a Close comes between its start and the publishing of
    cancelFn. The server can: Start runs inside rns.mu, and RemoveJob and Close take a job off
    the list, under the same lock, before they close it. */
module GapProofs {
  import opened Basics
  import opened JobCore
  import opened JobSteps
  import opened JobProofs
  import opened Scheduler
  import opened Registry
  import opened RinseSteps
  import opened RinseProofs
  import opened RinseInv
  import opened LimitProofs

  // ---------------------------------------------------------------- one job's step

  ghost predicate GapSeen(s: Sys, a: Act, t: Sys) {
    && (s.published ==> t.published)
    && (!a.CallClose? && s.closes == map[] && !t.published ==> t.closes == map[])
    && (t.winner.Some? && !t.published ==>
          !s.published && (s.winner == t.winner || (CasOf(s, a) && t.winner == Some(a.call))))
    && (t.early ==> s.early || (s.closes != map[] && !s.published && s.winner == t.winner))
    && (t.winner.Some? ==> s.winner.Some? || CasOf(s, a))
  }

  lemma StartGapSeen(s: Sys, c: nat)
    requires WinnerInv(s) && StartStep(s, c).Some?
    ensures GapSeen(s, StepStart(c), StartStep(s, c).value)
  {
    match s.starts[c]
    case Cas =>
    case MakeCtx =>
    case Publish =>
    case SpawnWatch =>
    case SpawnProc =>
  }

  lemma CloseGapSeen(s: Sys, c: nat)
    requires WinnerInv(s) && CloseStep(s, c).Some?
    ensures GapSeen(s, StepClose(c), CloseStep(s, c).value)
  {
    assert c in s.closes;
    match s.closes[c]
    case Section(_) =>
    case Cancel =>
    case Remove =>
    case Removing(_) =>
  }

  lemma ProcGapSeen(s: Sys)
    requires WinnerInv(s) && ProcNext(s).Some?
    ensures GapSeen(s, ProcStep, ProcNext(s).value)
  {
    hide Stage;
    match s.proc
    case Stamp =>
    case Check(_) =>
    case Trans(_) =>
    case Body(_) =>
    case Failing(_) =>
    case Finishing =>
    case AfterDone(_) =>
    case Wiping(_) =>
  }

  lemma JobGapSeen(s: Sys, a: Act)
    requires WinnerInv(s) && Apply(s, a).Some?
    ensures GapSeen(s, a, Apply(s, a).value)
  {
    hide StartStep, CloseStep, ProcNext;
    match a
    case StepStart(c) => StartGapSeen(s, c);
    case StepClose(c) => CloseGapSeen(s, c);
    case ProcStep => ProcGapSeen(s);
    case CallStart(_) =>
    case CallClose(_, _) =>
    case WatchTick(_) =>
    case WatchResume =>
    case WatchEnd =>
    case Deadline =>
    case ProcWrite =>
    case ProcFail(_) =>
  }

  // ---------------------------------------------------------------- the invariant

  /** Between compare-and-set and publishing, the starting thread holds rns.mu. */
  ghost predicate LaunchGap(g: Server) {
    forall j :: j in g.jobs && g.jobs[j].winner.Some? && !g.jobs[j].published ==>
      HolderLaunches(g, j, g.jobs[j].winner.value)
  }

  /** Nobody has asked to close a job that is listed, or about to be, and not yet running. */
  ghost predicate Untouched(g: Server) {
    forall j :: j in g.jobs && (j in g.list || ComingJob(g, j)) && !g.jobs[j].published ==>
      g.jobs[j].closes == map[]
  }

  function Mentioned(pc: Pc): seq<nat> {
    match pc
    case Scanning(_, _, _, todo) => todo
    case Launching(_, _, _, todo) => todo
    case Leaving(_, _, todo) => todo
    case RemNext(queue, _) => queue
    case RemLeaving(queue, _) => queue
    case RemClosing(queue, _) => queue
    case RemWaiting(queue, _, _) => queue
    case CloseLeaving(taken) => taken
    case Closing(taken, _) => taken
    case CloseWaiting(taken, _, _) => taken
    case _ => []
  }

  predicate InHand(pc: Pc, j: nat) {
    match pc
    case RemLeaving(queue, _) => queue != [] && queue[0] == j
    case RemClosing(queue, _) => queue != [] && queue[0] == j
    case RemWaiting(queue, _, _) => queue != [] && queue[0] == j
    case CloseLeaving(taken) => j in taken
    case Closing(taken, _) => j in taken
    case CloseWaiting(taken, _, _) => j in taken
    case _ => false
  }

  ghost predicate HandOk(g: Server, pc: Pc) {
    && (forall j :: j in Mentioned(pc) ==> !ComingJob(g, j))
    && (forall j :: InHand(pc, j) ==> j !in g.list)
  }

  ghost predicate Hands(g: Server) {
    forall t :: t in g.threads ==> HandOk(g, g.threads[t])
  }

  ghost predicate NeverEarly(g: Server) {
    forall j :: j in g.jobs && g.jobs[j].early ==> g.jobs[j].winner.None?
  }

  ghost predicate GapInv(g: Server) {
    LaunchGap(g) && Untouched(g) && Hands(g) && NeverEarly(g)
  }

  // ---------------------------------------------------------------- jobs move

  lemma EarlyTouched(g: Server, j: nat)
    requires j in g.jobs && JobInv(g.jobs[j]) && Untouched(g) && NeverEarly(g) && g.jobs[j].early
    ensures g.jobs[j].winner.None? && j !in g.list
  {
    assert g.jobs[j].closes != map[] && g.jobs[j].proc.NotSpawned?;
  }

  /** A job in the gap is on the list, and so is one whose Start is about to win. */
  ghost predicate GapFacts(g: Server, j: nat, a: Act) {
    && j in g.jobs
    && (CasOf(g.jobs[j], a) ==> j in g.list && HolderLaunches(g, j, a.call))
    && (g.jobs[j].winner.Some? && !g.jobs[j].published ==> j in g.list)
    && (g.jobs[j].early ==> g.jobs[j].winner.None? && j !in g.list)
  }

  lemma JobInvOf(g: Server, j: nat)
    requires AllJobs(g) && j in g.jobs
    ensures JobInv(g.jobs[j])
  {
    hide JobInv;
  }

  lemma LaunchListed(g: Server, j: nat, c: nat)
    requires PcInv(g) && HolderLaunches(g, j, c)
    ensures j in g.list
  {
    assert PcOk(g, g.threads[g.lock.value]);
  }

  lemma GapFactsHold(g: Server, j: nat, a: Act)
    requires AllJobs(g) && CoreInv(g) && QueueInv(g) && GapInv(g) && j in g.jobs
    ensures GapFacts(g, j, a)
  {
    hide AllJobs, JobInv, SoleStarter, Hands, Newcomers, Holders, WaitingLast, CountRunning, ListStates, ListInv, PcInv,
         HolderLaunches, CasOf, Untouched, NeverEarly;
    JobInvOf(g, j);
    if CasOf(g.jobs[j], a) {
      CasListed(g, j, a);
    }
    if g.jobs[j].early {
      EarlyTouched(g, j);
    }
    if g.jobs[j].winner.Some? && !g.jobs[j].published {
      LaunchListed(g, j, g.jobs[j].winner.value);
    }
  }

  lemma CasListed(g: Server, j: nat, a: Act)
    requires QueueInv(g) && j in g.jobs && CasOf(g.jobs[j], a)
    ensures j in g.list && HolderLaunches(g, j, a.call)
  {
    assert CasPending(g, j, a.call);
    var _ := LaunchHead(g, j, a.call);
  }

  ghost predicate JobAlone(g: Server, h: Server, j: nat) {
    && j in g.jobs && j in h.jobs
    && h == g.(jobs := h.jobs) && h.jobs == g.jobs[j := h.jobs[j]]
  }

  lemma HandsStay(g: Server, h: Server, j: nat)
    requires Hands(g) && JobAlone(g, h, j)
    ensures Hands(h)
    ensures forall k :: ComingJob(h, k) <==> ComingJob(g, k)
  {
    forall u | u in h.threads
      ensures HandOk(h, h.threads[u])
    {
      assert HandOk(g, g.threads[u]);
    }
  }

  lemma JobGapKept(g: Server, h: Server, j: nat, a: Act)
    requires GapInv(g) && JobAlone(g, h, j) && GapFacts(g, j, a)
    requires !a.CallClose? && GapSeen(g.jobs[j], a, h.jobs[j])
    ensures GapInv(h)
  {
    HandsStay(g, h, j);
    hide Hands, ComingJob;
  }

  /** A job takes a step of its own. */
  lemma JobStepGap(g: Server, j: nat, a: Act)
    requires AllJobs(g) && CoreInv(g) && QueueInv(g) && GapInv(g)
    requires !a.CallClose? && Acted(g, j, a).Some?
    ensures GapInv(Acted(g, j, a).value)
  {
    hide Apply, AllJobs, CoreInv, QueueInv, GapInv, GapFacts, GapSeen, WinnerInv, DutyInv, ProcInv, TrailInv, TallyInv,
      CleanInv, WatchInv;
    var h := Acted(g, j, a).value;
    JobInvOf(g, j);
    JobGapSeen(g.jobs[j], a);
    GapFactsHold(g, j, a);
    assert JobAlone(g, h, j);
    JobGapKept(g, h, j, a);
  }

  /** A job that is neither listed nor about to be gets a call of Close. */
  lemma CloseCallGap(g: Server, j: nat, c: nat, err: Option<Err>)
    requires GapInv(g) && j !in g.list && !ComingJob(g, j) && Acted(g, j, Act.CallClose(c, err)).Some?
    ensures GapInv(Acted(g, j, Act.CallClose(c, err)).value)
  {
    var h := Acted(g, j, Act.CallClose(c, err)).value;
    HandsStay(g, h, j);
    hide Hands, ComingJob;
  }

  // ---------------------------------------------------------------- registry threads move

  /** The step of a registry thread that leaves the jobs alone. Only a Launching thread whose
      Start has returned, or one that is not launching, makes it; the list loses jobs or gains
      one that was coming. */
  ghost predicate GapMove(g: Server, h: Server, t: nat) {
    && OneMoved(g, h, t) && h.jobs == g.jobs
    && (g.threads[t].Launching? ==> StartReturned(g, g.threads[t].target, g.threads[t].call))
    && (forall k :: ComingJob(h, k) ==> ComingJob(g, k))
    && (forall k :: k in h.list ==> k in g.list || ComingJob(g, k))
    && (forall k :: k in h.list && k !in g.list ==> ComingJob(g, k))
    && HandOk(h, h.threads[t])
  }

  lemma GapMoveHands(g: Server, h: Server, t: nat)
    requires Hands(g) && GapMove(g, h, t)
    requires forall u, k :: u in g.threads && InHand(g.threads[u], k) ==> k in Mentioned(g.threads[u])
    ensures Hands(h)
  {
    hide OneMoved, ComingJob, StartReturned;
    assert h.threads == g.threads[t := h.threads[t]] && t in g.threads by { MovedThreads(g, h, t); }
    forall u | u in h.threads && u != t
      ensures HandOk(h, h.threads[u])
    {
      assert HandOk(g, g.threads[u]);
    }
  }

  lemma MovedThreads(g: Server, h: Server, t: nat)
    requires OneMoved(g, h, t)
    ensures t in g.threads && t in h.threads && h.threads == g.threads[t := h.threads[t]]
  {
  }

  lemma InHandMentioned(pc: Pc, k: nat)
    requires InHand(pc, k)
    ensures k in Mentioned(pc)
  {
  }

  lemma GapMoveLaunch(g: Server, h: Server, t: nat)
    requires AllJobs(g) && LockInv(g) && LaunchGap(g) && GapMove(g, h, t)
    ensures LaunchGap(h)
  {
    hide ComingJob, HandOk;
    forall j | j in h.jobs && h.jobs[j].winner.Some? && !h.jobs[j].published
      ensures HolderLaunches(h, j, h.jobs[j].winner.value)
    {
      var c := g.jobs[j].winner.value;
      assert JobInv(g.jobs[j]);
      assert HolderLaunches(g, j, c);
    }
  }

  lemma GapMoveKept(g: Server, h: Server, t: nat)
    requires AllJobs(g) && LockInv(g) && GapInv(g) && GapMove(g, h, t)
    ensures GapInv(h)
  {
    GapMoveLaunch(g, h, t);
    hide AllJobs, LockInv, LaunchGap;
    forall u, k | u in g.threads && InHand(g.threads[u], k)
      ensures k in Mentioned(g.threads[u])
    {
      InHandMentioned(g.threads[u], k);
    }
    GapMoveHands(g, h, t);
    hide Hands, ComingJob, OneMoved, HandOk;
  }

  lemma EnterGap(g: Server, t: nat, e: Errand)
    requires t in g.threads && g.threads[t] == Want(e) && Enter(g, t, e).Some?
    requires OneMoved(g, Enter(g, t, e).value, t)
    ensures GapMove(g, Enter(g, t, e).value, t)
  {
    hide HasUuid, OneMoved;
    var h := Enter(g, t, e).value;
    NotComingNow(g, h, t);
  }

  /** Whoever moves on from Want, or was not there, leaves no job more coming. */
  lemma NotComingNow(g: Server, h: Server, t: nat)
    requires t in g.threads && t in h.threads && h.threads == g.threads[t := h.threads[t]] && !Coming(h.threads[t])
    ensures forall k :: ComingJob(h, k) ==> ComingJob(g, k)
  {
    forall k | ComingJob(h, k)
      ensures ComingJob(g, k)
    {
      var u :| u in h.threads && h.threads[u] == Want(Adding(k));
      assert g.threads[u] == Want(Adding(k));
    }
  }

  lemma ListedNotComing(g: Server, k: nat)
    requires Newcomers(g) && k in g.list
    ensures !ComingJob(g, k)
  {
  }

  lemma ScanOneGap(g: Server, t: nat, due: bool)
    requires Newcomers(g) && t in g.threads && HandOk(g, g.threads[t])
    requires g.threads[t].Scanning? && g.threads[t].i < |g.list|
    requires OneMoved(g, ScanOne(g, t, g.threads[t], due), t)
    ensures GapMove(g, ScanOne(g, t, g.threads[t], due), t)
  {
    var pc := g.threads[t];
    var h := ScanOne(g, t, pc, due);
    ListedNotComing(g, g.list[pc.i]);
    hide OneMoved, Newcomers, Read, StateOf, Terminal, Running;
    NotComingNow(g, h, t);
    hide ComingJob;
    assert h.threads[t].Scanning? || h.threads[t].Leaving?;
    assert forall k :: k in Mentioned(h.threads[t]) ==> k in pc.todo || k == g.list[pc.i];
  }

  lemma ErrandGap(g: Server, t: nat, call: nat, due: bool)
    requires t in g.threads && HandOk(g, g.threads[t])
    requires g.threads[t].Launching? || g.threads[t].Leaving?
    requires MoveStep(g, t, call, due).Some? && OneMoved(g, MoveStep(g, t, call, due).value, t)
    ensures GapMove(g, MoveStep(g, t, call, due).value, t)
  {
    hide OneMoved, RemoveStep, ShutdownStep, Enter, ScanOne, ScanEnd, StartReturned;
    var h := MoveStep(g, t, call, due).value;
    NotComingNow(g, h, t);
    hide ComingJob;
  }

  lemma RemovalGap(g: Server, t: nat, call: nat, due: bool)
    requires t in g.threads && HandOk(g, g.threads[t])
    requires g.threads[t].RemNext? || g.threads[t].RemLeaving? || g.threads[t].RemWaiting?
    requires MoveStep(g, t, call, due).Some? && OneMoved(g, MoveStep(g, t, call, due).value, t)
    ensures GapMove(g, MoveStep(g, t, call, due).value, t)
  {
    hide OneMoved, ErrandStep, ShutdownStep, CloseReturned, BeginClose;
    var h := MoveStep(g, t, call, due).value;
    NotComingNow(g, h, t);
    hide ComingJob;
  }

  lemma ShutdownGap(g: Server, t: nat, call: nat, due: bool)
    requires t in g.threads && HandOk(g, g.threads[t]) && Newcomers(g) && (g.closed ==> g.list == [])
    requires g.threads[t].CloseWant? || g.threads[t].CloseLeaving? || g.threads[t].CloseWaiting?
    requires MoveStep(g, t, call, due).Some? && OneMoved(g, MoveStep(g, t, call, due).value, t)
    ensures GapMove(g, MoveStep(g, t, call, due).value, t)
  {
    hide OneMoved, ErrandStep, RemoveStep, CloseReturned, BeginClose, StartReturned, Apply, HasUuid;
    var h := MoveStep(g, t, call, due).value;
    NotComingNow(g, h, t);
    forall k | k in g.list
      ensures !ComingJob(g, k)
    {
      ListedNotComing(g, k);
    }
    hide ComingJob, Newcomers;
  }

  // ---------------------------------------------------------------- moves that call into a job

  /** First the job takes the call, then the thread records it. */
  lemma CallThenMove(g: Server, m: Server, h: Server, t: nat)
    requires LockInv(g) && OneMoved(g, h, t) && JobsOnly(g, m) && h == Goto(m, t, h.threads[t])
    requires !g.threads[t].Launching? && !Coming(h.threads[t]) && HandOk(m, h.threads[t])
    ensures LockInv(m) && GapMove(m, h, t)
  {
    NotComingNow(m, h, t);
    hide ComingJob;
  }

  ghost predicate JobsOnly(g: Server, m: Server) {
    m == g.(jobs := m.jobs)
  }

  lemma ActedInv(g: Server, j: nat, a: Act)
    requires AllJobs(g) && Acted(g, j, a).Some?
    ensures AllJobs(Acted(g, j, a).value) && JobsOnly(g, Acted(g, j, a).value)
  {
    hide Apply, JobInv;
    StepKeepsInv(g.jobs[j], a);
    JobPut(g, Acted(g, j, a).value, j, Apply(g.jobs[j], a).value);
  }

  lemma HandSame(g: Server, m: Server, pc: Pc, after: Pc)
    requires JobsOnly(g, m) && HandOk(g, pc) && Mentioned(after) == Mentioned(pc)
    requires forall k :: InHand(after, k) ==> InHand(pc, k)
    ensures HandOk(m, after)
  {
    assert forall k :: ComingJob(m, k) <==> ComingJob(g, k);
  }

  lemma BeginCloseGap(g: Server, t: nat, j: nat, call: nat, after: Pc)
    requires AllJobs(g) && LockInv(g) && GapInv(g) && t in g.threads && HandOk(g, g.threads[t])
    requires BeginClose(g, t, j, call, after).Some? && OneMoved(g, BeginClose(g, t, j, call, after).value, t)
    requires InHand(g.threads[t], j) && j in Mentioned(g.threads[t]) && !g.threads[t].Launching?
    requires Mentioned(after) == Mentioned(g.threads[t]) && !after.Want?
    requires forall k :: InHand(after, k) ==> InHand(g.threads[t], k)
    ensures GapInv(BeginClose(g, t, j, call, after).value)
  {
    hide Apply, AllJobs, LockInv, GapInv, OneMoved, HandOk, Mentioned, InHand, GapMove;
    var m := Acted(g, j, Act.CallClose(call, None)).value;
    var h := BeginClose(g, t, j, call, after).value;
    assert j !in g.list && !ComingJob(g, j) by { HandNotListed(g, g.threads[t], j); }
    CloseCallGap(g, j, call, None);
    ActedInv(g, j, Act.CallClose(call, None));
    HandSame(g, m, g.threads[t], after);
    hide Acted;
    CallThenMove(g, m, h, t);
    GapMoveKept(m, h, t);
  }

  lemma HandNotListed(g: Server, pc: Pc, j: nat)
    requires HandOk(g, pc) && InHand(pc, j) && j in Mentioned(pc)
    ensures j !in g.list && !ComingJob(g, j)
  {
  }

  lemma ClosingGap(g: Server, t: nat, call: nat, due: bool)
    requires AllJobs(g) && LockInv(g) && GapInv(g) && t in g.threads && HandOk(g, g.threads[t])
    requires g.threads[t].RemClosing? || g.threads[t].Closing?
    requires MoveStep(g, t, call, due).Some? && OneMoved(g, MoveStep(g, t, call, due).value, t)
    ensures GapInv(MoveStep(g, t, call, due).value)
  {
    hide AllJobs, LockInv, GapInv, OneMoved, HandOk, BeginClose, ErrandStep;
    match g.threads[t]
    case RemClosing(queue, gone) => BeginCloseGap(g, t, queue[0], call, RemWaiting(queue, gone, call));
    case Closing(taken, i) => BeginCloseGap(g, t, taken[i], call, CloseWaiting(taken, i, call));
  }

  lemma ScanEndGap(g: Server, t: nat, call: nat)
    requires AllJobs(g) && CoreInv(g) && QueueInv(g) && GapInv(g) && t in g.threads && HandOk(g, g.threads[t])
    requires g.threads[t].Scanning? && g.threads[t].i >= |g.list|
    requires ScanEnd(g, t, g.threads[t], call).Some? && OneMoved(g, ScanEnd(g, t, g.threads[t], call).value, t)
    ensures GapInv(ScanEnd(g, t, g.threads[t], call).value)
  {
    hide Apply, AllJobs, CoreInv, QueueInv, GapInv, OneMoved, HandOk, GapMove;
    var pc := g.threads[t];
    var h := ScanEnd(g, t, pc, call).value;
    assert LockInv(g) by { LockFromCore(g); }
    hide LockInv;
    if h.threads[t].Launching? {
      var j := g.list[pc.sc.next.value];
      var m := Acted(g, j, CallStart(call)).value;
      JobStepGap(g, j, CallStart(call));
      ActedInv(g, j, CallStart(call));
      HandSame(g, m, pc, h.threads[t]);
      hide Acted;
      CallThenMove(g, m, h, t);
      GapMoveKept(m, h, t);
    } else {
      HandSame(g, g, pc, h.threads[t]);
      ScanStops(g, t, call);
      GapMoveKept(g, h, t);
    }
  }

  lemma ScanStops(g: Server, t: nat, call: nat)
    requires t in g.threads && g.threads[t].Scanning? && ScanEnd(g, t, g.threads[t], call).Some?
    requires var h := ScanEnd(g, t, g.threads[t], call).value;
             OneMoved(g, h, t) && !h.threads[t].Launching? && HandOk(g, h.threads[t])
    ensures GapMove(g, ScanEnd(g, t, g.threads[t], call).value, t)
  {
    hide Acted, OneMoved;
    var h := ScanEnd(g, t, g.threads[t], call).value;
    NotComingNow(g, h, t);
  }

  lemma LockFromCore(g: Server)
    requires CoreInv(g)
    ensures LockInv(g)
  {
  }

  lemma MoveGap(g: Server, t: nat, call: nat, due: bool)
    requires AllJobs(g) && CoreInv(g) && QueueInv(g) && GapInv(g) && MoveStep(g, t, call, due).Some?
    ensures GapInv(MoveStep(g, t, call, due).value)
  {
    var h := MoveStep(g, t, call, due).value;
    MoveGood(g, t, call, due);
    assert OneMoved(g, h, t);
    assert HandOk(g, g.threads[t]);
    assert g.closed ==> g.list == [];
    hide Apply, Enter, ScanOne, ScanEnd, BeginClose, OneMoved, ListInv, LockInv, PcInv, PcOk, AllJobs, HandOk, GapMove,
         LaunchGap, Untouched, Hands, NeverEarly, SoleStarter, Holders, WaitingLast, CountRunning, Without;
    match g.threads[t] {
      case Want(e) =>
        EnterGap(g, t, e);
        GapMoveKept(g, h, t);
      case Scanning(_, i, _, _) =>
        if i < |g.list| {
          ScanOneGap(g, t, due);
          GapMoveKept(g, h, t);
        } else {
          ScanEndGap(g, t, call);
        }
      case Launching(_, _, _, _) =>
        ErrandGap(g, t, call, due);
        GapMoveKept(g, h, t);
      case Leaving(_, _, _) =>
        ErrandGap(g, t, call, due);
        GapMoveKept(g, h, t);
      case RemNext(_, _) =>
        RemovalGap(g, t, call, due);
        GapMoveKept(g, h, t);
      case RemLeaving(_, _) =>
        RemovalGap(g, t, call, due);
        GapMoveKept(g, h, t);
      case RemClosing(_, _) => ClosingGap(g, t, call, due);
      case RemWaiting(_, _, _) =>
        RemovalGap(g, t, call, due);
        GapMoveKept(g, h, t);
      case CloseWant =>
        ShutdownGap(g, t, call, due);
        GapMoveKept(g, h, t);
      case CloseLeaving(_) =>
        ShutdownGap(g, t, call, due);
        GapMoveKept(g, h, t);
      case Closing(_, _) => ClosingGap(g, t, call, due);
      case CloseWaiting(_, _, _) =>
        ShutdownGap(g, t, call, due);
        GapMoveKept(g, h, t);
    }
  }

  // ---------------------------------------------------------------- the other events

  /** A call arrives whose thread has nothing in hand and mentions no job that is coming. */
  ghost predicate GapArrival(g: Server, h: Server, t: nat) {
    && OneArrived(g, h, t)
    && (forall k :: k in g.jobs ==> k in h.jobs && h.jobs[k] == g.jobs[k])
    && (forall k :: k in h.jobs && k !in g.jobs ==> h.jobs[k] == FRESH)
    && (forall k :: ComingJob(h, k) ==> ComingJob(g, k) || k !in g.jobs)
    && (forall k :: k in Mentioned(h.threads[t]) ==> !ComingJob(h, k))
    && (forall k :: !InHand(h.threads[t], k))
  }

  lemma GapArrivalKept(g: Server, h: Server, t: nat)
    requires LockInv(g) && PcInv(g) && GapInv(g) && GapArrival(g, h, t)
    ensures GapInv(h)
  {
    hide ComingJob;
    forall u | u in h.threads
      ensures HandOk(h, h.threads[u])
    {
      if u != t {
        assert HandOk(g, g.threads[u]) && PcOk(g, g.threads[u]);
      }
    }
    hide PcOk, HandOk;
    assert forall j, c :: HolderLaunches(g, j, c) ==> HolderLaunches(h, j, c);
  }

  /** Only the job that an AddJob call has just created is newly coming. */
  lemma ArrivedComing(g: Server, h: Server, t: nat)
    requires t !in g.threads && t in h.threads && h.threads == g.threads[t := h.threads[t]]
    ensures forall k :: ComingJob(h, k) ==> ComingJob(g, k) || h.threads[t] == Want(Adding(k))
  {
    forall k | ComingJob(h, k)
      ensures ComingJob(g, k) || h.threads[t] == Want(Adding(k))
    {
      var u :| u in h.threads && h.threads[u] == Want(Adding(k));
      if u != t {
        assert g.threads[u] == Want(Adding(k));
      }
    }
  }

  lemma ArrivalIsGap(g: Server, e: Event)
    requires Arrival(e) && Happen(g, e).Some? && OneArrived(g, Happen(g, e).value, e.thread)
    ensures GapArrival(g, Happen(g, e).value, e.thread)
  {
    hide Apply, MoveStep;
    ArrivedComing(g, Happen(g, e).value, e.thread);
    hide ComingJob;
    match e
    case CallAdd(_, _, _) =>
    case CallTasks(_) =>
    case CallRemove(_, _) =>
    case CallShutdown(_) =>
  }

  lemma ArrivalGap(g: Server, e: Event)
    requires CoreInv(g) && GapInv(g) && Arrival(e) && Happen(g, e).Some?
    ensures GapInv(Happen(g, e).value)
  {
    hide GapInv, GapArrival, OneArrived, Happen;
    ArrivalEffect(g, e);
    hide ListInv, PcOk;
    ArrivalIsGap(g, e);
    GapArrivalKept(g, Happen(g, e).value, e.thread);
  }

  lemma GapKept(g: Server, e: Event)
    requires ServerInv(g) && QueueInv(g) && GapInv(g) && Happen(g, e).Some?
    requires !Happen(g, e).value.past.outside && !Happen(g, e).value.past.stray
    ensures GapInv(Happen(g, e).value) && !g.past.stray
  {
    hide Apply, MoveStep, AllJobs, CoreInv, QueueInv, GapInv, ComingJob;
    match e
    case CallAdd(_, _, _) => ArrivalGap(g, e);
    case CallTasks(_) => ArrivalGap(g, e);
    case CallRemove(_, _) => ArrivalGap(g, e);
    case CallShutdown(_) => ArrivalGap(g, e);
    case SetMax(n) => SettingsGap(g, Happen(g, e).value);
    case OutsideClose(j, c, err) =>
      CloseCallGap(g, j, c, err);
      hide Acted;
      SettingsGap(Acted(g, j, Act.CallClose(c, err)).value, Happen(g, e).value);
    case JobMove(j, a) => JobStepGap(g, j, a);
    case Move(t, c, due) =>
      MoveGap(g, t, c, due);
      MoveGood(g, t, c, due);
  }

  lemma SettingsGap(g: Server, h: Server)
    requires GapInv(g) && h == g.(max := h.max, past := h.past)
    ensures GapInv(h)
  {
    assert forall k :: ComingJob(h, k) <==> ComingJob(g, k);
    forall u | u in h.threads
      ensures HandOk(h, h.threads[u])
    {
      assert HandOk(g, g.threads[u]);
    }
    hide HandOk;
  }
}
