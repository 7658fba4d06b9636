/** What the server's calls have done by the time they return: AddJob has listed its job or
    refused it for good, runTasks picks only jobs that have ended, and what RemoveJob and Close
    have taken off the list never comes back (rinser/rinse.go:220-262, 339-350, 424-451). */
module RinseCalls {
  import opened Basics
  import opened JobCore
  import opened JobSteps
  import opened JobProofs
  import LimitProofs
  import opened ListOrder
  import opened Registry
  import opened RinseInv
  import opened RinseProofs
  import opened RinseSteps
  import opened Scheduler
  import RinseTheorems

  // ---------------------------------------------------------------- facts that stay

  /** A known job that no thread is about to list. */
  ghost predicate Quiet(g: Server, j: nat) {
    j in g.uuid && !ComingJob(g, j)
  }

  /** And that is not listed. */
  ghost predicate Off(g: Server, j: nat) {
    Quiet(g, j) && j !in g.list
  }

  predicate Ended(g: Server, j: nat) {
    j in g.jobs && Terminal(g.jobs[j].v.state)
  }

  lemma QuietStays(g: Server, h: Server, j: nat)
    requires Quiet(g, j) && ComingStep(g, h)
    ensures Quiet(h, j)
  {
    forall t | t in h.threads && Coming(h.threads[t])
      ensures h.threads[t] != Want(Adding(j))
    {
      if t in g.threads {
        assert g.threads[t] != Want(Adding(j));
      }
    }
  }

  lemma OffStays(g: Server, h: Server, j: nat)
    requires Off(g, j) && ComingStep(g, h) && ListStep(g, h)
    ensures Off(h, j)
  {
    QuietStays(g, h, j);
    hide ComingStep;
  }

  /** Once off the list and not about to be listed, a job is never listed. */
  lemma {:induction false} OffForGood(g: Server, events: seq<Event>, j: nat)
    requires Off(g, j) && Play(g, events).Some?
    ensures Off(Play(g, events).value, j)
    decreases |events|
  {
    hide Happen, Off, ComingStep, ListStep;
    if events != [] {
      EventList(g, events[0]);
      OffStays(g, Happen(g, events[0]).value, j);
      OffForGood(Happen(g, events[0]).value, events[1..], j);
    }
  }

  lemma SeenEnds(s: Sys, a: Act)
    requires JobInv(s) && Apply(s, a).Some? && Terminal(s.v.state)
    ensures Terminal(Apply(s, a).value.v.state)
  {
    JobStepSeen(s, a);
    hide Apply, JobInv;
  }

  lemma EndedStays(g: Server, e: Event, j: nat)
    requires AllJobs(g) && Happen(g, e).Some? && Ended(g, j)
    ensures Ended(Happen(g, e).value, j)
  {
    hide Apply, JobInv, Terminal;
    if !e.CallAdd? {
      Touches(g, e);
      hide Happen;
      var m := Touch(g, e);
      if m.Some? && m.value.0 == j {
        SeenEnds(g.jobs[j], m.value.1);
      }
    }
  }

  // ---------------------------------------------------------------- what a thread may say

  /** The jobs that a thread is going to take off the list. */
  function Queue(pc: Pc): seq<nat> {
    match pc
    case Scanning(_, _, _, todo) => todo
    case Launching(_, _, _, todo) => todo
    case Leaving(_, _, todo) => todo
    case RemNext(queue, _) => queue
    case RemLeaving(queue, _) => queue
    case RemClosing(queue, _) => queue
    case RemWaiting(queue, _, _) => queue
    case _ => []
  }

  /** The jobs that runTasks has picked to be removed. */
  function Picked(pc: Pc): seq<nat> {
    match pc
    case Scanning(e, _, _, todo) => if e.Ticking? then todo else []
    case Launching(e, _, _, todo) => if e.Ticking? then todo else []
    case Leaving(e, _, todo) => if e.Ticking? then todo else []
    case _ => []
  }

  /** The job that AddJob has listed. */
  function Entered(pc: Pc): Option<nat> {
    match pc
    case Scanning(e, _, _, _) => if e.Adding? then Some(e.job) else None
    case Launching(e, _, _, _) => if e.Adding? then Some(e.job) else None
    case Leaving(e, err, _) => if e.Adding? && err.None? then Some(e.job) else None
    case Added(j, err) => if err.None? then Some(j) else None
    case _ => None
  }

  /** The job that AddJob has refused, and why. */
  function Refused(pc: Pc): Option<(nat, AddError)> {
    match pc
    case Leaving(e, err, _) => if e.Adding? && err.Some? then Some((e.job, err.value)) else None
    case Added(j, err) => if err.Some? then Some((j, err.value)) else None
    case _ => None
  }

  ghost predicate WordOk(g: Server, pc: Pc) {
    && (forall j :: j in Queue(pc) ==> Quiet(g, j))
    && (forall j :: j in Picked(pc) ==> Ended(g, j))
    && (forall j :: RinseTheorems.TakenBy(pc, j) ==> Off(g, j))
    && (Entered(pc).Some? ==> RinseTheorems.Accounted(g, Entered(pc).value))
    && (Refused(pc).Some? ==> Off(g, Refused(pc).value.0) && (Refused(pc).value.1.ServerClosed? ==> g.closed))
  }

  ghost predicate Words(g: Server) {
    forall t :: t in g.threads ==> WordOk(g, g.threads[t])
  }

  ghost predicate CallInv(g: Server) {
    ServerInv(g) && Newcomers(g) && Words(g)
  }

  lemma WordStays(g: Server, e: Event, pc: Pc)
    requires ServerInv(g) && Happen(g, e).Some? && WordOk(g, pc)
    ensures WordOk(Happen(g, e).value, pc)
  {
    hide Happen, AllJobs, CoreInv, Quiet, Off, Ended, Queue, Picked, Entered, Refused, ComingStep, ListStep,
         RinseTheorems.TakenBy, RinseTheorems.Accounted;
    var h := Happen(g, e).value;
    EventList(g, e);
    forall j | j in Queue(pc)
      ensures Quiet(h, j)
    {
      QuietStays(g, h, j);
    }
    forall j | j in Picked(pc)
      ensures Ended(h, j)
    {
      EndedStays(g, e, j);
    }
    forall j | RinseTheorems.TakenBy(pc, j)
      ensures Off(h, j)
    {
      OffStays(g, h, j);
    }
    if Entered(pc).Some? {
      RinseTheorems.StaysAccounted(g, e, Entered(pc).value);
    }
    if Refused(pc).Some? {
      OffStays(g, h, Refused(pc).value.0);
      if g.closed {
        RinseTheorems.CloseStays(g, e);
      }
    }
  }

  // ---------------------------------------------------------------- the thread that moves

  /** The moving thread says nothing new, but for a job it has just picked from the list, taken off
      it, put on it, or refused. */
  ghost predicate NewWords(g: Server, h: Server, t: nat) {
    && t in g.threads && t in h.threads
    && var pc, now := g.threads[t], h.threads[t];
    && (forall j :: j in Queue(now) ==> j in Queue(pc) || j in g.list)
    && (forall j :: j in Picked(now) ==> j in Picked(pc) || Ended(g, j))
    && (forall j :: RinseTheorems.TakenBy(now, j) ==>
          || RinseTheorems.TakenBy(pc, j)
          || (j in Queue(pc) && h.list == Without(g.list, j))
          || (j in g.list && h.list == []))
    && (Entered(now).Some? ==> Entered(now) == Entered(pc) || Entered(now).value in h.list)
    && (Refused(now).Some? ==>
          || Refused(now) == Refused(pc)
          || (pc == Want(Adding(Refused(now).value.0)) && h.list == g.list
              && (Refused(now).value.1.ServerClosed? ==> g.closed)))
  }

  lemma EnterWords(g: Server, t: nat, e: Errand)
    requires t in g.threads && g.threads[t] == Want(e) && Enter(g, t, e).Some?
    ensures NewWords(g, Enter(g, t, e).value, t)
  {
    hide HasUuid, Without;
  }

  lemma ScanWords(g: Server, t: nat, due: bool)
    requires Known(g, g.list)
    requires t in g.threads && g.threads[t].Scanning? && g.threads[t].i < |g.list|
    ensures NewWords(g, ScanOne(g, t, g.threads[t], due), t)
  {
    hide Read, Running, Without;
    var pc := g.threads[t];
    assert Terminal(StateOf(g, g.list[pc.i])) ==> Ended(g, g.list[pc.i]);
  }

  lemma ScanEndWords(g: Server, t: nat, call: nat)
    requires t in g.threads && g.threads[t].Scanning? && ScanEnd(g, t, g.threads[t], call).Some?
    ensures NewWords(g, ScanEnd(g, t, g.threads[t], call).value, t)
  {
    hide Apply, Ended, Without;
  }

  lemma LaunchedWords(g: Server, t: nat, call: nat, due: bool)
    requires t in g.threads && (g.threads[t].Launching? || g.threads[t].Leaving?)
    requires MoveStep(g, t, call, due).Some?
    ensures NewWords(g, MoveStep(g, t, call, due).value, t)
  {
    hide Apply, Ended, Without, StartReturned, Enter, ScanOne, ScanEnd, BeginClose;
  }

  lemma RemovalWords(g: Server, t: nat, call: nat)
    requires t in g.threads && OnRemoval(g.threads[t]) && RemoveStep(g, t, g.threads[t], call).Some?
    ensures NewWords(g, RemoveStep(g, t, g.threads[t], call).value, t)
  {
    hide Apply, Ended, Without, CloseReturned;
  }

  lemma ShutdownWords(g: Server, t: nat, call: nat)
    requires g.closed ==> g.list == []
    requires t in g.threads && !OnErrand(g.threads[t]) && !OnRemoval(g.threads[t])
    requires ShutdownStep(g, t, g.threads[t], call).Some?
    ensures NewWords(g, ShutdownStep(g, t, g.threads[t], call).value, t)
  {
    hide Apply, Ended, Without, CloseReturned;
  }

  lemma MoveWords(g: Server, t: nat, call: nat, due: bool)
    requires ListInv(g) && MoveStep(g, t, call, due).Some?
    ensures NewWords(g, MoveStep(g, t, call, due).value, t)
  {
    hide NewWords, RemoveStep, ShutdownStep, Enter, ScanOne, ScanEnd, StartReturned;
    var pc := g.threads[t];
    if OnRemoval(pc) {
      RemovalWords(g, t, call);
    } else if !OnErrand(pc) {
      ShutdownWords(g, t, call);
    } else if pc.Want? {
      EnterWords(g, t, pc.errand);
    } else if pc.Scanning? {
      if pc.i < |g.list| {
        ScanWords(g, t, due);
      } else {
        ScanEndWords(g, t, call);
      }
    } else {
      LaunchedWords(g, t, call, due);
    }
  }

  /** No thread but t was about to list the job that t was about to list. */
  lemma RefusedIsOff(g: Server, h: Server, t: nat, j: nat)
    requires Newcomers(g) && ComingStep(g, h) && t in g.threads && t in h.threads
    requires g.threads[t] == Want(Adding(j)) && !Coming(h.threads[t]) && h.list == g.list
    ensures Off(h, j)
  {
    assert Coming(g.threads[t]);
    forall u | u in h.threads && Coming(h.threads[u])
      ensures h.threads[u] != Want(Adding(j))
    {
    }
  }

  lemma ListedIsQuiet(g: Server, j: nat)
    requires Newcomers(g) && j in g.list
    ensures Quiet(g, j)
  {
    forall t | t in g.threads && Coming(g.threads[t])
      ensures g.threads[t] != Want(Adding(j))
    {
    }
  }

  lemma MoverWord(g: Server, e: Event)
    requires CallInv(g) && e.Move? && Happen(g, e).Some?
    ensures var h := Happen(g, e).value; e.thread in h.threads && WordOk(h, h.threads[e.thread])
  {
    hide AllJobs, Quiet, Ended, Newcomers, Queue, Picked, Entered, ComingStep, ListStep, MoveStep,
         RinseTheorems.TakenBy;
    var h, t := Happen(g, e).value, e.thread;
    MoveWords(g, t, e.call, e.due);
    EventList(g, e);
    WordStays(g, e, g.threads[t]);
    forall j | j in g.list
      ensures Quiet(h, j)
    {
      ListedIsQuiet(g, j);
      QuietStays(g, h, j);
    }
    forall j | Ended(g, j)
      ensures Ended(h, j)
    {
      EndedStays(g, e, j);
    }
    if Refused(h.threads[t]).Some? && Refused(h.threads[t]) != Refused(g.threads[t]) {
      RefusedIsOff(g, h, t, Refused(h.threads[t]).value.0);
      if g.closed {
        RinseTheorems.CloseStays(g, e);
      }
    }
    hide Happen;
  }

  lemma ArrivedWord(g: Server, e: Event)
    requires CallInv(g) && Arrival(e) && Happen(g, e).Some?
    ensures var h := Happen(g, e).value; e.thread in h.threads && WordOk(h, h.threads[e.thread])
  {
    hide AllJobs, LockInv, PcInv, Newcomers, ComingStep, ListStep, ComingJob, ListInv, MoveStep;
    EventList(g, e);
    if e.CallRemove? {
      KnownUuid(g, e.job);
      QuietStays(g, Happen(g, e).value, e.job);
      assert Happen(g, e).value.threads[e.thread] == RemNext([e.job], []);
    }
  }

  lemma KnownUuid(g: Server, j: nat)
    requires ListInv(g) && j in g.jobs
    ensures j in g.uuid
  {
  }

  lemma CallsKept(g: Server, e: Event)
    requires CallInv(g) && Happen(g, e).Some?
    ensures CallInv(Happen(g, e).value)
  {
    hide AllJobs, CoreInv, Newcomers, ComingStep, ListStep, WordOk;
    AllJobsKept(g, e);
    CoreKept(g, e);
    EventList(g, e);
    NewcomersKept(g, Happen(g, e).value);
    if e.Move? {
      MoverWord(g, e);
      MoveGood(g, e.thread, e.call, e.due);
    } else if Arrival(e) {
      ArrivedWord(g, e);
      ArrivalEffect(g, e);
    } else {
      OtherEffect(g, e);
    }
    hide Happen, ListInv, PcOk;
    var h := Happen(g, e).value;
    forall t | t in h.threads
      ensures WordOk(h, h.threads[t])
    {
      if t in g.threads && h.threads[t] == g.threads[t] {
        WordStays(g, e, g.threads[t]);
      }
    }
  }

  lemma {:induction false} PlayKeepsCalls(g: Server, events: seq<Event>)
    requires CallInv(g) && Play(g, events).Some?
    ensures CallInv(Play(g, events).value)
    decreases |events|
  {
    hide Happen, CallInv;
    if events != [] {
      CallsKept(g, events[0]);
      PlayKeepsCalls(Happen(g, events[0]).value, events[1..]);
    }
  }

  lemma CallsReachable(max: int, events: seq<Event>)
    requires Play(Boot(max), events).Some?
    ensures CallInv(Play(Boot(max), events).value)
  {
    hide Happen;
    ServerReachable(max, []);
    assert CallInv(Boot(max));
    hide CallInv;
    PlayKeepsCalls(Boot(max), events);
  }

  // ---------------------------------------------------------------- the promises

  /** What holds of a call that has returned. */
  ghost predicate Kept(g: Server, pc: Pc) {
    match pc
    case Added(j, None) => RinseTheorems.Accounted(g, j)
    case Added(j, Some(err)) => Off(g, j) && (err.ServerClosed? ==> g.closed)
    case RemNext(queue, gone) =>
      queue == [] ==> forall j :: j in gone ==> Off(g, j) && j in g.jobs && g.jobs[j].v.closed
    case Closing(taken, i) =>
      i == |taken| ==> g.closed && forall j :: j in taken ==> Off(g, j) && j in g.jobs && g.jobs[j].v.closed
    case _ => true
  }

  /** In every run, a job that AddJob has accepted is on the list or has been taken off by a
      RemoveJob or Close; one that it has refused is not listed, nor ever will be; and the jobs of
      RemoveJob and Close calls that have returned are closed and off the list for good. */
  lemma CallsKeepTheirWord(max: int, events: seq<Event>, t: nat)
    requires Play(Boot(max), events).Some? && t in Play(Boot(max), events).value.threads
    ensures Kept(Play(Boot(max), events).value, Play(Boot(max), events).value.threads[t])
  {
    hide Play, CallInv, Kept;
    CallsReachable(max, events);
    WordKept(Play(Boot(max), events).value, t);
  }

  lemma WordKept(g: Server, t: nat)
    requires CallInv(g) && t in g.threads
    ensures Kept(g, g.threads[t])
  {
    hide AllJobs, ListInv, LockInv, Newcomers, Off, RinseTheorems.Accounted, Quiet, Ended;
    assert WordOk(g, g.threads[t]) && PcOk(g, g.threads[t]);
  }

  /** The jobs that runTasks is going to remove have ended. */
  lemma TasksRemoveEnded(max: int, events: seq<Event>, t: nat)
    requires Play(Boot(max), events).Some? && t in Play(Boot(max), events).value.threads
    ensures
      var g := Play(Boot(max), events).value;
      forall j :: j in Picked(g.threads[t]) ==> j in g.jobs && Terminal(g.jobs[j].v.state)
  {
    hide Play, CallInv, Picked;
    CallsReachable(max, events);
    PickedEnded(Play(Boot(max), events).value, t);
  }

  lemma PickedEnded(g: Server, t: nat)
    requires CallInv(g) && t in g.threads
    ensures forall j :: j in Picked(g.threads[t]) ==> Ended(g, j)
  {
    hide ServerInv, Newcomers, Off, Quiet, Ended, Picked, RinseTheorems.Accounted;
  }

  // ---------------------------------------------------------------- what is decided under the mutex

  /** AddJob, once it has the mutex. */
  lemma EntryMeans(g: Server, t: nat, j: nat)
    requires t in g.threads && g.threads[t] == Want(Adding(j)) && g.lock.None? && ListInv(g) && j in g.jobs
    ensures Enter(g, t, Adding(j)).Some?
    ensures
      var h := Enter(g, t, Adding(j)).value;
      var listed := exists i :: 0 <= i < |g.list| && g.uuid[g.list[i]] == g.uuid[j];
      && h.lock == Some(t)
      && h.list == (if g.closed || listed then g.list else g.list + [j])
      && h.threads[t] == if g.closed then Leaving(Adding(j), Some(ServerClosed), [])
                         else if listed then Leaving(Adding(j), Some(DuplicateUUID), [])
                         else Scanning(Adding(j), 0, BLANK, [])
  {
  }

  ghost predicate Decided(g: Server, pc: Pc, now: Pc) {
    && pc.Scanning?
    && (now.Launching? || now.Leaving?)
    && (now.Launching? ==>
          && (exists i :: 0 <= i < |g.list| && g.list[i] == now.target && FirstWaiting(ListStates(g), Some(i)))
          && (pc.errand.Ticking? ==> pc.sc.running < g.max))
    && (now.Leaving? ==> New !in ListStates(g) || (pc.errand.Ticking? && pc.sc.running >= g.max))
  }

  lemma EndDecides(g: Server, t: nat, call: nat)
    requires LockInv(g) && LimitProofs.Holders(g)
    requires t in g.threads && g.threads[t].Scanning? && g.threads[t].i == |g.list|
    requires ScanEnd(g, t, g.threads[t], call).Some?
    ensures Decided(g, g.threads[t], ScanEnd(g, t, g.threads[t], call).value.threads[t])
  {
    hide Apply, CountRunning, ListStates;
    var pc := g.threads[t];
    assert LimitProofs.HolderOk(g, pc) && LimitProofs.ScanOk(g, pc);
    assert ListStates(g)[..pc.i] == ListStates(g);
  }

  /** In every run without starts from outside: at the end of a scan, the job that is started is the
      first waiting one of that moment; and if none is started, none waits, or runTasks has counted
      as many running jobs as the limit allows. */
  lemma ScanDecides(max: int, events: seq<Event>, t: nat, call: nat)
    requires Play(Boot(max), events).Some? && !Play(Boot(max), events).value.past.outside
    requires
      var g := Play(Boot(max), events).value;
      && t in g.threads && g.threads[t].Scanning? && g.threads[t].i == |g.list|
      && ScanEnd(g, t, g.threads[t], call).Some?
    ensures
      var g := Play(Boot(max), events).value;
      Decided(g, g.threads[t], ScanEnd(g, t, g.threads[t], call).value.threads[t])
  {
    RinseTheorems.QueueReachable(max, events);
    hide Play, Decided, ScanEnd, LockInv, AllJobs, ListInv, PcInv, LimitProofs.SoleStarter,
         LimitProofs.WaitingLast, LimitProofs.Holders;
    EndDecides(Play(Boot(max), events).value, t, call);
  }
}
