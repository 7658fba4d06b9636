/** The server's promises, for every run from start-up. */
module RinseTheorems {
  import opened Basics
  import opened JobCore
  import opened JobSteps
  import opened JobProofs
  import opened JobTheorems
  import opened Scheduler
  import opened Registry
  import opened RinseSteps
  import opened RinseProofs
  import opened RinseInv
  import opened LimitProofs
  import opened QueueProofs
  import opened GapProofs

  // ---------------------------------------------------------------- limit and order

  lemma PastStays(g: Server, e: Event)
    requires ServerInv(g) && Happen(g, e).Some?
    ensures g.past.outside ==> Happen(g, e).value.past.outside
    ensures g.past.stray ==> Happen(g, e).value.past.stray
  {
    hide Apply, MoveStep, AllJobs, CoreInv, ComingJob;
    if e.Move? {
      MoveGood(g, e.thread, e.call, e.due);
      hide ListInv, PcOk;
    }
  }

  lemma {:induction false} PlayKeepsQueue(g: Server, events: seq<Event>)
    requires ServerInv(g) && (!g.past.outside ==> QueueInv(g))
    requires Play(g, events).Some? && !Play(g, events).value.past.outside
    ensures QueueInv(Play(g, events).value) && !g.past.outside
    decreases |events|
  {
    hide AllJobs, CoreInv, QueueInv, Happen;
    if events != [] {
      var h := Happen(g, events[0]).value;
      AllJobsKept(g, events[0]);
      CoreKept(g, events[0]);
      PastStays(g, events[0]);
      if !h.past.outside {
        QueueKept(g, events[0]);
      }
      PlayKeepsQueue(h, events[1..]);
    }
  }

  lemma QueueReachable(max: int, events: seq<Event>)
    requires Play(Boot(max), events).Some? && !Play(Boot(max), events).value.past.outside
    ensures QueueInv(Play(Boot(max), events).value) && ServerInv(Play(Boot(max), events).value)
  {
    hide Happen;
    var g := Boot(max);
    assert ListStates(g) == [];
    assert QueueInv(g);
    ServerReachable(max, events);
    hide ServerInv, QueueInv;
    assert ServerInv(g) by { ServerReachable(max, []); }
    PlayKeepsQueue(g, events);
  }

  /** While only AddJob and runTasks start jobs and the limit is not lowered, no more listed
      jobs run than the limit allows, in every state, though jobs finish while they are
      counted. */
  lemma LimitHolds(max: int, events: seq<Event>)
    requires Play(Boot(max), events).Some?
    ensures
      var g := Play(Boot(max), events).value;
      !g.past.outside && !g.past.lowered ==> CountRunning(ListStates(g)) <= g.max
  {
    if !Play(Boot(max), events).value.past.outside {
      QueueReachable(max, events);
    }
  }

  /** Some Start has won and the process goroutine, if launched yet, has not come to its end. */
  predicate Working(s: Sys) {
    && s.winner.Some?
    && (s.proc.NotSpawned? || s.proc.Stamp? || s.proc.Check? || s.proc.Trans? || s.proc.Body? || s.proc.Failing?)
  }

  lemma RunningMeansWorking(s: Sys)
    requires JobInv(s)
    ensures Running(s.v.state) <==> Working(s)
  {
    hide TrailInv, DutyInv, TallyInv, CleanInv, WatchInv;
  }

  function WorkingAmong(g: Server, q: seq<nat>): set<nat> {
    set j | j in q && j in g.jobs && Working(g.jobs[j])
  }

  lemma {:induction false} CountWorking(g: Server, q: seq<nat>)
    requires forall k :: 0 <= k < |q| ==> q[k] in g.jobs && JobInv(g.jobs[q[k]])
    ensures |WorkingAmong(g, q)| <= CountRunning(StatesIn(g, q))
  {
    hide JobInv, Working, Running;
    if q == [] {
      assert WorkingAmong(g, q) == {};
    } else {
      var n := |q| - 1;
      CountWorking(g, q[..n]);
      RunningMeansWorking(g.jobs[q[n]]);
      AmongMore(g, q);
      assert StatesIn(g, q)[..n] == StatesIn(g, q[..n]);
      hide WorkingAmong;
    }
  }

  lemma AmongMore(g: Server, q: seq<nat>)
    requires q != [] && q[|q| - 1] in g.jobs
    ensures
      var n := |q| - 1;
      WorkingAmong(g, q) == WorkingAmong(g, q[..n]) + if Working(g.jobs[q[n]]) then {q[n]} else {}
  {
    hide Working;
    assert q == q[..|q| - 1] + [q[|q| - 1]];
  }

  /** In terms of goroutines: at most that many listed jobs are being processed. */
  lemma LimitHoldsForProcesses(max: int, events: seq<Event>)
    requires Play(Boot(max), events).Some?
    ensures
      var g := Play(Boot(max), events).value;
      !g.past.outside && !g.past.lowered ==> |WorkingAmong(g, g.list)| <= g.max
  {
    var g := Play(Boot(max), events).value;
    LimitHolds(max, events);
    ServerReachable(max, events);
    hide Play, JobInv, LockInv, PcInv;
    CountWorking(g, g.list);
  }

  /** Even when the limit has been lowered meanwhile, the step that starts a job leaves no
      more running than the limit of that moment, and the job it starts is the first waiting
      one on the list. */
  lemma StartsWithinLimit(max: int, events: seq<Event>, j: nat, a: Act)
    requires Play(Boot(max), events).Some? && !Play(Boot(max), events).value.past.outside
    requires Happen(Play(Boot(max), events).value, JobMove(j, a)).Some?
    requires
      var g := Play(Boot(max), events).value;
      StateOf(g, j) == New && StateOf(Happen(g, JobMove(j, a)).value, j) != New
    ensures
      var g := Play(Boot(max), events).value;
      var h := Happen(g, JobMove(j, a)).value;
      && CountRunning(ListStates(h)) <= h.max
      && exists i :: 0 <= i < |g.list| && g.list[i] == j && FirstWaiting(ListStates(g), Some(i))
  {
    QueueReachable(max, events);
    var g := Play(Boot(max), events).value;
    JobStepSeen(g.jobs[j], a);
    JobStepQueue(g, j, a);
    hide Apply, JobInv;
    assert CasOf(g.jobs[j], a);
    var _ := LaunchHead(g, j, a.call);
  }

  lemma PlayMore(g: Server, e: Event, h: Server, events: seq<Event>) returns (longer: seq<Event>)
    requires Happen(g, e) == Some(h)
    ensures longer == [e] + events && Play(g, longer) == Play(h, events)
  {
    hide Happen;
    longer := [e] + events;
    assert longer[1..] == events;
  }

  /** There are such steps: the first job added to a server is listed, scanned and launched, and
      then its Start wins. */
  lemma FirstJobStarts(max: int) returns (events: seq<Event>, a: Act)
    ensures Play(Boot(max), events).Some? && !Play(Boot(max), events).value.past.outside
    ensures Happen(Play(Boot(max), events).value, JobMove(0, a)).Some?
    ensures
      var g := Play(Boot(max), events).value;
      StateOf(g, 0) == New && StateOf(Happen(g, JobMove(0, a)).value, 0) == Starting
  {
    a := StepStart(0);
    var move := Move(0, 0, false);
    var g0 := Boot(max);
    var g1 := Happen(g0, CallAdd(0, 0, 0)).value;
    assert !HasUuid(g1, 0);
    var g2 := Happen(g1, move).value;
    assert g2.list == [0];
    var g3 := Happen(g2, move).value;
    var g4 := Happen(g3, move).value;
    assert g4.jobs[0] == FRESH.(starts := map[0 := Cas]);
    events := PlayMore(g3, move, g4, []);
    events := PlayMore(g2, move, g3, events);
    events := PlayMore(g1, move, g2, events);
    events := PlayMore(g0, CallAdd(0, 0, 0), g1, events);
  }

  /** First in, first out: the waiting jobs are always the tail of the list. */
  lemma WaitingAreLast(max: int, events: seq<Event>)
    requires Play(Boot(max), events).Some?
    ensures
      var g := Play(Boot(max), events).value;
      !g.past.outside ==> WaitingLast(ListStates(g))
  {
    if !Play(Boot(max), events).value.past.outside {
      QueueReachable(max, events);
    }
  }

  // ---------------------------------------------------------------- clean-up in the server

  lemma {:induction false} PlayKeepsGap(g: Server, events: seq<Event>)
    requires ServerInv(g) && (!g.past.outside ==> QueueInv(g))
    requires !g.past.outside && !g.past.stray ==> GapInv(g)
    requires Play(g, events).Some? && !Play(g, events).value.past.outside && !Play(g, events).value.past.stray
    ensures GapInv(Play(g, events).value) && !g.past.outside && !g.past.stray
    decreases |events|
  {
    hide AllJobs, CoreInv, QueueInv, GapInv, Happen;
    if events != [] {
      var h := Happen(g, events[0]).value;
      AllJobsKept(g, events[0]);
      CoreKept(g, events[0]);
      PastStays(g, events[0]);
      if !h.past.outside {
        QueueKept(g, events[0]);
        if !h.past.stray {
          GapKept(g, events[0]);
        }
      }
      PlayKeepsGap(h, events[1..]);
    }
  }

  lemma GapReachable(max: int, events: seq<Event>)
    requires Play(Boot(max), events).Some?
    requires !Play(Boot(max), events).value.past.outside && !Play(Boot(max), events).value.past.stray
    ensures GapInv(Play(Boot(max), events).value)
  {
    hide Happen;
    var g := Boot(max);
    QueueReachable(max, []);
    assert GapInv(g);
    hide ServerInv, QueueInv, GapInv;
    PlayKeepsGap(g, events);
  }

  /** In every run, with whatever starts and closes from outside, each job that has been
      closed and is at rest has been cleaned up. */
  lemma EveryJobIsCleanedUp(max: int, events: seq<Event>, j: nat)
    requires Play(Boot(max), events).Some? && j in Play(Boot(max), events).value.jobs
    ensures var s := Play(Boot(max), events).value.jobs[j]; s.v.closed && Quiescent(s) ==> CleanedUp(s)
  {
    hide Happen;
    var g := Play(Boot(max), events).value;
    ServerReachable(max, events);
    assert JobInv(g.jobs[j]);
    if g.jobs[j].v.closed && Quiescent(g.jobs[j]) {
      CleanAtRest(g.jobs[j]);
    }
  }

  /** While jobs are started only by AddJob and runTasks, and listed jobs are closed only by
      their watchdogs, RemoveJob and the server's Close, the early Close cannot happen: every
      job's files are removed at most once, never under its live process, and exactly once
      when it is closed and at rest. */
  lemma ScheduledJobsAreRemovedOnce(max: int, events: seq<Event>, j: nat)
    requires Play(Boot(max), events).Some? && j in Play(Boot(max), events).value.jobs
    requires !Play(Boot(max), events).value.past.outside && !Play(Boot(max), events).value.past.stray
    ensures
      var s := Play(Boot(max), events).value.jobs[j];
      && RemovesOnce(s)
      && (s.v.closed && Quiescent(s) ==> s.removals == 1 && s.cleaned == s.writes)
  {
    var g := Play(Boot(max), events).value;
    GapReachable(max, events);
    assert g.jobs[j].early ==> g.jobs[j].winner.None?;
    EveryJobIsCleanedUp(max, events, j);
    ServerReachable(max, events);
    hide Happen, GapInv;
    NotEarlyRemovesOnce(g.jobs[j]);
  }

  // ---------------------------------------------------------------- registry conservation

  /** In the hands of a thread that has taken it off the list. */
  ghost predicate TakenBy(pc: Pc, j: nat) {
    match pc
    case RemNext(_, gone) => j in gone
    case RemLeaving(queue, gone) => j in gone || (queue != [] && queue[0] == j)
    case RemClosing(queue, gone) => j in gone || (queue != [] && queue[0] == j)
    case RemWaiting(queue, gone, _) => j in gone || (queue != [] && queue[0] == j)
    case CloseLeaving(taken) => j in taken
    case Closing(taken, _) => j in taken
    case CloseWaiting(taken, _, _) => j in taken
    case _ => false
  }

  /** Its RemoveJob or Close call has returned, or its AddJob. */
  predicate CallDone(pc: Pc) {
    pc.Added? || (pc.RemNext? && pc.queue == []) || (pc.Closing? && pc.i == |pc.taken|)
  }

  ghost predicate Accounted(g: Server, j: nat) {
    j in g.list || exists t :: t in g.threads && TakenBy(g.threads[t], j)
  }

  lemma ScanKeepsList(g: Server, t: nat, call: nat, due: bool)
    requires t in g.threads && (g.threads[t].Want? || g.threads[t].Scanning?) && MoveStep(g, t, call, due).Some?
    ensures var h := MoveStep(g, t, call, due).value; t in h.threads && g.list <= h.list
  {
    hide Apply, HasUuid, Read, Running, Terminal, StateOf;
  }

  ghost predicate Takes(g: Server, h: Server, t: nat, j: nat) {
    && t in g.threads && t in h.threads
    && (TakenBy(g.threads[t], j) ==> TakenBy(h.threads[t], j))
    && (j in g.list && j !in h.list ==> TakenBy(h.threads[t], j))
  }

  lemma PlainTakes(g: Server, t: nat, call: nat, due: bool, j: nat)
    requires t in g.threads && (Plain(g.threads[t]) || g.threads[t].CloseWant?) && MoveStep(g, t, call, due).Some?
    ensures Takes(g, MoveStep(g, t, call, due).value, t, j)
  {
    hide Apply, Enter, ScanOne, ScanEnd, BeginClose, CloseReturned, StartReturned, Without;
    match g.threads[t]
    case Launching(_, _, _, _) =>
    case Leaving(_, _, _) =>
    case RemLeaving(_, _) =>
    case RemWaiting(_, _, _) =>
    case CloseWant =>
    case CloseLeaving(_) =>
    case CloseWaiting(_, _, _) =>
  }

  lemma RemNextTakes(g: Server, t: nat, call: nat, due: bool, j: nat)
    requires t in g.threads && g.threads[t].RemNext? && MoveStep(g, t, call, due).Some?
    ensures Takes(g, MoveStep(g, t, call, due).value, t, j)
  {
    hide Apply, Enter, ScanOne, ScanEnd, BeginClose, CloseReturned;
  }

  lemma ScanTakes(g: Server, t: nat, call: nat, due: bool, j: nat)
    requires t in g.threads && (g.threads[t].Want? || g.threads[t].Scanning?) && MoveStep(g, t, call, due).Some?
    ensures Takes(g, MoveStep(g, t, call, due).value, t, j)
  {
    ScanKeepsList(g, t, call, due);
    hide MoveStep;
  }

  lemma ClosingTakes(g: Server, t: nat, call: nat, due: bool, j: nat)
    requires t in g.threads && (g.threads[t].RemClosing? || g.threads[t].Closing?)
    requires MoveStep(g, t, call, due).Some?
    ensures Takes(g, MoveStep(g, t, call, due).value, t, j)
  {
    hide Enter, ScanOne, ScanEnd, BeginClose, ErrandStep, Apply, Without, StartReturned, CloseReturned, Grows;
    match g.threads[t]
    case RemClosing(queue, gone) => BeginCloseEffect(g, t, queue[0], call, RemWaiting(queue, gone, call));
    case Closing(taken, i) => BeginCloseEffect(g, t, taken[i], call, CloseWaiting(taken, i, call));
  }

  lemma MoveTakes(g: Server, t: nat, call: nat, due: bool, j: nat)
    requires MoveStep(g, t, call, due).Some?
    ensures Takes(g, MoveStep(g, t, call, due).value, t, j)
  {
    hide Takes, ErrandStep, RemoveStep, ShutdownStep;
    var pc := g.threads[t];
    if Plain(pc) || pc.CloseWant? {
      PlainTakes(g, t, call, due, j);
    } else if pc.RemNext? {
      RemNextTakes(g, t, call, due, j);
    } else if pc.Want? || pc.Scanning? {
      ScanTakes(g, t, call, due, j);
    } else if pc.RemClosing? || pc.Closing? {
      ClosingTakes(g, t, call, due, j);
    } else {
      assert pc.Added?;
      NothingTakes(g, t, call, due);
    }
  }

  lemma NothingTakes(g: Server, t: nat, call: nat, due: bool)
    requires t in g.threads && g.threads[t].Added?
    ensures MoveStep(g, t, call, due).None?
  {
  }

  /** Who had taken j has it still, and if j leaves the list, somebody has taken it. */
  ghost predicate HandsOver(g: Server, h: Server, j: nat) {
    && (forall t :: t in g.threads && TakenBy(g.threads[t], j) ==> t in h.threads && TakenBy(h.threads[t], j))
    && (j in g.list && j !in h.list ==> exists t :: t in h.threads && TakenBy(h.threads[t], j))
  }

  lemma MoveHandsOver(g: Server, h: Server, t: nat, j: nat)
    requires OneMoved(g, h, t) && Takes(g, h, t, j)
    ensures HandsOver(g, h, j)
  {
    hide TakenBy;
  }

  lemma EventHandsOver(g: Server, e: Event, j: nat)
    requires AllJobs(g) && CoreInv(g) && Happen(g, e).Some?
    ensures HandsOver(g, Happen(g, e).value, j)
  {
    hide AllJobs, CoreInv, TakenBy, Takes, ListInv, PcOk;
    var h := Happen(g, e).value;
    if e.Move? {
      MoveTakes(g, e.thread, e.call, e.due, j);
      MoveGood(g, e.thread, e.call, e.due);
      hide MoveStep;
      MoveHandsOver(g, h, e.thread, j);
    } else if Arrival(e) {
      ArrivalEffect(g, e);
      hide Happen;
    } else {
      OtherEffect(g, e);
      hide Happen;
    }
  }

  lemma StaysAccounted(g: Server, e: Event, j: nat)
    requires AllJobs(g) && CoreInv(g) && Happen(g, e).Some? && Accounted(g, j)
    ensures Accounted(Happen(g, e).value, j)
  {
    hide AllJobs, CoreInv, TakenBy, Happen;
    EventHandsOver(g, e, j);
  }

  /** A listed job stays listed until a RemoveJob or the server's Close takes it off, and by
      the time that call has returned the job has been closed. */
  lemma {:induction false} JobsAreConserved(g: Server, events: seq<Event>, j: nat)
    requires ServerInv(g) && Play(g, events).Some? && Accounted(g, j)
    ensures
      var h := Play(g, events).value;
      && Accounted(h, j)
      && forall t :: t in h.threads && CallDone(h.threads[t]) && TakenBy(h.threads[t], j) ==>
           j in h.jobs && h.jobs[j].v.closed
    decreases |events|
  {
    hide Happen, AllJobs;
    if events != [] {
      StaysAccounted(g, events[0], j);
      AllJobsKept(g, events[0]);
      CoreKept(g, events[0]);
      JobsAreConserved(Happen(g, events[0]).value, events[1..], j);
    } else {
      forall t | t in g.threads && CallDone(g.threads[t]) && TakenBy(g.threads[t], j)
        ensures j in g.jobs && g.jobs[j].v.closed
      {
        DoneMeansClosed(g, g.threads[t], j);
      }
    }
  }

  lemma DoneMeansClosed(g: Server, pc: Pc, j: nat)
    requires PcOk(g, pc) && CallDone(pc) && TakenBy(pc, j)
    ensures j in g.jobs && g.jobs[j].v.closed
  {
  }

  /** The listed jobs' UUIDs stay pairwise distinct, so that looking one up agrees with a
      map; and once the server is closed the list stays empty and AddJob refuses. */
  lemma RegistryStaysSound(max: int, events: seq<Event>)
    requires Play(Boot(max), events).Some?
    ensures
      var g := Play(Boot(max), events).value;
      && (forall i, k :: 0 <= i < |g.list| && 0 <= k < |g.list| && i != k ==>
            g.list[i] in g.uuid && g.list[k] in g.uuid && g.uuid[g.list[i]] != g.uuid[g.list[k]])
      && (g.closed ==> g.list == [])
      && (g.closed ==> forall t, c, due :: t in g.threads && Coming(g.threads[t]) && MoveStep(g, t, c, due).Some? ==>
            MoveStep(g, t, c, due).value.threads[t] == Leaving(g.threads[t].errand, Some(ServerClosed), []))
  {
    ServerReachable(max, events);
  }

  lemma {:induction false} ClosedForGood(g: Server, events: seq<Event>)
    requires ServerInv(g) && g.closed && Play(g, events).Some?
    ensures Play(g, events).value.closed && Play(g, events).value.list == []
    decreases |events|
  {
    hide Happen, AllJobs, PcOk;
    if events != [] {
      var e := events[0];
      AllJobsKept(g, e);
      CoreKept(g, e);
      CloseStays(g, e);
      ClosedForGood(Happen(g, e).value, events[1..]);
    }
  }

  lemma CloseStays(g: Server, e: Event)
    requires AllJobs(g) && CoreInv(g) && Happen(g, e).Some? && g.closed
    ensures Happen(g, e).value.closed
  {
    hide AllJobs, CoreInv;
    if e.Move? {
      MoveGood(g, e.thread, e.call, e.due);
      hide ListInv, PcOk;
    } else if Arrival(e) {
      ArrivalEffect(g, e);
    } else {
      OtherEffect(g, e);
    }
    hide MoveStep, Apply;
  }

  // ---------------------------------------------------------------- no thread is stuck

  /** A step that no new call and no outsider has to make. */
  predicate Internal(e: Event) {
    e.Move? || (e.JobMove? && (e.act.StepStart? || e.act.StepClose?))
  }

  lemma FreshCall<T>(m: map<nat, T>) returns (c: nat)
    ensures c !in m
  {
    c := FreshAbove(m.Keys);
  }

  lemma {:induction false} FreshAbove(s: set<nat>) returns (c: nat)
    ensures forall x :: x in s ==> x < c
    decreases s
  {
    if s == {} {
      c := 0;
    } else {
      var y :| y in s;
      var rest := FreshAbove(s - {y});
      c := if rest <= y then y + 1 else rest;
      forall x | x in s
        ensures x < c
      {
        if x != y {
          assert x in s - {y};
        }
      }
    }
  }

  lemma StartCanStep(g: Server, j: nat, c: nat) returns (e: Event)
    requires j in g.jobs && c in g.jobs[j].starts && !g.jobs[j].starts[c].Returned?
    ensures Internal(e) && Happen(g, e).Some?
  {
    e := JobMove(j, StepStart(c));
    match g.jobs[j].starts[c]
    case Cas =>
    case MakeCtx =>
    case Publish =>
    case SpawnWatch =>
    case SpawnProc =>
  }

  lemma CloseCanStep(g: Server, j: nat, c: nat) returns (e: Event)
    requires j in g.jobs && c in g.jobs[j].closes && !g.jobs[j].closes[c].Closed?
    ensures Internal(e) && Happen(g, e).Some?
  {
    e := JobMove(j, StepClose(c));
    match g.jobs[j].closes[c]
    case Section(_) =>
    case Cancel =>
    case Remove =>
    case Removing(_) =>
  }

  /** The holder of rns.mu never waits for the lock, and what it waits for can step. */
  lemma HolderCanStep(g: Server, t: nat) returns (e: Event)
    requires ListInv(g) && t in g.threads && PcOk(g, g.threads[t]) && Holds(g.threads[t])
    ensures Internal(e) && Happen(g, e).Some?
  {
    hide HasUuid, Without, Read;
    match g.threads[t]
    case Scanning(errand, i, sc, todo) =>
      if sc.next.Some? {
        var c := FreshCall(g.jobs[g.list[sc.next.value]].starts);
        e := Move(t, c, false);
      } else {
        e := Move(t, 0, false);
      }
    case Launching(_, target, c, _) =>
      if g.jobs[target].starts[c].Returned? {
        e := Move(t, 0, false);
      } else {
        e := StartCanStep(g, target, c);
      }
    case Leaving(_, _, _) => e := Move(t, 0, false);
    case RemLeaving(_, _) => e := Move(t, 0, false);
    case CloseLeaving(_) => e := Move(t, 0, false);
  }

  /** In every reachable state with a call that has not returned some thread can step. */
  lemma NobodyIsStuck(max: int, events: seq<Event>, t: nat) returns (e: Event)
    requires Play(Boot(max), events).Some?
    requires t in Play(Boot(max), events).value.threads && !CallDone(Play(Boot(max), events).value.threads[t])
    ensures Internal(e) && Happen(Play(Boot(max), events).value, e).Some?
  {
    ServerReachable(max, events);
    var g := Play(Boot(max), events).value;
    e := SomeoneCanStep(g, t);
  }

  lemma SomeoneCanStep(g: Server, t: nat) returns (e: Event)
    requires CoreInv(g) && t in g.threads && !CallDone(g.threads[t])
    ensures Internal(e) && Happen(g, e).Some?
  {
    assert PcOk(g, g.threads[t]);
    if g.lock.Some? {
      e := HolderCanStep(g, g.lock.value);
    } else {
      hide HasUuid, Without, Apply, LockInv;
      match g.threads[t] {
        case Want(_) => e := Move(t, 0, false);
        case RemNext(_, _) => e := Move(t, 0, false);
        case CloseWant => e := Move(t, 0, false);
        case RemClosing(queue, _) => e := ClosingCanStep(g, t, queue[0]);
        case Closing(taken, i) => e := ClosingCanStep(g, t, taken[i]);
        case RemWaiting(queue, _, c) =>
          if CloseReturned(g, queue[0], c) {
            e := Move(t, 0, false);
          } else {
            e := CloseCanStep(g, queue[0], c);
          }
        case CloseWaiting(taken, i, c) =>
          if CloseReturned(g, taken[i], c) {
            e := Move(t, 0, false);
          } else {
            e := CloseCanStep(g, taken[i], c);
          }
      }
    }
  }

  lemma ClosingCanStep(g: Server, t: nat, j: nat) returns (e: Event)
    requires t in g.threads && j in g.jobs
    requires
      var pc := g.threads[t];
      || (pc.RemClosing? && pc.queue != [] && pc.queue[0] == j)
      || (pc.Closing? && pc.i < |pc.taken| && pc.taken[pc.i] == j)
    ensures Internal(e) && Happen(g, e).Some?
  {
    var c := FreshCall(g.jobs[j].closes);
    e := Move(t, c, false);
  }
}
