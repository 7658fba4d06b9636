/** The queue's invariant is kept by every event of a server whose jobs are started only by
    AddJob and runTasks. */
module QueueProofs {
  import opened Basics
  import opened JobCore
  import opened JobSteps
  import opened JobProofs
  import opened Scheduler
  import opened Registry
  import opened RinseSteps
  import opened RinseProofs
  import opened RinseInv
  import opened LimitProofs

  predicate Plain(pc: Pc) {
    pc.Launching? || pc.Leaving? || pc.RemLeaving? || pc.RemWaiting? || pc.CloseLeaving? || pc.CloseWaiting?
  }

  lemma PlainEffect(g: Server, t: nat, call: nat, due: bool)
    requires t in g.threads && Plain(g.threads[t]) && MoveStep(g, t, call, due).Some?
    ensures var h := MoveStep(g, t, call, due).value;
            && h.jobs == g.jobs && h.list == g.list && h.max == g.max && h.past.lowered == g.past.lowered
            && t in h.threads && (!Holds(h.threads[t]) || h.threads[t].Leaving?)
            && !Coming(h.threads[t]) && NotMidLaunch(g, g.threads[t])
  {
    hide Apply, HasUuid, Enter, ScanOne, ScanEnd, BeginClose, Without;
    match g.threads[t]
    case Launching(_, _, _, _) =>
    case Leaving(_, _, _) =>
    case RemLeaving(_, _) =>
    case RemWaiting(_, _, _) =>
    case CloseLeaving(_) =>
    case CloseWaiting(_, _, _) =>
  }

  lemma PlainQuiet(g: Server, t: nat, call: nat, due: bool)
    requires t in g.threads && Plain(g.threads[t]) && MoveStep(g, t, call, due).Some?
    requires OneMoved(g, MoveStep(g, t, call, due).value, t)
    ensures QuietMove(g, MoveStep(g, t, call, due).value, t)
  {
    hide OneMoved;
    PlainEffect(g, t, call, due);
    hide MoveStep;
    SameStates(g, MoveStep(g, t, call, due).value);
    hide CalmJobs;
  }

  lemma CallCloseCalm(g: Server, t: nat, j: nat, call: nat, after: Pc)
    requires BeginClose(g, t, j, call, after).Some?
    ensures CalmJobs(g, BeginClose(g, t, j, call, after).value)
  {
    hide StartStep, CloseStep, ProcNext;
  }

  lemma ClosingQuiet(g: Server, t: nat, call: nat, due: bool)
    requires t in g.threads && (g.threads[t].RemClosing? || g.threads[t].Closing?)
    requires MoveStep(g, t, call, due).Some? && OneMoved(g, MoveStep(g, t, call, due).value, t)
    ensures QuietMove(g, MoveStep(g, t, call, due).value, t)
  {
    hide Apply, HasUuid, Enter, ScanOne, ScanEnd, BeginClose;
    match g.threads[t] {
      case Closing(taken, i) =>
        BeginCloseEffect(g, t, taken[i], call, CloseWaiting(taken, i, call));
        CallCloseCalm(g, t, taken[i], call, CloseWaiting(taken, i, call));
      case RemClosing(queue, gone) =>
        BeginCloseEffect(g, t, queue[0], call, RemWaiting(queue, gone, call));
        CallCloseCalm(g, t, queue[0], call, RemWaiting(queue, gone, call));
    }
    hide CalmJobs, OneMoved, JobsGrow;
  }

  lemma RemNextMoves(g: Server, t: nat, call: nat, due: bool)
    requires Newcomers(g) && WaitingLast(ListStates(g))
    requires t in g.threads && g.threads[t].RemNext? && MoveStep(g, t, call, due).Some?
    requires OneMoved(g, MoveStep(g, t, call, due).value, t)
    ensures ListMove(g, MoveStep(g, t, call, due).value, t)
  {
    hide Apply, HasUuid, Enter, ScanOne, ScanEnd, BeginClose;
    var h := MoveStep(g, t, call, due).value;
    WithoutStates(g, g.list, g.threads[t].queue[0]);
    assert ListStates(h) == StatesIn(g, h.list);
    hide OneMoved, CountRunning;
  }

  lemma CloseWantMoves(g: Server, t: nat, call: nat, due: bool)
    requires Newcomers(g) && WaitingLast(ListStates(g))
    requires t in g.threads && g.threads[t].CloseWant? && MoveStep(g, t, call, due).Some?
    requires OneMoved(g, MoveStep(g, t, call, due).value, t)
    ensures ListMove(g, MoveStep(g, t, call, due).value, t)
  {
    hide Apply, HasUuid, Enter, ScanOne, ScanEnd, BeginClose;
    var h := MoveStep(g, t, call, due).value;
    assert h.list == [] || ListStates(h) == ListStates(g);
    hide OneMoved;
  }

  lemma MoveQueue(g: Server, t: nat, call: nat, due: bool)
    requires AllJobs(g) && CoreInv(g) && QueueInv(g) && MoveStep(g, t, call, due).Some?
    ensures QueueInv(MoveStep(g, t, call, due).value)
  {
    var h := MoveStep(g, t, call, due).value;
    MoveGood(g, t, call, due);
    assert OneMoved(g, h, t);
    hide Apply, HasUuid, Enter, ScanOne, ScanEnd, BeginClose, OneMoved, ListInv, LockInv, PcInv, PcOk, JobInv,
         SoleStarter, Holders, QuietMove, ListMove, Without;
    match g.threads[t] {
      case Want(e) => EnterQueue(g, t, e);
      case Scanning(_, i, _, _) =>
        if i < |g.list| {
          assert g.lock == Some(t) by { LockOf(g, t); }
          ScanOkOf(g, t);
          ScanOneQuiet(g, t, due);
          QuietMoveQueue(g, h, t);
        } else {
          ScanEndQueue(g, t, call);
        }
      case Launching(_, _, _, _) => PlainQuiet(g, t, call, due); QuietMoveQueue(g, h, t);
      case Leaving(_, _, _) => PlainQuiet(g, t, call, due); QuietMoveQueue(g, h, t);
      case RemNext(_, _) => RemNextMoves(g, t, call, due); ListMoveQueue(g, h, t);
      case RemLeaving(_, _) => PlainQuiet(g, t, call, due); QuietMoveQueue(g, h, t);
      case RemClosing(_, _) => ClosingQuiet(g, t, call, due); QuietMoveQueue(g, h, t);
      case RemWaiting(_, _, _) => PlainQuiet(g, t, call, due); QuietMoveQueue(g, h, t);
      case CloseWant => CloseWantMoves(g, t, call, due); ListMoveQueue(g, h, t);
      case CloseLeaving(_) => PlainQuiet(g, t, call, due); QuietMoveQueue(g, h, t);
      case Closing(_, _) => ClosingQuiet(g, t, call, due); QuietMoveQueue(g, h, t);
      case CloseWaiting(_, _, _) => PlainQuiet(g, t, call, due); QuietMoveQueue(g, h, t);
    }
  }

  lemma LockOf(g: Server, t: nat)
    requires LockInv(g) && t in g.threads && Holds(g.threads[t])
    ensures g.lock == Some(t)
  {
  }

  lemma ScanOkOf(g: Server, t: nat)
    requires Holders(g) && g.lock == Some(t) && t in g.threads && g.threads[t].Scanning?
    ensures ScanOk(g, g.threads[t])
  {
  }

  // ---------------------------------------------------------------- the other events

  lemma NewJobStates(g: Server, h: Server, j: nat)
    requires ListInv(g) && j !in g.jobs && h.list == g.list && h.jobs == g.jobs[j := FRESH]
    ensures ListStates(h) == ListStates(g) && StateOf(h, j) == New && j !in h.list
  {
  }

  lemma NewJobCalm(g: Server, h: Server, j: nat)
    requires j !in g.jobs && h.jobs == g.jobs[j := FRESH]
    requires h.list == g.list && h.max == g.max && h.past.lowered == g.past.lowered
    ensures CalmJobs(g, h)
  {
  }

  lemma CallAddEffect(g: Server, e: Event)
    requires e.CallAdd? && Happen(g, e).Some?
    ensures var h := Happen(g, e).value;
            && e.job !in g.jobs && h.jobs == g.jobs[e.job := FRESH]
            && h.list == g.list && h.max == g.max && h.past == g.past
            && e.thread in h.threads && h.threads[e.thread] == Want(Adding(e.job))
  {
    hide Apply, MoveStep;
  }

  lemma CallAddIsCalm(g: Server, e: Event)
    requires CoreInv(g) && e.CallAdd? && Happen(g, e).Some? && OneArrived(g, Happen(g, e).value, e.thread)
    ensures CalmArrival(g, Happen(g, e).value, e.thread)
    ensures ListStates(Happen(g, e).value) == ListStates(g)
  {
    hide Happen, PcInv, LockInv, OneArrived, CalmJobs, ListInv, ListStates, StateOf;
    CallAddEffect(g, e);
    NewJobStates(g, Happen(g, e).value, e.job);
    NewJobCalm(g, Happen(g, e).value, e.job);
  }

  lemma ArrivalIsCalm(g: Server, e: Event)
    requires CoreInv(g) && Arrival(e) && Happen(g, e).Some? && OneArrived(g, Happen(g, e).value, e.thread)
    ensures CalmArrival(g, Happen(g, e).value, e.thread)
    ensures ListStates(Happen(g, e).value) == ListStates(g)
  {
    if e.CallAdd? {
      CallAddIsCalm(g, e);
    } else {
      hide Apply, MoveStep, PcInv, ListInv, LockInv, OneArrived;
      assert Happen(g, e).value.jobs == g.jobs;
    }
  }

  lemma ArrivalQueue(g: Server, e: Event)
    requires CoreInv(g) && QueueInv(g) && Arrival(e) && Happen(g, e).Some?
    ensures QueueInv(Happen(g, e).value)
  {
    hide Happen, CalmArrival, OneArrived;
    var h := Happen(g, e).value;
    var t := e.thread;
    ArrivalEffect(g, e);
    hide ListInv, PcOk;
    ArrivalIsCalm(g, e);
    ArrivedSole(g, h, t);
    ArrivedHolders(g, h, t);
    ArrivedNewcomers(g, h, t);
    ArrivedLimit(g, h, t);
  }

  lemma ArrivedLimit(g: Server, h: Server, t: nat)
    requires CalmArrival(g, h, t)
    ensures h.max == g.max && h.past.lowered == g.past.lowered
  {
  }

  ghost predicate CalmArrival(g: Server, h: Server, t: nat) {
    && CalmJobs(g, h) && OneArrived(g, h, t)
    && (Coming(h.threads[t]) ==>
          var j := h.threads[t].errand.job; j !in g.jobs && StateOf(h, j) == New && j !in h.list)
  }

  lemma ArrivedSole(g: Server, h: Server, t: nat)
    requires SoleStarter(g) && CalmArrival(g, h, t)
    ensures SoleStarter(h)
  {
  }

  lemma ArrivedHolders(g: Server, h: Server, t: nat)
    requires CoreInv(g) && Holders(g) && CalmArrival(g, h, t)
    ensures Holders(h)
  {
    if g.lock.Some? && g.lock.value in g.threads {
      CalmHolder(g, h, g.threads[g.lock.value]);
    }
  }

  lemma ArrivedNewcomers(g: Server, h: Server, t: nat)
    requires PcInv(g) && Newcomers(g) && CalmArrival(g, h, t)
    ensures Newcomers(h)
  {
  }

  lemma SetMaxQueue(g: Server, n: int)
    requires CoreInv(g) && QueueInv(g) && Happen(g, SetMax(n)).Some?
    ensures QueueInv(Happen(g, SetMax(n)).value)
  {
    var h := Happen(g, SetMax(n)).value;
    assert ListStates(h) == ListStates(g);
    assert SoleStarter(h) by {
      forall j, c | CasPending(h, j, c)
        ensures CasPending(g, j, c)
      {
      }
    }
    assert forall t :: t in h.threads && Coming(h.threads[t]) ==>
        StateOf(h, h.threads[t].errand.job) == StateOf(g, g.threads[t].errand.job);
  }

  lemma ActedLaunched(g: Server, j: nat, a: Act)
    requires Acted(g, j, a).Some? && CasOf(g.jobs[j], a) && Seen(g.jobs[j], a, Apply(g.jobs[j], a).value)
    ensures Launched(g, Acted(g, j, a).value, j, a.call)
  {
    hide Apply;
  }

  lemma ActedCalm(g: Server, j: nat, a: Act)
    requires Acted(g, j, a).Some? && !CasOf(g.jobs[j], a) && !a.CallStart?
    requires Seen(g.jobs[j], a, Apply(g.jobs[j], a).value)
    ensures var h := Acted(g, j, a).value; CalmJobs(g, h) && h == g.(jobs := h.jobs)
  {
    hide Apply;
    var h := Acted(g, j, a).value;
    forall k, c | CasPending(h, k, c)
      ensures CasPending(g, k, c)
    {
    }
  }

  /** A job of the server takes a step of its own. */
  lemma JobStepQueue(g: Server, j: nat, a: Act)
    requires AllJobs(g) && CoreInv(g) && QueueInv(g) && !a.CallStart? && Acted(g, j, a).Some?
    ensures QueueInv(Acted(g, j, a).value)
    ensures CasOf(g.jobs[j], a) ==> CountRunning(ListStates(Acted(g, j, a).value)) <= g.max
  {
    hide Apply, CoreInv, QueueInv, Seen;
    var h := Acted(g, j, a).value;
    JobStepSeen(g.jobs[j], a);
    hide JobInv;
    if CasOf(g.jobs[j], a) {
      ActedLaunched(g, j, a);
      LaunchQueue(g, h, j, a.call);
    } else {
      ActedCalm(g, j, a);
      CalmQueue(g, h);
    }
  }

  lemma OutsideCloseQueue(g: Server, j: nat, c: nat, err: Option<Err>)
    requires AllJobs(g) && CoreInv(g) && QueueInv(g) && Happen(g, OutsideClose(j, c, err)).Some?
    ensures QueueInv(Happen(g, OutsideClose(j, c, err)).value)
  {
    hide Apply, CoreInv, AllJobs, ComingJob;
    var h := Acted(g, j, Act.CallClose(c, err)).value;
    JobStepQueue(g, j, Act.CallClose(c, err));
    hide Acted;
    var k := Happen(g, OutsideClose(j, c, err)).value;
    assert k == h.(past := k.past) && k.past.lowered == h.past.lowered;
    StrayQueue(h, k);
  }

  lemma StrayQueue(g: Server, h: Server)
    requires QueueInv(g) && h == g.(past := h.past) && h.past.lowered == g.past.lowered
    ensures QueueInv(h)
  {
    assert ListStates(h) == ListStates(g);
    assert forall j, c :: CasPending(h, j, c) ==> CasPending(g, j, c);
  }

  lemma QueueKept(g: Server, e: Event)
    requires ServerInv(g) && QueueInv(g) && Happen(g, e).Some? && !Happen(g, e).value.past.outside
    ensures QueueInv(Happen(g, e).value) && !g.past.outside
  {
    hide Apply, MoveStep, AllJobs, CoreInv, QueueInv;
    match e
    case CallAdd(_, _, _) => ArrivalQueue(g, e);
    case CallTasks(_) => ArrivalQueue(g, e);
    case CallRemove(_, _) => ArrivalQueue(g, e);
    case CallShutdown(_) => ArrivalQueue(g, e);
    case SetMax(n) => SetMaxQueue(g, n);
    case OutsideClose(j, c, err) => OutsideCloseQueue(g, j, c, err);
    case JobMove(j, a) => JobStepQueue(g, j, a);
    case Move(t, c, due) => MoveQueue(g, t, c, due); MoveGood(g, t, c, due);
  }
}
