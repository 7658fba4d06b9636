/** The registry's invariant: who holds rns.mu, what each thread may rely on, and what the
    list promises. */
module RinseInv {
  import opened Basics
  import opened JobCore
  import opened JobSteps
  import opened JobProofs
  import opened Scheduler
  import opened Registry
  import opened RinseSteps
  import opened RinseProofs

  predicate Holds(pc: Pc) {
    pc.Scanning? || pc.Launching? || pc.Leaving? || pc.RemLeaving? || pc.CloseLeaving?
  }

  ghost predicate LockInv(g: Server) {
    && (forall t :: t in g.threads && Holds(g.threads[t]) ==> g.lock == Some(t))
    && (g.lock.Some? ==> g.lock.value in g.threads && Holds(g.threads[g.lock.value]))
  }

  ghost predicate Known(g: Server, q: seq<nat>) {
    forall k :: 0 <= k < |q| ==> q[k] in g.jobs
  }

  ghost predicate AllClosed(g: Server, q: seq<nat>) {
    forall k :: 0 <= k < |q| ==> q[k] in g.jobs && g.jobs[q[k]].v.closed
  }

  ghost predicate ListInv(g: Server) {
    && g.max >= 1
    && g.uuid.Keys == g.jobs.Keys
    && Known(g, g.list)
    && (forall i, k :: 0 <= i < k < |g.list| ==> g.uuid[g.list[i]] != g.uuid[g.list[k]])
    && (g.closed ==> g.list == [])
  }

  ghost predicate ErrandOk(g: Server, e: Errand) {
    e.Adding? ==> e.job in g.jobs
  }

  ghost predicate PcOk(g: Server, pc: Pc) {
    match pc
    case Want(e) => ErrandOk(g, e)
    case Scanning(e, i, sc, todo) =>
      ErrandOk(g, e) && i <= |g.list| && (sc.next.Some? ==> sc.next.value < i) && Known(g, todo)
    case Launching(e, target, call, todo) =>
      ErrandOk(g, e) && target in g.list && target in g.jobs && call in g.jobs[target].starts && Known(g, todo)
    case Leaving(e, _, todo) => ErrandOk(g, e) && Known(g, todo)
    case Added(j, _) => j in g.jobs
    case RemNext(queue, gone) => Known(g, queue) && AllClosed(g, gone)
    case RemLeaving(queue, gone) => queue != [] && Known(g, queue) && AllClosed(g, gone)
    case RemClosing(queue, gone) => queue != [] && Known(g, queue) && AllClosed(g, gone)
    case RemWaiting(queue, gone, call) =>
      queue != [] && Known(g, queue) && AllClosed(g, gone) && call in g.jobs[queue[0]].closes
    case CloseWant => true
    case CloseLeaving(taken) => Known(g, taken) && g.closed
    case Closing(taken, i) => Known(g, taken) && i <= |taken| && AllClosed(g, taken[..i]) && g.closed
    case CloseWaiting(taken, i, call) =>
      Known(g, taken) && i < |taken| && AllClosed(g, taken[..i]) && call in g.jobs[taken[i]].closes && g.closed
  }

  ghost predicate PcInv(g: Server) {
    forall t :: t in g.threads ==> PcOk(g, g.threads[t])
  }

  ghost predicate CoreInv(g: Server) {
    ListInv(g) && LockInv(g) && PcInv(g)
  }

  lemma WithoutUuids(g: Server, q: seq<nat>, x: nat)
    requires forall k :: 0 <= k < |q| ==> q[k] in g.uuid
    requires forall i, k :: 0 <= i < k < |q| ==> g.uuid[q[i]] != g.uuid[q[k]]
    ensures forall k :: 0 <= k < |Without(q, x)| ==> Without(q, x)[k] in g.uuid
    ensures forall i, k :: 0 <= i < k < |Without(q, x)| ==> g.uuid[Without(q, x)[i]] != g.uuid[Without(q, x)[k]]
  {
  }

  /** A thread's facts outlive what other threads do, the list's part of them while it holds
      the lock. */
  lemma PcStays(g: Server, h: Server, pc: Pc)
    requires PcOk(g, pc) && JobsGrow(g, h) && (g.closed ==> h.closed)
    requires pc.Scanning? || pc.Launching? ==> h.list == g.list
    ensures PcOk(h, pc)
  {
  }

  /** Thread t has moved; the others are where they were. It kept, took or left the lock, and
      changed the list only on taking it. */
  ghost predicate OneMoved(g: Server, h: Server, t: nat) {
    && t in g.threads && t in h.threads && h.threads == g.threads[t := h.threads[t]]
    && (|| (h.lock == g.lock && Holds(h.threads[t]) == Holds(g.threads[t]))
        || (g.lock.None? && h.lock == Some(t) && Holds(h.threads[t]))
        || (Holds(g.threads[t]) && h.lock.None? && !Holds(h.threads[t])))
    && (h.list == g.list || g.lock.None?)
    && (g.closed ==> h.closed)
    && h.past == g.past
  }

  lemma OneMovedKeepsLock(g: Server, h: Server, t: nat)
    requires LockInv(g) && OneMoved(g, h, t)
    ensures LockInv(h)
  {
  }

  lemma OneMovedKeepsCore(g: Server, h: Server, t: nat)
    requires CoreInv(g) && JobsGrow(g, h) && OneMoved(g, h, t)
    requires ListInv(h) && PcOk(h, h.threads[t])
    ensures CoreInv(h)
  {
    hide PcOk, JobsGrow, ListInv;
    OneMovedKeepsLock(g, h, t);
    forall u | u in h.threads
      ensures PcOk(h, h.threads[u])
    {
      if u != t {
        PcStays(g, h, g.threads[u]);
      }
    }
  }

  // ---------------------------------------------------------------- one lemma per kind of step

  /** What a step of thread t must show. */
  ghost predicate Good(g: Server, h: Server, t: nat) {
    OneMoved(g, h, t) && ListInv(h) && PcOk(h, h.threads[t])
  }

  lemma EnterGood(g: Server, t: nat, e: Errand)
    requires ListInv(g) && t in g.threads && g.threads[t] == Want(e) && PcOk(g, Want(e))
    requires Enter(g, t, e).Some?
    ensures Good(g, Enter(g, t, e).value, t)
  {
  }

  lemma ScanOneGood(g: Server, t: nat, due: bool)
    requires ListInv(g) && t in g.threads && PcOk(g, g.threads[t]) && LockInv(g)
    requires g.threads[t].Scanning? && g.threads[t].i < |g.list|
    ensures Good(g, ScanOne(g, t, g.threads[t], due), t)
  {
    hide StateOf, Running, Terminal;
  }

  lemma ScanEndGood(g: Server, t: nat, call: nat)
    requires ListInv(g) && t in g.threads && PcOk(g, g.threads[t]) && LockInv(g)
    requires g.threads[t].Scanning? && g.threads[t].i >= |g.list|
    requires ScanEnd(g, t, g.threads[t], call).Some?
    ensures Good(g, ScanEnd(g, t, g.threads[t], call).value, t)
  {
  }

  lemma LeavingGood(g: Server, t: nat, call: nat, due: bool)
    requires ListInv(g) && t in g.threads && PcOk(g, g.threads[t]) && LockInv(g)
    requires g.threads[t].Launching? || g.threads[t].Leaving? || g.threads[t].RemLeaving?
             || g.threads[t].CloseLeaving?
    requires MoveStep(g, t, call, due).Some?
    ensures Good(g, MoveStep(g, t, call, due).value, t)
  {
    hide Apply, HasUuid, Without, Enter, ScanOne, ScanEnd, BeginClose;
  }

  lemma RemNextGood(g: Server, t: nat, call: nat, due: bool)
    requires ListInv(g) && t in g.threads && PcOk(g, g.threads[t]) && LockInv(g)
    requires g.threads[t].RemNext?
    requires MoveStep(g, t, call, due).Some?
    ensures Good(g, MoveStep(g, t, call, due).value, t)
  {
    hide Apply, HasUuid, Enter, ScanOne, ScanEnd, BeginClose;
    WithoutUuids(g, g.list, g.threads[t].queue[0]);
  }

  lemma CloseWantGood(g: Server, t: nat, call: nat, due: bool)
    requires ListInv(g) && t in g.threads && LockInv(g)
    requires g.threads[t].CloseWant?
    requires MoveStep(g, t, call, due).Some?
    ensures Good(g, MoveStep(g, t, call, due).value, t)
  {
    hide Apply, HasUuid, Enter, ScanOne, ScanEnd, BeginClose;
  }

  lemma BeginCloseEffect(g: Server, t: nat, j: nat, call: nat, after: Pc)
    requires BeginClose(g, t, j, call, after).Some?
    ensures var h := BeginClose(g, t, j, call, after).value;
            && j in g.jobs && call in h.jobs[j].closes
            && JobsGrow(g, h) && h.jobs.Keys == g.jobs.Keys
            && h == g.(jobs := h.jobs, threads := g.threads[t := after])
  {
  }

  lemma ClosingGood(g: Server, t: nat, call: nat, due: bool)
    requires ListInv(g) && t in g.threads && PcOk(g, g.threads[t]) && LockInv(g)
    requires g.threads[t].Closing? && MoveStep(g, t, call, due).Some?
    ensures Good(g, MoveStep(g, t, call, due).value, t)
  {
    hide Apply, HasUuid, Enter, ScanOne, ScanEnd, BeginClose;
    var pc := g.threads[t];
    BeginCloseEffect(g, t, pc.taken[pc.i], call, CloseWaiting(pc.taken, pc.i, call));
  }

  lemma RemClosingGood(g: Server, t: nat, call: nat, due: bool)
    requires ListInv(g) && t in g.threads && PcOk(g, g.threads[t]) && LockInv(g)
    requires g.threads[t].RemClosing? && MoveStep(g, t, call, due).Some?
    ensures Good(g, MoveStep(g, t, call, due).value, t)
  {
    hide Apply, HasUuid, Enter, ScanOne, ScanEnd, BeginClose;
    var pc := g.threads[t];
    BeginCloseEffect(g, t, pc.queue[0], call, RemWaiting(pc.queue, pc.gone, call));
  }

  /** A Close that has returned has marked its job. */
  lemma RemWaitingGood(g: Server, t: nat, call: nat, due: bool)
    requires ListInv(g) && t in g.threads && PcOk(g, g.threads[t]) && LockInv(g)
    requires g.threads[t].RemWaiting? && DutyInv(g.jobs[g.threads[t].queue[0]])
    requires MoveStep(g, t, call, due).Some?
    ensures Good(g, MoveStep(g, t, call, due).value, t)
  {
    hide Apply, HasUuid, Enter, ScanOne, ScanEnd, BeginClose;
    assert g.jobs[g.threads[t].queue[0]].v.closed;
    hide DutyInv;
  }

  lemma CloseWaitingGood(g: Server, t: nat, call: nat, due: bool)
    requires ListInv(g) && t in g.threads && PcOk(g, g.threads[t]) && LockInv(g)
    requires g.threads[t].CloseWaiting? && DutyInv(g.jobs[g.threads[t].taken[g.threads[t].i]])
    requires MoveStep(g, t, call, due).Some?
    ensures Good(g, MoveStep(g, t, call, due).value, t)
  {
    hide Apply, HasUuid, Enter, ScanOne, ScanEnd, BeginClose;
    assert g.jobs[g.threads[t].taken[g.threads[t].i]].v.closed;
    hide DutyInv;
  }

  lemma MoveGood(g: Server, t: nat, call: nat, due: bool)
    requires AllJobs(g) && CoreInv(g) && MoveStep(g, t, call, due).Some?
    ensures Good(g, MoveStep(g, t, call, due).value, t)
  {
    hide Apply, HasUuid, Enter, ScanOne, ScanEnd, BeginClose, Without, StartReturned, Good, ListInv, LockInv,
         DutyInv, WinnerInv, ProcInv, TrailInv, TallyInv, CleanInv, WatchInv;
    match g.threads[t]
    case Want(e) => EnterGood(g, t, e);
    case Scanning(_, i, _, _) =>
      if i < |g.list| {
        ScanOneGood(g, t, due);
      } else {
        ScanEndGood(g, t, call);
      }
    case Launching(_, _, _, _) => LeavingGood(g, t, call, due);
    case Leaving(_, _, _) => LeavingGood(g, t, call, due);
    case RemNext(_, _) => RemNextGood(g, t, call, due);
    case RemLeaving(_, _) => LeavingGood(g, t, call, due);
    case RemClosing(_, _) => RemClosingGood(g, t, call, due);
    case RemWaiting(_, _, _) => RemWaitingGood(g, t, call, due);
    case CloseWant => CloseWantGood(g, t, call, due);
    case CloseLeaving(_) => LeavingGood(g, t, call, due);
    case Closing(_, _) => ClosingGood(g, t, call, due);
    case CloseWaiting(_, _, _) => CloseWaitingGood(g, t, call, due);
  }

  /** A call arrives: a new thread, holding nothing. */
  ghost predicate OneArrived(g: Server, h: Server, t: nat) {
    && t !in g.threads && t in h.threads && h.threads == g.threads[t := h.threads[t]]
    && !Holds(h.threads[t]) && h.lock == g.lock && h.list == g.list && h.closed == g.closed
  }

  lemma OneArrivedKeepsCore(g: Server, h: Server, t: nat)
    requires CoreInv(g) && JobsGrow(g, h) && OneArrived(g, h, t)
    requires ListInv(h) && PcOk(h, h.threads[t])
    ensures CoreInv(h)
  {
    hide PcOk, JobsGrow, ListInv;
    forall u | u in h.threads
      ensures PcOk(h, h.threads[u])
    {
      if u != t {
        PcStays(g, h, g.threads[u]);
      }
    }
  }

  /** No thread of the registry moves; jobs may. */
  ghost predicate NoneMoved(g: Server, h: Server) {
    h.threads == g.threads && h.lock == g.lock && h.list == g.list && h.closed == g.closed
  }

  lemma NoneMovedKeepsCore(g: Server, h: Server)
    requires CoreInv(g) && JobsGrow(g, h) && NoneMoved(g, h) && ListInv(h)
    ensures CoreInv(h)
  {
    hide PcOk, JobsGrow, ListInv;
    forall u | u in h.threads
      ensures PcOk(h, h.threads[u])
    {
      PcStays(g, h, g.threads[u]);
    }
  }

  predicate Arrival(e: Event) {
    e.CallAdd? || e.CallTasks? || e.CallRemove? || e.CallShutdown?
  }

  lemma ArrivalEffect(g: Server, e: Event)
    requires CoreInv(g) && Arrival(e) && Happen(g, e).Some?
    ensures var h := Happen(g, e).value; OneArrived(g, h, e.thread) && ListInv(h) && PcOk(h, h.threads[e.thread])
  {
    hide Apply, MoveStep;
  }

  lemma OtherEffect(g: Server, e: Event)
    requires CoreInv(g) && !Arrival(e) && !e.Move? && Happen(g, e).Some?
    ensures var h := Happen(g, e).value; NoneMoved(g, h) && ListInv(h)
  {
    hide Apply, MoveStep, PcOk;
  }

  lemma CoreKept(g: Server, e: Event)
    requires AllJobs(g) && CoreInv(g) && Happen(g, e).Some?
    ensures CoreInv(Happen(g, e).value)
  {
    var h := Happen(g, e).value;
    JobsGrowBy(g, e);
    hide JobInv, JobsGrow, PcOk, ListInv, LockInv, PcInv;
    if e.Move? {
      MoveGood(g, e.thread, e.call, e.due);
      OneMovedKeepsCore(g, h, e.thread);
    } else if Arrival(e) {
      ArrivalEffect(g, e);
      OneArrivedKeepsCore(g, h, e.thread);
    } else {
      OtherEffect(g, e);
      NoneMovedKeepsCore(g, h);
    }
  }

  ghost predicate ServerInv(g: Server) {
    AllJobs(g) && CoreInv(g)
  }

  lemma {:induction false} PlayKeepsInv(g: Server, events: seq<Event>)
    requires ServerInv(g) && Play(g, events).Some?
    ensures ServerInv(Play(g, events).value)
    decreases |events|
  {
    hide AllJobs, CoreInv, Happen;
    if events != [] {
      AllJobsKept(g, events[0]);
      CoreKept(g, events[0]);
      PlayKeepsInv(Happen(g, events[0]).value, events[1..]);
    }
  }

  lemma ServerReachable(max: int, events: seq<Event>)
    requires Play(Boot(max), events).Some?
    ensures ServerInv(Play(Boot(max), events).value)
  {
    hide Happen;
    PlayKeepsInv(Boot(max), events);
  }
}
