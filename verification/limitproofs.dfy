/** Why the concurrency limit and the queue order survive a scan whose job states move under
    it: while a thread holds rns.mu no job can begin to run but the one it launches itself,
    so its counts can only be too high and its first waiting job stays the first. */
module LimitProofs {
  import opened Basics
  import opened JobCore
  import opened JobSteps
  import opened Scheduler
  import opened Registry
  import opened RinseSteps
  import opened RinseProofs
  import opened RinseInv

  /** The waiting jobs are the list's tail. */
  predicate WaitingLast(states: seq<JobState>) {
    forall i, k :: 0 <= i < k < |states| && states[i] == New ==> states[k] == New
  }

  /** Any Start still before its compare-and-set is the lock holder's. */
  ghost predicate SoleStarter(g: Server) {
    forall j, c :: CasPending(g, j, c) ==> HolderLaunches(g, j, c)
  }

  ghost predicate CasPending(g: Server, j: nat, c: nat) {
    j in g.jobs && c in g.jobs[j].starts && g.jobs[j].starts[c].Cas?
  }

  predicate HolderLaunches(g: Server, j: nat, c: nat) {
    g.lock.Some? && g.lock.value in g.threads && IsLaunch(g.threads[g.lock.value], j, c)
  }

  predicate IsLaunch(pc: Pc, j: nat, c: nat) {
    pc.Launching? && pc.target == j && pc.call == c
  }

  /** A job not yet listed waits, and one thread is about to list it. */
  ghost predicate Newcomers(g: Server) {
    && (forall t :: t in g.threads && Coming(g.threads[t]) ==>
          StateOf(g, g.threads[t].errand.job) == New && g.threads[t].errand.job !in g.list)
    && (forall t, u :: t in g.threads && u in g.threads && BothAdd(g.threads[t], g.threads[u]) ==> t == u)
  }

  predicate BothAdd(p: Pc, q: Pc) {
    Coming(p) && Coming(q) && p.errand == q.errand
  }

  predicate ScanOk(g: Server, pc: Pc)
    requires pc.Scanning?
  {
    && pc.i <= |g.list|
    && FirstWaiting(ListStates(g)[..pc.i], pc.sc.next)
    && CountRunning(ListStates(g)[..pc.i]) <= pc.sc.running
    && (pc.errand.Adding? ==> pc.sc.running < g.max || pc.sc.running == 0)
  }

  /** The job about to be started heads the queue, and a slot is free for it. */
  ghost predicate LaunchOk(g: Server, j: nat) {
    && CountRunning(ListStates(g)) < g.max
    && exists i :: 0 <= i < |g.list| && g.list[i] == j && FirstWaiting(ListStates(g), Some(i))
  }

  ghost predicate HolderOk(g: Server, pc: Pc) {
    && (pc.Scanning? ==> ScanOk(g, pc))
    && (pc.Launching? && CasPending(g, pc.target, pc.call) ==> LaunchOk(g, pc.target))
  }

  ghost predicate Holders(g: Server) {
    g.lock.Some? && g.lock.value in g.threads ==> HolderOk(g, g.threads[g.lock.value])
  }

  ghost predicate QueueInv(g: Server) {
    && SoleStarter(g)
    && Newcomers(g)
    && Holders(g)
    && WaitingLast(ListStates(g))
    && (!g.past.lowered ==> CountRunning(ListStates(g)) <= g.max)
  }

  // ---------------------------------------------------------------- calm changes

  ghost predicate CalmList(a: seq<JobState>, b: seq<JobState>) {
    |a| == |b| && forall i :: 0 <= i < |a| ==> CalmState(a[i], b[i])
  }

  lemma {:induction false} CalmCount(a: seq<JobState>, b: seq<JobState>)
    requires CalmList(a, b)
    ensures CountRunning(b) <= CountRunning(a)
  {
    if a != [] {
      CalmCount(a[..|a| - 1], b[..|b| - 1]);
    }
  }

  lemma CalmFirst(a: seq<JobState>, b: seq<JobState>, next: Option<nat>)
    requires CalmList(a, b) && FirstWaiting(a, next)
    ensures FirstWaiting(b, next)
  {
  }

  /** The jobs have moved without any of them starting; registry and threads stand still. */
  ghost predicate CalmJobs(g: Server, h: Server) {
    && g.jobs.Keys <= h.jobs.Keys
    && (forall j :: j in g.jobs ==> CalmState(g.jobs[j].v.state, h.jobs[j].v.state))
    && (forall j, c :: CasPending(h, j, c) ==> CasPending(g, j, c))
    && h.list == g.list && h.max == g.max && h.past.lowered == g.past.lowered
  }

  lemma CalmHolder(g: Server, h: Server, pc: Pc)
    requires CalmJobs(g, h) && Known(g, g.list) && HolderOk(g, pc)
    ensures HolderOk(h, pc)
  {
    var a, b := ListStates(g), ListStates(h);
    assert CalmList(a, b);
    CalmCount(a, b);
    if pc.Scanning? {
      CalmCount(a[..pc.i], b[..pc.i]);
      CalmFirst(a[..pc.i], b[..pc.i], pc.sc.next);
    }
    if pc.Launching? && CasPending(h, pc.target, pc.call) {
      var i :| 0 <= i < |g.list| && g.list[i] == pc.target && FirstWaiting(a, Some(i));
      CalmFirst(a, b, Some(i));
    }
  }

  /** A calm change leaves everything but the threads' own places as it was. */
  lemma CalmKeeps(g: Server, h: Server)
    requires CalmJobs(g, h) && Known(g, g.list) && QueueInv(g)
    ensures WaitingLast(ListStates(h))
    ensures !h.past.lowered ==> CountRunning(ListStates(h)) <= h.max
  {
    assert CalmList(ListStates(g), ListStates(h));
    CalmCount(ListStates(g), ListStates(h));
  }

  lemma CalmNewcomers(g: Server, h: Server)
    requires CalmJobs(g, h) && h.threads == g.threads && PcInv(g) && Newcomers(g)
    ensures Newcomers(h)
  {
  }

  lemma CalmQueue(g: Server, h: Server)
    requires CalmJobs(g, h) && CoreInv(g) && QueueInv(g)
    requires h.threads == g.threads && h.lock == g.lock
    ensures QueueInv(h)
  {
    CalmKeeps(g, h);
    CalmNewcomers(g, h);
    if g.lock.Some? && g.lock.value in g.threads {
      CalmHolder(g, h, g.threads[g.lock.value]);
    }
    assert SoleStarter(h) by {
      forall j, c | CasPending(h, j, c)
        ensures HolderLaunches(h, j, c)
      {
        assert CasPending(g, j, c);
      }
    }
  }

  // ---------------------------------------------------------------- the start itself

  /** Job j alone has moved, from waiting to starting, by the Start call c. */
  ghost predicate Launched(g: Server, h: Server, j: nat, c: nat) {
    && CasPending(g, j, c) && !CasPending(h, j, c)
    && h == g.(jobs := h.jobs) && h.jobs.Keys == g.jobs.Keys
    && (forall k :: k in g.jobs && k != j ==> h.jobs[k] == g.jobs[k])
    && NoNewCas(g.jobs[j], h.jobs[j])
    && h.jobs[j].v.state == if g.jobs[j].v.state == New then Starting else g.jobs[j].v.state
  }

  lemma LaunchHead(g: Server, j: nat, c: nat) returns (i: nat)
    requires QueueInv(g) && CasPending(g, j, c)
    ensures HolderLaunches(g, j, c) && LaunchOk(g, j)
    ensures i < |g.list| && g.list[i] == j && FirstWaiting(ListStates(g), Some(i))
  {
    i :| 0 <= i < |g.list| && g.list[i] == j && FirstWaiting(ListStates(g), Some(i));
  }

  lemma LaunchStates(g: Server, h: Server, j: nat, c: nat, i: nat)
    requires ListInv(g) && Launched(g, h, j, c)
    requires i < |g.list| && g.list[i] == j && FirstWaiting(ListStates(g), Some(i)) && WaitingLast(ListStates(g))
    ensures Started(ListStates(g), ListStates(h), i)
    ensures WaitingLast(ListStates(h))
    ensures CountRunning(ListStates(h)) == CountRunning(ListStates(g)) + 1
  {
    var a, b := ListStates(g), ListStates(h);
    assert Started(a, b, i);
    CountAfterStart(a, b, i);
    forall m, n | 0 <= m < n < |b| && b[m] == New
      ensures b[n] == New
    {
    }
  }

  lemma LaunchSole(g: Server, h: Server, j: nat, c: nat)
    requires SoleStarter(g) && Launched(g, h, j, c)
    ensures SoleStarter(h)
  {
    assert HolderLaunches(g, j, c);
    forall k, d | CasPending(h, k, d)
      ensures false
    {
      assert CasPending(g, k, d);
    }
  }

  lemma LaunchNewcomers(g: Server, h: Server, j: nat, c: nat)
    requires PcInv(g) && Newcomers(g) && Launched(g, h, j, c) && j in g.list
    ensures Newcomers(h)
  {
  }

  /** The one Start before its compare-and-set takes it: the head of the queue begins to run,
      and the limit still holds. */
  lemma LaunchQueue(g: Server, h: Server, j: nat, c: nat)
    requires CoreInv(g) && QueueInv(g) && Launched(g, h, j, c)
    ensures QueueInv(h) && CountRunning(ListStates(h)) <= h.max
  {
    var i := LaunchHead(g, j, c);
    LaunchStates(g, h, j, c, i);
    LaunchSole(g, h, j, c);
    LaunchNewcomers(g, h, j, c);
  }

  // ---------------------------------------------------------------- a registry thread moves

  /** A thread waiting in Launching moves on only when its Start has returned. */
  ghost predicate NotMidLaunch(g: Server, pc: Pc) {
    !(pc.Launching? && CasPending(g, pc.target, pc.call))
  }

  lemma MovedSole(g: Server, h: Server, t: nat)
    requires LockInv(g) && SoleStarter(g) && OneMoved(g, h, t) && NotMidLaunch(g, g.threads[t])
    requires forall j, c :: CasPending(h, j, c) ==> CasPending(g, j, c) || HolderLaunches(h, j, c)
    ensures SoleStarter(h)
  {
  }

  lemma MovedHolders(g: Server, h: Server, t: nat)
    requires CoreInv(g) && Holders(g) && OneMoved(g, h, t)
    requires CalmJobs(g, h) || g.lock.None?
    requires Holds(h.threads[t]) ==> HolderOk(h, h.threads[t])
    ensures Holders(h)
  {
    if h.lock.Some? && h.lock.value != t && h.lock.value in h.threads {
      CalmHolder(g, h, h.threads[h.lock.value]);
    }
  }

  lemma MovedNewcomers(g: Server, h: Server, t: nat)
    requires PcInv(g) && Newcomers(g) && OneMoved(g, h, t) && !Coming(h.threads[t])
    requires forall j :: j in g.jobs ==> CalmState(StateOf(g, j), StateOf(h, j))
    requires forall u :: u in h.threads && u != t && Coming(h.threads[u]) ==> h.threads[u].errand.job !in h.list
    ensures Newcomers(h)
  {
  }

  /** What the step of a registry thread must show for the queue, when it leaves the list
      alone. */
  ghost predicate QuietMove(g: Server, h: Server, t: nat) {
    && OneMoved(g, h, t)
    && CalmJobs(g, h)
    && NotMidLaunch(g, g.threads[t])
    && !Coming(h.threads[t])
    && (Holds(h.threads[t]) ==> HolderOk(h, h.threads[t]))
  }

  lemma QuietMoveQueue(g: Server, h: Server, t: nat)
    requires CoreInv(g) && QueueInv(g) && QuietMove(g, h, t)
    ensures QueueInv(h)
  {
    CalmKeeps(g, h);
    MovedSole(g, h, t);
    MovedHolders(g, h, t);
    MovedNewcomers(g, h, t);
  }

  /** What it must show when it takes the free lock and changes the list. */
  ghost predicate ListMove(g: Server, h: Server, t: nat) {
    && OneMoved(g, h, t)
    && g.lock.None? && h.jobs == g.jobs && h.max == g.max && h.past.lowered == g.past.lowered
    && !g.threads[t].Launching?
    && !Coming(h.threads[t])
    && (forall u :: u in h.threads && u != t && Coming(h.threads[u]) ==> h.threads[u].errand.job !in h.list)
    && HolderOk(h, h.threads[t])
    && WaitingLast(ListStates(h))
    && CountRunning(ListStates(h)) <= CountRunning(ListStates(g))
  }

  lemma ListMoveQueue(g: Server, h: Server, t: nat)
    requires CoreInv(g) && QueueInv(g) && ListMove(g, h, t)
    ensures QueueInv(h)
  {
    forall j, c | CasPending(h, j, c)
      ensures CasPending(g, j, c)
    {
    }
    MovedSole(g, h, t);
    MovedHolders(g, h, t);
    MovedNewcomers(g, h, t);
  }

  // ---------------------------------------------------------------- the kinds of moves

  lemma AppendWaiting(states: seq<JobState>)
    requires WaitingLast(states)
    ensures WaitingLast(states + [New])
    ensures CountRunning(states + [New]) == CountRunning(states)
  {
  }

  lemma SameStates(g: Server, h: Server)
    requires h.list == g.list && h.jobs == g.jobs && h.max == g.max && h.past.lowered == g.past.lowered
    ensures ListStates(h) == ListStates(g) && CalmJobs(g, h)
  {
  }

  lemma EnterQuiet(g: Server, t: nat, e: Errand)
    requires LockInv(g) && t in g.threads && g.threads[t] == Want(e) && Enter(g, t, e).Some?
    requires OneMoved(g, Enter(g, t, e).value, t) && Enter(g, t, e).value.list == g.list
    ensures QuietMove(g, Enter(g, t, e).value, t)
  {
    hide HasUuid;
    var h := Enter(g, t, e).value;
    SameStates(g, h);
    hide CalmJobs;
    assert ListStates(h)[..0] == [];
  }

  lemma AppendedNewcomers(g: Server, h: Server, t: nat, j: nat)
    requires Newcomers(g) && t in g.threads && g.threads[t] == Want(Adding(j))
    requires h.list == g.list + [j] && t in h.threads && h.threads == g.threads[t := h.threads[t]]
    ensures forall u :: u in h.threads && u != t && Coming(h.threads[u]) ==> h.threads[u].errand.job !in h.list
  {
  }

  lemma EnterAppends(g: Server, t: nat, e: Errand)
    requires Newcomers(g) && WaitingLast(ListStates(g))
    requires t in g.threads && g.threads[t] == Want(e) && Enter(g, t, e).Some?
    requires OneMoved(g, Enter(g, t, e).value, t) && Enter(g, t, e).value.list != g.list
    ensures ListMove(g, Enter(g, t, e).value, t)
  {
    hide HasUuid;
    var h := Enter(g, t, e).value;
    assert h.jobs == g.jobs && h.list == g.list + [e.job] && StateOf(g, e.job) == New;
    assert h.threads[t] == Scanning(e, 0, BLANK, []);
    AppendedNewcomers(g, h, t, e.job);
    hide Newcomers, OneMoved, Enter;
    AppendedStates(g, h, e.job);
  }

  lemma AppendedStates(g: Server, h: Server, j: nat)
    requires WaitingLast(ListStates(g)) && StateOf(g, j) == New
    requires h.jobs == g.jobs && h.list == g.list + [j]
    ensures WaitingLast(ListStates(h)) && ListStates(h)[..0] == []
    ensures CountRunning(ListStates(h)) == CountRunning(ListStates(g))
  {
    assert ListStates(h) == ListStates(g) + [New];
    AppendWaiting(ListStates(g));
  }

  lemma EnterQueue(g: Server, t: nat, e: Errand)
    requires CoreInv(g) && QueueInv(g) && t in g.threads && g.threads[t] == Want(e) && Enter(g, t, e).Some?
    requires OneMoved(g, Enter(g, t, e).value, t)
    ensures QueueInv(Enter(g, t, e).value)
  {
    hide Enter, OneMoved, ListInv, PcInv;
    var h := Enter(g, t, e).value;
    if h.list == g.list {
      EnterQuiet(g, t, e);
      QuietMoveQueue(g, h, t);
    } else {
      EnterAppends(g, t, e);
      ListMoveQueue(g, h, t);
    }
  }

  lemma ReadFront(g: Server, i: nat)
    requires i < |g.list|
    ensures ListStates(g)[..i + 1] == ListStates(g)[..i] + [StateOf(g, g.list[i])]
  {
  }

  /** One more state has been read: the count can still only be too high, and the first
      waiting job read so far is the first there is so far. */
  lemma ReadOk(front: seq<JobState>, sc: Scan, st: JobState)
    requires FirstWaiting(front, sc.next) && CountRunning(front) <= sc.running
    ensures var sc' := Read(sc, |front|, st);
            FirstWaiting(front + [st], sc'.next) && CountRunning(front + [st]) <= sc'.running
  {
  }

  lemma ScanOneOk(g: Server, h: Server, t: nat, due: bool)
    requires t in g.threads && g.threads[t].Scanning? && g.threads[t].i < |g.list| && ScanOk(g, g.threads[t])
    requires h == ScanOne(g, t, g.threads[t], due) && ListStates(h) == ListStates(g)
    ensures h.threads[t].Scanning? ==> ScanOk(h, h.threads[t])
  {
    var pc := g.threads[t];
    ReadFront(g, pc.i);
    ReadOk(ListStates(g)[..pc.i], pc.sc, StateOf(g, g.list[pc.i]));
    hide FirstWaiting, CountRunning, ListStates, StatesIn, StateOf;
  }

  lemma ScanOneMoves(g: Server, t: nat, due: bool)
    requires t in g.threads && g.threads[t].Scanning? && g.threads[t].i < |g.list|
    ensures var h := ScanOne(g, t, g.threads[t], due);
            && h.jobs == g.jobs && h.list == g.list && h.max == g.max && h.past == g.past
            && t in h.threads && (h.threads[t].Scanning? || h.threads[t].Leaving?)
  {
    hide Read, StateOf, Running, Terminal;
  }

  lemma ScanOneQuiet(g: Server, t: nat, due: bool)
    requires t in g.threads && g.threads[t].Scanning? && g.threads[t].i < |g.list|
    requires ScanOk(g, g.threads[t])
    requires OneMoved(g, ScanOne(g, t, g.threads[t], due), t)
    ensures QuietMove(g, ScanOne(g, t, g.threads[t], due), t)
  {
    hide OneMoved, ScanOk;
    var h := ScanOne(g, t, g.threads[t], due);
    ScanOneMoves(g, t, due);
    hide ScanOne;
    SameStates(g, h);
    ScanOneOk(g, h, t, due);
    hide CalmJobs, ListStates, StatesIn;
  }

  lemma ScanEndQuiet(g: Server, t: nat, call: nat)
    requires t in g.threads && g.threads[t].Scanning? && g.threads[t].i >= |g.list|
    requires ScanEnd(g, t, g.threads[t], call).Some?
    requires OneMoved(g, ScanEnd(g, t, g.threads[t], call).value, t)
    requires !ScanEnd(g, t, g.threads[t], call).value.threads[t].Launching?
    ensures QuietMove(g, ScanEnd(g, t, g.threads[t], call).value, t)
  {
    hide Apply;
    SameStates(g, ScanEnd(g, t, g.threads[t], call).value);
    hide CalmJobs, OneMoved;
  }

  /** The launch that ends a scan: the picked job, its new call before its compare-and-set. */
  ghost predicate LaunchMove(g: Server, h: Server, t: nat) {
    && t in h.threads && h.threads[t].Launching?
    && h.list == g.list && h.max == g.max && h.past.lowered == g.past.lowered && h.jobs.Keys == g.jobs.Keys
    && (forall j :: j in g.jobs ==> h.jobs[j].v == g.jobs[j].v)
    && (forall j, c :: CasPending(h, j, c) ==> CasPending(g, j, c) || IsLaunch(h.threads[t], j, c))
    && LaunchOk(g, h.threads[t].target)
  }

  lemma CallStartEffect(g: Server, j: nat, c: nat)
    requires Acted(g, j, CallStart(c)).Some?
    ensures var h := Acted(g, j, CallStart(c)).value;
            && h == g.(jobs := h.jobs) && h.jobs.Keys == g.jobs.Keys
            && (forall k :: k in g.jobs ==> h.jobs[k].v == g.jobs[k].v)
            && (forall k, d :: CasPending(h, k, d) ==> CasPending(g, k, d) || (k == j && d == c))
  {
    hide StartStep, CloseStep, ProcNext;
  }

  lemma PickIsOk(g: Server, pc: Pc)
    requires g.max >= 1 && pc.Scanning? && pc.i == |g.list| && ScanOk(g, pc)
    requires pc.sc.next.Some? && (pc.errand.Ticking? ==> pc.sc.running < g.max)
    ensures pc.sc.next.value < |g.list| && LaunchOk(g, g.list[pc.sc.next.value])
  {
    assert ListStates(g)[..pc.i] == ListStates(g);
    hide ListStates, CountRunning;
  }

  lemma ScanEndLaunches(g: Server, t: nat, call: nat)
    requires g.max >= 1 && t in g.threads && g.threads[t].Scanning? && g.threads[t].i == |g.list|
    requires ScanOk(g, g.threads[t])
    requires ScanEnd(g, t, g.threads[t], call).Some?
    requires ScanEnd(g, t, g.threads[t], call).value.threads[t].Launching?
    ensures LaunchMove(g, ScanEnd(g, t, g.threads[t], call).value, t)
  {
    hide Acted, ScanOk, LaunchOk, FirstWaiting, CountRunning, ListStates, StatesIn, StateOf;
    var pc := g.threads[t];
    PickIsOk(g, pc);
    CallStartEffect(g, g.list[pc.sc.next.value], call);
  }

  lemma LaunchMoveStates(g: Server, h: Server, t: nat)
    requires LaunchMove(g, h, t)
    ensures ListStates(h) == ListStates(g) && forall j :: StateOf(h, j) == StateOf(g, j)
    ensures LaunchOk(h, h.threads[t].target)
  {
    hide CasPending, FirstWaiting, CountRunning;
    forall j
      ensures StateOf(h, j) == StateOf(g, j)
    {
    }
    assert ListStates(h) == ListStates(g);
  }

  lemma LaunchMoveHolders(g: Server, h: Server, t: nat)
    requires LockInv(g) && OneMoved(g, h, t) && g.threads[t].Scanning? && h.lock == g.lock
    requires h.threads[t].Launching? && LaunchOk(h, h.threads[t].target)
    ensures Holders(h)
  {
    hide LaunchOk, CasPending, ScanOk;
  }

  lemma LaunchMoveQueue(g: Server, h: Server, t: nat)
    requires CoreInv(g) && QueueInv(g) && OneMoved(g, h, t) && LaunchMove(g, h, t)
    requires g.threads[t].Scanning? && h.lock == g.lock
    ensures QueueInv(h)
  {
    LaunchMoveStates(g, h, t);
    LaunchMoveHolders(g, h, t);
    hide ListStates, StateOf, CasPending, LaunchOk, CountRunning, WaitingLast, Holders, PcOk, ListInv;
    MovedSole(g, h, t);
    MovedNewcomers(g, h, t);
  }

  lemma ScanEndQueue(g: Server, t: nat, call: nat)
    requires CoreInv(g) && QueueInv(g) && t in g.threads && g.threads[t].Scanning? && g.threads[t].i >= |g.list|
    requires ScanEnd(g, t, g.threads[t], call).Some? && OneMoved(g, ScanEnd(g, t, g.threads[t], call).value, t)
    ensures QueueInv(ScanEnd(g, t, g.threads[t], call).value)
  {
    var h := ScanEnd(g, t, g.threads[t], call).value;
    assert PcOk(g, g.threads[t]);
    assert h.lock == g.lock;
    hide ScanEnd, OneMoved, PcInv;
    if h.threads[t].Launching? {
      ScanEndLaunches(g, t, call);
      LaunchMoveQueue(g, h, t);
    } else {
      ScanEndQuiet(g, t, call);
      QuietMoveQueue(g, h, t);
    }
  }

  lemma SnocStates(states: seq<JobState>, st: JobState)
    ensures WaitingLast(states + [st]) <==> WaitingLast(states) && (New in states ==> st == New)
    ensures CountRunning(states + [st]) == CountRunning(states) + if Running(st) then 1 else 0
  {
    var all := states + [st];
    assert all[..|states|] == states;
    assert all[|states|] == st && forall i :: 0 <= i < |states| ==> all[i] == states[i];
    if WaitingLast(all) && New in states {
      var i :| 0 <= i < |states| && states[i] == New;
      assert all[i] == New;
    }
  }

  /** Taking a job off the list keeps the queue's shape and frees at most a slot. */
  lemma {:induction false} WithoutStates(g: Server, q: seq<nat>, x: nat)
    requires WaitingLast(StatesIn(g, q))
    ensures WaitingLast(StatesIn(g, Without(q, x)))
    ensures CountRunning(StatesIn(g, Without(q, x))) <= CountRunning(StatesIn(g, q))
    ensures New in StatesIn(g, Without(q, x)) ==> New in StatesIn(g, q)
  {
    if q != [] {
      var n := |q| - 1;
      var front, st := q[..n], StateOf(g, q[n]);
      assert StatesIn(g, q) == StatesIn(g, front) + [st];
      SnocStates(StatesIn(g, front), st);
      WithoutStates(g, front, x);
      if q[n] != x {
        assert StatesIn(g, Without(q, x)) == StatesIn(g, Without(front, x)) + [st];
        SnocStates(StatesIn(g, Without(front, x)), st);
      }
    }
  }
}
