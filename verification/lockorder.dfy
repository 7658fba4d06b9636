/** The two kinds of mutex, held across steps: no call asks for rns.mu while it holds a
    job.mu, holds two job mutexes, or re-enters either, so the threads cannot deadlock. */
module LockOrder {
  import opened Basics

  datatype Lock = Registry | OfJob(job: nat)

  datatype Op = Acquire(lock: Lock) | Release(lock: Lock)

  // ---------------------------------------------------------------- what each call does

  function Section(j: nat): seq<Op> {
    [Acquire(OfJob(j)), Release(OfJob(j))]
  }

  function Sections(js: seq<nat>): seq<Op> {
    if js == [] then [] else Sections(js[..|js| - 1]) + Section(js[|js| - 1])
  }

  /** A call, with what decides which locks it takes. `visited` lists the jobs whose mutex a
      scan takes, in order; runTasks visits a finished job twice. */
  datatype Call =
    | Transition(job: nat, contextDone: bool)
    | Start(job: nat, won: bool)
    | Close(job: nat)
    | WatchTick(job: nat, late: bool)
    | Fail(job: nat)
    | ProcessDone(job: nat)
    | RefreshDiskuse(job: nat)
    | TesseractLine(job: nat, isOut: bool)
    | Preview(job: nat, rendered: bool)
    | Downloaded(job: nat, gotten: bool)
    | GetClient
    | Settings
    | RunTasks(visited: seq<nat>, pick: Option<nat>, won: bool)
    | AddJob(visited: seq<nat>, pick: Option<nat>, won: bool)
    | RemoveJob(job: nat)
    | ServerClose(taken: seq<nat>)
    | FindJob
    | JobList

  /** transition takes job.mu for the compare-and-set and again in refreshDiskuse. */
  function TransitionTrace(j: nat, contextDone: bool): seq<Op> {
    if contextDone then [] else Section(j) + Section(j)
  }

  function StartTrace(j: nat, won: bool): seq<Op> {
    TransitionTrace(j, false) + if won then Section(j) else []
  }

  function LaunchTrace(pick: Option<nat>, won: bool): seq<Op> {
    if pick.None? then [] else StartTrace(pick.value, won)
  }

  function UnderRegistry(body: seq<Op>): seq<Op> {
    [Acquire(Registry)] + body + [Release(Registry)]
  }

  function Trace(c: Call): seq<Op> {
    match c
    case Transition(j, contextDone) => TransitionTrace(j, contextDone)
    case Start(j, won) => StartTrace(j, won)
    case Close(j) => Section(j)
    case WatchTick(j, late) => Section(j) + if late then Section(j) else []
    case Fail(j) => Section(j) + Section(j)
    case ProcessDone(j) => Section(j)
    case RefreshDiskuse(j) => Section(j)
    case TesseractLine(j, isOut) => if isOut then [] else Section(j)
    case Preview(j, rendered) => Section(j) + if rendered then Section(j) else []
    case Downloaded(j, gotten) => Section(j) + if gotten then UnderRegistry([]) + Section(j) else []
    case GetClient => UnderRegistry([])
    case Settings => UnderRegistry([])
    case RunTasks(visited, pick, won) => UnderRegistry(Sections(visited) + LaunchTrace(pick, won))
    case AddJob(visited, pick, won) => UnderRegistry(Sections(visited) + LaunchTrace(pick, won))
    case RemoveJob(j) => UnderRegistry([]) + Section(j)
    case ServerClose(taken) => UnderRegistry([]) + Sections(taken)
    case FindJob => UnderRegistry([])
    case JobList => UnderRegistry([])
  }

  function Program(calls: seq<Call>): seq<Op> {
    if calls == [] then [] else Trace(calls[0]) + Program(calls[1..])
  }

  // ---------------------------------------------------------------- the discipline

  /** The operations can be made from `held` on, in the prescribed order, and end holding
      `after`. */
  predicate Disciplined(held: set<Lock>, ops: seq<Op>, after: set<Lock>)
    decreases |ops|
  {
    if ops == [] then held == after
    else
      match ops[0]
      case Acquire(Registry) => held == {} && Disciplined({Registry}, ops[1..], after)
      case Acquire(OfJob(j)) => held <= {Registry} && Disciplined(held + {OfJob(j)}, ops[1..], after)
      case Release(l) => l in held && Disciplined(held - {l}, ops[1..], after)
  }

  lemma {:induction false} Chain(a: set<Lock>, xs: seq<Op>, b: set<Lock>, ys: seq<Op>, c: set<Lock>)
    requires Disciplined(a, xs, b) && Disciplined(b, ys, c)
    ensures Disciplined(a, xs + ys, c)
    decreases |xs|
  {
    if xs == [] {
      assert xs + ys == ys;
    } else {
      assert (xs + ys)[1..] == xs[1..] + ys;
      match xs[0] {
        case Acquire(Registry) => Chain({Registry}, xs[1..], b, ys, c);
        case Acquire(OfJob(j)) => Chain(a + {OfJob(j)}, xs[1..], b, ys, c);
        case Release(l) => Chain(a - {l}, xs[1..], b, ys, c);
      }
    }
  }

  lemma SectionOk(held: set<Lock>, j: nat)
    requires held <= {Registry}
    ensures Disciplined(held, Section(j), held)
  {
  }

  lemma {:induction false} SectionsOk(held: set<Lock>, js: seq<nat>)
    requires held <= {Registry}
    ensures Disciplined(held, Sections(js), held)
  {
    if js != [] {
      SectionsOk(held, js[..|js| - 1]);
      SectionOk(held, js[|js| - 1]);
      Chain(held, Sections(js[..|js| - 1]), held, Section(js[|js| - 1]), held);
    }
  }

  lemma StartOk(held: set<Lock>, j: nat, won: bool)
    requires held <= {Registry}
    ensures Disciplined(held, StartTrace(j, won), held)
  {
    SectionOk(held, j);
    Chain(held, Section(j), held, Section(j), held);
    Chain(held, Section(j) + Section(j), held, if won then Section(j) else [], held);
  }

  lemma RegistryOk(body: seq<Op>)
    requires Disciplined({Registry}, body, {Registry})
    ensures Disciplined({}, UnderRegistry(body), {})
  {
    var first: seq<Op>, last: seq<Op> := [Acquire(Registry)], [Release(Registry)];
    assert first[1..] == [] && last[1..] == [];
    assert {Registry} - {Registry} == {};
    Chain({}, first, {Registry}, body, {Registry});
    Chain({}, first + body, {Registry}, last, {});
  }

  lemma LaunchOk(pick: Option<nat>, won: bool)
    ensures Disciplined({Registry}, LaunchTrace(pick, won), {Registry})
  {
    if pick.Some? {
      StartOk({Registry}, pick.value, won);
    }
  }

  lemma ScanOk(visited: seq<nat>, pick: Option<nat>, won: bool)
    ensures Disciplined({}, UnderRegistry(Sections(visited) + LaunchTrace(pick, won)), {})
  {
    SectionsOk({Registry}, visited);
    LaunchOk(pick, won);
    Chain({Registry}, Sections(visited), {Registry}, LaunchTrace(pick, won), {Registry});
    RegistryOk(Sections(visited) + LaunchTrace(pick, won));
  }

  /** Every call keeps the order, from holding nothing to holding nothing. */
  lemma TraceOk(c: Call)
    ensures Disciplined({}, Trace(c), {})
  {
    hide Disciplined;
    NothingOk({});
    NothingOk({Registry});
    RegistryOk([]);
    match c
    case Transition(j, contextDone) => StartOk({}, j, false); TwoSections(j);
    case Start(j, won) => StartOk({}, j, won);
    case Close(j) => SectionOk({}, j);
    case WatchTick(j, late) => SectionOk({}, j); Chain({}, Section(j), {}, if late then Section(j) else [], {});
    case Fail(j) => TwoSections(j);
    case ProcessDone(j) => SectionOk({}, j);
    case RefreshDiskuse(j) => SectionOk({}, j);
    case TesseractLine(j, _) => SectionOk({}, j);
    case Preview(j, rendered) => SectionOk({}, j); Chain({}, Section(j), {}, if rendered then Section(j) else [], {});
    case Downloaded(j, gotten) =>
      SectionOk({}, j);
      Chain({}, UnderRegistry([]), {}, Section(j), {});
      Chain({}, Section(j), {}, if gotten then UnderRegistry([]) + Section(j) else [], {});
    case GetClient =>
    case Settings =>
    case RunTasks(visited, pick, won) => ScanOk(visited, pick, won);
    case AddJob(visited, pick, won) => ScanOk(visited, pick, won);
    case RemoveJob(j) =>
      SectionOk({}, j);
      Chain({}, UnderRegistry([]), {}, Section(j), {});
    case ServerClose(taken) =>
      SectionsOk({}, taken);
      Chain({}, UnderRegistry([]), {}, Sections(taken), {});
    case FindJob =>
    case JobList =>
  }

  lemma NothingOk(held: set<Lock>)
    ensures Disciplined(held, [], held)
  {
  }

  lemma TwoSections(j: nat)
    ensures Disciplined({}, Section(j) + Section(j), {})
  {
    SectionOk({}, j);
    Chain({}, Section(j), {}, Section(j), {});
  }

  lemma {:induction false} ProgramOk(calls: seq<Call>)
    ensures Disciplined({}, Program(calls), {})
  {
    if calls != [] {
      TraceOk(calls[0]);
      ProgramOk(calls[1..]);
      Chain({}, Trace(calls[0]), {}, Program(calls[1..]), {});
    }
  }

  // ---------------------------------------------------------------- threads running programs

  datatype Task = Task(held: set<Lock>, todo: seq<Op>)

  type World = map<nat, Task>

  ghost predicate Free(w: World, l: Lock) {
    forall t :: t in w ==> l !in w[t].held
  }

  /** Thread t can make its next operation. A mutex that is held, by whomever, blocks. */
  ghost predicate CanStep(w: World, t: nat) {
    t in w && w[t].todo != [] &&
    match w[t].todo[0]
    case Acquire(l) => Free(w, l)
    case Release(l) => l in w[t].held
  }

  ghost function Stepped(w: World, t: nat): World
    requires CanStep(w, t)
  {
    var task := w[t];
    w[t := match task.todo[0]
           case Acquire(l) => Task(task.held + {l}, task.todo[1..])
           case Release(l) => Task(task.held - {l}, task.todo[1..])]
  }

  ghost predicate Launched(w: World, programs: map<nat, seq<Call>>) {
    w.Keys == programs.Keys && forall t :: t in w ==> w[t] == Task({}, Program(programs[t]))
  }

  ghost function RunSchedule(w: World, schedule: seq<nat>): Option<World> {
    if schedule == [] then Some(w)
    else if CanStep(w, schedule[0]) then RunSchedule(Stepped(w, schedule[0]), schedule[1..])
    else None
  }

  ghost predicate Orderly(w: World) {
    && (forall t :: t in w ==> Disciplined(w[t].held, w[t].todo, {}))
    && (forall t, u :: t in w && u in w && t != u ==> w[t].held !! w[u].held)
  }

  lemma StepOrderly(w: World, t: nat)
    requires Orderly(w) && CanStep(w, t)
    ensures Orderly(Stepped(w, t))
  {
    var v := Stepped(w, t);
    assert Disciplined(v[t].held, v[t].todo, {}) by {
      assert Disciplined(w[t].held, w[t].todo, {});
      if w[t].todo[0] == Acquire(Registry) {
        assert w[t].held + {Registry} == {Registry};
      }
    }
    forall u, x | u in v && x in v && u != x
      ensures v[u].held !! v[x].held
    {
      assert w[u].held !! w[x].held;
    }
  }

  lemma {:induction false} ScheduleOrderly(w: World, schedule: seq<nat>)
    requires Orderly(w) && RunSchedule(w, schedule).Some?
    ensures Orderly(RunSchedule(w, schedule).value)
  {
    if schedule != [] {
      StepOrderly(w, schedule[0]);
      ScheduleOrderly(Stepped(w, schedule[0]), schedule[1..]);
    }
  }

  /** A thread that holds a job's mutex is about to release something. */
  lemma JobHolderReleases(w: World, u: nat, j: nat)
    requires Orderly(w) && u in w && OfJob(j) in w[u].held
    ensures CanStep(w, u)
  {
  }

  /** Whatever calls the threads make, and however they are scheduled, while some thread has
      something left to do some thread can go on. */
  lemma NoDeadlock(programs: map<nat, seq<Call>>, start: World, schedule: seq<nat>, t: nat) returns (u: nat)
    requires Launched(start, programs) && RunSchedule(start, schedule).Some?
    requires t in RunSchedule(start, schedule).value && RunSchedule(start, schedule).value[t].todo != []
    ensures CanStep(RunSchedule(start, schedule).value, u)
  {
    forall x | x in start
      ensures Disciplined(start[x].held, start[x].todo, {})
    {
      ProgramOk(programs[x]);
    }
    ScheduleOrderly(start, schedule);
    u := SomeoneSteps(RunSchedule(start, schedule).value, t);
  }

  lemma SomeoneSteps(w: World, t: nat) returns (u: nat)
    requires Orderly(w) && t in w && w[t].todo != []
    ensures CanStep(w, u)
  {
    u := t;
    if !CanStep(w, t) {
      assert Disciplined(w[t].held, w[t].todo, {});
      var l := w[t].todo[0].lock;
      u :| u in w && l in w[u].held;
      if l == Registry && !CanStep(w, u) {
        assert Disciplined(w[u].held, w[u].todo, {});
        var k := w[u].todo[0].lock;
        u :| u in w && k in w[u].held;
        JobHolderReleases(w, u, k.job);
      } else if l != Registry {
        JobHolderReleases(w, u, l.job);
      }
    }
  }
}
