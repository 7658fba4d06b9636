/** The whole server as interleaved steps: any number of threads inside AddJob, runTasks,
    RemoveJob and Close, every job's own threads, and settings changes. rns.mu is explicit;
    a thread that holds it reads one job's state per step, while those states move.
    (rinser/rinse.go:220-262, 339-350, 392-451) */
module RinseSteps {
  import opened Basics
  import opened JobCore
  import opened JobSteps
  import opened Scheduler
  import opened Registry

  datatype Errand = Adding(job: nat) | Ticking

  /** Where a thread is. `Starting` waits for the Start it has called while holding rns.mu;
      `taken` and `queue` are the thread's own lists of jobs to close, `gone` those of its
      RemoveJob calls that have returned. */
  datatype Pc =
    | Want(errand: Errand)
    | Scanning(errand: Errand, i: nat, sc: Scan, todo: seq<nat>)
    | Launching(errand: Errand, target: nat, call: nat, todo: seq<nat>)
    | Leaving(errand: Errand, err: Option<AddError>, todo: seq<nat>)
    | Added(job: nat, err: Option<AddError>)
    | RemNext(queue: seq<nat>, gone: seq<nat>)
    | RemLeaving(queue: seq<nat>, gone: seq<nat>)
    | RemClosing(queue: seq<nat>, gone: seq<nat>)
    | RemWaiting(queue: seq<nat>, gone: seq<nat>, call: nat)
    | CloseWant
    | CloseLeaving(taken: seq<nat>)
    | Closing(taken: seq<nat>, i: nat)
    | CloseWaiting(taken: seq<nat>, i: nat, call: nat)

  /** History: a job has been started other than by AddJob or runTasks; a listed job, or one
      about to be, has been closed other than by its watchdog, RemoveJob or Close; the limit
      has been lowered. */
  datatype Past = Past(outside: bool, stray: bool, lowered: bool)

  datatype Server = Server(
    closed: bool,
    max: int,
    list: seq<nat>,
    jobs: map<nat, Sys>,
    uuid: map<nat, int>,
    threads: map<nat, Pc>,
    lock: Option<nat>,
    past: Past)

  /** A server just set up with the limit `max`. */
  function Boot(max: int): Server {
    Server(false, if max < 1 then 1 else max, [], map[], map[], map[], None, Past(false, false, false))
  }

  datatype Event =
    | CallAdd(thread: nat, job: nat, uuid: int)
    | CallTasks(thread: nat)
    | CallRemove(thread: nat, job: nat)
    | CallShutdown(thread: nat)
    | SetMax(n: int)
    | OutsideStart(job: nat, call: nat)
    | OutsideClose(job: nat, call: nat, err: Option<Err>)
    | JobMove(job: nat, act: Act)
    | Move(thread: nat, call: nat, due: bool)

  function StateOf(g: Server, j: nat): JobState {
    if j in g.jobs then g.jobs[j].v.state else New
  }

  function StatesIn(g: Server, q: seq<nat>): (r: seq<JobState>)
    ensures |r| == |q| && forall i :: 0 <= i < |r| ==> r[i] == StateOf(g, q[i])
  {
    seq(|q|, i requires 0 <= i < |q| => StateOf(g, q[i]))
  }

  function ListStates(g: Server): (r: seq<JobState>)
    ensures |r| == |g.list| && forall i :: 0 <= i < |r| ==> r[i] == StateOf(g, g.list[i])
  {
    StatesIn(g, g.list)
  }

  predicate HasUuid(g: Server, u: int) {
    exists i :: 0 <= i < |g.list| && g.list[i] in g.uuid && g.uuid[g.list[i]] == u
  }

  function Goto(g: Server, t: nat, pc: Pc): Server {
    g.(threads := g.threads[t := pc])
  }

  /** Job j takes the step a. */
  function Acted(g: Server, j: nat, a: Act): Option<Server> {
    if j !in g.jobs then None
    else
      var s := Apply(g.jobs[j], a);
      if s.None? then None else Some(g.(jobs := g.jobs[j := s.value]))
  }

  function Enter(g: Server, t: nat, e: Errand): Option<Server> {
    if g.lock.Some? then None
    else if e.Ticking? then Some(Goto(g, t, Scanning(e, 0, BLANK, [])).(lock := Some(t)))
    else if e.job !in g.uuid then None
    else if g.closed then Some(Goto(g, t, Leaving(e, Some(ServerClosed), [])).(lock := Some(t)))
    else if HasUuid(g, g.uuid[e.job]) then Some(Goto(g, t, Leaving(e, Some(DuplicateUUID), [])).(lock := Some(t)))
    else Some(Goto(g, t, Scanning(e, 0, BLANK, [])).(lock := Some(t), list := g.list + [e.job]))
  }

  function ScanOne(g: Server, t: nat, pc: Pc, due: bool): Server
    requires pc.Scanning? && pc.i < |g.list|
  {
    var st := StateOf(g, g.list[pc.i]);
    var sc := Read(pc.sc, pc.i, st);
    var todo := if pc.errand.Ticking? && Terminal(st) && due then pc.todo + [g.list[pc.i]] else pc.todo;
    if pc.errand.Adding? && Running(st) && sc.running >= g.max then Goto(g, t, Leaving(pc.errand, None, todo))
    else Goto(g, t, Scanning(pc.errand, pc.i + 1, sc, todo))
  }

  function ScanEnd(g: Server, t: nat, pc: Pc, call: nat): Option<Server>
    requires pc.Scanning?
  {
    if pc.sc.next.None? || (pc.errand.Ticking? && pc.sc.running >= g.max) then
      Some(Goto(g, t, Leaving(pc.errand, None, pc.todo)))
    else if pc.sc.next.value >= |g.list| then None
    else
      var target := g.list[pc.sc.next.value];
      var h := Acted(g, target, CallStart(call));
      if h.None? then None else Some(Goto(h.value, t, Launching(pc.errand, target, call, pc.todo)))
  }

  function BeginClose(g: Server, t: nat, j: nat, call: nat, after: Pc): Option<Server> {
    var h := Acted(g, j, CallClose(call, None));
    if h.None? then None else Some(Goto(h.value, t, after))
  }

  predicate StartReturned(g: Server, j: nat, call: nat) {
    j in g.jobs && call in g.jobs[j].starts && g.jobs[j].starts[call].Returned?
  }

  predicate CloseReturned(g: Server, j: nat, call: nat) {
    j in g.jobs && call in g.jobs[j].closes && g.jobs[j].closes[call].Closed?
  }

  predicate OnErrand(pc: Pc) {
    pc.Want? || pc.Scanning? || pc.Launching? || pc.Leaving? || pc.Added?
  }

  predicate OnRemoval(pc: Pc) {
    pc.RemNext? || pc.RemLeaving? || pc.RemClosing? || pc.RemWaiting?
  }

  /** AddJob and runTasks. */
  function ErrandStep(g: Server, t: nat, pc: Pc, call: nat, due: bool): Option<Server>
    requires OnErrand(pc)
  {
    match pc
    case Want(e) => Enter(g, t, e)
    case Scanning(_, i, _, _) => if i < |g.list| then Some(ScanOne(g, t, pc, due)) else ScanEnd(g, t, pc, call)
    case Launching(e, target, c, todo) =>
      if StartReturned(g, target, c) then Some(Goto(g, t, Leaving(e, None, todo))) else None
    case Leaving(e, err, todo) =>
      Some(Goto(g, t, if e.Adding? then Added(e.job, err) else RemNext(todo, [])).(lock := None))
    case Added(_, _) => None
  }

  /** RemoveJob, for one job after another. */
  function RemoveStep(g: Server, t: nat, pc: Pc, call: nat): Option<Server>
    requires OnRemoval(pc)
  {
    match pc
    case RemNext(queue, gone) =>
      if queue == [] || g.lock.Some? then None
      else Some(Goto(g, t, RemLeaving(queue, gone)).(lock := Some(t), list := Without(g.list, queue[0])))
    case RemLeaving(queue, gone) => Some(Goto(g, t, RemClosing(queue, gone)).(lock := None))
    case RemClosing(queue, gone) =>
      if queue == [] then None else BeginClose(g, t, queue[0], call, RemWaiting(queue, gone, call))
    case RemWaiting(queue, gone, c) =>
      if queue != [] && CloseReturned(g, queue[0], c) then Some(Goto(g, t, RemNext(queue[1..], gone + [queue[0]])))
      else None
  }

  /** The server's Close. */
  function ShutdownStep(g: Server, t: nat, pc: Pc, call: nat): Option<Server>
    requires !OnErrand(pc) && !OnRemoval(pc)
  {
    match pc
    case CloseWant =>
      if g.lock.Some? then None
      else
        var list := if g.closed then g.list else [];
        Some(Goto(g, t, CloseLeaving(g.list)).(lock := Some(t), closed := true, list := list))
    case CloseLeaving(taken) => Some(Goto(g, t, Closing(taken, 0)).(lock := None))
    case Closing(taken, i) =>
      if i >= |taken| then None else BeginClose(g, t, taken[i], call, CloseWaiting(taken, i, call))
    case CloseWaiting(taken, i, c) =>
      if i < |taken| && CloseReturned(g, taken[i], c) then Some(Goto(g, t, Closing(taken, i + 1))) else None
  }

  function MoveStep(g: Server, t: nat, call: nat, due: bool): Option<Server> {
    if t !in g.threads then None
    else if OnErrand(g.threads[t]) then ErrandStep(g, t, g.threads[t], call, due)
    else if OnRemoval(g.threads[t]) then RemoveStep(g, t, g.threads[t], call)
    else ShutdownStep(g, t, g.threads[t], call)
  }

  predicate Coming(pc: Pc) {
    pc.Want? && pc.errand.Adding?
  }

  /** A thread has created job j and is about to list it. */
  predicate ComingJob(g: Server, j: nat) {
    exists t :: t in g.threads && g.threads[t] == Want(Adding(j))
  }

  /** One step of the server, or None when it is not enabled. AddJob's callers have just
      created the job they add; RemoveJob's callers have found theirs on the list. */
  function Happen(g: Server, e: Event): Option<Server> {
    match e
    case CallAdd(t, j, u) =>
      if t in g.threads || j in g.jobs || j in g.uuid then None
      else Some(Goto(g, t, Want(Adding(j))).(jobs := g.jobs[j := FRESH], uuid := g.uuid[j := u]))
    case CallTasks(t) => if t in g.threads then None else Some(Goto(g, t, Want(Ticking)))
    case CallRemove(t, j) =>
      if t in g.threads || j !in g.jobs || ComingJob(g, j) then None else Some(Goto(g, t, RemNext([j], [])))
    case CallShutdown(t) => if t in g.threads then None else Some(Goto(g, t, CloseWant))
    case SetMax(n) =>
      if g.lock.Some? then None
      else if n > 0 then Some(g.(max := n, past := g.past.(lowered := g.past.lowered || n < g.max))) else Some(g)
    case OutsideStart(j, c) =>
      var h := Acted(g, j, CallStart(c));
      if h.None? then None else Some(h.value.(past := g.past.(outside := true)))
    case OutsideClose(j, c, err) =>
      var h := Acted(g, j, CallClose(c, err));
      if h.None? then None else Some(h.value.(past := g.past.(stray := g.past.stray || j in g.list || ComingJob(g, j))))
    case JobMove(j, a) => if a.CallStart? || a.CallClose? then None else Acted(g, j, a)
    case Move(t, c, due) => MoveStep(g, t, c, due)
  }

  function Play(g: Server, events: seq<Event>): Option<Server>
    decreases |events|
  {
    if events == [] then Some(g)
    else
      var h := Happen(g, events[0]);
      if h.None? then None else Play(h.value, events[1..])
  }
}
