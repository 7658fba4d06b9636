/** The registry object: an ordered list of jobs, its limit, and the calls that change them
    (rinser/rinse.go, rinser/findjob.go). Each method runs undisturbed here; RinseSteps
    interleaves their steps. */
module Registry {
  import opened Basics
  import opened JobCore
  import opened Scheduler

  datatype AddError = ServerClosed | DuplicateUUID

  /** The jobs of js, in order, that `keep` holds. */
  function Keep<T(==)>(js: seq<T>, keep: set<T>): (r: seq<T>)
    ensures forall i :: 0 <= i < |r| ==> r[i] in js && r[i] in keep
    ensures forall i :: 0 <= i < |js| && js[i] in keep ==> js[i] in r
  {
    if js == [] then []
    else
      var rest := Keep(js[..|js| - 1], keep);
      if js[|js| - 1] in keep then rest + [js[|js| - 1]] else rest
  }

  /** The jobs of js, in order, except x. */
  function Without<T(==)>(js: seq<T>, x: T): (r: seq<T>)
    ensures forall i :: 0 <= i < |r| ==> r[i] in js && r[i] != x
    ensures forall i :: 0 <= i < |js| && js[i] != x ==> js[i] in r
  {
    if js == [] then []
    else
      var rest := Without(js[..|js| - 1], x);
      if js[|js| - 1] != x then rest + [js[|js| - 1]] else rest
  }

  /** Where in js the jobs that `keep` holds stand. */
  ghost function Places<T>(js: seq<T>, keep: set<T>): seq<nat> {
    if js == [] then []
    else
      var rest := Places(js[..|js| - 1], keep);
      if js[|js| - 1] in keep then rest + [|js| - 1] else rest
  }

  /** `kept` are the elements of js at the ascending places `at`, which are all those that
      `keep` holds. */
  ghost predicate Picks<T>(js: seq<T>, keep: set<T>, kept: seq<T>, at: seq<nat>) {
    && |kept| == |at|
    && (forall i :: 0 <= i < |at| ==> at[i] < |js| && kept[i] == js[at[i]])
    && (forall i, k :: 0 <= i < k < |at| ==> at[i] < at[k])
    && (forall k :: 0 <= k < |js| && js[k] in keep ==> k in at)
  }

  lemma PicksMore<T>(js: seq<T>, x: T, keep: set<T>, kept: seq<T>, at: seq<nat>)
    requires Picks(js, keep, kept, at)
    ensures x !in keep ==> Picks(js + [x], keep, kept, at)
    ensures x in keep ==> Picks(js + [x], keep, kept + [x], at + [|js|])
  {
    if x in keep {
      var longer := at + [|js|];
      assert longer[|at|] == |js|;
      forall k | 0 <= k < |js + [x]| && (js + [x])[k] in keep
        ensures k in longer
      {
        if k < |js| {
          assert k in at;
        }
      }
    }
  }

  /** Keep drops what `keep` does not hold and nothing else: what is left stands in its old
      order, as often as before. */
  lemma {:induction false} KeepsOrder<T>(js: seq<T>, keep: set<T>)
    ensures Picks(js, keep, Keep(js, keep), Places(js, keep))
  {
    hide Picks;
    if js == [] {
      NothingPicked(keep);
    } else {
      var front, last := js[..|js| - 1], js[|js| - 1];
      KeepsOrder(front, keep);
      PicksMore(front, last, keep, Keep(front, keep), Places(front, keep));
      assert front + [last] == js;
    }
  }

  lemma NothingPicked<T>(keep: set<T>)
    ensures Picks([], keep, [], [])
  {
  }

  /** Deleting a job is keeping all the others. */
  lemma {:induction false} WithoutKeepsOrder<T>(js: seq<T>, x: T, keep: set<T>)
    requires forall j :: j in js ==> (j in keep <==> j != x)
    ensures Without(js, x) == Keep(js, keep)
  {
    if js != [] {
      WithoutKeepsOrder(js[..|js| - 1], x, keep);
    }
  }

  ghost function States(js: seq<Job>): (r: seq<JobState>)
    reads js
    ensures |r| == |js| && forall i :: 0 <= i < |js| ==> r[i] == js[i].state
  {
    seq(|js|, i requires 0 <= i < |js| reads js => js[i].state)
  }

  ghost function Overdue(js: seq<Job>, due: set<Job>): set<Job>
    reads js
  {
    set j | j in js && j in due && Terminal(j.state)
  }

  ghost predicate DistinctIds(js: seq<Job>) {
    forall i, k :: 0 <= i < k < |js| ==> js[i].uuid != js[k].uuid
  }

  lemma {:induction false} WithoutKeepsDistinct(js: seq<Job>, x: Job)
    requires DistinctIds(js)
    ensures DistinctIds(Without(js, x))
  {
    if js != [] {
      WithoutKeepsDistinct(js[..|js| - 1], x);
    }
  }

  lemma AppendKeepsDistinct(js: seq<Job>, x: Job)
    requires DistinctIds(js) && forall i :: 0 <= i < |js| ==> js[i].uuid != x.uuid
    ensures DistinctIds(js + [x])
  {
  }

  twostate predicate Untouched(j: Job)
    reads j
  {
    j.Vars() == old(j.Vars()) && j.ctx == old(j.ctx) && j.workers == old(j.workers) && j.removals == old(j.removals)
  }

  /** A job whose state has changed has been started: it has a live context and a process of its
      own. The others are as they were. */
  twostate predicate OneLaunched(js: seq<Job>)
    reads js
  {
    forall j :: j in js ==>
      if j.state == old(j.state) then Untouched(j)
      else
        && old(j.state) == New && j.Vars() == old(j.Vars()).(state := Starting, cancelSet := true)
        && j.ctx == Live && j.workers == old(j.workers) + 1 && j.removals == old(j.removals)
  }

  /** Since then Close has been called on the job: it is marked closed, and has been cancelled
      if it was running, while the files of one that was neither running nor closed are gone. */
  twostate predicate ClosedByCall(j: Job)
    reads j
  {
    && j.Vars() == old(j.Vars()).(closed := true)
    && j.ctx == (if old(j.cancelSet) && old(j.ctx).Live? then Dead(Canceled) else old(j.ctx))
    && j.workers == old(j.workers)
    && j.removals == old(j.removals) + if old(j.cancelSet) || old(j.closed) then 0 else 1
  }

  /** Starts the picked job, if any. */
  method Launch(js: seq<Job>, next: Job?, ghost pick: Option<nat>)
    requires DistinctIds(js)
    requires if pick.None? then next == null
             else pick.value < |js| && next == js[pick.value] && next.state == New
    modifies js
    ensures States(js) == if pick.None? then old(States(js)) else old(States(js))[pick.value := Starting]
    ensures OneLaunched(js)
  {
    if next != null {
      var _ := next.Start();
    }
  }

  lemma ScanMore(states: seq<JobState>, i: nat)
    requires i < |states|
    ensures ScanAll(states[..i + 1]) == Read(ScanAll(states[..i]), i, states[i])
  {
    assert states[..i + 1][..i] == states[..i];
  }

  lemma KeepMore(js: seq<Job>, i: nat, keep: set<Job>)
    requires i < |js|
    ensures Keep(js[..i + 1], keep) == Keep(js[..i], keep) + if js[i] in keep then [js[i]] else []
  {
    assert js[..i + 1][..i] == js[..i];
  }

  lemma NothingScanned(keep: set<Job>)
    ensures ScanAll([]) == BLANK && Keep([], keep) == []
  {
  }

  class Rinse {
    var closed: bool
    var maxConcurrent: int
    var jobs: seq<Job>

    ghost predicate Valid()
      reads this
    {
      maxConcurrent >= 1 && DistinctIds(jobs) && (closed ==> jobs == [])
    }

    /** The limit as loadSettings clamps it. */
    constructor (configured: int)
      ensures Valid() && !closed && jobs == []
      ensures maxConcurrent == if configured < 1 then 1 else configured
    {
      closed, jobs := false, [];
      maxConcurrent := if configured < 1 then 1 else configured;
    }

    method SetMaxConcurrent(n: int)
      requires Valid()
      modifies this`maxConcurrent
      ensures Valid()
      ensures maxConcurrent == if n > 0 then n else old(maxConcurrent)
    {
      if n > 0 {
        maxConcurrent := n;
      }
    }

    method NextJobLocked() returns (next: Job?)
      ensures var p := PickEarly(States(jobs), maxConcurrent);
              if p.None? then next == null else p.value < |jobs| && next == jobs[p.value]
    {
      next := null;
      var running := 0;
      ghost var sc := BLANK;
      ghost var states := States(jobs);
      var i := 0;
      while i < |jobs|
        invariant 0 <= i <= |jobs| && running == sc.running
        invariant if sc.next.None? then next == null else sc.next.value < |jobs| && next == jobs[sc.next.value]
        invariant PickEarly(states, maxConcurrent) == EarlyFrom(states, maxConcurrent, i, sc)
      {
        var job := jobs[i];
        sc := Read(sc, i, job.state);
        match job.state {
          case New =>
            if next == null {
              next := job;
            }
          case Failed =>
          case Finished =>
          case _ =>
            running := running + 1;
            if running >= maxConcurrent {
              return null;
            }
        }
        i := i + 1;
      }
    }

    /** The loop of runTasks. `due` holds the jobs whose clean-up time has passed. */
    method ScanTasks(due: set<Job>) returns (running: nat, next: Job?, todo: seq<Job>)
      ensures todo == Keep(jobs, Overdue(jobs, due))
      ensures var sc := ScanAll(States(jobs));
              && running == sc.running
              && if sc.next.None? then next == null else sc.next.value < |jobs| && next == jobs[sc.next.value]
    {
      hide ScanAll, Keep;
      NothingScanned(Overdue(jobs, due));
      todo, next, running := [], null, 0;
      ghost var sc := BLANK;
      ghost var states := States(jobs);
      ghost var overdue := Overdue(jobs, due);
      var i := 0;
      while i < |jobs|
        invariant 0 <= i <= |jobs| && running == sc.running
        invariant if sc.next.None? then next == null else sc.next.value < |jobs| && next == jobs[sc.next.value]
        invariant sc == ScanAll(states[..i])
        invariant todo == Keep(jobs[..i], overdue)
      {
        var job := jobs[i];
        ScanMore(states, i);
        KeepMore(jobs, i, overdue);
        sc := Read(sc, i, job.state);
        match job.state {
          case New =>
            if next == null {
              next := job;
            }
          case Failed =>
            if job in due {
              todo := todo + [job];
            }
          case Finished =>
            if job in due {
              todo := todo + [job];
            }
          case _ =>
            running := running + 1;
        }
        i := i + 1;
      }
      assert states[..i] == states && jobs[..i] == jobs;
    }

    method RunTasks(due: set<Job>) returns (todo: seq<Job>)
      requires Valid()
      modifies jobs
      ensures todo == Keep(jobs, old(Overdue(jobs, due)))
      ensures States(jobs) == Turn(old(States(jobs)), maxConcurrent)
      ensures OneLaunched(jobs)
    {
      var running, next;
      running, next, todo := ScanTasks(due);
      ghost var pick := PickTasks(States(jobs), maxConcurrent);
      PickMeaning(States(jobs), maxConcurrent);
      if running >= maxConcurrent {
        next := null;
      }
      Launch(jobs, next, pick);
    }

    method IsListed(uuid: int) returns (found: bool)
      ensures found <==> exists i :: 0 <= i < |jobs| && jobs[i].uuid == uuid
    {
      var i := 0;
      while i < |jobs|
        invariant 0 <= i <= |jobs|
        invariant forall k :: 0 <= k < i ==> jobs[k].uuid != uuid
      {
        if uuid == jobs[i].uuid {
          return true;
        }
        i := i + 1;
      }
      return false;
    }

    method StartNext()
      requires Valid()
      modifies jobs
      ensures States(jobs) == Turn(old(States(jobs)), maxConcurrent)
      ensures OneLaunched(jobs)
    {
      hide PickTasks, PickEarly;
      SelectionRefinement(States(jobs), maxConcurrent);
      PickMeaning(States(jobs), maxConcurrent);
      ghost var pick := PickTasks(States(jobs), maxConcurrent);
      var next := NextJobLocked();
      Launch(jobs, next, pick);
    }

    /** The end of AddJob: the job joins the list, and the next one is started. */
    method ListAndStart(job: Job)
      requires Valid() && !closed && forall i :: 0 <= i < |jobs| ==> jobs[i].uuid != job.uuid
      modifies this`jobs, jobs, job
      ensures Valid() && jobs == old(jobs) + [job]
      ensures States(jobs) == Turn(old(States(jobs + [job])), maxConcurrent)
      ensures OneLaunched(jobs)
    {
      hide Turn;
      AppendKeepsDistinct(jobs, job);
      jobs := jobs + [job];
      StartNext();
    }

    method AddJob(job: Job) returns (err: Option<AddError>)
      requires Valid()
      modifies this`jobs, jobs, job
      ensures Valid()
      ensures err == if closed then Some(ServerClosed)
                     else if exists i :: 0 <= i < |old(jobs)| && old(jobs)[i].uuid == job.uuid then Some(DuplicateUUID)
                     else None
      ensures jobs == if err.Some? then old(jobs) else old(jobs) + [job]
      ensures States(jobs) == if err.Some? then old(States(jobs)) else Turn(old(States(jobs + [job])), maxConcurrent)
      ensures OneLaunched(jobs)
    {
      hide Turn, DistinctIds;
      if closed {
        return Some(ServerClosed);
      }
      var listed := IsListed(job.uuid);
      if listed {
        return Some(DuplicateUUID);
      }
      ListAndStart(job);
      return None;
    }

    method RemoveJob(job: Job)
      requires Valid()
      modifies this`jobs, job
      ensures Valid() && jobs == Without(old(jobs), job)
      ensures ClosedByCall(job)
    {
      WithoutKeepsDistinct(jobs, job);
      jobs := Without(jobs, job);
      job.Close(None);
    }

    /** Takes the list and closes what was on it. A second call finds an empty list. */
    method Close()
      requires Valid()
      modifies this, jobs
      ensures Valid() && closed && jobs == [] && maxConcurrent == old(maxConcurrent)
      ensures forall j :: j in old(jobs) ==> ClosedByCall(j)
    {
      var taken := jobs;
      if !closed {
        closed := true;
        jobs := [];
      }
      var i := 0;
      while i < |taken|
        invariant 0 <= i <= |taken|
        invariant forall k :: 0 <= k < i ==> ClosedByCall(taken[k])
        invariant forall k :: i <= k < |taken| ==> Untouched(taken[k])
        modifies taken
      {
        taken[i].Close(None);
        i := i + 1;
      }
    }

    /** With distinct UUIDs the first match is the only one, as in a map. */
    method FindJobUuid(u: int) returns (found: Job?)
      requires Valid()
      ensures found == null ==> forall j :: j in jobs ==> j.uuid != u
      ensures found != null ==> found in jobs && found.uuid == u && forall j :: j in jobs && j.uuid == u ==> j == found
    {
      var i := 0;
      while i < |jobs|
        invariant 0 <= i <= |jobs|
        invariant forall k :: 0 <= k < i ==> jobs[k].uuid != u
      {
        if jobs[i].uuid == u {
          return jobs[i];
        }
        i := i + 1;
      }
      return null;
    }

    /** What the user may see, in list order. */
    method JobList(email: string, isAdmin: bool) returns (list: seq<Job>)
      ensures list == Keep(jobs, set j | j in jobs && (isAdmin || (!j.isPrivate && j.email == email)))
    {
      list := [];
      ghost var visible := set j | j in jobs && (isAdmin || (!j.isPrivate && j.email == email));
      var i := 0;
      while i < |jobs|
        invariant 0 <= i <= |jobs|
        invariant list == Keep(jobs[..i], visible)
      {
        var job := jobs[i];
        assert jobs[..i + 1][..i] == jobs[..i];
        if isAdmin || (!job.isPrivate && job.email == email) {
          list := list + [job];
        }
        i := i + 1;
      }
      assert jobs[..i] == jobs;
    }
  }
}
