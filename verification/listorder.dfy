/** The list of jobs is in insertion order: in every run of the server, jobs that were on it
    earlier stand before those that joined since, and keep their places among themselves
    (rinser/rinse.go:339-350, 424-451). */
module ListOrder {
  import opened JobSteps
  import opened Registry
  import opened RinseSteps
  import opened Scheduler

  // ---------------------------------------------------------------- what one step does to it

  /** One job joins at the end: that of a thread that was about to list it, and is no more. */
  ghost predicate Joins(g: Server, h: Server, j: nat) {
    && h.list == g.list + [j]
    && exists t :: t in g.threads && g.threads[t] == Want(Adding(j)) && t in h.threads && !Coming(h.threads[t])
  }

  /** A step leaves the list alone, adds one job at its end, deletes one, or empties it. */
  ghost predicate ListStep(g: Server, h: Server) {
    || h.list == g.list
    || (exists j :: Joins(g, h, j))
    || (exists j :: h.list == Without(g.list, j))
    || h.list == []
  }

  /** The jobs about to be listed are those of before, or one that has just been created. */
  ghost predicate ComingStep(g: Server, h: Server) {
    && g.uuid.Keys <= h.uuid.Keys
    && (forall t :: t in g.threads ==> t in h.threads)
    && (forall t :: t in h.threads && Coming(h.threads[t]) ==>
          if t in g.threads then h.threads[t] == g.threads[t]
          else h.threads[t].errand.job !in g.uuid && h.threads[t].errand.job in h.uuid)
    && (forall t, u :: t in h.threads && t !in g.threads && u in h.threads && u !in g.threads ==> t == u)
  }

  lemma EnterList(g: Server, t: nat, e: Errand)
    requires t in g.threads && g.threads[t] == Want(e) && Enter(g, t, e).Some?
    ensures ListStep(g, Enter(g, t, e).value) && ComingStep(g, Enter(g, t, e).value)
  {
    hide HasUuid, Without;
    var h := Enter(g, t, e).value;
    if e.Adding? && h.list != g.list {
      assert Joins(g, h, e.job);
    }
  }

  lemma ErrandList(g: Server, t: nat, call: nat, due: bool)
    requires t in g.threads && OnErrand(g.threads[t]) && ErrandStep(g, t, g.threads[t], call, due).Some?
    ensures var h := ErrandStep(g, t, g.threads[t], call, due).value; ListStep(g, h) && ComingStep(g, h)
  {
    hide Apply, HasUuid, Without, Enter, ScanOne, ScanEnd, ListStep, ComingStep;
    var pc := g.threads[t];
    if pc.Want? {
      EnterList(g, t, pc.errand);
    } else if pc.Scanning? {
      if pc.i < |g.list| {
        ScanOneList(g, t, due);
      } else {
        ScanEndList(g, t, call);
      }
    } else {
      LaunchedList(g, t, call, due);
    }
  }

  lemma LaunchedList(g: Server, t: nat, call: nat, due: bool)
    requires t in g.threads && OnErrand(g.threads[t]) && !g.threads[t].Want? && !g.threads[t].Scanning?
    requires ErrandStep(g, t, g.threads[t], call, due).Some?
    ensures var h := ErrandStep(g, t, g.threads[t], call, due).value; ListStep(g, h) && ComingStep(g, h)
  {
    hide StartReturned;
  }

  lemma ScanOneList(g: Server, t: nat, due: bool)
    requires t in g.threads && g.threads[t].Scanning? && g.threads[t].i < |g.list|
    ensures var h := ScanOne(g, t, g.threads[t], due); ListStep(g, h) && ComingStep(g, h)
  {
    hide Read, StateOf;
  }

  lemma ScanEndList(g: Server, t: nat, call: nat)
    requires t in g.threads && g.threads[t].Scanning? && ScanEnd(g, t, g.threads[t], call).Some?
    ensures var h := ScanEnd(g, t, g.threads[t], call).value; ListStep(g, h) && ComingStep(g, h)
  {
    hide Apply;
  }

  lemma RemoveList(g: Server, t: nat, call: nat)
    requires t in g.threads && OnRemoval(g.threads[t]) && RemoveStep(g, t, g.threads[t], call).Some?
    ensures var h := RemoveStep(g, t, g.threads[t], call).value; ListStep(g, h) && ComingStep(g, h)
  {
    hide Apply, Without;
    if g.threads[t].RemNext? {
      assert RemoveStep(g, t, g.threads[t], call).value.list == Without(g.list, g.threads[t].queue[0]);
    }
  }

  lemma ShutdownList(g: Server, t: nat, call: nat)
    requires t in g.threads && !OnErrand(g.threads[t]) && !OnRemoval(g.threads[t])
    requires ShutdownStep(g, t, g.threads[t], call).Some?
    ensures var h := ShutdownStep(g, t, g.threads[t], call).value; ListStep(g, h) && ComingStep(g, h)
  {
    hide Apply, Without;
  }

  lemma EventList(g: Server, e: Event)
    requires Happen(g, e).Some?
    ensures ListStep(g, Happen(g, e).value) && ComingStep(g, Happen(g, e).value)
  {
    if e.Move? {
      hide ErrandStep, RemoveStep, ShutdownStep, ListStep, ComingStep;
      var pc := g.threads[e.thread];
      if OnErrand(pc) {
        ErrandList(g, e.thread, e.call, e.due);
      } else if OnRemoval(pc) {
        RemoveList(g, e.thread, e.call);
      } else {
        ShutdownList(g, e.thread, e.call);
      }
    } else {
      hide Apply, Without, MoveStep, ComingJob;
    }
  }

  // ---------------------------------------------------------------- a job joins only once

  /** Whatever is about to be listed is known, is not listed, and is listed by one thread only. */
  ghost predicate Newcomers(g: Server) {
    && (forall j :: j in g.list ==> j in g.uuid)
    && (forall t :: t in g.threads && Coming(g.threads[t]) ==>
          g.threads[t].errand.job in g.uuid && g.threads[t].errand.job !in g.list)
    && (forall t, u :: t in g.threads && u in g.threads && Coming(g.threads[t]) && Coming(g.threads[u]) && t != u ==>
          g.threads[t].errand.job != g.threads[u].errand.job)
  }

  lemma FewerListed(g: Server, h: Server)
    requires Newcomers(g) && ComingStep(g, h) && forall j :: j in h.list ==> j in g.list
    ensures Newcomers(h)
  {
  }

  lemma NewcomersKept(g: Server, h: Server)
    requires Newcomers(g) && ListStep(g, h) && ComingStep(g, h)
    ensures Newcomers(h)
  {
    if j :| Joins(g, h, j) {
      var t :| t in g.threads && g.threads[t] == Want(Adding(j)) && t in h.threads && !Coming(h.threads[t]);
      assert Coming(g.threads[t]);
      forall u | u in h.threads && Coming(h.threads[u])
        ensures h.threads[u].errand.job != j
      {
        assert u != t;
      }
    } else {
      FewerListed(g, h);
    }
  }

  lemma {:induction false} PlayKeepsNewcomers(g: Server, events: seq<Event>)
    requires Newcomers(g) && Play(g, events).Some?
    ensures Newcomers(Play(g, events).value)
    decreases |events|
  {
    hide Happen, Newcomers, ListStep, ComingStep;
    if events != [] {
      EventList(g, events[0]);
      NewcomersKept(g, Happen(g, events[0]).value);
      PlayKeepsNewcomers(Happen(g, events[0]).value, events[1..]);
    }
  }

  /** The jobs of `old` are known, and none of them is about to be listed. */
  ghost predicate Settled(g: Server, listed: seq<nat>) {
    && (forall j :: j in listed ==> j in g.uuid)
    && (forall t :: t in g.threads && Coming(g.threads[t]) ==> g.threads[t].errand.job !in listed)
  }

  lemma SettledKept(g: Server, h: Server, listed: seq<nat>)
    requires Settled(g, listed) && ComingStep(g, h)
    ensures Settled(h, listed)
  {
  }

  // ---------------------------------------------------------------- keeping and joining

  lemma {:induction false} KeepConcat(xs: seq<nat>, ys: seq<nat>, keep: set<nat>)
    ensures Keep(xs + ys, keep) == Keep(xs, keep) + Keep(ys, keep)
  {
    if ys == [] {
      assert xs + ys == xs;
    } else {
      KeepConcat(xs, ys[..|ys| - 1], keep);
      assert (xs + ys)[..|xs + ys| - 1] == xs + ys[..|ys| - 1];
    }
  }

  lemma {:induction false} KeepKeep(xs: seq<nat>, a: set<nat>, b: set<nat>)
    ensures Keep(Keep(xs, a), b) == Keep(xs, a * b)
  {
    if xs != [] {
      var front, last := xs[..|xs| - 1], xs[|xs| - 1];
      KeepKeep(front, a, b);
      if last in a {
        KeepConcat(Keep(front, a), [last], b);
        assert Keep([last], b) == if last in b then [last] else [];
      }
    }
  }

  lemma {:induction false} KeepAll(xs: seq<nat>, keep: set<nat>)
    requires forall x :: x in xs ==> x in keep
    ensures Keep(xs, keep) == xs
  {
    if xs != [] {
      KeepAll(xs[..|xs| - 1], keep);
    }
  }

  lemma {:induction false} KeepNone(xs: seq<nat>)
    ensures Keep(xs, {}) == []
  {
    if xs != [] {
      KeepNone(xs[..|xs| - 1]);
    }
  }

  /** `list` is some of `before`, in their order, and then jobs that are not of `before`. */
  ghost predicate Follows(before: seq<nat>, list: seq<nat>, keep: set<nat>, joined: seq<nat>) {
    list == Keep(before, keep) + joined && forall j :: j in joined ==> j !in before
  }

  lemma StepFollows(g: Server, h: Server, before: seq<nat>, keep: set<nat>, joined: seq<nat>)
    returns (keep': set<nat>, joined': seq<nat>)
    requires ListStep(g, h) && Settled(g, before) && Follows(before, g.list, keep, joined)
    ensures Follows(before, h.list, keep', joined')
  {
    if h.list == g.list {
      keep', joined' := keep, joined;
    } else if j :| Joins(g, h, j) {
      keep', joined' := keep, joined + [j];
    } else if j :| h.list == Without(g.list, j) {
      var others := (set x | x in g.list) - {j};
      WithoutKeepsOrder(g.list, j, others);
      KeepConcat(Keep(before, keep), joined, others);
      KeepKeep(before, keep, others);
      keep', joined' := keep * others, Keep(joined, others);
    } else {
      keep', joined' := {}, [];
      KeepNone(before);
    }
  }

  lemma {:induction false} PlayFollows(g: Server, events: seq<Event>, before: seq<nat>, keep: set<nat>,
                                     joined: seq<nat>)
    returns (keep': set<nat>, joined': seq<nat>)
    requires Settled(g, before) && Follows(before, g.list, keep, joined) && Play(g, events).Some?
    ensures Follows(before, Play(g, events).value.list, keep', joined')
    decreases |events|
  {
    hide Happen, Settled, ListStep, ComingStep, Follows;
    if events == [] {
      keep', joined' := keep, joined;
    } else {
      var h := Happen(g, events[0]).value;
      EventList(g, events[0]);
      SettledKept(g, h, before);
      keep', joined' := StepFollows(g, h, before, keep, joined);
      keep', joined' := PlayFollows(h, events[1..], before, keep', joined');
    }
  }

  /** From any reachable state on: the jobs still listed that were listed then come first, in
      their order of then, and only jobs that were not listed then follow. */
  lemma InsertionOrder(max: int, past: seq<Event>, events: seq<Event>) returns (keep: set<nat>, joined: seq<nat>)
    requires Play(Boot(max), past).Some? && Play(Play(Boot(max), past).value, events).Some?
    ensures
      var g := Play(Boot(max), past).value;
      Follows(g.list, Play(g, events).value.list, keep, joined)
  {
    hide Play;
    PlayKeepsNewcomers(Boot(max), past);
    var g := Play(Boot(max), past).value;
    var all := set j | j in g.list;
    KeepAll(g.list, all);
    keep, joined := PlayFollows(g, events, g.list, all, []);
  }
}
