/** The limit in force is the one last set, and the history that the theorems about the server
    speak of is that of the run: which starts and closes came from outside, and whether the
    limit was lowered (rinser/uimaxconcurrent.go:28-30, rinser/settings.go:72). */
module RinseSettings {
  import opened JobSteps
  import opened Registry
  import opened RinseSteps
  import opened RinseTheorems
  import opened Scheduler

  /** The limit after an event. */
  function Setting(max: int, e: Event): int {
    if e.SetMax? && e.n > 0 then e.n else max
  }

  /** The limit after all of them. */
  function Limit(max: int, events: seq<Event>): int
    decreases |events|
  {
    if events == [] then max else Limit(Setting(max, events[0]), events[1..])
  }

  /** At some point the limit is set to less than it was. */
  predicate Lowered(max: int, events: seq<Event>)
    decreases |events|
  {
    events != [] && (Setting(max, events[0]) < max || Lowered(Setting(max, events[0]), events[1..]))
  }

  /** The event closes, from outside, a job that is listed or about to be. */
  ghost predicate Strays(g: Server, e: Event) {
    e.OutsideClose? && (e.job in g.list || ComingJob(g, e.job))
  }

  ghost predicate Strayed(g: Server, events: seq<Event>)
    requires Play(g, events).Some?
    decreases |events|
  {
    events != [] && (Strays(g, events[0]) || Strayed(Happen(g, events[0]).value, events[1..]))
  }

  /** What an event does to the limit and to the history. */
  ghost predicate Records(g: Server, e: Event, h: Server) {
    && h.max == Setting(g.max, e)
    && (h.past.lowered <==> g.past.lowered || Setting(g.max, e) < g.max)
    && (h.past.outside <==> g.past.outside || e.OutsideStart?)
    && (h.past.stray <==> g.past.stray || Strays(g, e))
  }

  ghost predicate SameRecord(g: Server, h: Server) {
    h.max == g.max && h.past == g.past
  }

  lemma EnterRecord(g: Server, t: nat, e: Errand)
    requires Enter(g, t, e).Some?
    ensures SameRecord(g, Enter(g, t, e).value)
  {
    hide HasUuid;
  }

  lemma ScanRecord(g: Server, t: nat, pc: Pc, call: nat, due: bool)
    requires pc.Scanning?
    ensures pc.i < |g.list| ==> SameRecord(g, ScanOne(g, t, pc, due))
    ensures ScanEnd(g, t, pc, call).Some? ==> SameRecord(g, ScanEnd(g, t, pc, call).value)
  {
    hide Apply, Read, StateOf;
  }

  lemma BeginRecord(g: Server, t: nat, j: nat, call: nat, after: Pc)
    requires BeginClose(g, t, j, call, after).Some?
    ensures SameRecord(g, BeginClose(g, t, j, call, after).value)
  {
    hide Apply;
  }

  lemma ErrandRecord(g: Server, t: nat, pc: Pc, call: nat, due: bool)
    requires OnErrand(pc) && ErrandStep(g, t, pc, call, due).Some?
    ensures SameRecord(g, ErrandStep(g, t, pc, call, due).value)
  {
    hide Enter, ScanOne, ScanEnd, StartReturned;
    if pc.Want? {
      EnterRecord(g, t, pc.errand);
    } else if pc.Scanning? {
      ScanRecord(g, t, pc, call, due);
    }
  }

  lemma RemoveRecord(g: Server, t: nat, pc: Pc, call: nat)
    requires OnRemoval(pc) && RemoveStep(g, t, pc, call).Some?
    ensures SameRecord(g, RemoveStep(g, t, pc, call).value)
  {
    hide BeginClose, CloseReturned, Without;
    if pc.RemClosing? {
      BeginRecord(g, t, pc.queue[0], call, RemWaiting(pc.queue, pc.gone, call));
    }
  }

  lemma ShutdownRecord(g: Server, t: nat, pc: Pc, call: nat)
    requires !OnErrand(pc) && !OnRemoval(pc) && ShutdownStep(g, t, pc, call).Some?
    ensures SameRecord(g, ShutdownStep(g, t, pc, call).value)
  {
    hide BeginClose, CloseReturned;
    if pc.Closing? {
      BeginRecord(g, t, pc.taken[pc.i], call, CloseWaiting(pc.taken, pc.i, call));
    }
  }

  lemma EventRecord(g: Server, e: Event)
    requires Happen(g, e).Some?
    ensures Records(g, e, Happen(g, e).value)
  {
    hide Apply, ErrandStep, RemoveStep, ShutdownStep, ComingJob;
    if e.Move? {
      var pc := g.threads[e.thread];
      if OnErrand(pc) {
        ErrandRecord(g, e.thread, pc, e.call, e.due);
      } else if OnRemoval(pc) {
        RemoveRecord(g, e.thread, pc, e.call);
      } else {
        ShutdownRecord(g, e.thread, pc, e.call);
      }
    } else {
      hide MoveStep;
    }
  }

  /** In every run, the limit is the one last set, and the history is that of the run. */
  lemma {:induction false} HistoryMeans(g: Server, events: seq<Event>)
    requires Play(g, events).Some?
    ensures
      var h := Play(g, events).value;
      && h.max == Limit(g.max, events)
      && (h.past.lowered <==> g.past.lowered || Lowered(g.max, events))
      && (h.past.outside <==> g.past.outside || exists k :: 0 <= k < |events| && events[k].OutsideStart?)
      && (h.past.stray <==> g.past.stray || Strayed(g, events))
    decreases |events|
  {
    hide Happen, Setting, Strays;
    if events != [] {
      EventRecord(g, events[0]);
      HistoryMeans(Happen(g, events[0]).value, events[1..]);
      if k :| 0 <= k < |events| && events[k].OutsideStart? {
        assert k == 0 || events[1..][k - 1].OutsideStart?;
      }
      if k :| 0 <= k < |events[1..]| && events[1..][k].OutsideStart? {
        assert events[k + 1].OutsideStart?;
      }
    }
  }

  /** So, in terms of the events alone: if no job is started from outside and the limit is never
      lowered, the jobs that run, and those that are being processed, are no more than the limit
      last set, which is at least one. */
  lemma LimitHoldsAsSet(max: int, events: seq<Event>)
    requires Play(Boot(max), events).Some?
    requires forall k :: 0 <= k < |events| ==> !events[k].OutsideStart?
    requires !Lowered(if max < 1 then 1 else max, events)
    ensures
      var g, limit := Play(Boot(max), events).value, Limit(if max < 1 then 1 else max, events);
      g.max == limit >= 1 && CountRunning(ListStates(g)) <= limit && |WorkingAmong(g, g.list)| <= limit
  {
    HistoryMeans(Boot(max), events);
    LimitHolds(max, events);
    LimitHoldsForProcesses(max, events);
    NeverBelow(if max < 1 then 1 else max, events);
    hide Play;
  }

  lemma {:induction false} NeverBelow(max: int, events: seq<Event>)
    requires max >= 1
    ensures Limit(max, events) >= 1
    decreases |events|
  {
    if events != [] {
      NeverBelow(Setting(max, events[0]), events[1..]);
    }
  }
}
