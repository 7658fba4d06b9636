/** Which waiting job starts next: the two loops that decide it, and what they decide
    (rinser/rinse.go:220-245, 392-409). */
module Scheduler {
  import opened Basics
  import opened JobCore

  /** A job holds one of the concurrency slots. */
  predicate Running(st: JobState) {
    st != New && !Terminal(st)
  }

  /** What a scan of the list has gathered: the running jobs so far, the first waiting one. */
  datatype Scan = Scan(running: nat, next: Option<nat>)

  const BLANK := Scan(0, None)

  function Read(sc: Scan, i: nat, st: JobState): Scan {
    if st == New then sc.(next := if sc.next.None? then Some(i) else sc.next)
    else if Terminal(st) then sc
    else sc.(running := sc.running + 1)
  }

  function ScanAll(states: seq<JobState>): Scan {
    if states == [] then BLANK
    else
      var n := |states| - 1;
      Read(ScanAll(states[..n]), n, states[n])
  }

  /** runTasks: count every running job, then compare. */
  function PickTasks(states: seq<JobState>, max: int): Option<nat> {
    var sc := ScanAll(states);
    if sc.running < max then sc.next else None
  }

  /** nextJobLocked: give up as soon as the limit is met. */
  function EarlyFrom(states: seq<JobState>, max: int, i: nat, sc: Scan): Option<nat>
    requires i <= |states|
    decreases |states| - i
  {
    if i == |states| then sc.next
    else
      var sc' := Read(sc, i, states[i]);
      if Running(states[i]) && sc'.running >= max then None
      else EarlyFrom(states, max, i + 1, sc')
  }

  function PickEarly(states: seq<JobState>, max: int): Option<nat> {
    EarlyFrom(states, max, 0, BLANK)
  }

  function CountRunning(states: seq<JobState>): nat {
    if states == [] then 0
    else CountRunning(states[..|states| - 1]) + if Running(states[|states| - 1]) then 1 else 0
  }

  predicate FirstWaiting(states: seq<JobState>, next: Option<nat>) {
    match next
    case None => New !in states
    case Some(i) => i < |states| && states[i] == New && New !in states[..i]
  }

  lemma {:induction false} ScanMeaning(states: seq<JobState>)
    ensures ScanAll(states).running == CountRunning(states)
    ensures FirstWaiting(states, ScanAll(states).next)
  {
    if states != [] {
      var n := |states| - 1;
      var front := states[..n];
      assert states == front + [states[n]];
      ScanMeaning(front);
      var next := ScanAll(front).next;
      if next.Some? {
        assert states[..next.value] == front[..next.value];
      }
    }
  }

  lemma {:induction false} EarlyMeaning(states: seq<JobState>, max: int, i: nat)
    requires i <= |states|
    requires CountRunning(states[..i]) < max || CountRunning(states[..i]) == 0
    ensures
      var sc := ScanAll(states);
      EarlyFrom(states, max, i, ScanAll(states[..i]))
      == if sc.running < max || sc.running == 0 then sc.next else None
    decreases |states| - i
  {
    ScanMeaning(states);
    if i == |states| {
      assert states[..i] == states;
    } else {
      var front := states[..i + 1];
      assert front[..i] == states[..i];
      ScanMeaning(states[..i]);
      ScanMeaning(front);
      if Running(states[i]) && CountRunning(front) >= max {
        CountMonotone(states, i + 1);
      } else {
        EarlyMeaning(states, max, i + 1);
      }
    }
  }

  lemma {:induction false} CountMonotone(states: seq<JobState>, i: nat)
    requires i <= |states|
    ensures CountRunning(states[..i]) <= CountRunning(states)
    decreases |states| - i
  {
    if i < |states| {
      assert states[..i + 1][..i] == states[..i];
      CountMonotone(states, i + 1);
    } else {
      assert states[..i] == states;
    }
  }

  /** The early exit picks the job that counting everything picks, on every list, exactly
      when the limit is at least one (or the difference cannot show). */
  lemma SelectionRefinement(states: seq<JobState>, max: int)
    ensures PickEarly(states, max) == PickTasks(states, max)
            <==> max >= 1 || CountRunning(states) > 0 || New !in states
  {
    assert states[..0] == [];
    EarlyMeaning(states, max, 0);
    ScanMeaning(states);
  }

  /** What any pick means: a free slot, and the first waiting job. */
  lemma PickMeaning(states: seq<JobState>, max: int)
    ensures PickTasks(states, max).Some? <==> CountRunning(states) < max && New in states
    ensures PickTasks(states, max).Some? ==> FirstWaiting(states, PickTasks(states, max))
  {
    ScanMeaning(states);
  }

  // ---------------------------------------------------------------- first in, first out

  /** The positions of the waiting jobs, in list order. */
  function Waiting(states: seq<JobState>): (w: seq<nat>)
    ensures forall k :: 0 <= k < |w| ==> w[k] < |states|
  {
    if states == [] then []
    else
      var n := |states| - 1;
      Waiting(states[..n]) + if states[n] == New then [n] else []
  }

  /** One call of runTasks while no job moves by itself. */
  function Turn(states: seq<JobState>, max: int): (r: seq<JobState>)
    ensures |r| == |states|
  {
    var p := PickTasks(states, max);
    if p.Some? && p.value < |states| then states[p.value := Starting] else states
  }

  function Turns(states: seq<JobState>, max: int, k: nat): (r: seq<JobState>)
    ensures |r| == |states|
    decreases k
  {
    if k == 0 then states else Turns(Turn(states, max), max, k - 1)
  }

  function StartAll(states: seq<JobState>, which: seq<nat>): (r: seq<JobState>)
    requires forall k :: 0 <= k < |which| ==> which[k] < |states|
    ensures |r| == |states|
    ensures forall i :: 0 <= i < |states| ==> r[i] == if i in which then Starting else states[i]
  {
    seq(|states|, i requires 0 <= i < |states| => if i in which then Starting else states[i])
  }

  lemma {:induction false} WaitingMeaning(states: seq<JobState>, i: nat)
    ensures i in Waiting(states) <==> i < |states| && states[i] == New
  {
    if states != [] {
      WaitingMeaning(states[..|states| - 1], i);
    }
  }

  /** The scan's candidate heads the waiting list. */
  lemma {:induction false} WaitingHead(states: seq<JobState>)
    ensures ScanAll(states).next == if Waiting(states) == [] then None else Some(Waiting(states)[0])
  {
    if states != [] {
      WaitingHead(states[..|states| - 1]);
    }
  }

  /** Only job i differs: it was waiting and has been started. */
  ghost predicate Started(states: seq<JobState>, after: seq<JobState>, i: nat) {
    && i < |states| == |after|
    && states[i] == New && after[i] == Starting
    && forall k :: 0 <= k < |states| && k != i ==> after[k] == states[k]
  }

  /** Starting the head of the waiting list takes it off that list. */
  lemma {:induction false} WaitingAfterStart(states: seq<JobState>, after: seq<JobState>, head: nat)
    requires Started(states, after, head) && New !in states[..head]
    ensures Waiting(states) == [head] + Waiting(after)
  {
    var n := |states| - 1;
    if head == n {
      assert states[..n] == after[..n];
      NoneWaiting(states[..n]);
    } else {
      assert states[..n][..head] == states[..head];
      WaitingAfterStart(states[..n], after[..n], head);
    }
  }

  lemma {:induction false} NoneWaiting(states: seq<JobState>)
    requires New !in states
    ensures Waiting(states) == []
  {
    if states != [] {
      NoneWaiting(states[..|states| - 1]);
    }
  }

  lemma {:induction false} CountAfterStart(states: seq<JobState>, after: seq<JobState>, i: nat)
    requires Started(states, after, i)
    ensures CountRunning(after) == CountRunning(states) + 1
  {
    var n := |states| - 1;
    if i == n {
      assert states[..n] == after[..n];
    } else {
      CountAfterStart(states[..n], after[..n], i);
    }
  }

  function FreeSlots(states: seq<JobState>, max: int): nat {
    if max < CountRunning(states) then 0 else max - CountRunning(states)
  }

  /** How many jobs k undisturbed calls of runTasks start. */
  function Served(states: seq<JobState>, max: int, k: nat): (m: nat)
    ensures m <= |Waiting(states)|
  {
    Min(k, Min(FreeSlots(states, max), |Waiting(states)|))
  }

  /** Exactly the first m waiting jobs have been started, and no other job has changed. */
  ghost predicate FirstServed(states: seq<JobState>, m: nat, after: seq<JobState>)
    requires m <= |Waiting(states)|
  {
    && after == StartAll(states, Waiting(states)[..m])
    && Waiting(after) == Waiting(states)[m..]
  }

  lemma ServeOneMore(states: seq<JobState>, next: seq<JobState>, m: nat, after: seq<JobState>)
    requires ScanAll(states).next.Some? && Started(states, next, ScanAll(states).next.value)
    requires m <= |Waiting(next)| && FirstServed(next, m, after)
    ensures |Waiting(states)| == |Waiting(next)| + 1 && FirstServed(states, m + 1, after)
  {
    var head := ScanAll(states).next.value;
    ScanMeaning(states);
    WaitingAfterStart(states, next, head);
    var w := Waiting(states);
    assert w[..m + 1] == [head] + Waiting(next)[..m];
    assert w[m + 1..] == Waiting(next)[m..];
    assert after == StartAll(states, w[..m + 1]);
  }

  lemma NoneServed(states: seq<JobState>)
    ensures FirstServed(states, 0, states)
  {
  }

  /** A turn starts the head of the waiting list exactly when that leaves a turn to count. */
  lemma TurnServes(states: seq<JobState>, max: int, k: nat)
    requires k > 0
    ensures var next := Turn(states, max);
            if Served(states, max, k) == 0 then next == states
            else
              && ScanAll(states).next.Some? && Started(states, next, ScanAll(states).next.value)
              && Served(states, max, k) == Served(next, max, k - 1) + 1
  {
    ScanMeaning(states);
    WaitingHead(states);
    if Served(states, max, k) != 0 {
      var next := Turn(states, max);
      var head := ScanAll(states).next.value;
      WaitingAfterStart(states, next, head);
      CountAfterStart(states, next, head);
    }
  }

  /** With f free slots and n waiting jobs, k calls start exactly the first min(k, f, n) of
      the waiting jobs, in list order, and touch no other. */
  lemma {:induction false} FifoTurns(states: seq<JobState>, max: int, k: nat)
    ensures FirstServed(states, Served(states, max, k), Turns(states, max, k))
    decreases k
  {
    hide FirstServed, Turn, Started;
    if k == 0 {
      NoneServed(states);
    } else {
      var next := Turn(states, max);
      TurnServes(states, max, k);
      FifoTurns(next, max, k - 1);
      if Served(states, max, k) != 0 {
        ServeOneMore(states, next, Served(next, max, k - 1), Turns(states, max, k));
      } else {
        assert Served(states, max, k - 1) == 0;
      }
    }
  }

  function Min(a: nat, b: nat): nat {
    if a < b then a else b
  }
}
