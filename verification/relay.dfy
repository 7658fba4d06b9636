/** Running a command in the sandbox: two goroutines scan its output streams and offer each
    line on an unbuffered channel, and one select loop hands the lines to a handler until the
    handler fails, the context is done, or standard output ends (rinser/runsc.go:79-131). */
module Relay {
  import opened Basics

  datatype Stream = Out | Errs

  datatype Failure = Context(reason: string) | Handler(reason: string) | Exit(reason: string)

  /** A scanner goroutine: the lines it has yet to hand over, or its channel closed. */
  datatype Scanner = Offering(rest: seq<string>) | Closed

  datatype Phase = Looping | Returned(err: Option<Failure>)

  /** A line given to the handler, and what the handler made of it. */
  datatype Handed = Handed(stream: Stream, line: string, err: Option<string>)

  datatype State = State(
    out: Scanner,
    errs: Scanner,
    dead: Option<string>,
    phase: Phase,
    handed: seq<Handed>)

  /** What may happen next. `verdict` is the handler's answer, `status` that of cmd.Wait. */
  datatype Step =
    | Take(stream: Stream, verdict: Option<string>)
    | OutEnded(status: Option<string>)
    | ErrsEnded
    | SeeContext
    | ScanEnds(stream: Stream)
    | ScanQuits(stream: Stream)
    | ContextDies(reason: string)

  function Started(outLines: seq<string>, errLines: seq<string>): State {
    State(Offering(outLines), Offering(errLines), None, Looping, [])
  }

  function Of(s: State, stream: Stream): Scanner {
    if stream == Out then s.out else s.errs
  }

  function With(s: State, stream: Stream, scanner: Scanner): State {
    if stream == Out then s.(out := scanner) else s.(errs := scanner)
  }

  function Wrap(reason: Option<string>, err: string -> Failure): Option<Failure> {
    if reason.None? then None else Some(err(reason.value))
  }

  predicate Enabled(s: State, step: Step) {
    match step
    case Take(stream, _) => s.phase.Looping? && Of(s, stream).Offering? && Of(s, stream).rest != []
    case OutEnded(_) => s.phase.Looping? && s.out.Closed?
    case ErrsEnded => s.phase.Looping? && s.errs.Closed?
    case SeeContext => s.phase.Looping? && s.dead.Some?
    case ScanEnds(stream) => Of(s, stream).Offering? && Of(s, stream).rest == []
    case ScanQuits(stream) => Of(s, stream).Offering? && s.dead.Some?
    case ContextDies(_) => s.dead.None?
  }

  function Next(s: State, step: Step): State
    requires Enabled(s, step)
  {
    match step
    case Take(stream, verdict) =>
      var rest := Of(s, stream).rest;
      With(s, stream, Offering(rest[1..]))
        .(handed := s.handed + [Handed(stream, rest[0], verdict)],
          phase := if verdict.Some? then Returned(Wrap(verdict, r => Handler(r))) else Looping)
    case OutEnded(status) =>
      s.(phase := Returned(if s.dead.Some? then Wrap(s.dead, r => Context(r)) else Wrap(status, r => Exit(r))))
    case ErrsEnded => s
    case SeeContext => s.(phase := Returned(Wrap(s.dead, r => Context(r))))
    case ScanEnds(stream) => With(s, stream, Closed)
    case ScanQuits(stream) => With(s, stream, Closed)
    case ContextDies(reason) => s.(dead := Some(reason))
  }

  /** Steps that are not enabled when their turn comes do not happen. */
  function Exec(s: State, steps: seq<Step>): State {
    if steps == [] then s
    else
      var front := Exec(s, steps[..|steps| - 1]);
      if Enabled(front, steps[|steps| - 1]) then Next(front, steps[|steps| - 1]) else front
  }

  // ---------------------------------------------------------------- the loop itself

  class Runner {
    var out: Scanner
    var errs: Scanner
    var dead: Option<string>
    var phase: Phase
    var handed: seq<Handed>

    ghost function View(): State
      reads this
    {
      State(out, errs, dead, phase, handed)
    }

    constructor (outLines: seq<string>, errLines: seq<string>)
      ensures View() == Started(outLines, errLines)
    {
      out, errs, dead, phase, handed := Offering(outLines), Offering(errLines), None, Looping, [];
    }

    method Hand(stream: Stream, verdict: Option<string>)
      requires Enabled(View(), Take(stream, verdict))
      modifies this
      ensures View() == Next(old(View()), Take(stream, verdict))
    {
      var line;
      if stream == Out {
        line := out.rest[0];
        out := Offering(out.rest[1..]);
      } else {
        line := errs.rest[0];
        errs := Offering(errs.rest[1..]);
      }
      handed := handed + [Handed(stream, line, verdict)];
      if verdict.Some? {
        phase := Returned(Some(Handler(verdict.value)));
      }
    }

    /** The select loop, under any schedule of the goroutines and of the outside world. */
    method Loop(schedule: seq<Step>)
      modifies this
      ensures View() == Exec(old(View()), schedule)
    {
      var i := 0;
      while i < |schedule|
        invariant 0 <= i <= |schedule|
        invariant View() == Exec(old(View()), schedule[..i])
      {
        assert schedule[..i + 1][..i] == schedule[..i];
        match schedule[i] {
          case Take(stream, verdict) =>
            var scanner := if stream == Out then out else errs;
            if phase.Looping? && scanner.Offering? && scanner.rest != [] {
              Hand(stream, verdict);
            }
          case OutEnded(status) =>
            if phase.Looping? && out.Closed? {
              if dead.Some? {
                phase := Returned(Some(Context(dead.value)));
              } else if status.Some? {
                phase := Returned(Some(Exit(status.value)));
              } else {
                phase := Returned(None);
              }
            }
          case ErrsEnded =>
          case SeeContext =>
            if phase.Looping? && dead.Some? {
              phase := Returned(Some(Context(dead.value)));
            }
          case ScanEnds(stream) =>
            if stream == Out && out.Offering? && out.rest == [] {
              out := Closed;
            } else if stream == Errs && errs.Offering? && errs.rest == [] {
              errs := Closed;
            }
          case ScanQuits(stream) =>
            if stream == Out && out.Offering? && dead.Some? {
              out := Closed;
            } else if stream == Errs && errs.Offering? && dead.Some? {
              errs := Closed;
            }
          case ContextDies(reason) =>
            if dead.None? {
              dead := Some(reason);
            }
        }
        i := i + 1;
      }
      assert schedule[..i] == schedule;
    }
  }

  // ---------------------------------------------------------------- what it promises

  /** The lines of one stream that have been handed over, in order. */
  function LinesOf(handed: seq<Handed>, stream: Stream): seq<string> {
    if handed == [] then []
    else
      var last := handed[|handed| - 1];
      LinesOf(handed[..|handed| - 1], stream) + if last.stream == stream then [last.line] else []
  }

  /** A stream's lines are those handed over and then those still offered; a closed channel
      hides a remainder only after the context was done. */
  predicate StreamOk(s: State, stream: Stream, lines: seq<string>) {
    match Of(s, stream)
    case Offering(rest) => LinesOf(s.handed, stream) + rest == lines
    case Closed => LinesOf(s.handed, stream) <= lines && (s.dead.None? ==> LinesOf(s.handed, stream) == lines)
  }

  ghost predicate HandlerOk(s: State) {
    && (forall k :: 0 <= k < |s.handed| - 1 ==> s.handed[k].err.None?)
    && (forall r :: s.phase == Returned(Some(Handler(r)))
          <==> s.handed != [] && s.handed[|s.handed| - 1].err == Some(r))
  }

  predicate ReturnOk(s: State, outLines: seq<string>) {
    s.phase == Returned(None) ==> LinesOf(s.handed, Out) == outLines
  }

  ghost predicate Inv(s: State, outLines: seq<string>, errLines: seq<string>) {
    StreamOk(s, Out, outLines) && StreamOk(s, Errs, errLines) && HandlerOk(s) && ReturnOk(s, outLines)
  }

  lemma StartHolds(outLines: seq<string>, errLines: seq<string>)
    ensures Inv(Started(outLines, errLines), outLines, errLines)
  {
  }

  lemma {:induction false} RelayInvariant(outLines: seq<string>, errLines: seq<string>, steps: seq<Step>)
    ensures Inv(Exec(Started(outLines, errLines), steps), outLines, errLines)
    decreases |steps|
  {
    hide Inv, Enabled, Next;
    StartHolds(outLines, errLines);
    if steps != [] {
      var n := |steps| - 1;
      RelayInvariant(outLines, errLines, steps[..n]);
      var s := Exec(Started(outLines, errLines), steps[..n]);
      if Enabled(s, steps[n]) {
        NextKeeps(s, steps[n], outLines, errLines);
      }
    }
  }

  lemma TakeStream(s: State, t: State, took: Stream, verdict: Option<string>, stream: Stream, lines: seq<string>)
    requires Enabled(s, Take(took, verdict)) && t == Next(s, Take(took, verdict))
    requires StreamOk(s, stream, lines)
    ensures StreamOk(t, stream, lines)
  {
  }

  lemma TakeHandler(s: State, stream: Stream, verdict: Option<string>)
    requires Enabled(s, Take(stream, verdict)) && HandlerOk(s)
    ensures HandlerOk(Next(s, Take(stream, verdict)))
  {
    hide LinesOf;
  }

  lemma NextKeeps(s: State, step: Step, outLines: seq<string>, errLines: seq<string>)
    requires Enabled(s, step) && Inv(s, outLines, errLines)
    ensures Inv(Next(s, step), outLines, errLines)
  {
    hide LinesOf, HandlerOk, StreamOk;
    if step.Take? {
      TakeStream(s, Next(s, step), step.stream, step.verdict, Out, outLines);
      TakeStream(s, Next(s, step), step.stream, step.verdict, Errs, errLines);
      TakeHandler(s, step.stream, step.verdict);
    } else {
      QuietKeeps(s, step, outLines, errLines);
    }
  }

  /** Every other step leaves the lines handed over alone. */
  lemma QuietKeeps(s: State, step: Step, outLines: seq<string>, errLines: seq<string>)
    requires Enabled(s, step) && !step.Take? && Inv(s, outLines, errLines)
    ensures Inv(Next(s, step), outLines, errLines)
  {
    hide LinesOf;
  }

  /** Whatever the interleaving, the lines handed over from each stream are an initial part of
      that stream, in order and without repetition; nothing is handed over after the handler
      has failed, and its failure is what is returned; and success means that every line
      scanned from standard output has been handed over. */
  lemma RelayMeaning(outLines: seq<string>, errLines: seq<string>, steps: seq<Step>)
    ensures
      var s := Exec(Started(outLines, errLines), steps);
      && LinesOf(s.handed, Out) <= outLines
      && LinesOf(s.handed, Errs) <= errLines
      && (forall k :: 0 <= k < |s.handed| - 1 ==> s.handed[k].err.None?)
      && (forall r :: s.phase == Returned(Some(Handler(r)))
            <==> s.handed != [] && s.handed[|s.handed| - 1].err == Some(r))
      && (s.phase == Returned(None) ==> LinesOf(s.handed, Out) == outLines)
  {
    RelayInvariant(outLines, errLines, steps);
  }

  /** Once returned, the loop has no further effect. */
  lemma {:induction false} ReturnIsFinal(s: State, steps: seq<Step>)
    requires s.phase.Returned?
    ensures Exec(s, steps).phase == s.phase && Exec(s, steps).handed == s.handed
    decreases |steps|
  {
    if steps != [] {
      ReturnIsFinal(s, steps[..|steps| - 1]);
    }
  }

  // ---------------------------------------------------------------- what the answer means

  /** The step ends the loop in s with this answer: a handler's error; the context's error where
      the context is done; and, once standard output has ended with the context alive, the exit
      status of the command. */
  predicate Decides(s: State, step: Step, answer: Option<Failure>) {
    s.phase.Looping? &&
    match step
    case Take(stream, verdict) =>
      Of(s, stream).Offering? && Of(s, stream).rest != [] && verdict.Some? && answer == Some(Handler(verdict.value))
    case SeeContext => s.dead.Some? && answer == Some(Context(s.dead.value))
    case OutEnded(status) =>
      s.out.Closed? && (
        if s.dead.Some? then answer == Some(Context(s.dead.value))
        else if status.Some? then answer == Some(Exit(status.value))
        else answer.None?)
    case _ => false
  }

  lemma OneAnswers(s: State, step: Step, answer: Option<Failure>)
    requires s.phase.Looping?
    ensures
      var t := if Enabled(s, step) then Next(s, step) else s;
      t.phase == Returned(answer) <==> Decides(s, step, answer)
  {
  }

  /** The k-th step of the schedule, at its turn. */
  predicate DecidesAt(s: State, steps: seq<Step>, k: nat, answer: Option<Failure>) {
    k < |steps| && Decides(Exec(s, steps[..k]), steps[k], answer)
  }

  /** The loop gives an answer exactly when some step of the schedule decided on it. */
  lemma {:induction false} AnswerMeans(s: State, steps: seq<Step>, answer: Option<Failure>)
    requires s.phase.Looping?
    ensures Exec(s, steps).phase == Returned(answer) <==> exists k: nat :: DecidesAt(s, steps, k, answer)
    decreases |steps|
  {
    hide Enabled, Next, Decides;
    if steps != [] {
      var n := |steps| - 1;
      var front := Exec(s, steps[..n]);
      AnswerMeans(s, steps[..n], answer);
      EarlierAnswers(s, steps, answer);
      if front.phase.Looping? {
        OneAnswers(front, steps[n], answer);
        assert DecidesAt(s, steps, n, answer) <==> Decides(front, steps[n], answer);
      } else {
        ReturnedStays(front, steps[n]);
        NothingDecides(front, steps[n], answer);
      }
    }
  }

  lemma ReturnedStays(s: State, step: Step)
    requires s.phase.Returned?
    ensures Enabled(s, step) ==> Next(s, step).phase == s.phase
  {
  }

  lemma NothingDecides(s: State, step: Step, answer: Option<Failure>)
    requires s.phase.Returned?
    ensures !Decides(s, step, answer)
  {
  }

  /** The steps before the last decide the same in the shorter schedule. */
  lemma EarlierAnswers(s: State, steps: seq<Step>, answer: Option<Failure>)
    requires steps != []
    ensures
      var n := |steps| - 1;
      forall k: nat :: k < n ==> (DecidesAt(s, steps, k, answer) <==> DecidesAt(s, steps[..n], k, answer))
  {
    hide Exec, Decides;
    var n := |steps| - 1;
    forall k: nat | k < n
      ensures DecidesAt(s, steps, k, answer) <==> DecidesAt(s, steps[..n], k, answer)
    {
      assert steps[..n][..k] == steps[..k];
    }
  }

  /** So a command's run succeeds exactly when the command's own exit was waited for, with the
      context alive, and was a success. */
  lemma SuccessMeans(outLines: seq<string>, errLines: seq<string>, steps: seq<Step>)
    ensures
      var s0 := Started(outLines, errLines);
      Exec(s0, steps).phase == Returned(None)
      <==> exists k: nat :: k < |steps| && steps[k] == OutEnded(None)
                            && Exec(s0, steps[..k]).phase.Looping? && Exec(s0, steps[..k]).out.Closed?
                            && Exec(s0, steps[..k]).dead.None?
  {
    hide Exec;
    var s0 := Started(outLines, errLines);
    AnswerMeans(s0, steps, None);
    forall k: nat | k < |steps|
      ensures
        var s := Exec(s0, steps[..k]);
        DecidesAt(s0, steps, k, None)
        <==> steps[k] == OutEnded(None) && s.phase.Looping? && s.out.Closed? && s.dead.None?
    {
    }
  }

  /** The context is done for the reason first given, if for any. */
  lemma {:induction false} ContextMeans(outLines: seq<string>, errLines: seq<string>, steps: seq<Step>)
    ensures
      var dead := Exec(Started(outLines, errLines), steps).dead;
      && (dead.None? <==> forall k :: 0 <= k < |steps| ==> !steps[k].ContextDies?)
      && (dead.Some? ==>
            exists k :: 0 <= k < |steps| && steps[k] == ContextDies(dead.value)
                        && forall i :: 0 <= i < k ==> !steps[i].ContextDies?)
    decreases |steps|
  {
    if steps != [] {
      var n := |steps| - 1;
      ContextMeans(outLines, errLines, steps[..n]);
      var front := Exec(Started(outLines, errLines), steps[..n]);
      ContextOnce(front, steps[n]);
      hide Exec, Enabled, Next;
    }
  }

  lemma ContextOnce(s: State, step: Step)
    ensures
      var t := if Enabled(s, step) then Next(s, step) else s;
      t.dead == if s.dead.None? && step.ContextDies? then Some(step.reason) else s.dead
  {
  }

  /** Taking standard output line by line, and nothing else. */
  function Takes(k: nat): seq<Step> {
    if k == 0 then [] else Takes(k - 1) + [Take(Out, None)]
  }

  lemma ExecMore(s: State, steps: seq<Step>, step: Step)
    ensures
      var t := Exec(s, steps);
      Exec(s, steps + [step]) == if Enabled(t, step) then Next(t, step) else t
  {
    hide Enabled, Next;
    assert (steps + [step])[..|steps|] == steps;
  }

  /** Some lines of standard output have been handed over, without complaint, and nothing else. */
  ghost predicate OutputOnly(s: State, rest: seq<string>, errLines: seq<string>) {
    s == State(Offering(rest), Offering(errLines), None, Looping, s.handed) && LinesOf(s.handed, Errs) == []
  }

  lemma TakeOne(s: State, rest: seq<string>, errLines: seq<string>)
    requires OutputOnly(s, rest, errLines) && rest != []
    ensures Enabled(s, Take(Out, None)) && OutputOnly(Next(s, Take(Out, None)), rest[1..], errLines)
  {
    var item := Handed(Out, rest[0], None);
    assert (s.handed + [item])[..|s.handed|] == s.handed;
  }

  lemma {:induction false} TakesOutput(outLines: seq<string>, errLines: seq<string>, k: nat)
    requires k <= |outLines|
    ensures OutputOnly(Exec(Started(outLines, errLines), Takes(k)), outLines[k..], errLines)
  {
    hide Exec, Enabled, Next, OutputOnly;
    if k == 0 {
      NothingTaken(outLines, errLines);
    } else {
      TakesOutput(outLines, errLines, k - 1);
      var s := Exec(Started(outLines, errLines), Takes(k - 1));
      TakeOne(s, outLines[k - 1..], errLines);
      ExecMore(Started(outLines, errLines), Takes(k - 1), Take(Out, None));
      assert outLines[k - 1..][1..] == outLines[k..];
    }
  }

  lemma NothingTaken(outLines: seq<string>, errLines: seq<string>)
    ensures Takes(0) == [] && OutputOnly(Exec(Started(outLines, errLines), []), outLines[0..], errLines)
  {
    assert outLines[0..] == outLines;
  }

  lemma EndOutput(s: State, errLines: seq<string>)
    requires OutputOnly(s, [], errLines)
    ensures Enabled(s, ScanEnds(Out)) && Enabled(Next(s, ScanEnds(Out)), OutEnded(None))
    ensures
      var t := Next(Next(s, ScanEnds(Out)), OutEnded(None));
      t.phase == Returned(None) && LinesOf(t.handed, Errs) == []
  {
  }

  /** Whatever the streams hold, a run may succeed without reading any of standard error. */
  lemma ErrorLinesMayBeLost(outLines: seq<string>, errLines: seq<string>) returns (steps: seq<Step>)
    ensures
      var s := Exec(Started(outLines, errLines), steps);
      s.phase == Returned(None) && LinesOf(s.handed, Errs) == []
  {
    hide Exec, Enabled, Next, OutputOnly;
    var s0, takes := Started(outLines, errLines), Takes(|outLines|);
    TakesOutput(outLines, errLines, |outLines|);
    assert outLines[|outLines|..] == [];
    EndOutput(Exec(s0, takes), errLines);
    ExecMore(s0, takes, ScanEnds(Out));
    ExecMore(s0, takes + [ScanEnds(Out)], OutEnded(None));
    steps := takes + [ScanEnds(Out)] + [OutEnded(None)];
  }

  /** Success hands over all of standard error. */
  ghost predicate SuccessReadsErrors(outLines: seq<string>, errLines: seq<string>) {
    forall steps ::
      var s := Exec(Started(outLines, errLines), steps);
      s.phase == Returned(None) ==> LinesOf(s.handed, Errs) == errLines
  }

  /** That is promised exactly when there is nothing on standard error. */
  lemma ErrorLinesAreSafeOnlyIfNone(outLines: seq<string>, errLines: seq<string>)
    ensures SuccessReadsErrors(outLines, errLines) <==> errLines == []
  {
    hide Exec;
    var lost := ErrorLinesMayBeLost(outLines, errLines);
    if errLines == [] {
      forall steps
        ensures LinesOf(Exec(Started(outLines, errLines), steps).handed, Errs) == errLines
      {
        RelayMeaning(outLines, errLines, steps);
      }
    }
  }
}
