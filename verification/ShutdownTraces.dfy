/**
 What a whole shutdown comes to: whether it reports an error is decided by what the engines answered along the
 way, and once it has begun it always has a step to take until it returns.
 */
module ShutdownTraces {
  import opened Basics
  import opened MapSum
  import opened Shutdown

  // ---------------------------------------------------------------- what the engines answered

  /** The early stop of the engine saved its pause, sent the request and was acknowledged. */
  predicate EarlyAnswered(done: seq<Step>, id: nat) {
    TaskAsk(id, true, true) in done && TaskEnd(id, true) in done
  }

  /** So did the shutdown itself. */
  predicate CloseAnswered(done: seq<Step>, id: nat) {
    CloseAsk(id, true, true, true) in done
  }

  /** The engine exited in time and its recovery was committed. */
  predicate ExitedWell(done: seq<Step>, id: nat) {
    CloseFinish(id, true, true, true) in done || CloseFinish(id, true, false, true) in done
  }

  /** The member ended as it should: asked once with success, still waited for, and gone in time. */
  ghost predicate EndsWell(done: seq<Step>, s: Sys, id: nat) {
    && id in s.engines && !s.engines[id].joined
    && (EarlyAnswered(done, id) || CloseAnswered(done, id)) && ExitedWell(done, id)
  }

  /** The early stop's task knows what it was answered. */
  ghost predicate TaskTraced(done: seq<Step>, s: Sys, id: nat) {
    if id !in s.early || s.early[id].Spawned? then TaskAsk(id, true, true) !in done && TaskEnd(id, true) !in done
    else match s.early[id]
      case Sent(asked) => (asked <==> TaskAsk(id, true, true) in done) && TaskEnd(id, true) !in done
      case Ended(acked) => acked <==> EarlyAnswered(done, id)
  }

  /** The shutdown knows what it was answered, and which members ended as they should. */
  ghost predicate CloseTraced(done: seq<Step>, s: Sys, id: nat) {
    if id !in s.close || s.close[id].AwaitingEarly? || s.close[id].Stopping? then
      !CloseAnswered(done, id) && !ExitedWell(done, id)
    else match s.close[id]
      case AskedToStop(acked) => (acked <==> CloseAnswered(done, id)) && !ExitedWell(done, id)
      case Closed(clean) => clean <==> EndsWell(done, s, id)
  }

  ghost predicate Traced(done: seq<Step>, s: Sys) {
    forall id: nat :: TaskTraced(done, s, id) && CloseTraced(done, s, id)
  }

  /** The step neither is about the engine's stop nor changes it. */
  ghost predicate Spares(s: Sys, step: Step, t: Sys, id: nat) {
    && !((step.TaskAsk? || step.TaskEnd? || step.CloseAsk? || step.CloseFinish?) && step.id == id)
    && (id in t.early <==> id in s.early) && (id in s.early ==> t.early[id] == s.early[id])
    && (id in t.close <==> id in s.close) && (id in s.close ==> t.close[id] == s.close[id])
    && (id in s.close ==> id in s.engines && id in t.engines && t.engines[id].joined == s.engines[id].joined)
  }

  lemma SparedTraced(done: seq<Step>, s: Sys, step: Step, t: Sys, id: nat)
    requires TaskTraced(done, s, id) && CloseTraced(done, s, id) && Spares(s, step, t, id)
    ensures TaskTraced(done + [step], t, id) && CloseTraced(done + [step], t, id)
  {
    assert EarlyAnswered(done + [step], id) == EarlyAnswered(done, id);
    assert CloseAnswered(done + [step], id) == CloseAnswered(done, id);
    assert ExitedWell(done + [step], id) == ExitedWell(done, id);
  }

  lemma CommandSpares(s: Sys, step: Step, id: nat)
    requires Inv(s) && Enabled(s, step) && OfCommand(step)
    ensures Spares(s, step, CommandStep(s, step), id)
  {
    assert id in s.close ==> id in s.engines;
    CommandLeavesStops(s, step);
  }

  /** Early stops, members' ends and callers stay as they are, and no engine loses its handle, its symbol or its retirement. */
  ghost predicate LeavesStops(s: Sys, t: Sys) {
    && t.early == s.early && t.close == s.close && t.callers == s.callers
    && forall id | id in s.engines :: id in t.engines && SameHandle(s.engines[id], t.engines[id])
  }

  predicate SameHandle(e: Engine, f: Engine) {
    f.joined == e.joined && f.symbol == e.symbol && (e.retired ==> f.retired)
  }

  lemma CommandLeavesStops(s: Sys, step: Step)
    requires Enabled(s, step) && OfCommand(step)
    ensures LeavesStops(s, CommandStep(s, step))
  {
    if OfAdd(step) {
      AddLeavesStops(s, step);
    } else if OfRemoval(step) {
      RemovalLeavesStops(s, step);
    } else {
      OutcomeLeavesStops(s, step);
    }
  }

  lemma AddLeavesStops(s: Sys, step: Step)
    requires Enabled(s, step) && OfAdd(step)
    ensures LeavesStops(s, CommandStep(s, step))
  {
  }

  lemma RemovalLeavesStops(s: Sys, step: Step)
    requires Enabled(s, step) && OfRemoval(step)
    ensures LeavesStops(s, CommandStep(s, step))
  {
    if step.Retire? || step.AskRemoved? || step.StopRemoved? {
      assert forall id | id in s.engines && id != s.command.target :: CommandStep(s, step).engines[id] == s.engines[id];
    } else {
      assert CommandStep(s, step).engines == s.engines;
    }
  }

  lemma OutcomeLeavesStops(s: Sys, step: Step)
    requires Enabled(s, step) && OfOutcome(step)
    ensures LeavesStops(s, CommandStep(s, step))
  {
  }

  ghost predicate AboutStop(step: Step) {
    OfTask(step) || OfClose(step) || step.EarlyConsider?
  }

  lemma OtherMainSpares(s: Sys, step: Step, id: nat)
    requires Inv(s) && Enabled(s, step) && !OfCommand(step) && !AboutStop(step)
    ensures Spares(s, step, MainStep(s, step), id)
  {
  }

  lemma OtherTaskSpares(s: Sys, step: Step, id: nat)
    requires Enabled(s, step) && OfTask(step) && step.id != id && s.close.Keys <= s.engines.Keys
    ensures Spares(s, step, MainStep(s, step), id)
  {
  }

  lemma OtherDecidedSpares(s: Sys, other: nat, saved: bool, id: nat)
    requires other in s.engines && other != id && s.close.Keys <= s.engines.Keys
    ensures Spares(s, CloseDecide(other, saved), Decided(s, other, saved), id)
  {
  }

  lemma OtherFinishedSpares(s: Sys, other: nat, exited: bool, saved: bool, recovered: bool, id: nat)
    requires other in s.engines && other in s.close && other != id && s.close.Keys <= s.engines.Keys
    ensures Spares(s, CloseFinish(other, exited, saved, recovered), Finished(s, other, exited, saved, recovered), id)
  {
  }

  lemma OtherConsideredSpares(s: Sys, caller: nat, other: nat, id: nat)
    requires Enabled(s, EarlyConsider(caller, other)) && other != id && s.close.Keys <= s.engines.Keys
    ensures Spares(s, EarlyConsider(caller, other), Considered(s, caller, other), id)
  {
  }

  lemma OtherCloseSpares(s: Sys, step: Step, id: nat)
    requires Enabled(s, step) && OfClose(step) && step.id != id && s.close.Keys <= s.engines.Keys
    ensures Spares(s, step, MainStep(s, step), id)
  {
    match step
    case CloseDecide(other, saved) => OtherDecidedSpares(s, other, saved, id);
    case CloseAsk(_, _, _, _) =>
    case CloseFinish(other, exited, saved, recovered) => OtherFinishedSpares(s, other, exited, saved, recovered, id);
  }

  /** A step about one engine's stop spares every other engine. */
  lemma OtherEngineSpares(s: Sys, step: Step, id: nat)
    requires Enabled(s, step) && AboutStop(step) && step.id != id && s.close.Keys <= s.engines.Keys
    ensures Spares(s, step, MainStep(s, step), id)
  {
    if OfClose(step) {
      OtherCloseSpares(s, step, id);
    } else if step.EarlyConsider? {
      OtherConsideredSpares(s, step.caller, step.id, id);
    } else {
      OtherTaskSpares(s, step, id);
    }
  }

  lemma AskStepTraced(done: seq<Step>, s: Sys, id: nat, saved: bool, sent: bool)
    requires Enabled(s, TaskAsk(id, saved, sent)) && EngineOk(s, id, s.engines[id])
    requires TaskTraced(done, s, id) && CloseTraced(done, s, id)
    ensures var step := TaskAsk(id, saved, sent); var t := MainStep(s, step);
      TaskTraced(done + [step], t, id) && CloseTraced(done + [step], t, id)
  {
  }

  lemma EndStepTraced(done: seq<Step>, s: Sys, id: nat, acked: bool)
    requires Enabled(s, TaskEnd(id, acked)) && id in s.engines && EngineOk(s, id, s.engines[id])
    requires TaskTraced(done, s, id) && CloseTraced(done, s, id)
    ensures var step := TaskEnd(id, acked); var t := MainStep(s, step);
      TaskTraced(done + [step], t, id) && CloseTraced(done + [step], t, id)
  {
  }

  lemma TaskStepTraced(done: seq<Step>, s: Sys, step: Step)
    requires Inv(s) && Enabled(s, step) && (step.TaskAsk? || step.TaskEnd?)
    requires TaskTraced(done, s, step.id) && CloseTraced(done, s, step.id)
    ensures TaskTraced(done + [step], MainStep(s, step), step.id) && CloseTraced(done + [step], MainStep(s, step), step.id)
  {
    assert step.id in s.engines && EngineOk(s, step.id, s.engines[step.id]);
    match step
    case TaskAsk(id, saved, sent) => AskStepTraced(done, s, id, saved, sent);
    case TaskEnd(id, acked) => EndStepTraced(done, s, id, acked);
  }

  lemma QuietStepTraced(done: seq<Step>, s: Sys, step: Step)
    requires Inv(s) && Enabled(s, step) && (step.Exit? || step.Join? || step.EarlyConsider?)
    requires TaskTraced(done, s, step.id) && CloseTraced(done, s, step.id)
    ensures TaskTraced(done + [step], MainStep(s, step), step.id) && CloseTraced(done + [step], MainStep(s, step), step.id)
  {
    assert step.id in s.close ==> !s.main.Open?;
    assert EarlyAnswered(done + [step], step.id) == EarlyAnswered(done, step.id);
    assert CloseAnswered(done + [step], step.id) == CloseAnswered(done, step.id);
    assert ExitedWell(done + [step], step.id) == ExitedWell(done, step.id);
  }

  lemma CloseStepTraced(done: seq<Step>, s: Sys, step: Step)
    requires Inv(s) && Enabled(s, step) && OfClose(step)
    requires TaskTraced(done, s, step.id) && CloseTraced(done, s, step.id)
    ensures TaskTraced(done + [step], MainStep(s, step), step.id) && CloseTraced(done + [step], MainStep(s, step), step.id)
  {
    assert step.id in s.engines && EngineOk(s, step.id, s.engines[step.id]);
    match step
    case CloseDecide(id, saved) => DecidedTraced(done, s, id, saved);
    case CloseAsk(id, saved, sent, acked) => AskedTraced(done, s, id, saved, sent, acked);
    case CloseFinish(id, exited, saved, recovered) => FinishedTraced(done, s, id, exited, saved, recovered);
  }

  lemma DecidedTraced(done: seq<Step>, s: Sys, id: nat, saved: bool)
    requires id in s.engines && id !in s.close && TaskTraced(done, s, id) && CloseTraced(done, s, id)
    ensures TaskTraced(done + [CloseDecide(id, saved)], Decided(s, id, saved), id)
    ensures CloseTraced(done + [CloseDecide(id, saved)], Decided(s, id, saved), id)
  {
  }

  lemma AskedTraced(done: seq<Step>, s: Sys, id: nat, saved: bool, sent: bool, acked: bool)
    requires id in s.engines && id in s.close && s.close[id].Stopping? && TaskTraced(done, s, id) && CloseTraced(done, s, id)
    ensures var step, t := CloseAsk(id, saved, sent, acked), ClosingAsked(s, id, saved, sent, acked);
      TaskTraced(done + [step], t, id) && CloseTraced(done + [step], t, id)
  {
  }

  lemma FinishedTraced(done: seq<Step>, s: Sys, id: nat, exited: bool, saved: bool, recovered: bool)
    requires id in s.engines && id in s.close && EngineOk(s, id, s.engines[id])
    requires s.close[id].AskedToStop? || (s.close[id].AwaitingEarly? && id in s.early && s.early[id].Ended?)
    requires TaskTraced(done, s, id) && CloseTraced(done, s, id)
    ensures var step, t := CloseFinish(id, exited, saved, recovered), Finished(s, id, exited, saved, recovered);
      TaskTraced(done + [step], t, id) && CloseTraced(done + [step], t, id)
  {
    var step := CloseFinish(id, exited, saved, recovered);
    assert EarlyAnswered(done + [step], id) == EarlyAnswered(done, id);
    assert CloseAnswered(done + [step], id) == CloseAnswered(done, id);
    assert ExitedWell(done + [step], id) == (exited && recovered);
    assert Acknowledged(s, id) == (EarlyAnswered(done, id) || CloseAnswered(done, id));
  }

  lemma StepTraced(done: seq<Step>, s: Sys, step: Step)
    requires Inv(s) && Enabled(s, step) && Traced(done, s)
    ensures Traced(done + [step], Apply(s, step))
  {
    forall id: nat ensures TaskTraced(done + [step], Apply(s, step), id) && CloseTraced(done + [step], Apply(s, step), id) {
      assert TaskTraced(done, s, id) && CloseTraced(done, s, id);
      OneTraced(done, s, step, id);
    }
  }

  lemma OneTraced(done: seq<Step>, s: Sys, step: Step, id: nat)
    requires Inv(s) && Enabled(s, step) && TaskTraced(done, s, id) && CloseTraced(done, s, id)
    ensures TaskTraced(done + [step], Apply(s, step), id) && CloseTraced(done + [step], Apply(s, step), id)
  {
    if OfCommand(step) {
      CommandSpares(s, step, id);
      SparedTraced(done, s, step, Apply(s, step), id);
    } else if !AboutStop(step) {
      OtherMainSpares(s, step, id);
      SparedTraced(done, s, step, Apply(s, step), id);
    } else if step.id != id {
      OtherEngineSpares(s, step, id);
      SparedTraced(done, s, step, Apply(s, step), id);
    } else if step.TaskAsk? || step.TaskEnd? {
      TaskStepTraced(done, s, step);
    } else if OfClose(step) {
      CloseStepTraced(done, s, step);
    } else {
      QuietStepTraced(done, s, step);
    }
  }

  lemma {:induction false} RunTraced(done: seq<Step>, s: Sys, steps: seq<Step>)
    requires Inv(s) && Traced(done, s) && Runs(s, steps)
    ensures Inv(After(s, steps)) && Traced(done + steps, After(s, steps))
    decreases |steps|
  {
    if steps == [] {
      assert done + steps == done;
    } else {
      StepKeeps(s, steps[0]);
      StepTraced(done, s, steps[0]);
      RunTraced(done + [steps[0]], Apply(s, steps[0]), steps[1..]);
      assert done + steps == done + [steps[0]] + steps[1..];
    }
  }

  /**
   The shutdown returns without an error exactly when every member, in the whole run, was asked with success, by its
   early stop or by the shutdown, was still there to be waited for, exited in time and had its recovery committed.
   */
  lemma ShutdownIsCleanIff(s: Sys, steps: seq<Step>)
    requires Started(s) && Runs(s, steps) && After(s, steps).main.Returned?
    ensures var t := After(s, steps); t.main.clean <==> forall id | id in t.pairs :: EndsWell(steps, t, id)
  {
    assert Traced([], s);
    RunTraced([], s, steps);
    assert [] + steps == steps;
    var t := After(s, steps);
    forall id | id in t.pairs ensures t.close[id].clean <==> EndsWell(steps, t, id) {
      assert CloseTraced(steps, t, id);
    }
  }

  // ---------------------------------------------------------------- what an engine was asked

  /** The step sends the engine a stop request, which it does only after saving its pause. */
  predicate Asks(s: Sys, step: Step, id: nat) {
    || (step.TaskAsk? && step.id == id && step.saved && step.sent)
    || (step.CloseAsk? && step.id == id && step.saved && step.sent)
    || (step.AskRemoved? && HasTarget(s.command) && s.command.target == id && step.saved && step.sent)
  }

  /** The shutdown has given the member's stop up: it ended by itself, was not acknowledged, or did not exit in time. */
  predicate GivesUp(s: Sys, step: Step, id: nat)
    requires id in s.engines
  {
    || (step.CloseDecide? && step.id == id && id !in s.early && (s.engines[id].joined || !s.engines[id].alive))
    || (step.CloseFinish? && step.id == id && id in s.close && !(Acknowledged(s, id) && step.exited && !s.engines[id].joined))
  }

  /** The step saves the engine's pause: before a request, or after its stop has been given up. */
  predicate Pauses(s: Sys, step: Step, id: nat)
    requires id in s.engines
  {
    || ((step.TaskAsk? || step.CloseAsk?) && step.id == id && step.saved)
    || (step.AskRemoved? && HasTarget(s.command) && s.command.target == id && step.saved)
    || (GivesUp(s, step, id) && step.saved)
  }

  /** What one step leaves in the engine's record of requests and pauses; its symbol never changes. */
  ghost predicate Recorded(s: Sys, step: Step, t: Sys, id: nat)
    requires id in s.engines
  {
    && id in t.engines && t.engines[id].symbol == s.engines[id].symbol
    && t.engines[id].requests == s.engines[id].requests + (if Asks(s, step, id) then 1 else 0)
    && (t.engines[id].paused <==> s.engines[id].paused || Pauses(s, step, id))
    && (t.engines[id].unsaved <==> if GivesUp(s, step, id) then !step.saved else s.engines[id].unsaved)
  }

  lemma AddRecorded(s: Sys, step: Step, id: nat)
    requires Enabled(s, step) && OfAdd(step) && id in s.engines
    ensures Recorded(s, step, CommandStep(s, step), id)
  {
  }

  /** A removal changes the record of its target only, and no record in the steps before it owns it. */
  lemma RemovalRecorded(s: Sys, step: Step, id: nat)
    requires Enabled(s, step) && OfRemoval(step) && id in s.engines
    ensures Recorded(s, step, CommandStep(s, step), id)
  {
    var t := CommandStep(s, step);
    if step.Retire? || step.AskRemoved? || step.StopRemoved? {
      assert s.command.target in s.engines;
      assert id != s.command.target ==> t.engines[id] == s.engines[id];
    } else {
      assert t.engines == s.engines;
    }
  }

  lemma OutcomeRecorded(s: Sys, step: Step, id: nat)
    requires Enabled(s, step) && OfOutcome(step) && id in s.engines
    ensures Recorded(s, step, CommandStep(s, step), id)
  {
  }

  lemma TaskRecorded(s: Sys, step: Step, id: nat)
    requires Enabled(s, step) && OfTask(step) && id in s.engines
    ensures Recorded(s, step, MainStep(s, step), id)
  {
  }

  lemma DecidedRecorded(s: Sys, other: nat, saved: bool, id: nat)
    requires id in s.engines && other in s.engines
    ensures Recorded(s, CloseDecide(other, saved), Decided(s, other, saved), id)
  {
  }

  lemma FinishedRecorded(s: Sys, other: nat, exited: bool, saved: bool, recovered: bool, id: nat)
    requires id in s.engines && other in s.engines && other in s.close
    ensures Recorded(s, CloseFinish(other, exited, saved, recovered), Finished(s, other, exited, saved, recovered), id)
  {
  }

  lemma CloseRecorded(s: Sys, step: Step, id: nat)
    requires Enabled(s, step) && OfClose(step) && id in s.engines
    ensures Recorded(s, step, MainStep(s, step), id)
  {
    match step
    case CloseDecide(other, saved) => DecidedRecorded(s, other, saved, id);
    case CloseAsk(_, _, _, _) =>
    case CloseFinish(other, exited, saved, recovered) => FinishedRecorded(s, other, exited, saved, recovered, id);
  }

  lemma QuietRecorded(s: Sys, step: Step, id: nat)
    requires Enabled(s, step) && !OfCommand(step) && !OfTask(step) && !OfClose(step) && id in s.engines
    ensures Recorded(s, step, MainStep(s, step), id)
  {
  }

  lemma StepRecorded(s: Sys, step: Step, id: nat)
    requires Enabled(s, step) && id in s.engines
    ensures Recorded(s, step, Apply(s, step), id)
  {
    if OfAdd(step) {
      AddRecorded(s, step, id);
    } else if OfRemoval(step) {
      RemovalRecorded(s, step, id);
    } else if OfOutcome(step) {
      OutcomeRecorded(s, step, id);
    } else if OfTask(step) {
      TaskRecorded(s, step, id);
    } else if OfClose(step) {
      CloseRecorded(s, step, id);
    } else {
      QuietRecorded(s, step, id);
    }
  }

  /** How many stop requests the run sends the engine. */
  ghost function RequestsSent(s: Sys, steps: seq<Step>, id: nat): nat
    requires Runs(s, steps)
    decreases |steps|
  {
    if steps == [] then 0
    else (if Asks(s, steps[0], id) then 1 else 0) + RequestsSent(Apply(s, steps[0]), steps[1..], id)
  }

  /** The run saves the engine's pause. */
  ghost predicate PauseSaved(s: Sys, steps: seq<Step>, id: nat)
    requires Runs(s, steps) && id in s.engines
    decreases |steps|
  {
    if steps == [] then false
    else
      StepRecorded(s, steps[0], id);
      Pauses(s, steps[0], id) || PauseSaved(Apply(s, steps[0]), steps[1..], id)
  }

  lemma {:induction false} RunRecorded(s: Sys, steps: seq<Step>, id: nat)
    requires Runs(s, steps) && id in s.engines
    ensures var t := After(s, steps);
      && id in t.engines
      && t.engines[id].requests == s.engines[id].requests + RequestsSent(s, steps, id)
      && (t.engines[id].paused <==> s.engines[id].paused || PauseSaved(s, steps, id))
    decreases |steps|
  {
    if steps != [] {
      StepRecorded(s, steps[0], id);
      RunRecorded(Apply(s, steps[0]), steps[1..], id);
    }
  }

  /**
   Whatever interleaves, a run sends an engine that it finds running at most one stop request, and a paused engine's
   pause was really saved.
   */
  lemma StopsAreSentOnce(s: Sys, steps: seq<Step>, id: nat)
    requires Inv(s) && Runs(s, steps) && id in s.engines && s.engines[id] == Fresh(s.engines[id].symbol)
    ensures RequestsSent(s, steps, id) <= 1
    ensures id in After(s, steps).engines && (After(s, steps).engines[id].paused <==> PauseSaved(s, steps, id))
  {
    RunRecorded(s, steps, id);
    RunKeeps(s, steps);
    assert EngineOk(After(s, steps), id, After(s, steps).engines[id]);
  }

  // ---------------------------------------------------------------- an early stop reaches every member

  lemma CommandPublishes(s: Sys, step: Step)
    requires Enabled(s, step) && OfCommand(step) && s.states == s.pairs
    ensures CommandStep(s, step).states == CommandStep(s, step).pairs
  {
  }

  lemma OthersPublishNothing(s: Sys, step: Step)
    requires Enabled(s, step) && !OfCommand(step)
    ensures MainStep(s, step).states == s.states && MainStep(s, step).pairs == s.pairs
  {
  }

  /** In every run the engines published to the early stops are exactly the members. */
  lemma {:induction false} MembersArePublished(s: Sys, steps: seq<Step>)
    requires s.states == s.pairs && Runs(s, steps)
    ensures After(s, steps).states == After(s, steps).pairs
    decreases |steps|
  {
    if steps != [] {
      if OfCommand(steps[0]) {
        CommandPublishes(s, steps[0]);
      } else {
        OthersPublishNothing(s, steps[0]);
      }
      MembersArePublished(Apply(s, steps[0]), steps[1..]);
    }
  }

  /** The engine is still to be considered by the call, or has been and is stopping, or belongs to a removal. */
  ghost predicate Covered(s: Sys, caller: nat, id: nat) {
    && caller in s.callers && s.callers[caller].left.Some? && id in s.engines
    && (id in s.callers[caller].left.value || Reached(s, s.callers[caller].removing, id))
  }

  predicate Reached(s: Sys, removing: Option<string>, id: nat)
    requires id in s.engines
  {
    id in s.early || s.engines[id].retired || removing == Some(s.engines[id].symbol)
  }

  lemma CommandKeepsCovered(s: Sys, step: Step, caller: nat, id: nat)
    requires Enabled(s, step) && OfCommand(step) && Covered(s, caller, id)
    ensures var t := CommandStep(s, step); Covered(t, caller, id) && t.callers == s.callers
  {
    CommandLeavesStops(s, step);
    assert SameHandle(s.engines[id], CommandStep(s, step).engines[id]);
  }

  lemma MainKeepsCovered(s: Sys, step: Step, caller: nat, id: nat)
    requires Enabled(s, step) && !OfCommand(step) && !AboutStop(step) && step != EarlyEnd(caller) && Covered(s, caller, id)
    ensures var t := MainStep(s, step); Covered(t, caller, id) && t.callers[caller] == s.callers[caller]
  {
  }

  /** The early stops go on, the callers stay, and the engine keeps its symbol and its retirement. */
  ghost predicate StopsGoOn(s: Sys, t: Sys, id: nat) {
    && t.callers == s.callers && s.early.Keys <= t.early.Keys
    && (id in s.engines ==>
          id in t.engines && t.engines[id].symbol == s.engines[id].symbol && t.engines[id].retired == s.engines[id].retired)
  }

  lemma TaskGoesOn(s: Sys, step: Step, id: nat)
    requires Enabled(s, step) && OfTask(step)
    ensures StopsGoOn(s, MainStep(s, step), id)
  {
  }

  lemma DecidedGoesOn(s: Sys, other: nat, saved: bool, id: nat)
    requires other in s.engines
    ensures StopsGoOn(s, Decided(s, other, saved), id)
  {
  }

  lemma FinishedGoesOn(s: Sys, other: nat, exited: bool, saved: bool, recovered: bool, id: nat)
    requires other in s.engines && other in s.close
    ensures StopsGoOn(s, Finished(s, other, exited, saved, recovered), id)
  {
  }

  lemma CloseGoesOn(s: Sys, step: Step, id: nat)
    requires Enabled(s, step) && OfClose(step)
    ensures StopsGoOn(s, MainStep(s, step), id)
  {
    match step
    case CloseDecide(other, saved) => DecidedGoesOn(s, other, saved, id);
    case CloseAsk(_, _, _, _) =>
    case CloseFinish(other, exited, saved, recovered) => FinishedGoesOn(s, other, exited, saved, recovered, id);
  }

  lemma TaskKeepsCovered(s: Sys, step: Step, caller: nat, id: nat)
    requires Enabled(s, step) && (OfTask(step) || OfClose(step)) && Covered(s, caller, id)
    ensures var t := MainStep(s, step); Covered(t, caller, id) && t.callers == s.callers
  {
    if OfTask(step) {
      TaskGoesOn(s, step, id);
    } else {
      CloseGoesOn(s, step, id);
    }
  }

  lemma ConsideringKeepsCovered(s: Sys, other: nat, e: nat, caller: nat, id: nat)
    requires Inv(s) && Enabled(s, EarlyConsider(other, e)) && Covered(s, caller, id)
    ensures var t := Considered(s, other, e);
      Covered(t, caller, id) && t.callers[caller].removing == s.callers[caller].removing
  {
    assert CallerOk(s, s.callers[other]);
    assert e in s.pairs ==> e in s.registry;
  }

  lemma StepKeepsCovered(s: Sys, step: Step, caller: nat, id: nat)
    requires Inv(s) && Enabled(s, step) && step != EarlyEnd(caller) && Covered(s, caller, id)
    ensures var t := Apply(s, step);
      Covered(t, caller, id) && t.callers[caller].removing == s.callers[caller].removing
  {
    if OfCommand(step) {
      CommandKeepsCovered(s, step, caller, id);
    } else if step.EarlyConsider? {
      ConsideringKeepsCovered(s, step.caller, step.id, caller, id);
    } else if OfTask(step) || OfClose(step) {
      TaskKeepsCovered(s, step, caller, id);
    } else {
      MainKeepsCovered(s, step, caller, id);
    }
  }

  lemma {:induction false} RunKeepsCovered(s: Sys, steps: seq<Step>, caller: nat, id: nat)
    requires Inv(s) && Runs(s, steps) && EarlyEnd(caller) !in steps && Covered(s, caller, id)
    ensures var t := After(s, steps);
      Covered(t, caller, id) && t.callers[caller].removing == s.callers[caller].removing
    decreases |steps|
  {
    if steps != [] {
      StepKeepsCovered(s, steps[0], caller, id);
      StepKeeps(s, steps[0]);
      RunKeepsCovered(Apply(s, steps[0]), steps[1..], caller, id);
    }
  }

  /**
   When an early shutdown call ends, it has reached every engine that was published when it looked: the engine is being
   stopped, or a removal that the call saw or that has retired it stops it.
   */
  lemma EarlyCallReachesAll(s: Sys, steps: seq<Step>, caller: nat, id: nat)
    requires Inv(s) && Enabled(s, EarlyRead(caller)) && id in s.states
    requires Runs(Apply(s, EarlyRead(caller)), steps) && EarlyEnd(caller) !in steps
    requires Enabled(After(Apply(s, EarlyRead(caller)), steps), EarlyEnd(caller))
    ensures var t := After(Apply(s, EarlyRead(caller)), steps);
      id in t.engines && Reached(t, s.callers[caller].removing, id)
  {
    StepKeeps(s, EarlyRead(caller));
    RunKeepsCovered(Apply(s, EarlyRead(caller)), steps, caller, id);
  }

  /** A shutdown that has been requested stays requested. */
  lemma {:induction false} StopLasts(s: Sys, steps: seq<Step>)
    requires Runs(s, steps) && (s.stop || RequestShutdown in steps)
    ensures After(s, steps).stop
    decreases |steps|
  {
    if steps != [] {
      if s.stop {
        if OfCommand(steps[0]) {
          NoClaimIsTaken(s, steps[0]);
        } else {
          StopIsKept(s, steps[0]);
        }
      } else if steps[0] != RequestShutdown {
        assert steps == [steps[0]] + steps[1..];
      }
      StopLasts(Apply(s, steps[0]), steps[1..]);
    }
  }

  // ---------------------------------------------------------------- a command goes on

  /** At most so many more steps end the command. */
  function CommandLeft(c: Command): nat {
    match c
    case Waiting(_) => 8
    case Claimed(_) => 7
    case Retired(_) => 6
    case Asked(_) => 5
    case Stopped(_) => 4
    case Recovering(_, _) => 3
    case Recovered(_, _) => 2
    case Preparing => 3
    case Created(_) => 2
    case Registered(_) => 1
    case Finishing => 1
    case Idle => 0
  }

  /** A command that has begun goes on step by step until it ends, and nothing else moves it. */
  lemma CommandGoesOn(s: Sys, step: Step)
    requires Enabled(s, step) && !s.command.Idle?
    ensures if OfCommand(step) then CommandLeft(Apply(s, step).command) < CommandLeft(s.command)
            else Apply(s, step).command == s.command
  {
    if OfAdd(step) {
      AddGoesOn(s, step);
    } else if OfRemoval(step) {
      RemovalGoesOn(s, step);
    } else if OfOutcome(step) {
      OutcomeGoesOn(s, step);
    } else {
      OthersLeaveCommand(s, step);
    }
  }

  lemma AddGoesOn(s: Sys, step: Step)
    requires Enabled(s, step) && !s.command.Idle? && OfAdd(step)
    ensures CommandLeft(CommandStep(s, step).command) < CommandLeft(s.command)
  {
  }

  lemma RemovalGoesOn(s: Sys, step: Step)
    requires Enabled(s, step) && !s.command.Idle? && OfRemoval(step)
    ensures CommandLeft(CommandStep(s, step).command) < CommandLeft(s.command)
  {
  }

  lemma OutcomeGoesOn(s: Sys, step: Step)
    requires Enabled(s, step) && !s.command.Idle? && OfOutcome(step)
    ensures CommandLeft(CommandStep(s, step).command) < CommandLeft(s.command)
  {
  }

  lemma OthersLeaveCommand(s: Sys, step: Step)
    requires Enabled(s, step) && !OfCommand(step)
    ensures MainStep(s, step).command == s.command
  {
  }

  /** It is never stuck; and the end of a removal lets go of the claim. */
  lemma CommandIsNeverStuck(s: Sys)
    requires Inv(s) && !s.command.Idle?
    ensures exists step :: OfCommand(step) && Enabled(s, step)
    ensures s.command.Finishing? ==> Enabled(s, Release) && CommandStep(s, Release).claim.None? && CommandStep(s, Release).command.Idle?
  {
    var step := match s.command
      case Preparing => GiveUpAdd
      case Created(_) => RegisterAdded
      case Registered(_) => PublishAdded
      case Waiting(_) => GiveUpRemove
      case Claimed(_) => Retire
      case Retired(_) => AskRemoved(true, true)
      case Asked(_) => StopRemoved
      case Stopped(_) => Delete
      case Recovering(_, _) => RegisterReplacement
      case Recovered(_, _) => PublishReplacement
      case _ => Release;
    assert OfCommand(step) && Enabled(s, step);
  }

  /** A replacement has the symbol of the engine that it stands in for. */
  ghost predicate MadeFits(s: Sys) {
    s.command.Recovering? || s.command.Recovered? ==>
      && s.command.target in s.engines && s.command.made in s.engines
      && s.engines[s.command.made].symbol == s.engines[s.command.target].symbol
  }

  lemma OutcomeKeepsMade(s: Sys, step: Step)
    requires MadeFits(s) && Enabled(s, step) && OfOutcome(step)
    ensures MadeFits(CommandStep(s, step))
  {
  }

  lemma OtherCommandsMakeNothing(s: Sys, step: Step)
    requires Enabled(s, step) && (OfAdd(step) || OfRemoval(step))
    ensures !CommandStep(s, step).command.Recovering? && !CommandStep(s, step).command.Recovered?
  {
  }

  lemma OthersKeepMade(s: Sys, step: Step)
    requires MadeFits(s) && Enabled(s, step) && !OfCommand(step) && MainStep(s, step).command == s.command
    ensures MadeFits(MainStep(s, step))
  {
    if s.command.Recovering? || s.command.Recovered? {
      StepRecorded(s, step, s.command.target);
      StepRecorded(s, step, s.command.made);
    }
  }

  lemma {:induction false} ReplacementsFit(s: Sys, steps: seq<Step>)
    requires MadeFits(s) && Runs(s, steps)
    ensures MadeFits(After(s, steps))
    decreases |steps|
  {
    if steps != [] {
      if OfOutcome(steps[0]) {
        OutcomeKeepsMade(s, steps[0]);
      } else if OfCommand(steps[0]) {
        OtherCommandsMakeNothing(s, steps[0]);
      } else {
        OthersLeaveCommand(s, steps[0]);
        OthersKeepMade(s, steps[0]);
      }
      ReplacementsFit(Apply(s, steps[0]), steps[1..]);
    }
  }

  function SymbolsOf(s: Sys): set<string>
    requires s.pairs <= s.engines.Keys
  {
    set id | id in s.pairs :: s.engines[id].symbol
  }

  lemma PublishKeepsSymbols(t: Sys)
    requires t.pairs <= t.engines.Keys && t.command.Recovered? && t.command.target in t.pairs && MadeFits(t)
    ensures var u := CommandStep(t, PublishReplacement);
      u.pairs <= u.engines.Keys && SymbolsOf(u) == SymbolsOf(t)
  {
    var target, made := t.command.target, t.command.made;
    var u := CommandStep(t, PublishReplacement);
    assert u.engines == t.engines && u.pairs == t.pairs - {target} + {made};
    forall id | id in t.pairs ensures t.engines[id].symbol in SymbolsOf(u) {
      assert (if id == target then made else id) in u.pairs;
    }
    forall id | id in u.pairs ensures u.engines[id].symbol in SymbolsOf(t) {
      assert (if id == made then target else id) in t.pairs;
    }
  }

  /** So in every run a replacement that becomes a member leaves the traded symbols as they were. */
  lemma ReplacementKeepsSymbols(s: Sys, steps: seq<Step>)
    requires Inv(s) && MadeFits(s) && Runs(s, steps) && Enabled(After(s, steps), PublishReplacement)
    ensures var t := After(s, steps); var u := Apply(t, PublishReplacement);
      t.pairs <= t.engines.Keys && u.pairs <= u.engines.Keys && SymbolsOf(u) == SymbolsOf(t)
  {
    ReplacementsFit(s, steps);
    RunKeeps(s, steps);
    PublishKeepsSymbols(After(s, steps));
  }

  // ---------------------------------------------------------------- the shutdown goes on

  predicate OfShutdown(step: Step) {
    step.CloseDecide? || step.CloseAsk? || step.CloseFinish? || step.EndShutdown? || step.TaskAsk? || step.TaskEnd?
  }

  function Undecided(s: Sys): set<nat> {
    set id | id in s.pairs && id !in s.close
  }

  function Unasked(s: Sys): set<nat> {
    set id | id in s.pairs && (id !in s.close || s.close[id].Stopping?)
  }

  function Unclosed(s: Sys): set<nat> {
    set id | id in s.pairs && !(id in s.close && s.close[id].Closed?)
  }

  function Unsent(s: Sys): set<nat> {
    set id | id in s.early && s.early[id].Spawned?
  }

  function Unended(s: Sys): set<nat> {
    set id | id in s.early && !s.early[id].Ended?
  }

  /** At most so many more steps of the shutdown and of the early stops are left. */
  function StepsLeft(s: Sys): nat {
    |Undecided(s)| + |Unasked(s)| + |Unclosed(s)| + |Unsent(s)| + |Unended(s)| + if s.main.Returned? then 0 else 1
  }

  /** Once it has begun, the shutdown always has a step to take until it returns, whatever the engines do. */
  lemma ShutdownIsNeverStuck(s: Sys)
    requires Inv(s) && s.main.Closing?
    ensures exists step :: OfShutdown(step) && Enabled(s, step)
  {
    if id :| id in Unclosed(s) {
      assert EngineOk(s, id, s.engines[id]);
      MemberIsNotStuck(s, id);
    } else {
      forall id | id in s.pairs ensures id in s.close && s.close[id].Closed? {
        assert id !in Unclosed(s);
      }
      assert OfShutdown(EndShutdown) && Enabled(s, EndShutdown);
    }
  }

  lemma MemberIsNotStuck(s: Sys, id: nat)
    requires s.main.Closing? && id in s.pairs && id in s.engines && EngineOk(s, id, s.engines[id])
    requires !(id in s.close && s.close[id].Closed?)
    ensures exists step :: OfShutdown(step) && Enabled(s, step)
  {
    var step :=
      if id !in s.close then CloseDecide(id, true)
      else if s.close[id].Stopping? then CloseAsk(id, true, true, true)
      else if s.close[id].AskedToStop? || s.early[id].Ended? then CloseFinish(id, true, true, true)
      else if s.early[id].Spawned? then TaskAsk(id, true, true)
      else TaskEnd(id, true);
    assert OfShutdown(step) && Enabled(s, step);
  }

  /** The sets of pending work only shrink. */
  ghost predicate Shrink(s: Sys, t: Sys) {
    && Undecided(t) <= Undecided(s) && Unasked(t) <= Unasked(s) && Unclosed(t) <= Unclosed(s)
    && Unsent(t) <= Unsent(s) && Unended(t) <= Unended(s) && (s.main.Returned? ==> t.main.Returned?)
  }

  lemma ShrinkingSteps(s: Sys, t: Sys)
    requires Shrink(s, t)
    ensures StepsLeft(t) <= StepsLeft(s)
    ensures Undecided(t) != Undecided(s) || Unasked(t) != Unasked(s) || Unclosed(t) != Unclosed(s)
            || Unsent(t) != Unsent(s) || Unended(t) != Unended(s) || (t.main.Returned? && !s.main.Returned?)
            ==> StepsLeft(t) < StepsLeft(s)
  {
    Smaller(Undecided(t), Undecided(s));
    Smaller(Unasked(t), Unasked(s));
    Smaller(Unclosed(t), Unclosed(s));
    Smaller(Unsent(t), Unsent(s));
    Smaller(Unended(t), Unended(s));
  }

  lemma Smaller(a: set<nat>, b: set<nat>)
    requires a <= b
    ensures |a| <= |b| && (a != b ==> |a| < |b|)
  {
    SubsetSize(a, b);
    if a != b {
      var x :| x in b && x !in a;
      SubsetSize(a, b - {x});
    }
  }

  lemma DecidedShrinks(s: Sys, id: nat, saved: bool)
    requires id in s.engines && id in s.pairs && id !in s.close
    ensures var t := Decided(s, id, saved); Shrink(s, t) && id in Undecided(s) && id !in Undecided(t)
  {
  }

  lemma AskedShrinks(s: Sys, id: nat, saved: bool, sent: bool, acked: bool)
    requires id in s.engines && id in s.pairs && id in s.close && s.close[id].Stopping?
    ensures var t := ClosingAsked(s, id, saved, sent, acked); Shrink(s, t) && id in Unasked(s) && id !in Unasked(t)
  {
  }

  lemma FinishedShrinks(s: Sys, id: nat, exited: bool, saved: bool, recovered: bool)
    requires id in s.engines && id in s.pairs && id in s.close && !s.close[id].Closed?
    ensures var t := Finished(s, id, exited, saved, recovered); Shrink(s, t) && id in Unclosed(s) && id !in Unclosed(t)
  {
  }

  lemma TaskShrinks(s: Sys, step: Step)
    requires Enabled(s, step) && (step.TaskAsk? || step.TaskEnd?)
    ensures var t := MainStep(s, step);
      && Shrink(s, t)
      && if step.TaskAsk? then step.id in Unsent(s) && step.id !in Unsent(t) else step.id in Unended(s) && step.id !in Unended(t)
  {
  }

  lemma OwnStepShrinks(s: Sys, step: Step)
    requires Inv(s) && s.main.Closing? && OfShutdown(step) && Enabled(s, step)
    ensures StepsLeft(MainStep(s, step)) < StepsLeft(s)
  {
    if OfClose(step) {
      assert step.id in s.engines && EngineOk(s, step.id, s.engines[step.id]);
    }
    match step {
      case CloseDecide(id, saved) => DecidedShrinks(s, id, saved);
      case CloseAsk(id, saved, sent, acked) => AskedShrinks(s, id, saved, sent, acked);
      case CloseFinish(id, exited, saved, recovered) => FinishedShrinks(s, id, exited, saved, recovered);
      case TaskAsk(_, _, _) => TaskShrinks(s, step);
      case TaskEnd(_, _) => TaskShrinks(s, step);
      case EndShutdown =>
    }
    ShrinkingSteps(s, MainStep(s, step));
  }

  lemma OthersLeaveShutdown(s: Sys, step: Step)
    requires Inv(s) && s.main.Closing? && !OfShutdown(step) && Enabled(s, step)
    ensures var t := Apply(s, step); t.pairs == s.pairs && t.close == s.close && t.early == s.early && t.main == s.main
  {
  }

  /** Every step of the shutdown brings its end nearer, and nothing else that can still happen delays it. */
  lemma ShutdownGoesOn(s: Sys, step: Step)
    requires Inv(s) && s.main.Closing? && Enabled(s, step)
    ensures var t := Apply(s, step);
      if OfShutdown(step) then StepsLeft(t) < StepsLeft(s) else t.main.Closing? && StepsLeft(t) == StepsLeft(s)
  {
    if OfShutdown(step) {
      OwnStepShrinks(s, step);
    } else {
      OthersLeaveShutdown(s, step);
    }
  }

  function OwnSteps(steps: seq<Step>): nat
    decreases |steps|
  {
    if steps == [] then 0 else (if OfShutdown(steps[0]) then 1 else 0) + OwnSteps(steps[1..])
  }

  /** However a shutdown goes on, it takes at most three steps for every member and two for every early stop, and one more. */
  lemma {:induction false} ShutdownEnds(s: Sys, steps: seq<Step>)
    requires Inv(s) && s.main.Closing? && Runs(s, steps)
    requires forall k | 0 <= k < |steps| - 1 :: !steps[k].EndShutdown?
    ensures OwnSteps(steps) + StepsLeft(After(s, steps)) <= StepsLeft(s) <= 3 * |s.pairs| + 2 * |s.early.Keys| + 1
    decreases |steps|
  {
    Smaller(Undecided(s), s.pairs);
    Smaller(Unasked(s), s.pairs);
    Smaller(Unclosed(s), s.pairs);
    Smaller(Unsent(s), s.early.Keys);
    Smaller(Unended(s), s.early.Keys);
    if |steps| > 1 {
      ShutdownGoesOn(s, steps[0]);
      StepKeeps(s, steps[0]);
      StillClosing(s, steps[0]);
      assert forall k | 0 <= k < |steps| - 2 :: steps[1..][k] == steps[k + 1];
      ShutdownEnds(Apply(s, steps[0]), steps[1..]);
    } else if |steps| == 1 {
      ShutdownGoesOn(s, steps[0]);
      assert After(s, steps) == After(Apply(s, steps[0]), steps[1..]) == Apply(s, steps[0]);
    }
  }

  lemma StillClosing(s: Sys, step: Step)
    requires s.main.Closing? && Enabled(s, step) && !step.EndShutdown?
    ensures Apply(s, step).main.Closing?
  {
  }
}
