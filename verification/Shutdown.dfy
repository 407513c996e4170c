/**
 Stopping the runtime while a pair is being added or removed: the stop flag and the removal's claim share
 one lock, early stops begin before the running command has finished, and the final shutdown waits for
 every engine. A step is what one party does between two points at which another can run.
 */
module Shutdown {
  import opened Basics

  /**
   One engine instance. `paused` says that the paused status was saved while it was being stopped, `unsaved`
   that the last attempt to save it failed; `requests` counts the Shutdown requests it was ever sent.
   */
  datatype Engine = Engine(
    symbol: string, alive: bool, joined: bool, retired: bool, paused: bool, unsaved: bool, requests: nat)

  /** The membership command in progress; `fresh` is an engine that is started but not yet a member. */
  datatype Command =
    | Idle | Preparing | Created(made: nat) | Registered(made: nat)
    | Waiting(target: nat) | Claimed(target: nat) | Retired(target: nat) | Asked(target: nat) | Stopped(target: nat)
    | Recovering(target: nat, made: nat) | Recovered(target: nat, made: nat) | Finishing

  /** An early stop of one engine: spawned, its request sent or given up, ended with or without an acknowledgement. */
  datatype Task = Spawned | Sent(asked: bool) | Ended(acked: bool)

  /** A call of `start_early_shutdown`: the removal it saw, then the engines it still has to consider. */
  datatype Caller = Caller(removing: Option<string>, left: Option<set<nat>>)

  /** The shutdown of one member; `clean` is false when it reports an error. */
  datatype Close = AwaitingEarly | Stopping | AskedToStop(acked: bool) | Closed(clean: bool)

  datatype Main = Open | Closing | Returned(clean: bool)

  datatype Sys = Sys(
    engines: map<nat, Engine>, pairs: set<nat>, failed: set<nat>, states: set<nat>, registry: set<nat>,
    stop: bool, claim: Option<string>, command: Command,
    early: map<nat, Task>, callers: map<nat, Caller>, close: map<nat, Close>, main: Main)

  datatype Step =
    | Exit(id: nat) | Join(id: nat)
    | RequestShutdown
    | BeginAdd | GiveUpAdd | CreateAdded(id: nat, symbol: string) | RegisterAdded | PublishAdded
    | BeginRemove(id: nat) | GiveUpRemove | Claim | Retire | AskRemoved(saved: bool, sent: bool) | StopRemoved
    | Delete | Replace(id: nat) | RegisterReplacement | PublishReplacement | FailReplacement | Release
    | EarlyBegin(caller: nat) | EarlyRead(caller: nat) | EarlyConsider(caller: nat, id: nat) | EarlyEnd(caller: nat)
    | TaskAsk(id: nat, saved: bool, sent: bool) | TaskEnd(id: nat, acked: bool)
    | BeginShutdown | CloseDecide(id: nat, saved: bool) | CloseAsk(id: nat, saved: bool, sent: bool, acked: bool)
    | CloseFinish(id: nat, exited: bool, saved: bool, recovered: bool) | EndShutdown

  function Fresh(symbol: string): Engine {
    Engine(symbol, true, false, false, false, false, 0)
  }

  function Changed(s: Sys, id: nat, e: Engine): Sys {
    s.(engines := s.engines[id := e])
  }

  /** Every stop saves the pause before it asks; without a saved pause nothing is asked. */
  function AskedEngine(e: Engine, saved: bool, sent: bool): Engine {
    e.(paused := e.paused || saved, requests := if saved && sent then e.requests + 1 else e.requests)
  }

  /** A stop that has gone wrong tries to save the pause again, and the attempt may fail too. */
  function Repaused(e: Engine, saved: bool): Engine {
    e.(alive := false, paused := e.paused || saved, unsaved := !saved)
  }

  predicate HasTarget(c: Command) {
    c.Waiting? || c.Claimed? || c.Retired? || c.Asked? || c.Stopped? || c.Recovering? || c.Recovered?
  }

  predicate HasMade(c: Command) {
    c.Created? || c.Registered? || c.Recovering? || c.Recovered?
  }

  // ---------------------------------------------------------------- steps

  predicate Known(s: Sys) {
    && (HasTarget(s.command) ==> s.command.target in s.engines)
    && (HasMade(s.command) ==> s.command.made in s.engines)
  }

  predicate Enabled(s: Sys, step: Step) {
    match step
    case Exit(id) => id in s.engines && s.engines[id].alive
    case Join(id) => id in s.engines && !s.engines[id].alive && s.main.Open? && s.command.Idle? && id !in s.failed
    case RequestShutdown => true
    case BeginAdd => s.main.Open? && s.command.Idle? && !s.stop
    case GiveUpAdd => s.command.Preparing?
    case CreateAdded(id, _) => s.command.Preparing? && id !in s.engines
    case RegisterAdded => s.command.Created?
    case PublishAdded => s.command.Registered?
    case BeginRemove(id) =>
      && s.main.Open? && s.command.Idle? && !s.stop
      && id in s.pairs && id in s.engines && id !in s.failed && !s.engines[id].joined
    case GiveUpRemove => s.command.Waiting?
    case Claim => s.command.Waiting? && Known(s)
    case Retire => s.command.Claimed? && Known(s)
    case AskRemoved(_, _) => s.command.Retired? && Known(s)
    case StopRemoved => s.command.Asked? && Known(s)
    case Delete => s.command.Stopped?
    case Replace(id) => s.command.Stopped? && id !in s.engines && Known(s)
    case RegisterReplacement => s.command.Recovering?
    case PublishReplacement => s.command.Recovered?
    case FailReplacement => s.command.Stopped?
    case Release => s.command.Finishing?
    case EarlyBegin(caller) => s.stop && s.main.Open? && caller !in s.callers
    case EarlyRead(caller) => caller in s.callers && s.callers[caller].left.None?
    case EarlyConsider(caller, id) =>
      caller in s.callers && s.callers[caller].left.Some? && id in s.callers[caller].left.value && id in s.engines
    case EarlyEnd(caller) => caller in s.callers && s.callers[caller].left == Some({})
    case TaskAsk(id, _, _) => id in s.early && s.early[id].Spawned? && id in s.engines
    case TaskEnd(id, _) => id in s.early && s.early[id].Sent?
    case BeginShutdown => s.main.Open? && s.command.Idle? && s.callers.Keys == {}
    case CloseDecide(id, _) => s.main.Closing? && id in s.pairs && id in s.engines && id !in s.close
    case CloseAsk(id, _, _, _) => id in s.close && s.close[id].Stopping? && id in s.engines
    case CloseFinish(id, _, _, _) =>
      && id in s.close && id in s.engines
      && (s.close[id].AskedToStop? || (s.close[id].AwaitingEarly? && id in s.early && s.early[id].Ended?))
    case EndShutdown => s.main.Closing? && forall id | id in s.pairs :: id in s.close && s.close[id].Closed?
  }

  /** The claim is taken under the lock that guards the stop flag. */
  function Claiming(s: Sys): Sys
    requires s.command.Waiting? && Known(s)
  {
    if s.stop then s.(command := Idle)
    else s.(command := Claimed(s.command.target), claim := Some(s.engines[s.command.target].symbol))
  }

  /** An engine is stopped early unless it is retired, of the symbol being removed, already stopping, or unregistered. */
  function Considered(s: Sys, caller: nat, id: nat): Sys
    requires caller in s.callers && s.callers[caller].left.Some? && id in s.engines
  {
    var c := s.callers[caller];
    var t := s.(callers := s.callers[caller := c.(left := Some(c.left.value - {id}))]);
    if s.engines[id].retired || c.removing == Some(s.engines[id].symbol) || id in s.early || id !in s.registry then t
    else t.(early := t.early[id := Spawned])
  }

  /** What the shutdown does about one member; one that has ended by itself is paused and reported. */
  function Decided(s: Sys, id: nat, saved: bool): Sys
    requires id in s.engines
  {
    var e := s.engines[id];
    if id in s.early then s.(close := s.close[id := AwaitingEarly])
    else if e.joined || !e.alive then Changed(s, id, Repaused(e, saved)).(close := s.close[id := Closed(false)])
    else s.(close := s.close[id := Stopping])
  }

  function ClosingAsked(s: Sys, id: nat, saved: bool, sent: bool, acked: bool): Sys
    requires id in s.engines
  {
    Changed(s, id, AskedEngine(s.engines[id], saved, sent)).(close := s.close[id := AskedToStop(saved && sent && acked)])
  }

  /** The request of this member's stop was acknowledged. */
  predicate Acknowledged(s: Sys, id: nat)
    requires id in s.close
  {
    if s.close[id].AskedToStop? then s.close[id].acked else id in s.early && s.early[id].Ended? && s.early[id].acked
  }

  /** The end of a member's stop: it exits in time and its recovery is committed, or it is aborted, paused again and reported. */
  function Finished(s: Sys, id: nat, exited: bool, saved: bool, recovered: bool): Sys
    requires id in s.engines && id in s.close
  {
    var e := s.engines[id];
    if Acknowledged(s, id) && exited && !e.joined then
      Changed(s, id, e.(alive := false)).(close := s.close[id := Closed(recovered)])
    else Changed(s, id, Repaused(e, saved)).(close := s.close[id := Closed(false)])
  }

  function MainStep(s: Sys, step: Step): Sys
    requires Enabled(s, step)
  {
    match step
    case Exit(id) => Changed(s, id, s.engines[id].(alive := false))
    case Join(id) => Changed(s, id, s.engines[id].(joined := true))
    case RequestShutdown => s.(stop := true)
    case EarlyBegin(caller) => s.(callers := s.callers[caller := Caller(s.claim, None)])
    case EarlyRead(caller) => s.(callers := s.callers[caller := s.callers[caller].(left := Some(s.states))])
    case EarlyConsider(caller, id) => Considered(s, caller, id)
    case EarlyEnd(caller) => s.(callers := s.callers - {caller})
    case TaskAsk(id, saved, sent) =>
      Changed(s, id, AskedEngine(s.engines[id], saved, sent)).(early := s.early[id := Sent(saved && sent)])
    case TaskEnd(id, acked) => s.(early := s.early[id := Ended(s.early[id].asked && acked)])
    case BeginShutdown => s.(stop := true, main := Closing)
    case CloseDecide(id, saved) => Decided(s, id, saved)
    case CloseAsk(id, saved, sent, acked) => ClosingAsked(s, id, saved, sent, acked)
    case CloseFinish(id, exited, saved, recovered) => Finished(s, id, exited, saved, recovered)
    case EndShutdown => s.(main := Returned(forall id | id in s.pairs :: s.close[id].clean))
    case _ => s
  }

  function CommandStep(s: Sys, step: Step): Sys
    requires Enabled(s, step)
  {
    match step
    case BeginAdd => s.(command := Preparing)
    case GiveUpAdd => s.(command := Idle)
    case CreateAdded(id, symbol) => Changed(s, id, Fresh(symbol)).(command := Created(id))
    case RegisterAdded => s.(registry := s.registry + {s.command.made}, command := Registered(s.command.made))
    case PublishAdded =>
      s.(pairs := s.pairs + {s.command.made}, states := s.pairs + {s.command.made}, command := Idle)
    case BeginRemove(id) => s.(command := Waiting(id))
    case GiveUpRemove => s.(command := Idle)
    case Claim => Claiming(s)
    case Retire =>
      var id := s.command.target;
      Changed(s, id, s.engines[id].(retired := true)).(command := Retired(id))
    case AskRemoved(saved, sent) =>
      var id := s.command.target;
      Changed(s, id, AskedEngine(s.engines[id], saved, sent)).(command := Asked(id))
    case StopRemoved =>
      var id := s.command.target;
      Changed(s, id, s.engines[id].(alive := false)).(command := Stopped(id))
    case Delete =>
      var pairs := s.pairs - {s.command.target};
      s.(pairs := pairs, states := pairs, command := Finishing)
    case Replace(id) =>
      Changed(s, id, Fresh(s.engines[s.command.target].symbol)).(command := Recovering(s.command.target, id))
    case RegisterReplacement =>
      s.(registry := s.registry + {s.command.made}, command := Recovered(s.command.target, s.command.made))
    case PublishReplacement =>
      var pairs := s.pairs - {s.command.target} + {s.command.made};
      s.(pairs := pairs, states := pairs, command := Finishing)
    case FailReplacement => s.(failed := s.failed + {s.command.target}, command := Finishing)
    case Release => s.(claim := None, command := Idle)
    case _ => s
  }

  predicate OfAdd(step: Step) {
    step.BeginAdd? || step.GiveUpAdd? || step.CreateAdded? || step.RegisterAdded? || step.PublishAdded?
  }

  predicate OfRemoval(step: Step) {
    step.BeginRemove? || step.GiveUpRemove? || step.Claim? || step.Retire? || step.AskRemoved? || step.StopRemoved?
  }

  predicate OfOutcome(step: Step) {
    || step.Delete? || step.Replace? || step.RegisterReplacement? || step.PublishReplacement?
    || step.FailReplacement? || step.Release?
  }

  predicate OfCommand(step: Step) {
    OfAdd(step) || OfRemoval(step) || OfOutcome(step)
  }

  function Apply(s: Sys, step: Step): Sys
    requires Enabled(s, step)
  {
    if OfCommand(step) then CommandStep(s, step) else MainStep(s, step)
  }

  // ---------------------------------------------------------------- what every interleaving keeps

  /** The engine the command has claimed and not yet let go of. */
  predicate Owned(c: Command, id: nat) {
    (c.Claimed? || c.Retired? || c.Asked? || c.Stopped? || c.Recovering? || c.Recovered?) && c.target == id
  }

  /** Nothing is asked or acknowledged before the pause has been saved. */
  predicate EarlyOk(task: Task, e: Engine) {
    (task.Sent? && task.asked) || (task.Ended? && task.acked) ==> e.paused
  }

  /** A member that is done with has finished and been paused, or its pause could not be saved and an error is reported. */
  predicate CloseOk(close: Close, e: Engine) {
    && (close.AskedToStop? && close.acked ==> e.paused)
    && (close.Closed? ==> !e.alive && (e.paused || e.unsaved) && (close.clean ==> e.paused))
  }

  /** An engine has been asked to stop at most once, and then by its removal, its early stop or the shutdown. */
  ghost predicate EngineOk(s: Sys, id: nat, e: Engine) {
    && e.requests <= 1 && (e.joined ==> !e.alive)
    && (e.requests == 1 ==>
          || (e.retired && (!e.alive || s.command == Asked(id)))
          || (id in s.early && !s.early[id].Spawned?)
          || (id in s.close && (s.close[id].AskedToStop? || s.close[id].Closed?)))
    && (e.retired ==> !e.alive || s.command == Retired(id) || s.command == Asked(id))
    && (e.retired && id in s.pairs ==> id in s.failed || Owned(s.command, id))
    && (e.alive ==> id in s.pairs || (HasMade(s.command) && s.command.made == id))
    && (id in s.early ==> id in s.pairs && !e.retired && !Owned(s.command, id) && s.stop && EarlyOk(s.early[id], e))
    && (id in s.close ==>
          && id in s.pairs
          && (s.close[id].AwaitingEarly? <==> id in s.early && !s.close[id].Closed?)
          && (s.close[id].Stopping? ==> e.requests == 0)
          && (id in s.early && s.close[id].Closed? ==> s.early[id].Ended?)
          && CloseOk(s.close[id], e))
  }

  /** The command in progress, and the engine it works on. */
  ghost predicate CommandOk(s: Sys) {
    && (s.claim.Some? <==> s.command.Finishing? || (HasTarget(s.command) && !s.command.Waiting?))
    && (HasTarget(s.command) ==>
          && s.command.target in s.engines && s.command.target in s.pairs
          && var e := s.engines[s.command.target];
             && (s.command.Waiting? ==> !e.retired)
             && (s.command.Claimed? ==> !e.retired && e.requests == 0)
             && (s.command.Retired? ==> e.requests == 0)
             && (!s.command.Waiting? ==> s.claim == Some(e.symbol))
             && (!s.command.Waiting? && !s.command.Claimed? ==> e.retired)
             && (s.command.Stopped? || s.command.Recovering? || s.command.Recovered? ==> !e.alive))
    && (HasMade(s.command) ==>
          && s.command.made in s.engines && s.command.made !in s.pairs
          && var f := s.engines[s.command.made];
             && !f.retired && f.requests == 0
             && (s.command.Registered? || s.command.Recovered? ==> s.command.made in s.registry))
  }

  /** A call that began during a removal skips that symbol, and every engine it considers is a member or retired. */
  ghost predicate CallerOk(s: Sys, c: Caller) {
    && (s.command.Claimed? && s.command.target in s.engines ==> c.removing == Some(s.engines[s.command.target].symbol))
    && (c.left.Some? ==> forall id | id in c.left.value :: id in s.engines && (id in s.pairs || s.engines[id].retired))
  }

  ghost predicate EnginesOk(s: Sys) {
    forall id | id in s.engines :: EngineOk(s, id, s.engines[id])
  }

  ghost predicate CallersOk(s: Sys) {
    forall id | id in s.callers :: CallerOk(s, s.callers[id])
  }

  ghost predicate GlobalOk(s: Sys) {
    && s.pairs <= s.engines.Keys && s.states <= s.pairs && s.pairs <= s.registry && s.failed <= s.engines.Keys
    && s.early.Keys <= s.engines.Keys && s.close.Keys <= s.engines.Keys
    && (s.early.Keys != {} || s.callers.Keys != {} ==> s.stop)
    && (s.callers.Keys != {} ==> s.main.Open?)
    && (s.close.Keys != {} ==> !s.main.Open?)
    && (!s.main.Open? ==> s.stop && s.command.Idle?)
    && (s.main.Returned? ==>
          && (forall id | id in s.pairs :: id in s.close && s.close[id].Closed?)
          && (s.main.clean <==> forall id | id in s.pairs :: s.close[id].clean))
  }

  ghost predicate Inv(s: Sys) {
    EnginesOk(s) && CallersOk(s) && CommandOk(s) && GlobalOk(s)
  }

  // ---------------------------------------------------------------- steps about one engine

  /** A step that changes one engine and how it is being stopped, and no membership. */
  ghost predicate LocalStep(s: Sys, t: Sys, id: nat) {
    && id in s.engines && id in t.engines && t.engines == s.engines[id := t.engines[id]]
    && t.engines[id].symbol == s.engines[id].symbol && t.engines[id].retired == s.engines[id].retired
    && t == s.(engines := t.engines, early := t.early, close := t.close)
    && (t.early == s.early || (id in t.early && t.early == s.early[id := t.early[id]]))
    && (t.close == s.close || (id in t.close && t.close == s.close[id := t.close[id]]))
  }

  lemma LocalStepKeeps(s: Sys, t: Sys, id: nat)
    requires Inv(s) && LocalStep(s, t, id) && EngineOk(t, id, t.engines[id]) && CommandOk(t) && GlobalOk(t)
    ensures Inv(t)
  {
    forall k | k in t.engines && k != id ensures EngineOk(t, k, t.engines[k]) {
      assert EngineOk(s, k, s.engines[k]);
    }
    forall c | c in t.callers ensures CallerOk(t, t.callers[c]) {
      assert CallerOk(s, s.callers[c]);
    }
  }

  ghost predicate OfTask(step: Step) {
    step.Exit? || step.Join? || step.TaskAsk? || step.TaskEnd?
  }

  ghost predicate OfClose(step: Step) {
    step.CloseDecide? || step.CloseAsk? || step.CloseFinish?
  }

  /** An early stop asks only an engine that has not been asked before. */
  lemma TaskStepOwn(s: Sys, step: Step)
    requires OfTask(step) && Enabled(s, step) && step.id in s.engines
    requires EngineOk(s, step.id, s.engines[step.id]) && GlobalOk(s)
    ensures var t := MainStep(s, step); step.id in t.engines && EngineOk(t, step.id, t.engines[step.id])
  {
  }

  lemma TaskStepLocal(s: Sys, step: Step)
    requires OfTask(step) && Enabled(s, step) && step.id in s.engines && CommandOk(s)
    requires EngineOk(s, step.id, s.engines[step.id]) && GlobalOk(s)
    ensures LocalStep(s, MainStep(s, step), step.id) && CommandOk(MainStep(s, step))
  {
  }

  lemma TaskStepGlobal(s: Sys, step: Step)
    requires OfTask(step) && Enabled(s, step) && step.id in s.engines && GlobalOk(s)
    ensures GlobalOk(MainStep(s, step))
  {
  }

  /** The end of a stop closes the member; a clean end has saved its pause. */
  lemma FinishedOwn(s: Sys, id: nat, exited: bool, saved: bool, recovered: bool)
    requires id in s.engines && id in s.close && EngineOk(s, id, s.engines[id]) && GlobalOk(s)
    requires s.close[id].AskedToStop? || (s.close[id].AwaitingEarly? && id in s.early && s.early[id].Ended?)
    ensures var t := Finished(s, id, exited, saved, recovered); id in t.engines && EngineOk(t, id, t.engines[id])
  {
  }

  lemma DecidedOwn(s: Sys, id: nat, saved: bool)
    requires id in s.engines && id in s.pairs && id !in s.close && EngineOk(s, id, s.engines[id]) && GlobalOk(s)
    requires s.main.Closing?
    ensures var t := Decided(s, id, saved); id in t.engines && EngineOk(t, id, t.engines[id])
  {
  }

  lemma ClosingAskedOwn(s: Sys, id: nat, saved: bool, sent: bool, acked: bool)
    requires id in s.engines && id in s.close && s.close[id].Stopping? && EngineOk(s, id, s.engines[id])
    ensures var t := ClosingAsked(s, id, saved, sent, acked); id in t.engines && EngineOk(t, id, t.engines[id])
  {
  }

  /** So does the shutdown. */
  lemma CloseStepOwn(s: Sys, step: Step)
    requires OfClose(step) && Enabled(s, step) && step.id in s.engines
    requires EngineOk(s, step.id, s.engines[step.id]) && GlobalOk(s)
    ensures var t := MainStep(s, step); step.id in t.engines && EngineOk(t, step.id, t.engines[step.id])
  {
    match step {
      case CloseDecide(id, saved) => DecidedOwn(s, id, saved);
      case CloseAsk(id, saved, sent, acked) => ClosingAskedOwn(s, id, saved, sent, acked);
      case CloseFinish(id, exited, saved, recovered) => FinishedOwn(s, id, exited, saved, recovered);
    }
  }

  lemma CloseStepLocal(s: Sys, step: Step)
    requires OfClose(step) && Enabled(s, step) && step.id in s.engines && CommandOk(s)
    requires EngineOk(s, step.id, s.engines[step.id]) && GlobalOk(s)
    ensures LocalStep(s, MainStep(s, step), step.id) && CommandOk(MainStep(s, step))
  {
  }

  lemma CloseStepGlobal(s: Sys, step: Step)
    requires OfClose(step) && Enabled(s, step) && step.id in s.engines && GlobalOk(s)
    ensures GlobalOk(MainStep(s, step))
  {
  }

  lemma EngineStepKeeps(s: Sys, step: Step)
    requires Inv(s) && (OfTask(step) || OfClose(step)) && Enabled(s, step)
    ensures Inv(MainStep(s, step))
  {
    assert step.id in s.engines;
    assert EngineOk(s, step.id, s.engines[step.id]);
    if OfTask(step) {
      TaskStepOwn(s, step);
      TaskStepLocal(s, step);
      TaskStepGlobal(s, step);
    } else {
      CloseStepOwn(s, step);
      CloseStepLocal(s, step);
      CloseStepGlobal(s, step);
    }
    LocalStepKeeps(s, MainStep(s, step), step.id);
  }

  // ---------------------------------------------------------------- steps of early stops and of the shutdown

  /** An engine that its removal has claimed is never stopped early: the claim was there when the call began. */
  lemma ConsideredOwn(s: Sys, caller: nat, id: nat)
    requires Enabled(s, EarlyConsider(caller, id)) && CallerOk(s, s.callers[caller])
    requires EngineOk(s, id, s.engines[id]) && CommandOk(s) && GlobalOk(s)
    ensures var t := Considered(s, caller, id); id in t.engines && EngineOk(t, id, t.engines[id])
    ensures CallerOk(s, Considered(s, caller, id).callers[caller])
  {
  }

  lemma ConsideredLocal(s: Sys, caller: nat, id: nat)
    requires Enabled(s, EarlyConsider(caller, id)) && CommandOk(s) && GlobalOk(s)
    ensures var t := Considered(s, caller, id).(callers := s.callers); LocalStep(s, t, id) && CommandOk(t) && GlobalOk(t)
  {
  }

  lemma CallersKeep(s: Sys, t: Sys)
    requires Inv(s) && t == s.(callers := t.callers) && CallersOk(t)
    requires t.callers.Keys != {} ==> s.stop && s.main.Open?
    ensures Inv(t)
  {
    forall k | k in t.engines ensures EngineOk(t, k, t.engines[k]) {
      assert EngineOk(s, k, s.engines[k]);
    }
  }

  lemma ConsideredKeeps(s: Sys, caller: nat, id: nat)
    requires Inv(s) && Enabled(s, EarlyConsider(caller, id))
    ensures Inv(Considered(s, caller, id))
  {
    var t := Considered(s, caller, id);
    var u := t.(callers := s.callers);
    assert EngineOk(s, id, s.engines[id]) && CallerOk(s, s.callers[caller]);
    ConsideredOwn(s, caller, id);
    ConsideredLocal(s, caller, id);
    LocalStepKeeps(s, u, id);
    forall c | c in t.callers ensures CallerOk(t, t.callers[c]) {
      if c != caller {
        assert CallerOk(s, s.callers[c]);
      }
    }
    CallersKeep(u, t);
  }

  lemma CallerStepKeeps(s: Sys, step: Step)
    requires Inv(s) && Enabled(s, step) && (step.EarlyBegin? || step.EarlyRead? || step.EarlyEnd?)
    ensures Inv(MainStep(s, step))
  {
    var t := MainStep(s, step);
    forall c | c in t.callers ensures CallerOk(t, t.callers[c]) {
      if c in s.callers {
        assert CallerOk(s, s.callers[c]);
      }
    }
    CallersKeep(s, t);
  }

  lemma FlagStepKeeps(s: Sys, step: Step)
    requires Inv(s) && Enabled(s, step) && (step.RequestShutdown? || step.BeginShutdown? || step.EndShutdown?)
    ensures Inv(MainStep(s, step))
  {
    var t := MainStep(s, step);
    forall k | k in t.engines ensures EngineOk(t, k, t.engines[k]) {
      assert EngineOk(s, k, s.engines[k]);
    }
    forall c | c in t.callers ensures CallerOk(t, t.callers[c]) {
      assert CallerOk(s, s.callers[c]);
    }
  }

  // ---------------------------------------------------------------- steps of the membership command

  predicate Mentions(c: Command, id: nat) {
    (HasTarget(c) && c.target == id) || (HasMade(c) && c.made == id)
  }

  /** A step of the command touches only the engines that it works on. */
  ghost predicate CommandFrame(s: Sys, t: Sys) {
    && t.early == s.early && t.close == s.close && t.callers == s.callers && t.main == s.main && t.stop == s.stop
    && s.engines.Keys <= t.engines.Keys
    && forall id | id in t.engines && !Mentions(s.command, id) && !Mentions(t.command, id) ::
         && id in s.engines && t.engines[id] == s.engines[id]
         && (id in t.pairs <==> id in s.pairs) && (id in t.failed <==> id in s.failed)
  }

  /** What a command step has to establish about the engines it works on. */
  ghost predicate InvolvedOk(s: Sys, t: Sys) {
    forall id | id in t.engines && (Mentions(s.command, id) || Mentions(t.command, id)) :: EngineOk(t, id, t.engines[id])
  }

  lemma CommandFrameKeeps(s: Sys, t: Sys)
    requires EnginesOk(s) && CommandFrame(s, t) && InvolvedOk(s, t)
    ensures EnginesOk(t)
  {
    forall id | id in t.engines && !Mentions(s.command, id) && !Mentions(t.command, id) ensures EngineOk(t, id, t.engines[id]) {
      assert EngineOk(s, id, s.engines[id]);
    }
  }

  /** What the calls of early shutdown need of a command step. */
  ghost predicate CallersFit(s: Sys, t: Sys) {
    && (t.command.Claimed? ==> (s.command == t.command || s.callers.Keys == {}) && t.command.target in s.engines)
    && forall id | id in s.engines :: id in t.engines
         && t.engines[id].symbol == s.engines[id].symbol
         && (id in s.pairs || s.engines[id].retired ==> id in t.pairs || t.engines[id].retired)
  }

  ghost predicate Fits(s: Sys, t: Sys) {
    CommandFrame(s, t) && InvolvedOk(s, t) && CallersFit(s, t) && CommandOk(t) && GlobalOk(t)
  }

  lemma FitsKeeps(s: Sys, t: Sys)
    requires Inv(s) && Fits(s, t)
    ensures Inv(t)
  {
    CommandFrameKeeps(s, t);
    forall c | c in t.callers ensures CallerOk(t, t.callers[c]) {
      assert CallerOk(s, s.callers[c]);
    }
  }

  /** What is known of the engines that the command is working on. */
  ghost predicate WorkedOn(s: Sys) {
    && (HasTarget(s.command) ==> s.command.target in s.engines && EngineOk(s, s.command.target, s.engines[s.command.target]))
    && (HasMade(s.command) ==> s.command.made in s.engines && EngineOk(s, s.command.made, s.engines[s.command.made]))
  }

  lemma AddFrame(s: Sys, step: Step)
    requires Enabled(s, step) && OfAdd(step) && CommandOk(s) && GlobalOk(s)
    ensures var t := CommandStep(s, step); CommandFrame(s, t) && CallersFit(s, t) && GlobalOk(t)
  {
  }

  lemma RemovalFrame(s: Sys, step: Step)
    requires Enabled(s, step) && OfRemoval(step) && CommandOk(s) && GlobalOk(s)
    ensures CommandFrame(s, CommandStep(s, step))
  {
  }

  lemma RemovalCallers(s: Sys, step: Step)
    requires Enabled(s, step) && OfRemoval(step) && CommandOk(s) && GlobalOk(s)
    ensures CallersFit(s, CommandStep(s, step))
  {
  }

  lemma OutcomeFrame(s: Sys, step: Step)
    requires Enabled(s, step) && OfOutcome(step) && CommandOk(s) && GlobalOk(s)
    ensures CommandFrame(s, CommandStep(s, step))
  {
  }

  lemma OutcomeCallers(s: Sys, step: Step)
    requires Enabled(s, step) && OfOutcome(step) && CommandOk(s) && GlobalOk(s)
    ensures CallersFit(s, CommandStep(s, step))
  {
  }

  lemma RemovalGlobal(s: Sys, step: Step)
    requires Enabled(s, step) && OfRemoval(step) && CommandOk(s) && GlobalOk(s)
    ensures GlobalOk(CommandStep(s, step))
  {
  }

  lemma OutcomeGlobal(s: Sys, step: Step)
    requires Enabled(s, step) && OfOutcome(step) && CommandOk(s) && GlobalOk(s)
    ensures GlobalOk(CommandStep(s, step))
  {
  }

  lemma AddStepFits(s: Sys, step: Step)
    requires Enabled(s, step) && CommandOk(s) && GlobalOk(s) && WorkedOn(s)
    requires OfAdd(step)
    ensures var t := CommandStep(s, step); InvolvedOk(s, t) && CommandOk(t)
  {
  }

  lemma AdmissionStepFits(s: Sys, step: Step)
    requires Enabled(s, step) && CommandOk(s) && GlobalOk(s) && WorkedOn(s)
    requires step.BeginRemove? || step.GiveUpRemove? || step.Claim?
    requires step.BeginRemove? ==> EngineOk(s, step.id, s.engines[step.id])
    ensures var t := CommandStep(s, step); InvolvedOk(s, t) && CommandOk(t)
  {
  }

  /** A removal asks its engine once: nothing else can have asked it since it was claimed. */
  lemma RemovalStepFits(s: Sys, step: Step)
    requires Enabled(s, step) && CommandOk(s) && GlobalOk(s) && WorkedOn(s)
    requires step.Retire? || step.AskRemoved? || step.StopRemoved?
    ensures var t := CommandStep(s, step); InvolvedOk(s, t) && CommandOk(t)
  {
    var id := s.command.target;
    assert forall k :: Mentions(CommandStep(s, step).command, k) || Mentions(s.command, k) <==> k == id;
    assert EngineOk(CommandStep(s, step), id, CommandStep(s, step).engines[id]);
  }

  lemma DeleteStepFits(s: Sys, step: Step)
    requires Enabled(s, step) && CommandOk(s) && GlobalOk(s) && WorkedOn(s)
    requires step.Delete? || step.FailReplacement? || step.Release?
    ensures var t := CommandStep(s, step); InvolvedOk(s, t) && CommandOk(t)
  {
  }

  lemma ReplaceStepFits(s: Sys, step: Step)
    requires Enabled(s, step) && CommandOk(s) && GlobalOk(s) && WorkedOn(s)
    requires step.Replace? || step.RegisterReplacement? || step.PublishReplacement?
    ensures var t := CommandStep(s, step); InvolvedOk(s, t) && CommandOk(t)
  {
  }

  lemma CommandStepFits(s: Sys, step: Step)
    requires Enabled(s, step) && OfCommand(step) && CommandOk(s) && GlobalOk(s) && WorkedOn(s)
    requires step.BeginRemove? ==> EngineOk(s, step.id, s.engines[step.id])
    ensures Fits(s, CommandStep(s, step))
  {
    if OfOutcome(step) {
      OutcomeFrame(s, step);
      OutcomeCallers(s, step);
      OutcomeGlobal(s, step);
    } else if OfAdd(step) {
      AddFrame(s, step);
    } else {
      RemovalFrame(s, step);
      RemovalCallers(s, step);
      RemovalGlobal(s, step);
    }
    if OfAdd(step) {
      AddStepFits(s, step);
    } else if step.BeginRemove? || step.GiveUpRemove? || step.Claim? {
      AdmissionStepFits(s, step);
    } else if step.Retire? || step.AskRemoved? || step.StopRemoved? {
      RemovalStepFits(s, step);
    } else if step.Delete? || step.FailReplacement? || step.Release? {
      DeleteStepFits(s, step);
    } else {
      ReplaceStepFits(s, step);
    }
  }

  lemma CommandStepKeeps(s: Sys, step: Step)
    requires Inv(s) && OfCommand(step) && Enabled(s, step)
    ensures Inv(CommandStep(s, step))
  {
    if HasTarget(s.command) {
      assert EngineOk(s, s.command.target, s.engines[s.command.target]);
    }
    if HasMade(s.command) {
      assert EngineOk(s, s.command.made, s.engines[s.command.made]);
    }
    if step.BeginRemove? {
      assert EngineOk(s, step.id, s.engines[step.id]);
    }
    CommandStepFits(s, step);
    FitsKeeps(s, CommandStep(s, step));
  }

  // ---------------------------------------------------------------- every run

  lemma StepKeeps(s: Sys, step: Step)
    requires Inv(s) && Enabled(s, step)
    ensures Inv(Apply(s, step))
  {
    if OfCommand(step) {
      CommandStepKeeps(s, step);
    } else if OfTask(step) || OfClose(step) {
      EngineStepKeeps(s, step);
    } else if step.EarlyConsider? {
      ConsideredKeeps(s, step.caller, step.id);
    } else if step.EarlyBegin? || step.EarlyRead? || step.EarlyEnd? {
      CallerStepKeeps(s, step);
    } else {
      FlagStepKeeps(s, step);
    }
  }

  /** Running engines, all of them members, published and registered. */
  ghost predicate Started(s: Sys) {
    && s.pairs == s.states == s.registry == s.engines.Keys && s.failed == {}
    && (forall id | id in s.engines :: s.engines[id] == Fresh(s.engines[id].symbol))
    && !s.stop && s.claim.None? && s.command.Idle? && s.early == map[] && s.callers == map[] && s.close == map[] && s.main.Open?
  }

  ghost predicate Runs(s: Sys, steps: seq<Step>)
    decreases |steps|
  {
    steps != [] ==> Enabled(s, steps[0]) && Runs(Apply(s, steps[0]), steps[1..])
  }

  ghost function After(s: Sys, steps: seq<Step>): Sys
    requires Runs(s, steps)
    decreases |steps|
  {
    if steps == [] then s else After(Apply(s, steps[0]), steps[1..])
  }

  lemma {:induction false} RunKeeps(s: Sys, steps: seq<Step>)
    requires Inv(s) && Runs(s, steps)
    ensures Inv(After(s, steps))
    decreases |steps|
  {
    if steps != [] {
      StepKeeps(s, steps[0]);
      RunKeeps(Apply(s, steps[0]), steps[1..]);
    }
  }

  /** Exactly-once stop: whatever interleaves, no engine instance is ever sent a second Shutdown request. */
  lemma StopsAreAskedOnce(s: Sys, steps: seq<Step>, id: nat)
    requires Started(s) && Runs(s, steps) && id in After(s, steps).engines
    ensures After(s, steps).engines[id].requests <= 1
  {
    RunKeeps(s, steps);
    var t := After(s, steps);
    assert EngineOk(t, id, t.engines[id]);
  }

  /** An early shutdown starts to stop every engine it considers, unless a removal owns it or its symbol. */
  lemma EarlyStopCoversMembers(s: Sys, caller: nat, id: nat)
    requires Inv(s) && Enabled(s, EarlyConsider(caller, id))
    ensures var t := Considered(s, caller, id);
      id in t.early || s.engines[id].retired || s.callers[caller].removing == Some(s.engines[id].symbol)
  {
    assert CallerOk(s, s.callers[caller]);
  }

  lemma StopIsKept(s: Sys, step: Step)
    requires Enabled(s, step) && s.stop && !OfCommand(step)
    ensures var t := MainStep(s, step); t.stop && t.claim == s.claim && t.command == s.command
  {
  }

  lemma NoClaimIsTaken(s: Sys, step: Step)
    requires Enabled(s, step) && s.stop && OfCommand(step)
    ensures var t := CommandStep(s, step);
      && t.stop
      && (t.claim.Some? ==> t.claim == s.claim)
      && (t.command.Claimed? ==> t.command == s.command)
      && !(step.BeginAdd? || step.BeginRemove?)
  {
  }

  /** Once the stop flag is set no removal claims an engine; a removal that was waiting gives up. */
  lemma NoClaimAfterStop(s: Sys, step: Step)
    requires Enabled(s, step) && s.stop
    ensures var t := Apply(s, step);
      && t.stop
      && (t.claim.Some? ==> t.claim == s.claim)
      && (t.command.Claimed? ==> t.command == s.command)
      && !(step.BeginAdd? || step.BeginRemove?)
  {
    if OfCommand(step) {
      NoClaimIsTaken(s, step);
    } else {
      StopIsKept(s, step);
    }
  }

  /**
   When the shutdown returns, every engine there ever was has finished: members, removed ones, replaced
   ones and replacements; and no command or claim is left. Every member's pause has been saved, or could
   not be saved in the last attempt; and a shutdown that reports no error has saved all of them.
   */
  lemma ShutdownLeavesNothingRunning(s: Sys, steps: seq<Step>)
    requires Started(s) && Runs(s, steps) && After(s, steps).main.Returned?
    ensures var t := After(s, steps);
      && t.stop && t.command.Idle? && t.claim.None?
      && (forall id | id in t.engines :: !t.engines[id].alive)
      && (forall id | id in t.pairs :: id in t.engines && (t.engines[id].paused || (t.engines[id].unsaved && !t.main.clean)))
      && (t.main.clean ==> forall id | id in t.pairs :: t.engines[id].paused)
  {
    RunKeeps(s, steps);
    var t := After(s, steps);
    forall id | id in t.engines ensures !t.engines[id].alive && (id in t.pairs ==> CloseOk(t.close[id], t.engines[id])) {
      assert EngineOk(t, id, t.engines[id]);
    }
  }
}
