/**
 Order submissions racing with an update of the global settings. An engine submits while it holds the read
 side of its own lock, which it only ever tries to take; the update takes the write side of every active
 engine's lock, one engine after another, and lets go of all of them when it ends. A step is what one party
 does between two points at which another can run.
 */
module SubmissionGate {
  import opened Basics
  import opened GlobalConfig

  /** A submission in flight, with the settings it was begun under. */
  datatype Submission = Submission(engine: nat, config: Config)

  /** An update under way; `start` is the state it was admitted in, with the old settings that a rollback restores. */
  datatype Job = Job(active: seq<nat>, config: Config, world: World, start: State)

  datatype Phase =
    | Idle
    | Acquiring(job: Job, next: nat)
    | Sending(job: Job, next: nat)
    | Saving(job: Job)
    | Restoring(job: Job, left: nat, ok: bool)
    | Pausing(job: Job, next: nat)
    | Finishing(job: Job, outcome: Outcome)

  /** `locked` holds the engines whose write side the update has; `submissions` the read sides that are held. */
  datatype Gate = Gate(settings: State, retired: set<nat>, submissions: map<nat, Submission>, locked: set<nat>, phase: Phase)

  datatype Step =
    | BeginSubmit(id: nat, engine: nat)
    | EndSubmit(id: nat)
    | Join(engine: nat)
    | Retire(engine: nat)
    | Start(active: seq<nat>, request: Request, world: World)
    | Acquire
    | SendNext
    | Save
    | RestoreNext
    | PauseNext
    | Finish

  // ---------------------------------------------------------------- steps

  predicate InFlight(g: Gate, engine: nat) {
    exists id :: id in g.submissions && g.submissions[id].engine == engine
  }

  /** The job's engines are known, each once, and its position is within them. */
  predicate WellFormed(g: Gate) {
    g.phase.Idle? || (
      && DistinctEngines(g.phase.job.active)
      && (forall e | e in g.phase.job.active :: e in g.settings.configs && e in g.phase.job.start.configs)
      && match g.phase
         case Acquiring(job, next) => next < |job.active|
         case Sending(job, next) => next < |job.active|
         case Restoring(job, left, _) => left <= |job.active|
         case Pausing(job, next) => next <= |job.active|
         case _ => true)
  }

  predicate Enabled(g: Gate, step: Step) {
    && WellFormed(g)
    && match step
       case BeginSubmit(id, engine) =>
         id !in g.submissions && engine in g.settings.configs && engine !in g.retired && engine !in g.locked
       case EndSubmit(id) => id in g.submissions
       case Join(engine) => g.phase.Idle? && engine !in g.settings.configs && engine !in g.retired
       case Retire(_) => g.phase.Idle?
       case Start(active, request, world) =>
         && g.phase.Idle? && DistinctEngines(active)
         && Members(active) == g.settings.configs.Keys - g.retired
         && Admitted(g.settings, active, request, world)
       case Acquire => g.phase.Acquiring? && !InFlight(g, g.phase.job.active[g.phase.next])
       case SendNext => g.phase.Sending?
       case Save => g.phase.Saving?
       case RestoreNext => g.phase.Restoring?
       case PauseNext => g.phase.Pausing?
       case Finish => g.phase.Finishing?
  }

  function AcquiringFrom(job: Job, next: nat): Phase {
    if next < |job.active| then Acquiring(job, next) else SendingFrom(job, 0)
  }

  function SendingFrom(job: Job, next: nat): Phase {
    if next < |job.active| then Sending(job, next) else Saving(job)
  }

  function Sent(g: Gate): Gate
    requires WellFormed(g) && g.phase.Sending?
  {
    var job, next := g.phase.job, g.phase.next;
    var (ok, t) := Send(g.settings, job.active[next], job.config, job.world);
    g.(settings := t, phase := if ok then SendingFrom(job, next + 1) else Restoring(job, next + 1, true))
  }

  /** A successful save is followed by the commit to the position limit. */
  function SavedGate(g: Gate): Gate
    requires g.phase.Saving?
  {
    var job := g.phase.job;
    var t := Saved(g.settings, job.config, job.world);
    if job.world.saves then g.(settings := t.(limit := job.config), phase := Finishing(job, Updated(job.config)))
    else g.(settings := t, phase := Restoring(job, |job.active|, true))
  }

  function Restored(g: Gate): Gate
    requires WellFormed(g) && g.phase.Restoring?
  {
    var Restoring(job, left, ok) := g.phase;
    if left == 0 then g.(phase := if ok then Finishing(job, RolledBack) else Pausing(job, 0))
    else
      var e := job.active[left - 1];
      if g.settings.configs[e] == job.start.configs[e] then g.(phase := Restoring(job, left - 1, ok))
      else
        var (sent, t) := Send(g.settings, e, job.start.configs[e], job.world);
        g.(settings := t, phase := Restoring(job, left - 1, ok && sent))
  }

  function PausedGate(g: Gate): Gate
    requires WellFormed(g) && g.phase.Pausing?
  {
    var Pausing(job, next) := g.phase;
    if next == |job.active| then g.(phase := Finishing(job, RollbackFailed))
    else
      var e, s := job.active[next], g.settings;
      g.(settings := s.(paused := s.paused + {e}, trace := s.trace + [PauseRequested(e)]), phase := Pausing(job, next + 1))
  }

  function Apply(g: Gate, step: Step): Gate
    requires Enabled(g, step)
  {
    match step
    case BeginSubmit(id, engine) => g.(submissions := g.submissions[id := Submission(engine, g.settings.configs[engine])])
    case EndSubmit(id) => g.(submissions := g.submissions - {id})
    case Join(engine) => g.(settings := g.settings.(configs := g.settings.configs[engine := g.settings.saved]))
    case Retire(engine) => g.(retired := g.retired + {engine})
    case Start(active, request, world) =>
      g.(phase := AcquiringFrom(Job(active, request.change(g.settings.saved), world, g.settings), 0))
    case Acquire =>
      var job, next := g.phase.job, g.phase.next;
      g.(locked := g.locked + {job.active[next]}, phase := AcquiringFrom(job, next + 1))
    case SendNext => Sent(g)
    case Save => SavedGate(g)
    case RestoreNext => Restored(g)
    case PauseNext => PausedGate(g)
    case Finish => g.(locked := {}, phase := Idle)
  }

  // ---------------------------------------------------------------- the update is the one of GlobalConfig

  /** What the rest of the update will come to. */
  function Rest(g: Gate): (Outcome, State)
    requires WellFormed(g) && !g.phase.Idle?
  {
    var job, s := g.phase.job, g.settings;
    match g.phase
    case Acquiring(_, _) => Propagated(s, job.active, job.config, job.world)
    case Sending(_, next) =>
      SendAllKeepsEngines(s, job.active[next..], job.config, job.world);
      var (ok, n, t) := SendAll(s, job.active[next..], job.config, job.world);
      Concluded(ok, next + n, t, job.active, job.config, job.start.configs, job.world)
    case Saving(_) => Concluded(true, |job.active|, s, job.active, job.config, job.start.configs, job.world)
    case Restoring(_, left, ok) =>
      var (rest, v) := Restore(s, job.active[..left], job.start.configs, job.world);
      Undone(ok && rest, v, job.active)
    case Pausing(_, next) => (RollbackFailed, PauseAll(s, job.active[next..]))
    case Finishing(_, outcome) => (outcome, s)
  }

  lemma AcquireKeepsRest(g: Gate)
    requires Enabled(g, Acquire) && g.settings == g.phase.job.start
    ensures WellFormed(Apply(g, Acquire)) && Rest(Apply(g, Acquire)) == Rest(g)
  {
    var job, next := g.phase.job, g.phase.next;
    if next + 1 == |job.active| {
      SendingIsPropagated(job, g.settings);
    }
  }

  /** Once all guards are held the attempts begin with the first engine. */
  lemma SendingIsPropagated(job: Job, s: State)
    requires DistinctEngines(job.active) && s == job.start && forall e | e in job.active :: e in s.configs
    ensures forall g: Gate | g.settings == s && g.phase == SendingFrom(job, 0) ::
      WellFormed(g) && Rest(g) == Propagated(s, job.active, job.config, job.world)
  {
    SendAllKeepsEngines(s, job.active, job.config, job.world);
    assert job.active[0..] == job.active;
    assert |job.active| == 0 ==> job.active == [];
  }

  lemma StartGivesRest(g: Gate, active: seq<nat>, request: Request, world: World)
    requires Enabled(g, Start(active, request, world))
    ensures var t := Apply(g, Start(active, request, world));
      WellFormed(t) && Rest(t) == Propagated(g.settings, active, request.change(g.settings.saved), world)
  {
    assert forall e | e in active :: e in Members(active);
    if |active| == 0 {
      SendingIsPropagated(Job(active, request.change(g.settings.saved), world, g.settings), g.settings);
    }
  }

  lemma RefusedKeepsRest(g: Gate)
    requires Enabled(g, SendNext) && Sent(g).phase.Restoring?
    ensures WellFormed(Sent(g)) && Rest(Sent(g)) == Rest(g)
  {
    var job, next := g.phase.job, g.phase.next;
    assert job.active[next..][0] == job.active[next];
  }

  lemma AcknowledgedKeepsRest(g: Gate)
    requires Enabled(g, SendNext) && !Sent(g).phase.Restoring?
    ensures WellFormed(Sent(g)) && Rest(Sent(g)) == Rest(g)
  {
    var job, next := g.phase.job, g.phase.next;
    var left := job.active[next..];
    assert left[0] == job.active[next] && left[1..] == job.active[next + 1..];
    var t := Sent(g).settings;
    var (ok, n, u) := SendAll(t, left[1..], job.config, job.world);
    assert SendAll(g.settings, left, job.config, job.world) == (ok, n + 1, u);
    if next + 1 == |job.active| {
      assert left[1..] == [];
    }
  }

  lemma SendKeepsRest(g: Gate)
    requires Enabled(g, SendNext)
    ensures WellFormed(Sent(g)) && Rest(Sent(g)) == Rest(g)
  {
    if Sent(g).phase.Restoring? {
      RefusedKeepsRest(g);
    } else {
      AcknowledgedKeepsRest(g);
    }
  }

  lemma SaveKeepsRest(g: Gate)
    requires Enabled(g, Save)
    ensures WellFormed(SavedGate(g)) && Rest(SavedGate(g)) == Rest(g)
  {
    assert g.phase.job.active[..|g.phase.job.active|] == g.phase.job.active;
  }

  lemma RestoreKeepsRest(g: Gate)
    requires Enabled(g, RestoreNext)
    ensures WellFormed(Restored(g)) && Rest(Restored(g)) == Rest(g)
  {
    var Restoring(job, left, ok) := g.phase;
    if left > 0 {
      var tried := job.active[..left];
      assert tried[left - 1] == job.active[left - 1] && tried[..left - 1] == job.active[..left - 1];
    } else {
      assert job.active[0..] == job.active;
    }
  }

  lemma PauseKeepsRest(g: Gate)
    requires Enabled(g, PauseNext)
    ensures WellFormed(PausedGate(g)) && Rest(PausedGate(g)) == Rest(g)
  {
    var Pausing(job, next) := g.phase;
    if next < |job.active| {
      var left := job.active[next..];
      assert left[0] == job.active[next] && left[1..] == job.active[next + 1..];
    }
  }

  predicate OfUpdate(step: Step) {
    step.SendNext? || step.Save? || step.RestoreNext? || step.PauseNext?
  }

  /** No step of the update changes what it will come to. */
  lemma UpdateStepKeepsRest(g: Gate, step: Step)
    requires OfUpdate(step) && Enabled(g, step)
    ensures WellFormed(Apply(g, step)) && !Apply(g, step).phase.Idle? && Rest(Apply(g, step)) == Rest(g)
  {
    match step
    case SendNext => SendKeepsRest(g);
    case Save => SaveKeepsRest(g);
    case RestoreNext => RestoreKeepsRest(g);
    case PauseNext => PauseKeepsRest(g);
  }

  // ---------------------------------------------------------------- what every interleaving keeps

  /** Every engine that can submit holds the saved settings, or has been asked to pause. */
  ghost predicate Settled(s: State, retired: set<nat>) {
    forall e | e in s.configs && e !in retired :: s.configs[e] == s.saved || e in s.paused
  }

  /** The engines whose write side the update has in a phase. */
  function Held(phase: Phase): set<nat>
    requires phase.Acquiring? ==> phase.next <= |phase.job.active|
  {
    match phase
    case Idle => {}
    case Acquiring(job, next) => Members(job.active[..next])
    case _ => Members(phase.job.active)
  }

  /** Submissions in flight belong to engines that are not locked, and run under the settings they began with. */
  ghost predicate Drained(g: Gate) {
    forall id | id in g.submissions ::
      var sub := g.submissions[id];
      sub.engine !in g.locked && sub.engine in g.settings.configs && g.settings.configs[sub.engine] == sub.config
  }

  ghost predicate JobOk(g: Gate) {
    if g.phase.Idle? then Settled(g.settings, g.retired)
    else
      var job := g.phase.job;
      && Members(job.active) == g.settings.configs.Keys - g.retired
      && job.start.configs.Keys == g.settings.configs.Keys
      && Settled(job.start, g.retired)
      && (g.phase.Acquiring? ==> g.settings == job.start)
      && WellFormed(g)
      && Rest(g) == Propagated(job.start, job.active, job.config, job.world)
  }

  ghost predicate Inv(g: Gate) {
    WellFormed(g) && Drained(g) && JobOk(g) && g.locked == Held(g.phase)
  }

  lemma MembersPut(active: seq<nat>, next: nat)
    requires next < |active|
    ensures Members(active[..next + 1]) == Members(active[..next]) + {active[next]}
  {
    assert active[..next + 1] == active[..next] + [active[next]];
  }

  lemma AcquireKeeps(g: Gate)
    requires Inv(g) && Enabled(g, Acquire)
    ensures Inv(Apply(g, Acquire))
  {
    var job, next := g.phase.job, g.phase.next;
    AcquireKeepsRest(g);
    MembersPut(job.active, next);
    assert job.active[..|job.active|] == job.active;
  }

  lemma StartKeeps(g: Gate, active: seq<nat>, request: Request, world: World)
    requires Inv(g) && Enabled(g, Start(active, request, world))
    ensures Inv(Apply(g, Start(active, request, world)))
  {
    StartGivesRest(g, active, request, world);
    assert active[..0] == [];
    assert |active| == 0 ==> Members(active) == {};
  }

  /** A step of the update changes the settings of locked engines only. */
  lemma UpdateStepIsLocal(g: Gate, step: Step)
    requires OfUpdate(step) && Enabled(g, step)
    ensures var t := Apply(g, step);
      && t.phase.job == g.phase.job && !t.phase.Acquiring? && !t.phase.Idle?
      && t.submissions == g.submissions && t.locked == g.locked && t.retired == g.retired
      && t.settings.configs.Keys == g.settings.configs.Keys
      && forall e | e in g.settings.configs && e !in g.phase.job.active :: t.settings.configs[e] == g.settings.configs[e]
  {
  }

  lemma UpdateStepKeeps(g: Gate, step: Step)
    requires Inv(g) && OfUpdate(step) && Enabled(g, step)
    ensures Inv(Apply(g, step))
  {
    UpdateStepKeepsRest(g, step);
    UpdateStepIsLocal(g, step);
  }

  /** When the update ends, every engine that can submit again holds the saved settings or has been asked to pause. */
  lemma FinishKeeps(g: Gate)
    requires Inv(g) && Enabled(g, Finish)
    ensures Inv(Apply(g, Finish))
  {
    var job := g.phase.job;
    PropagatedIsAllOrNothing(job.start, job.active, job.config, job.world);
    assert (g.phase.outcome, g.settings) == Propagated(job.start, job.active, job.config, job.world);
    forall e | e in g.settings.configs && e !in g.retired ensures e in job.active {
      assert e in Members(job.active);
    }
  }

  lemma OtherStepKeeps(g: Gate, step: Step)
    requires Inv(g) && Enabled(g, step) && (step.BeginSubmit? || step.EndSubmit? || step.Join? || step.Retire?)
    ensures Inv(Apply(g, step))
  {
  }

  lemma StepKeeps(g: Gate, step: Step)
    requires Inv(g) && Enabled(g, step)
    ensures Inv(Apply(g, step))
  {
    match step
    case Start(active, request, world) => StartKeeps(g, active, request, world);
    case Acquire => AcquireKeeps(g);
    case Finish => FinishKeeps(g);
    case _ =>
      if OfUpdate(step) {
        UpdateStepKeeps(g, step);
      } else {
        OtherStepKeeps(g, step);
      }
  }

  // ---------------------------------------------------------------- every run

  /** No update under way; submissions may be in flight. */
  ghost predicate Initial(g: Gate) {
    g.phase.Idle? && g.locked == {} && Settled(g.settings, g.retired) && Drained(g)
  }

  ghost predicate Leads(g: Gate, step: Step, t: Gate) {
    Enabled(g, step) && t == Apply(g, step)
  }

  /** The states of a run: step `i` leads from state `i` to state `i + 1`. */
  ghost predicate Run(states: seq<Gate>, steps: seq<Step>) {
    && |states| == |steps| + 1
    && Initial(states[0])
    && forall i | 0 <= i < |steps| :: Leads(states[i], steps[i], states[i + 1])
  }

  lemma {:induction false} RunKeeps(states: seq<Gate>, steps: seq<Step>, n: nat)
    requires Run(states, steps) && n <= |steps|
    ensures Inv(states[n])
  {
    if n > 0 {
      RunKeeps(states, steps, n - 1);
      assert Leads(states[n - 1], steps[n - 1], states[n]);
      StepKeeps(states[n - 1], steps[n - 1]);
    }
  }

  /** Some settings of the update have been or are about to be sent, and it has not ended. */
  predicate Underway(g: Gate) {
    !g.phase.Idle? && !g.phase.Acquiring?
  }

  lemma JobGoesOn(g: Gate, step: Step)
    requires Enabled(g, step) && !step.Finish? && !g.phase.Idle?
    ensures var t := Apply(g, step);
      !t.phase.Idle? && t.phase.job == g.phase.job && (Underway(g) ==> Underway(t))
  {
  }

  lemma {:induction false} JobLasts(states: seq<Gate>, steps: seq<Step>, i: nat, j: nat)
    requires Run(states, steps) && i <= j <= |steps| && !states[i].phase.Idle?
    requires forall k | i <= k < j :: !steps[k].Finish?
    ensures !states[j].phase.Idle? && states[j].phase.job == states[i].phase.job
    ensures Underway(states[i]) ==> Underway(states[j])
  {
    if i < j {
      JobLasts(states, steps, i, j - 1);
      assert Leads(states[j - 1], steps[j - 1], states[j]);
      JobGoesOn(states[j - 1], steps[j - 1]);
    }
  }

  lemma UnderwayIsQuiet(g: Gate, engine: nat)
    requires Inv(g) && Underway(g) && engine in g.phase.job.active
    ensures !InFlight(g, engine)
    ensures forall id :: !Enabled(g, BeginSubmit(id, engine))
  {
    assert engine in Members(g.phase.job.active);
  }

  /**
   From the first settings sent to the end of the update, through the save and any rollback, no submission of
   an active engine begins and none is in flight, whatever else happens in between.
   */
  lemma NoOrdersDuringUpdate(states: seq<Gate>, steps: seq<Step>, i: nat, j: nat, engine: nat)
    requires Run(states, steps) && i <= j < |steps| && steps[i].SendNext? && Enabled(states[i], steps[i])
    requires forall k | i <= k < j :: !steps[k].Finish?
    requires engine in states[i].phase.job.active
    ensures !InFlight(states[j], engine)
    ensures !(steps[j].BeginSubmit? && steps[j].engine == engine)
  {
    JobLasts(states, steps, i, j);
    RunKeeps(states, steps, j);
    UnderwayIsQuiet(states[j], engine);
    assert Leads(states[j], steps[j], states[j + 1]);
  }

  /** Such runs exist: a submission in flight is drained, its engine is locked, and the new settings are sent. */
  lemma DrainedThenSent() returns (states: seq<Gate>, steps: seq<Step>)
    ensures Run(states, steps) && |steps| == 4 && steps[3].SendNext? && Enabled(states[3], steps[3])
    ensures InFlight(states[0], 0) && 0 in states[3].phase.job.active && states[4].settings.configs == map[0 := 2]
  {
    var world := World(true, k => Ack, true);
    var request := Request(None, config => 2, (engine, config) => true);
    var settings := State(map[0 := 1], 1, 1, {}, 0, []);
    var g0 := Gate(settings, {}, map[7 := Submission(0, 1)], {}, Idle);
    assert 7 in g0.submissions;
    var g1 := Apply(g0, EndSubmit(7));
    assert Members([0]) == {0};
    var g2 := Apply(g1, Start([0], request, world));
    var g3 := Apply(g2, Acquire);
    var g4 := Apply(g3, SendNext);
    states, steps := [g0, g1, g2, g3, g4], [EndSubmit(7), Start([0], request, world), Acquire, SendNext];
    assert Leads(g0, steps[0], g1) && Leads(g1, steps[1], g2) && Leads(g2, steps[2], g3) && Leads(g3, steps[3], g4);
  }

  /** A submission runs from its beginning to its end under the settings its engine had when it began. */
  lemma SubmissionsSeeOneConfig(states: seq<Gate>, steps: seq<Step>, n: nat, id: nat)
    requires Run(states, steps) && n <= |steps| && id in states[n].submissions
    ensures var sub := states[n].submissions[id];
      sub.engine in states[n].settings.configs && states[n].settings.configs[sub.engine] == sub.config
  {
    RunKeeps(states, steps, n);
  }

  /** No order is submitted under settings that are not durable: they are the saved ones, or the engine has been asked to pause. */
  lemma SubmissionsUseSavedSettings(states: seq<Gate>, steps: seq<Step>, n: nat)
    requires Run(states, steps) && n < |steps| && steps[n].BeginSubmit?
    ensures var s, e := states[n].settings, steps[n].engine;
      e in s.configs && (s.configs[e] == s.saved || e in s.paused)
  {
    RunKeeps(states, steps, n);
    assert Leads(states[n], steps[n], states[n + 1]);
  }

  /** An interleaved update ends with exactly the outcome and the settings of the uninterrupted one. */
  lemma UpdateEndsAsApplied(states: seq<Gate>, steps: seq<Step>, i: nat, j: nat)
    requires Run(states, steps) && i < j < |steps| && steps[i].Start? && steps[j].Finish?
    requires Enabled(states[i], steps[i]) && Enabled(states[j], steps[j])
    requires forall k | i < k < j :: !steps[k].Finish?
    ensures forall e | e in steps[i].active :: e in states[i].settings.configs
    ensures (states[j].phase.outcome, states[j + 1].settings)
         == Applied(states[i].settings, steps[i].active, steps[i].request, steps[i].world)
  {
    assert Leads(states[i], steps[i], states[i + 1]) && Leads(states[j], steps[j], states[j + 1]);
    JobLasts(states, steps, i + 1, j);
    RunKeeps(states, steps, j);
    assert forall e | e in steps[i].active :: e in Members(steps[i].active);
  }

  lemma MembersMean(active: seq<nat>)
    ensures forall e :: e in active ==> e in Members(active)
  {
  }

  lemma RetiredStays(g: Gate, step: Step)
    requires Enabled(g, step)
    ensures g.retired <= Apply(g, step).retired && (step.Retire? ==> step.engine in Apply(g, step).retired)
  {
  }

  /** Once retired an engine is never again asked to install settings, nor does it begin another submission. */
  lemma {:induction false} RetiredIsLeftAlone(states: seq<Gate>, steps: seq<Step>, i: nat, j: nat, engine: nat)
    requires Run(states, steps) && i < j <= |steps| && steps[i] == Retire(engine)
    ensures engine in states[j].retired && (forall id :: !Enabled(states[j], BeginSubmit(id, engine)))
    ensures !states[j].phase.Idle? ==> engine !in states[j].phase.job.active
    decreases j
  {
    assert Leads(states[j - 1], steps[j - 1], states[j]);
    RetiredStays(states[j - 1], steps[j - 1]);
    if i < j - 1 {
      RetiredIsLeftAlone(states, steps, i, j - 1, engine);
    }
    RunKeeps(states, steps, j);
    if !states[j].phase.Idle? {
      MembersMean(states[j].phase.job.active);
    }
  }

  // ---------------------------------------------------------------- no update waits for ever

  /** A step of the update itself. */
  predicate OwnStep(step: Step) {
    step.Acquire? || OfUpdate(step) || step.Finish?
  }

  /** At most so many more steps of its own end the update. */
  function StepsLeft(g: Gate): nat
    requires WellFormed(g) && !g.phase.Idle?
  {
    var n := |g.phase.job.active|;
    match g.phase
    case Acquiring(_, next) => 4 * n - next + 5
    case Sending(_, next) => 3 * n - next + 4
    case Saving(_) => 2 * n + 4
    case Restoring(_, left, _) => left + n + 3
    case Pausing(_, next) => n - next + 2
    case Finishing(_, _) => 1
  }

  /** An own step brings the update nearer to its end, and its last one lets go of every engine; other steps leave it where it is. */
  lemma UpdateGoesOn(g: Gate, step: Step)
    requires Enabled(g, step) && !g.phase.Idle? && WellFormed(Apply(g, step))
    ensures var t := Apply(g, step);
      if step.Finish? then t.phase.Idle? && t.locked == {}
      else if OwnStep(step) then !t.phase.Idle? && StepsLeft(t) < StepsLeft(g)
      else t.phase == g.phase
  {
  }

  /** Only a submission in flight holds an update up: it waits for the next engine's submissions to end, and for nothing else. */
  lemma OnlySubmissionsHoldUp(g: Gate)
    requires Inv(g) && !g.phase.Idle?
    ensures (exists step :: OwnStep(step) && Enabled(g, step)) <==>
      (g.phase.Acquiring? ==> !InFlight(g, g.phase.job.active[g.phase.next]))
    ensures forall id | id in g.submissions :: Enabled(g, EndSubmit(id)) && id !in Apply(g, EndSubmit(id)).submissions
  {
    match g.phase
    case Acquiring(_, _) => assert OwnStep(Acquire);
    case Sending(_, _) => assert OwnStep(SendNext) && Enabled(g, SendNext);
    case Saving(_) => assert OwnStep(Save) && Enabled(g, Save);
    case Restoring(_, _, _) => assert OwnStep(RestoreNext) && Enabled(g, RestoreNext);
    case Pausing(_, _) => assert OwnStep(PauseNext) && Enabled(g, PauseNext);
    case Finishing(_, _) => assert OwnStep(Finish) && Enabled(g, Finish);
  }

  /** How many of the steps from `i` to `j` are the update's own. */
  function OwnSteps(steps: seq<Step>, i: nat, j: nat): nat
    requires i <= j <= |steps|
  {
    if i == j then 0 else OwnSteps(steps, i, j - 1) + (if OwnStep(steps[j - 1]) then 1 else 0)
  }

  /** An update that has not ended has taken at most four steps for every active engine, and four more. */
  lemma {:induction false} UpdateStepsAreBounded(states: seq<Gate>, steps: seq<Step>, i: nat, j: nat)
    requires Run(states, steps) && i <= j <= |steps| && !states[i].phase.Idle?
    requires forall k | i <= k < j :: !steps[k].Finish?
    ensures !states[j].phase.Idle? && WellFormed(states[i]) && WellFormed(states[j])
    ensures OwnSteps(steps, i, j) + StepsLeft(states[j]) <= StepsLeft(states[i])
    ensures OwnSteps(steps, i, j) <= 4 * |states[i].phase.job.active| + 4
    decreases j
  {
    RunKeeps(states, steps, i);
    RunKeeps(states, steps, j);
    if i < j {
      UpdateStepsAreBounded(states, steps, i, j - 1);
      assert Leads(states[j - 1], steps[j - 1], states[j]);
      UpdateGoesOn(states[j - 1], steps[j - 1]);
    }
  }
}
