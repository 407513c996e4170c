/**
 The all-or-nothing update of the global settings: every active engine is asked to install them, the
 database saves them, and any failure is rolled back engine by engine or answered by pausing everything.
 How the engines' order submissions interleave with it is in the module SubmissionGate.
 */
module GlobalConfig {
  import opened Basics

  /** The settings, by version: equal versions are equal settings. */
  type Config = int

  /** What an engine does with settings sent to it. A refusal may or may not leave them installed. */
  datatype Reply = Ack | Refused(installed: bool)

  datatype Event = Sent(engine: nat, config: Config, ok: bool) | SaveAttempted(ok: bool) | PauseRequested(engine: nat)

  /** What the surroundings answer: reading the settings, the engines' replies in order, and the save. */
  datatype World = World(loads: bool, replies: nat -> Reply, saves: bool)

  datatype Request = Request(baseline: Option<Config>, change: Config -> Config, valid: (nat, Config) -> bool)

  datatype State = State(
    configs: map<nat, Config>, saved: Config, limit: Config, paused: set<nat>, sends: nat, trace: seq<Event>)

  datatype Outcome = LoadFailed | Stale | Invalid | Updated(config: Config) | RolledBack | RollbackFailed

  // ---------------------------------------------------------------- sending

  function Send(s: State, engine: nat, config: Config, w: World): (bool, State) {
    var reply := w.replies(s.sends);
    (reply.Ack?,
     s.(configs := if reply.Ack? || reply.installed then s.configs[engine := config] else s.configs,
        sends := s.sends + 1,
        trace := s.trace + [Sent(engine, config, reply.Ack?)]))
  }

  /** Sends to one engine after another, up to and including the first that refuses; returns how many were tried. */
  function SendAll(s: State, active: seq<nat>, config: Config, w: World): (bool, nat, State)
    decreases |active|
  {
    if active == [] then (true, 0, s)
    else
      var (ok, t) := Send(s, active[0], config, w);
      if !ok then (false, 1, t)
      else
        var (rest, n, u) := SendAll(t, active[1..], config, w);
        (rest, n + 1, u)
  }

  /** Restores the tried engines in reverse, skipping those that still hold their old settings. */
  function Restore(s: State, tried: seq<nat>, before: map<nat, Config>, w: World): (bool, State)
    requires forall e | e in tried :: e in before && e in s.configs
    decreases |tried|
  {
    if tried == [] then (true, s)
    else
      var e := tried[|tried| - 1];
      var (ok, t) := if s.configs[e] == before[e] then (true, s) else Send(s, e, before[e], w);
      var (rest, u) := Restore(t, tried[..|tried| - 1], before, w);
      (ok && rest, u)
  }

  function PauseAll(s: State, active: seq<nat>): State
    decreases |active|
  {
    if active == [] then s
    else PauseAll(s.(paused := s.paused + {active[0]}, trace := s.trace + [PauseRequested(active[0])]), active[1..])
  }

  function Members(active: seq<nat>): set<nat> {
    set e | e in active
  }

  predicate AllValid(active: seq<nat>, config: Config, request: Request) {
    forall e | e in active :: request.valid(e, config)
  }

  function Saved(s: State, config: Config, w: World): State {
    s.(saved := if w.saves then config else s.saved, trace := s.trace + [SaveAttempted(w.saves)])
  }

  /** What follows the attempts: the save, and the rollback of the first `n` engines if anything has failed. */
  function Concluded(sent: bool, n: nat, t: State, active: seq<nat>, config: Config, before: map<nat, Config>, w: World): (Outcome, State)
    requires n <= |active| && forall e | e in active :: e in before && e in t.configs
  {
    var u := if sent then Saved(t, config, w) else t;
    if sent && w.saves then (Updated(config), u.(limit := config))
    else
      var (restored, v) := Restore(u, active[..n], before, w);
      Undone(restored, v, active)
  }

  function Undone(restored: bool, v: State, active: seq<nat>): (Outcome, State) {
    if restored then (RolledBack, v) else (RollbackFailed, PauseAll(v, active))
  }

  /** Installing in every engine and in the database, or undoing it. */
  function Propagated(s: State, active: seq<nat>, config: Config, w: World): (Outcome, State)
    requires forall e | e in active :: e in s.configs
  {
    SendAllKeepsEngines(s, active, config, w);
    var (sent, n, t) := SendAll(s, active, config, w);
    Concluded(sent, n, t, active, config, s.configs, w)
  }

  /** The request is based on the settings in force, and they would be valid in every active engine. */
  predicate Admitted(s: State, active: seq<nat>, request: Request, w: World) {
    && w.loads
    && (request.baseline.Some? ==> request.baseline.value == s.saved)
    && AllValid(active, request.change(s.saved), request)
  }

  function Applied(s: State, active: seq<nat>, request: Request, w: World): (Outcome, State)
    requires forall e | e in active :: e in s.configs
  {
    var config := request.change(s.saved);
    if !w.loads then (LoadFailed, s)
    else if request.baseline.Some? && request.baseline.value != s.saved then (Stale, s)
    else if !AllValid(active, config, request) then (Invalid, s)
    else Propagated(s, active, config, w)
  }

  // ---------------------------------------------------------------- what the steps do

  lemma {:induction false} SendAllKeepsEngines(s: State, active: seq<nat>, config: Config, w: World)
    ensures var (ok, n, t) := SendAll(s, active, config, w);
      && s.configs.Keys <= t.configs.Keys
      && n <= |active| && (ok ==> n == |active|)
      && t.saved == s.saved && t.limit == s.limit && t.paused == s.paused
    decreases |active|
  {
    if active != [] {
      var (ok, t) := Send(s, active[0], config, w);
      SendAllKeepsEngines(t, active[1..], config, w);
    }
  }

  predicate DistinctEngines(active: seq<nat>) {
    forall i, j | 0 <= i < j < |active| :: active[i] != active[j]
  }

  /** The engines that were not tried hold what they held. */
  lemma {:induction false} SendAllFrame(s: State, active: seq<nat>, config: Config, w: World)
    requires DistinctEngines(active) && forall e | e in active :: e in s.configs
    ensures var (ok, n, t) := SendAll(s, active, config, w);
      && n <= |active| && t.configs.Keys == s.configs.Keys
      && forall e | e in s.configs && e !in active[..n] :: t.configs[e] == s.configs[e]
    decreases |active|
  {
    if active != [] {
      var (ok, t) := Send(s, active[0], config, w);
      var rest := active[1..];
      assert active == [active[0]] + rest;
      assert forall e | e in rest :: e in active;
      SendAllFrame(t, rest, config, w);
      var (_, n, _) := SendAll(t, rest, config, w);
      assert active[..n + 1] == [active[0]] + rest[..n];
      assert active[..1] == [active[0]];
    }
  }

  /** Every engine holds its old or the new settings, and after success, when all acknowledged, all hold the new ones. */
  lemma {:induction false} SendAllMeans(s: State, active: seq<nat>, config: Config, w: World)
    requires DistinctEngines(active) && forall e | e in active :: e in s.configs
    ensures var (ok, n, t) := SendAll(s, active, config, w);
      && n <= |active| && t.configs.Keys == s.configs.Keys
      && (forall e | e in s.configs && e !in active[..n] :: t.configs[e] == s.configs[e])
      && (forall e | e in active :: t.configs[e] == s.configs[e] || t.configs[e] == config)
      && (ok ==> forall e | e in active :: t.configs[e] == config)
      && (ok <==> forall k: nat | s.sends <= k < s.sends + |active| :: w.replies(k).Ack?)
    decreases |active|
  {
    SendAllFrame(s, active, config, w);
    if active != [] {
      var (ok, t) := Send(s, active[0], config, w);
      var rest := active[1..];
      assert active == [active[0]] + rest && active[0] !in rest;
      assert forall e | e in rest :: e in active;
      SendAllMeans(t, rest, config, w);
      assert s.sends <= s.sends < s.sends + |active|;
    }
  }

  /** Restoring brings every tried engine back, or leaves each with settings it held or was sent. */
  lemma {:induction false} RestoreMeans(s: State, tried: seq<nat>, before: map<nat, Config>, w: World)
    requires DistinctEngines(tried) && forall e | e in tried :: e in before && e in s.configs
    ensures var (ok, t) := Restore(s, tried, before, w);
      && t.configs.Keys == s.configs.Keys
      && (forall e | e in s.configs && e !in tried :: t.configs[e] == s.configs[e])
      && (forall e | e in tried :: t.configs[e] == before[e] || t.configs[e] == s.configs[e])
      && (ok ==> forall e | e in tried :: t.configs[e] == before[e])
      && t.saved == s.saved && t.limit == s.limit && t.paused == s.paused
    decreases |tried|
  {
    if tried != [] {
      var e, init := tried[|tried| - 1], tried[..|tried| - 1];
      assert tried == init + [e];
      var (ok, t) := if s.configs[e] == before[e] then (true, s) else Send(s, e, before[e], w);
      assert e !in init;
      RestoreMeans(t, init, before, w);
    }
  }

  lemma {:induction false} PauseAllMeans(s: State, active: seq<nat>)
    ensures var t := PauseAll(s, active);
      t.paused == s.paused + Members(active) && t == s.(paused := t.paused, trace := t.trace)
    decreases |active|
  {
    if active != [] {
      var rest := active[1..];
      assert active == [active[0]] + rest;
      PauseAllMeans(s.(paused := s.paused + {active[0]}, trace := s.trace + [PauseRequested(active[0])]), rest);
    }
  }

  // ---------------------------------------------------------------- all or nothing

  ghost predicate Unchanged(s: State, t: State) {
    t.configs == s.configs && t.saved == s.saved && t.limit == s.limit && t.paused == s.paused
  }

  ghost predicate AllNew(s: State, t: State, active: seq<nat>, config: Config) {
    && t.saved == t.limit == config && t.paused == s.paused
    && t.configs.Keys == s.configs.Keys
    && forall e | e in s.configs :: t.configs[e] == if e in active then config else s.configs[e]
  }

  /** Every active engine has been asked to pause; the database and the limit still hold the old settings. */
  ghost predicate AllPaused(s: State, t: State, active: seq<nat>, config: Config) {
    && t.saved == s.saved && t.limit == s.limit
    && Members(active) <= t.paused
    && t.configs.Keys == s.configs.Keys
    && forall e | e in s.configs :: t.configs[e] == s.configs[e] || (e in active && t.configs[e] == config)
  }

  lemma PropagatedIsAllOrNothing(s: State, active: seq<nat>, config: Config, w: World)
    requires DistinctEngines(active) && forall e | e in active :: e in s.configs
    ensures var (outcome, t) := Propagated(s, active, config, w);
      match outcome
      case Updated(c) => c == config && AllNew(s, t, active, config)
      case RolledBack => Unchanged(s, t)
      case RollbackFailed => AllPaused(s, t, active, config)
      case _ => false
  {
    SendAllKeepsEngines(s, active, config, w);
    SendAllMeans(s, active, config, w);
    var (sent, n, t) := SendAll(s, active, config, w);
    var u := if sent then Saved(t, config, w) else t;
    if !(sent && w.saves) {
      var tried := active[..n];
      RestoreMeans(u, tried, s.configs, w);
      var (restored, v) := Restore(u, tried, s.configs, w);
      PauseAllMeans(v, active);
      if restored {
        assert v.configs == s.configs;
      }
    }
  }

  /**
   The update ends in one of three ways: every active engine, the database and the limit hold the new
   settings; all of them hold what they held before; or the failure is reported, the database and the
   limit hold the old settings, and every active engine has been asked to pause.
   */
  lemma UpdateIsAllOrNothing(s: State, active: seq<nat>, request: Request, w: World)
    requires DistinctEngines(active) && forall e | e in active :: e in s.configs
    ensures var (outcome, t) := Applied(s, active, request, w);
      match outcome
      case Updated(config) => config == request.change(s.saved) && AllNew(s, t, active, config)
      case RollbackFailed => AllPaused(s, t, active, request.change(s.saved))
      case RolledBack => Unchanged(s, t)
      case LoadFailed => t == s && !w.loads
      case Stale => t == s && w.loads && request.baseline.Some? && request.baseline.value != s.saved
      case Invalid =>
        && t == s && w.loads && (request.baseline.Some? ==> request.baseline.value == s.saved)
        && exists e :: e in active && !request.valid(e, request.change(s.saved))
  {
    PropagatedIsAllOrNothing(s, active, request.change(s.saved), w);
  }

  /** It succeeds exactly when the request is current and valid, every engine acknowledges, and the save succeeds. */
  lemma UpdateSucceedsIff(s: State, active: seq<nat>, request: Request, w: World)
    requires DistinctEngines(active) && forall e | e in active :: e in s.configs
    ensures Applied(s, active, request, w).0.Updated? <==>
      && Admitted(s, active, request, w)
      && (forall k: nat | s.sends <= k < s.sends + |active| :: w.replies(k).Ack?)
      && w.saves
  {
    SendAllMeans(s, active, request.change(s.saved), w);
  }

  /** The settings that `engine` was sent among the events after the first `n`. */
  function SentTo(trace: seq<Event>, n: nat, engine: nat): seq<Config>
    requires n <= |trace|
    decreases |trace|
  {
    if n == |trace| then []
    else
      var last := trace[|trace| - 1];
      SentTo(trace[..|trace| - 1], n, engine) + (if last.Sent? && last.engine == engine then [last.config] else [])
  }

  lemma SentToPut(trace: seq<Event>, n: nat, engine: nat, event: Event)
    requires n <= |trace|
    ensures SentTo(trace + [event], n, engine) ==
      SentTo(trace, n, engine) + (if event.Sent? && event.engine == engine then [event.config] else [])
  {
    assert (trace + [event])[..|trace|] == trace;
  }

  /**
   The rollback sends an engine its old settings exactly once if it no longer holds them. An engine that still
   holds them, because its refusal installed nothing, is sent nothing, whatever the others need.
   */
  lemma {:induction false} RestoreSendsWhereNeeded(s: State, tried: seq<nat>, before: map<nat, Config>, w: World, n: nat, engine: nat)
    requires DistinctEngines(tried) && forall e | e in tried :: e in before && e in s.configs
    requires n <= |s.trace|
    ensures var t := Restore(s, tried, before, w).1;
      && n <= |t.trace|
      && SentTo(t.trace, n, engine) == SentTo(s.trace, n, engine) +
           (if engine in tried && s.configs[engine] != before[engine] then [before[engine]] else [])
    decreases |tried|
  {
    if tried != [] {
      var e, init := tried[|tried| - 1], tried[..|tried| - 1];
      assert tried == init + [e] && e !in init;
      var t := (if s.configs[e] == before[e] then (true, s) else Send(s, e, before[e], w)).1;
      SentToPut(s.trace, n, engine, Sent(e, before[e], w.replies(s.sends).Ack?));
      RestoreSendsWhereNeeded(t, init, before, w, n, engine);
    }
  }

  // ---------------------------------------------------------------- who is asked, in which order

  /** The first `n` engines are tried: all before the last acknowledge, and only a refusal ends the attempts early. */
  predicate IsTried(s: State, active: seq<nat>, w: World, n: nat) {
    && n <= |active| && (forall k: nat | s.sends <= k < s.sends + n - 1 :: w.replies(k).Ack?)
    && (n < |active| ==> n > 0 && !w.replies(s.sends + n - 1).Ack?)
  }

  function Attempts(s: State, active: seq<nat>, config: Config, w: World, n: nat): seq<Event>
    requires n <= |active|
  {
    seq(n, i requires 0 <= i < n => Sent(active[i], config, w.replies(s.sends + i).Ack?))
  }

  lemma {:induction false} SendAllIsOrdered(s: State, active: seq<nat>, config: Config, w: World)
    ensures var (ok, n, t) := SendAll(s, active, config, w);
      && IsTried(s, active, w, n) && t.sends == s.sends + n
      && t.trace == s.trace + Attempts(s, active, config, w, n)
      && (ok <==> n == |active| && (n > 0 ==> w.replies(s.sends + n - 1).Ack?))
    decreases |active|
  {
    if active == [] {
      assert Attempts(s, active, config, w, 0) == [];
    } else {
      var (ok, t) := Send(s, active[0], config, w);
      SendAllIsOrdered(t, active[1..], config, w);
      var n := SendAll(t, active[1..], config, w).1;
      if ok {
        AttemptsPut(s, t, active, config, w, n);
      } else {
        assert Attempts(s, active, config, w, 1) == [Sent(active[0], config, false)];
      }
    }
  }

  lemma AttemptsPut(s: State, t: State, active: seq<nat>, config: Config, w: World, n: nat)
    requires active != [] && n < |active| && t.sends == s.sends + 1
    requires t.trace == s.trace + [Sent(active[0], config, w.replies(s.sends).Ack?)]
    ensures t.trace + Attempts(t, active[1..], config, w, n) == s.trace + Attempts(s, active, config, w, n + 1)
  {
  }

  /** What was traced after `before` is one restore of a tried engine after another, with the answers it met. */
  ghost predicate RestoresTraced(s: State, t: State, before: map<nat, Config>, w: World) {
    && |t.trace| - |s.trace| == t.sends - s.sends >= 0 && s.trace <= t.trace
    && forall i | |s.trace| <= i < |t.trace| ::
         && t.trace[i].Sent? && t.trace[i].engine in before && t.trace[i].config == before[t.trace[i].engine]
         && (t.trace[i].ok <==> w.replies(s.sends + (i - |s.trace|)).Ack?)
  }

  lemma {:induction false} RestoreAnswers(s: State, tried: seq<nat>, before: map<nat, Config>, w: World)
    requires forall e | e in tried :: e in before && e in s.configs
    ensures var (ok, t) := Restore(s, tried, before, w);
      RestoresTraced(s, t, before, w) && (ok <==> forall i | |s.trace| <= i < |t.trace| :: t.trace[i].ok)
    decreases |tried|
  {
    if tried != [] {
      var e, init := tried[|tried| - 1], tried[..|tried| - 1];
      var t := (if s.configs[e] == before[e] then (true, s) else Send(s, e, before[e], w)).1;
      RestoreAnswers(t, init, before, w);
      var u := Restore(t, init, before, w).1;
      if s.configs[e] != before[e] {
        assert t.trace[|s.trace|] == u.trace[|s.trace|] == Sent(e, before[e], w.replies(s.sends).Ack?);
        assert s.trace <= u.trace;
      }
    }
  }

  lemma {:induction false} PausesTraced(s: State, active: seq<nat>)
    ensures var t := PauseAll(s, active);
      && |t.trace| == |s.trace| + |active| && s.trace <= t.trace
      && forall i | |s.trace| <= i < |t.trace| :: t.trace[i] == PauseRequested(active[i - |s.trace|])
    decreases |active|
  {
    if active != [] {
      var t := s.(paused := s.paused + {active[0]}, trace := s.trace + [PauseRequested(active[0])]);
      PausesTraced(t, active[1..]);
      var u := PauseAll(t, active[1..]);
      assert s.trace <= t.trace <= u.trace && u.trace[|s.trace|] == t.trace[|s.trace|];
    }
  }

  /** What was asked before any undoing: the engines in order up to the first refusal, and the database if there was none. */
  ghost predicate AskedFirst(s: State, active: seq<nat>, config: Config, w: World, asked: seq<Event>) {
    exists n :: IsTried(s, active, w, n)
      && asked == Attempts(s, active, config, w, n)
                  + if forall k: nat | s.sends <= k < s.sends + |active| :: w.replies(k).Ack? then [SaveAttempted(w.saves)] else []
  }

  /** What follows: nothing after a success; after a failure the restores, and the pauses exactly if a restore was refused. */
  ghost predicate UndoneAsTraced(s: State, active: seq<nat>, outcome: Outcome, undo: seq<Event>) {
    match outcome
    case Updated(_) => undo == []
    case RolledBack =>
      forall e | e in undo :: e.Sent? && e.ok && e.engine in s.configs && e.config == s.configs[e.engine]
    case RollbackFailed => exists restores: seq<Event>, pauses ::
      && undo == restores + pauses && |pauses| == |active|
      && (forall i | 0 <= i < |active| :: pauses[i] == PauseRequested(active[i]))
      && (forall e | e in restores :: e.Sent? && e.engine in s.configs && e.config == s.configs[e.engine])
      && (exists e :: e in restores && !e.ok)
    case _ => false
  }

  lemma RestoresAreTraced(u: State, v: State, start: State, w: World) returns (restores: seq<Event>)
    requires RestoresTraced(u, v, start.configs, w)
    ensures v.trace == u.trace + restores
    ensures forall e | e in restores :: e.Sent? && e.engine in start.configs && e.config == start.configs[e.engine]
    ensures (forall e | e in restores :: e.ok) <==> forall i | |u.trace| <= i < |v.trace| :: v.trace[i].ok
  {
    restores := v.trace[|u.trace|..];
    forall i | |u.trace| <= i < |v.trace| ensures v.trace[i] == restores[i - |u.trace|] && v.trace[i] in restores {
    }
    forall e | e in restores ensures exists i :: |u.trace| <= i < |v.trace| && v.trace[i] == e {
      var k :| 0 <= k < |restores| && restores[k] == e;
      assert v.trace[|u.trace| + k] == e;
    }
  }

  lemma PausesAreTraced(v: State, active: seq<nat>) returns (pauses: seq<Event>)
    ensures PauseAll(v, active).trace == v.trace + pauses && |pauses| == |active|
    ensures forall i | 0 <= i < |active| :: pauses[i] == PauseRequested(active[i])
  {
    PausesTraced(v, active);
    pauses := PauseAll(v, active).trace[|v.trace|..];
    forall i | 0 <= i < |active| ensures pauses[i] == PauseRequested(active[i]) {
      assert pauses[i] == PauseAll(v, active).trace[|v.trace| + i];
    }
  }

  lemma UndoIsTraced(u: State, tried: seq<nat>, start: State, active: seq<nat>, w: World)
    requires forall e | e in tried :: e in start.configs && e in u.configs
    ensures var (restored, v) := Restore(u, tried, start.configs, w);
      var (outcome, t) := Undone(restored, v, active);
      u.trace <= t.trace && UndoneAsTraced(start, active, outcome, t.trace[|u.trace|..])
  {
    RestoreAnswers(u, tried, start.configs, w);
    var (restored, v) := Restore(u, tried, start.configs, w);
    var restores := RestoresAreTraced(u, v, start, w);
    if restored {
      assert v.trace[|u.trace|..] == restores;
    } else {
      var pauses := PausesAreTraced(v, active);
      assert PauseAll(v, active).trace[|u.trace|..] == restores + pauses;
    }
  }

  /**
   The whole exchange of an admitted update: the engines are asked in order until one refuses, the database is asked to
   save only when all have acknowledged, and the undoing after a failure ends in pauses exactly if an engine refuses
   to take its old settings back.
   */
  lemma UpdateIsOrdered(s: State, active: seq<nat>, request: Request, w: World)
    requires (forall e | e in active :: e in s.configs) && Admitted(s, active, request, w)
    ensures var (outcome, t) := Applied(s, active, request, w);
      exists asked: seq<Event> :: AskedFirst(s, active, request.change(s.saved), w, asked)
        && s.trace + asked <= t.trace && UndoneAsTraced(s, active, outcome, t.trace[|s.trace + asked|..])
  {
    var config := request.change(s.saved);
    SendAllKeepsEngines(s, active, config, w);
    SendAllIsOrdered(s, active, config, w);
    var (sent, n, t) := SendAll(s, active, config, w);
    var u := if sent then Saved(t, config, w) else t;
    var asked := Attempts(s, active, config, w, n) + if sent then [SaveAttempted(w.saves)] else [];
    assert u.trace == s.trace + asked;
    assert AskedFirst(s, active, config, w, asked);
    if !(sent && w.saves) {
      UndoIsTraced(u, active[..n], s, active, w);
    }
  }

  // ---------------------------------------------------------------- the runtime's method, step by step

  class Settings {
    var configs: map<nat, Config>
    var saved: Config
    var limit: Config
    var paused: set<nat>
    var sends: nat
    ghost var trace: seq<Event>

    ghost function Value(): State
      reads this
    {
      State(configs, saved, limit, paused, sends, trace)
    }

    constructor (configs: map<nat, Config>, saved: Config)
      ensures Value() == State(configs, saved, saved, {}, 0, [])
    {
      this.configs, this.saved, limit := configs, saved, saved;
      paused, sends, trace := {}, 0, [];
    }

    method SendGlobalConfig(engine: nat, config: Config, w: World) returns (ok: bool)
      modifies this
      ensures (ok, Value()) == Send(old(Value()), engine, config, w)
    {
      var reply := w.replies(sends);
      ok := reply.Ack?;
      if ok || reply.installed {
        configs := configs[engine := config];
      }
      sends := sends + 1;
      trace := trace + [Sent(engine, config, ok)];
    }

    /** Tries the engines in order, noting each one's settings before it is sent the new ones. */
    method SendToAll(active: seq<nat>, config: Config, w: World) returns (ok: bool, attempted: seq<(nat, Config)>)
      requires DistinctEngines(active) && forall e | e in active :: e in configs
      modifies this
      ensures (ok, |attempted|, Value()) == SendAll(old(Value()), active, config, w)
      ensures |attempted| <= |active|
      ensures forall i | 0 <= i < |attempted| :: attempted[i] == (active[i], old(configs)[active[i]])
    {
      attempted, ok := [], true;
      var i := 0;
      while i < |active|
        invariant 0 <= i <= |active| && |attempted| == i && ok
        invariant forall e | e in active :: e in configs
        invariant forall j | i <= j < |active| :: configs[active[j]] == old(configs)[active[j]]
        invariant forall j | 0 <= j < i :: attempted[j] == (active[j], old(configs)[active[j]])
        invariant var (all, n, t) := SendAll(Value(), active[i..], config, w);
          SendAll(old(Value()), active, config, w) == (all, n + i, t)
      {
        attempted := attempted + [(active[i], configs[active[i]])];
        assert active[i..][0] == active[i] && active[i..][1..] == active[i + 1..];
        ok := SendGlobalConfig(active[i], config, w);
        i := i + 1;
        if !ok {
          return;
        }
      }
    }

    /** Undoes the attempts in reverse order, skipping engines that already hold their old settings. */
    method RestoreAll(attempted: seq<(nat, Config)>, w: World, ghost tried: seq<nat>, ghost before: map<nat, Config>) returns (ok: bool)
      requires |tried| == |attempted|
      requires forall i | 0 <= i < |tried| :: tried[i] in before && tried[i] in configs && attempted[i] == (tried[i], before[tried[i]])
      modifies this
      ensures (ok, Value()) == Restore(old(Value()), tried, before, w)
    {
      ok := true;
      var i := |attempted|;
      assert tried[..i] == tried;
      while i > 0
        invariant 0 <= i <= |attempted|
        invariant forall e | e in tried :: e in configs && e in before
        invariant var (rest, t) := Restore(Value(), tried[..i], before, w);
          Restore(old(Value()), tried, before, w) == (ok && rest, t)
      {
        i := i - 1;
        var (engine, was) := attempted[i];
        assert tried[..i + 1][..i] == tried[..i] && tried[..i + 1][i] == engine;
        if configs[engine] != was {
          var sent := SendGlobalConfig(engine, was, w);
          ok := ok && sent;
        }
      }
    }

    method PauseEngines(active: seq<nat>)
      modifies this`paused, this`trace
      ensures Value() == PauseAll(old(Value()), active)
    {
      var i := 0;
      assert active[i..] == active;
      while i < |active|
        invariant 0 <= i <= |active|
        invariant PauseAll(Value(), active[i..]) == PauseAll(old(Value()), active)
      {
        assert active[i..][0] == active[i] && active[i..][1..] == active[i + 1..];
        paused := paused + {active[i]};
        trace := trace + [PauseRequested(active[i])];
        i := i + 1;
      }
    }

    method Propagate(active: seq<nat>, config: Config, w: World) returns (outcome: Outcome)
      requires DistinctEngines(active) && forall e | e in active :: e in configs
      modifies this
      ensures (outcome, Value()) == Propagated(old(Value()), active, config, w)
    {
      ghost var start := Value();
      SendAllMeans(start, active, config, w);
      var ok, attempted := SendToAll(active, config, w);
      if ok {
        if w.saves {
          saved := config;
        }
        ok := w.saves;
        trace := trace + [SaveAttempted(w.saves)];
      }
      if ok {
        limit := config;
        return Updated(config);
      }
      var restored := RestoreAll(attempted, w, active[..|attempted|], start.configs);
      if restored {
        return RolledBack;
      }
      PauseEngines(active);
      return RollbackFailed;
    }

    /** Between the validation and the first request the submission guards of every engine are taken; see SubmissionGate. */
    method ApplyGlobalConfig(active: seq<nat>, request: Request, w: World) returns (outcome: Outcome)
      requires DistinctEngines(active) && forall e | e in active :: e in configs
      modifies this
      ensures (outcome, Value()) == Applied(old(Value()), active, request, w)
    {
      if !w.loads {
        return LoadFailed;
      }
      var config := request.change(saved);
      if request.baseline.Some? && request.baseline.value != saved {
        return Stale;
      }
      var i := 0;
      while i < |active|
        invariant 0 <= i <= |active|
        invariant forall j | 0 <= j < i :: request.valid(active[j], config)
      {
        if !request.valid(active[i], config) {
          return Invalid;
        }
        i := i + 1;
      }
      outcome := Propagate(active, config, w);
    }
  }
}
