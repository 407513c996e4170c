/**
 Every interleaving of calls to `get_user_trades`. A step is what one call does between two points at
 which another call can run: admission under the cache lock, the arrival of a reply, the merge of a page,
 each later visit to the cache, and the release of the record's own lock.
 */
module FillCalls {
  import opened Basics
  import opened MapSum
  import opened FillPages
  import opened FillSlots

  datatype Phase = Ready | Checked(page: seq<Fill>) | Touching | Completing(result: map<int, Fill>) | Ending | Released

  /** `before` and `replies` are history: the record the call began with, and what its attempts have met. */
  datatype Job = Job(
    key: Key, pid: nat, expectedQty: real, revision: nat,
    initialAdvances: nat, failedQuery: bool, attempt: nat, phase: Phase, before: Progress, replies: seq<Reply>)

  /**
   A progress record with its lock. `revision`, `built`, `failedCalls` and `advancedAt` are history: the
   clear-generation it was created under, the generations whose pages it holds, the failed queries since its
   last advance, and the time of that advance or of its creation.
   */
  datatype Obj = Obj(
    key: Key, progress: Progress, holder: Option<nat>, revision: nat, built: set<nat>, failedCalls: nat, advancedAt: int)

  datatype Sys = Sys(table: Table, objects: map<nat, Obj>, jobs: map<nat, Job>, nextPid: nat, retention: nat, clock: int)

  datatype Step =
    | Begin(job: nat, key: Key, expectedQty: real, revision: nat, now: int, victim: Option<Key>)
    | GiveUp(job: nat)
    | QueryFails(job: nat)
    | PageArrives(job: nat, page: seq<Fill>)
    | Merge(job: nat)
    | Touch(job: nat, now: int)
    | TakeOut(job: nat)
    | CleanUp(job: nat)
    | Release(job: nat)
    | ExtendRetention(seconds: nat)

  function InUse(s: Sys): set<nat> {
    set pid | pid in s.objects && s.objects[pid].holder.Some?
  }

  function PollOf(s: Sys, key: Key, revision: nat, now: int): Poll {
    Poll(key, revision, now, s.retention, InUse(s))
  }

  predicate Running(s: Sys, job: nat) {
    job in s.jobs && s.jobs[job].pid in s.objects
  }

  ghost predicate Enabled(s: Sys, step: Step) {
    match step
    case Begin(job, key, _, revision, now, victim) =>
      && job !in s.jobs && s.clock <= now
      && IsVictim(AtGeneration(s.table, key.symbol, revision).cache, InUse(s), s.retention, now, victim)
    case GiveUp(job) => Running(s, job) && s.jobs[job].phase.Ready?
    case QueryFails(job) => Running(s, job) && s.jobs[job].phase.Ready?
    case PageArrives(job, _) => Running(s, job) && s.jobs[job].phase.Ready?
    case Merge(job) => Running(s, job) && s.jobs[job].phase.Checked?
    case Touch(job, now) => Running(s, job) && s.jobs[job].phase.Touching? && s.clock <= now
    case TakeOut(job) => Running(s, job) && s.jobs[job].phase.Completing?
    case CleanUp(job) => Running(s, job) && s.jobs[job].phase.Ending?
    case Release(job) => Running(s, job) && s.jobs[job].phase.Released?
    case ExtendRetention(_) => true
  }

  /** The entry under the job's key is still the one whose record it works on. */
  predicate IsCurrent(s: Sys, job: Job) {
    job.key in s.table.cache && s.table.cache[job.key].pid == job.pid
  }

  function SetPhase(s: Sys, job: nat, phase: Phase, failedQuery: bool): Sys
    requires job in s.jobs
  {
    s.(jobs := s.jobs[job := s.jobs[job].(phase := phase, failedQuery := failedQuery)])
  }

  /** The history of what an attempt has met. */
  function Met(s: Sys, job: nat, reply: Reply): Sys
    requires job in s.jobs
  {
    s.(jobs := s.jobs[job := s.jobs[job].(replies := s.jobs[job].replies + [reply])])
  }

  function Admitted(s: Sys, job: nat, key: Key, expectedQty: real, revision: nat, now: int, pid: nat, table: Table): Sys {
    var isNew := pid !in s.objects;
    var progress :=
      if isNew || s.objects[pid].progress.expectedQty != expectedQty then Fresh(expectedQty) else s.objects[pid].progress;
    var obj :=
      if isNew then Obj(key, progress, Some(job), revision, {}, 0, now)
      else s.objects[pid].(progress := progress, holder := Some(job));
    s.(table := table, clock := now,
       objects := s.objects[pid := obj],
       jobs := s.jobs[job := Job(key, pid, expectedQty, revision, progress.advances, false, 0, Ready, progress, [])],
       nextPid := if isNew then s.nextPid + 1 else s.nextPid)
  }

  function Merged(s: Sys, job: nat, page: seq<Fill>): Sys
    requires Running(s, job)
  {
    var j := s.jobs[job];
    var (verdict, next) := PageStep(s.objects[j.pid].progress, j.key.orderId, page);
    Settled(s, job, verdict, next)
  }

  function Settled(s: Sys, job: nat, verdict: Verdict, next: Progress): Sys
    requires Running(s, job)
  {
    var j := s.jobs[job];
    var o := s.objects[j.pid].(progress := next);
    match verdict
    case Continue =>
      SetPhase(s.(objects := s.objects[j.pid := o.(built := o.built + {j.revision}, failedCalls := 0)]), job, Touching, false)
    case Complete(result) =>
      SetPhase(s.(objects := s.objects[j.pid := o]), job, Completing(result), true)
    case Reject(_) =>
      SetPhase(s.(objects := s.objects[j.pid := o.(failedCalls := o.failedCalls + 1)]), job, Ending, true)
  }

  /** What the cleanup does to the entry of an unfinished call, if that entry is still the call's own. */
  function CleanedCache(s: Sys, job: Job): map<Key, Entry>
    requires job.pid in s.objects
  {
    Cleaned(s.table.cache, job.key, job.pid, s.objects[job.pid].progress, job.failedQuery, job.initialAdvances)
  }

  function Cleaned(cache: map<Key, Entry>, key: Key, pid: nat, p: Progress, failedQuery: bool, initialAdvances: nat): map<Key, Entry> {
    if key !in cache || cache[key].pid != pid then cache
    else
      var e := cache[key];
      if p.fromId.None? || p.fills == map[] then cache - {key}
      else if failedQuery && p.advances == initialAdvances then
        cache[key := e.(stalled := if e.stalled < STALLED_MAX then e.stalled + 1 else STALLED_MAX)]
      else if p.advances != initialAdvances then cache[key := e.(stalled := 0)]
      else cache
  }

  function Begun(s: Sys, job: nat, key: Key, expectedQty: real, revision: nat, now: int, victim: Option<Key>): Sys {
    if expectedQty <= 0.0 then s.(clock := now)
    else
      var (admission, table) := Admit(s.table, PollOf(s, key, revision, now), victim, s.nextPid);
      match admission
      case Denied(_) => s.(table := table, clock := now)
      case Granted(pid, _) => Admitted(s, job, key, expectedQty, revision, now, pid, table)
  }

  function Failing(s: Sys, job: nat): Sys
    requires Running(s, job)
  {
    var pid := s.jobs[job].pid;
    var o := s.objects[pid];
    SetPhase(s.(objects := s.objects[pid := o.(failedCalls := o.failedCalls + 1)]), job, Ending, true)
  }

  /** The symbol has not been cleared since the call began. */
  predicate InGeneration(s: Sys, job: Job) {
    job.key.symbol in s.table.generations && s.table.generations[job.key.symbol] == job.revision
  }

  /** After the reply, the call looks at the symbol's generation before it looks at the page. */
  function Arrived(s: Sys, job: nat, page: seq<Fill>): Sys
    requires Running(s, job)
  {
    if InGeneration(s, s.jobs[job])
    then SetPhase(s, job, Checked(page), false)
    else SetPhase(s, job, Ending, false)
  }

  function Touched(s: Sys, job: nat, now: int): Sys
    requires Running(s, job)
  {
    var j := s.jobs[job];
    var cache := if IsCurrent(s, j) then s.table.cache[j.key := Entry(j.pid, now, 0)] else s.table.cache;
    var done := j.attempt + 1 >= PAGES_PER_CALL;
    s.(table := s.table.(cache := cache), clock := now,
       objects := s.objects[j.pid := s.objects[j.pid].(advancedAt := now)],
       jobs := s.jobs[job := j.(attempt := j.attempt + 1, phase := if done then Ending else Ready)])
  }

  function TakenOut(s: Sys, job: nat): Sys
    requires Running(s, job)
  {
    var j := s.jobs[job];
    var cache := if IsCurrent(s, j) then s.table.cache - {j.key} else s.table.cache;
    SetPhase(s.(table := s.table.(cache := cache)), job, Ending, true)
  }

  function CleanedUp(s: Sys, job: nat): Sys
    requires Running(s, job)
  {
    var j := s.jobs[job];
    SetPhase(s.(table := s.table.(cache := CleanedCache(s, j))), job, Released, j.failedQuery)
  }

  function Freed(s: Sys, job: nat): Sys
    requires Running(s, job)
  {
    var pid := s.jobs[job].pid;
    s.(jobs := s.jobs - {job}, objects := s.objects[pid := s.objects[pid].(holder := None)])
  }

  function Apply(s: Sys, step: Step): Sys
    requires Enabled(s, step)
  {
    match step
    case Begin(job, key, expectedQty, revision, now, victim) => Begun(s, job, key, expectedQty, revision, now, victim)
    case GiveUp(job) => SetPhase(Met(s, job, Refused), job, Ending, false)
    case QueryFails(job) => Failing(Met(s, job, Failed), job)
    case PageArrives(job, page) => Arrived(Met(s, job, if InGeneration(s, s.jobs[job]) then Page(page) else Cleared), job, page)
    case Merge(job) => Merged(s, job, s.jobs[job].phase.page)
    case Touch(job, now) => Touched(s, job, now)
    case TakeOut(job) => TakenOut(s, job)
    case CleanUp(job) => CleanedUp(s, job)
    case Release(job) => Freed(s, job)
    case ExtendRetention(seconds) => s.(retention := if seconds > s.retention then seconds else s.retention)
  }

  const Initial: Sys := Sys(Table(map[], map[], []), map[], map[], 0, INITIAL_RETENTION_SECONDS, 0)

  // ---------------------------------------------------------------- what every interleaving keeps

  predicate Querying(phase: Phase) {
    phase.Ready? || phase.Checked? || phase.Touching?
  }

  /** A call owns its record alone, and its record is saved until the order is complete. */
  ghost predicate JobOk(id: nat, job: Job, o: Obj) {
    && o.holder == Some(id) && o.key == job.key && o.revision == job.revision
    && (Querying(job.phase) ==>
          !job.failedQuery && Saved(o.progress, job.key.orderId) && o.progress.expectedQty == job.expectedQty)
    && (job.phase.Touching? ==> o.failedCalls == 0)
  }

  /** A record holds pages of one clear-generation only. */
  ghost predicate ObjOk(pid: nat, o: Obj, nextPid: nat) {
    pid < nextPid && o.built <= {o.revision}
  }

  /** The failure that the holder's cleanup is about to count. */
  function Pending(o: Obj, holder: Option<Job>): nat {
    if holder.Some? && holder.value.phase.Ending? && holder.value.failedQuery
       && o.progress.advances == holder.value.initialAdvances then 1 else 0
  }

  /**
   A cached record belongs to the symbol's current generation, is saved, is worth keeping when nobody
   works on it, and has been charged with no more failures than its queries really had.
   */
  ghost predicate EntryOk(k: Key, e: Entry, o: Obj, holder: Option<Job>, generation: nat) {
    && o.key == k && o.revision == generation && e.lastUsed == o.advancedAt
    && ((holder.Some? && holder.value.phase.Completing?) || Saved(o.progress, k.orderId))
    && (holder.None? || holder.value.phase.Released? ==> o.progress.fromId.Some? && o.progress.fills != map[])
    && ((holder.Some? && holder.value.phase.Touching?) || e.stalled + Pending(o, holder) <= o.failedCalls)
  }

  function HolderOf(s: Sys, pid: nat): Option<Job> {
    if pid in s.objects && s.objects[pid].holder.Some? && s.objects[pid].holder.value in s.jobs
    then Some(s.jobs[s.objects[pid].holder.value]) else None
  }

  ghost predicate JobsOk(s: Sys) {
    forall j | j in s.jobs :: s.jobs[j].pid in s.objects && JobOk(j, s.jobs[j], s.objects[s.jobs[j].pid])
  }

  ghost predicate ObjectsOk(s: Sys) {
    && (forall pid | pid in s.objects :: ObjOk(pid, s.objects[pid], s.nextPid))
    && (forall pid | pid in s.objects && s.objects[pid].holder.Some? ::
          s.objects[pid].holder.value in s.jobs && s.jobs[s.objects[pid].holder.value].pid == pid)
  }

  ghost predicate EntriesOk(s: Sys) {
    forall k | k in s.table.cache ::
      && s.table.cache[k].pid in s.objects
      && k.symbol in s.table.generations
      && EntryOk(k, s.table.cache[k], s.objects[s.table.cache[k].pid], HolderOf(s, s.table.cache[k].pid), s.table.generations[k.symbol])
  }

  ghost predicate Inv(s: Sys) {
    TableOk(s.table, s.clock) && JobsOk(s) && ObjectsOk(s) && EntriesOk(s) && s.retention >= INITIAL_RETENTION_SECONDS
  }

  /** A step of one call that touches nothing but its own job and record, and perhaps its own entry. */
  ghost predicate LocalStep(s: Sys, t: Sys, job: nat) {
    && job in s.jobs && s.jobs[job].pid in s.objects && job in t.jobs && s.jobs[job].pid in t.objects
    && var j, pid := s.jobs[job], s.jobs[job].pid;
    && t.jobs == s.jobs[job := t.jobs[job]] && t.jobs[job].pid == pid && t.jobs[job].key == j.key
    && t.objects == s.objects[pid := t.objects[pid]]
    && t.objects[pid].holder == s.objects[pid].holder
    && t.table.generations == s.table.generations && t.table.waiters == s.table.waiters
    && t.nextPid == s.nextPid && t.retention == s.retention && t.clock >= s.clock
    && (forall k | k in t.table.cache ::
          && k in s.table.cache
          && (t.table.cache[k] == s.table.cache[k] || (t.table.cache[k].pid == s.table.cache[k].pid == pid && t.table.cache[k].lastUsed <= t.clock)))
  }

  /** What the job, its record and its entry satisfy after the step. */
  ghost predicate OwnPartOk(t: Sys, job: nat) {
    && job in t.jobs && t.jobs[job].pid in t.objects
    && var pid := t.jobs[job].pid;
    && JobOk(job, t.jobs[job], t.objects[pid])
    && ObjOk(pid, t.objects[pid], t.nextPid)
    && forall k | k in t.table.cache && t.table.cache[k].pid == pid && k.symbol in t.table.generations ::
         EntryOk(k, t.table.cache[k], t.objects[pid], Some(t.jobs[job]), t.table.generations[k.symbol])
  }

  lemma LocalJobs(s: Sys, t: Sys, job: nat)
    requires Inv(s) && LocalStep(s, t, job) && OwnPartOk(t, job)
    ensures JobsOk(t) && ObjectsOk(t)
  {
    var pid := s.jobs[job].pid;
    forall i | i in t.jobs && i != job
      ensures t.jobs[i].pid in t.objects && JobOk(i, t.jobs[i], t.objects[t.jobs[i].pid])
    {
      assert JobOk(i, s.jobs[i], s.objects[s.jobs[i].pid]);
      assert JobOk(job, s.jobs[job], s.objects[pid]);
    }
    assert forall q | q in t.objects && q != pid :: ObjOk(q, s.objects[q], s.nextPid);
  }

  lemma LocalEntries(s: Sys, t: Sys, job: nat)
    requires Inv(s) && LocalStep(s, t, job) && OwnPartOk(t, job)
    ensures EntriesOk(t)
  {
    var pid := s.jobs[job].pid;
    assert JobOk(job, s.jobs[job], s.objects[pid]);
    forall k | k in t.table.cache
      ensures t.table.cache[k].pid in t.objects && k.symbol in t.table.generations
      ensures EntryOk(k, t.table.cache[k], t.objects[t.table.cache[k].pid], HolderOf(t, t.table.cache[k].pid), t.table.generations[k.symbol])
    {
      var q := t.table.cache[k].pid;
      if q != pid {
        assert HolderOf(t, q) == HolderOf(s, q);
      }
    }
  }

  lemma LocalStepKeeps(s: Sys, t: Sys, job: nat)
    requires Inv(s) && LocalStep(s, t, job) && OwnPartOk(t, job)
    ensures Inv(t)
  {
    SubsetSize(t.table.cache.Keys, s.table.cache.Keys);
    assert TableOk(t.table, t.clock);
    LocalJobs(s, t, job);
    LocalEntries(s, t, job);
  }

  /** The record and the job before the step, and the one entry that may be theirs. */
  ghost predicate OwnPart(s: Sys, job: nat) {
    && Running(s, job)
    && var j := s.jobs[job];
    && JobOk(job, j, s.objects[j.pid]) && ObjOk(j.pid, s.objects[j.pid], s.nextPid)
    && (forall k | k in s.table.cache && s.table.cache[k].pid == j.pid :: OwnEntry(s, job, k))
    && (j.key in s.table.cache ==> s.table.cache[j.key].lastUsed <= s.clock)
  }

  ghost predicate OwnEntry(s: Sys, job: nat, k: Key)
    requires Running(s, job) && k in s.table.cache
  {
    && k == s.jobs[job].key && k.symbol in s.table.generations
    && EntryOk(k, s.table.cache[k], s.objects[s.jobs[job].pid], Some(s.jobs[job]), s.table.generations[k.symbol])
  }

  lemma InvGivesOwnPart(s: Sys, job: nat)
    requires Inv(s) && job in s.jobs
    ensures OwnPart(s, job)
  {
    var j := s.jobs[job];
    assert JobOk(job, j, s.objects[j.pid]);
    assert ObjOk(j.pid, s.objects[j.pid], s.nextPid);
    forall k | k in s.table.cache && s.table.cache[k].pid == j.pid ensures OwnEntry(s, job, k) {
      assert EntryOk(k, s.table.cache[k], s.objects[j.pid], HolderOf(s, j.pid), s.table.generations[k.symbol]);
    }
  }

  lemma MetOwn(s: Sys, job: nat, reply: Reply)
    requires OwnPart(s, job)
    ensures LocalStep(s, Met(s, job, reply), job) && OwnPartOk(Met(s, job, reply), job)
  {
  }

  lemma MetKeeps(s: Sys, job: nat, reply: Reply)
    requires Inv(s) && job in s.jobs
    ensures Inv(Met(s, job, reply))
  {
    InvGivesOwnPart(s, job);
    MetOwn(s, job, reply);
    LocalStepKeeps(s, Met(s, job, reply), job);
  }

  lemma EndOwn(s: Sys, job: nat)
    requires OwnPart(s, job) && s.jobs[job].phase.Ready?
    ensures LocalStep(s, SetPhase(s, job, Ending, false), job)
    ensures OwnPartOk(SetPhase(s, job, Ending, false), job)
  {
  }

  lemma EndKeeps(s: Sys, job: nat)
    requires Inv(s) && Running(s, job) && s.jobs[job].phase.Ready?
    ensures Inv(SetPhase(s, job, Ending, false))
  {
    InvGivesOwnPart(s, job);
    EndOwn(s, job);
    LocalStepKeeps(s, SetPhase(s, job, Ending, false), job);
  }

  lemma FailingOwn(s: Sys, job: nat)
    requires OwnPart(s, job) && s.jobs[job].phase.Ready?
    ensures LocalStep(s, Failing(s, job), job)
    ensures OwnPartOk(Failing(s, job), job)
  {
  }

  lemma FailingKeeps(s: Sys, job: nat)
    requires Inv(s) && Running(s, job) && s.jobs[job].phase.Ready?
    ensures Inv(Failing(s, job))
  {
    InvGivesOwnPart(s, job);
    FailingOwn(s, job);
    LocalStepKeeps(s, Failing(s, job), job);
  }

  lemma ArrivedOwn(s: Sys, job: nat, page: seq<Fill>)
    requires OwnPart(s, job) && s.jobs[job].phase.Ready?
    ensures LocalStep(s, Arrived(s, job, page), job)
    ensures OwnPartOk(Arrived(s, job, page), job)
  {
  }

  lemma ArrivedKeeps(s: Sys, job: nat, page: seq<Fill>)
    requires Inv(s) && Running(s, job) && s.jobs[job].phase.Ready?
    ensures Inv(Arrived(s, job, page))
  {
    InvGivesOwnPart(s, job);
    ArrivedOwn(s, job, page);
    LocalStepKeeps(s, Arrived(s, job, page), job);
  }

  lemma SettledOwn(s: Sys, job: nat, verdict: Verdict, next: Progress)
    requires OwnPart(s, job) && s.jobs[job].phase.Checked?
    requires verdict.Complete? || (Saved(next, s.jobs[job].key.orderId) && next.expectedQty == s.jobs[job].expectedQty)
    ensures LocalStep(s, Settled(s, job, verdict, next), job)
    ensures OwnPartOk(Settled(s, job, verdict, next), job)
  {
  }

  lemma MergedKeeps(s: Sys, job: nat)
    requires Inv(s) && Running(s, job) && s.jobs[job].phase.Checked?
    ensures Inv(Merged(s, job, s.jobs[job].phase.page))
  {
    InvGivesOwnPart(s, job);
    var j := s.jobs[job];
    var p := s.objects[j.pid].progress;
    var (verdict, next) := PageStep(p, j.key.orderId, j.phase.page);
    PageSafety(p, j.key.orderId, j.phase.page);
    SettledOwn(s, job, verdict, next);
    LocalStepKeeps(s, Settled(s, job, verdict, next), job);
  }

  lemma TouchedOwn(s: Sys, job: nat, now: int)
    requires OwnPart(s, job) && s.jobs[job].phase.Touching? && s.clock <= now
    ensures LocalStep(s, Touched(s, job, now), job)
    ensures OwnPartOk(Touched(s, job, now), job)
  {
  }

  lemma TouchedKeeps(s: Sys, job: nat, now: int)
    requires Inv(s) && Running(s, job) && s.jobs[job].phase.Touching? && s.clock <= now
    ensures Inv(Touched(s, job, now))
  {
    InvGivesOwnPart(s, job);
    TouchedOwn(s, job, now);
    LocalStepKeeps(s, Touched(s, job, now), job);
  }

  lemma TakenOutOwn(s: Sys, job: nat)
    requires OwnPart(s, job) && s.jobs[job].phase.Completing?
    ensures LocalStep(s, TakenOut(s, job), job)
    ensures OwnPartOk(TakenOut(s, job), job)
  {
  }

  lemma TakenOutKeeps(s: Sys, job: nat)
    requires Inv(s) && Running(s, job) && s.jobs[job].phase.Completing?
    ensures Inv(TakenOut(s, job))
  {
    InvGivesOwnPart(s, job);
    TakenOutOwn(s, job);
    LocalStepKeeps(s, TakenOut(s, job), job);
  }

  lemma CleanedUpOwn(s: Sys, job: nat)
    requires OwnPart(s, job) && s.jobs[job].phase.Ending?
    ensures LocalStep(s, CleanedUp(s, job), job)
    ensures OwnPartOk(CleanedUp(s, job), job)
  {
  }

  lemma CleanedUpKeeps(s: Sys, job: nat)
    requires Inv(s) && Running(s, job) && s.jobs[job].phase.Ending?
    ensures Inv(CleanedUp(s, job))
  {
    InvGivesOwnPart(s, job);
    CleanedUpOwn(s, job);
    LocalStepKeeps(s, CleanedUp(s, job), job);
  }

  lemma FreedKeeps(s: Sys, job: nat)
    requires Inv(s) && Running(s, job) && s.jobs[job].phase.Released?
    ensures Inv(Freed(s, job))
  {
    var t, pid := Freed(s, job), s.jobs[job].pid;
    InvGivesOwnPart(s, job);
    forall i | i in t.jobs ensures t.jobs[i].pid in t.objects && JobOk(i, t.jobs[i], t.objects[t.jobs[i].pid]) {
      assert JobOk(i, s.jobs[i], s.objects[s.jobs[i].pid]);
    }
    assert ObjectsOk(t) by {
      assert forall q | q in t.objects && q != pid :: ObjOk(q, s.objects[q], s.nextPid);
    }
    forall k | k in t.table.cache
      ensures t.table.cache[k].pid in t.objects && k.symbol in t.table.generations
      ensures EntryOk(k, t.table.cache[k], t.objects[t.table.cache[k].pid], HolderOf(t, t.table.cache[k].pid), t.table.generations[k.symbol])
    {
      var q := t.table.cache[k].pid;
      if q == pid {
        assert OwnEntry(s, job, k);
      } else {
        assert HolderOf(t, q) == HolderOf(s, q);
      }
    }
  }

  // ---------------------------------------------------------------- admission

  lemma FreshPid(s: Sys)
    requires Inv(s)
    ensures s.nextPid !in s.objects
  {
    assert forall pid | pid in s.objects :: ObjOk(pid, s.objects[pid], s.nextPid);
  }

  /** An entry that has survived a poll is still an entry of its symbol's current generation. */
  ghost predicate Survives(s: Sys, table: Table, k: Key) {
    && k in s.table.cache && k in table.cache && table.cache[k] == s.table.cache[k]
    && k.symbol in s.table.generations && k.symbol in table.generations
    && table.generations[k.symbol] == s.table.generations[k.symbol]
  }

  /** What a granted poll promises: a brand-new record, or the saved record that nobody is working on. */
  ghost predicate GrantOk(s: Sys, p: Poll, pid: nat, table: Table) {
    && p.key in table.cache && table.cache[p.key].pid == pid
    && p.key.symbol in table.generations && table.generations[p.key.symbol] == p.revision
    && (forall k | k in table.cache && k != p.key :: Survives(s, table, k) && table.cache[k].pid != pid)
    && if pid in s.objects then Survives(s, table, p.key) && s.objects[pid].holder.None?
       else pid == s.nextPid && table.cache[p.key] == Entry(pid, p.now, 0)
  }

  /** Every entry has a record of its own, of a tracked symbol, and the next identity is unused. */
  ghost predicate PidsOk(s: Sys) {
    && s.nextPid !in s.objects
    && (forall k | k in s.table.cache :: s.table.cache[k].pid in s.objects && k.symbol in s.table.generations)
    && (forall k, l | k in s.table.cache && l in s.table.cache && k != l :: s.table.cache[k].pid != s.table.cache[l].pid)
  }

  lemma InvGivesPidsOk(s: Sys)
    requires Inv(s)
    ensures PidsOk(s)
  {
    FreshPid(s);
  }

  /** After a poll the surviving entries are still entries of their symbol's current generation. */
  lemma PollKeepsEntries(s: Sys, p: Poll, victim: Option<Key>)
    requires PidsOk(s) && p.inUse == InUse(s)
    ensures var (admission, table) := Admit(s.table, p, victim, s.nextPid);
      match admission
      case Denied(_) => forall k | k in table.cache :: Survives(s, table, k)
      case Granted(pid, _) => GrantOk(s, p, pid, table)
  {
    AdmitHasEffect(s.table, p, victim, s.nextPid);
    var (admission, table) := Admit(s.table, p, victim, s.nextPid);
    if Accepted(s.table, p) {
      EffectKeepsEntries(s, p, victim, admission, table);
    }
  }

  lemma EffectKeepsEntries(s: Sys, p: Poll, victim: Option<Key>, admission: Admission, table: Table)
    requires PidsOk(s) && p.inUse == InUse(s) && Accepted(s.table, p)
    requires PollEffect(AtGeneration(s.table, p.key.symbol, p.revision), p, victim, s.nextPid, admission, table)
    ensures match admission
      case Denied(_) => forall k | k in table.cache :: Survives(s, table, k)
      case Granted(pid, _) => GrantOk(s, p, pid, table)
  {
    var g := AtGeneration(s.table, p.key.symbol, p.revision);
    assert forall k | k in g.cache :: Survives(s, g, k);
    assert g.generations[p.key.symbol] == p.revision;
    forall k | k in table.cache && k in g.cache && table.cache[k] == g.cache[k] ensures Survives(s, table, k) {
      assert Survives(s, g, k);
    }
  }

  lemma BegunKeeps(s: Sys, job: nat, key: Key, expectedQty: real, revision: nat, now: int, victim: Option<Key>)
    requires Inv(s) && job !in s.jobs && s.clock <= now
    ensures Inv(Begun(s, job, key, expectedQty, revision, now, victim))
  {
    var t := Begun(s, job, key, expectedQty, revision, now, victim);
    if expectedQty <= 0.0 {
      assert TableOk(s.table, now);
    } else {
      var p := PollOf(s, key, revision, now);
      var (admission, table) := Admit(s.table, p, victim, s.nextPid);
      InvGivesPidsOk(s);
      AdmitKeepsTable(s.table, p, victim, s.nextPid, s.clock);
      PollKeepsEntries(s, p, victim);
      match admission
      case Denied(_) =>
        DeniedKeeps(s, table, now);
      case Granted(pid, _) =>
        GrantedJobs(s, job, p, expectedQty, pid, table);
        GrantedObjects(s, job, p, expectedQty, pid, table);
        GrantedEntries(s, job, p, expectedQty, pid, table);
    }
  }

  lemma DeniedKeeps(s: Sys, table: Table, now: int)
    requires JobsOk(s) && ObjectsOk(s) && EntriesOk(s)
    requires forall k | k in table.cache :: Survives(s, table, k)
    ensures var t := s.(table := table, clock := now); JobsOk(t) && ObjectsOk(t) && EntriesOk(t)
  {
    var t := s.(table := table, clock := now);
    forall k | k in table.cache
      ensures table.cache[k].pid in s.objects && k.symbol in table.generations
      ensures EntryOk(k, table.cache[k], s.objects[table.cache[k].pid], HolderOf(t, table.cache[k].pid), table.generations[k.symbol])
    {
      assert Survives(s, table, k);
      assert HolderOf(t, table.cache[k].pid) == HolderOf(s, table.cache[k].pid);
    }
  }

  lemma GrantedJobs(s: Sys, job: nat, p: Poll, expectedQty: real, pid: nat, table: Table)
    requires JobsOk(s) && ObjectsOk(s) && EntriesOk(s) && job !in s.jobs && expectedQty > 0.0
    requires GrantOk(s, p, pid, table)
    ensures JobsOk(Admitted(s, job, p.key, expectedQty, p.revision, p.now, pid, table))
  {
    var t := Admitted(s, job, p.key, expectedQty, p.revision, p.now, pid, table);
    OwnRecord(s, job, p, expectedQty, pid, table);
    forall i | i in t.jobs && i != job
      ensures t.jobs[i].pid in t.objects && JobOk(i, t.jobs[i], t.objects[t.jobs[i].pid])
    {
      assert JobOk(i, s.jobs[i], s.objects[s.jobs[i].pid]);
    }
  }

  lemma GrantedObjects(s: Sys, job: nat, p: Poll, expectedQty: real, pid: nat, table: Table)
    requires ObjectsOk(s) && EntriesOk(s) && job !in s.jobs && expectedQty > 0.0
    requires GrantOk(s, p, pid, table)
    ensures ObjectsOk(Admitted(s, job, p.key, expectedQty, p.revision, p.now, pid, table))
  {
    var t := Admitted(s, job, p.key, expectedQty, p.revision, p.now, pid, table);
    OwnRecord(s, job, p, expectedQty, pid, table);
    forall q | q in t.objects && q != pid ensures ObjOk(q, t.objects[q], t.nextPid) {
      assert ObjOk(q, s.objects[q], s.nextPid);
    }
  }

  /** The new call's job and record. */
  lemma OwnRecord(s: Sys, job: nat, p: Poll, expectedQty: real, pid: nat, table: Table)
    requires ObjectsOk(s) && EntriesOk(s) && job !in s.jobs && expectedQty > 0.0
    requires GrantOk(s, p, pid, table)
    ensures var t := Admitted(s, job, p.key, expectedQty, p.revision, p.now, pid, table);
      && JobOk(job, t.jobs[job], t.objects[pid])
      && ObjOk(pid, t.objects[pid], t.nextPid)
      && EntryOk(p.key, table.cache[p.key], t.objects[pid], Some(t.jobs[job]), table.generations[p.key.symbol])
  {
    SumEmpty<int, Fill>(map[], Qty);
    if pid in s.objects {
      assert Survives(s, table, p.key);
      assert EntryOk(p.key, s.table.cache[p.key], s.objects[pid], HolderOf(s, pid), s.table.generations[p.key.symbol]);
      assert ObjOk(pid, s.objects[pid], s.nextPid);
    }
  }

  lemma GrantedEntries(s: Sys, job: nat, p: Poll, expectedQty: real, pid: nat, table: Table)
    requires ObjectsOk(s) && EntriesOk(s) && job !in s.jobs && expectedQty > 0.0
    requires GrantOk(s, p, pid, table)
    ensures EntriesOk(Admitted(s, job, p.key, expectedQty, p.revision, p.now, pid, table))
  {
    var t := Admitted(s, job, p.key, expectedQty, p.revision, p.now, pid, table);
    OwnRecord(s, job, p, expectedQty, pid, table);
    assert HolderOf(t, pid) == Some(t.jobs[job]);
    forall k | k in table.cache && k != p.key
      ensures table.cache[k].pid in t.objects && k.symbol in table.generations
      ensures EntryOk(k, table.cache[k], t.objects[table.cache[k].pid], HolderOf(t, table.cache[k].pid), table.generations[k.symbol])
    {
      assert Survives(s, table, k);
      assert HolderOf(t, table.cache[k].pid) == HolderOf(s, table.cache[k].pid);
    }
  }

  // ---------------------------------------------------------------- every run

  lemma StepKeeps(s: Sys, step: Step)
    requires Inv(s) && Enabled(s, step)
    ensures Inv(Apply(s, step))
  {
    match step
    case Begin(job, key, expectedQty, revision, now, victim) => BegunKeeps(s, job, key, expectedQty, revision, now, victim);
    case GiveUp(job) =>
      MetKeeps(s, job, Refused);
      EndKeeps(Met(s, job, Refused), job);
    case QueryFails(job) =>
      MetKeeps(s, job, Failed);
      FailingKeeps(Met(s, job, Failed), job);
    case PageArrives(job, page) =>
      var reply := if InGeneration(s, s.jobs[job]) then Page(page) else Cleared;
      MetKeeps(s, job, reply);
      ArrivedKeeps(Met(s, job, reply), job, page);
    case Merge(job) => MergedKeeps(s, job);
    case Touch(job, now) => TouchedKeeps(s, job, now);
    case TakeOut(job) => TakenOutKeeps(s, job);
    case CleanUp(job) => CleanedUpKeeps(s, job);
    case Release(job) => FreedKeeps(s, job);
    case ExtendRetention(_) => RetentionKeeps(s, Apply(s, step));
  }

  lemma RetentionKeeps(s: Sys, t: Sys)
    requires Inv(s) && t == s.(retention := t.retention) && t.retention >= s.retention
    ensures Inv(t)
  {
    forall k | k in t.table.cache
      ensures EntryOk(k, t.table.cache[k], t.objects[t.table.cache[k].pid], HolderOf(t, t.table.cache[k].pid), t.table.generations[k.symbol])
    {
      assert HolderOf(t, t.table.cache[k].pid) == HolderOf(s, t.table.cache[k].pid);
    }
  }

  ghost predicate Runs(s: Sys, steps: seq<Step>)
    decreases |steps|
  {
    steps != [] ==> Enabled(s, steps[0]) && Runs(Apply(s, steps[0]), steps[1..])
  }

  ghost function After(s: Sys, steps: seq<Step>): Sys
    requires Runs(s, steps)
    decreases |steps|
  {
    if steps == [] then s else After(Apply(s, steps[0]), steps[1..])
  }

  lemma {:induction false} RunKeeps(s: Sys, steps: seq<Step>)
    requires Inv(s) && Runs(s, steps)
    ensures Inv(After(s, steps))
    decreases |steps|
  {
    if steps != [] {
      StepKeeps(s, steps[0]);
      RunKeeps(Apply(s, steps[0]), steps[1..]);
    }
  }

  /**
   In every reachable state at most eight orders hold a slot and at most 1024 distinct others wait;
   every cached record that no call has just completed holds valid fills whose quantities add up to
   its own total, short of the expected quantity; and each was built from pages of the symbol's
   current clear-generation alone, however many older calls are still running.
   */
  lemma ReachableStatesAreSafe(steps: seq<Step>)
    requires Runs(Initial, steps)
    ensures var s := After(Initial, steps);
      && |s.table.cache.Keys| <= SLOTS
      && |s.table.waiters| <= QUEUE_LIMIT && DistinctWaiters(s.table.waiters)
      && (forall w | w in s.table.waiters :: w.key !in s.table.cache)
      && forall k | k in s.table.cache ::
           && s.table.cache[k].pid in s.objects && k.symbol in s.table.generations
           && var o := s.objects[s.table.cache[k].pid];
           && o.built <= {s.table.generations[k.symbol]}
           && (HolderOf(s, s.table.cache[k].pid).None? || !HolderOf(s, s.table.cache[k].pid).value.phase.Completing? ==>
                 Saved(o.progress, k.orderId))
  {
    assert Inv(Initial);
    RunKeeps(Initial, steps);
    var s := After(Initial, steps);
    forall k | k in s.table.cache
      ensures s.table.cache[k].pid in s.objects && k.symbol in s.table.generations
      ensures s.objects[s.table.cache[k].pid].built <= {s.table.generations[k.symbol]}
    {
      var pid := s.table.cache[k].pid;
      assert ObjOk(pid, s.objects[pid], s.nextPid);
      assert EntryOk(k, s.table.cache[k], s.objects[pid], HolderOf(s, pid), s.table.generations[k.symbol]);
    }
  }

  lemma StepRetention(s: Sys, step: Step)
    requires Enabled(s, step)
    ensures Apply(s, step).retention == if step.ExtendRetention? then Max(s.retention, step.seconds) else s.retention
  {
  }

  /** Over any run waiters are remembered for the longest time that any backlog has asked for. */
  lemma {:induction false} RetentionIsLongest(s: Sys, steps: seq<Step>)
    requires Runs(s, steps)
    ensures var r := After(s, steps).retention;
      && s.retention <= r && (forall k | 0 <= k < |steps| && steps[k].ExtendRetention? :: steps[k].seconds <= r)
      && (r == s.retention || exists k :: 0 <= k < |steps| && steps[k].ExtendRetention? && steps[k].seconds == r)
    decreases |steps|
  {
    if steps != [] {
      StepRetention(s, steps[0]);
      RetentionIsLongest(Apply(s, steps[0]), steps[1..]);
      assert forall k | 0 < k < |steps| :: steps[k] == steps[1..][k - 1];
      assert forall k | 0 <= k < |steps| - 1 :: steps[1..][k] == steps[k + 1];
    }
  }

  /** A call that completes returns fills of distinct identifiers that add up exactly to what it was asked for. */
  lemma CompletedCallsAreExact(s: Sys, job: nat)
    requires Inv(s) && Enabled(s, Merge(job))
    ensures var t := Apply(s, Merge(job));
      t.jobs[job].phase.Completing? ==>
        && Sum(t.jobs[job].phase.result, Qty) == s.jobs[job].expectedQty
        && forall id | id in t.jobs[job].phase.result ::
             GoodFill(t.jobs[job].phase.result[id], id, s.jobs[job].key.orderId)
  {
    InvGivesOwnPart(s, job);
    var j := s.jobs[job];
    PageSafety(s.objects[j.pid].progress, j.key.orderId, j.phase.page);
  }

  /** The poll brings a newer clear of the symbol that `k` belongs to. */
  predicate Clears(t: Table, step: Step, k: Key)
    requires step.Begin?
  {
    k.symbol == step.key.symbol && k.symbol in t.generations && step.revision > t.generations[k.symbol]
  }

  /**
   No call was using the record, all slots were taken, and since its last advance it had really failed three times
   or gone by for two hours and the whole retention.
   */
  ghost predicate Earned(s: Sys, k: Key, now: int)
    requires k in s.table.cache
  {
    s.table.cache[k].pid in s.objects &&
    var o := s.objects[s.table.cache[k].pid];
    && o.key == k && o.holder.None? && |s.table.cache.Keys| == SLOTS
    && (o.failedCalls < 3 ==>
          now - o.advancedAt >= s.retention * SECOND && now - o.advancedAt >= MIN_IDLE_SECONDS * SECOND)
  }

  /**
   Any entry that a poll removes, of the polled symbol or another, either belongs to a symbol that this very
   poll clears, or was evicted for its slot: all slots were taken, no call was using it, and since its last
   advance it really failed three times, or it lay idle for two hours and the whole retention.
   */
  lemma EvictionIsEarned(s: Sys, step: Step, k: Key)
    requires Inv(s) && Enabled(s, step) && step.Begin?
    requires k in s.table.cache && k !in Apply(s, step).table.cache
    ensures Clears(s.table, step, k) || Earned(s, k, step.now)
  {
    BegunRemoves(s, step, k);
    if !Clears(s.table, step, k) {
      AdmissionEvicts(s, step, k);
    }
  }

  lemma BegunRemoves(s: Sys, step: Step, k: Key)
    requires Enabled(s, step) && step.Begin? && k in s.table.cache && k !in Apply(s, step).table.cache
    ensures k !in Admit(s.table, PollOf(s, step.key, step.revision, step.now), step.victim, s.nextPid).1.cache
  {
  }

  lemma AdmissionEvicts(s: Sys, step: Step, k: Key)
    requires Inv(s) && step.Begin? && k in s.table.cache && !Clears(s.table, step, k)
    requires IsVictim(AtGeneration(s.table, step.key.symbol, step.revision).cache, InUse(s), s.retention, step.now, step.victim)
    requires k !in Admit(s.table, PollOf(s, step.key, step.revision, step.now), step.victim, s.nextPid).1.cache
    ensures Earned(s, k, step.now)
  {
    EvictionNeedsAllSlots(s.table, PollOf(s, step.key, step.revision, step.now), step.victim, s.nextPid, k);
    EvictableIsEarned(s, k, step.now);
  }

  lemma EvictableIsEarned(s: Sys, k: Key, now: int)
    requires Inv(s) && k in s.table.cache && Evictable(s.table.cache[k], InUse(s), s.retention, now)
    ensures var e := s.table.cache[k];
      && e.pid in s.objects && s.objects[e.pid].holder.None?
      && (s.objects[e.pid].failedCalls < 3 ==>
            now - e.lastUsed >= s.retention * SECOND && now - e.lastUsed >= MIN_IDLE_SECONDS * SECOND)
  {
    var pid := s.table.cache[k].pid;
    assert EntryOk(k, s.table.cache[k], s.objects[pid], HolderOf(s, pid), s.table.generations[k.symbol]);
  }

  lemma SeatEvicts(t: Table, p: Poll, victim: Option<Key>, pid: nat, k: Key)
    requires k in t.cache && k !in Seat(t, p, victim, pid).1.cache
    ensures victim == Some(k) && |t.cache.Keys| >= SLOTS
  {
  }

  lemma EvictionNeedsAllSlots(t: Table, p: Poll, victim: Option<Key>, pid: nat, k: Key)
    requires |t.cache.Keys| <= SLOTS
    requires k in AtGeneration(t, p.key.symbol, p.revision).cache && k !in Admit(t, p, victim, pid).1.cache
    ensures victim == Some(k) && |t.cache.Keys| == SLOTS
  {
    var g := AtGeneration(t, p.key.symbol, p.revision);
    AdmitHasEffect(t, p, victim, pid);
    var kept := Swept(g, p);
    var waiters := Polled(kept.waiters, |kept.cache.Keys|, p.key, p.now).value;
    SeatEvicts(kept.(waiters := waiters), p, victim, pid, k);
    assert g.cache.Keys <= t.cache.Keys;
    SubsetSize(g.cache.Keys, t.cache.Keys);
  }

  /** The cleanup of a call touches no entry but its own, and counts a failure only for a query that failed without any advance. */
  lemma CleanUpIsLocal(s: Sys, job: nat, k: Key)
    requires Enabled(s, CleanUp(job))
    ensures var t, j := Apply(s, CleanUp(job)), s.jobs[job];
      && (k in t.table.cache ==> k in s.table.cache)
      && (k in s.table.cache && s.table.cache[k].pid != j.pid ==> k in t.table.cache && t.table.cache[k] == s.table.cache[k])
      && (k in t.table.cache && t.table.cache[k].stalled > s.table.cache[k].stalled ==>
            && j.failedQuery && s.objects[j.pid].progress.advances == j.initialAdvances
            && t.table.cache[k].stalled == s.table.cache[k].stalled + 1)
  {
  }

  /** A refused budget or a cancelled call never counts against an order. */
  lemma GivingUpNeverCounts(s: Sys, job: nat, k: Key)
    requires Enabled(s, GiveUp(job))
    ensures var t := Apply(s, GiveUp(job));
      && Enabled(t, CleanUp(job))
      && t.objects == s.objects
      && var u := Apply(t, CleanUp(job));
         k in u.table.cache ==> k in s.table.cache && u.table.cache[k].stalled <= s.table.cache[k].stalled
  {
  }

  /** So it is when the reply comes after a clear of the symbol. */
  lemma ClearedReplyNeverCounts(s: Sys, job: nat, page: seq<Fill>, k: Key)
    requires Enabled(s, PageArrives(job, page))
    requires var j := s.jobs[job]; j.key.symbol in s.table.generations ==> s.table.generations[j.key.symbol] != j.revision
    ensures var t := Apply(s, PageArrives(job, page));
      && Enabled(t, CleanUp(job))
      && t.objects == s.objects
      && var u := Apply(t, CleanUp(job));
         k in u.table.cache ==> k in s.table.cache && u.table.cache[k].stalled <= s.table.cache[k].stalled
  {
  }

  function OneMore(stalled: nat): nat {
    Min(stalled + 1, STALLED_MAX)
  }

  /** A failed request counts once against an order whose call has not advanced it, and is forgotten when the call has. */
  lemma FailedRequestCounts(s: Sys, job: nat)
    requires Enabled(s, QueryFails(job)) && IsCurrent(s, s.jobs[job]) && s.table.cache[s.jobs[job].key].stalled <= STALLED_MAX
    requires var p := s.objects[s.jobs[job].pid].progress; p.fromId.Some? && p.fills != map[]
    ensures var t, key := Apply(s, QueryFails(job)), s.jobs[job].key;
      var advanced := s.objects[s.jobs[job].pid].progress.advances != s.jobs[job].initialAdvances;
      && Enabled(t, CleanUp(job))
      && var e, u := s.table.cache[key], Apply(t, CleanUp(job));
         u.table.cache == s.table.cache[key := e.(stalled := if advanced then 0 else OneMore(e.stalled))]
  {
  }

  /** What the entry of an order is after a call on it has ended at attempt `n` and has been cleaned up. */
  ghost predicate IsCharged(before: Entry, after: Entry, replies: seq<Reply>, n: nat) {
    && after == before.(stalled := after.stalled)
    && after.stalled ==
         if n > 0 then 0
         else if n < |replies| && (replies[n].Failed? || replies[n].Page?) then OneMore(before.stalled)
         else before.stalled
  }

  /**
   One call and its cleanup, whatever the attempts meet: no other entry changes; the order's own is dropped exactly
   when its record is not worth keeping; otherwise it stays, cleared of failures when the call merged a page, charged
   with one more when its first attempt failed or brought a page that did not advance it, and unchanged when the
   budget refused it or the history was cleared.
   */
  lemma CallIsCharged(cache: map<Key, Entry>, key: Key, pid: nat, p: Progress, replies: seq<Reply>, n: nat)
    requires key in cache && cache[key].pid == pid && cache[key].stalled <= STALLED_MAX
    requires CallEnds(p, key.orderId, replies, n, Attempts(p, key.orderId, replies))
    ensures var r := Attempts(p, key.orderId, replies);
      var after := Cleaned(cache, key, pid, r.progress, r.failedQuery, p.advances);
      && (forall k | k != key :: (k in after <==> k in cache) && (k in after ==> after[k] == cache[k]))
      && (key in after <==> r.progress.fromId.Some? && r.progress.fills != map[])
      && (key in after ==> IsCharged(cache[key], after[key], replies, n))
  {
    var r := Attempts(p, key.orderId, replies);
    MergesAdvance(p, key.orderId, replies, n);
    if n < |replies| && replies[n].Page? {
      EndedRecord(MergedFirst(p, key.orderId, replies, n), key.orderId, replies[n].fills);
    }
  }

  /** A page that ends a call leaves the record's count of advances, or leaves nothing worth keeping. */
  lemma EndedRecord(p: Progress, orderId: int, page: seq<Fill>)
    requires !PageStep(p, orderId, page).0.Continue?
    ensures var next := PageStep(p, orderId, page).1;
      next.fromId.None? || next.fills == map[] || next.advances == p.advances
  {
  }

  // ---------------------------------------------------------------- bounded overtaking

  predicate QueuedIn(t: Table, key: Key) {
    exists i :: 0 <= i < |t.waiters| && t.waiters[i].key == key
  }

  predicate Queued(s: Sys, key: Key) {
    QueuedIn(s.table, key)
  }

  /** At every poll of the run the waiting order has itself been polled within the lease, and its symbol is not cleared. */
  ghost predicate AttendedRun(s: Sys, steps: seq<Step>, key: Key)
    requires Runs(s, steps)
    decreases |steps|
  {
    steps == [] || key in s.table.cache ||
    (&& (steps[0].Begin? ==>
           var p := PollOf(s, steps[0].key, steps[0].revision, steps[0].now);
           Attended(s.table, p, key, steps[0].now - ACTIVE_LEASE + 1))
     && AttendedRun(Apply(s, steps[0]), steps[1..], key))
  }

  /** The step gives a new slot to another order. */
  predicate Overtakes(s: Sys, step: Step, key: Key) {
    && step.Begin? && step.key != key && step.expectedQty > 0.0
    && var admission := Admit(s.table, PollOf(s, step.key, step.revision, step.now), step.victim, s.nextPid).0;
       admission.Granted? && admission.isNew
  }

  /** How many new slots other orders are given before `key` gets its own. */
  ghost function Overtakings(s: Sys, steps: seq<Step>, key: Key): nat
    requires Runs(s, steps)
    decreases |steps|
  {
    if steps == [] || key in s.table.cache then 0
    else (if Overtakes(s, steps[0], key) then 1 else 0) + Overtakings(Apply(s, steps[0]), steps[1..], key)
  }

  lemma OtherStepsKeepTheQueue(s: Sys, step: Step)
    requires Enabled(s, step) && !step.Begin?
    ensures Apply(s, step).table.waiters == s.table.waiters
  {
  }

  /** The place of `key` after a step: seated, or queued behind no one new and behind one less for every overtaking. */
  ghost predicate PlaceKept(s: Sys, t: Sys, step: Step, key: Key) {
    TablePlaceKept(s.table, t.table, Overtakes(s, step, key), key)
  }

  ghost predicate TablePlaceKept(before: Table, after: Table, overtaken: bool, key: Key) {
    (key in after.cache && !overtaken) || (
      && QueuedIn(after, key)
      && |Ahead(after.waiters, key)| + (if overtaken then 1 else 0) <= |Ahead(before.waiters, key)|)
  }

  lemma SmallerSet<T>(after: set<T>, before: set<T>, gone: T)
    requires after <= before
    ensures |after| <= |before|
    ensures gone in before && gone !in after ==> |after| + 1 <= |before|
  {
    SubsetSize(after, before);
    if gone in before && gone !in after {
      SubsetSize(after, before - {gone});
    }
  }

  lemma AdmissionIsFair(t: Table, p: Poll, victim: Option<Key>, pid: nat, clock: int, key: Key)
    requires TableOk(t, clock) && clock <= p.now && p.retention >= INITIAL_RETENTION_SECONDS
    requires Attended(t, p, key, p.now - ACTIVE_LEASE + 1)
    ensures var (admission, table) := Admit(t, p, victim, pid);
      TablePlaceKept(t, table, p.key != key && admission.Granted? && admission.isNew, key)
  {
    var since := p.now - ACTIVE_LEASE + 1;
    var (admission, table) := Admit(t, p, victim, pid);
    if p.key == key {
      OwnPollIsFair(t, p, victim, pid, clock, since);
    } else {
      AdmitIsFair(t, p, victim, pid, clock, key, since);
    }
    if KeepsPlace(t.waiters, table.waiters, key, since) {
      SmallerSet(Ahead(table.waiters, key), Ahead(t.waiters, key), p.key);
      var i :| 0 <= i < |table.waiters| && table.waiters[i].key == key && table.waiters[i].lastSeen >= since;
    }
  }

  lemma StepIsFair(s: Sys, step: Step, key: Key)
    requires Inv(s) && Enabled(s, step) && Queued(s, key)
    requires step.Begin? ==>
      Attended(s.table, PollOf(s, step.key, step.revision, step.now), key, step.now - ACTIVE_LEASE + 1)
    ensures PlaceKept(s, Apply(s, step), step, key)
  {
    if step.Begin? && step.expectedQty > 0.0 {
      AdmissionIsFair(s.table, PollOf(s, step.key, step.revision, step.now), step.victim, s.nextPid, s.clock, key);
    } else if !step.Begin? {
      OtherStepsKeepTheQueue(s, step);
    }
  }

  ghost predicate PlaceKeptAlong(s: Sys, steps: seq<Step>, key: Key)
    requires Runs(s, steps)
    decreases |steps|
  {
    steps == [] || key in s.table.cache ||
    (PlaceKept(s, Apply(s, steps[0]), steps[0], key) && PlaceKeptAlong(Apply(s, steps[0]), steps[1..], key))
  }

  lemma {:induction false} AttendedRunIsFair(s: Sys, steps: seq<Step>, key: Key)
    requires Inv(s) && Runs(s, steps) && (key in s.table.cache || Queued(s, key)) && AttendedRun(s, steps, key)
    ensures PlaceKeptAlong(s, steps, key)
    decreases |steps|
  {
    if steps != [] && key !in s.table.cache {
      StepKeeps(s, steps[0]);
      StepIsFair(s, steps[0], key);
      AttendedRunIsFair(Apply(s, steps[0]), steps[1..], key);
    }
  }

  lemma OvertakingStep(s: Sys, t: Sys, step: Step, key: Key, rest: nat)
    requires PlaceKept(s, t, step, key)
    requires if key in t.table.cache then rest == 0 else rest <= |Ahead(t.table.waiters, key)|
    ensures (if Overtakes(s, step, key) then 1 else 0) + rest <= |Ahead(s.table.waiters, key)|
  {
  }

  lemma {:induction false} PlacesBoundOvertakings(s: Sys, steps: seq<Step>, key: Key)
    requires Runs(s, steps) && PlaceKeptAlong(s, steps, key)
    ensures Overtakings(s, steps, key) <= |Ahead(s.table.waiters, key)|
    decreases |steps|
  {
    if steps != [] && key !in s.table.cache {
      var t := Apply(s, steps[0]);
      PlacesBoundOvertakings(t, steps[1..], key);
      OvertakingStep(s, t, steps[0], key, Overtakings(t, steps[1..], key));
    }
  }

  /**
   Bounded overtaking: over any run, while a queued order is attended, the other orders that are given
   a slot before it are at most the ones that were queued ahead of it at the start.
   */
  lemma OvertakingIsBounded(s: Sys, steps: seq<Step>, key: Key)
    requires Inv(s) && Runs(s, steps) && Queued(s, key) && AttendedRun(s, steps, key)
    ensures Overtakings(s, steps, key) <= |Ahead(s.table.waiters, key)|
  {
    AttendedRunIsFair(s, steps, key);
    PlacesBoundOvertakings(s, steps, key);
  }

  // ---------------------------------------------------------------- the cleanup, in place

  class FillCacheCleanup {
    const slots: Slots
    const key: Key
    const pid: nat
    const initialAdvances: nat
    var failedQuery: bool

    constructor (slots: Slots, key: Key, pid: nat, initialAdvances: nat)
      ensures this.slots == slots && this.key == key && this.pid == pid && this.initialAdvances == initialAdvances
      ensures !failedQuery
    {
      this.slots, this.key, this.pid, this.initialAdvances, failedQuery := slots, key, pid, initialAdvances, false;
    }

    /** Runs while the record's own lock is still held. */
    method Drop(progress: Progress)
      modifies slots`cache
      ensures slots.cache == Cleaned(old(slots.cache), key, pid, progress, failedQuery, initialAdvances)
    {
      if key !in slots.cache || slots.cache[key].pid != pid {
        return;
      }
      var e := slots.cache[key];
      if progress.fromId.None? || progress.fills == map[] {
        slots.cache := slots.cache - {key};
      } else if failedQuery && progress.advances == initialAdvances {
        var stalled := if e.stalled < STALLED_MAX then e.stalled + 1 else STALLED_MAX;
        slots.cache := slots.cache[key := e.(stalled := stalled)];
      } else if progress.advances != initialAdvances {
        slots.cache := slots.cache[key := e.(stalled := 0)];
      }
    }
  }
}
