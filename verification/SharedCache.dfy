/**
 The epoch-tagged shared cache: ordinary loads, symbol fallbacks, critical refreshes and retirements of
 one key interleave at every wait. A step is what one caller does between two waits; the identity of an
 entry is the number it was created under. Ticks and request times are history, counted in steps.
 */
module SharedCache {
  import opened Basics

  /** A fetched value and the step at which its request was started. */
  datatype Snapshot = Snapshot(value: int, requestedAt: nat)

  /** An entry behind its own lock: the shared snapshot, and the start of the request that last failed. */
  datatype Obj = Obj(key: int, snapshot: Option<Snapshot>, failed: Option<nat>, lockedBy: Option<nat>, createdAt: nat)

  /** What the map holds for a key, with the history of its replacements and retirements. */
  datatype Slot = Slot(epoch: nat, eid: nat, replacedAt: nat, retiredAt: nat, replacements: nat)

  datatype Kind = Load | LoadWithFallback | Critical

  datatype Pc =
    | Start | Waiting | Locked | Held | Fetching | Fetched(ok: bool) | Storing(ok: bool) | Projecting | Checking
    | FallingBack | FallbackFetching | FallbackFetched(ok: bool)
    | Returned | Erred | Cancelled

  datatype Proc = Proc(
    kind: Kind, key: int, pc: Pc, epoch: nat, eid: nat, startedAt: nat, value: Snapshot,
    base: nat, seen: nat, retries: nat, fetches: nat)

  datatype Sys = Sys(entries: map<int, Slot>, objects: map<nat, Obj>, procs: map<nat, Proc>, nextId: nat, tick: nat)

  datatype Step =
    | Call(id: nat, kind: Kind, key: int)
    | Retire(retired: int)
    | Enter(id: nat)
    | Lock(id: nat)
    | TimeOut(id: nat)
    | CheckLocked(id: nat)
    | Inspect(id: nat, cooling: bool, usable: bool)
    | Reply(id: nat, ok: bool, value: int)
    | CheckFetched(id: nat)
    | Store(id: nat)
    | Project(id: nat)
    | CheckFinal(id: nat, missing: bool)
    | FallBack(id: nat)
    | CheckFallback(id: nat)
    | Detach(id: nat)
    | DetachIfCurrent(id: nat)
    | Cancel(id: nat)

  const Initial: Sys := Sys(map[], map[], map[], 0, 1)

  // ---------------------------------------------------------------- the map

  function NewObj(key: int, tick: nat): Obj {
    Obj(key, None, None, None, tick)
  }

  function EpochOf(s: Sys, key: int): nat {
    if key in s.entries then s.entries[key].epoch else 0
  }

  function ReplacementsOf(s: Sys, key: int): nat {
    if key in s.entries then s.entries[key].replacements else 0
  }

  /** `entry(key).or_default()`. */
  function WithDefault(s: Sys, key: int): Sys {
    if key in s.entries then s
    else s.(entries := s.entries[key := Slot(0, s.nextId, 0, 0, 0)],
            objects := s.objects[s.nextId := NewObj(key, s.tick)], nextId := s.nextId + 1)
  }

  /** A fresh entry under the key; a retirement also moves the epoch on. */
  function Replaced(s: Sys, key: int, retire: bool): Sys {
    var was := if key in s.entries then s.entries[key] else Slot(0, 0, 0, 0, 0);
    var slot := Slot(if retire then was.epoch + 1 else was.epoch, s.nextId, s.tick,
                     if retire then s.tick else was.retiredAt, was.replacements + 1);
    s.(entries := s.entries[key := slot],
       objects := s.objects[s.nextId := NewObj(key, s.tick)], nextId := s.nextId + 1)
  }

  predicate Matches(s: Sys, p: Proc) {
    p.key in s.entries && s.entries[p.key].epoch == p.epoch && s.entries[p.key].eid == p.eid
  }

  // ---------------------------------------------------------------- steps

  predicate Holding(pc: Pc) {
    pc.Locked? || pc.Held? || pc.Fetching? || pc.Fetched? || pc.Storing? || pc.Projecting?
  }

  predicate At(s: Sys, id: nat, critical: bool) {
    id in s.procs && s.procs[id].kind.Critical? == critical && (s.procs[id].eid in s.objects || s.procs[id].pc.Start?)
  }

  predicate Enabled(s: Sys, step: Step) {
    match step
    case Call(id, _, _) => id !in s.procs
    case Retire(_) => true
    case Enter(id) => At(s, id, false) && s.procs[id].pc.Start?
    case Lock(id) => At(s, id, false) && s.procs[id].pc.Waiting? && s.objects[s.procs[id].eid].lockedBy.None?
    case TimeOut(id) => At(s, id, false) && s.procs[id].pc.Waiting?
    case CheckLocked(id) => At(s, id, false) && s.procs[id].pc.Locked?
    case Inspect(id, cooling, usable) =>
      && At(s, id, false) && s.procs[id].pc.Held?
      && (cooling ==> s.objects[s.procs[id].eid].failed.Some?)
      && (usable ==> s.objects[s.procs[id].eid].snapshot.Some?)
    case Reply(id, _, _) =>
      id in s.procs && s.procs[id].eid in s.objects && (s.procs[id].pc.Fetching? || s.procs[id].pc.FallbackFetching?)
    case CheckFetched(id) => At(s, id, false) && s.procs[id].pc.Fetched?
    case Store(id) => At(s, id, false) && s.procs[id].pc.Storing?
    case Project(id) => At(s, id, false) && s.procs[id].pc.Projecting?
    case CheckFinal(id, missing) =>
      At(s, id, false) && s.procs[id].pc.Checking? && (missing ==> s.procs[id].kind.LoadWithFallback?)
    case FallBack(id) => At(s, id, false) && s.procs[id].pc.FallingBack?
    case CheckFallback(id) => At(s, id, false) && s.procs[id].pc.FallbackFetched?
    case Detach(id) => At(s, id, true) && s.procs[id].pc.Start?
    case DetachIfCurrent(id) => At(s, id, true) && s.procs[id].pc.Fetched?
    case Cancel(id) =>
      id in s.procs && !s.procs[id].pc.Returned? && !s.procs[id].pc.Erred? && !s.procs[id].pc.Cancelled?
      && (s.procs[id].eid in s.objects || s.procs[id].pc.Start?)
  }

  /** The caller moves to `pc`; its entry's lock is dropped if it no longer holds it there. */
  function Moved(s: Sys, id: nat, p: Proc): Sys
    requires id in s.procs && p.eid in s.objects
  {
    var o := s.objects[p.eid];
    var unlock := Holding(s.procs[id].pc) && !s.procs[id].kind.Critical? && !Holding(p.pc);
    s.(procs := s.procs[id := p], tick := s.tick + 1,
       objects := if unlock then s.objects[p.eid := o.(lockedBy := None)] else s.objects)
  }

  function Retry(p: Proc): Proc {
    p.(pc := Start, retries := p.retries + 1)
  }

  function Entered(s: Sys, id: nat): Sys
    requires id in s.procs
  {
    var t, p := WithDefault(s, s.procs[id].key), s.procs[id];
    var slot := t.entries[p.key];
    t.(tick := s.tick + 1,
       procs := s.procs[id := p.(pc := Waiting, epoch := slot.epoch, eid := slot.eid, seen := slot.replacements)])
  }

  function LockTaken(s: Sys, id: nat): Sys
    requires id in s.procs && s.procs[id].eid in s.objects
  {
    var p := s.procs[id];
    s.(procs := s.procs[id := p.(pc := Locked)], tick := s.tick + 1,
       objects := s.objects[p.eid := s.objects[p.eid].(lockedBy := Some(id))])
  }

  /** Serve the cooling error, keep a fresh snapshot, or drop what is there and start a request. */
  function Inspected(s: Sys, id: nat, cooling: bool, usable: bool): Sys
    requires id in s.procs && s.procs[id].eid in s.objects
  {
    var p := s.procs[id];
    if cooling then Moved(s, id, p.(pc := Erred))
    else if usable then Moved(s, id, p.(pc := Projecting))
    else
      Moved(s.(objects := s.objects[p.eid := s.objects[p.eid].(snapshot := None)]), id,
            p.(pc := Fetching, startedAt := s.tick, fetches := p.fetches + 1))
  }

  function Replied(s: Sys, id: nat, ok: bool, value: int): Sys
    requires id in s.procs && s.procs[id].eid in s.objects
  {
    var p := s.procs[id].(value := if ok then Snapshot(value, s.procs[id].startedAt) else s.procs[id].value);
    Moved(s, id, p.(pc := if p.pc.Fetching? then Fetched(ok) else FallbackFetched(ok)))
  }

  function Stored(s: Sys, id: nat): Sys
    requires id in s.procs && s.procs[id].eid in s.objects && s.procs[id].pc.Storing?
  {
    var p := s.procs[id];
    var o := s.objects[p.eid];
    if p.pc.ok then
      Moved(s.(objects := s.objects[p.eid := o.(snapshot := Some(p.value), failed := None)]), id, p.(pc := Projecting))
    else
      Moved(s.(objects := s.objects[p.eid := o.(failed := Some(p.startedAt))]), id, p.(pc := Erred))
  }

  function Projected(s: Sys, id: nat): Sys
    requires id in s.procs && s.procs[id].eid in s.objects
  {
    var p := s.procs[id];
    match s.objects[p.eid].snapshot
    case None => Moved(s, id, Retry(p))
    case Some(snapshot) => Moved(s, id, p.(pc := Checking, value := snapshot))
  }

  function Detached(s: Sys, id: nat): Sys
    requires id in s.procs
  {
    var p := s.procs[id];
    var t := Replaced(s, p.key, false);
    t.(tick := s.tick + 1,
       procs := s.procs[id := p.(pc := Fetching, epoch := t.entries[p.key].epoch, eid := t.entries[p.key].eid,
                                 startedAt := s.tick, fetches := p.fetches + 1)])
  }

  function DetachedIfCurrent(s: Sys, id: nat): Sys
    requires id in s.procs && s.procs[id].pc.Fetched?
  {
    var p := s.procs[id];
    var current := EpochOf(s, p.key) == p.epoch;
    var t := if current then Replaced(s, p.key, false) else WithDefault(s, p.key);
    var q := if !p.pc.ok then p.(pc := Erred) else if current then p.(pc := Returned) else Retry(p);
    t.(tick := s.tick + 1, procs := s.procs[id := q])
  }

  function Called(s: Sys, id: nat, kind: Kind, key: int): Sys {
    var base := if kind.Critical? then EpochOf(s, key) else ReplacementsOf(s, key);
    s.(tick := s.tick + 1, procs := s.procs[id := Proc(kind, key, Start, 0, 0, 0, Snapshot(0, 0), base, 0, 0, 0)])
  }

  function CancelledAt(s: Sys, id: nat): Sys
    requires id in s.procs && (s.procs[id].eid in s.objects || s.procs[id].pc.Start?)
  {
    var p := s.procs[id].(pc := Cancelled);
    if s.procs[id].pc.Start? then s.(tick := s.tick + 1, procs := s.procs[id := p]) else Moved(s, id, p)
  }

  function Apply(s: Sys, step: Step): Sys
    requires Enabled(s, step)
  {
    match step
    case Call(id, kind, key) => Called(s, id, kind, key)
    case Retire(key) => Replaced(s, key, true).(tick := s.tick + 1)
    case Enter(id) => Entered(s, id)
    case Lock(id) => LockTaken(s, id)
    case TimeOut(id) => Moved(s, id, s.procs[id].(pc := Erred))
    case CheckLocked(id) => Moved(s, id, if Matches(s, s.procs[id]) then s.procs[id].(pc := Held) else Retry(s.procs[id]))
    case Inspect(id, cooling, usable) => Inspected(s, id, cooling, usable)
    case Reply(id, ok, value) => Replied(s, id, ok, value)
    case CheckFetched(id) =>
      var p := s.procs[id];
      Moved(s, id, if Matches(s, p) then p.(pc := Storing(p.pc.ok)) else Retry(p))
    case Store(id) => Stored(s, id)
    case Project(id) => Projected(s, id)
    case CheckFinal(id, missing) =>
      var p := s.procs[id];
      Moved(s, id, if !Matches(s, p) then Retry(p) else p.(pc := if missing then FallingBack else Returned))
    case FallBack(id) => Moved(s, id, s.procs[id].(pc := FallbackFetching, startedAt := s.tick))
    case CheckFallback(id) =>
      var p := s.procs[id];
      Moved(s, id, if !Matches(s, p) then Retry(p) else p.(pc := if p.pc.ok then Returned else Erred))
    case Detach(id) => Detached(s, id)
    case DetachIfCurrent(id) => DetachedIfCurrent(s, id)
    case Cancel(id) => CancelledAt(s, id)
  }

  // ---------------------------------------------------------------- what every interleaving keeps

  /** Whatever an entry holds was requested after the entry was created, and its lock has one holder. */
  ghost predicate ObjOk(s: Sys, eid: nat, o: Obj) {
    && eid < s.nextId && o.createdAt < s.tick
    && (o.snapshot.Some? ==> o.createdAt < o.snapshot.value.requestedAt < s.tick)
    && (o.failed.Some? ==> o.createdAt < o.failed.value < s.tick && o.snapshot.None?)
    && (o.lockedBy.Some? ==>
          && o.lockedBy.value in s.procs
          && var q := s.procs[o.lockedBy.value];
             !q.kind.Critical? && Holding(q.pc) && q.eid == eid)
  }

  /** The current entry of a key was created no earlier than the key's last replacement. */
  ghost predicate SlotOk(s: Sys, key: int, slot: Slot) {
    && slot.eid in s.objects && s.objects[slot.eid].key == key
    && slot.retiredAt <= slot.replacedAt <= s.objects[slot.eid].createdAt
    && slot.replacedAt < s.tick
  }

  predicate Ended(pc: Pc) {
    pc.Returned? || pc.Erred? || pc.Cancelled?
  }

  /** A load knows which entry it works on, and has retried at most once for every replacement since its call. */
  ghost predicate LoadOk(s: Sys, id: nat, p: Proc) {
    if Ended(p.pc) then p.base + p.retries <= ReplacementsOf(s, p.key) && p.fetches <= p.retries + 1
    else if p.pc.Start? then
      p.startedAt < s.tick && p.base + p.retries <= ReplacementsOf(s, p.key) && p.fetches <= p.retries
    else
      && p.eid in s.objects && p.key in s.entries
      && var o, slot := s.objects[p.eid], s.entries[p.key];
      && o.key == p.key && p.startedAt < s.tick
      && p.seen <= slot.replacements && (slot.replacements == p.seen ==> slot.eid == p.eid)
      && (slot.eid == p.eid ==> slot.epoch == p.epoch)
      && p.base + p.retries <= p.seen
      && (Holding(p.pc) <==> o.lockedBy == Some(id))
      && (p.pc.Fetching? || p.pc.Fetched? || p.pc.Storing? || p.pc.FallbackFetching? || p.pc.FallbackFetched? ==>
            o.createdAt < p.startedAt)
      && ((p.pc.Fetched? || p.pc.Storing? || p.pc.FallbackFetched?) && p.pc.ok ==> p.value.requestedAt == p.startedAt)
      && (p.pc.Fetching? || p.pc.Fetched? || p.pc.Storing? ==> o.snapshot.None?)
      && (p.pc.Projecting? ==> o.snapshot.Some?)
      && (p.pc.Checking? ==> o.createdAt < p.value.requestedAt)
      && p.fetches <= p.retries + (if p.pc.Waiting? || p.pc.Locked? || p.pc.Held? then 0 else 1)
  }

  /** A critical refresh has retried at most once for every retirement since its call. */
  ghost predicate CriticalOk(s: Sys, p: Proc) {
    if Ended(p.pc) then p.base + p.retries <= EpochOf(s, p.key) && p.fetches <= p.retries + 1
    else if p.pc.Start? then
      p.startedAt < s.tick && p.base + p.retries <= EpochOf(s, p.key) && p.fetches <= p.retries
    else
      && (p.pc.Fetching? || p.pc.Fetched?)
      && p.eid in s.objects && p.key in s.entries && p.startedAt < s.tick
      && p.base + p.retries <= p.epoch <= s.entries[p.key].epoch
      && (p.epoch == s.entries[p.key].epoch ==> s.entries[p.key].retiredAt < p.startedAt)
      && (p.pc.Fetched? && p.pc.ok ==> p.value.requestedAt == p.startedAt)
      && p.fetches <= p.retries + 1
  }

  ghost predicate ProcOk(s: Sys, id: nat, p: Proc) {
    if p.kind.Critical? then CriticalOk(s, p) else LoadOk(s, id, p)
  }

  ghost predicate Inv(s: Sys) {
    && s.tick >= 1
    && (forall eid | eid in s.objects :: ObjOk(s, eid, s.objects[eid]))
    && (forall key | key in s.entries :: SlotOk(s, key, s.entries[key]))
    && (forall id | id in s.procs :: ProcOk(s, id, s.procs[id]))
  }

  /** A step of one caller that leaves the map alone and changes no entry but its own. */
  ghost predicate LocalStep(s: Sys, t: Sys, id: nat) {
    && id in s.procs && id in t.procs && t.procs == s.procs[id := t.procs[id]]
    && t.entries == s.entries && t.nextId == s.nextId && t.tick == s.tick + 1
    && var eid := s.procs[id].eid;
    && t.procs[id].kind == s.procs[id].kind && t.procs[id].eid == eid
    && eid in s.objects && eid in t.objects && t.objects == s.objects[eid := t.objects[eid]]
    && var o, o' := s.objects[eid], t.objects[eid];
    && o'.key == o.key && o'.createdAt == o.createdAt
    && (o'.lockedBy == o.lockedBy
        || ((o.lockedBy.None? || o.lockedBy.value == id) && (o'.lockedBy.None? || o'.lockedBy.value == id)))
    && (o.lockedBy != Some(id) ==> o'.snapshot == o.snapshot && o'.failed == o.failed)
  }

  lemma LocalStepKeeps(s: Sys, t: Sys, id: nat)
    requires Inv(s) && LocalStep(s, t, id)
    requires ProcOk(t, id, t.procs[id]) && ObjOk(t, s.procs[id].eid, t.objects[s.procs[id].eid])
    ensures Inv(t)
  {
    var eid := s.procs[id].eid;
    forall q | q in t.procs && q != id ensures ProcOk(t, q, t.procs[q]) {
      assert ProcOk(s, q, s.procs[q]);
      assert ObjOk(s, eid, s.objects[eid]);
    }
    forall e | e in t.objects && e != eid ensures ObjOk(t, e, t.objects[e]) {
      assert ObjOk(s, e, s.objects[e]);
    }
    forall key | key in t.entries ensures SlotOk(t, key, t.entries[key]) {
      assert SlotOk(s, key, s.entries[key]);
    }
  }

  lemma TickKeeps(s: Sys)
    requires Inv(s)
    ensures Inv(s.(tick := s.tick + 1))
  {
    var t := s.(tick := s.tick + 1);
    forall id | id in t.procs ensures ProcOk(t, id, t.procs[id]) {
      assert ProcOk(s, id, s.procs[id]);
    }
    forall e | e in t.objects ensures ObjOk(t, e, t.objects[e]) {
      assert ObjOk(s, e, s.objects[e]);
    }
    forall key | key in t.entries ensures SlotOk(t, key, t.entries[key]) {
      assert SlotOk(s, key, s.entries[key]);
    }
  }

  /** A caller that holds no lock before or after the step. */
  lemma ProcStepKeeps(s: Sys, t: Sys, id: nat, p: Proc)
    requires Inv(s) && t == s.(procs := s.procs[id := p])
    requires id in s.procs ==> s.procs[id].kind.Critical? || !Holding(s.procs[id].pc)
    requires ProcOk(s, id, p) && (p.kind.Critical? || !Holding(p.pc))
    ensures Inv(t)
  {
    forall q | q in t.procs ensures ProcOk(t, q, t.procs[q]) {
      if q != id {
        assert ProcOk(s, q, s.procs[q]);
      }
    }
    forall e | e in t.objects ensures ObjOk(t, e, t.objects[e]) {
      assert ObjOk(s, e, s.objects[e]);
    }
    forall key | key in t.entries ensures SlotOk(t, key, t.entries[key]) {
      assert SlotOk(s, key, s.entries[key]);
    }
  }

  /** A fresh entry under `key`: the first one, or one that replaces the entry before it. */
  ghost predicate MapStep(s: Sys, t: Sys, key: int) {
    && t.procs == s.procs && t.tick == s.tick + 1
    && key in t.entries && t.entries == s.entries[key := t.entries[key]]
    && var slot := t.entries[key];
    && slot.eid == s.nextId && t.nextId == s.nextId + 1
    && t.objects == s.objects[s.nextId := NewObj(key, s.tick)]
    && slot.epoch >= EpochOf(s, key) && slot.retiredAt <= slot.replacedAt <= s.tick
    && slot.replacements >= ReplacementsOf(s, key)
    && (key in s.entries ==> slot.replacements == s.entries[key].replacements + 1)
    && (key in s.entries && slot.epoch == s.entries[key].epoch ==> slot.retiredAt == s.entries[key].retiredAt)
  }

  lemma MapStepKeeps(s: Sys, t: Sys, key: int)
    requires Inv(s) && MapStep(s, t, key)
    ensures Inv(t)
  {
    assert forall e | e in s.objects :: ObjOk(s, e, s.objects[e]);
    assert s.nextId !in s.objects;
    forall id | id in t.procs ensures ProcOk(t, id, t.procs[id]) {
      assert ProcOk(s, id, s.procs[id]);
    }
    forall e | e in t.objects ensures ObjOk(t, e, t.objects[e]) {
      if e != s.nextId {
        assert ObjOk(s, e, s.objects[e]);
      }
    }
    forall k | k in t.entries ensures SlotOk(t, k, t.entries[k]) {
      if k != key {
        assert SlotOk(s, k, s.entries[k]);
      }
    }
  }

  lemma ReplacedKeeps(s: Sys, key: int, retire: bool)
    requires Inv(s)
    ensures Inv(Replaced(s, key, retire).(tick := s.tick + 1))
  {
    if key in s.entries {
      assert SlotOk(s, key, s.entries[key]);
    }
    MapStepKeeps(s, Replaced(s, key, retire).(tick := s.tick + 1), key);
  }

  lemma WithDefaultKeeps(s: Sys, key: int)
    requires Inv(s)
    ensures Inv(WithDefault(s, key).(tick := s.tick + 1))
  {
    if key in s.entries {
      TickKeeps(s);
    } else {
      MapStepKeeps(s, WithDefault(s, key).(tick := s.tick + 1), key);
    }
  }

  lemma EnteredOwn(s: Sys, id: nat)
    requires id in s.procs && !s.procs[id].kind.Critical? && s.procs[id].pc.Start? && LoadOk(s, id, s.procs[id])
    requires s.procs[id].key in s.entries ==> SlotOk(s, s.procs[id].key, s.entries[s.procs[id].key])
    requires var key := s.procs[id].key;
      key in s.entries ==> s.objects[s.entries[key].eid].lockedBy != Some(id)
    ensures var u := WithDefault(s, s.procs[id].key).(tick := s.tick + 1);
      LoadOk(u, id, Entered(s, id).procs[id])
  {
  }

  lemma EnteredKeeps(s: Sys, id: nat)
    requires Inv(s) && id in s.procs && !s.procs[id].kind.Critical? && s.procs[id].pc.Start?
    ensures Inv(Entered(s, id))
  {
    EnteredOwn(s, id) by {
      assert ProcOk(s, id, s.procs[id]);
      var key := s.procs[id].key;
      if key in s.entries {
        assert SlotOk(s, key, s.entries[key]);
        assert ObjOk(s, s.entries[key].eid, s.objects[s.entries[key].eid]);
      }
    }
    WithDefaultKeeps(s, s.procs[id].key);
    ProcStepKeeps(WithDefault(s, s.procs[id].key).(tick := s.tick + 1), Entered(s, id), id, Entered(s, id).procs[id]);
  }

  lemma CalledKeeps(s: Sys, id: nat, kind: Kind, key: int)
    requires Inv(s) && id !in s.procs
    ensures Inv(Called(s, id, kind, key))
  {
    TickKeeps(s);
    var u := s.(tick := s.tick + 1);
    var p := Called(s, id, kind, key).procs[id];
    assert ProcOk(u, id, p) by {
      assert p.pc.Start? && p.retries == 0 && p.fetches == 0;
    }
    ProcStepKeeps(u, Called(s, id, kind, key), id, p);
  }

  lemma DetachedKeeps(s: Sys, id: nat)
    requires Inv(s) && id in s.procs && s.procs[id].kind.Critical? && s.procs[id].pc.Start?
    ensures Inv(Detached(s, id))
  {
    var p := s.procs[id];
    assert ProcOk(s, id, p);
    ReplacedKeeps(s, p.key, false);
    if p.key in s.entries {
      assert SlotOk(s, p.key, s.entries[p.key]);
    }
    ProcStepKeeps(Replaced(s, p.key, false).(tick := s.tick + 1), Detached(s, id), id, Detached(s, id).procs[id]);
  }

  lemma DetachedIfCurrentOwn(s: Sys, id: nat)
    requires id in s.procs && s.procs[id].kind.Critical? && s.procs[id].pc.Fetched? && CriticalOk(s, s.procs[id])
    ensures var p := s.procs[id];
      var u := if EpochOf(s, p.key) == p.epoch then Replaced(s, p.key, false) else WithDefault(s, p.key);
      var q := DetachedIfCurrent(s, id).procs[id];
      !Holding(q.pc) && CriticalOk(u.(tick := s.tick + 1), q)
  {
  }

  lemma DetachedIfCurrentKeeps(s: Sys, id: nat)
    requires Inv(s) && id in s.procs && s.procs[id].kind.Critical? && s.procs[id].pc.Fetched?
    ensures Inv(DetachedIfCurrent(s, id))
  {
    var p := s.procs[id];
    var q := DetachedIfCurrent(s, id).procs[id];
    assert ProcOk(s, id, p);
    var t := DetachedIfCurrent(s, id);
    DetachedIfCurrentOwn(s, id);
    if EpochOf(s, p.key) == p.epoch {
      ReplacedKeeps(s, p.key, false);
      ProcStepKeeps(Replaced(s, p.key, false).(tick := s.tick + 1), t, id, q);
    } else {
      WithDefaultKeeps(s, p.key);
      ProcStepKeeps(WithDefault(s, p.key).(tick := s.tick + 1), t, id, q);
    }
  }

  // ---------------------------------------------------------------- steps of one load

  /** What is known of a caller's own job and entry. */
  ghost predicate OwnPart(s: Sys, id: nat) {
    && id in s.procs && s.procs[id].eid in s.objects
    && ProcOk(s, id, s.procs[id]) && ObjOk(s, s.procs[id].eid, s.objects[s.procs[id].eid])
  }

  ghost predicate OwnStep(s: Sys, t: Sys, id: nat) {
    LocalStep(s, t, id) && ProcOk(t, id, t.procs[id]) && ObjOk(t, s.procs[id].eid, t.objects[s.procs[id].eid])
  }

  lemma LockTakenOwn(s: Sys, id: nat)
    requires OwnPart(s, id) && At(s, id, false) && s.procs[id].pc.Waiting? && s.objects[s.procs[id].eid].lockedBy.None?
    ensures OwnStep(s, LockTaken(s, id), id)
  {
  }

  /** A retry is charged to a replacement that happened since the entry was looked up. */
  lemma RetryOwn(s: Sys, id: nat)
    requires OwnPart(s, id) && At(s, id, false) && !Ended(s.procs[id].pc) && !s.procs[id].pc.Start?
    requires !Matches(s, s.procs[id])
    ensures OwnStep(s, Moved(s, id, Retry(s.procs[id])), id)
  {
  }

  lemma EndOwn(s: Sys, id: nat, pc: Pc)
    requires OwnPart(s, id) && Ended(pc) && !s.procs[id].pc.Start?
    requires !Ended(s.procs[id].pc)
    ensures OwnStep(s, Moved(s, id, s.procs[id].(pc := pc)), id)
  {
  }

  lemma AdvanceOwn(s: Sys, id: nat, pc: Pc)
    requires OwnPart(s, id) && At(s, id, false)
    requires var now := s.procs[id].pc;
      || (now.Locked? && pc.Held?)
      || (now.Fetched? && pc == Storing(now.ok))
      || (now.Checking? && pc.FallingBack?)
    ensures OwnStep(s, Moved(s, id, s.procs[id].(pc := pc)), id)
  {
  }

  lemma InspectedOwn(s: Sys, id: nat, cooling: bool, usable: bool)
    requires OwnPart(s, id) && Enabled(s, Inspect(id, cooling, usable))
    ensures OwnStep(s, Inspected(s, id, cooling, usable), id)
  {
  }

  lemma RepliedOwn(s: Sys, id: nat, ok: bool, value: int)
    requires OwnPart(s, id) && Enabled(s, Reply(id, ok, value))
    ensures OwnStep(s, Replied(s, id, ok, value), id)
  {
  }

  lemma StoredOwn(s: Sys, id: nat)
    requires OwnPart(s, id) && At(s, id, false) && s.procs[id].pc.Storing?
    ensures OwnStep(s, Stored(s, id), id)
  {
  }

  /** A holder that has decided to project always finds a snapshot. */
  lemma ProjectedOwn(s: Sys, id: nat)
    requires OwnPart(s, id) && At(s, id, false) && s.procs[id].pc.Projecting?
    ensures s.objects[s.procs[id].eid].snapshot.Some?
    ensures OwnStep(s, Projected(s, id), id)
  {
  }

  lemma FallBackOwn(s: Sys, id: nat)
    requires OwnPart(s, id) && At(s, id, false) && s.procs[id].pc.FallingBack?
    ensures OwnStep(s, Moved(s, id, s.procs[id].(pc := FallbackFetching, startedAt := s.tick)), id)
  {
  }

  // ---------------------------------------------------------------- every step

  lemma OwnStepKeeps(s: Sys, t: Sys, id: nat)
    requires Inv(s) && OwnStep(s, t, id)
    ensures Inv(t)
  {
    LocalStepKeeps(s, t, id);
  }

  /** An active caller past its start has an entry, and what is known of both. */
  lemma InvGivesOwnPart(s: Sys, id: nat)
    requires Inv(s) && id in s.procs && !Ended(s.procs[id].pc) && !s.procs[id].pc.Start?
    ensures OwnPart(s, id)
  {
    assert ProcOk(s, id, s.procs[id]);
    assert ObjOk(s, s.procs[id].eid, s.objects[s.procs[id].eid]);
  }

  lemma CancelledKeeps(s: Sys, id: nat)
    requires Inv(s) && Enabled(s, Cancel(id))
    ensures Inv(Apply(s, Cancel(id)))
  {
    if s.procs[id].pc.Start? {
      assert ProcOk(s, id, s.procs[id]);
      TickKeeps(s);
      ProcStepKeeps(s.(tick := s.tick + 1), Apply(s, Cancel(id)), id, s.procs[id].(pc := Cancelled));
    } else {
      InvGivesOwnPart(s, id);
      EndOwn(s, id, Cancelled);
      OwnStepKeeps(s, Apply(s, Cancel(id)), id);
    }
  }

  ghost predicate OfLoad(step: Step) {
    || step.Lock? || step.TimeOut? || step.CheckLocked? || step.Inspect? || step.Reply? || step.CheckFetched?
    || step.Store? || step.Project? || step.CheckFinal? || step.FallBack? || step.CheckFallback?
  }

  lemma LoadStepOwn(s: Sys, step: Step)
    requires OfLoad(step) && Enabled(s, step) && OwnPart(s, step.id)
    ensures OwnStep(s, Apply(s, step), step.id)
  {
    match step
    case Lock(id) => LockTakenOwn(s, id);
    case TimeOut(id) => EndOwn(s, id, Erred);
    case CheckLocked(id) => if Matches(s, s.procs[id]) { AdvanceOwn(s, id, Held); } else { RetryOwn(s, id); }
    case Inspect(id, cooling, usable) => InspectedOwn(s, id, cooling, usable);
    case Reply(id, ok, value) => RepliedOwn(s, id, ok, value);
    case CheckFetched(id) =>
      if Matches(s, s.procs[id]) { AdvanceOwn(s, id, Storing(s.procs[id].pc.ok)); } else { RetryOwn(s, id); }
    case Store(id) => StoredOwn(s, id);
    case Project(id) => ProjectedOwn(s, id);
    case CheckFinal(id, missing) =>
      if !Matches(s, s.procs[id]) { RetryOwn(s, id); }
      else if missing { AdvanceOwn(s, id, FallingBack); }
      else { EndOwn(s, id, Returned); }
    case FallBack(id) => FallBackOwn(s, id);
    case CheckFallback(id) =>
      if !Matches(s, s.procs[id]) { RetryOwn(s, id); }
      else { EndOwn(s, id, if s.procs[id].pc.ok then Returned else Erred); }
  }

  lemma LoadStepKeeps(s: Sys, step: Step)
    requires Inv(s) && OfLoad(step) && Enabled(s, step)
    ensures Inv(Apply(s, step))
  {
    InvGivesOwnPart(s, step.id);
    LoadStepOwn(s, step);
    OwnStepKeeps(s, Apply(s, step), step.id);
  }

  lemma OtherStepKeeps(s: Sys, step: Step)
    requires Inv(s) && !OfLoad(step) && Enabled(s, step)
    ensures Inv(Apply(s, step))
  {
    match step
    case Call(id, kind, key) => CalledKeeps(s, id, kind, key);
    case Retire(key) => ReplacedKeeps(s, key, true);
    case Enter(id) => EnteredKeeps(s, id);
    case Detach(id) => DetachedKeeps(s, id);
    case DetachIfCurrent(id) => DetachedIfCurrentKeeps(s, id);
    case Cancel(_) => CancelledKeeps(s, step.id);
  }

  lemma StepKeeps(s: Sys, step: Step)
    requires Inv(s) && Enabled(s, step)
    ensures Inv(Apply(s, step))
  {
    if OfLoad(step) {
      LoadStepKeeps(s, step);
    } else {
      OtherStepKeeps(s, step);
    }
  }

  // ---------------------------------------------------------------- every run

  /** The states of a run: step `i` leads from state `i` to state `i + 1` and happens at tick `i + 1`. */
  ghost predicate Run(states: seq<Sys>, steps: seq<Step>) {
    && |states| == |steps| + 1
    && states[0] == Initial
    && forall i | 0 <= i < |steps| :: Leads(states[i], steps[i], states[i + 1])
  }

  ghost predicate Leads(s: Sys, step: Step, t: Sys) {
    Enabled(s, step) && t == Apply(s, step)
  }

  lemma {:induction false} RunKeeps(states: seq<Sys>, steps: seq<Step>, n: nat)
    requires Run(states, steps) && n <= |steps|
    ensures Inv(states[n]) && states[n].tick == n + 1
  {
    if n > 0 {
      RunKeeps(states, steps, n - 1);
      assert Leads(states[n - 1], steps[n - 1], states[n]);
      StepKeeps(states[n - 1], steps[n - 1]);
    }
  }

  /** The step replaces the entry of `key`: a retirement, a detach, or a detach whose epoch is still current. */
  predicate Replaces(s: Sys, step: Step, key: int) {
    || Retires(step, key)
    || (step.Detach? && step.id in s.procs && s.procs[step.id].key == key)
    || (step.DetachIfCurrent? && step.id in s.procs && s.procs[step.id].key == key
        && EpochOf(s, key) == s.procs[step.id].epoch)
  }

  predicate Retires(step: Step, key: int) {
    step.Retire? && step.retired == key
  }

  /** How the map records its replacements and retirements. */
  ghost predicate SlotHistory(s: Sys, step: Step, t: Sys, key: int) {
    && ReplacementsOf(t, key) == ReplacementsOf(s, key) + (if Replaces(s, step, key) then 1 else 0)
    && EpochOf(t, key) == EpochOf(s, key) + (if Retires(step, key) then 1 else 0)
    && (key in s.entries ==> (
          && key in t.entries
          && t.entries[key].replacedAt == (if Replaces(s, step, key) then s.tick else s.entries[key].replacedAt)
          && t.entries[key].retiredAt == (if Retires(step, key) then s.tick else s.entries[key].retiredAt)))
    && (Replaces(s, step, key) ==> key in t.entries && t.entries[key].replacedAt == s.tick)
    && (Retires(step, key) ==> key in t.entries && t.entries[key].retiredAt == s.tick)
  }

  lemma LoadHasHistory(s: Sys, step: Step, key: int)
    requires OfLoad(step) && Enabled(s, step)
    ensures SlotHistory(s, step, Apply(s, step), key)
  {
  }

  lemma ReplacementHasHistory(s: Sys, step: Step, key: int)
    requires !OfLoad(step) && Enabled(s, step)
    ensures SlotHistory(s, step, Apply(s, step), key)
  {
  }

  lemma StepHasHistory(s: Sys, step: Step, key: int)
    requires Enabled(s, step)
    ensures SlotHistory(s, step, Apply(s, step), key)
  {
    if OfLoad(step) {
      LoadHasHistory(s, step, key);
    } else {
      ReplacementHasHistory(s, step, key);
    }
  }

  lemma RunHasHistory(states: seq<Sys>, steps: seq<Step>, n: nat, key: int)
    requires Run(states, steps) && n < |steps|
    ensures SlotHistory(states[n], steps[n], states[n + 1], key)
  {
    assert Leads(states[n], steps[n], states[n + 1]);
    StepHasHistory(states[n], steps[n], key);
  }

  lemma TickAt(states: seq<Sys>, steps: seq<Step>, n: nat)
    requires Run(states, steps) && n <= |steps|
    ensures states[n].tick == n + 1
  {
    RunKeeps(states, steps, n);
  }

  /** The map has recorded a replacement of the key, or a retirement, at `at` or later. */
  predicate ReplacedSince(s: Sys, key: int, at: nat, retired: bool) {
    key in s.entries && s.entries[key].replacedAt >= at && (retired ==> s.entries[key].retiredAt >= at)
  }

  lemma RecordIsKept(s: Sys, step: Step, t: Sys, key: int, at: nat, retired: bool)
    requires SlotHistory(s, step, t, key) && s.tick >= at
    requires (if retired then Retires(step, key) else Replaces(s, step, key)) || ReplacedSince(s, key, at, retired)
    ensures ReplacedSince(t, key, at, retired)
  {
  }

  /** What the map records about a key along the run. */
  ghost predicate Recorded(states: seq<Sys>, steps: seq<Step>, key: int) {
    && |states| == |steps| + 1
    && forall n | 0 <= n < |steps| :: SlotHistory(states[n], steps[n], states[n + 1], key) && states[n].tick == n + 1
  }

  lemma RunIsRecorded(states: seq<Sys>, steps: seq<Step>, key: int)
    requires Run(states, steps)
    ensures Recorded(states, steps, key)
  {
    forall n | 0 <= n < |steps| ensures SlotHistory(states[n], steps[n], states[n + 1], key) && states[n].tick == n + 1 {
      RunHasHistory(states, steps, n, key);
      TickAt(states, steps, n);
    }
  }

  lemma {:induction false} RecordStays(states: seq<Sys>, steps: seq<Step>, n: nat, key: int, i: nat)
    requires Recorded(states, steps, key) && i < n <= |steps| && Replaces(states[i], steps[i], key)
    ensures ReplacedSince(states[n], key, i + 1, Retires(steps[i], key))
  {
    if i < n - 1 {
      RecordStays(states, steps, n - 1, key, i);
    }
    RecordIsKept(states[n - 1], steps[n - 1], states[n], key, i + 1, Retires(steps[i], key));
  }

  /** The last replacement of a key is no older than any replacement in the run. */
  lemma LastReplacement(states: seq<Sys>, steps: seq<Step>, n: nat, key: int, i: nat)
    requires Run(states, steps) && i < n <= |steps| && Replaces(states[i], steps[i], key)
    ensures ReplacedSince(states[n], key, i + 1, Retires(steps[i], key))
  {
    RunIsRecorded(states, steps, key);
    RecordStays(states, steps, n, key, i);
  }

  // ---------------------------------------------------------------- where a value comes from

  /** The step starts a request on behalf of caller `id`. */
  predicate StartsRequest(step: Step, id: nat) {
    || (step.Inspect? && step.id == id && !step.cooling && !step.usable)
    || (step.FallBack? && step.id == id)
    || (step.Detach? && step.id == id)
  }

  /** Step `at` of the run started the request that `id` made for `key`. */
  ghost predicate Requested(states: seq<Sys>, steps: seq<Step>, n: nat, id: nat, key: int, at: nat)
    requires Run(states, steps) && n <= |steps|
  {
    && 0 < at <= n
    && StartsRequest(steps[at - 1], id)
    && id in states[at - 1].procs && states[at - 1].procs[id].key == key
  }

  /** The value is the reply, seen within the first `n` steps, to a request for `key` started at its tick. */
  ghost predicate Served(states: seq<Sys>, steps: seq<Step>, n: nat, key: int, v: Snapshot)
    requires Run(states, steps) && n <= |steps|
  {
    exists id, r :: AnswersAt(states, steps, n, id, r, key, v)
  }

  ghost predicate AnswersAt(states: seq<Sys>, steps: seq<Step>, n: nat, id: nat, r: nat, key: int, v: Snapshot)
    requires Run(states, steps) && n <= |steps|
  {
    && r < n && steps[r] == Reply(id, true, v.value)
    && id in states[r].procs && states[r].procs[id].startedAt == v.requestedAt
    && Requested(states, steps, r, id, key, v.requestedAt)
  }

  /** Every request and every value in the state has an origin in the run. */
  ghost predicate Traced(states: seq<Sys>, steps: seq<Step>, n: nat)
    requires Run(states, steps) && n <= |steps|
  {
    var s := states[n];
    && (forall id | id in s.procs :: ProcTraced(states, steps, n, id, s.procs[id]))
    && (forall e | e in s.objects && s.objects[e].snapshot.Some? ::
          Served(states, steps, n, s.objects[e].key, s.objects[e].snapshot.value))
  }

  ghost predicate ProcTraced(states: seq<Sys>, steps: seq<Step>, n: nat, id: nat, p: Proc)
    requires Run(states, steps) && n <= |steps|
  {
    && (p.startedAt > 0 ==> Requested(states, steps, n, id, p.key, p.startedAt))
    && (p.value.requestedAt > 0 ==> Served(states, steps, n, p.key, p.value))
  }

  /** Where a caller's request and value come from in one step. */
  ghost predicate ProcFlow(s: Sys, t: Sys, step: Step, id: nat)
    requires id in t.procs
  {
    var p := t.procs[id];
    if id !in s.procs then p.startedAt == 0 && p.value.requestedAt == 0
    else
      var was := s.procs[id];
      && p.key == was.key && p.kind == was.kind && p.base == was.base
      && (p.startedAt == was.startedAt || (p.startedAt == s.tick && StartsRequest(step, id)))
      && (p.value == was.value
          || (step == Reply(id, true, p.value.value) && p.value.requestedAt == was.startedAt)
          || (was.eid in s.objects && s.objects[was.eid].snapshot == Some(p.value) && was.pc.Projecting? && !was.kind.Critical?))
  }

  /** Where the snapshot of an entry comes from in one step. */
  ghost predicate ObjFlow(s: Sys, t: Sys, e: nat)
    requires e in t.objects
  {
    var o := t.objects[e];
    || o.snapshot.None?
    || (e in s.objects && o.key == s.objects[e].key && o.snapshot == s.objects[e].snapshot)
    || (e in s.objects && o.key == s.objects[e].key && exists id :: StoresInto(s, id, e, o.snapshot))
  }

  predicate StoresInto(s: Sys, id: nat, e: nat, snapshot: Option<Snapshot>) {
    && id in s.procs && s.procs[id].eid == e && !s.procs[id].kind.Critical?
    && s.procs[id].pc.Storing? && s.procs[id].pc.ok && snapshot == Some(s.procs[id].value)
  }

  lemma LoadProcsFlow(s: Sys, step: Step, id: nat)
    requires OfLoad(step) && Enabled(s, step) && id in Apply(s, step).procs
    ensures ProcFlow(s, Apply(s, step), step, id)
  {
  }

  lemma OtherProcsFlow(s: Sys, step: Step, id: nat)
    requires !OfLoad(step) && Enabled(s, step) && id in Apply(s, step).procs
    ensures ProcFlow(s, Apply(s, step), step, id)
  {
  }

  lemma ProcsFlow(s: Sys, step: Step, id: nat)
    requires Enabled(s, step) && id in Apply(s, step).procs
    ensures ProcFlow(s, Apply(s, step), step, id)
  {
    if OfLoad(step) {
      LoadProcsFlow(s, step, id);
    } else {
      OtherProcsFlow(s, step, id);
    }
  }

  lemma ObjectsFlow(s: Sys, step: Step, e: nat)
    requires Enabled(s, step) && e in Apply(s, step).objects
    ensures ObjFlow(s, Apply(s, step), e)
  {
    if step.Store? && e == s.procs[step.id].eid && s.procs[step.id].pc.ok {
      assert StoresInto(s, step.id, e, Some(s.procs[step.id].value));
    }
  }

  lemma RequestedLater(states: seq<Sys>, steps: seq<Step>, m: nat, n: nat, id: nat, key: int, at: nat)
    requires Run(states, steps) && m <= n <= |steps| && Requested(states, steps, m, id, key, at)
    ensures Requested(states, steps, n, id, key, at)
  {
  }

  lemma ServedLater(states: seq<Sys>, steps: seq<Step>, m: nat, n: nat, key: int, v: Snapshot)
    requires Run(states, steps) && m <= n <= |steps| && Served(states, steps, m, key, v)
    ensures Served(states, steps, n, key, v)
  {
    var id, r :| AnswersAt(states, steps, m, id, r, key, v);
    assert AnswersAt(states, steps, n, id, r, key, v);
  }

  lemma ProcsFlowAt(states: seq<Sys>, steps: seq<Step>, n: nat, id: nat)
    requires Run(states, steps) && n < |steps| && id in states[n + 1].procs
    ensures ProcFlow(states[n], states[n + 1], steps[n], id)
  {
    assert Leads(states[n], steps[n], states[n + 1]);
    ProcsFlow(states[n], steps[n], id);
  }

  lemma ObjectsFlowAt(states: seq<Sys>, steps: seq<Step>, n: nat, e: nat)
    requires Run(states, steps) && n < |steps| && e in states[n + 1].objects
    ensures ObjFlow(states[n], states[n + 1], e)
  {
    assert Leads(states[n], steps[n], states[n + 1]);
    ObjectsFlow(states[n], steps[n], e);
  }

  lemma ProcTracedStep(states: seq<Sys>, steps: seq<Step>, n: nat, id: nat)
    requires Run(states, steps) && n < |steps| && states[n].tick == n + 1
    requires id in states[n].procs ==> ProcTraced(states, steps, n, id, states[n].procs[id])
    requires id in states[n].procs && !states[n].procs[id].kind.Critical? && states[n].procs[id].pc.Projecting? ==>
      var e := states[n].procs[id].eid;
      && e in states[n].objects && states[n].objects[e].key == states[n].procs[id].key
      && (states[n].objects[e].snapshot.Some? ==>
            Served(states, steps, n, states[n].objects[e].key, states[n].objects[e].snapshot.value))
    requires id in states[n + 1].procs
    ensures ProcTraced(states, steps, n + 1, id, states[n + 1].procs[id])
  {
    var s, p := states[n], states[n + 1].procs[id];
    ProcsFlowAt(states, steps, n, id);
    if id in s.procs {
      var was := s.procs[id];
      if p.startedAt > 0 && p.startedAt == was.startedAt {
        RequestedLater(states, steps, n, n + 1, id, p.key, p.startedAt);
      }
      if p.value.requestedAt > 0 {
        if p.value == was.value {
          ServedLater(states, steps, n, n + 1, p.key, p.value);
        } else if steps[n] == Reply(id, true, p.value.value) && p.value.requestedAt == was.startedAt {
          assert AnswersAt(states, steps, n + 1, id, n, p.key, p.value);
        } else {
          ServedLater(states, steps, n, n + 1, p.key, p.value);
        }
      }
    }
  }

  lemma ProcTracedAfter(states: seq<Sys>, steps: seq<Step>, n: nat, id: nat)
    requires Run(states, steps) && n < |steps| && Inv(states[n]) && states[n].tick == n + 1
    requires Traced(states, steps, n) && id in states[n + 1].procs
    ensures ProcTraced(states, steps, n + 1, id, states[n + 1].procs[id])
  {
    var s := states[n];
    if id in s.procs {
      assert ProcTraced(states, steps, n, id, s.procs[id]);
      assert ProcOk(s, id, s.procs[id]);
    }
    ProcTracedStep(states, steps, n, id);
  }

  lemma ObjTracedStep(states: seq<Sys>, steps: seq<Step>, n: nat, e: nat)
    requires Run(states, steps) && n < |steps| && Inv(states[n]) && Traced(states, steps, n)
    requires e in states[n + 1].objects && states[n + 1].objects[e].snapshot.Some?
    ensures Served(states, steps, n + 1, states[n + 1].objects[e].key, states[n + 1].objects[e].snapshot.value)
  {
    var s, o := states[n], states[n + 1].objects[e];
    ObjectsFlowAt(states, steps, n, e);
    if o.snapshot != s.objects[e].snapshot {
      var id :| StoresInto(s, id, e, o.snapshot);
      assert ProcOk(s, id, s.procs[id]) && ProcTraced(states, steps, n, id, s.procs[id]);
    }
    ServedLater(states, steps, n, n + 1, o.key, o.snapshot.value);
  }

  lemma {:induction false} RunIsTraced(states: seq<Sys>, steps: seq<Step>, n: nat)
    requires Run(states, steps) && n <= |steps|
    ensures Traced(states, steps, n)
  {
    if n > 0 {
      RunIsTraced(states, steps, n - 1);
      RunKeeps(states, steps, n - 1);
      forall id | id in states[n].procs ensures ProcTraced(states, steps, n, id, states[n].procs[id]) {
        ProcTracedAfter(states, steps, n - 1, id);
      }
      forall e | e in states[n].objects && states[n].objects[e].snapshot.Some?
        ensures Served(states, steps, n, states[n].objects[e].key, states[n].objects[e].snapshot.value)
      {
        ObjTracedStep(states, steps, n - 1, e);
      }
    }
  }

  // ---------------------------------------------------------------- freshness

  /** Step `n` of the run is where caller `id` returns. */
  ghost predicate ReturnsAt(states: seq<Sys>, steps: seq<Step>, n: nat, id: nat)
    requires Run(states, steps) && n < |steps|
  {
    && id in states[n].procs && id in states[n + 1].procs
    && !states[n].procs[id].pc.Returned? && states[n + 1].procs[id].pc.Returned?
  }

  lemma OnlyChecksReturn(s: Sys, step: Step, id: nat)
    requires Enabled(s, step) && id in s.procs && !s.procs[id].kind.Critical?
    requires !s.procs[id].pc.Returned? && Apply(s, step).procs[id].pc.Returned?
    ensures (step.CheckFinal? || step.CheckFallback?) && step.id == id
    ensures var t, p := Apply(s, step), s.procs[id];
      && Matches(s, p) && t.procs[id].value == p.value && t.procs[id].key == p.key
      && (p.pc.Checking? || p.pc == FallbackFetched(true))
  {
  }

  /** What a load returns was requested after the last replacement of the entry it checked. */
  lemma LoadReturnsFresh(s: Sys, step: Step, id: nat)
    requires Inv(s) && id in s.procs && !s.procs[id].kind.Critical?
    requires (step.CheckFinal? || step.CheckFallback?) && step.id == id
    requires Matches(s, s.procs[id]) && (s.procs[id].pc.Checking? || s.procs[id].pc == FallbackFetched(true))
    ensures var p := s.procs[id];
      && p.key in s.entries && !Replaces(s, step, p.key)
      && s.entries[p.key].replacedAt < p.value.requestedAt
  {
    var p := s.procs[id];
    assert ProcOk(s, id, p);
    assert SlotOk(s, p.key, s.entries[p.key]);
  }

  lemma OnlyDetachReturns(s: Sys, step: Step, id: nat)
    requires Enabled(s, step) && id in s.procs && s.procs[id].kind.Critical?
    requires !s.procs[id].pc.Returned? && Apply(s, step).procs[id].pc.Returned?
    ensures step == DetachIfCurrent(id)
  {
  }

  lemma RefreshReturnsFresh(s: Sys, id: nat)
    requires Inv(s) && Enabled(s, DetachIfCurrent(id)) && s.procs[id].kind.Critical?
    requires !s.procs[id].pc.Returned? && Apply(s, DetachIfCurrent(id)).procs[id].pc.Returned?
    ensures var t, p := Apply(s, DetachIfCurrent(id)), s.procs[id];
      && p.key in s.entries && t.procs[id].value == p.value && t.procs[id].key == p.key
      && s.entries[p.key].retiredAt < p.value.requestedAt
  {
    assert ProcOk(s, id, s.procs[id]);
  }

  lemma ReturnIsFresh(states: seq<Sys>, steps: seq<Step>, n: nat, id: nat)
    requires Run(states, steps) && n < |steps| && ReturnsAt(states, steps, n, id)
    ensures var p, t := states[n].procs[id], states[n];
      && p.key in t.entries && states[n + 1].procs[id].value == p.value && states[n + 1].procs[id].key == p.key
      && (if p.kind.Critical? then steps[n].DetachIfCurrent? else !Replaces(t, steps[n], p.key))
      && (if p.kind.Critical? then t.entries[p.key].retiredAt else t.entries[p.key].replacedAt) < p.value.requestedAt
  {
    RunKeeps(states, steps, n);
    assert Leads(states[n], steps[n], states[n + 1]);
    if states[n].procs[id].kind.Critical? {
      OnlyDetachReturns(states[n], steps[n], id);
      RefreshReturnsFresh(states[n], id);
    } else {
      OnlyChecksReturn(states[n], steps[n], id);
      LoadReturnsFresh(states[n], steps[n], id);
    }
  }

  lemma ValueIsServed(states: seq<Sys>, steps: seq<Step>, n: nat, id: nat)
    requires Run(states, steps) && n <= |steps| && id in states[n].procs && states[n].procs[id].value.requestedAt > 0
    ensures Served(states, steps, n, states[n].procs[id].key, states[n].procs[id].value)
  {
    RunIsTraced(states, steps, n);
    assert ProcTraced(states, steps, n, id, states[n].procs[id]);
  }

  lemma ReturnedAfter(states: seq<Sys>, steps: seq<Step>, n: nat, id: nat, i: nat)
    requires Run(states, steps) && n < |steps| && ReturnsAt(states, steps, n, id) && !states[n].procs[id].kind.Critical?
    requires i <= n && Replaces(states[i], steps[i], states[n].procs[id].key)
    ensures i + 1 < states[n].procs[id].value.requestedAt
  {
    ReturnIsFresh(states, steps, n, id);
    LastReplacement(states, steps, n, states[n].procs[id].key, i);
  }

  /**
   Freshness of loads, over every interleaving: the value a load returns is the reply to a request for
   its key that was started after every retirement and every detach of the key up to its last check.
   */
  lemma LoadsAreFresh(states: seq<Sys>, steps: seq<Step>, n: nat, id: nat)
    requires Run(states, steps) && n < |steps| && ReturnsAt(states, steps, n, id)
    requires !states[n].procs[id].kind.Critical?
    ensures var p := states[n + 1].procs[id];
      && Served(states, steps, n, p.key, p.value)
      && forall i | 0 <= i <= n && Replaces(states[i], steps[i], p.key) :: i + 1 < p.value.requestedAt
  {
    ReturnIsFresh(states, steps, n, id);
    ValueIsServed(states, steps, n, id);
    var key := states[n].procs[id].key;
    forall i | 0 <= i <= n && Replaces(states[i], steps[i], key) ensures i + 1 < states[n].procs[id].value.requestedAt {
      ReturnedAfter(states, steps, n, id, i);
    }
  }

  /** Freshness of critical refreshes: the value was requested after every retirement of the key up to the return. */
  lemma RefreshesAreFresh(states: seq<Sys>, steps: seq<Step>, n: nat, id: nat)
    requires Run(states, steps) && n < |steps| && ReturnsAt(states, steps, n, id)
    requires states[n].procs[id].kind.Critical?
    ensures var p := states[n + 1].procs[id];
      && Served(states, steps, n, p.key, p.value)
      && forall i | 0 <= i <= n && Retires(steps[i], p.key) :: i + 1 < p.value.requestedAt
  {
    ReturnIsFresh(states, steps, n, id);
    ValueIsServed(states, steps, n, id);
    var key := states[n].procs[id].key;
    forall i | 0 <= i <= n && Retires(steps[i], key) ensures i + 1 < states[n].procs[id].value.requestedAt {
      assert Replaces(states[i], steps[i], key);
      LastReplacement(states, steps, n, key, i);
    }
  }

  /**
   Nothing old reaches a new entry: in every reachable state the snapshot and the cooling failure that
   the current entry of a key holds stem from requests started after every replacement of that key.
   */
  lemma EntriesHoldNothingOld(states: seq<Sys>, steps: seq<Step>, n: nat, key: int, i: nat)
    requires Run(states, steps) && i < n <= |steps| && Replaces(states[i], steps[i], key)
    ensures key in states[n].entries && states[n].entries[key].eid in states[n].objects
    ensures var o := states[n].objects[states[n].entries[key].eid];
      && (o.snapshot.Some? ==> i + 1 < o.snapshot.value.requestedAt)
      && (o.failed.Some? ==> i + 1 < o.failed.value)
  {
    RunKeeps(states, steps, n);
    LastReplacement(states, steps, n, key, i);
    var slot := states[n].entries[key];
    assert SlotOk(states[n], key, slot);
    assert ObjOk(states[n], slot.eid, states[n].objects[slot.eid]);
  }

  /** After a failed request an entry serves nothing, not even what it served before, until a request succeeds. */
  lemma FailuresServeNothing(states: seq<Sys>, steps: seq<Step>, n: nat, eid: nat)
    requires Run(states, steps) && n <= |steps| && eid in states[n].objects
    ensures var o := states[n].objects[eid]; o.failed.Some? ==> o.snapshot.None?
  {
    RunKeeps(states, steps, n);
    assert ObjOk(states[n], eid, states[n].objects[eid]);
  }

  /** A detached loader's result, late value or failure, leaves the entry that replaced its own as it was. */
  lemma LateResultsStayLocal(s: Sys, step: Step, key: int)
    requires Inv(s) && Enabled(s, step) && (step.Store? || step.CheckFetched?)
    requires !Matches(s, s.procs[step.id]) && key in s.entries
    ensures var t := Apply(s, step);
      && t.entries == s.entries
      && t.objects[t.entries[key].eid].snapshot == s.objects[s.entries[key].eid].snapshot
      && t.objects[t.entries[key].eid].failed == s.objects[s.entries[key].eid].failed
  {
    assert ProcOk(s, step.id, s.procs[step.id]);
    assert SlotOk(s, key, s.entries[key]);
  }

  /** Loaders of one entry never fetch at the same time. */
  lemma OneLoaderPerEntry(s: Sys, a: nat, b: nat)
    requires Inv(s) && a in s.procs && b in s.procs
    requires !s.procs[a].kind.Critical? && !s.procs[b].kind.Critical?
    requires Holding(s.procs[a].pc) && Holding(s.procs[b].pc) && s.procs[a].eid == s.procs[b].eid
    ensures a == b
  {
    assert ProcOk(s, a, s.procs[a]) && ProcOk(s, b, s.procs[b]);
  }

  // ---------------------------------------------------------------- progress

  /** The step is one of caller `id`. */
  predicate Acts(step: Step, id: nat) {
    !step.Retire? && step.id == id
  }

  /** What another party's step leaves alone: the caller, and what the entry it holds locked contains. */
  ghost predicate Undisturbed(s: Sys, t: Sys, id: nat) {
    && id in s.procs && id in t.procs && t.procs[id] == s.procs[id]
    && (!s.procs[id].kind.Critical? && Holding(s.procs[id].pc) ==>
          && s.procs[id].eid in s.objects && s.procs[id].eid in t.objects
          && t.objects[s.procs[id].eid].snapshot == s.objects[s.procs[id].eid].snapshot
          && t.objects[s.procs[id].eid].failed == s.objects[s.procs[id].eid].failed)
  }

  lemma LocalDisturbsNothing(s: Sys, t: Sys, actor: nat, id: nat)
    requires Inv(s) && LocalStep(s, t, actor) && id in s.procs && actor != id
    ensures Undisturbed(s, t, id)
  {
    assert ProcOk(s, id, s.procs[id]);
  }

  lemma OthersDisturbNothing(s: Sys, step: Step, id: nat)
    requires Inv(s) && Enabled(s, step) && id in s.procs && !Acts(step, id)
    ensures Undisturbed(s, Apply(s, step), id)
  {
    if OfLoad(step) {
      InvGivesOwnPart(s, step.id);
      LoadStepOwn(s, step);
      LocalDisturbsNothing(s, Apply(s, step), step.id, id);
    } else if step.Cancel? && !s.procs[step.id].pc.Start? {
      InvGivesOwnPart(s, step.id);
      EndOwn(s, step.id, Cancelled);
      LocalDisturbsNothing(s, Apply(s, step), step.id, id);
    } else {
      MapsDisturbNothing(s, step, id);
    }
  }

  lemma MapsDisturbNothing(s: Sys, step: Step, id: nat)
    requires Inv(s) && Enabled(s, step) && !OfLoad(step) && id in s.procs && !Acts(step, id)
    requires step.Cancel? ==> s.procs[step.id].pc.Start?
    ensures Undisturbed(s, Apply(s, step), id)
  {
    assert ProcOk(s, id, s.procs[id]);
    assert s.nextId in s.objects ==> ObjOk(s, s.nextId, s.objects[s.nextId]);
  }

  /** Caller `id` takes no step from state `m` to state `n` of the run. */
  ghost predicate Idles(states: seq<Sys>, steps: seq<Step>, m: nat, n: nat, id: nat)
    requires Run(states, steps) && n <= |steps|
  {
    m <= n && id in states[m].procs && forall k | m <= k < n :: !Acts(steps[k], id)
  }

  lemma {:induction false} IdleIsUndisturbed(states: seq<Sys>, steps: seq<Step>, m: nat, n: nat, id: nat)
    requires Run(states, steps) && n <= |steps| && Idles(states, steps, m, n, id)
    ensures Undisturbed(states[m], states[n], id)
  {
    if m < n {
      IdleIsUndisturbed(states, steps, m, n - 1, id);
      RunKeeps(states, steps, n - 1);
      assert Leads(states[n - 1], steps[n - 1], states[n]);
      OthersDisturbNothing(states[n - 1], steps[n - 1], id);
    } else {
      RunKeeps(states, steps, m);
      assert ProcOk(states[m], id, states[m].procs[id]);
    }
  }

  lemma ReplyAdvances(s: Sys, id: nat, value: int)
    requires Inv(s) && Enabled(s, Reply(id, true, value)) && s.procs[id].pc.Fetching?
    ensures Apply(s, Reply(id, true, value)).procs[id] ==
      s.procs[id].(pc := Fetched(true), value := Snapshot(value, s.procs[id].startedAt))
  {
  }

  lemma CheckAdvances(s: Sys, id: nat, ok: bool)
    requires Inv(s) && Enabled(s, CheckFetched(id)) && s.procs[id].pc == Fetched(ok) && Matches(s, s.procs[id])
    ensures Apply(s, CheckFetched(id)).procs[id] == s.procs[id].(pc := Storing(ok))
  {
  }

  /** A successful request becomes the entry's snapshot; a failed one leaves it without, and cooling down from its start. */
  lemma StoreAdvances(s: Sys, id: nat, ok: bool)
    requires Inv(s) && Enabled(s, Store(id)) && s.procs[id].pc == Storing(ok)
    ensures var t, p := Apply(s, Store(id)), s.procs[id];
      && p.eid in t.objects
      && var o := t.objects[p.eid];
         if ok then t.procs[id] == p.(pc := Projecting) && o.snapshot == Some(p.value) && o.failed.None?
         else t.procs[id] == p.(pc := Erred) && o.snapshot.None? && o.failed == Some(p.startedAt)
  {
    assert ProcOk(s, id, s.procs[id]);
  }

  lemma ProjectAdvances(s: Sys, id: nat)
    requires Inv(s) && Enabled(s, Project(id))
    ensures var t, p := Apply(s, Project(id)), s.procs[id];
      p.eid in s.objects && s.objects[p.eid].snapshot.Some?
      && t.procs[id] == p.(pc := Checking, value := s.objects[p.eid].snapshot.value)
  {
    assert ProcOk(s, id, s.procs[id]);
  }

  lemma FinalAdvances(s: Sys, id: nat)
    requires Inv(s) && Enabled(s, CheckFinal(id, false)) && Matches(s, s.procs[id])
    ensures Apply(s, CheckFinal(id, false)).procs[id] == s.procs[id].(pc := Returned)
  {
  }

  /** A snapshot that is fresh enough is projected without any request. */
  lemma FreshIsProjected(s: Sys, id: nat)
    requires Inv(s) && Enabled(s, Inspect(id, false, true))
    ensures var t, p := Apply(s, Inspect(id, false, true)), s.procs[id];
      && t.procs[id] == p.(pc := Projecting) && p.eid in t.objects
      && t.objects[p.eid].snapshot == s.objects[p.eid].snapshot && s.objects[p.eid].snapshot.Some?
  {
  }

  /**
   A value that has been fetched is returned: if a load's request succeeds with a value and its entry is current at
   its two checks, then the load stores that value and returns it, whatever other callers do in between.
   */
  lemma FetchedIsReturned(states: seq<Sys>, steps: seq<Step>, n: seq<nat>, id: nat, value: int)
    requires Run(states, steps) && |n| == 5 && n[0] < n[1] < n[2] < n[3] < n[4] < |steps|
    requires steps[n[0]] == Reply(id, true, value) && steps[n[1]] == CheckFetched(id) && steps[n[2]] == Store(id)
    requires steps[n[3]] == Project(id) && steps[n[4]] == CheckFinal(id, false)
    requires id in states[n[0]].procs && states[n[0]].procs[id].pc.Fetching? && !states[n[0]].procs[id].kind.Critical?
    requires forall k | n[0] < k < n[4] && k !in n :: !Acts(steps[k], id)
    requires id in states[n[1]].procs && Matches(states[n[1]], states[n[1]].procs[id])
    requires id in states[n[4]].procs && Matches(states[n[4]], states[n[4]].procs[id])
    ensures id in states[n[4] + 1].procs
    ensures var p := states[n[4] + 1].procs[id];
      p.pc.Returned? && p.value == Snapshot(value, states[n[0]].procs[id].startedAt)
  {
    FetchedIsStored(states, steps, n[0], n[1], n[2], id, value) by {
      assert forall k | n[0] < k < n[2] && k != n[1] :: k !in n;
    }
    StoredIsReturned(states, steps, n[2], n[3], n[4], id, states[n[2]].procs[id].value) by {
      assert forall k | n[2] < k < n[4] && k != n[3] :: k !in n;
    }
  }

  lemma FetchedIsStored(states: seq<Sys>, steps: seq<Step>, a: nat, b: nat, c: nat, id: nat, value: int)
    requires Run(states, steps) && a < b < c < |steps|
    requires steps[a] == Reply(id, true, value) && steps[b] == CheckFetched(id) && steps[c] == Store(id)
    requires id in states[a].procs && states[a].procs[id].pc.Fetching? && !states[a].procs[id].kind.Critical?
    requires forall k | a < k < c && k != b :: !Acts(steps[k], id)
    requires id in states[b].procs && Matches(states[b], states[b].procs[id])
    ensures id in states[c].procs && states[c].procs[id].value == Snapshot(value, states[a].procs[id].startedAt)
    ensures states[c].procs[id].pc == Storing(true) && !states[c].procs[id].kind.Critical?
  {
    RunKeeps(states, steps, a);
    assert Leads(states[a], steps[a], states[a + 1]);
    ReplyAdvances(states[a], id, value);
    IdleIsUndisturbed(states, steps, a + 1, b, id);
    RunKeeps(states, steps, b);
    assert Leads(states[b], steps[b], states[b + 1]);
    CheckAdvances(states[b], id, true);
    IdleIsUndisturbed(states, steps, b + 1, c, id);
  }

  lemma StoredIsReturned(states: seq<Sys>, steps: seq<Step>, c: nat, d: nat, e: nat, id: nat, value: Snapshot)
    requires Run(states, steps) && c < d < e < |steps|
    requires steps[c] == Store(id) && steps[d] == Project(id) && steps[e] == CheckFinal(id, false)
    requires id in states[c].procs && states[c].procs[id].pc == Storing(true) && states[c].procs[id].value == value
    requires forall k | c < k < e && k != d :: !Acts(steps[k], id)
    requires id in states[e].procs && Matches(states[e], states[e].procs[id])
    ensures id in states[e + 1].procs && states[e + 1].procs[id].pc.Returned? && states[e + 1].procs[id].value == value
  {
    RunKeeps(states, steps, c);
    assert Leads(states[c], steps[c], states[c + 1]);
    StoreAdvances(states[c], id, true);
    IdleIsUndisturbed(states, steps, c + 1, d, id);
    RunKeeps(states, steps, d);
    assert Leads(states[d], steps[d], states[d + 1]);
    ProjectAdvances(states[d], id);
    IdleIsUndisturbed(states, steps, d + 1, e, id);
    RunKeeps(states, steps, e);
    assert Leads(states[e], steps[e], states[e + 1]);
    FinalAdvances(states[e], id);
  }

  /** A critical refresh returns what it has fetched unless its key was retired since it began. */
  lemma RefreshedIsReturned(states: seq<Sys>, steps: seq<Step>, a: nat, b: nat, id: nat, value: int)
    requires Run(states, steps) && a < b < |steps|
    requires steps[a] == Reply(id, true, value) && steps[b] == DetachIfCurrent(id)
    requires id in states[a].procs && states[a].procs[id].pc.Fetching? && states[a].procs[id].kind.Critical?
    requires forall k | a < k < b :: !Acts(steps[k], id)
    requires id in states[b].procs && EpochOf(states[b], states[b].procs[id].key) == states[b].procs[id].epoch
    ensures id in states[b + 1].procs && states[b + 1].procs[id].pc.Returned?
    ensures states[b + 1].procs[id].value == Snapshot(value, states[a].procs[id].startedAt)
  {
    RunKeeps(states, steps, a);
    assert Leads(states[a], steps[a], states[a + 1]);
    ReplyAdvances(states[a], id, value);
    IdleIsUndisturbed(states, steps, a + 1, b, id);
    assert Leads(states[b], steps[b], states[b + 1]);
  }

  /** Every way in which a caller can fail. */
  ghost predicate FailsBy(s: Sys, step: Step, id: nat)
    requires id in s.procs
  {
    || step == TimeOut(id)
    || (step.Inspect? && step.id == id && step.cooling)
    || (step == Store(id) && s.procs[id].pc == Storing(false))
    || (step == CheckFallback(id) && s.procs[id].pc == FallbackFetched(false) && Matches(s, s.procs[id]))
    || (step == DetachIfCurrent(id) && s.procs[id].pc == Fetched(false))
  }

  lemma OnlyTheseLoadsFail(s: Sys, step: Step, id: nat)
    requires OfLoad(step) && Enabled(s, step) && id in s.procs && !s.procs[id].pc.Erred?
    ensures id in Apply(s, step).procs && (Apply(s, step).procs[id].pc.Erred? <==> FailsBy(s, step, id))
  {
  }

  lemma OnlyTheseOthersFail(s: Sys, step: Step, id: nat)
    requires !OfLoad(step) && Enabled(s, step) && id in s.procs && !s.procs[id].pc.Erred?
    ensures id in Apply(s, step).procs && (Apply(s, step).procs[id].pc.Erred? <==> FailsBy(s, step, id))
  {
  }

  /** A caller fails exactly by a lock time-out, a cooling failure, a failed request of its own or a failed fallback of its own. */
  lemma OnlyTheseFail(s: Sys, step: Step, id: nat)
    requires Enabled(s, step) && id in s.procs && !s.procs[id].pc.Erred?
    ensures id in Apply(s, step).procs && (Apply(s, step).procs[id].pc.Erred? <==> FailsBy(s, step, id))
  {
    if OfLoad(step) {
      OnlyTheseLoadsFail(s, step, id);
    } else {
      OnlyTheseOthersFail(s, step, id);
    }
  }

  /** How the last request of caller `id` within the first `n` steps was answered. */
  function LastAnswer(steps: seq<Step>, n: nat, id: nat): Option<bool>
    requires n <= |steps|
  {
    if n == 0 then None
    else if steps[n - 1].Reply? && steps[n - 1].id == id then Some(steps[n - 1].ok)
    else LastAnswer(steps, n - 1, id)
  }

  predicate Answered(pc: Pc) {
    pc.Fetched? || pc.Storing? || pc.FallbackFetched?
  }

  lemma LoadAnswerKept(s: Sys, step: Step, id: nat)
    requires OfLoad(step) && Enabled(s, step) && id in Apply(s, step).procs && Answered(Apply(s, step).procs[id].pc)
    ensures id in s.procs
    ensures var pc := Apply(s, step).procs[id].pc;
      if step.Reply? && step.id == id then pc.ok == step.ok else Answered(s.procs[id].pc) && s.procs[id].pc.ok == pc.ok
  {
  }

  lemma OtherAnswerKept(s: Sys, step: Step, id: nat)
    requires !OfLoad(step) && Enabled(s, step) && id in Apply(s, step).procs && Answered(Apply(s, step).procs[id].pc)
    ensures id in s.procs && s.procs[id].pc == Apply(s, step).procs[id].pc
  {
  }

  /** What a caller believes of its request is what it was last answered. */
  lemma {:induction false} AnswersAreBelieved(states: seq<Sys>, steps: seq<Step>, n: nat, id: nat)
    requires Run(states, steps) && n <= |steps| && id in states[n].procs && Answered(states[n].procs[id].pc)
    ensures LastAnswer(steps, n, id) == Some(states[n].procs[id].pc.ok)
  {
    if n > 0 {
      assert Leads(states[n - 1], steps[n - 1], states[n]);
      if OfLoad(steps[n - 1]) {
        LoadAnswerKept(states[n - 1], steps[n - 1], id);
      } else {
        OtherAnswerKept(states[n - 1], steps[n - 1], id);
      }
      if !(steps[n - 1].Reply? && steps[n - 1].id == id) {
        AnswersAreBelieved(states, steps, n - 1, id);
      }
    }
  }

  /**
   In every run a caller fails only by a lock time-out, by a failure that is cooling down, or because its last
   request really failed.
   */
  lemma FailuresAreReal(states: seq<Sys>, steps: seq<Step>, n: nat, id: nat)
    requires Run(states, steps) && n < |steps| && id in states[n].procs && id in states[n + 1].procs
    requires !states[n].procs[id].pc.Erred? && states[n + 1].procs[id].pc.Erred?
    ensures steps[n] == TimeOut(id) || (steps[n].Inspect? && steps[n].id == id && steps[n].cooling) || LastAnswer(steps, n, id) == Some(false)
  {
    assert Leads(states[n], steps[n], states[n + 1]);
    OnlyTheseFail(states[n], steps[n], id);
    if Answered(states[n].procs[id].pc) {
      AnswersAreBelieved(states, steps, n, id);
    }
  }

  /** Every way in which a caller can return its value. */
  ghost predicate ReturnsBy(s: Sys, step: Step, id: nat)
    requires id in s.procs
  {
    || (step == CheckFinal(id, false) && Matches(s, s.procs[id]))
    || (step == CheckFallback(id) && s.procs[id].pc == FallbackFetched(true) && Matches(s, s.procs[id]))
    || (step == DetachIfCurrent(id) && s.procs[id].pc == Fetched(true) && EpochOf(s, s.procs[id].key) == s.procs[id].epoch)
  }

  /**
   A caller returns exactly when its last check finds its entry current, or its key not retired. In particular a
   load that is missing its symbol never returns the shared snapshot.
   */
  lemma OnlyTheseReturn(s: Sys, step: Step, id: nat)
    requires Enabled(s, step) && id in s.procs && !s.procs[id].pc.Returned?
    ensures id in Apply(s, step).procs && (Apply(s, step).procs[id].pc.Returned? <==> ReturnsBy(s, step, id))
  {
    if OfLoad(step) {
      OnlyTheseLoadsReturn(s, step, id);
    }
  }

  lemma OnlyTheseLoadsReturn(s: Sys, step: Step, id: nat)
    requires OfLoad(step) && Enabled(s, step) && id in s.procs && !s.procs[id].pc.Returned?
    ensures id in Apply(s, step).procs && (Apply(s, step).procs[id].pc.Returned? <==> ReturnsBy(s, step, id))
  {
  }

  lemma MissingAdvances(s: Sys, id: nat)
    requires Inv(s) && Enabled(s, CheckFinal(id, true)) && Matches(s, s.procs[id])
    ensures Apply(s, CheckFinal(id, true)).procs[id] == s.procs[id].(pc := FallingBack)
  {
  }

  lemma FallbackAnswered(s: Sys, id: nat, ok: bool, value: int)
    requires Inv(s) && Enabled(s, Reply(id, ok, value)) && s.procs[id].pc.FallbackFetching?
    ensures Apply(s, Reply(id, ok, value)).procs[id] ==
      s.procs[id].(pc := FallbackFetched(ok), value := if ok then Snapshot(value, s.procs[id].startedAt) else s.procs[id].value)
  {
  }

  /**
   A load whose symbol is missing from the shared snapshot asks for the symbol itself, and while its entry is current
   it ends with the answer to that request: the value it was given, or the failure.
   */
  lemma FallbackIsReturned(states: seq<Sys>, steps: seq<Step>, n: seq<nat>, id: nat, ok: bool, value: int)
    requires Run(states, steps) && |n| == 4 && n[0] < n[1] < n[2] < n[3] < |steps|
    requires steps[n[0]] == CheckFinal(id, true) && steps[n[1]] == FallBack(id)
    requires steps[n[2]] == Reply(id, ok, value) && steps[n[3]] == CheckFallback(id)
    requires id in states[n[0]].procs && Matches(states[n[0]], states[n[0]].procs[id])
    requires forall k | n[0] < k < n[3] && k !in n :: !Acts(steps[k], id)
    requires id in states[n[3]].procs && Matches(states[n[3]], states[n[3]].procs[id])
    ensures id in states[n[3] + 1].procs
    ensures var p := states[n[3] + 1].procs[id];
      if ok then p.pc.Returned? && p.value == Snapshot(value, states[n[1]].tick) else p.pc.Erred?
  {
    MissingFallsBack(states, steps, n[0], n[1], id) by {
      assert forall k | n[0] < k < n[1] :: k !in n;
    }
    FallbackAsked(states, steps, n[1], n[2], id) by {
      assert forall k | n[1] < k < n[2] :: k !in n;
    }
    FallbackReplied(states, steps, n[2], n[3], id, ok, value) by {
      assert forall k | n[2] < k < n[3] :: k !in n;
    }
    FallbackEnds(states, steps, n[3], id);
  }

  lemma MissingFallsBack(states: seq<Sys>, steps: seq<Step>, a: nat, b: nat, id: nat)
    requires Run(states, steps) && a < b < |steps| && steps[a] == CheckFinal(id, true)
    requires id in states[a].procs && Matches(states[a], states[a].procs[id])
    requires forall k | a < k < b :: !Acts(steps[k], id)
    ensures id in states[b].procs && states[b].procs[id].pc.FallingBack?
  {
    RunKeeps(states, steps, a);
    assert Leads(states[a], steps[a], states[a + 1]);
    MissingAdvances(states[a], id);
    IdleIsUndisturbed(states, steps, a + 1, b, id);
  }

  lemma FallbackReplied(states: seq<Sys>, steps: seq<Step>, c: nat, d: nat, id: nat, ok: bool, value: int)
    requires Run(states, steps) && c < d < |steps| && steps[c] == Reply(id, ok, value)
    requires id in states[c].procs && states[c].procs[id].pc.FallbackFetching?
    requires forall k | c < k < d :: !Acts(steps[k], id)
    ensures id in states[d].procs && states[d].procs[id].pc == FallbackFetched(ok)
    ensures ok ==> states[d].procs[id].value == Snapshot(value, states[c].procs[id].startedAt)
  {
    RunKeeps(states, steps, c);
    assert Leads(states[c], steps[c], states[c + 1]);
    FallbackAnswered(states[c], id, ok, value);
    IdleIsUndisturbed(states, steps, c + 1, d, id);
  }

  lemma FallbackAsked(states: seq<Sys>, steps: seq<Step>, a: nat, b: nat, id: nat)
    requires Run(states, steps) && a < b < |steps| && steps[a] == FallBack(id) && id in states[a].procs
    requires forall k | a < k < b :: !Acts(steps[k], id)
    ensures id in states[b].procs
    ensures states[b].procs[id] == states[a].procs[id].(pc := FallbackFetching, startedAt := states[a].tick)
  {
    assert Leads(states[a], steps[a], states[a + 1]);
    IdleIsUndisturbed(states, steps, a + 1, b, id);
  }

  lemma FallbackEnds(states: seq<Sys>, steps: seq<Step>, n: nat, id: nat)
    requires Run(states, steps) && n < |steps| && steps[n] == CheckFallback(id)
    requires id in states[n].procs && Matches(states[n], states[n].procs[id])
    ensures id in states[n + 1].procs && states[n].procs[id].pc.FallbackFetched?
    ensures states[n + 1].procs[id].value == states[n].procs[id].value
    ensures if states[n].procs[id].pc.ok then states[n + 1].procs[id].pc.Returned? else states[n + 1].procs[id].pc.Erred?
  {
    assert Leads(states[n], steps[n], states[n + 1]);
  }

  /** The last of the first `n` steps that caller `id` took itself. */
  function LastOwn(steps: seq<Step>, n: nat, id: nat): (m: Option<nat>)
    requires n <= |steps|
    ensures m.Some? ==> m.value < n
  {
    if n == 0 then None
    else if Acts(steps[n - 1], id) then Some(n - 1)
    else LastOwn(steps, n - 1, id)
  }

  /** In its last step the caller checked its entry and found it current. */
  ghost predicate FoundCurrent(states: seq<Sys>, steps: seq<Step>, n: nat, id: nat)
    requires Run(states, steps) && n <= |steps|
  {
    match LastOwn(steps, n, id)
    case None => false
    case Some(m) =>
      && (steps[m] == CheckLocked(id) || steps[m] == CheckFetched(id))
      && id in states[m].procs && Matches(states[m], states[m].procs[id])
  }

  lemma LoadChecksHold(s: Sys, step: Step, id: nat)
    requires OfLoad(step)
    requires Enabled(s, step) && id in Apply(s, step).procs && !Apply(s, step).procs[id].kind.Critical?
    requires Apply(s, step).procs[id].pc.Held? || Apply(s, step).procs[id].pc.Storing?
    ensures id in s.procs
    ensures if Acts(step, id) then (step == CheckLocked(id) || step == CheckFetched(id)) && Matches(s, s.procs[id])
            else s.procs[id] == Apply(s, step).procs[id]
  {
  }

  lemma OtherChecksHold(s: Sys, step: Step, id: nat)
    requires !OfLoad(step)
    requires Enabled(s, step) && id in Apply(s, step).procs && !Apply(s, step).procs[id].kind.Critical?
    requires Apply(s, step).procs[id].pc.Held? || Apply(s, step).procs[id].pc.Storing?
    ensures id in s.procs
    ensures if Acts(step, id) then (step == CheckLocked(id) || step == CheckFetched(id)) && Matches(s, s.procs[id])
            else s.procs[id] == Apply(s, step).procs[id]
  {
  }

  lemma ChecksHold(s: Sys, step: Step, id: nat)
    requires Enabled(s, step) && id in Apply(s, step).procs && !Apply(s, step).procs[id].kind.Critical?
    requires Apply(s, step).procs[id].pc.Held? || Apply(s, step).procs[id].pc.Storing?
    ensures id in s.procs
    ensures if Acts(step, id) then (step == CheckLocked(id) || step == CheckFetched(id)) && Matches(s, s.procs[id])
            else s.procs[id] == Apply(s, step).procs[id]
  {
    if OfLoad(step) {
      LoadChecksHold(s, step, id);
    } else {
      OtherChecksHold(s, step, id);
    }
  }

  /**
   Whatever a load does to its entry it does right after it has found that entry current: it serves a failure that is
   cooling down, keeps or drops the snapshot and starts a request only after a check under the lock, and stores a
   reply, or fails for one, only after another check.
   */
  lemma {:induction false} ActsOnCurrentEntry(states: seq<Sys>, steps: seq<Step>, n: nat, id: nat)
    requires Run(states, steps) && n <= |steps| && id in states[n].procs && !states[n].procs[id].kind.Critical?
    requires states[n].procs[id].pc.Held? || states[n].procs[id].pc.Storing?
    ensures FoundCurrent(states, steps, n, id)
  {
    if n > 0 {
      assert Leads(states[n - 1], steps[n - 1], states[n]);
      ChecksHold(states[n - 1], steps[n - 1], id);
      if !Acts(steps[n - 1], id) {
        ActsOnCurrentEntry(states, steps, n - 1, id);
      }
    }
  }

  /** How far a caller is from its end, if nothing makes it start again. */
  function Distance(pc: Pc): nat {
    match pc
    case Start => 12
    case Waiting => 11
    case Locked => 10
    case Held => 9
    case Fetching => 8
    case Fetched(_) => 7
    case Storing(_) => 6
    case Projecting => 5
    case Checking => 4
    case FallingBack => 3
    case FallbackFetching => 2
    case FallbackFetched(_) => 1
    case _ => 0
  }

  lemma OwnLoadStepProgresses(s: Sys, step: Step)
    requires OfLoad(step) && !step.Project? && Enabled(s, step)
    ensures var p, q := s.procs[step.id], Apply(s, step).procs[step.id];
      || (Distance(q.pc) < Distance(p.pc) && q.retries == p.retries)
      || (q == Retry(p) && !Matches(s, p))
  {
  }

  lemma OwnOtherStepProgresses(s: Sys, step: Step)
    requires !OfLoad(step) && Enabled(s, step) && !step.Retire? && !step.Call?
    ensures var p, q := s.procs[step.id], Apply(s, step).procs[step.id];
      || (Distance(q.pc) < Distance(p.pc) && q.retries == p.retries)
      || (q == Retry(p) && step.DetachIfCurrent? && EpochOf(s, p.key) != p.epoch)
  {
  }

  /** Every step of a caller brings it nearer to its end, unless its entry was replaced or its key retired and it starts again. */
  lemma OwnStepsProgress(s: Sys, step: Step)
    requires Inv(s) && Enabled(s, step) && !step.Retire? && !step.Call?
    ensures var p, q := s.procs[step.id], Apply(s, step).procs[step.id];
      || (Distance(q.pc) < Distance(p.pc) && q.retries == p.retries)
      || (q.pc.Start? && q.retries == p.retries + 1 && if p.kind.Critical? then EpochOf(s, p.key) != p.epoch else !Matches(s, p))
  {
    if step.Project? {
      ProjectAdvances(s, step.id);
    } else if OfLoad(step) {
      OwnLoadStepProgresses(s, step);
    } else {
      OwnOtherStepProgresses(s, step);
    }
  }

  /** Nobody is stuck: a caller that has not ended has a step to take, or waits for a lock whose holder has one. */
  lemma NobodyIsStuck(s: Sys, id: nat) returns (step: Step)
    requires Inv(s) && id in s.procs && !Ended(s.procs[id].pc)
    ensures Enabled(s, step) && !step.Cancel? && !step.TimeOut? && !step.Retire? && !step.Call?
    ensures step.id == id || (s.procs[id].pc.Waiting? && s.objects[s.procs[id].eid].lockedBy == Some(step.id))
  {
    assert ProcOk(s, id, s.procs[id]);
    var p := s.procs[id];
    if p.pc.Waiting? && s.objects[p.eid].lockedBy.Some? {
      assert ObjOk(s, p.eid, s.objects[p.eid]);
      var holder := s.objects[p.eid].lockedBy.value;
      assert ProcOk(s, holder, s.procs[holder]);
      step := NextStep(holder, s.procs[holder]);
    } else {
      step := NextStep(id, p);
    }
  }

  function NextStep(id: nat, p: Proc): Step {
    match p.pc
    case Start => if p.kind.Critical? then Detach(id) else Enter(id)
    case Waiting => Lock(id)
    case Locked => CheckLocked(id)
    case Held => Inspect(id, false, false)
    case Fetching => Reply(id, true, 0)
    case Fetched(_) => if p.kind.Critical? then DetachIfCurrent(id) else CheckFetched(id)
    case Storing(_) => Store(id)
    case Projecting => Project(id)
    case Checking => CheckFinal(id, false)
    case FallingBack => FallBack(id)
    case FallbackFetching => Reply(id, true, 0)
    case _ => CheckFallback(id)
  }

  // ---------------------------------------------------------------- retry bounds

  /** How many of the first `n` steps replaced (or, for a critical refresh, retired) the entry of `key`. */
  ghost function Disturbances(states: seq<Sys>, steps: seq<Step>, n: nat, key: int, critical: bool): nat
    requires Run(states, steps) && n <= |steps|
  {
    if n == 0 then 0
    else
      Disturbances(states, steps, n - 1, key, critical)
      + (if critical then (if Retires(steps[n - 1], key) then 1 else 0)
         else if Replaces(states[n - 1], steps[n - 1], key) then 1 else 0)
  }

  lemma {:induction false} DisturbancesAreCounted(states: seq<Sys>, steps: seq<Step>, n: nat, key: int)
    requires Run(states, steps) && n <= |steps|
    ensures ReplacementsOf(states[n], key) == Disturbances(states, steps, n, key, false)
    ensures EpochOf(states[n], key) == Disturbances(states, steps, n, key, true)
  {
    if n > 0 {
      DisturbancesAreCounted(states, steps, n - 1, key);
      RunHasHistory(states, steps, n - 1, key);
    }
  }

  /** What a caller was called with does not change. */
  lemma {:induction false} CallIsKept(states: seq<Sys>, steps: seq<Step>, c: nat, n: nat)
    requires Run(states, steps) && c < n <= |steps| && steps[c].Call?
    ensures var id := steps[c].id;
      && id in states[n].procs
      && states[n].procs[id].kind == steps[c].kind && states[n].procs[id].key == steps[c].key
      && states[n].procs[id].base ==
           (if steps[c].kind.Critical? then EpochOf(states[c], steps[c].key) else ReplacementsOf(states[c], steps[c].key))
  {
    if c < n - 1 {
      CallIsKept(states, steps, c, n - 1);
      assert Leads(states[n - 1], steps[n - 1], states[n]);
      ProcsFlow(states[n - 1], steps[n - 1], steps[c].id);
    } else {
      assert Leads(states[n - 1], steps[n - 1], states[n]);
    }
  }

  /**
   A caller retries no more often than its key has been disturbed since its call: a load by any
   replacement, a critical refresh by retirements alone. It makes at most one more request than that.
   */
  lemma RetriesAreBounded(states: seq<Sys>, steps: seq<Step>, c: nat, n: nat)
    requires Run(states, steps) && c < n <= |steps| && steps[c].Call?
    ensures var id, key, critical := steps[c].id, steps[c].key, steps[c].kind.Critical?;
      && id in states[n].procs
      && states[n].procs[id].retries <=
           Disturbances(states, steps, n, key, critical) - Disturbances(states, steps, c, key, critical)
      && states[n].procs[id].fetches <= states[n].procs[id].retries + 1
  {
    CallIsKept(states, steps, c, n);
    RunKeeps(states, steps, n);
    DisturbancesAreCounted(states, steps, c, steps[c].key);
    DisturbancesAreCounted(states, steps, n, steps[c].key);
    assert ProcOk(states[n], steps[c].id, states[n].procs[steps[c].id]);
  }

  /** How many of the steps from number `c` to number `n` are caller `id`'s own. */
  function OwnSteps(steps: seq<Step>, c: nat, n: nat, id: nat): nat
    requires c <= n <= |steps|
  {
    if c == n then 0 else OwnSteps(steps, c, n - 1, id) + (if Acts(steps[n - 1], id) then 1 else 0)
  }

  lemma PotentialStep(own: nat, before: nat, after: nat, retries: nat, retried: bool)
    requires own + before <= 12 * (1 + retries) && after <= 12 && (if retried then before >= 1 else after < before)
    ensures own + 1 + after <= 12 * (1 + retries + (if retried then 1 else 0))
  {
  }

  ghost predicate Spent(s: Sys, id: nat, own: nat) {
    id in s.procs && own + Distance(s.procs[id].pc) <= 12 * (1 + s.procs[id].retries)
  }

  lemma StepIsSpent(s: Sys, step: Step, id: nat, own: nat)
    requires Inv(s) && Enabled(s, step) && Spent(s, id, own)
    ensures Spent(Apply(s, step), id, if Acts(step, id) then own + 1 else own)
  {
    if Acts(step, id) {
      OwnStepsProgress(s, step);
      var p, q := s.procs[id], Apply(s, step).procs[id];
      PotentialStep(own, Distance(p.pc), Distance(q.pc), p.retries, q.retries != p.retries);
    } else {
      OthersDisturbNothing(s, step, id);
    }
  }

  lemma CallIsSpent(states: seq<Sys>, steps: seq<Step>, c: nat)
    requires Run(states, steps) && c < |steps| && steps[c].Call?
    ensures Spent(states[c + 1], steps[c].id, 0)
  {
    assert Leads(states[c], steps[c], states[c + 1]);
  }

  lemma StepIsSpentAt(states: seq<Sys>, steps: seq<Step>, n: nat, id: nat, own: nat)
    requires Run(states, steps) && n < |steps| && Spent(states[n], id, own)
    ensures Spent(states[n + 1], id, if Acts(steps[n], id) then own + 1 else own)
  {
    RunKeeps(states, steps, n);
    assert Leads(states[n], steps[n], states[n + 1]);
    StepIsSpent(states[n], steps[n], id, own);
  }

  ghost predicate SpentAt(states: seq<Sys>, steps: seq<Step>, c: nat, n: nat, id: nat) {
    c < n <= |steps| && n < |states| && Spent(states[n], id, OwnSteps(steps, c + 1, n, id))
  }

  lemma SpentNext(states: seq<Sys>, steps: seq<Step>, c: nat, n: nat, id: nat)
    requires Run(states, steps) && n < |steps| && SpentAt(states, steps, c, n, id)
    ensures SpentAt(states, steps, c, n + 1, id)
  {
    StepIsSpentAt(states, steps, n, id, OwnSteps(steps, c + 1, n, id));
  }

  /** Every own step uses up some of the distance to the end, and a retry gives back no more than one pass. */
  lemma {:induction false} StepsAreSpent(states: seq<Sys>, steps: seq<Step>, c: nat, n: nat)
    requires Run(states, steps) && c < n <= |steps| && steps[c].Call?
    ensures SpentAt(states, steps, c, n, steps[c].id)
  {
    if c + 1 == n {
      CallIsSpent(states, steps, c);
    } else {
      StepsAreSpent(states, steps, c, n - 1);
      SpentNext(states, steps, c, n - 1, steps[c].id);
    }
  }

  /**
   Nobody loops: a caller takes at most twelve steps of its own for its call and for every time its key has been
   disturbed since, by any replacement for a load and by retirements alone for a critical refresh.
   */
  lemma CallersEnd(states: seq<Sys>, steps: seq<Step>, c: nat, n: nat)
    requires Run(states, steps) && c < n <= |steps| && steps[c].Call?
    ensures var id, key, critical := steps[c].id, steps[c].key, steps[c].kind.Critical?;
      OwnSteps(steps, c + 1, n, id) <=
        12 * (1 + Disturbances(states, steps, n, key, critical) - Disturbances(states, steps, c, key, critical))
  {
    StepsAreSpent(states, steps, c, n);
    RetriesAreBounded(states, steps, c, n);
  }

  // ---------------------------------------------------------------- the map, updated in place

  class CacheEntries {
    var entries: map<int, Slot>
    var objects: map<nat, Obj>
    var nextId: nat
    var tick: nat

    ghost function Value(procs: map<nat, Proc>): Sys
      reads this
    {
      Sys(entries, objects, procs, nextId, tick)
    }

    constructor ()
      ensures Value(map[]) == Initial
    {
      entries, objects, nextId, tick := map[], map[], 0, 1;
    }

    method Entry(key: int, ghost procs: map<nat, Proc>) returns (epoch: nat, eid: nat)
      modifies this`entries, this`objects, this`nextId
      ensures Value(procs) == WithDefault(old(Value(procs)), key)
      ensures key in entries && epoch == entries[key].epoch && eid == entries[key].eid
      ensures key in old(entries) ==> entries == old(entries)
    {
      if key !in entries {
        entries := entries[key := Slot(0, nextId, 0, 0, 0)];
        objects := objects[nextId := NewObj(key, tick)];
        nextId := nextId + 1;
      }
      return entries[key].epoch, entries[key].eid;
    }

    /** `*entry = Default::default()`. */
    method Replace(key: int, retire: bool, ghost procs: map<nat, Proc>) returns (epoch: nat)
      modifies this`entries, this`objects, this`nextId
      ensures Value(procs) == Replaced(old(Value(procs)), key, retire)
      ensures epoch == entries[key].epoch == EpochOf(old(Value(procs)), key) + (if retire then 1 else 0)
    {
      var was := Slot(0, 0, 0, 0, 0);
      if key in entries {
        was := entries[key];
      }
      epoch := was.epoch;
      var retiredAt := was.retiredAt;
      if retire {
        epoch := epoch + 1;
        retiredAt := tick;
      }
      entries := entries[key := Slot(epoch, nextId, tick, retiredAt, was.replacements + 1)];
      objects := objects[nextId := NewObj(key, tick)];
      nextId := nextId + 1;
    }

    method Detach(key: int, ghost procs: map<nat, Proc>) returns (epoch: nat)
      modifies this`entries, this`objects, this`nextId
      ensures Value(procs) == Replaced(old(Value(procs)), key, false)
      ensures epoch == EpochOf(old(Value(procs)), key)
    {
      epoch := Replace(key, false, procs);
    }

    method Retire(key: int, ghost procs: map<nat, Proc>) returns (epoch: nat)
      modifies this`entries, this`objects, this`nextId
      ensures Value(procs) == Replaced(old(Value(procs)), key, true)
      ensures epoch == EpochOf(old(Value(procs)), key) + 1
    {
      epoch := Replace(key, true, procs);
    }

    method DetachIfCurrent(key: int, expected: nat, ghost procs: map<nat, Proc>) returns (current: bool)
      modifies this`entries, this`objects, this`nextId
      ensures current == (EpochOf(old(Value(procs)), key) == expected)
      ensures Value(procs) == (if current then Replaced(old(Value(procs)), key, false) else WithDefault(old(Value(procs)), key))
    {
      var epoch := 0;
      if key in entries {
        epoch := entries[key].epoch;
      }
      current := epoch == expected;
      if current {
        epoch := Replace(key, false, procs);
      } else {
        var _, _ := Entry(key, procs);
      }
    }

    method IsCurrent(p: Proc, ghost procs: map<nat, Proc>) returns (current: bool)
      ensures current == Matches(Value(procs), p)
    {
      current := p.key in entries && entries[p.key].epoch == p.epoch && entries[p.key].eid == p.eid;
    }
  }
}
