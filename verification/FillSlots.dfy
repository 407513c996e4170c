/**
 The slots in which `get_user_trades` keeps unfinished records between calls: clear-generations, the
 bounded cache, the waiting queue with its leases, eviction, and the cleanup that runs when a call ends.
 Calls interleave; every step below is what one call does while it holds the cache lock, or between two waits.
 */
module FillSlots {
  import opened Basics
  import opened MapSum
  import opened Sequences
  import opened FillPages

  const SLOTS: nat := 8
  const QUEUE_LIMIT: nat := 1024
  const SYMBOL_LIMIT: nat := 1024
  const SECOND: int := 1_000_000_000
  const ACTIVE_LEASE: int := 180 * SECOND
  const MIN_IDLE_SECONDS: nat := 7200
  const INITIAL_RETENTION_SECONDS: nat := 600
  const STALLED_MAX: nat := 255

  datatype Key = Key(symbol: string, orderId: int)

  datatype Entry = Entry(pid: nat, lastUsed: int, stalled: nat)

  datatype Waiter = Waiter(key: Key, lastSeen: int)

  datatype Table = Table(generations: map<string, nat>, cache: map<Key, Entry>, waiters: seq<Waiter>)

  datatype Denial = InvalidQuantity | SymbolLimit | HistoryCleared | QueueFull | WaitingForSlot | InProgress

  datatype Admission = Denied(why: Denial) | Granted(pid: nat, isNew: bool)

  // ---------------------------------------------------------------- the table

  predicate IsActive(w: Waiter, now: int) {
    now - w.lastSeen < ACTIVE_LEASE
  }

  function SeenSince(now: int, retention: nat): Waiter -> bool {
    (w: Waiter) => now - w.lastSeen < retention * SECOND
  }

  function OtherSymbol(symbol: string): Waiter -> bool {
    (w: Waiter) => w.key.symbol != symbol
  }

  /** The first waiter at or after `from` that was polled within the lease. */
  function FirstActive(waiters: seq<Waiter>, now: int, from: nat): (r: Option<nat>)
    requires from <= |waiters|
    decreases |waiters| - from
    ensures r.Some? ==> from <= r.value < |waiters| && IsActive(waiters[r.value], now)
    ensures r.Some? ==> forall i :: from <= i < r.value ==> !IsActive(waiters[i], now)
    ensures r.None? ==> forall i :: from <= i < |waiters| ==> !IsActive(waiters[i], now)
  {
    if from == |waiters| then None
    else if IsActive(waiters[from], now) then Some(from)
    else FirstActive(waiters, now, from + 1)
  }

  function FirstInactive(waiters: seq<Waiter>, now: int, from: nat): (r: Option<nat>)
    requires from <= |waiters|
    decreases |waiters| - from
    ensures r.Some? ==> from <= r.value < |waiters| && !IsActive(waiters[r.value], now)
    ensures r.Some? ==> forall i :: from <= i < r.value ==> IsActive(waiters[i], now)
    ensures r.None? ==> forall i :: from <= i < |waiters| ==> IsActive(waiters[i], now)
  {
    if from == |waiters| then None
    else if !IsActive(waiters[from], now) then Some(from)
    else FirstInactive(waiters, now, from + 1)
  }

  function PositionOf(waiters: seq<Waiter>, key: Key, from: nat): (r: Option<nat>)
    requires from <= |waiters|
    decreases |waiters| - from
    ensures r.Some? ==> from <= r.value < |waiters| && waiters[r.value].key == key
    ensures r.Some? ==> forall i :: from <= i < r.value ==> waiters[i].key != key
    ensures r.None? ==> forall i :: from <= i < |waiters| ==> waiters[i].key != key
  {
    if from == |waiters| then None
    else if waiters[from].key == key then Some(from)
    else PositionOf(waiters, key, from + 1)
  }

  function Removed(waiters: seq<Waiter>, i: nat): seq<Waiter>
    requires i < |waiters|
  {
    waiters[..i] + waiters[i + 1..]
  }

  /** A newer clear of the symbol throws away its records and its places in the queue. */
  function AtGeneration(t: Table, symbol: string, revision: nat): Table {
    if symbol !in t.generations then t.(generations := t.generations[symbol := revision])
    else if revision > t.generations[symbol] then
      Table(t.generations[symbol := revision],
            map k | k in t.cache && k.symbol != symbol :: t.cache[k],
            Filter(t.waiters, OtherSymbol(symbol)))
    else t
  }

  /** Note that the order was polled, giving it a place in the queue when it needs one. `None`: the queue is full. */
  function Polled(waiters: seq<Waiter>, slotsTaken: nat, key: Key, now: int): Option<seq<Waiter>> {
    var place := PositionOf(waiters, key, 0);
    if place.Some? then Some(waiters[place.value := Waiter(key, now)])
    else if slotsTaken < SLOTS && waiters == [] then Some(waiters)
    else if |waiters| < QUEUE_LIMIT then Some(waiters + [Waiter(key, now)])
    else
      var stale := FirstInactive(waiters, now, 0);
      if stale.None? then None else Some(Removed(waiters, stale.value) + [Waiter(key, now)])
  }

  predicate Evictable(e: Entry, inUse: set<nat>, retention: nat, now: int) {
    && (e.stalled >= 3 || now - e.lastUsed >= (if retention > MIN_IDLE_SECONDS then retention else MIN_IDLE_SECONDS) * SECOND)
    && e.pid !in inUse
  }

  /** The least recently used evictable order, if there is one; a tie may be broken either way. */
  ghost predicate IsVictim(cache: map<Key, Entry>, inUse: set<nat>, retention: nat, now: int, victim: Option<Key>) {
    match victim
    case None => forall k | k in cache :: !Evictable(cache[k], inUse, retention, now)
    case Some(v) =>
      && v in cache && Evictable(cache[v], inUse, retention, now)
      && forall k | k in cache && Evictable(cache[k], inUse, retention, now) :: cache[v].lastUsed <= cache[k].lastUsed
  }

  datatype Poll = Poll(key: Key, revision: nat, now: int, retention: nat, inUse: set<nat>)

  /** Waiters nobody has asked about for the whole retention are forgotten. */
  function Swept(t: Table, p: Poll): Table {
    t.(waiters := Filter(t.waiters, SeenSince(p.now, p.retention)))
  }

  /** Give `key` a slot when it is its turn and a slot is free or can be freed. */
  function Seat(t: Table, p: Poll, victim: Option<Key>, pid: nat): (Admission, Table) {
    var active := FirstActive(t.waiters, p.now, 0);
    var turn := active.None? || t.waiters[active.value].key == p.key;
    var cache :=
      if turn && active.Some? && |t.cache.Keys| >= SLOTS && victim.Some? then t.cache - {victim.value} else t.cache;
    if |cache.Keys| >= SLOTS || !turn then (Denied(WaitingForSlot), t.(cache := cache))
    else
      (Granted(pid, true),
       t.(cache := cache[p.key := Entry(pid, p.now, 0)],
          waiters := if active.Some? then Removed(t.waiters, active.value) else t.waiters))
  }

  /** Everything `get_user_trades` does under the cache lock before it starts to query. */
  function Admit(t: Table, p: Poll, victim: Option<Key>, pid: nat): (Admission, Table) {
    if p.key.symbol !in t.generations && |t.generations.Keys| >= SYMBOL_LIMIT then (Denied(SymbolLimit), t)
    else if p.key.symbol in t.generations && p.revision < t.generations[p.key.symbol] then (Denied(HistoryCleared), t)
    else
      var g := AtGeneration(t, p.key.symbol, p.revision);
      if p.key in g.cache then
        if g.cache[p.key].pid in p.inUse then (Denied(InProgress), g) else (Granted(g.cache[p.key].pid, false), g)
      else
        var kept := Swept(g, p);
        match Polled(kept.waiters, |kept.cache.Keys|, p.key, p.now)
        case None => (Denied(QueueFull), kept)
        case Some(waiters) => Seat(kept.(waiters := waiters), p, victim, pid)
  }

  // ---------------------------------------------------------------- what the table keeps

  ghost predicate DistinctWaiters(waiters: seq<Waiter>) {
    forall i, j :: 0 <= i < j < |waiters| ==> waiters[i].key != waiters[j].key
  }

  ghost predicate QueueOk(t: Table, now: int) {
    && |t.waiters| <= QUEUE_LIMIT
    && DistinctWaiters(t.waiters)
    && forall w | w in t.waiters :: w.lastSeen <= now && w.key !in t.cache && w.key.symbol in t.generations
  }

  ghost predicate CacheOk(t: Table, now: int) {
    && |t.cache.Keys| <= SLOTS
    && (forall k | k in t.cache :: k.symbol in t.generations && t.cache[k].lastUsed <= now)
    && forall k, l | k in t.cache && l in t.cache && k != l :: t.cache[k].pid != t.cache[l].pid
  }

  /** At most eight orders hold a slot, at most 1024 distinct others wait, and 1024 symbols are tracked. */
  ghost predicate TableOk(t: Table, now: int) {
    QueueOk(t, now) && CacheOk(t, now) && |t.generations.Keys| <= SYMBOL_LIMIT
  }

  lemma {:induction false} FilterKeepsDistinct(waiters: seq<Waiter>, keep: Waiter -> bool)
    requires DistinctWaiters(waiters)
    ensures DistinctWaiters(Filter(waiters, keep))
  {
    if waiters != [] {
      var init, last := waiters[..|waiters| - 1], waiters[|waiters| - 1];
      FilterKeepsDistinct(init, keep);
      FilterMeans(init, keep);
      forall w | w in init ensures w.key != last.key {
        var i :| 0 <= i < |init| && init[i] == w;
        assert waiters[i] == w;
      }
    }
  }

  lemma FilterKeeps(waiters: seq<Waiter>, keep: Waiter -> bool)
    ensures var r := Filter(waiters, keep);
      && |r| <= |waiters|
      && (forall w :: w in r <==> w in waiters && keep(w))
      && (DistinctWaiters(waiters) ==> DistinctWaiters(r))
  {
    FilterMeans(waiters, keep);
    FilterShorter(waiters, keep);
    if DistinctWaiters(waiters) {
      FilterKeepsDistinct(waiters, keep);
    }
  }

  lemma GenerationKeeps(t: Table, symbol: string, revision: nat, now: int)
    requires TableOk(t, now)
    requires symbol in t.generations || |t.generations.Keys| < SYMBOL_LIMIT
    ensures var g := AtGeneration(t, symbol, revision);
      && TableOk(g, now)
      && symbol in g.generations
      && g.cache.Keys <= t.cache.Keys
      && (forall k | k in g.cache :: g.cache[k] == t.cache[k])
  {
    var g := AtGeneration(t, symbol, revision);
    FilterKeeps(t.waiters, OtherSymbol(symbol));
    SubsetSize(g.cache.Keys, t.cache.Keys);
    assert g.generations.Keys == t.generations.Keys + {symbol};
    if symbol in t.generations {
      assert g.generations.Keys == t.generations.Keys;
    }
  }

  lemma PolledKeeps(t: Table, key: Key, now: int)
    requires TableOk(t, now) && key !in t.cache && key.symbol in t.generations
    ensures var q := Polled(t.waiters, |t.cache.Keys|, key, now);
      q.Some? ==>
        && TableOk(t.(waiters := q.value), now)
        && (|q.value| > 0 ==> exists i :: 0 <= i < |q.value| && q.value[i] == Waiter(key, now))
        && (q.value == [] ==> |t.cache.Keys| < SLOTS)
  {
    var place := PositionOf(t.waiters, key, 0);
    var q := Polled(t.waiters, |t.cache.Keys|, key, now);
    if place.Some? {
      assert q.value[place.value] == Waiter(key, now);
    } else if q.Some? && q.value != [] {
      assert q.value[|q.value| - 1] == Waiter(key, now);
      if |t.waiters| >= QUEUE_LIMIT {
        RemovedKeeps(t.waiters, FirstInactive(t.waiters, now, 0).value);
      }
    }
  }

  lemma EvictKeeps(t: Table, victim: Key, now: int)
    requires TableOk(t, now)
    ensures TableOk(t.(cache := t.cache - {victim}), now)
  {
    SubsetSize((t.cache - {victim}).Keys, t.cache.Keys);
  }

  lemma GrantKeeps(t: Table, key: Key, entry: Entry, place: Option<nat>, now: int)
    requires TableOk(t, now) && |t.cache.Keys| < SLOTS && key.symbol in t.generations && entry.lastUsed <= now
    requires if place.Some? then place.value < |t.waiters| && t.waiters[place.value].key == key else t.waiters == []
    requires key !in t.cache && forall k | k in t.cache :: t.cache[k].pid != entry.pid
    ensures TableOk(t.(cache := t.cache[key := entry],
                       waiters := if place.Some? then Removed(t.waiters, place.value) else t.waiters), now)
  {
    var next := t.(cache := t.cache[key := entry],
                   waiters := if place.Some? then Removed(t.waiters, place.value) else t.waiters);
    assert next.cache.Keys == t.cache.Keys + {key};
    if place.Some? {
      RemovedKeeps(t.waiters, place.value);
    }
    assert QueueOk(next, now);
    assert CacheOk(next, now);
  }

  lemma RemovedKeeps(waiters: seq<Waiter>, i: nat)
    requires DistinctWaiters(waiters) && i < |waiters|
    ensures DistinctWaiters(Removed(waiters, i))
    ensures |Removed(waiters, i)| == |waiters| - 1
    ensures forall w :: w in Removed(waiters, i) <==> w in waiters && w != waiters[i]
    ensures forall w | w in Removed(waiters, i) :: w.key != waiters[i].key
  {
    assert waiters == waiters[..i] + [waiters[i]] + waiters[i + 1..];
  }

  lemma SeatKeeps(t: Table, p: Poll, victim: Option<Key>, pid: nat)
    requires TableOk(t, p.now) && p.key !in t.cache && p.key.symbol in t.generations
    requires t.waiters == [] || exists i :: 0 <= i < |t.waiters| && t.waiters[i] == Waiter(p.key, p.now)
    requires t.waiters == [] ==> |t.cache.Keys| < SLOTS
    requires forall k | k in t.cache :: t.cache[k].pid != pid
    ensures TableOk(Seat(t, p, victim, pid).1, p.now)
  {
    var active := FirstActive(t.waiters, p.now, 0);
    if t.waiters != [] {
      var i :| 0 <= i < |t.waiters| && t.waiters[i] == Waiter(p.key, p.now);
      assert IsActive(t.waiters[i], p.now);
    }
    if victim.Some? {
      EvictKeeps(t, victim.value, p.now);
    }
    var (admission, next) := Seat(t, p, victim, pid);
    if admission.Granted? {
      var cache := if active.Some? && |t.cache.Keys| >= SLOTS && victim.Some? then t.cache - {victim.value} else t.cache;
      GrantKeeps(t.(cache := cache), p.key, Entry(pid, p.now, 0), active, p.now);
    }
  }

  predicate Accepted(t: Table, p: Poll) {
    if p.key.symbol in t.generations then p.revision >= t.generations[p.key.symbol]
    else |t.generations.Keys| < SYMBOL_LIMIT
  }

  lemma AcceptedKeeps(t: Table, p: Poll, now: int)
    requires TableOk(t, now) && now <= p.now && Accepted(t, p)
    ensures var g := AtGeneration(t, p.key.symbol, p.revision);
      && TableOk(g, p.now) && p.key.symbol in g.generations
      && forall k | k in g.cache :: k in t.cache && g.cache[k] == t.cache[k]
  {
    assert TableOk(t, p.now);
    GenerationKeeps(t, p.key.symbol, p.revision, p.now);
  }

  lemma SweptKeeps(g: Table, p: Poll)
    requires TableOk(g, p.now)
    ensures TableOk(Swept(g, p), p.now)
  {
    FilterKeeps(g.waiters, SeenSince(p.now, p.retention));
  }

  /** No poll can break the limits of the cache or the queue, or let an order hold a slot and wait for one. */
  lemma AdmitKeepsTable(t: Table, p: Poll, victim: Option<Key>, pid: nat, now: int)
    requires TableOk(t, now) && now <= p.now
    requires forall k | k in t.cache :: t.cache[k].pid != pid
    ensures TableOk(Admit(t, p, victim, pid).1, p.now)
  {
    if Accepted(t, p) {
      AcceptedKeeps(t, p, now);
      SweptKeeps(AtGeneration(t, p.key.symbol, p.revision), p);
      var kept := Swept(AtGeneration(t, p.key.symbol, p.revision), p);
      if p.key !in kept.cache {
        PolledKeeps(kept, p.key, p.now);
        var q := Polled(kept.waiters, |kept.cache.Keys|, p.key, p.now);
        if q.Some? {
          SeatKeeps(kept.(waiters := q.value), p, victim, pid);
        }
      }
    } else {
      assert TableOk(t, p.now);
    }
  }

  /**
   What an accepted poll does once its symbol is at the poll's generation: entries stay as they are,
   at most one victim is evicted, and at most one new entry, for the polled order, is created.
   */
  ghost predicate PollEffect(g: Table, p: Poll, victim: Option<Key>, pid: nat, admission: Admission, next: Table) {
    && next.generations == g.generations
    && (forall k | k in next.cache ::
          || (k in g.cache && next.cache[k] == g.cache[k])
          || (k == p.key && admission == Granted(pid, true) && next.cache[k] == Entry(pid, p.now, 0)))
    && (forall k | k in g.cache && k !in next.cache :: victim == Some(k))
    && (admission.Granted? ==> p.key in next.cache && next.cache[p.key].pid == admission.pid)
    && (admission.Granted? && admission.isNew ==> p.key !in g.cache && admission.pid == pid)
    && (admission.Granted? && !admission.isNew ==> p.key in g.cache && admission.pid !in p.inUse && next == g)
  }

  lemma SeatHasEffect(t: Table, p: Poll, victim: Option<Key>, pid: nat)
    requires p.key !in t.cache
    ensures var (admission, next) := Seat(t, p, victim, pid); PollEffect(t, p, victim, pid, admission, next)
  {
  }

  lemma AdmitHasEffect(t: Table, p: Poll, victim: Option<Key>, pid: nat)
    ensures var (admission, next) := Admit(t, p, victim, pid);
      if Accepted(t, p) then PollEffect(AtGeneration(t, p.key.symbol, p.revision), p, victim, pid, admission, next)
      else admission.Denied? && next == t
  {
    if Accepted(t, p) {
      var g := AtGeneration(t, p.key.symbol, p.revision);
      if p.key !in g.cache {
        var q := Polled(Swept(g, p).waiters, |g.cache.Keys|, p.key, p.now);
        if q.Some? {
          SeatHasEffect(Swept(g, p).(waiters := q.value), p, victim, pid);
        }
      }
    }
  }

  // ---------------------------------------------------------------- who is admitted

  /** The poll finds the history of its own symbol cleared, so what it kept for that symbol is gone. */
  predicate ClearsSymbol(t: Table, p: Poll, symbol: string) {
    symbol == p.key.symbol && symbol in t.generations && p.revision > t.generations[symbol]
  }

  /** The waiters that a poll leaves in the queue: neither cleared by it nor forgotten after the retention. */
  function Stays(t: Table, p: Poll): Waiter -> bool {
    (w: Waiter) => !ClearsSymbol(t, p, w.key.symbol) && p.now - w.lastSeen < p.retention * SECOND
  }

  /** The cached orders that a poll does not clear. */
  function Seated(t: Table, p: Poll): set<Key> {
    set k | k in t.cache && !ClearsSymbol(t, p, k.symbol)
  }

  ghost predicate AlreadySeated(t: Table, p: Poll) {
    p.key in Seated(t, p)
  }

  /** Another order polled within the lease stands in the queue, and the polled order has no place before it. */
  ghost predicate Preceded(t: Table, p: Poll) {
    exists i :: 0 <= i < |t.waiters| && Precedes(t, p, i)
  }

  ghost predicate Precedes(t: Table, p: Poll, i: nat)
    requires i < |t.waiters|
  {
    && Stays(t, p)(t.waiters[i]) && p.now - t.waiters[i].lastSeen < ACTIVE_LEASE && t.waiters[i].key != p.key
    && forall j | 0 <= j < i && t.waiters[j].key == p.key :: !Stays(t, p)(t.waiters[j])
  }

  /** Nobody works on the entry, and it has failed three times or not been used for two hours and the whole retention. */
  ghost predicate MayGo(e: Entry, p: Poll) {
    && e.pid !in p.inUse
    && (e.stalled >= 3 || (p.now - e.lastUsed >= 7200 * SECOND && p.now - e.lastUsed >= p.retention * SECOND))
  }

  /** A slot is free, or can be freed. */
  ghost predicate HasRoom(t: Table, p: Poll) {
    |Seated(t, p)| < SLOTS || exists k :: k in Seated(t, p) && MayGo(t.cache[k], p)
  }

  /** The order has no place, 1024 others have one, and all of these were polled within the lease. */
  ghost predicate QueueIsFull(t: Table, p: Poll) {
    && |Filter(t.waiters, Stays(t, p))| >= QUEUE_LIMIT
    && forall w | w in t.waiters && Stays(t, p)(w) :: w.key != p.key && p.now - w.lastSeen < ACTIVE_LEASE
  }

  /** The answer that a poll has to be given, in terms of the table it finds. */
  ghost predicate IsAnswer(t: Table, p: Poll, pid: nat, admission: Admission) {
    if p.key.symbol !in t.generations && |t.generations.Keys| >= SYMBOL_LIMIT then admission == Denied(SymbolLimit)
    else if p.key.symbol in t.generations && p.revision < t.generations[p.key.symbol] then admission == Denied(HistoryCleared)
    else if AlreadySeated(t, p) then
      admission == if t.cache[p.key].pid in p.inUse then Denied(InProgress) else Granted(t.cache[p.key].pid, false)
    else if QueueIsFull(t, p) then admission == Denied(QueueFull)
    else if Preceded(t, p) || !HasRoom(t, p) then admission == Denied(WaitingForSlot)
    else admission == Granted(pid, true)
  }

  /** Another active order stands in the queue and `key` has no place before it. */
  ghost predicate PrecededIn(waiters: seq<Waiter>, key: Key, now: int) {
    exists i :: 0 <= i < |waiters| && PrecedesIn(waiters, key, now, i)
  }

  ghost predicate PrecedesIn(waiters: seq<Waiter>, key: Key, now: int, i: nat)
    requires i < |waiters|
  {
    IsActive(waiters[i], now) && waiters[i].key != key && forall j | 0 <= j < i :: waiters[j].key != key
  }

  lemma PrecededPut(init: seq<Waiter>, w: Waiter, key: Key, now: int)
    ensures PrecededIn(init + [w], key, now) <==>
      PrecededIn(init, key, now) || (IsActive(w, now) && w.key != key && forall v | v in init :: v.key != key)
  {
    var all := init + [w];
    assert forall i | 0 <= i < |init| :: all[i] == init[i];
    if i :| 0 <= i < |init| && PrecedesIn(init, key, now, i) {
      assert PrecedesIn(all, key, now, i);
    }
    if i :| 0 <= i < |all| && PrecedesIn(all, key, now, i) {
      if i < |init| {
        assert PrecedesIn(init, key, now, i);
      } else {
        forall v | v in init ensures v.key != key {
          var j :| 0 <= j < |init| && init[j] == v;
          assert all[j] == v;
        }
      }
    }
    if IsActive(w, now) && w.key != key && forall v | v in init :: v.key != key {
      assert PrecedesIn(all, key, now, |init|);
    }
  }

  /** The orders of the first `n` waiters that precede the polled one. */
  ghost predicate PrecededBy(t: Table, p: Poll, n: nat)
    requires n <= |t.waiters|
  {
    exists i :: 0 <= i < n && Precedes(t, p, i)
  }

  lemma PrecedesLast(t: Table, p: Poll, n: nat)
    requires n < |t.waiters|
    ensures Precedes(t, p, n) <==>
      && Stays(t, p)(t.waiters[n]) && IsActive(t.waiters[n], p.now) && t.waiters[n].key != p.key
      && forall v | v in t.waiters[..n] && Stays(t, p)(v) :: v.key != p.key
  {
    var init := t.waiters[..n];
    assert forall j | 0 <= j < n :: t.waiters[j] == init[j] && init[j] in init;
  }

  /** One more waiter, if it stays, is one more place in the queue that is kept. */
  lemma KeptPut(t: Table, p: Poll, n: nat)
    requires n < |t.waiters|
    ensures var kept, w := Filter(t.waiters[..n], Stays(t, p)), t.waiters[n];
      PrecededIn(Filter(t.waiters[..n + 1], Stays(t, p)), p.key, p.now) <==>
        || PrecededIn(kept, p.key, p.now)
        || (Stays(t, p)(w) && IsActive(w, p.now) && w.key != p.key && forall v | v in kept :: v.key != p.key)
  {
    var init, w := t.waiters[..n], t.waiters[n];
    assert t.waiters[..n + 1] == init + [w];
    FilterPut(init, w, Stays(t, p));
    PrecededPut(Filter(init, Stays(t, p)), w, p.key, p.now);
  }

  lemma {:induction false} PrecededMeans(t: Table, p: Poll, n: nat)
    requires n <= |t.waiters|
    ensures PrecededBy(t, p, n) <==> PrecededIn(Filter(t.waiters[..n], Stays(t, p)), p.key, p.now)
  {
    if n > 0 {
      PrecededMeans(t, p, n - 1);
      KeptPut(t, p, n - 1);
      PrecedesLast(t, p, n - 1);
      FilterMeans(t.waiters[..n - 1], Stays(t, p));
      assert PrecededBy(t, p, n) <==> PrecededBy(t, p, n - 1) || Precedes(t, p, n - 1);
    }
  }

  /** The queue that an accepted poll works on. */
  lemma KeptQueue(t: Table, p: Poll)
    ensures Swept(AtGeneration(t, p.key.symbol, p.revision), p).waiters == Filter(t.waiters, Stays(t, p))
  {
    var g := AtGeneration(t, p.key.symbol, p.revision);
    if p.key.symbol in t.generations && p.revision > t.generations[p.key.symbol] {
      FilterTwice(t.waiters, OtherSymbol(p.key.symbol), SeenSince(p.now, p.retention), Stays(t, p));
    } else {
      FilterAgree(t.waiters, SeenSince(p.now, p.retention), Stays(t, p));
    }
  }

  lemma KeptCache(t: Table, p: Poll)
    ensures var g := AtGeneration(t, p.key.symbol, p.revision);
      g.cache.Keys == Seated(t, p) && forall k | k in g.cache :: g.cache[k] == t.cache[k]
  {
  }

  /** After its poll the order has a place, and its turn has come exactly when nobody active precedes it. */
  ghost predicate TurnIsRight(before: seq<Waiter>, after: seq<Waiter>, key: Key, now: int) {
    (FirstActive(after, now, 0).None? || after[FirstActive(after, now, 0).value].key == key) <==> !PrecededIn(before, key, now)
  }

  lemma RefreshedTurn(waiters: seq<Waiter>, place: nat, key: Key, now: int)
    requires place < |waiters| && waiters[place].key == key && forall j | 0 <= j < place :: waiters[j].key != key
    ensures TurnIsRight(waiters, waiters[place := Waiter(key, now)], key, now)
  {
    var after := waiters[place := Waiter(key, now)];
    assert IsActive(after[place], now);
    var first := FirstActive(after, now, 0).value;
    if first < place {
      assert after[first] == waiters[first];
      assert PrecedesIn(waiters, key, now, first);
    } else {
      forall i | 0 <= i < |waiters| ensures !PrecedesIn(waiters, key, now, i) {
        assert i < place ==> after[i] == waiters[i];
      }
    }
  }

  lemma PushedTurn(waiters: seq<Waiter>, key: Key, now: int)
    requires forall w | w in waiters :: w.key != key
    ensures TurnIsRight(waiters, waiters + [Waiter(key, now)], key, now)
  {
    var after := waiters + [Waiter(key, now)];
    assert IsActive(after[|waiters|], now);
    var first := FirstActive(after, now, 0).value;
    if first < |waiters| {
      assert after[first] == waiters[first] && waiters[first] in waiters;
      assert PrecedesIn(waiters, key, now, first);
    } else {
      forall i | 0 <= i < |waiters| ensures !PrecedesIn(waiters, key, now, i) {
        assert after[i] == waiters[i];
      }
    }
  }

  /** Dropping a lapsed waiter changes no one's turn. */
  lemma DroppedTurn(waiters: seq<Waiter>, stale: nat, key: Key, now: int)
    requires stale < |waiters| && !IsActive(waiters[stale], now) && forall w | w in waiters :: w.key != key
    ensures PrecededIn(Removed(waiters, stale), key, now) <==> PrecededIn(waiters, key, now)
    ensures forall w | w in Removed(waiters, stale) :: w in waiters
  {
    var rest := Removed(waiters, stale);
    if i :| 0 <= i < |waiters| && PrecedesIn(waiters, key, now, i) {
      var k := if i < stale then i else i - 1;
      assert rest[k] == waiters[i];
      assert forall j | 0 <= j < |rest| :: rest[j] == waiters[if j < stale then j else j + 1];
      assert PrecedesIn(rest, key, now, k);
    }
    if i :| 0 <= i < |rest| && PrecedesIn(rest, key, now, i) {
      var k := if i < stale then i else i + 1;
      assert rest[i] == waiters[k];
      assert forall j | 0 <= j < |waiters| :: waiters[j] in waiters;
      assert PrecedesIn(waiters, key, now, k);
    }
  }

  lemma PolledTurn(waiters: seq<Waiter>, slotsTaken: nat, key: Key, now: int)
    ensures var q := Polled(waiters, slotsTaken, key, now);
      && (q.None? <==> |waiters| >= QUEUE_LIMIT && forall w | w in waiters :: w.key != key && IsActive(w, now))
      && (q.Some? ==> TurnIsRight(waiters, q.value, key, now))
      && (q.Some? && slotsTaken >= SLOTS ==> FirstActive(q.value, now, 0).Some?)
  {
    var place := PositionOf(waiters, key, 0);
    if place.Some? {
      assert waiters[place.value] in waiters;
      RefreshedTurn(waiters, place.value, key, now);
      assert IsActive(waiters[place.value := Waiter(key, now)][place.value], now);
    } else if slotsTaken < SLOTS && waiters == [] {
    } else if |waiters| < QUEUE_LIMIT {
      PushedTurn(waiters, key, now);
      assert IsActive((waiters + [Waiter(key, now)])[|waiters|], now);
    } else {
      var stale := FirstInactive(waiters, now, 0);
      if stale.Some? {
        assert waiters[stale.value] in waiters;
        DroppedTurn(waiters, stale.value, key, now);
        var rest := Removed(waiters, stale.value);
        PushedTurn(rest, key, now);
        assert IsActive((rest + [Waiter(key, now)])[|rest|], now);
      }
    }
  }

  /** A slot is free or can be freed exactly when the search for an evictable entry lets one be given. */
  lemma RoomMeans(t: Table, p: Poll, victim: Option<Key>)
    requires |t.cache.Keys| <= SLOTS
    requires IsVictim(AtGeneration(t, p.key.symbol, p.revision).cache, p.inUse, p.retention, p.now, victim)
    ensures |Seated(t, p)| <= SLOTS && (HasRoom(t, p) <==> |Seated(t, p)| < SLOTS || victim.Some?)
  {
    KeptCache(t, p);
    SubsetSize(Seated(t, p), t.cache.Keys);
    forall k | k in Seated(t, p) ensures MayGo(t.cache[k], p) <==> Evictable(t.cache[k], p.inUse, p.retention, p.now) {
    }
  }

  /** The place that the order has or takes decides whether it is its turn. */
  lemma QueueMeans(t: Table, p: Poll)
    ensures var kept := Filter(t.waiters, Stays(t, p));
      && (QueueIsFull(t, p) <==> |kept| >= QUEUE_LIMIT && forall w | w in kept :: w.key != p.key && IsActive(w, p.now))
      && (Preceded(t, p) <==> PrecededIn(kept, p.key, p.now))
  {
    FilterMeans(t.waiters, Stays(t, p));
    PrecededMeans(t, p, |t.waiters|);
    assert t.waiters[..|t.waiters|] == t.waiters;
    assert Preceded(t, p) <==> PrecededBy(t, p, |t.waiters|);
  }

  lemma SeatAnswers(t: Table, p: Poll, victim: Option<Key>, pid: nat)
    requires |t.cache.Keys| <= SLOTS && (victim.Some? ==> victim.value in t.cache)
    requires |t.cache.Keys| >= SLOTS ==> FirstActive(t.waiters, p.now, 0).Some?
    ensures var active := FirstActive(t.waiters, p.now, 0);
      var turn := active.None? || t.waiters[active.value].key == p.key;
      Seat(t, p, victim, pid).0 ==
        if turn && (|t.cache.Keys| < SLOTS || victim.Some?) then Granted(pid, true) else Denied(WaitingForSlot)
  {
    if victim.Some? {
      assert (t.cache - {victim.value}).Keys == t.cache.Keys - {victim.value};
    }
  }

  lemma WaiterAnswered(t: Table, p: Poll, victim: Option<Key>, pid: nat)
    requires Accepted(t, p) && !AlreadySeated(t, p) && |Seated(t, p)| <= SLOTS
    requires victim.Some? ==> victim.value in Seated(t, p)
    requires HasRoom(t, p) <==> |Seated(t, p)| < SLOTS || victim.Some?
    ensures IsAnswer(t, p, pid, Admit(t, p, victim, pid).0)
  {
    var kept := Swept(AtGeneration(t, p.key.symbol, p.revision), p);
    KeptCache(t, p);
    KeptQueue(t, p);
    QueueMeans(t, p);
    PolledTurn(kept.waiters, |kept.cache.Keys|, p.key, p.now);
    var q := Polled(kept.waiters, |kept.cache.Keys|, p.key, p.now);
    if q.Some? {
      SeatAnswers(kept.(waiters := q.value), p, victim, pid);
    }
  }

  /**
   Every poll is given the answer that the table calls for. In particular an accepted order without a slot gets
   one exactly when nobody active precedes it and a slot is free or can be freed; it is refused for a full queue
   exactly when it has no place and 1024 active orders do; and otherwise it waits.
   */
  lemma AdmitAnswers(t: Table, p: Poll, victim: Option<Key>, pid: nat)
    requires |t.cache.Keys| <= SLOTS
    requires IsVictim(AtGeneration(t, p.key.symbol, p.revision).cache, p.inUse, p.retention, p.now, victim)
    ensures IsAnswer(t, p, pid, Admit(t, p, victim, pid).0)
  {
    KeptCache(t, p);
    if Accepted(t, p) && !AlreadySeated(t, p) {
      RoomMeans(t, p, victim);
      WaiterAnswered(t, p, victim, pid);
    }
  }

  lemma AdmitAnswersEvery(t: Table, p: Poll, pid: nat)
    requires |t.cache.Keys| <= SLOTS
    ensures forall victim | IsVictim(AtGeneration(t, p.key.symbol, p.revision).cache, p.inUse, p.retention, p.now, victim) ::
      IsAnswer(t, p, pid, Admit(t, p, victim, pid).0)
  {
    forall victim | IsVictim(AtGeneration(t, p.key.symbol, p.revision).cache, p.inUse, p.retention, p.now, victim)
      ensures IsAnswer(t, p, pid, Admit(t, p, victim, pid).0)
    {
      AdmitAnswers(t, p, victim, pid);
    }
  }

  /**
   An order that has no slot is admitted at once when every other waiter has gone unpolled for the lease and
   a slot is free or can be freed; so no order waits for nobody.
   */
  lemma NobodyWaitsForNobody(t: Table, p: Poll, victim: Option<Key>, pid: nat)
    requires |t.cache.Keys| <= SLOTS && Accepted(t, p) && !AlreadySeated(t, p) && HasRoom(t, p)
    requires IsVictim(AtGeneration(t, p.key.symbol, p.revision).cache, p.inUse, p.retention, p.now, victim)
    requires forall w | w in t.waiters && w.key != p.key :: p.now - w.lastSeen >= ACTIVE_LEASE
    ensures Admit(t, p, victim, pid).0 == Granted(pid, true)
  {
    AdmitAnswers(t, p, victim, pid);
    FilterMeans(t.waiters, Stays(t, p));
    EmptyOrMember(Filter(t.waiters, Stays(t, p)));
  }

  // ---------------------------------------------------------------- what becomes of the queue

  function OtherThan(key: Key): Waiter -> bool {
    (w: Waiter) => w.key != key
  }

  /** Nobody else gains or loses a place, except that a full queue makes room by forgetting its first lapsed waiter. */
  ghost predicate OthersStay(before: seq<Waiter>, after: seq<Waiter>, key: Key, now: int) {
    if |before| >= QUEUE_LIMIT && forall w | w in before :: w.key != key
    then exists i :: 0 <= i < |before| && IsLapsed(before, now, i) && Filter(after, OtherThan(key)) == Removed(before, i)
    else Filter(after, OtherThan(key)) == Filter(before, OtherThan(key))
  }

  ghost predicate IsLapsed(waiters: seq<Waiter>, now: int, i: nat)
    requires i < |waiters|
  {
    !IsActive(waiters[i], now) && forall j | 0 <= j < i :: IsActive(waiters[j], now)
  }

  /** The order keeps the place it had, or takes the last one. */
  ghost predicate HasPlace(before: seq<Waiter>, after: seq<Waiter>, key: Key, now: int) {
    exists i :: 0 <= i < |after| && after[i] == Waiter(key, now)
      && if forall w | w in before :: w.key != key then i == |after| - 1 else |after| == |before| && before[i].key == key
  }

  lemma OthersAfterTakeOut(waiters: seq<Waiter>, i: nat, key: Key)
    requires i < |waiters| && waiters[i].key == key
    ensures Filter(Removed(waiters, i), OtherThan(key)) == Filter(waiters, OtherThan(key))
  {
    FilterWithout(waiters, i, OtherThan(key));
  }

  lemma OthersAfterRefresh(waiters: seq<Waiter>, i: nat, w: Waiter)
    requires i < |waiters| && waiters[i].key == w.key
    ensures Filter(waiters[i := w], OtherThan(w.key)) == Filter(waiters, OtherThan(w.key))
  {
    OthersAfterTakeOut(waiters, i, w.key);
    OthersAfterTakeOut(waiters[i := w], i, w.key);
    assert Removed(waiters[i := w], i) == Removed(waiters, i);
  }

  lemma PolledQueue(waiters: seq<Waiter>, slotsTaken: nat, key: Key, now: int)
    requires DistinctWaiters(waiters)
    ensures var q := Polled(waiters, slotsTaken, key, now);
      q.Some? ==> OthersStay(waiters, q.value, key, now) && (q.value != [] ==> HasPlace(waiters, q.value, key, now))
  {
    var place, w := PositionOf(waiters, key, 0), Waiter(key, now);
    if place.Some? {
      OthersAfterRefresh(waiters, place.value, w);
      assert waiters[place.value] in waiters;
      assert waiters[place.value := w][place.value] == w;
    } else if slotsTaken < SLOTS && waiters == [] {
    } else if |waiters| < QUEUE_LIMIT {
      FilterPut(waiters, w, OtherThan(key));
      assert (waiters + [w])[|waiters|] == w;
    } else {
      var stale := FirstInactive(waiters, now, 0);
      if stale.Some? {
        var rest := Removed(waiters, stale.value);
        RemovedKeeps(waiters, stale.value);
        KeepAll(rest, OtherThan(key));
        FilterPut(rest, w, OtherThan(key));
        assert IsLapsed(waiters, now, stale.value);
        assert (rest + [w])[|rest|] == w;
      }
    }
  }

  /** The others keep their places, and the polled order has one exactly while it waits. */
  ghost predicate QueueIsKept(before: seq<Waiter>, after: seq<Waiter>, p: Poll, admission: Admission) {
    match admission
    case Denied(QueueFull) => after == before
    case Denied(_) => OthersStay(before, after, p.key, p.now) && HasPlace(before, after, p.key, p.now)
    case Granted(_, _) => OthersStay(before, after, p.key, p.now) && forall w | w in after :: w.key != p.key
  }

  lemma PolledThenSeated(kept: Table, p: Poll, victim: Option<Key>, pid: nat)
    requires TableOk(kept, p.now) && p.key !in kept.cache && p.key.symbol in kept.generations
    requires Polled(kept.waiters, |kept.cache.Keys|, p.key, p.now).Some?
    ensures var q := Polled(kept.waiters, |kept.cache.Keys|, p.key, p.now).value;
      var (admission, next) := Seat(kept.(waiters := q), p, victim, pid);
      QueueIsKept(kept.waiters, next.waiters, p, admission)
  {
    PolledKeeps(kept, p.key, p.now);
    PolledQueue(kept.waiters, |kept.cache.Keys|, p.key, p.now);
    SeatKeepsQueue(kept.(waiters := Polled(kept.waiters, |kept.cache.Keys|, p.key, p.now).value), p, victim, pid);
  }

  /** What a poll of an order without a slot does to the queue. */
  lemma AdmitKeepsQueue(t: Table, p: Poll, victim: Option<Key>, pid: nat, now: int)
    requires TableOk(t, now) && now <= p.now && Accepted(t, p) && !AlreadySeated(t, p)
    ensures var (admission, next) := Admit(t, p, victim, pid);
      QueueIsKept(Filter(t.waiters, Stays(t, p)), next.waiters, p, admission)
  {
    AcceptedKeeps(t, p, now);
    KeptQueue(t, p);
    KeptCache(t, p);
    var g := AtGeneration(t, p.key.symbol, p.revision);
    SweptKeeps(g, p);
    if Polled(Swept(g, p).waiters, |g.cache.Keys|, p.key, p.now).Some? {
      PolledThenSeated(Swept(g, p), p, victim, pid);
    }
  }

  lemma SeatKeepsQueue(t: Table, p: Poll, victim: Option<Key>, pid: nat)
    requires TableOk(t, p.now) && (t.waiters == [] ==> |t.cache.Keys| < SLOTS)
    requires t.waiters != [] ==> exists i :: 0 <= i < |t.waiters| && t.waiters[i] == Waiter(p.key, p.now)
    ensures var (admission, next) := Seat(t, p, victim, pid);
      if admission.Granted?
      then Filter(next.waiters, OtherThan(p.key)) == Filter(t.waiters, OtherThan(p.key)) && forall w | w in next.waiters :: w.key != p.key
      else next.waiters == t.waiters && t.waiters != []
  {
    var active := FirstActive(t.waiters, p.now, 0);
    if t.waiters != [] {
      var i :| 0 <= i < |t.waiters| && t.waiters[i] == Waiter(p.key, p.now);
      assert IsActive(t.waiters[i], p.now);
    }
    if Seat(t, p, victim, pid).0.Granted? && active.Some? {
      OthersAfterTakeOut(t.waiters, active.value, p.key);
      RemovedKeeps(t.waiters, active.value);
    }
  }

  // ---------------------------------------------------------------- fairness of one poll

  /** The orders queued before `key`. */
  function Ahead(waiters: seq<Waiter>, key: Key): set<Key> {
    if waiters == [] || waiters[0].key == key then {} else {waiters[0].key} + Ahead(waiters[1..], key)
  }

  /** `key` is queued and was polled at `since` or later. */
  ghost predicate Stands(waiters: seq<Waiter>, key: Key, since: int) {
    exists i :: 0 <= i < |waiters| && waiters[i].key == key && waiters[i].lastSeen >= since
  }

  lemma {:induction false} AheadFilter(waiters: seq<Waiter>, key: Key, keep: Waiter -> bool)
    requires exists w :: w in waiters && w.key == key
    requires forall w | w in waiters && w.key == key :: keep(w)
    ensures Ahead(Filter(waiters, keep), key) <= Ahead(waiters, key)
  {
    if waiters != [] && waiters[0].key != key {
      assert waiters == [waiters[0]] + waiters[1..];
      AheadFilter(waiters[1..], key, keep);
      FilterCons(waiters[0], waiters[1..], keep);
      if keep(waiters[0]) {
        assert Filter(waiters, keep)[1..] == Filter(waiters[1..], keep);
      }
    } else if waiters != [] {
      assert waiters == [waiters[0]] + waiters[1..];
      FilterCons(waiters[0], waiters[1..], keep);
    }
  }

  lemma {:induction false} AheadIsQueued(waiters: seq<Waiter>, key: Key)
    ensures forall k | k in Ahead(waiters, key) :: k != key && exists i :: 0 <= i < |waiters| && waiters[i].key == k
  {
    if waiters != [] && waiters[0].key != key {
      AheadIsQueued(waiters[1..], key);
      forall k | k in Ahead(waiters, key) ensures exists i :: 0 <= i < |waiters| && waiters[i].key == k {
        if k in Ahead(waiters[1..], key) {
          var i :| 0 <= i < |waiters[1..]| && waiters[1..][i].key == k;
          assert waiters[i + 1].key == k;
        }
      }
    }
  }

  /** Taking out one waiter takes it out of what is ahead of the others, and nothing gets in front of them. */
  lemma {:induction false} AheadRemoved(waiters: seq<Waiter>, i: nat, key: Key)
    requires DistinctWaiters(waiters) && i < |waiters| && waiters[i].key != key
    ensures Ahead(Removed(waiters, i), key) <= Ahead(waiters, key)
    ensures waiters[i].key !in Ahead(Removed(waiters, i), key)
    ensures (forall j :: 0 <= j < i ==> waiters[j].key != key) ==> waiters[i].key in Ahead(waiters, key)
  {
    var r := Removed(waiters, i);
    AheadIsQueued(r, key);
    RemovedKeeps(waiters, i);
    if i == 0 {
      assert r == waiters[1..];
    } else if waiters[0].key != key {
      assert r == [waiters[0]] + Removed(waiters[1..], i - 1);
      AheadRemoved(waiters[1..], i - 1, key);
    }
  }

  lemma RemovedStands(waiters: seq<Waiter>, i: nat, key: Key, since: int)
    requires i < |waiters| && waiters[i].key != key && Stands(waiters, key, since)
    ensures Stands(Removed(waiters, i), key, since)
  {
    var j :| 0 <= j < |waiters| && waiters[j].key == key && waiters[j].lastSeen >= since;
    assert Removed(waiters, i)[if j < i then j else j - 1] == waiters[j];
  }

  lemma {:induction false} AheadPush(waiters: seq<Waiter>, w: Waiter, key: Key)
    requires exists i :: 0 <= i < |waiters| && waiters[i].key == key
    ensures Ahead(waiters + [w], key) == Ahead(waiters, key)
  {
    if waiters[0].key != key {
      var i :| 0 <= i < |waiters| && waiters[i].key == key;
      assert waiters[1..][i - 1].key == key;
      AheadPush(waiters[1..], w, key);
      assert (waiters + [w])[1..] == waiters[1..] + [w];
    }
  }

  lemma {:induction false} AheadRefresh(waiters: seq<Waiter>, i: nat, w: Waiter, key: Key)
    requires i < |waiters| && waiters[i].key == w.key
    ensures Ahead(waiters[i := w], key) == Ahead(waiters, key)
  {
    if waiters[0].key != key {
      if i == 0 {
        assert waiters[i := w][1..] == waiters[1..];
      } else {
        assert waiters[i := w][1..] == waiters[1..][i - 1 := w];
        AheadRefresh(waiters[1..], i - 1, w, key);
      }
    }
  }

  lemma FilterStands(waiters: seq<Waiter>, key: Key, since: int, keep: Waiter -> bool)
    requires Stands(waiters, key, since)
    requires forall w | w in waiters && w.key == key :: keep(w)
    ensures Stands(Filter(waiters, keep), key, since)
    ensures Ahead(Filter(waiters, keep), key) <= Ahead(waiters, key)
  {
    var i :| 0 <= i < |waiters| && waiters[i].key == key && waiters[i].lastSeen >= since;
    FilterKeeps(waiters, keep);
    assert waiters[i] in Filter(waiters, keep);
    AheadFilter(waiters, key, keep);
  }

  /** `key` still stands in the queue and nothing has moved in front of it. */
  ghost predicate KeepsPlace(before: seq<Waiter>, after: seq<Waiter>, key: Key, since: int) {
    Stands(after, key, since) && Ahead(after, key) <= Ahead(before, key)
  }

  /** A queued order is attended at a poll: it was itself polled within the lease, and the poll does not clear its symbol. */
  ghost predicate Attended(t: Table, p: Poll, key: Key, since: int) {
    && Stands(t.waiters, key, since)
    && since <= p.now < since + ACTIVE_LEASE
    && (p.key.symbol == key.symbol && key.symbol in t.generations ==> p.revision <= t.generations[key.symbol])
  }

  lemma GenerationIsFair(t: Table, p: Poll, key: Key, since: int, now: int)
    requires TableOk(t, now) && Attended(t, p, key, since)
    ensures KeepsPlace(t.waiters, AtGeneration(t, p.key.symbol, p.revision).waiters, key, since)
  {
    if p.key.symbol in t.generations && p.revision > t.generations[p.key.symbol] {
      var i :| 0 <= i < |t.waiters| && t.waiters[i].key == key && t.waiters[i].lastSeen >= since;
      assert t.waiters[i] in t.waiters;
      FilterStands(t.waiters, key, since, OtherSymbol(p.key.symbol));
    }
  }

  lemma RetentionIsFair(waiters: seq<Waiter>, p: Poll, key: Key, since: int)
    requires DistinctWaiters(waiters) && Stands(waiters, key, since)
    requires p.now < since + ACTIVE_LEASE && p.retention >= INITIAL_RETENTION_SECONDS
    ensures KeepsPlace(waiters, Filter(waiters, SeenSince(p.now, p.retention)), key, since)
  {
    var i :| 0 <= i < |waiters| && waiters[i].key == key && waiters[i].lastSeen >= since;
    forall w | w in waiters && w.key == key ensures SeenSince(p.now, p.retention)(w) {
      var j :| 0 <= j < |waiters| && waiters[j] == w;
      assert j == i;
    }
    FilterStands(waiters, key, since, SeenSince(p.now, p.retention));
  }

  lemma PushIsFair(waiters: seq<Waiter>, w: Waiter, key: Key, since: int)
    requires Stands(waiters, key, since)
    ensures KeepsPlace(waiters, waiters + [w], key, since)
  {
    var i :| 0 <= i < |waiters| && waiters[i].key == key && waiters[i].lastSeen >= since;
    assert (waiters + [w])[i] == waiters[i];
    AheadPush(waiters, w, key);
  }

  lemma RefreshIsFair(waiters: seq<Waiter>, place: nat, w: Waiter, key: Key, since: int)
    requires Stands(waiters, key, since) && place < |waiters| && waiters[place].key == w.key && since <= w.lastSeen
    ensures KeepsPlace(waiters, waiters[place := w], key, since)
  {
    var i :| 0 <= i < |waiters| && waiters[i].key == key && waiters[i].lastSeen >= since;
    assert waiters[place := w][i].key == key && waiters[place := w][i].lastSeen >= since;
    AheadRefresh(waiters, place, w, key);
  }

  /** Only a waiter that has not been polled within the lease is dropped. */
  lemma DropIsFair(waiters: seq<Waiter>, stale: nat, now: int, key: Key, since: int)
    requires DistinctWaiters(waiters) && Stands(waiters, key, since) && now < since + ACTIVE_LEASE
    requires stale < |waiters| && !IsActive(waiters[stale], now)
    ensures KeepsPlace(waiters, Removed(waiters, stale), key, since)
  {
    var i :| 0 <= i < |waiters| && waiters[i].key == key && waiters[i].lastSeen >= since;
    assert IsActive(waiters[i], now);
    assert waiters[stale].key != key;
    AheadRemoved(waiters, stale, key);
    RemovedStands(waiters, stale, key, since);
  }

  lemma PolledIsFair(waiters: seq<Waiter>, slotsTaken: nat, p: Poll, key: Key, since: int)
    requires DistinctWaiters(waiters) && Stands(waiters, key, since) && since <= p.now < since + ACTIVE_LEASE
    requires Polled(waiters, slotsTaken, p.key, p.now).Some?
    ensures KeepsPlace(waiters, Polled(waiters, slotsTaken, p.key, p.now).value, key, since)
  {
    var place, w := PositionOf(waiters, p.key, 0), Waiter(p.key, p.now);
    if place.Some? {
      RefreshIsFair(waiters, place.value, w, key, since);
    } else if |waiters| < QUEUE_LIMIT {
      PushIsFair(waiters, w, key, since);
    } else {
      var stale := FirstInactive(waiters, p.now, 0).value;
      DropIsFair(waiters, stale, p.now, key, since);
      PushIsFair(Removed(waiters, stale), w, key, since);
    }
  }

  lemma SeatIsFair(t: Table, p: Poll, victim: Option<Key>, pid: nat, key: Key, since: int)
    requires DistinctWaiters(t.waiters) && Stands(t.waiters, key, since) && since <= p.now < since + ACTIVE_LEASE
    requires p.key != key
    ensures var (admission, next) := Seat(t, p, victim, pid);
      && KeepsPlace(t.waiters, next.waiters, key, since)
      && (admission.Granted? ==> p.key in Ahead(t.waiters, key) && p.key !in Ahead(next.waiters, key))
  {
    var active := FirstActive(t.waiters, p.now, 0);
    var i :| 0 <= i < |t.waiters| && t.waiters[i].key == key && t.waiters[i].lastSeen >= since;
    assert IsActive(t.waiters[i], p.now);
    assert active.Some? && active.value <= i;
    if Seat(t, p, victim, pid).0.Granted? {
      AheadRemoved(t.waiters, active.value, key);
      RemovedStands(t.waiters, active.value, key, since);
    }
  }

  /**
   Fairness: while a queued order is attended, no poll of another order can take its place or anyone
   else's in front of it, and a new slot goes only to an order that was already queued ahead of it.
   */
  lemma AdmitIsFair(t: Table, p: Poll, victim: Option<Key>, pid: nat, now: int, key: Key, since: int)
    requires TableOk(t, now) && now <= p.now && p.retention >= INITIAL_RETENTION_SECONDS
    requires Attended(t, p, key, since) && p.key != key
    ensures var (admission, next) := Admit(t, p, victim, pid);
      && KeepsPlace(t.waiters, next.waiters, key, since)
      && (admission.Granted? && admission.isNew ==> p.key in Ahead(t.waiters, key) && p.key !in Ahead(next.waiters, key))
  {
    if Accepted(t, p) {
      AcceptedKeeps(t, p, now);
      SweptKeeps(AtGeneration(t, p.key.symbol, p.revision), p);
      GenerationIsFair(t, p, key, since, now);
      var g := AtGeneration(t, p.key.symbol, p.revision);
      RetentionIsFair(g.waiters, p, key, since);
      if p.key !in g.cache {
        QueueIsFair(Swept(g, p), p, victim, pid, key, since);
      }
    }
  }

  lemma QueueIsFair(kept: Table, p: Poll, victim: Option<Key>, pid: nat, key: Key, since: int)
    requires TableOk(kept, p.now) && p.key !in kept.cache && p.key.symbol in kept.generations && p.key != key
    requires Stands(kept.waiters, key, since) && since <= p.now < since + ACTIVE_LEASE
    ensures var q := Polled(kept.waiters, |kept.cache.Keys|, p.key, p.now);
      q.Some? ==>
        var (admission, next) := Seat(kept.(waiters := q.value), p, victim, pid);
        && KeepsPlace(kept.waiters, next.waiters, key, since)
        && (admission.Granted? ==> p.key in Ahead(kept.waiters, key) && p.key !in Ahead(next.waiters, key))
  {
    PolledKeeps(kept, p.key, p.now);
    var q := Polled(kept.waiters, |kept.cache.Keys|, p.key, p.now);
    if q.Some? {
      PolledIsFair(kept.waiters, |kept.cache.Keys|, p, key, since);
      SeatIsFair(kept.(waiters := q.value), p, victim, pid, key, since);
    }
  }

  /** An attended order that polls again and is not seated keeps its place as well. */
  lemma OwnPollIsFair(t: Table, p: Poll, victim: Option<Key>, pid: nat, now: int, since: int)
    requires TableOk(t, now) && now <= p.now && p.retention >= INITIAL_RETENTION_SECONDS
    requires Attended(t, p, p.key, since)
    ensures var (admission, next) := Admit(t, p, victim, pid);
      if admission.Granted? then p.key in next.cache else KeepsPlace(t.waiters, next.waiters, p.key, since)
  {
    if Accepted(t, p) {
      AcceptedKeeps(t, p, now);
      SweptKeeps(AtGeneration(t, p.key.symbol, p.revision), p);
      GenerationIsFair(t, p, p.key, since, now);
      var g := AtGeneration(t, p.key.symbol, p.revision);
      RetentionIsFair(g.waiters, p, p.key, since);
      if p.key !in g.cache {
        var kept := Swept(g, p);
        PolledKeeps(kept, p.key, p.now);
        if Polled(kept.waiters, |kept.cache.Keys|, p.key, p.now).Some? {
          PolledIsFair(kept.waiters, |kept.cache.Keys|, p, p.key, since);
        }
      }
    }
  }

  /**
   A new slot is never given past a waiter who came first, unless that waiter has gone unpolled for
   the whole lease or this very poll clears the history it was waiting for.
   */
  lemma GrantRespectsTheQueue(t: Table, p: Poll, victim: Option<Key>, pid: nat, now: int, i: nat)
    requires TableOk(t, now) && now <= p.now && p.retention >= INITIAL_RETENTION_SECONDS
    requires i < |t.waiters| && t.waiters[i].key != p.key && p.key !in Ahead(t.waiters, t.waiters[i].key)
    requires var admission := Admit(t, p, victim, pid).0; admission.Granted? && admission.isNew
    ensures
      || p.now - t.waiters[i].lastSeen >= ACTIVE_LEASE
      || (t.waiters[i].key.symbol == p.key.symbol && p.revision > t.generations[p.key.symbol])
  {
    var w := t.waiters[i];
    assert w in t.waiters;
    if p.now - w.lastSeen < ACTIVE_LEASE && !(w.key.symbol == p.key.symbol && p.revision > t.generations[p.key.symbol]) {
      assert Attended(t, p, w.key, w.lastSeen);
      AdmitIsFair(t, p, victim, pid, now, w.key, w.lastSeen);
    }
  }

  // ---------------------------------------------------------------- the collections, updated in place

  class Slots {
    var generations: map<string, nat>
    var cache: map<Key, Entry>
    var waiters: seq<Waiter>
    var retention: nat

    function Value(): Table
      reads this
    {
      Table(generations, cache, waiters)
    }

    constructor ()
      ensures Value() == Table(map[], map[], []) && retention == INITIAL_RETENTION_SECONDS
    {
      generations, cache, waiters, retention := map[], map[], [], INITIAL_RETENTION_SECONDS;
    }

    /** A larger backlog lengthens the retention; a smaller one never shortens it. */
    method NoteBacklog(pending: nat)
      modifies this`retention
      ensures retention >= old(retention) && retention >= INITIAL_RETENTION_SECONDS
      ensures retention >= (pending + 2) / 3 * 360 + 120
      ensures retention == old(retention) || retention == INITIAL_RETENTION_SECONDS || retention == (pending + 2) / 3 * 360 + 120
    {
      var seconds := (pending + 2) / 3 * 360 + 120;
      if seconds < INITIAL_RETENTION_SECONDS {
        seconds := INITIAL_RETENTION_SECONDS;
      }
      if seconds > retention {
        retention := seconds;
      }
    }

    /** The least recently used entry that may be evicted. */
    method FindVictim(inUse: set<nat>, now: int) returns (victim: Option<Key>)
      ensures IsVictim(cache, inUse, retention, now, victim)
    {
      victim := None;
      var rest := cache.Keys;
      while rest != {}
        invariant rest <= cache.Keys
        invariant victim.Some? ==> victim.value in cache && Evictable(cache[victim.value], inUse, retention, now)
        invariant forall k | k in cache && k !in rest && Evictable(cache[k], inUse, retention, now) ::
          victim.Some? && cache[victim.value].lastUsed <= cache[k].lastUsed
      {
        var k :| k in rest;
        rest := rest - {k};
        if Evictable(cache[k], inUse, retention, now)
           && (victim.None? || cache[k].lastUsed < cache[victim.value].lastUsed) {
          victim := Some(k);
        }
      }
    }

    method EnterGeneration(symbol: string, revision: nat)
      modifies this`generations, this`cache, this`waiters
      ensures Value() == AtGeneration(old(Value()), symbol, revision)
    {
      if symbol !in generations {
        generations := generations[symbol := revision];
      } else if revision > generations[symbol] {
        generations := generations[symbol := revision];
        cache := map k | k in cache && k.symbol != symbol :: cache[k];
        waiters := Filter(waiters, OtherSymbol(symbol));
      }
    }

    method PollWaiters(key: Key, now: int) returns (ok: bool)
      modifies this`waiters
      ensures var polled := Polled(old(waiters), |cache.Keys|, key, now);
        ok == polled.Some? && waiters == if polled.Some? then polled.value else old(waiters)
    {
      var place := PositionOf(waiters, key, 0);
      if place.Some? {
        waiters := waiters[place.value := Waiter(key, now)];
      } else if |cache.Keys| >= SLOTS || waiters != [] {
        if |waiters| >= QUEUE_LIMIT {
          var stale := FirstInactive(waiters, now, 0);
          if stale.None? {
            return false;
          }
          waiters := Removed(waiters, stale.value);
        }
        waiters := waiters + [Waiter(key, now)];
      }
      return true;
    }

    method TakeSeat(key: Key, revision: nat, now: int, inUse: set<nat>, pid: nat) returns (admission: Admission, ghost victim: Option<Key>)
      modifies this`cache, this`waiters
      ensures IsVictim(old(cache), inUse, retention, now, victim)
      ensures (admission, Value()) == Seat(old(Value()), Poll(key, revision, now, retention, inUse), victim, pid)
    {
      var active := FirstActive(waiters, now, 0);
      var turn := active.None? || waiters[active.value].key == key;
      var found := FindVictim(inUse, now);
      victim := found;
      if turn && active.Some? && |cache.Keys| >= SLOTS && found.Some? {
        cache := cache - {found.value};
      }
      if |cache.Keys| >= SLOTS || !turn {
        return Denied(WaitingForSlot), victim;
      }
      if active.Some? {
        waiters := Removed(waiters, active.value);
      }
      cache := cache[key := Entry(pid, now, 0)];
      return Granted(pid, true), victim;
    }

    /** The part of `get_user_trades` that runs under the cache lock. */
    method Request(key: Key, revision: nat, now: int, inUse: set<nat>, pid: nat) returns (admission: Admission, ghost victim: Option<Key>)
      modifies this`generations, this`cache, this`waiters
      ensures IsVictim(AtGeneration(old(Value()), key.symbol, revision).cache, inUse, retention, now, victim)
      ensures (admission, Value()) == Admit(old(Value()), Poll(key, revision, now, retention, inUse), victim, pid)
      ensures |old(cache.Keys)| <= SLOTS ==> IsAnswer(old(Value()), Poll(key, revision, now, retention, inUse), pid, admission)
    {
      if |cache.Keys| <= SLOTS {
        AdmitAnswersEvery(Value(), Poll(key, revision, now, retention, inUse), pid);
      }
      victim := SomeVictim(AtGeneration(Value(), key.symbol, revision).cache, inUse, retention, now);
      if key.symbol !in generations && |generations.Keys| >= SYMBOL_LIMIT {
        return Denied(SymbolLimit), victim;
      }
      if key.symbol in generations && revision < generations[key.symbol] {
        return Denied(HistoryCleared), victim;
      }
      EnterGeneration(key.symbol, revision);
      if key in cache {
        if cache[key].pid in inUse {
          return Denied(InProgress), victim;
        }
        return Granted(cache[key].pid, false), victim;
      }
      waiters := Filter(waiters, SeenSince(now, retention));
      var ok := PollWaiters(key, now);
      if !ok {
        return Denied(QueueFull), victim;
      }
      admission, victim := TakeSeat(key, revision, now, inUse, pid);
    }
  }

  lemma {:induction false} SomeVictim(cache: map<Key, Entry>, inUse: set<nat>, retention: nat, now: int) returns (victim: Option<Key>)
    ensures IsVictim(cache, inUse, retention, now, victim)
    decreases |cache.Keys|
  {
    if cache == map[] {
      victim := None;
    } else {
      var k := Pick(cache);
      var rest := cache - {k};
      victim := SomeVictim(rest, inUse, retention, now);
      assert forall j | j in cache && j != k :: j in rest && rest[j] == cache[j];
      if Evictable(cache[k], inUse, retention, now)
         && (victim.None? || cache[k].lastUsed < cache[victim.value].lastUsed) {
        victim := Some(k);
      }
    }
  }
}
