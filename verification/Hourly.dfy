/**
 The hourly index over the trade table: one stored tally per symbol, mode and hour, kept up to date by
 every insert and verification, backfilled once, and read back in place of a scan of the day's trades.
 */
module Hourly {
  import opened Basics
  import opened MapSum
  import opened Trades

  datatype Key = Key(scope: Scope, hour: int)

  datatype HourCount = HourCount(hourStart: int, buys: nat, sells: nat)

  datatype HourlyStats = HourlyStats(windowStart: int, windowEnd: int, buckets: seq<HourCount>, pnl: real, pending: nat)

  datatype Group = Group(pnl: real, pending: nat)

  type Table = map<Key, Tally>

  function KeyOf(t: Trade): Key {
    Key(ScopeOf(t), Hour(t.timestamp))
  }

  /** The scan of one whole hour. */
  function Bucket(rows: seq<Row>, key: Key): Tally {
    Scan(rows, key.scope, key.hour * NANOS, (key.hour + HOUR_SECONDS) * NANOS)
  }

  /** The stored tallies are exactly the scans of the hours that have trades. */
  ghost predicate Indexed(rows: seq<Row>, table: Table) {
    && (forall k | k in table :: k.hour % HOUR_SECONDS == 0 && table[k] == Bucket(rows, k))
    && (forall r | r in rows :: KeyOf(r.trade) in table && r.statsHour == Some(Hour(r.trade.timestamp)))
  }

  // ---------------------------------------------------------------- updates

  function Stored(table: Table, key: Key): Tally {
    if key in table then table[key] else NoTrades
  }

  function Entered(table: Table, r: Row): Table {
    table[KeyOf(r.trade) := AddedRow(Stored(table, KeyOf(r.trade)), r)]
  }

  function WithoutPending(t: Tally, pnl: real): Tally
    requires t.pending > 0
  {
    t.(pending := t.pending - 1, pnl := t.pnl + pnl)
  }

  /** An hour that is not stored has no trades. */
  lemma UnstoredIsEmpty(rows: seq<Row>, table: Table, key: Key)
    requires Indexed(rows, table) && key !in table && key.hour % HOUR_SECONDS == 0
    ensures Bucket(rows, key) == NoTrades
  {
    forall r | r in rows ensures !Counted(r, key.scope, key.hour * NANOS, (key.hour + HOUR_SECONDS) * NANOS) {
      assert KeyOf(r.trade) in table;
      HourIsUnique(r.trade.timestamp, key.hour);
    }
    ScanNothing(rows, key.scope, key.hour * NANOS, (key.hour + HOUR_SECONDS) * NANOS);
  }

  lemma HourIsUnique(timestamp: int, hour: int)
    requires hour % HOUR_SECONDS == 0
    ensures hour * NANOS <= timestamp < (hour + HOUR_SECONDS) * NANOS <==> hour == Hour(timestamp)
  {
  }

  lemma EnteredIsIndexed(rows: seq<Row>, table: Table, r: Row)
    requires Indexed(rows, table) && r.statsHour == Some(Hour(r.trade.timestamp))
    ensures Indexed(rows + [r], Entered(table, r))
  {
    var key, table' := KeyOf(r.trade), Entered(table, r);
    forall k | k in table' ensures table'[k] == Bucket(rows + [r], k) {
      ScanPut(rows, r, k.scope, k.hour * NANOS, (k.hour + HOUR_SECONDS) * NANOS);
      if k.hour % HOUR_SECONDS == 0 {
        HourIsUnique(r.trade.timestamp, k.hour);
      }
      if key !in table {
        UnstoredIsEmpty(rows, table, key);
      }
    }
  }

  /** In an indexed history a pending trade is always found pending in its hour. */
  lemma PendingIsStored(rows: seq<Row>, table: Table, i: nat)
    requires Indexed(rows, table) && i < |rows| && !rows[i].verified
    ensures Stored(table, KeyOf(rows[i].trade)).pending > 0
  {
    var key := KeyOf(rows[i].trade);
    assert rows[i] in rows;
    ScanVerify(rows, i, rows[i].(verified := true), key.scope, key.hour * NANOS, (key.hour + HOUR_SECONDS) * NANOS);
  }

  lemma VerifiedIsIndexed(rows: seq<Row>, table: Table, i: nat, r: Row)
    requires Indexed(rows, table) && i < |rows| && !rows[i].verified
    requires r.verified && r.trade == rows[i].trade && r.statsHour == rows[i].statsHour
    requires Stored(table, KeyOf(r.trade)).pending > 0
    ensures Indexed(rows[i := r], table[KeyOf(r.trade) := WithoutPending(Stored(table, KeyOf(r.trade)), r.pnl)])
  {
    assert rows[i] in rows;
    var key := KeyOf(r.trade);
    var table' := table[key := WithoutPending(Stored(table, key), r.pnl)];
    forall k | k in table' ensures table'[k] == Bucket(rows[i := r], k) {
      ScanVerify(rows, i, r, k.scope, k.hour * NANOS, (k.hour + HOUR_SECONDS) * NANOS);
      HourIsUnique(r.trade.timestamp, k.hour);
    }
  }

  // ---------------------------------------------------------------- a day's statistics

  /** The part of one hour that is not after `now`, by plain scan. */
  function HourScan(rows: seq<Row>, scope: Scope, now: int, hour: int): Tally {
    Scan(rows, scope, hour * NANOS, Min((hour + HOUR_SECONDS) * NANOS, now + 1))
  }

  function CountOf(hour: int, t: Tally): HourCount {
    HourCount(hour, t.buys, t.sells)
  }

  /** Two different hours start at least an hour apart. */
  lemma HoursInOrder(a: int, b: int)
    requires a % HOUR_SECONDS == 0 && b % HOUR_SECONDS == 0
    ensures a < b ==> a + HOUR_SECONDS <= b
  {
    var x, y := a / HOUR_SECONDS, b / HOUR_SECONDS;
    assert a == HOUR_SECONDS * x && b == HOUR_SECONDS * y;
  }

  lemma HoursLater(h: int, i: int)
    requires h % HOUR_SECONDS == 0
    ensures (h + HOUR_SECONDS * i) % HOUR_SECONDS == 0
  {
    var x := h / HOUR_SECONDS;
    assert h + HOUR_SECONDS * i == HOUR_SECONDS * (x + i);
  }

  lemma HoursApart(a: int, b: int)
    requires a % HOUR_SECONDS == 0 && b % HOUR_SECONDS == 0
    ensures (b - a) / HOUR_SECONDS * HOUR_SECONDS == b - a
  {
    var x, y := a / HOUR_SECONDS, b / HOUR_SECONDS;
    assert b - a == HOUR_SECONDS * (y - x);
  }

  /** The second at which the Beijing day starts. */
  function FirstHour(now: int): (h: int)
    ensures h % HOUR_SECONDS == 0 && h * NANOS == BeijingMidnight(now) && h <= Hour(now)
  {
    var h := BeijingMidnight(now) / NANOS;
    assert h * NANOS == BeijingMidnight(now);
    HoursInOrder(Hour(now), h);
    h
  }

  function HoursOf(now: int): (n: nat)
    ensures FirstHour(now) + HOUR_SECONDS * n == Hour(now) + HOUR_SECONDS
  {
    HoursApart(FirstHour(now), Hour(now));
    (Hour(now) - FirstHour(now)) / HOUR_SECONDS + 1
  }

  /** The start of the day's hour number `i`. */
  function HourAt(now: int, i: nat): int {
    FirstHour(now) + HOUR_SECONDS * i
  }

  /** The statistics of the Beijing day up to `now`, by plain scan of the trade table. */
  function PlainStats(rows: seq<Row>, scope: Scope, now: int): HourlyStats {
    var start := BeijingMidnight(now);
    var total := Scan(rows, scope, start, now + 1);
    HourlyStats(
      start, now,
      seq(HoursOf(now), i requires i >= 0 => CountOf(HourAt(now, i), HourScan(rows, scope, now, HourAt(now, i)))),
      total.pnl, total.pending)
  }

  /** Bucket `i` of a day that starts at second `first` counts the rows of its hour, up to `now`, by side. */
  ghost predicate IsBucket(rows: seq<Row>, scope: Scope, first: int, now: int, i: nat, b: HourCount) {
    var from, to := (first + HOUR_SECONDS * i) * NANOS, Min((first + HOUR_SECONDS * (i + 1)) * NANOS, now + 1);
    && b.hourStart * NANOS == from
    && b.buys == |BuysAt(rows, scope, from, to)| && b.sells == |SellsAt(rows, scope, from, to)|
  }

  /** What the statistics say: the Beijing day of `now`, all its hours so far, and the day's verified profit and pending trades. */
  ghost predicate IsStats(rows: seq<Row>, scope: Scope, now: int, stats: HourlyStats) {
    var start := stats.windowStart;
    && stats.windowEnd == now && start <= now < start + DAY && start % DAY == DAY - BEIJING_OFFSET && start % NANOS == 0
    && |stats.buckets| > 0
    && HOUR_SECONDS * (|stats.buckets| - 1) * NANOS <= now - start < HOUR_SECONDS * |stats.buckets| * NANOS
    && (forall i: nat | i < |stats.buckets| :: IsBucket(rows, scope, start / NANOS, now, i, stats.buckets[i]))
    && stats.pnl == Sum(ProfitsAt(rows, scope, start, now + 1), Amount)
    && stats.pending == |PendingAt(rows, scope, start, now + 1)|
  }

  lemma BucketMeans(rows: seq<Row>, scope: Scope, now: int, i: nat)
    requires i < HoursOf(now)
    ensures IsBucket(rows, scope, FirstHour(now), now, i, CountOf(HourAt(now, i), HourScan(rows, scope, now, HourAt(now, i))))
  {
    var h := HourAt(now, i);
    assert h + HOUR_SECONDS == FirstHour(now) + HOUR_SECONDS * (i + 1);
    ScanCounts(rows, scope, h * NANOS, Min((h + HOUR_SECONDS) * NANOS, now + 1));
  }

  lemma PlainStatsMean(rows: seq<Row>, scope: Scope, now: int)
    ensures IsStats(rows, scope, now, PlainStats(rows, scope, now))
  {
    var stats := PlainStats(rows, scope, now);
    ScanCounts(rows, scope, stats.windowStart, now + 1);
    ScanProfit(rows, scope, stats.windowStart, now + 1);
    forall i: nat | i < |stats.buckets| ensures IsBucket(rows, scope, FirstHour(now), now, i, stats.buckets[i]) {
      BucketMeans(rows, scope, now, i);
    }
  }

  /** The stored hours of the scope in `[from, to]`, in ascending order. */
  function HoursBetween(table: Table, scope: Scope, from: int, to: int): seq<int>
    decreases 1 + to - from
  {
    if from > to then []
    else (if Key(scope, from) in table then [from] else []) + HoursBetween(table, scope, from + 1, to)
  }

  ghost predicate SortedHours(table: Table, scope: Scope, from: int, to: int, hours: seq<int>) {
    && (forall h :: h in hours <==> from <= h <= to && Key(scope, h) in table)
    && (forall i, j | 0 <= i < j < |hours| :: hours[i] < hours[j])
  }

  lemma PutHour(table: Table, scope: Scope, from: int, to: int, rest: seq<int>)
    requires SortedHours(table, scope, from + 1, to, rest) && from <= to && Key(scope, from) in table
    ensures SortedHours(table, scope, from, to, [from] + rest)
  {
    forall i, j | 0 <= i < j < |[from] + rest| ensures ([from] + rest)[i] < ([from] + rest)[j] {
      assert rest[j - 1] in rest;
    }
  }

  lemma {:induction false} HoursAreSorted(table: Table, scope: Scope, from: int, to: int)
    ensures SortedHours(table, scope, from, to, HoursBetween(table, scope, from, to))
    decreases 1 + to - from
  {
    if from <= to {
      HoursAreSorted(table, scope, from + 1, to);
      var rest := HoursBetween(table, scope, from + 1, to);
      if Key(scope, from) in table {
        PutHour(table, scope, from, to, rest);
      } else {
        assert [] + rest == rest;
      }
    }
  }

  /** The upper end of the day's first `i` hours. */
  function EndOf(now: int, i: nat): int {
    Min(HourAt(now, i) * NANOS, now + 1)
  }

  /** The index of an hour that starts within the day. */
  function IndexOf(now: int, hour: int): (i: nat)
    requires hour % HOUR_SECONDS == 0 && FirstHour(now) <= hour <= Hour(now)
    ensures i < HoursOf(now) && HourAt(now, i) == hour
  {
    HoursApart(FirstHour(now), hour);
    (hour - FirstHour(now)) / HOUR_SECONDS
  }

  /** The totals of the day's first `done` hours. */
  ghost predicate Summed(rows: seq<Row>, scope: Scope, now: int, done: nat, pnl: real, pending: nat) {
    var t := Scan(rows, scope, BeijingMidnight(now), EndOf(now, done));
    pnl == t.pnl && pending == t.pending
  }

  /** The counts of the day's first `done` hours; the rest are still zero. */
  ghost predicate Filled(rows: seq<Row>, scope: Scope, now: int, done: nat, buckets: seq<HourCount>) {
    && |buckets| == HoursOf(now)
    && forall i: nat | i < |buckets| ::
         buckets[i] == CountOf(HourAt(now, i), if i < done then HourScan(rows, scope, now, HourAt(now, i)) else NoTrades)
  }

  /** None of the day's hours from `at` up to `bound` is stored. */
  ghost predicate Gap(table: Table, scope: Scope, now: int, at: nat, bound: nat) {
    at <= bound <= HoursOf(now) && forall i: nat | at <= i < bound :: Key(scope, HourAt(now, i)) !in table
  }

  /** A timestamp between two of the day's hours lies in one of them. */
  lemma GapIsBetween(now: int, at: nat, bound: nat, timestamp: int)
    requires at <= bound <= HoursOf(now) && HourAt(now, at) * NANOS <= timestamp < HourAt(now, bound) * NANOS
    ensures HourAt(now, at) <= Hour(timestamp) < HourAt(now, bound) && FirstHour(now) <= Hour(timestamp) <= Hour(now)
  {
    var h := Hour(timestamp);
    HoursLater(FirstHour(now), at);
    HoursInOrder(h, HourAt(now, at));
    HoursInOrder(Hour(now), h);
  }

  lemma GapHasNoRows(rows: seq<Row>, table: Table, scope: Scope, now: int, at: nat, bound: nat, r: Row)
    requires Indexed(rows, table) && Gap(table, scope, now, at, bound) && r in rows
    ensures !Counted(r, scope, HourAt(now, at) * NANOS, HourAt(now, bound) * NANOS)
  {
    assert KeyOf(r.trade) in table;
    if HourAt(now, at) * NANOS <= r.trade.timestamp < HourAt(now, bound) * NANOS {
      GapIsBetween(now, at, bound, r.trade.timestamp);
      var i := IndexOf(now, Hour(r.trade.timestamp));
      assert at <= i < bound;
    }
  }

  lemma GapSums(rows: seq<Row>, table: Table, scope: Scope, now: int, at: nat, bound: nat, pnl: real, pending: nat)
    requires Indexed(rows, table) && Gap(table, scope, now, at, bound) && Summed(rows, scope, now, at, pnl, pending)
    ensures Summed(rows, scope, now, bound, pnl, pending)
  {
    forall r | r in rows ensures !Counted(r, scope, EndOf(now, at), EndOf(now, bound)) {
      GapHasNoRows(rows, table, scope, now, at, bound, r);
    }
    ScanNothing(rows, scope, EndOf(now, at), EndOf(now, bound));
    ScanSplit(rows, scope, BeijingMidnight(now), EndOf(now, at), EndOf(now, bound));
  }

  lemma GapFills(rows: seq<Row>, table: Table, scope: Scope, now: int, at: nat, bound: nat, buckets: seq<HourCount>)
    requires Indexed(rows, table) && Gap(table, scope, now, at, bound) && Filled(rows, scope, now, at, buckets)
    ensures Filled(rows, scope, now, bound, buckets)
  {
    forall i: nat | at <= i < bound ensures HourScan(rows, scope, now, HourAt(now, i)) == NoTrades {
      var h := HourAt(now, i);
      assert Gap(table, scope, now, i, i + 1);
      forall r | r in rows ensures !Counted(r, scope, h * NANOS, Min((h + HOUR_SECONDS) * NANOS, now + 1)) {
        GapHasNoRows(rows, table, scope, now, i, i + 1, r);
      }
      ScanNothing(rows, scope, h * NANOS, Min((h + HOUR_SECONDS) * NANOS, now + 1));
    }
  }

  lemma HourSums(rows: seq<Row>, scope: Scope, now: int, i: nat, pnl: real, pending: nat)
    requires Summed(rows, scope, now, i, pnl, pending) && i < HoursOf(now)
    ensures var t := HourScan(rows, scope, now, HourAt(now, i));
      Summed(rows, scope, now, i + 1, pnl + t.pnl, pending + t.pending)
  {
    assert HourAt(now, i + 1) == HourAt(now, i) + HOUR_SECONDS && EndOf(now, i) == HourAt(now, i) * NANOS;
    ScanSplit(rows, scope, BeijingMidnight(now), EndOf(now, i), EndOf(now, i + 1));
  }

  lemma NothingYet(rows: seq<Row>, scope: Scope, now: int, buckets: seq<HourCount>)
    requires |buckets| == HoursOf(now) && forall i: nat | i < |buckets| :: buckets[i] == HourCount(HourAt(now, i), 0, 0)
    ensures Summed(rows, scope, now, 0, 0.0, 0) && Filled(rows, scope, now, 0, buckets)
  {
    ScanNothing(rows, scope, BeijingMidnight(now), EndOf(now, 0));
  }

  /** The hours at index `k` and later are those that start after the first `done` hours of the day. */
  ghost predicate Skipped(hours: seq<int>, k: int, now: int, done: nat) {
    && 0 <= k <= |hours|
    && (forall j | k <= j < |hours| :: HourAt(now, done) <= hours[j])
    && (forall j | 0 <= j < k :: hours[j] < HourAt(now, done))
  }

  lemma SkippedGap(table: Table, scope: Scope, now: int, hours: seq<int>, k: int, done: nat, bound: nat)
    requires hours == HoursBetween(table, scope, FirstHour(now), Hour(now)) && Skipped(hours, k, now, done)
    requires done <= bound <= HoursOf(now) && (k < |hours| ==> HourAt(now, bound) <= hours[k])
    ensures Gap(table, scope, now, done, bound)
  {
    HoursAreSorted(table, scope, FirstHour(now), Hour(now));
    forall i: nat | done <= i < bound ensures Key(scope, HourAt(now, i)) !in table {
      assert forall j | 0 <= j < |hours| :: hours[j] != HourAt(now, i);
    }
  }

  lemma SkippedStep(table: Table, scope: Scope, now: int, hours: seq<int>, k: int, done: nat, index: nat)
    requires hours == HoursBetween(table, scope, FirstHour(now), Hour(now)) && Skipped(hours, k, now, done)
    requires k < |hours| && hours[k] == HourAt(now, index)
    requires forall key | key in table :: key.hour % HOUR_SECONDS == 0
    ensures Skipped(hours, k + 1, now, index + 1) && done <= index
  {
    HoursAreSorted(table, scope, FirstHour(now), Hour(now));
    HoursAreApart(table, scope, now, hours, k);
  }

  /** Stored hours are a whole number of hours apart. */
  lemma HoursAreApart(table: Table, scope: Scope, now: int, hours: seq<int>, k: int)
    requires hours == HoursBetween(table, scope, FirstHour(now), Hour(now)) && 0 <= k < |hours|
    requires forall key | key in table :: key.hour % HOUR_SECONDS == 0
    ensures forall j | k < j < |hours| :: hours[k] + HOUR_SECONDS <= hours[j]
  {
    HoursAreSorted(table, scope, FirstHour(now), Hour(now));
    forall j | k < j < |hours| ensures hours[k] + HOUR_SECONDS <= hours[j] {
      assert hours[k] in hours && hours[j] in hours;
      assert Key(scope, hours[k]) in table && Key(scope, hours[j]) in table;
      HoursInOrder(hours[k], hours[j]);
    }
  }

  lemma NoneSkipped(table: Table, scope: Scope, now: int)
    ensures Skipped(HoursBetween(table, scope, FirstHour(now), Hour(now)), 0, now, 0)
  {
    var hours := HoursBetween(table, scope, FirstHour(now), Hour(now));
    HoursAreSorted(table, scope, FirstHour(now), Hour(now));
    forall j | 0 <= j < |hours| ensures HourAt(now, 0) <= hours[j] {
      assert hours[j] in hours;
    }
  }

  lemma StoredHour(table: Table, scope: Scope, now: int, hours: seq<int>, k: int)
    requires hours == HoursBetween(table, scope, FirstHour(now), Hour(now)) && 0 <= k < |hours|
    ensures FirstHour(now) <= hours[k] <= Hour(now) && Key(scope, hours[k]) in table
  {
    HoursAreSorted(table, scope, FirstHour(now), Hour(now));
    assert hours[k] in hours;
  }

  /** One more stored hour, and the hours without trades before it. */
  lemma HourDone(rows: seq<Row>, table: Table, scope: Scope, now: int, hours: seq<int>, k: int, done: nat, index: nat,
                 value: Tally, buckets: seq<HourCount>, pnl: real, pending: nat)
    requires Indexed(rows, table) && hours == HoursBetween(table, scope, FirstHour(now), Hour(now))
    requires Summed(rows, scope, now, done, pnl, pending) && Filled(rows, scope, now, done, buckets)
    requires Skipped(hours, k, now, done) && k < |hours| && index < HoursOf(now) && hours[k] == HourAt(now, index)
    requires value == HourScan(rows, scope, now, hours[k])
    ensures Summed(rows, scope, now, index + 1, pnl + value.pnl, pending + value.pending)
    ensures Filled(rows, scope, now, index + 1, buckets[index := CountOf(hours[k], value)])
    ensures Skipped(hours, k + 1, now, index + 1)
  {
    SkippedStep(table, scope, now, hours, k, done, index);
    SkippedGap(table, scope, now, hours, k, done, index);
    GapSums(rows, table, scope, now, done, index, pnl, pending);
    GapFills(rows, table, scope, now, done, index, buckets);
    HourSums(rows, scope, now, index, pnl, pending);
  }

  /** The hours without trades after the last stored one complete the statistics. */
  lemma AllHoursDone(rows: seq<Row>, table: Table, scope: Scope, now: int, hours: seq<int>, done: nat,
                     buckets: seq<HourCount>, pnl: real, pending: nat)
    requires Indexed(rows, table) && hours == HoursBetween(table, scope, FirstHour(now), Hour(now)) && done <= HoursOf(now)
    requires Summed(rows, scope, now, done, pnl, pending) && Filled(rows, scope, now, done, buckets)
    requires Skipped(hours, |hours|, now, done)
    ensures var stats := HourlyStats(BeijingMidnight(now), now, buckets, pnl, pending);
      stats == PlainStats(rows, scope, now) && IsStats(rows, scope, now, stats)
  {
    SkippedGap(table, scope, now, hours, |hours|, done, HoursOf(now));
    GapSums(rows, table, scope, now, done, HoursOf(now), pnl, pending);
    GapFills(rows, table, scope, now, done, HoursOf(now), buckets);
    PlainStatsMean(rows, scope, now);
    assert buckets == PlainStats(rows, scope, now).buckets;
  }

  /** A stored hour whose latest trade is not after `now` needs no reading of the rows. */
  lemma StoredHourSuffices(rows: seq<Row>, table: Table, key: Key, now: int)
    requires Indexed(rows, table) && key in table && key.hour * NANOS <= now
    requires table[key].latest.Some? && table[key].latest.value <= now
    ensures table[key] == HourScan(rows, key.scope, now, key.hour)
  {
    var from, to := key.hour * NANOS, (key.hour + HOUR_SECONDS) * NANOS;
    ScanLatest(rows, key.scope, from, to);
    ScanAgree(rows, key.scope, from, to, from, Min(to, now + 1));
  }

  // ---------------------------------------------------------------- one tally, changed in place

  class Rollup {
    var buys: nat
    var sells: nat
    var pnl: real
    var pending: nat
    var latest: Option<int>

    function Value(): Tally
      reads this
    {
      Tally(buys, sells, pnl, pending, latest)
    }

    constructor (from: Tally)
      ensures Value() == from
    {
      buys, sells, pnl, pending, latest := from.buys, from.sells, from.pnl, from.pending, from.latest;
    }

    method Add(timestamp: int, side: Side, amount: real, verified: bool)
      modifies this
      ensures Value() == Added(old(Value()), timestamp, side, amount, verified)
    {
      if side.Buy? {
        buys := buys + 1;
      } else {
        sells := sells + 1;
      }
      if verified {
        pnl := pnl + amount;
      } else {
        pending := pending + 1;
      }
      if latest.None? || latest.value <= timestamp {
        latest := Some(timestamp);
      }
    }

    /** A row adds its profit only once that is verified. */
    method AddRow(r: Row)
      modifies this
      ensures Value() == AddedRow(old(Value()), r)
    {
      Add(r.trade.timestamp, r.trade.side, if r.verified then r.pnl else 0.0, r.verified);
    }
  }

  /** The table `trade_hourly_rollups` and the marker of its backfill. */
  class Rollups {
    var table: Table
    var initialized: bool

    constructor ()
      ensures table == map[] && !initialized
    {
      table, initialized := map[], false;
    }

    constructor FromTables(table: Table, initialized: bool)
      ensures this.table == table && this.initialized == initialized
    {
      this.table, this.initialized := table, initialized;
    }

    method InsertOn(r: Row)
      modifies this`table
      ensures table == Entered(old(table), r)
    {
      var rollup := new Rollup(Stored(table, KeyOf(r.trade)));
      rollup.Add(r.trade.timestamp, r.trade.side, r.pnl, r.verified);
      table := table[KeyOf(r.trade) := rollup.Value()];
    }

    /** Fails, and changes nothing, when the hour has no pending trade. */
    method VerifyOn(trade: Trade, pnl: real) returns (ok: bool)
      modifies this`table
      ensures ok == (Stored(old(table), KeyOf(trade)).pending > 0)
      ensures table == if ok then old(table)[KeyOf(trade) := WithoutPending(Stored(old(table), KeyOf(trade)), pnl)] else old(table)
    {
      var rollup := new Rollup(Stored(table, KeyOf(trade)));
      if rollup.pending == 0 {
        return false;
      }
      rollup.pending := rollup.pending - 1;
      rollup.pnl := rollup.pnl + pnl;
      table := table[KeyOf(trade) := rollup.Value()];
      return true;
    }

    /** The one-time backfill gives every row its hour and every hour its tally; a second run changes nothing. */
    method MigrateOn(rows: seq<Row>) returns (rows': seq<Row>)
      requires initialized ==> Indexed(rows, table)
      modifies this
      ensures initialized && Indexed(rows', table)
      ensures old(initialized) ==> rows' == rows && table == old(table)
      ensures |rows'| == |rows|
      ensures forall i | 0 <= i < |rows| :: rows'[i] == rows[i].(statsHour := Some(Hour(rows[i].trade.timestamp)))
    {
      if initialized {
        assert forall i | 0 <= i < |rows| :: rows[i] in rows;
        return rows;
      }
      table, rows' := map[], [];
      var i := 0;
      while i < |rows|
        invariant 0 <= i == |rows'| <= |rows|
        invariant Indexed(rows', table)
        invariant forall j | 0 <= j < i :: rows'[j] == rows[j].(statsHour := Some(Hour(rows[j].trade.timestamp)))
      {
        var r := rows[i].(statsHour := Some(Hour(rows[i].trade.timestamp)));
        var rollup := new Rollup(Stored(table, KeyOf(r.trade)));
        rollup.AddRow(r);
        EnteredIsIndexed(rows', table, r);
        table := table[KeyOf(r.trade) := rollup.Value()];
        rows' := rows' + [r];
        i := i + 1;
      }
      initialized := true;
    }

    /** The boundary hour read from the rows themselves. */
    method BoundaryHour(rows: seq<Row>, key: Key, windowStart: int, now: int) returns (t: Tally)
      requires Indexed(rows, table) && key.hour % HOUR_SECONDS == 0
      requires windowStart <= key.hour * NANOS
      ensures t == HourScan(rows, key.scope, now, key.hour)
    {
      var rollup := new Rollup(NoTrades);
      ghost var from, to := key.hour * NANOS, Min((key.hour + HOUR_SECONDS) * NANOS, now + 1);
      var i := 0;
      while i < |rows|
        invariant 0 <= i <= |rows|
        invariant rollup.Value() == Scan(rows[..i], key.scope, from, to)
      {
        var r := rows[i];
        assert r in rows;
        HourIsUnique(r.trade.timestamp, key.hour);
        ScanPut(rows[..i], r, key.scope, from, to);
        assert rows[..i + 1] == rows[..i] + [r];
        if ScopeOf(r.trade) == key.scope && r.statsHour == Some(key.hour) && windowStart <= r.trade.timestamp <= now {
          rollup.AddRow(r);
        }
        i := i + 1;
      }
      assert rows[..i] == rows;
      t := rollup.Value();
    }

    /** The stored tally of an hour, or a reading of its rows when some of them may lie after `now`. */
    method HourUpTo(rows: seq<Row>, key: Key, windowStart: int, now: int) returns (value: Tally)
      requires Indexed(rows, table) && key in table
      requires windowStart <= key.hour * NANOS <= now && key.hour <= Hour(now)
      ensures value == HourScan(rows, key.scope, now, key.hour)
    {
      value := table[key];
      if value.latest.Some? && value.latest.value <= now {
        StoredHourSuffices(rows, table, key, now);
      } else {
        value := BoundaryHour(rows, key, windowStart, now);
      }
    }

    /** The statistics read from the index are those of a plain scan, for every `now`, past or future. */
    method StatsOn(rows: seq<Row>, scope: Scope, now: int) returns (stats: HourlyStats)
      requires Indexed(rows, table)
      ensures stats == PlainStats(rows, scope, now) && IsStats(rows, scope, now, stats)
    {
      var windowStart := BeijingMidnight(now);
      var firstHour, lastHour := windowStart / NANOS, Hour(now);
      var buckets := seq((lastHour - firstHour) / HOUR_SECONDS + 1, i => HourCount(firstHour + HOUR_SECONDS * i, 0, 0));
      var pnl: real, pending: nat := 0.0, 0;
      var hours := HoursBetween(table, scope, firstHour, lastHour);
      NothingYet(rows, scope, now, buckets);
      NoneSkipped(table, scope, now);
      ghost var done: nat := 0;
      var k := 0;
      while k < |hours|
        invariant 0 <= k <= |hours| && done <= HoursOf(now)
        invariant Summed(rows, scope, now, done, pnl, pending) && Filled(rows, scope, now, done, buckets)
        invariant Skipped(hours, k, now, done)
      {
        var hour := hours[k];
        StoredHour(table, scope, now, hours, k);
        ghost var index := IndexOf(now, hour);
        var value := HourUpTo(rows, Key(scope, hour), windowStart, now);
        HourDone(rows, table, scope, now, hours, k, done, index, value, buckets, pnl, pending);
        buckets := buckets[(hour - firstHour) / HOUR_SECONDS := HourCount(hour, value.buys, value.sells)];
        pnl, pending := pnl + value.pnl, pending + value.pending;
        done := index + 1;
        k := k + 1;
      }
      AllHoursDone(rows, table, scope, now, hours, done, buckets, pnl, pending);
      stats := HourlyStats(windowStart, now, buckets, pnl, pending);
    }
  }

  // ---------------------------------------------------------------- the day's profit over all scopes

  type Groups = map<Scope, Group>

  function GroupOf(t: Tally): Group {
    Group(t.pnl, t.pending)
  }

  function DayStart(timestamp: int): int {
    timestamp / DAY * DAY
  }

  predicate Grouped(r: Row, start: int, now: int) {
    start <= r.trade.timestamp <= now
  }

  /** There is a group for exactly the scopes that traded in the window, and it holds their totals. */
  ghost predicate GroupsOf(rows: seq<Row>, start: int, now: int, groups: Groups) {
    && (forall r | r in rows && Grouped(r, start, now) :: ScopeOf(r.trade) in groups)
    && (forall scope | scope in groups ::
          groups[scope] == GroupOf(Scan(rows, scope, start, now + 1)) && Traded(rows, start, now, scope))
  }

  /** One more row of the window. */
  function Regrouped(groups: Groups, r: Row): Groups {
    var scope := ScopeOf(r.trade);
    var was := if scope in groups then groups[scope] else Group(0.0, 0);
    groups[scope := if r.verified then was.(pnl := was.pnl + r.pnl) else was.(pending := was.pending + 1)]
  }

  ghost predicate Traded(rows: seq<Row>, start: int, now: int, scope: Scope) {
    exists r :: r in rows && Grouped(r, start, now) && ScopeOf(r.trade) == scope
  }

  lemma TradedPut(rows: seq<Row>, r: Row, start: int, now: int, scope: Scope)
    ensures Traded(rows + [r], start, now, scope)
        <==> Traded(rows, start, now, scope) || (Grouped(r, start, now) && ScopeOf(r.trade) == scope)
  {
    if Traded(rows, start, now, scope) {
      var q :| q in rows && Grouped(q, start, now) && ScopeOf(q.trade) == scope;
      assert q in rows + [r];
    }
    assert r in rows + [r];
  }

  lemma GroupStep(rows: seq<Row>, r: Row, start: int, now: int, groups: Groups)
    requires GroupsOf(rows, start, now, groups) && Grouped(r, start, now)
    ensures GroupsOf(rows + [r], start, now, Regrouped(groups, r))
  {
    var scope, after := ScopeOf(r.trade), Regrouped(groups, r);
    if scope !in groups {
      ScanNothing(rows, scope, start, now + 1);
    }
    forall sc | sc in after
      ensures after[sc] == GroupOf(Scan(rows + [r], sc, start, now + 1)) && Traded(rows + [r], start, now, sc)
    {
      ScanPut(rows, r, sc, start, now + 1);
      TradedPut(rows, r, start, now, sc);
    }
  }

  lemma GroupSkip(rows: seq<Row>, r: Row, start: int, now: int, groups: Groups)
    requires GroupsOf(rows, start, now, groups) && !Grouped(r, start, now)
    ensures GroupsOf(rows + [r], start, now, groups)
  {
    forall sc | sc in groups
      ensures Scan(rows + [r], sc, start, now + 1) == Scan(rows, sc, start, now + 1) && Traded(rows + [r], start, now, sc)
    {
      ScanPut(rows, r, sc, start, now + 1);
      TradedPut(rows, r, start, now, sc);
    }
  }

  method AddToGroup(groups: Groups, r: Row) returns (after: Groups)
    ensures after == Regrouped(groups, r)
  {
    var scope := ScopeOf(r.trade);
    var group := if scope in groups then groups[scope] else Group(0.0, 0);
    if r.verified {
      after := groups[scope := group.(pnl := group.pnl + r.pnl)];
    } else {
      after := groups[scope := group.(pending := group.pending + 1)];
    }
  }

  lemma DatesCoverDay(start: int, now: int, timestamp: int)
    requires start <= timestamp <= now
    ensures DayStart(start) <= timestamp < DayStart(now + DAY)
  {
    assert DayStart(now + DAY) == DayStart(now) + DAY;
  }

  /** What the groups say of every scope. */
  ghost predicate AreGroups(rows: seq<Row>, start: int, now: int, groups: Groups) {
    forall scope ::
      && (scope in groups <==>
            exists r :: r in rows && r.trade.symbol == scope.symbol && r.trade.mode == scope.mode && start <= r.trade.timestamp <= now)
      && (scope in groups ==>
            && groups[scope].pnl == Sum(ProfitsAt(rows, scope, start, now + 1), Amount)
            && groups[scope].pending == |PendingAt(rows, scope, start, now + 1)|)
  }

  lemma GroupsMean(rows: seq<Row>, start: int, now: int, groups: Groups)
    requires GroupsOf(rows, start, now, groups)
    ensures AreGroups(rows, start, now, groups)
  {
    forall scope | scope in groups
      ensures groups[scope].pnl == Sum(ProfitsAt(rows, scope, start, now + 1), Amount)
      ensures groups[scope].pending == |PendingAt(rows, scope, start, now + 1)|
    {
      ScanCounts(rows, scope, start, now + 1);
      ScanProfit(rows, scope, start, now + 1);
    }
    forall r | r in rows && start <= r.trade.timestamp <= now ensures ScopeOf(r.trade) in groups {
      assert Grouped(r, start, now);
    }
  }

  /** The day's groups; the query's range of dates leaves no row of the window out. */
  method TodayPnl(rows: seq<Row>, now: int) returns (groups: Groups)
    ensures GroupsOf(rows, BeijingMidnight(now), now, groups) && AreGroups(rows, BeijingMidnight(now), now, groups)
  {
    var start := BeijingMidnight(now);
    groups := map[];
    var i := 0;
    while i < |rows|
      invariant 0 <= i <= |rows|
      invariant GroupsOf(rows[..i], start, now, groups)
    {
      var r := rows[i];
      assert rows[..i + 1] == rows[..i] + [r];
      if start <= r.trade.timestamp <= now {
        DatesCoverDay(start, now, r.trade.timestamp);
      }
      if DayStart(start) <= r.trade.timestamp < DayStart(now + DAY) && start <= r.trade.timestamp <= now {
        GroupStep(rows[..i], r, start, now, groups);
        groups := AddToGroup(groups, r);
      } else {
        GroupSkip(rows[..i], r, start, now, groups);
      }
      i := i + 1;
    }
    assert rows[..i] == rows;
    GroupsMean(rows, start, now, groups);
  }

  /** Both ways agree: the index gives each scope the profit and pending count of its group, and zero to the others. */
  lemma StatsAgreeWithGroups(rows: seq<Row>, now: int, groups: Groups, scope: Scope)
    requires GroupsOf(rows, BeijingMidnight(now), now, groups)
    ensures var stats := PlainStats(rows, scope, now);
      Group(stats.pnl, stats.pending) == if scope in groups then groups[scope] else Group(0.0, 0)
  {
    if scope !in groups {
      ScanNothing(rows, scope, BeijingMidnight(now), now + 1);
    }
  }
}
