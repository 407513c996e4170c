/** The trade table, and the plain scan of it that every aggregate is measured against. */
module Trades {
  import opened Basics
  import opened MapSum

  datatype Mode = Paper | Live | Unknown

  /** The part of a saved trade that nothing changes. Timestamps are nanoseconds. */
  datatype Trade = Trade(
    tradeId: string, clientId: string, symbol: string, mode: Mode,
    side: Side, price: real, quantity: real, timestamp: int)

  /** A row of `trades`; `statsHour` is absent from rows older than the hourly index. */
  datatype Row = Row(trade: Trade, pnl: real, commission: real, maker: bool, verified: bool, statsHour: Option<int>)

  const NANOS: int := 1_000_000_000
  const HOUR_SECONDS: int := 3600
  const DAY: int := 24 * 3600 * NANOS
  const BEIJING_OFFSET: int := 8 * 3600 * NANOS

  /** The second at which the hour of a timestamp starts. */
  function Hour(timestamp: int): (h: int)
    ensures h % HOUR_SECONDS == 0
    ensures h * NANOS <= timestamp < (h + HOUR_SECONDS) * NANOS
  {
    timestamp / NANOS / HOUR_SECONDS * HOUR_SECONDS
  }

  /** A whole number of days less the offset is a whole number of hours. */
  lemma MidnightIsOnTheHour(days: int)
    ensures (days * DAY - BEIJING_OFFSET) / NANOS == (24 * days - 8) * HOUR_SECONDS
    ensures (days * DAY - BEIJING_OFFSET) % NANOS == 0
  {
    var seconds := (24 * days - 8) * HOUR_SECONDS;
    assert days * DAY - BEIJING_OFFSET == seconds * NANOS;
  }

  /** The latest midnight at UTC+8 that is not after `now`. */
  function BeijingMidnight(now: int): (midnight: int)
    ensures midnight <= now < midnight + DAY
    ensures midnight % DAY == DAY - BEIJING_OFFSET
    ensures midnight % NANOS == 0 && midnight / NANOS % HOUR_SECONDS == 0
  {
    MidnightIsOnTheHour((now + BEIJING_OFFSET) / DAY);
    (now + BEIJING_OFFSET) / DAY * DAY - BEIJING_OFFSET
  }

  /** Counts and sums over some trades. */
  datatype Tally = Tally(buys: nat, sells: nat, pnl: real, pending: nat, latest: Option<int>)

  const NoTrades: Tally := Tally(0, 0, 0.0, 0, None)

  /** Unverified profit is not counted, only the fact that it is pending. */
  function Added(t: Tally, timestamp: int, side: Side, pnl: real, verified: bool): Tally {
    Tally(
      t.buys + (if side.Buy? then 1 else 0),
      t.sells + (if side.Sell? then 1 else 0),
      if verified then t.pnl + pnl else t.pnl,
      if verified then t.pending else t.pending + 1,
      Some(if t.latest.Some? && t.latest.value > timestamp then t.latest.value else timestamp))
  }

  function AddedRow(t: Tally, r: Row): Tally {
    Added(t, r.trade.timestamp, r.trade.side, r.pnl, r.verified)
  }

  /** One symbol in one mode. */
  datatype Scope = Scope(symbol: string, mode: Mode)

  function ScopeOf(t: Trade): Scope {
    Scope(t.symbol, t.mode)
  }

  predicate Counted(r: Row, scope: Scope, from: int, to: int) {
    r.trade.symbol == scope.symbol && r.trade.mode == scope.mode && from <= r.trade.timestamp < to
  }

  /** The plain scan: the rows of `scope` with `from <= timestamp < to`. */
  function Scan(rows: seq<Row>, scope: Scope, from: int, to: int): Tally {
    if rows == [] then NoTrades
    else
      var t := Scan(rows[..|rows| - 1], scope, from, to);
      var r := rows[|rows| - 1];
      if Counted(r, scope, from, to) then AddedRow(t, r) else t
  }

  // ---------------------------------------------------------------- what a scan means

  function BuysAt(rows: seq<Row>, scope: Scope, from: int, to: int): set<int> {
    set i | 0 <= i < |rows| && Counted(rows[i], scope, from, to) && rows[i].trade.side.Buy?
  }

  function SellsAt(rows: seq<Row>, scope: Scope, from: int, to: int): set<int> {
    set i | 0 <= i < |rows| && Counted(rows[i], scope, from, to) && rows[i].trade.side.Sell?
  }

  function PendingAt(rows: seq<Row>, scope: Scope, from: int, to: int): set<int> {
    set i | 0 <= i < |rows| && Counted(rows[i], scope, from, to) && !rows[i].verified
  }

  lemma BuysStep(init: seq<Row>, r: Row, scope: Scope, from: int, to: int)
    ensures |BuysAt(init + [r], scope, from, to)|
         == |BuysAt(init, scope, from, to)| + (if Counted(r, scope, from, to) && r.trade.side.Buy? then 1 else 0)
  {
    var rows := init + [r];
    assert forall i | 0 <= i < |init| :: rows[i] == init[i];
    SetStep(BuysAt(init, scope, from, to), BuysAt(rows, scope, from, to), |init|);
  }

  lemma SellsStep(init: seq<Row>, r: Row, scope: Scope, from: int, to: int)
    ensures |SellsAt(init + [r], scope, from, to)|
         == |SellsAt(init, scope, from, to)| + (if Counted(r, scope, from, to) && r.trade.side.Sell? then 1 else 0)
  {
    var rows := init + [r];
    assert forall i | 0 <= i < |init| :: rows[i] == init[i];
    SetStep(SellsAt(init, scope, from, to), SellsAt(rows, scope, from, to), |init|);
  }

  lemma PendingStep(init: seq<Row>, r: Row, scope: Scope, from: int, to: int)
    ensures |PendingAt(init + [r], scope, from, to)|
         == |PendingAt(init, scope, from, to)| + (if Counted(r, scope, from, to) && !r.verified then 1 else 0)
  {
    var rows := init + [r];
    assert forall i | 0 <= i < |init| :: rows[i] == init[i];
    SetStep(PendingAt(init, scope, from, to), PendingAt(rows, scope, from, to), |init|);
  }

  /** The counts are numbers of rows. */
  lemma {:induction false} ScanCounts(rows: seq<Row>, scope: Scope, from: int, to: int)
    ensures var t := Scan(rows, scope, from, to);
      && t.buys == |BuysAt(rows, scope, from, to)|
      && t.sells == |SellsAt(rows, scope, from, to)|
      && t.pending == |PendingAt(rows, scope, from, to)|
  {
    if rows != [] {
      var init, r := rows[..|rows| - 1], rows[|rows| - 1];
      assert rows == init + [r];
      ScanCounts(init, scope, from, to);
      BuysStep(init, r, scope, from, to);
      SellsStep(init, r, scope, from, to);
      PendingStep(init, r, scope, from, to);
    }
  }

  const Amount: real -> real := (amount: real) => amount

  /** The verified profits of the counted rows, each under its row's number. */
  ghost function ProfitsAt(rows: seq<Row>, scope: Scope, from: int, to: int): map<int, real> {
    map i | 0 <= i < |rows| && Counted(rows[i], scope, from, to) && rows[i].verified :: rows[i].pnl
  }

  lemma ProfitsStep(init: seq<Row>, r: Row, scope: Scope, from: int, to: int)
    ensures ProfitsAt(init + [r], scope, from, to) ==
      if Counted(r, scope, from, to) && r.verified then ProfitsAt(init, scope, from, to)[|init| := r.pnl]
      else ProfitsAt(init, scope, from, to)
  {
    var rows := init + [r];
    assert forall i | 0 <= i < |init| :: rows[i] == init[i];
  }

  /** The profit is the sum over the verified rows of the window. */
  lemma {:induction false} ScanProfit(rows: seq<Row>, scope: Scope, from: int, to: int)
    ensures Scan(rows, scope, from, to).pnl == Sum(ProfitsAt(rows, scope, from, to), Amount)
  {
    if rows == [] {
      SumEmpty(ProfitsAt(rows, scope, from, to), Amount);
    } else {
      var init, r := rows[..|rows| - 1], rows[|rows| - 1];
      assert rows == init + [r];
      ScanProfit(init, scope, from, to);
      ProfitsStep(init, r, scope, from, to);
      SumPut(ProfitsAt(init, scope, from, to), |init|, r.pnl, Amount);
    }
  }

  lemma SetStep(a: set<int>, b: set<int>, n: int)
    requires n !in a && b - {n} == a
    ensures |b| == |a| + (if n in b then 1 else 0)
  {
    assert b == if n in b then a + {n} else a;
  }

  lemma {:induction false} ScanLatest(rows: seq<Row>, scope: Scope, from: int, to: int)
    ensures var t := Scan(rows, scope, from, to);
      && (forall r | r in rows && Counted(r, scope, from, to) :: t.latest.Some? && r.trade.timestamp <= t.latest.value)
      && (t.latest.Some? ==> exists r :: r in rows && Counted(r, scope, from, to) && r.trade.timestamp == t.latest.value)
  {
    if rows != [] {
      var init, last := rows[..|rows| - 1], rows[|rows| - 1];
      ScanLatest(init, scope, from, to);
      assert rows == init + [last];
      var t := Scan(init, scope, from, to);
      if t.latest.Some? {
        var r :| r in init && Counted(r, scope, from, to) && r.trade.timestamp == t.latest.value;
        assert r in rows;
      }
      assert last in rows;
    }
  }

  /** Scans that count the same rows agree. */
  lemma {:induction false} ScanAgree(rows: seq<Row>, scope: Scope, from: int, to: int, from': int, to': int)
    requires forall r | r in rows :: Counted(r, scope, from, to) == Counted(r, scope, from', to')
    ensures Scan(rows, scope, from, to) == Scan(rows, scope, from', to')
  {
    if rows != [] {
      ScanAgree(rows[..|rows| - 1], scope, from, to, from', to');
    }
  }

  lemma ScanNothing(rows: seq<Row>, scope: Scope, from: int, to: int)
    requires forall r | r in rows :: !Counted(r, scope, from, to)
    ensures Scan(rows, scope, from, to) == NoTrades
  {
    if rows != [] {
      ScanNothing(rows[..|rows| - 1], scope, from, to);
    }
  }

  /** Two adjacent windows. */
  lemma {:induction false} ScanSplit(rows: seq<Row>, scope: Scope, from: int, at: int, to: int)
    requires from <= at <= to
    ensures var a, b, all := Scan(rows, scope, from, at), Scan(rows, scope, at, to), Scan(rows, scope, from, to);
      && all.buys == a.buys + b.buys && all.sells == a.sells + b.sells
      && all.pnl == a.pnl + b.pnl && all.pending == a.pending + b.pending
  {
    if rows != [] {
      ScanSplit(rows[..|rows| - 1], scope, from, at, to);
    }
  }

  lemma ScanPut(rows: seq<Row>, r: Row, scope: Scope, from: int, to: int)
    ensures Scan(rows + [r], scope, from, to) ==
      if Counted(r, scope, from, to) then AddedRow(Scan(rows, scope, from, to), r) else Scan(rows, scope, from, to)
  {
    assert (rows + [r])[..|rows|] == rows;
  }

  /** A pending trade that is verified moves from the pending count to the profit. */
  lemma {:induction false} ScanVerify(rows: seq<Row>, i: nat, r: Row, scope: Scope, from: int, to: int)
    requires i < |rows| && !rows[i].verified && r.verified && r.trade == rows[i].trade
    ensures var was, now := Scan(rows, scope, from, to), Scan(rows[i := r], scope, from, to);
      if Counted(r, scope, from, to)
      then was.pending > 0 && now == was.(pending := was.pending - 1, pnl := was.pnl + r.pnl)
      else now == was
  {
    var n := |rows| - 1;
    if i == n {
      assert rows[i := r][..n] == rows[..n];
    } else {
      assert rows[i := r][..n] == rows[..n][i := r];
      ScanVerify(rows[..n], i, r, scope, from, to);
    }
  }
}
