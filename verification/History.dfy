/**
 The saved trade history and what survives its deletion: inserts, verifications and clears of the trade
 table together with the cleared ids, the execution frontiers and the pair openings kept for recovery.
 */
module History {
  import opened Basics
  import opened Trades
  import opened Hourly
  import opened Revisions
  import opened Sequences

  datatype OrderId = OrderId(clientId: string, mode: Mode)

  datatype OrderKey = OrderKey(symbol: string, order: OrderId)

  datatype Frontier = Frontier(side: Side, price: real, timestamp: int)

  datatype Opening = Opening(side: Side, price: real, quantity: real)

  /** The tables and revision counters; `accepted` is history: every trade ever inserted, in order. */
  datatype Db = Db(
    rows: seq<Row>, cleared: map<string, OrderId>, frontiers: map<Scope, Frontier>, openings: map<OrderKey, Opening>,
    rollups: Table, data: Revisions, clears: Revisions, accepted: seq<Trade>)

  /** `Reopen` ends the process and starts another on the same tables. */
  datatype Step = Insert(row: Row) | Clear(symbol: Option<string>) | Verify(row: Row, expected: nat) | Reopen

  // ---------------------------------------------------------------- queries over sequences

  /** `ORDER BY timestamp DESC, rowid DESC LIMIT 1`: the latest, and among equals the last one inserted. */
  function Newest(s: seq<Trade>): Option<Trade> {
    if s == [] then None else Later(Newest(s[..|s| - 1]), Some(s[|s| - 1]))
  }

  function Later(a: Option<Trade>, b: Option<Trade>): Option<Trade> {
    if b.None? || (a.Some? && a.value.timestamp > b.value.timestamp) then a else b
  }

  function OrderOf(t: Trade): OrderId {
    OrderId(t.clientId, t.mode)
  }

  function OrderKeyOf(t: Trade): OrderKey {
    OrderKey(t.symbol, OrderOf(t))
  }

  function InScope(scope: Scope): Trade -> bool {
    (t: Trade) => ScopeOf(t) == scope
  }

  function OfOrder(key: OrderKey): Trade -> bool {
    (t: Trade) => OrderKeyOf(t) == key
  }

  predicate Selects(symbol: Option<string>, t: Trade) {
    symbol.None? || symbol.value == t.symbol
  }

  function Plain(rows: seq<Row>): seq<Trade> {
    seq(|rows|, i requires 0 <= i < |rows| => rows[i].trade)
  }

  function IdsOf(rows: seq<Row>): set<string> {
    set r | r in rows :: r.trade.tradeId
  }

  // ---------------------------------------------------------------- insert

  predicate IsCleared(db: Db, t: Trade) {
    t.tradeId in db.cleared || exists id :: id in db.cleared && db.cleared[id] == OrderOf(t)
  }

  function Inserted(db: Db, row: Row): (bool, Db) {
    if IsCleared(db, row.trade) || row.trade.tradeId in IdsOf(db.rows) then (false, db)
    else
      var r := row.(statsHour := Some(Hour(row.trade.timestamp)));
      (true, db.(rows := db.rows + [r], rollups := Entered(db.rollups, r), accepted := db.accepted + [row.trade],
                 data := Applied(db.data, Publish(row.trade.symbol))))
  }

  // ---------------------------------------------------------------- clear

  function FrontierOf(t: Trade): Frontier {
    Frontier(t.side, t.price, t.timestamp)
  }

  function OpeningOf(t: Trade): Opening {
    Opening(t.side, t.price, t.quantity)
  }

  /** The upsert of a scope's frontier by the newest of the trades that are cleared. */
  function MergedFrontier(rows: seq<Row>, frontiers: map<Scope, Frontier>, symbol: Option<string>, scope: Scope): Option<Frontier> {
    var newest := if symbol.None? || symbol.value == scope.symbol then Newest(Filter(Plain(rows), InScope(scope))) else None;
    if newest.None? then (if scope in frontiers then Some(frontiers[scope]) else None)
    else if scope in frontiers && newest.value.timestamp < frontiers[scope].timestamp then Some(frontiers[scope])
    else Some(FrontierOf(newest.value))
  }

  /** `INSERT OR IGNORE`: an opening that is already kept stays. */
  function MergedOpening(rows: seq<Row>, openings: map<OrderKey, Opening>, symbol: Option<string>, key: OrderKey): Option<Opening> {
    var newest := if symbol.None? || symbol.value == key.symbol then Newest(Filter(Plain(rows), OfOrder(key))) else None;
    if key in openings then Some(openings[key])
    else if newest.Some? then Some(OpeningOf(newest.value))
    else None
  }

  function MergedFrontiers(rows: seq<Row>, frontiers: map<Scope, Frontier>, symbol: Option<string>): map<Scope, Frontier> {
    var scopes := frontiers.Keys + set r | r in rows :: ScopeOf(r.trade);
    map scope | scope in scopes && MergedFrontier(rows, frontiers, symbol, scope).Some? ::
      MergedFrontier(rows, frontiers, symbol, scope).value
  }

  function MergedOpenings(rows: seq<Row>, openings: map<OrderKey, Opening>, symbol: Option<string>): map<OrderKey, Opening> {
    var keys := openings.Keys + set r | r in rows :: OrderKeyOf(r.trade);
    map key | key in keys && MergedOpening(rows, openings, symbol, key).Some? :: MergedOpening(rows, openings, symbol, key).value
  }

  function MergedIds(rows: seq<Row>, cleared: map<string, OrderId>, symbol: Option<string>): map<string, OrderId> {
    map id | id in cleared.Keys + IdsOf(Filter(rows, Selected(symbol))) ::
      if id in cleared then cleared[id] else OrderWithId(rows, id)
  }

  function Selected(symbol: Option<string>): Row -> bool {
    (r: Row) => Selects(symbol, r.trade)
  }

  function Unselected(symbol: Option<string>): Row -> bool {
    (r: Row) => !Selects(symbol, r.trade)
  }

  /** The order of the row with a trade id, the primary key of `trades`. */
  function OrderWithId(rows: seq<Row>, id: string): OrderId {
    if rows == [] then OrderId("", Unknown)
    else if rows[0].trade.tradeId == id then OrderOf(rows[0].trade)
    else OrderWithId(rows[1..], id)
  }

  function KeptHours(table: Table, symbol: Option<string>): Table {
    map k | k in table && symbol.Some? && k.scope.symbol != symbol.value :: table[k]
  }

  function EventOf(symbol: Option<string>): Event {
    if symbol.Some? then Publish(symbol.value) else ClearAll
  }

  function Cleared(db: Db, symbol: Option<string>): Db {
    Db(Filter(db.rows, Unselected(symbol)), MergedIds(db.rows, db.cleared, symbol),
       MergedFrontiers(db.rows, db.frontiers, symbol), MergedOpenings(db.rows, db.openings, symbol),
       KeptHours(db.rollups, symbol), Applied(db.data, EventOf(symbol)), Applied(db.clears, EventOf(symbol)), db.accepted)
  }

  // ---------------------------------------------------------------- verify

  datatype Outcome = Updated | Unchanged | MissingPending

  predicate Pending(r: Row, id: string, mode: Mode) {
    r.trade.tradeId == id && r.trade.mode == mode && !r.verified
  }

  function PendingIndex(rows: seq<Row>, id: string, mode: Mode): (i: Option<nat>)
    ensures i.Some? ==> i.value < |rows| && Pending(rows[i.value], id, mode)
    ensures i.None? ==> forall r | r in rows :: !Pending(r, id, mode)
  {
    if rows == [] then None
    else if Pending(rows[|rows| - 1], id, mode) then Some(|rows| - 1)
    else PendingIndex(rows[..|rows| - 1], id, mode)
  }

  function VerifiedRow(saved: Row, row: Row): Row {
    saved.(pnl := row.pnl, commission := row.commission, maker := row.maker, verified := true)
  }

  function Verified(db: Db, row: Row, expected: nat): (Outcome, Db) {
    var i := PendingIndex(db.rows, row.trade.tradeId, row.trade.mode);
    if i.None? then (Unchanged, db)
    else
      var saved := db.rows[i.value];
      var key := KeyOf(saved.trade);
      if ForSymbol(db.clears, saved.trade.symbol) != expected then (Unchanged, db)
      else if Stored(db.rollups, key).pending == 0 then (MissingPending, db)
      else
        (Updated, db.(rows := db.rows[i.value := VerifiedRow(saved, row)],
                      rollups := db.rollups[key := WithoutPending(Stored(db.rollups, key), row.pnl)],
                      data := Applied(db.data, Publish(saved.trade.symbol))))
  }

  /** The tables are durable and already indexed; the revision counters start again. */
  function Reopened(db: Db): Db {
    db.(data := NoRevisions, clears := NoRevisions)
  }

  function Apply(db: Db, step: Step): Db {
    match step
    case Insert(row) => Inserted(db, row).1
    case Clear(symbol) => Cleared(db, symbol)
    case Verify(row, expected) => Verified(db, row, expected).1
    case Reopen => Reopened(db)
  }

  // ---------------------------------------------------------------- questions

  datatype LastFill = NoFill | Fill(side: Side, price: real) | InvalidPrice

  function FillOf(f: Option<Frontier>): LastFill {
    if f.None? then NoFill
    else if f.value.price > 0.0 then Fill(f.value.side, f.value.price)
    else InvalidPrice
  }

  /** The newest live trade, which wins a tie, or the kept frontier. */
  function LastFillFor(db: Db, scope: Scope): LastFill {
    var live := Newest(Filter(Plain(db.rows), InScope(scope)));
    if live.Some? && (scope !in db.frontiers || live.value.timestamp >= db.frontiers[scope].timestamp)
    then FillOf(Some(FrontierOf(live.value)))
    else FillOf(if scope in db.frontiers then Some(db.frontiers[scope]) else None)
  }

  predicate HasRecordedOrder(db: Db, order: OrderId) {
    || (exists r :: r in db.rows && OrderOf(r.trade) == order)
    || (exists id :: id in db.cleared && db.cleared[id] == order)
  }

  /** The trade is a fill of the order of that symbol, client id and mode. */
  predicate IsFillOf(t: Trade, key: OrderKey) {
    t.symbol == key.symbol && t.clientId == key.order.clientId && t.mode == key.order.mode
  }

  predicate LatestOfOrder(trades: seq<Trade>, key: OrderKey, t: Trade) {
    && t in trades && IsFillOf(t, key)
    && forall u | u in trades && IsFillOf(u, key) :: u.timestamp <= t.timestamp
  }

  /** What the query may answer: live trades first, latest first, in no fixed order among equals. */
  ghost predicate IsPairOpening(db: Db, key: OrderKey, answer: Option<Opening>) {
    if exists r :: r in db.rows && IsFillOf(r.trade, key)
    then answer.Some? && exists t :: LatestOfOrder(Plain(db.rows), key, t) && answer.value == Opening(t.side, t.price, t.quantity)
    else answer == if key in db.openings then Some(db.openings[key]) else None
  }

  // ---------------------------------------------------------------- what every run keeps

  predicate Distinct(trades: seq<Trade>) {
    forall i, j | 0 <= i < j < |trades| :: trades[i].tradeId != trades[j].tradeId
  }

  function NotIn(ids: set<string>): Trade -> bool {
    (t: Trade) => t.tradeId !in ids
  }

  function GoneFrom(ids: set<string>, scope: Scope): Trade -> bool {
    (t: Trade) => t.tradeId in ids && ScopeOf(t) == scope
  }

  function GoneOf(ids: set<string>, key: OrderKey): Trade -> bool {
    (t: Trade) => t.tradeId in ids && OrderKeyOf(t) == key
  }

  /** Of one symbol, the trades accepted first are the ones cleared. */
  ghost predicate ClearedFirst(accepted: seq<Trade>, ids: set<string>) {
    forall i, j | 0 <= i < j < |accepted| && accepted[i].symbol == accepted[j].symbol && accepted[j].tradeId in ids ::
      accepted[i].tradeId in ids
  }

  /** The trades of one order are cleared together. */
  ghost predicate OrdersWhole(accepted: seq<Trade>, ids: set<string>) {
    forall t, u | t in accepted && u in accepted && OrderKeyOf(t) == OrderKeyOf(u) && t.tradeId in ids :: u.tradeId in ids
  }

  /** The cleared ids are ids of accepted trades, filed under their orders. */
  ghost predicate IdsOk(accepted: seq<Trade>, cleared: map<string, OrderId>) {
    && (forall t | t in accepted && t.tradeId in cleared :: cleared[t.tradeId] == OrderOf(t))
    && (forall id | id in cleared :: exists t :: t in accepted && t.tradeId == id)
  }

  function KeptFrontier(db: Db, scope: Scope): Option<Frontier> {
    if scope in db.frontiers then Some(db.frontiers[scope]) else None
  }

  function KeptOpening(db: Db, key: OrderKey): Option<Opening> {
    if key in db.openings then Some(db.openings[key]) else None
  }

  function FrontierIn(t: Option<Trade>): Option<Frontier> {
    if t.Some? then Some(FrontierOf(t.value)) else None
  }

  function OpeningIn(t: Option<Trade>): Option<Opening> {
    if t.Some? then Some(OpeningOf(t.value)) else None
  }

  ghost predicate FrontiersOk(db: Db) {
    forall scope :: KeptFrontier(db, scope) == FrontierIn(Newest(Filter(db.accepted, GoneFrom(db.cleared.Keys, scope))))
  }

  ghost predicate OpeningsOk(db: Db) {
    forall key :: KeptOpening(db, key) == OpeningIn(Newest(Filter(db.accepted, GoneOf(db.cleared.Keys, key))))
  }

  ghost predicate LogOk(db: Db) {
    && Distinct(db.accepted)
    && Plain(db.rows) == Filter(db.accepted, NotIn(db.cleared.Keys))
    && IdsOk(db.accepted, db.cleared)
    && ClearedFirst(db.accepted, db.cleared.Keys)
    && OrdersWhole(db.accepted, db.cleared.Keys)
  }

  /** What the tables satisfy on their own, indexed or not. */
  ghost predicate StoredOk(db: Db) {
    LogOk(db) && FrontiersOk(db) && OpeningsOk(db)
  }

  ghost predicate Inv(db: Db) {
    LogOk(db) && FrontiersOk(db) && OpeningsOk(db) && Indexed(db.rows, db.rollups) && Bounded(db.clears) && Bounded(db.data)
  }

  // ---------------------------------------------------------------- orders and filters

  lemma PlainPut(rows: seq<Row>, r: Row)
    ensures Plain(rows + [r]) == Plain(rows) + [r.trade]
  {
  }

  lemma {:induction false} PlainFilter(rows: seq<Row>, p: Row -> bool, q: Trade -> bool)
    requires forall r | r in rows :: p(r) == q(r.trade)
    ensures Plain(Filter(rows, p)) == Filter(Plain(rows), q)
  {
    if rows != [] {
      var init, r := rows[..|rows| - 1], rows[|rows| - 1];
      assert rows == init + [r];
      PlainFilter(init, p, q);
      PlainPut(init, r);
      PlainPut(Filter(init, p), r);
      FilterPut(Plain(init), r.trade, q);
    }
  }

  lemma PlainMember(rows: seq<Row>, t: Trade)
    ensures t in Plain(rows) <==> exists r :: r in rows && r.trade == t
  {
    if t in Plain(rows) {
      var i :| 0 <= i < |rows| && Plain(rows)[i] == t;
      assert rows[i] in rows;
    }
    if r :| r in rows && r.trade == t {
      var i :| 0 <= i < |rows| && rows[i] == r;
      assert Plain(rows)[i] == t;
    }
  }

  lemma {:induction false} NewestJoin(a: seq<Trade>, b: seq<Trade>)
    ensures Newest(a + b) == Later(Newest(a), Newest(b))
  {
    if b == [] {
      assert a + b == a;
    } else {
      NewestJoin(a, b[..|b| - 1]);
      assert (a + b)[..|a + b| - 1] == a + b[..|b| - 1];
    }
  }

  /** Trade `i` is later than every other, or as late and accepted after it. */
  ghost predicate NewestAt(s: seq<Trade>, i: int) {
    && 0 <= i < |s|
    && forall j | 0 <= j < |s| :: s[j].timestamp < s[i].timestamp || (s[j].timestamp == s[i].timestamp && j <= i)
  }

  lemma {:induction false} NewestMeans(s: seq<Trade>) returns (i: int)
    requires s != []
    ensures NewestAt(s, i) && Newest(s) == Some(s[i])
  {
    var init := s[..|s| - 1];
    i := |s| - 1;
    if init != [] {
      var j := NewestMeans(init);
      if s[j].timestamp > s[i].timestamp {
        i := j;
      }
    }
  }

  lemma NoneLive(trades: seq<Trade>, ids: set<string>, scope: Scope)
    requires forall u | u in trades && ScopeOf(u) == scope :: u.tradeId in ids
    ensures Filter(Filter(trades, NotIn(ids)), InScope(scope)) == []
  {
    FilterMeans(trades, NotIn(ids));
    FilterMeans(Filter(trades, NotIn(ids)), InScope(scope));
    EmptyOrMember(Filter(Filter(trades, NotIn(ids)), InScope(scope)));
  }

  lemma ClearedBefore(init: seq<Trade>, t: Trade, ids: set<string>, u: Trade)
    requires ClearedFirst(init + [t], ids) && t.tradeId in ids && u in init && u.symbol == t.symbol
    ensures u.tradeId in ids
  {
    var i :| 0 <= i < |init| && init[i] == u;
    assert (init + [t])[i] == u && (init + [t])[|init|] == t;
  }

  function Live(trades: seq<Trade>, ids: set<string>, scope: Scope): seq<Trade> {
    Filter(Filter(trades, NotIn(ids)), InScope(scope))
  }

  /** A live trade of the scope is put at the end, any other at none. */
  lemma LivePut(init: seq<Trade>, t: Trade, ids: set<string>, scope: Scope)
    ensures Live(init + [t], ids, scope) ==
      if t.tradeId !in ids && ScopeOf(t) == scope then Live(init, ids, scope) + [t] else Live(init, ids, scope)
  {
    FilterPut(init, t, NotIn(ids));
    FilterPut(Filter(init, NotIn(ids)), t, InScope(scope));
  }

  lemma NoneLiveBefore(init: seq<Trade>, t: Trade, ids: set<string>, scope: Scope)
    requires ClearedFirst(init + [t], ids) && t.tradeId in ids && ScopeOf(t) == scope
    ensures Live(init, ids, scope) == []
  {
    forall u | u in init && ScopeOf(u) == scope ensures u.tradeId in ids {
      ClearedBefore(init, t, ids, u);
    }
    NoneLive(init, ids, scope);
  }

  /** One more element at the end of the join, which is the end of the second part unless that is empty. */
  lemma JoinPut(all: seq<Trade>, gone: seq<Trade>, live: seq<Trade>, t: Trade)
    requires all == gone + live
    ensures all + [t] == gone + (live + [t])
    ensures live == [] ==> all + [t] == (gone + [t]) + live
  {
  }

  /** The trades of a scope are the cleared ones followed by the live ones. */
  lemma {:induction false} ScopeSplits(accepted: seq<Trade>, ids: set<string>, scope: Scope)
    requires ClearedFirst(accepted, ids)
    ensures Filter(accepted, InScope(scope)) == Filter(accepted, GoneFrom(ids, scope)) + Live(accepted, ids, scope)
  {
    if accepted != [] {
      var init, t := accepted[..|accepted| - 1], accepted[|accepted| - 1];
      assert accepted == init + [t];
      ScopeSplits(init, ids, scope);
      FilterPut(init, t, InScope(scope));
      FilterPut(init, t, GoneFrom(ids, scope));
      LivePut(init, t, ids, scope);
      if t.tradeId in ids && ScopeOf(t) == scope {
        NoneLiveBefore(init, t, ids, scope);
      }
      JoinPut(Filter(init, InScope(scope)), Filter(init, GoneFrom(ids, scope)), Live(init, ids, scope), t);
    }
  }

  // ---------------------------------------------------------------- insert keeps the invariant

  /** An id that is neither cleared nor live was never accepted. */
  lemma NewIdIsNew(db: Db, t: Trade)
    requires LogOk(db) && !IsCleared(db, t) && t.tradeId !in IdsOf(db.rows)
    ensures forall u | u in db.accepted :: u.tradeId != t.tradeId
  {
    FilterMeans(db.accepted, NotIn(db.cleared.Keys));
    forall u | u in db.accepted ensures u.tradeId != t.tradeId {
      if u.tradeId !in db.cleared {
        assert u in Plain(db.rows);
        PlainMember(db.rows, u);
      }
    }
  }

  lemma PutKeepsOrder(accepted: seq<Trade>, t: Trade, cleared: map<string, OrderId>)
    requires Distinct(accepted) && IdsOk(accepted, cleared) && ClearedFirst(accepted, cleared.Keys)
    requires t.tradeId !in cleared && forall u | u in accepted :: u.tradeId != t.tradeId
    ensures Distinct(accepted + [t]) && IdsOk(accepted + [t], cleared) && ClearedFirst(accepted + [t], cleared.Keys)
  {
    forall id | id in cleared ensures exists u :: u in accepted + [t] && u.tradeId == id {
      var u :| u in accepted && u.tradeId == id;
      assert u in accepted + [t];
    }
  }

  lemma PutKeepsOrdersWhole(accepted: seq<Trade>, t: Trade, cleared: map<string, OrderId>)
    requires IdsOk(accepted, cleared) && OrdersWhole(accepted, cleared.Keys) && t.tradeId !in cleared
    requires forall id | id in cleared :: cleared[id] != OrderOf(t)
    ensures OrdersWhole(accepted + [t], cleared.Keys)
  {
    forall u, v | u in accepted + [t] && v in accepted + [t] && OrderKeyOf(u) == OrderKeyOf(v) && u.tradeId in cleared
      ensures v.tradeId in cleared
    {
      assert u in accepted && cleared[u.tradeId] == OrderOf(u);
      assert v != t;
    }
  }

  lemma InsertKeepsLog(db: Db, row: Row)
    requires LogOk(db) && !IsCleared(db, row.trade) && row.trade.tradeId !in IdsOf(db.rows)
    ensures LogOk(Inserted(db, row).1)
  {
    NewIdIsNew(db, row.trade);
    PutKeepsOrder(db.accepted, row.trade, db.cleared);
    PutKeepsOrdersWhole(db.accepted, row.trade, db.cleared);
    FilterPut(db.accepted, row.trade, NotIn(db.cleared.Keys));
    PlainPut(db.rows, row.(statsHour := Some(Hour(row.trade.timestamp))));
  }

  lemma InsertKeepsKept(db: Db, row: Row)
    requires FrontiersOk(db) && OpeningsOk(db) && row.trade.tradeId !in db.cleared
    ensures FrontiersOk(Inserted(db, row).1) && OpeningsOk(Inserted(db, row).1)
  {
    var t, db' := row.trade, Inserted(db, row).1;
    forall scope ensures KeptFrontier(db', scope) == FrontierIn(Newest(Filter(db'.accepted, GoneFrom(db'.cleared.Keys, scope)))) {
      FilterPut(db.accepted, t, GoneFrom(db.cleared.Keys, scope));
      assert KeptFrontier(db, scope) == FrontierIn(Newest(Filter(db.accepted, GoneFrom(db.cleared.Keys, scope))));
    }
    forall key ensures KeptOpening(db', key) == OpeningIn(Newest(Filter(db'.accepted, GoneOf(db'.cleared.Keys, key)))) {
      FilterPut(db.accepted, t, GoneOf(db.cleared.Keys, key));
      assert KeptOpening(db, key) == OpeningIn(Newest(Filter(db.accepted, GoneOf(db.cleared.Keys, key))));
    }
  }

  lemma InsertKeeps(db: Db, row: Row)
    requires Inv(db)
    ensures Inv(Inserted(db, row).1)
  {
    if !IsCleared(db, row.trade) && row.trade.tradeId !in IdsOf(db.rows) {
      InsertKeepsLog(db, row);
      InsertKeepsKept(db, row);
      EnteredIsIndexed(db.rows, db.rollups, row.(statsHour := Some(Hour(row.trade.timestamp))));
    }
  }

  // ---------------------------------------------------------------- clear keeps the invariant

  /** After a clear, an accepted trade is cleared if it was before or if its symbol is selected. */
  lemma ClearedAfter(db: Db, symbol: Option<string>, t: Trade)
    requires LogOk(db) && t in db.accepted
    ensures t.tradeId in MergedIds(db.rows, db.cleared, symbol) <==> t.tradeId in db.cleared || Selects(symbol, t)
    ensures t.tradeId in MergedIds(db.rows, db.cleared, symbol) ==> MergedIds(db.rows, db.cleared, symbol)[t.tradeId] == OrderOf(t)
  {
    FilterMeans(db.accepted, NotIn(db.cleared.Keys));
    FilterMeans(db.rows, Selected(symbol));
    if t.tradeId !in db.cleared {
      assert t in Plain(db.rows);
      PlainMember(db.rows, t);
      OrderWithIdFinds(db, t);
      forall r | r in db.rows && r.trade.tradeId == t.tradeId ensures r.trade == t {
        LiveIdIsUnique(db, r, t);
      }
    }
  }

  lemma LiveIdIsUnique(db: Db, r: Row, t: Trade)
    requires LogOk(db) && r in db.rows && t in db.accepted && r.trade.tradeId == t.tradeId
    ensures r.trade == t
  {
    PlainMember(db.rows, r.trade);
    FilterMeans(db.accepted, NotIn(db.cleared.Keys));
    var i :| 0 <= i < |db.accepted| && db.accepted[i] == t;
    var j :| 0 <= j < |db.accepted| && db.accepted[j] == r.trade;
    assert i == j || i < j || j < i;
  }

  lemma {:induction false} OrderWithIdMeans(rows: seq<Row>, id: string)
    requires id in IdsOf(rows)
    ensures exists r :: r in rows && r.trade.tradeId == id && OrderWithId(rows, id) == OrderOf(r.trade)
  {
    if rows[0].trade.tradeId == id {
      assert rows[0] in rows;
    } else {
      assert rows == [rows[0]] + rows[1..];
      OrderWithIdMeans(rows[1..], id);
      var r :| r in rows[1..] && r.trade.tradeId == id && OrderWithId(rows[1..], id) == OrderOf(r.trade);
      assert r in rows;
    }
  }

  lemma OrderWithIdFinds(db: Db, t: Trade)
    requires LogOk(db) && t in db.accepted && t.tradeId in IdsOf(db.rows)
    ensures OrderWithId(db.rows, t.tradeId) == OrderOf(t)
  {
    OrderWithIdMeans(db.rows, t.tradeId);
    var r :| r in db.rows && r.trade.tradeId == t.tradeId && OrderWithId(db.rows, t.tradeId) == OrderOf(r.trade);
    LiveIdIsUnique(db, r, t);
  }

  lemma ClearKeepsIds(db: Db, symbol: Option<string>)
    requires LogOk(db)
    ensures IdsOk(db.accepted, MergedIds(db.rows, db.cleared, symbol))
  {
    var ids := MergedIds(db.rows, db.cleared, symbol);
    forall t | t in db.accepted && t.tradeId in ids ensures ids[t.tradeId] == OrderOf(t) {
      ClearedAfter(db, symbol, t);
    }
    forall id | id in ids ensures exists t :: t in db.accepted && t.tradeId == id {
      if id !in db.cleared {
        FilterMeans(db.rows, Selected(symbol));
        var r :| r in Filter(db.rows, Selected(symbol)) && r.trade.tradeId == id;
        PlainMember(db.rows, r.trade);
        FilterMeans(db.accepted, NotIn(db.cleared.Keys));
        assert r.trade in db.accepted;
      }
    }
  }

  ghost predicate IdsAfter(db: Db, symbol: Option<string>, ids: set<string>) {
    forall t | t in db.accepted :: t.tradeId in ids <==> t.tradeId in db.cleared || Selects(symbol, t)
  }

  lemma ClearSetsIds(db: Db, symbol: Option<string>)
    requires LogOk(db)
    ensures IdsAfter(db, symbol, MergedIds(db.rows, db.cleared, symbol).Keys)
  {
    forall t | t in db.accepted
      ensures t.tradeId in MergedIds(db.rows, db.cleared, symbol) <==> t.tradeId in db.cleared || Selects(symbol, t)
    {
      ClearedAfter(db, symbol, t);
    }
  }

  function SparedBy(symbol: Option<string>): Trade -> bool {
    (t: Trade) => !Selects(symbol, t)
  }

  lemma ClearKeepsOrder(db: Db, symbol: Option<string>, ids: set<string>)
    requires IdsAfter(db, symbol, ids)
    requires ClearedFirst(db.accepted, db.cleared.Keys) && OrdersWhole(db.accepted, db.cleared.Keys)
    ensures ClearedFirst(db.accepted, ids) && OrdersWhole(db.accepted, ids)
  {
    forall i, j | 0 <= i < j < |db.accepted| && db.accepted[i].symbol == db.accepted[j].symbol && db.accepted[j].tradeId in ids
      ensures db.accepted[i].tradeId in ids
    {
      assert db.accepted[i] in db.accepted && db.accepted[j] in db.accepted;
    }
  }

  lemma ClearKeepsLog(db: Db, symbol: Option<string>)
    requires LogOk(db)
    ensures LogOk(Cleared(db, symbol))
  {
    var ids := MergedIds(db.rows, db.cleared, symbol).Keys;
    ClearKeepsIds(db, symbol);
    ClearSetsIds(db, symbol);
    ClearKeepsOrder(db, symbol, ids);
    PlainFilter(db.rows, Unselected(symbol), SparedBy(symbol));
    FilterTwice(db.accepted, NotIn(db.cleared.Keys), SparedBy(symbol), NotIn(ids));
  }

  lemma RowWithin<K>(rows: seq<Row>, q: Trade -> bool, f: Row -> K, k: K)
    requires Newest(Filter(Plain(rows), q)).Some? && forall r | r in rows && q(r.trade) :: f(r) == k
    ensures exists r :: r in rows && f(r) == k
  {
    EmptyOrMember(Filter(Plain(rows), q));
    var t :| t in Filter(Plain(rows), q);
    FilterMeans(Plain(rows), q);
    PlainMember(rows, t);
  }

  lemma FrontierAfterClear(db: Db, symbol: Option<string>, scope: Scope)
    ensures KeptFrontier(Cleared(db, symbol), scope) == MergedFrontier(db.rows, db.frontiers, symbol, scope)
  {
    if Newest(Filter(Plain(db.rows), InScope(scope))).Some? {
      RowWithin(db.rows, InScope(scope), (r: Row) => ScopeOf(r.trade), scope);
    }
    assert MergedFrontiers(db.rows, db.frontiers, symbol) == Cleared(db, symbol).frontiers;
  }

  lemma OpeningAfterClear(db: Db, symbol: Option<string>, key: OrderKey)
    ensures KeptOpening(Cleared(db, symbol), key) == MergedOpening(db.rows, db.openings, symbol, key)
  {
    if Newest(Filter(Plain(db.rows), OfOrder(key))).Some? {
      RowWithin(db.rows, OfOrder(key), (r: Row) => OrderKeyOf(r.trade), key);
    }
    assert MergedOpenings(db.rows, db.openings, symbol) == Cleared(db, symbol).openings;
  }

  lemma ClearKeepsFrontier(db: Db, symbol: Option<string>, scope: Scope, ids: set<string>)
    requires IdsAfter(db, symbol, ids) && ClearedFirst(db.accepted, db.cleared.Keys)
    requires Plain(db.rows) == Filter(db.accepted, NotIn(db.cleared.Keys))
    requires KeptFrontier(db, scope) == FrontierIn(Newest(Filter(db.accepted, GoneFrom(db.cleared.Keys, scope))))
    ensures MergedFrontier(db.rows, db.frontiers, symbol, scope) == FrontierIn(Newest(Filter(db.accepted, GoneFrom(ids, scope))))
  {
    if symbol.None? || symbol.value == scope.symbol {
      FilterAgree(db.accepted, GoneFrom(ids, scope), InScope(scope));
      ScopeSplits(db.accepted, db.cleared.Keys, scope);
      NewestJoin(Filter(db.accepted, GoneFrom(db.cleared.Keys, scope)), Filter(Plain(db.rows), InScope(scope)));
    } else {
      FilterAgree(db.accepted, GoneFrom(ids, scope), GoneFrom(db.cleared.Keys, scope));
    }
  }

  lemma ClearKeepsOpening(db: Db, symbol: Option<string>, key: OrderKey, ids: set<string>)
    requires IdsAfter(db, symbol, ids) && OrdersWhole(db.accepted, db.cleared.Keys)
    requires Plain(db.rows) == Filter(db.accepted, NotIn(db.cleared.Keys))
    requires KeptOpening(db, key) == OpeningIn(Newest(Filter(db.accepted, GoneOf(db.cleared.Keys, key))))
    ensures MergedOpening(db.rows, db.openings, symbol, key) == OpeningIn(Newest(Filter(db.accepted, GoneOf(ids, key))))
  {
    FilterMeans(db.accepted, GoneOf(db.cleared.Keys, key));
    EmptyOrMember(Filter(db.accepted, GoneOf(db.cleared.Keys, key)));
    if key in db.openings || !(symbol.None? || symbol.value == key.symbol) {
      FilterAgree(db.accepted, GoneOf(ids, key), GoneOf(db.cleared.Keys, key));
    } else {
      FilterTwice(db.accepted, NotIn(db.cleared.Keys), OfOrder(key), GoneOf(ids, key));
    }
  }

  lemma ClearKeepsKept(db: Db, symbol: Option<string>)
    requires LogOk(db) && FrontiersOk(db) && OpeningsOk(db)
    ensures FrontiersOk(Cleared(db, symbol)) && OpeningsOk(Cleared(db, symbol))
  {
    var db' := Cleared(db, symbol);
    ClearSetsIds(db, symbol);
    forall scope ensures KeptFrontier(db', scope) == FrontierIn(Newest(Filter(db'.accepted, GoneFrom(db'.cleared.Keys, scope)))) {
      ClearKeepsFrontier(db, symbol, scope, db'.cleared.Keys);
      FrontierAfterClear(db, symbol, scope);
    }
    forall key ensures KeptOpening(db', key) == OpeningIn(Newest(Filter(db'.accepted, GoneOf(db'.cleared.Keys, key)))) {
      ClearKeepsOpening(db, symbol, key, db'.cleared.Keys);
      OpeningAfterClear(db, symbol, key);
    }
  }

  /** A scan of a scope that the clear spares. */
  lemma {:induction false} ScanSpared(rows: seq<Row>, symbol: Option<string>, scope: Scope, from: int, to: int)
    requires symbol.Some? && symbol.value != scope.symbol
    ensures Scan(Filter(rows, Unselected(symbol)), scope, from, to) == Scan(rows, scope, from, to)
  {
    if rows != [] {
      var init, r := rows[..|rows| - 1], rows[|rows| - 1];
      ScanSpared(init, symbol, scope, from, to);
      if !Selects(symbol, r.trade) {
        ScanPut(Filter(init, Unselected(symbol)), r, scope, from, to);
      } else {
        assert Filter(rows, Unselected(symbol)) == Filter(init, Unselected(symbol));
      }
    }
  }

  lemma ClearKeepsIndex(rows: seq<Row>, table: Table, symbol: Option<string>)
    requires Indexed(rows, table)
    ensures Indexed(Filter(rows, Unselected(symbol)), KeptHours(table, symbol))
  {
    FilterMeans(rows, Unselected(symbol));
    forall k | k in KeptHours(table, symbol)
      ensures KeptHours(table, symbol)[k] == Bucket(Filter(rows, Unselected(symbol)), k)
    {
      ScanSpared(rows, symbol, k.scope, k.hour * NANOS, (k.hour + HOUR_SECONDS) * NANOS);
    }
  }

  lemma ClearKeeps(db: Db, symbol: Option<string>)
    requires Inv(db)
    ensures Inv(Cleared(db, symbol))
  {
    ClearKeepsLog(db, symbol);
    ClearKeepsKept(db, symbol);
    ClearKeepsIndex(db.rows, db.rollups, symbol);
  }

  // ---------------------------------------------------------------- verification

  /** A pending trade is always found pending in its hour. */
  lemma PendingIsNeverMissing(db: Db, row: Row, expected: nat)
    requires Inv(db)
    ensures !Verified(db, row, expected).0.MissingPending?
  {
    var i := PendingIndex(db.rows, row.trade.tradeId, row.trade.mode);
    if i.Some? {
      PendingIsStored(db.rows, db.rollups, i.value);
    }
  }

  lemma VerifyKeeps(db: Db, row: Row, expected: nat)
    requires Inv(db)
    ensures Inv(Verified(db, row, expected).1)
  {
    if Verified(db, row, expected).0.Updated? {
      var i := PendingIndex(db.rows, row.trade.tradeId, row.trade.mode).value;
      var saved := db.rows[i];
      assert saved in db.rows;
      VerifiedIsIndexed(db.rows, db.rollups, i, VerifiedRow(saved, row));
      assert Plain(db.rows[i := VerifiedRow(saved, row)]) == Plain(db.rows);
      SameTablesSameAnswers(db, Verified(db, row, expected).1);
    }
  }

  // ---------------------------------------------------------------- every run

  lemma StepKeeps(db: Db, step: Step)
    requires Inv(db)
    ensures Inv(Apply(db, step))
  {
    match step
    case Insert(row) => InsertKeeps(db, row);
    case Clear(symbol) => ClearKeeps(db, symbol);
    case Verify(row, expected) => VerifyKeeps(db, row, expected);
    case Reopen => ReopenKeeps(db);
  }

  /** The questions of recovery are answered by the tables, so a restart changes none of the answers. */
  lemma ReopenKeeps(db: Db)
    requires Inv(db)
    ensures Inv(Reopened(db))
  {
    SameTablesSameAnswers(db, Reopened(db));
  }

  lemma SameTablesSameAnswers(db: Db, db': Db)
    requires StoredOk(db) && db'.accepted == db.accepted && Plain(db'.rows) == Plain(db.rows)
    requires db'.cleared == db.cleared && db'.frontiers == db.frontiers && db'.openings == db.openings
    ensures StoredOk(db')
  {
    assert forall scope :: KeptFrontier(db', scope) == KeptFrontier(db, scope);
    assert forall key :: KeptOpening(db', key) == KeptOpening(db, key);
  }

  function After(db: Db, steps: seq<Step>): Db {
    if steps == [] then db else Apply(After(db, steps[..|steps| - 1]), steps[|steps| - 1])
  }

  lemma {:induction false} RunKeeps(db: Db, steps: seq<Step>)
    requires Inv(db)
    ensures Inv(After(db, steps))
  {
    if steps != [] {
      RunKeeps(db, steps[..|steps| - 1]);
      StepKeeps(After(db, steps[..|steps| - 1]), steps[|steps| - 1]);
    }
  }

  /** Opening saved tables, with or without cleared history, once the backfill has indexed the rows. */
  lemma OpenedIsValid(stored: Db, rows: seq<Row>, table: Table)
    requires StoredOk(stored) && Plain(rows) == Plain(stored.rows) && Indexed(rows, table)
    ensures Inv(Reopened(stored.(rows := rows, rollups := table)))
  {
    SameTablesSameAnswers(stored, Reopened(stored.(rows := rows, rollups := table)));
  }

  /** Any history of distinct trades that has never been cleared is one such database. */
  lemma UnclearedIsStored(rows: seq<Row>)
    requires Distinct(Plain(rows))
    ensures StoredOk(Db(rows, map[], map[], map[], map[], NoRevisions, NoRevisions, Plain(rows)))
  {
    var db := Db(rows, map[], map[], map[], map[], NoRevisions, NoRevisions, Plain(rows));
    KeepAll(Plain(rows), NotIn({}));
    forall scope ensures KeptFrontier(db, scope) == FrontierIn(Newest(Filter(db.accepted, GoneFrom({}, scope)))) {
      KeepNone(db.accepted, GoneFrom({}, scope));
    }
    forall key ensures KeptOpening(db, key) == OpeningIn(Newest(Filter(db.accepted, GoneOf({}, key)))) {
      KeepNone(db.accepted, GoneOf({}, key));
    }
    assert db.cleared.Keys == {};
  }

  // ---------------------------------------------------------------- what survives a clear

  predicate IsIn(t: Trade, scope: Scope) {
    t.symbol == scope.symbol && t.mode == scope.mode
  }

  /** Trade `i` of the scope is later than every other trade of the scope, or as late and accepted after it. */
  ghost predicate NewestInScope(accepted: seq<Trade>, scope: Scope, i: int) {
    && 0 <= i < |accepted| && IsIn(accepted[i], scope)
    && forall j | 0 <= j < |accepted| && IsIn(accepted[j], scope) ::
         accepted[j].timestamp < accepted[i].timestamp || (accepted[j].timestamp == accepted[i].timestamp && j <= i)
  }

  /** Whether the scope has any trade, and which of them is its newest. */
  ghost predicate FindsNewest(accepted: seq<Trade>, scope: Scope, newest: Option<Trade>, i: int) {
    if newest.None? then forall t | t in accepted :: !IsIn(t, scope)
    else NewestInScope(accepted, scope, i) && accepted[i] == newest.value
  }

  lemma NewestStep(init: seq<Trade>, t: Trade, scope: Scope, before: Option<Trade>, i: int) returns (j: int)
    requires FindsNewest(init, scope, before, i)
    ensures FindsNewest(init + [t], scope, if ScopeOf(t) == scope then Later(before, Some(t)) else before, j)
  {
    var accepted := init + [t];
    j := if ScopeOf(t) == scope && Later(before, Some(t)) == Some(t) then |init| else i;
    forall k | 0 <= k < |init| ensures accepted[k] == init[k] && init[k] in init {
    }
  }

  lemma {:induction false} NewestOfScope(accepted: seq<Trade>, scope: Scope) returns (i: int)
    ensures FindsNewest(accepted, scope, Newest(Filter(accepted, InScope(scope))), i)
  {
    i := 0;
    if accepted != [] {
      var init, t := accepted[..|accepted| - 1], accepted[|accepted| - 1];
      assert accepted == init + [t];
      i := NewestOfScope(init, scope);
      i := NewestStep(init, t, scope, Newest(Filter(init, InScope(scope))), i);
      NewestPut(init, t, scope);
    }
  }

  lemma NewestPut(init: seq<Trade>, t: Trade, scope: Scope)
    ensures var before := Newest(Filter(init, InScope(scope)));
      Newest(Filter(init + [t], InScope(scope))) == if ScopeOf(t) == scope then Later(before, Some(t)) else before
  {
    FilterPut(init, t, InScope(scope));
    NewestJoin(Filter(init, InScope(scope)), [t]);
    assert Newest([t]) == Some(t);
  }

  lemma LastFillIsNewest(db: Db, scope: Scope)
    requires Inv(db)
    ensures LastFillFor(db, scope) == FillOf(FrontierIn(Newest(Filter(db.accepted, InScope(scope)))))
  {
    ScopeSplits(db.accepted, db.cleared.Keys, scope);
    NewestJoin(Filter(db.accepted, GoneFrom(db.cleared.Keys, scope)), Filter(Plain(db.rows), InScope(scope)));
    assert KeptFrontier(db, scope) == FrontierIn(Newest(Filter(db.accepted, GoneFrom(db.cleared.Keys, scope))));
  }

  /** The side and price of the scope's newest trade; a price that is not positive is an error. */
  ghost predicate AnswersNewest(accepted: seq<Trade>, scope: Scope, fill: LastFill) {
    if forall t | t in accepted :: !IsIn(t, scope) then fill == NoFill
    else exists i :: NewestInScope(accepted, scope, i)
           && fill == if accepted[i].price > 0.0 then Fill(accepted[i].side, accepted[i].price) else InvalidPrice
  }

  lemma LastFillAnswersNewest(db: Db, scope: Scope)
    requires Inv(db)
    ensures AnswersNewest(db.accepted, scope, LastFillFor(db, scope))
  {
    LastFillIsNewest(db, scope);
    var i := NewestOfScope(db.accepted, scope);
    if Newest(Filter(db.accepted, InScope(scope))).Some? {
      assert db.accepted[i] in db.accepted;
    }
  }

  /**
   The execution frontier: over any run of inserts, verifications and clears, the last fill of a scope is
   that of the trade with the greatest timestamp among all trades ever accepted, cleared or not, and
   among equals the one accepted last.
   */
  lemma LastFillCoversWholeHistory(start: Db, steps: seq<Step>, scope: Scope)
    requires Inv(start)
    ensures var db := After(start, steps);
      AnswersNewest(db.accepted, scope, LastFillFor(db, scope))
  {
    RunKeeps(start, steps);
    LastFillAnswersNewest(After(start, steps), scope);
  }

  lemma ClearKeepsLastFill(db: Db, symbol: Option<string>, scope: Scope)
    requires Inv(db)
    ensures LastFillFor(Cleared(db, symbol), scope) == LastFillFor(db, scope)
  {
    ClearKeeps(db, symbol);
    LastFillIsNewest(db, scope);
    LastFillIsNewest(Cleared(db, symbol), scope);
  }

  lemma LiveTradesOfOrder(db: Db, key: OrderKey, t: Trade)
    requires LogOk(db) && t in db.accepted && OrderKeyOf(t) == key
    ensures t.tradeId in db.cleared <==> !exists r :: r in db.rows && OrderKeyOf(r.trade) == key
    ensures t.tradeId !in db.cleared ==> t in Plain(db.rows)
  {
    FilterMeans(db.accepted, NotIn(db.cleared.Keys));
    PlainMember(db.rows, t);
    if r :| r in db.rows && OrderKeyOf(r.trade) == key {
      PlainMember(db.rows, r.trade);
      assert r.trade in db.accepted && r.trade.tradeId !in db.cleared;
    }
  }

  /** Whatever has been cleared, a pair opening is found for exactly the orders ever filled, and it is a latest fill of the order. */
  lemma PairOpeningsSurvive(db: Db, key: OrderKey, answer: Option<Opening>)
    requires Inv(db) && IsPairOpening(db, key, answer)
    ensures answer.None? <==> forall t | t in db.accepted :: !IsFillOf(t, key)
    ensures answer.Some? ==> exists t :: LatestOfOrder(db.accepted, key, t) && answer.value == Opening(t.side, t.price, t.quantity)
  {
    forall t | t in db.accepted && OrderKeyOf(t) == key
      ensures t.tradeId in db.cleared <==> !exists r :: r in db.rows && OrderKeyOf(r.trade) == key
      ensures t.tradeId !in db.cleared ==> t in Plain(db.rows)
    {
      LiveTradesOfOrder(db, key, t);
    }
    FilterMeans(db.accepted, NotIn(db.cleared.Keys));
    if exists r :: r in db.rows && OrderKeyOf(r.trade) == key {
      var t :| LatestOfOrder(Plain(db.rows), key, t) && answer.value == Opening(t.side, t.price, t.quantity);
      assert LatestOfOrder(db.accepted, key, t);
    } else {
      KeptOpeningIsLatest(db, key);
    }
  }

  /** The newest live trade of the order is one of its latest. */
  lemma LiveOpening(rows: seq<Row>, key: OrderKey)
    ensures var live := Filter(Plain(rows), OfOrder(key));
      && (live != [] <==> exists r :: r in rows && OrderKeyOf(r.trade) == key)
      && (live != [] ==> LatestOfOrder(Plain(rows), key, Newest(live).value))
  {
    var live := Filter(Plain(rows), OfOrder(key));
    FilterMeans(Plain(rows), OfOrder(key));
    if live != [] {
      var i := NewestMeans(live);
      assert live[i] in live;
      assert forall u | u in live :: u.timestamp <= live[i].timestamp;
      PlainMember(rows, live[i]);
    }
    if r :| r in rows && OrderKeyOf(r.trade) == key {
      PlainMember(rows, r.trade);
      assert r.trade in live;
    }
  }

  lemma KeptOpeningIsLatest(db: Db, key: OrderKey)
    requires KeptOpening(db, key) == OpeningIn(Newest(Filter(db.accepted, GoneOf(db.cleared.Keys, key))))
    requires forall t | t in db.accepted && OrderKeyOf(t) == key :: t.tradeId in db.cleared
    ensures var kept := KeptOpening(db, key);
      if kept.None? then forall t | t in db.accepted :: OrderKeyOf(t) != key
      else exists t :: LatestOfOrder(db.accepted, key, t) && kept.value == OpeningOf(t)
  {
    var gone := Filter(db.accepted, GoneOf(db.cleared.Keys, key));
    FilterMeans(db.accepted, GoneOf(db.cleared.Keys, key));
    if gone != [] {
      var i := NewestMeans(gone);
      assert gone[i] in gone;
      assert forall u | u in gone :: u.timestamp <= gone[i].timestamp;
      assert LatestOfOrder(db.accepted, key, gone[i]);
    }
  }

  /** Clears leave a pair opening as it was when the order's latest fill is unique. */
  lemma ClearKeepsPairOpening(db: Db, symbol: Option<string>, key: OrderKey, before: Option<Opening>, after: Option<Opening>)
    requires Inv(db) && IsPairOpening(db, key, before) && IsPairOpening(Cleared(db, symbol), key, after)
    requires forall t, u | LatestOfOrder(db.accepted, key, t) && LatestOfOrder(db.accepted, key, u) ::
      t.side == u.side && t.price == u.price && t.quantity == u.quantity
    ensures after == before
  {
    ClearKeeps(db, symbol);
    PairOpeningsSurvive(db, key, before);
    PairOpeningsSurvive(Cleared(db, symbol), key, after);
  }

  // ---------------------------------------------------------------- deduplication

  /** Every trade ever accepted is either live or among the cleared ids, never both. */
  lemma AcceptedIdsAreFiledOnce(db: Db, t: Trade)
    requires Inv(db) && t in db.accepted
    ensures t.tradeId in db.cleared <==> t.tradeId !in IdsOf(db.rows)
  {
    FilterMeans(db.accepted, NotIn(db.cleared.Keys));
    if t.tradeId in IdsOf(db.rows) {
      var r :| r in db.rows && r.trade.tradeId == t.tradeId;
      PlainMember(db.rows, r.trade);
      assert r.trade in db.accepted;
    } else if t.tradeId !in db.cleared {
      PlainMember(db.rows, t);
    }
  }

  lemma StepGrows(db: Db, step: Step)
    ensures db.accepted <= Apply(db, step).accepted
    ensures forall id | id in db.cleared :: id in Apply(db, step).cleared && Apply(db, step).cleared[id] == db.cleared[id]
  {
  }

  lemma {:induction false} RunGrows(db: Db, steps: seq<Step>)
    ensures db.accepted <= After(db, steps).accepted
    ensures forall id | id in db.cleared :: id in After(db, steps).cleared && After(db, steps).cleared[id] == db.cleared[id]
  {
    if steps != [] {
      RunGrows(db, steps[..|steps| - 1]);
      StepGrows(After(db, steps[..|steps| - 1]), steps[|steps| - 1]);
    }
  }

  /** An order is recorded exactly when one of its trades was ever accepted. */
  lemma RecordedMeansAccepted(db: Db, order: OrderId)
    requires Inv(db)
    ensures HasRecordedOrder(db, order) <==> exists t :: t in db.accepted && t.clientId == order.clientId && t.mode == order.mode
  {
    FilterMeans(db.accepted, NotIn(db.cleared.Keys));
    if r :| r in db.rows && OrderOf(r.trade) == order {
      PlainMember(db.rows, r.trade);
      assert r.trade in db.accepted;
    }
    if id :| id in db.cleared && db.cleared[id] == order {
      var t :| t in db.accepted && t.tradeId == id;
    }
    if t :| t in db.accepted && OrderOf(t) == order {
      PlainMember(db.rows, t);
    }
  }

  /** Once recorded, an order stays recorded whatever is inserted, verified or cleared afterwards. */
  lemma RecordedOrdersStay(db: Db, steps: seq<Step>, order: OrderId)
    requires Inv(db) && HasRecordedOrder(db, order)
    ensures HasRecordedOrder(After(db, steps), order)
  {
    RunKeeps(db, steps);
    RunGrows(db, steps);
    RecordedMeansAccepted(db, order);
    RecordedMeansAccepted(After(db, steps), order);
  }

  /** No trade of an order that has been cleared is accepted again, however much is cleared after it. */
  lemma ClearedOrdersStayClosed(db: Db, steps: seq<Step>, id: string, row: Row)
    requires id in db.cleared && db.cleared[id] == OrderOf(row.trade)
    ensures Inserted(After(db, steps), row) == (false, After(db, steps))
  {
    RunGrows(db, steps);
  }

  /** No trade id is accepted twice, and an insert is refused only for a known id or a closed order. */
  lemma InsertAcceptsOnce(db: Db, row: Row)
    requires Inv(db)
    ensures Inserted(db, row).0 <==>
      && (forall t | t in db.accepted :: t.tradeId != row.trade.tradeId)
      && (forall t | t in db.accepted && t.tradeId in db.cleared :: t.clientId != row.trade.clientId || t.mode != row.trade.mode)
  {
    if Inserted(db, row).0 {
      NewIdIsNew(db, row.trade);
    } else {
      forall t | t in db.accepted ensures t.tradeId in db.cleared <==> t.tradeId !in IdsOf(db.rows) {
        AcceptedIdsAreFiledOnce(db, t);
      }
      if row.trade.tradeId in IdsOf(db.rows) {
        var r :| r in db.rows && r.trade.tradeId == row.trade.tradeId;
        PlainMember(db.rows, r.trade);
        FilterMeans(db.accepted, NotIn(db.cleared.Keys));
        assert r.trade in db.accepted;
      }
    }
  }

  // ---------------------------------------------------------------- verification is once-only and clear-safe

  /** The id was accepted and nothing pending is left under it. */
  ghost predicate Settled(db: Db, id: string) {
    && (id in db.cleared || id in IdsOf(db.rows))
    && forall r | r in db.rows && r.trade.tradeId == id :: r.verified
  }

  lemma SettledStays(db: Db, step: Step, id: string)
    requires Settled(db, id)
    ensures Settled(Apply(db, step), id)
  {
    match step
    case Insert(_) =>
    case Clear(symbol) =>
      FilterMeans(db.rows, Unselected(symbol));
      FilterMeans(db.rows, Selected(symbol));
      if id !in db.cleared {
        var r :| r in db.rows && r.trade.tradeId == id;
        if Selects(symbol, r.trade) {
          assert r in Filter(db.rows, Selected(symbol));
        } else {
          assert r in Filter(db.rows, Unselected(symbol));
        }
      }
    case Verify(row, expected) => VerifySettled(db, row, expected, id);
    case Reopen =>
  }

  lemma VerifySettled(db: Db, row: Row, expected: nat, id: string)
    requires Settled(db, id)
    ensures Settled(Verified(db, row, expected).1, id)
  {
    var db' := Verified(db, row, expected).1;
    if Verified(db, row, expected).0.Updated? {
      var i := PendingIndex(db.rows, row.trade.tradeId, row.trade.mode).value;
      forall r | r in db'.rows && r.trade.tradeId == id ensures r.verified {
        var j :| 0 <= j < |db'.rows| && db'.rows[j] == r;
        assert j != i ==> db.rows[j] == r && r in db.rows;
      }
      if id !in db.cleared {
        var r :| r in db.rows && r.trade.tradeId == id;
        var j :| 0 <= j < |db.rows| && db.rows[j] == r;
        assert db'.rows[j] in db'.rows && db'.rows[j].trade == r.trade;
      }
    }
  }

  lemma {:induction false} SettledStaysForever(db: Db, steps: seq<Step>, id: string)
    requires Settled(db, id)
    ensures Settled(After(db, steps), id)
  {
    if steps != [] {
      SettledStaysForever(db, steps[..|steps| - 1], id);
      SettledStays(After(db, steps[..|steps| - 1]), steps[|steps| - 1], id);
    }
  }

  lemma VerifiedIsSettled(db: Db, row: Row, expected: nat)
    requires Inv(db) && Verified(db, row, expected).0.Updated?
    ensures Settled(Verified(db, row, expected).1, row.trade.tradeId)
  {
    var i := PendingIndex(db.rows, row.trade.tradeId, row.trade.mode).value;
    var rows := Verified(db, row, expected).1.rows;
    var id := row.trade.tradeId;
    assert rows[i] in rows;
    forall r | r in rows && r.trade.tradeId == id ensures r.verified {
      var j :| 0 <= j < |rows| && rows[j] == r;
      if j != i {
        assert db.rows[j] == r && db.rows[j] in db.rows && db.rows[i] in db.rows;
        LiveRowsAreDistinct(db, i, j);
      }
    }
  }

  lemma {:induction false} FilterKeepsDistinct(trades: seq<Trade>, keep: Trade -> bool)
    requires Distinct(trades)
    ensures Distinct(Filter(trades, keep))
  {
    if trades != [] {
      var init, t := trades[..|trades| - 1], trades[|trades| - 1];
      FilterKeepsDistinct(init, keep);
      FilterMeans(init, keep);
      forall i | 0 <= i < |Filter(init, keep)| ensures Filter(init, keep)[i].tradeId != t.tradeId {
        assert Filter(init, keep)[i] in init;
      }
    }
  }

  lemma LiveRowsAreDistinct(db: Db, i: nat, j: nat)
    requires LogOk(db) && i < |db.rows| && j < |db.rows| && i != j
    ensures db.rows[i].trade.tradeId != db.rows[j].trade.tradeId
  {
    FilterKeepsDistinct(db.accepted, NotIn(db.cleared.Keys));
    assert Plain(db.rows)[i].tradeId != Plain(db.rows)[j].tradeId;
  }

  /** A trade is verified at most once: after the first success every later attempt, in any run, changes nothing. */
  lemma VerificationIsOnce(db: Db, row: Row, expected: nat, steps: seq<Step>, again: Row, expected': nat)
    requires Inv(db) && Verified(db, row, expected).0.Updated? && again.trade.tradeId == row.trade.tradeId
    ensures var later := After(Verified(db, row, expected).1, steps);
      Verified(later, again, expected') == (Unchanged, later)
  {
    VerifiedIsSettled(db, row, expected);
    SettledStaysForever(Verified(db, row, expected).1, steps, row.trade.tradeId);
  }

  /** The row under the id and mode of `row`, not yet verified. */
  predicate Awaits(saved: Row, row: Row) {
    saved.trade.tradeId == row.trade.tradeId && saved.trade.mode == row.trade.mode && !saved.verified
  }

  /**
   An update gives the one row that awaits it the verified profit, commission and maker flag, and leaves every other
   row alone. There is none exactly when no row awaits it or the row's symbol has been cleared since it was read.
   */
  ghost predicate IsVerified(before: Db, row: Row, expected: nat, updated: bool, after: Db) {
    if !updated then
      after == before && forall r | r in before.rows && Awaits(r, row) :: ForSymbol(before.clears, r.trade.symbol) != expected
    else
      && |after.rows| == |before.rows|
      && exists i :: 0 <= i < |before.rows| && Awaits(before.rows[i], row) && IsUpdateAt(before, row, expected, after, i)
  }

  ghost predicate IsUpdateAt(before: Db, row: Row, expected: nat, after: Db, i: nat)
    requires i < |before.rows| == |after.rows|
  {
    var saved, now := before.rows[i], after.rows[i];
    && ForSymbol(before.clears, saved.trade.symbol) == expected
    && now.trade == saved.trade && now.statsHour == saved.statsHour
    && now.pnl == row.pnl && now.commission == row.commission && now.maker == row.maker && now.verified
    && (forall j | 0 <= j < |before.rows| && j != i :: after.rows[j] == before.rows[j] && !Awaits(before.rows[j], row))
  }

  lemma VerificationMeans(db: Db, row: Row, expected: nat)
    requires Inv(db)
    ensures var (outcome, after) := Verified(db, row, expected); IsVerified(db, row, expected, outcome.Updated?, after)
  {
    PendingIsNeverMissing(db, row, expected);
    var found := PendingIndex(db.rows, row.trade.tradeId, row.trade.mode);
    if found.Some? {
      var i := found.value;
      forall j | 0 <= j < |db.rows| && j != i ensures !Awaits(db.rows[j], row) {
        LiveRowsAreDistinct(db, i, j);
      }
      if Verified(db, row, expected).0.Updated? {
        assert IsUpdateAt(db, row, expected, Verified(db, row, expected).1, i);
      } else {
        assert Awaits(db.rows[i], row) && db.rows[i] in db.rows;
      }
    }
  }

  predicate ClearsSymbol(step: Step, symbol: string) {
    step.Clear? && (step.symbol.None? || step.symbol.value == symbol)
  }

  /** The run stays within one process, as the revisions that are read in it do. */
  predicate InProcess(steps: seq<Step>) {
    forall step | step in steps :: !step.Reopen?
  }

  lemma StepRevision(db: Db, step: Step, symbol: string)
    requires Bounded(db.clears) && !step.Reopen?
    ensures if ClearsSymbol(step, symbol) then ForSymbol(db.clears, symbol) < ForSymbol(Apply(db, step).clears, symbol)
            else ForSymbol(db.clears, symbol) == ForSymbol(Apply(db, step).clears, symbol)
  {
    if step.Clear? {
      EventRaises(db.clears, EventOf(step.symbol), symbol);
    }
  }

  /** Some step of the run clears the symbol. */
  predicate ClearedAlong(steps: seq<Step>, symbol: string) {
    steps != [] && (ClearedAlong(steps[..|steps| - 1], symbol) || ClearsSymbol(steps[|steps| - 1], symbol))
  }

  lemma {:induction false} ClearedAlongMeans(steps: seq<Step>, symbol: string)
    ensures ClearedAlong(steps, symbol) <==> exists i :: 0 <= i < |steps| && ClearsSymbol(steps[i], symbol)
  {
    if steps != [] {
      var init := steps[..|steps| - 1];
      ClearedAlongMeans(init, symbol);
      if i :| 0 <= i < |init| && ClearsSymbol(init[i], symbol) {
        assert ClearsSymbol(steps[i], symbol);
      }
      assert forall i | 0 <= i < |init| :: steps[i] == init[i];
    }
  }

  lemma {:induction false} RevisionAfter(db: Db, steps: seq<Step>, symbol: string)
    requires Inv(db) && InProcess(steps)
    ensures if ClearedAlong(steps, symbol) then ForSymbol(db.clears, symbol) < ForSymbol(After(db, steps).clears, symbol)
            else ForSymbol(db.clears, symbol) == ForSymbol(After(db, steps).clears, symbol)
  {
    if steps != [] {
      var init, step := steps[..|steps| - 1], steps[|steps| - 1];
      RevisionAfter(db, init, symbol);
      RunKeeps(db, init);
      StepRevision(After(db, init), step, symbol);
    }
  }

  /** The clear-revision of a symbol changes over a run exactly when the run clears it. */
  lemma ClearRaisesRevision(db: Db, steps: seq<Step>, symbol: string)
    requires Inv(db) && InProcess(steps)
    ensures ForSymbol(db.clears, symbol) != ForSymbol(After(db, steps).clears, symbol)
        <==> exists i :: 0 <= i < |steps| && ClearsSymbol(steps[i], symbol)
  {
    RevisionAfter(db, steps, symbol);
    ClearedAlongMeans(steps, symbol);
  }

  lemma IdStaysCleared(db: Db, step: Step, id: string)
    requires id in db.cleared
    ensures id in Apply(db, step).cleared
  {
    StepGrows(db, step);
  }

  lemma ClearFilesId(db: Db, steps: seq<Step>, step: Step, t: Trade)
    requires Inv(db) && t in db.accepted && ClearsSymbol(step, t.symbol)
    ensures t.tradeId in Apply(After(db, steps), step).cleared
  {
    RunKeeps(db, steps);
    RunGrows(db, steps);
    ClearedAfter(After(db, steps), step.symbol, t);
  }

  lemma {:induction false} ClearedIdStays(db: Db, steps: seq<Step>, i: nat, t: Trade)
    requires Inv(db) && t in db.accepted && i < |steps| && ClearsSymbol(steps[i], t.symbol)
    ensures t.tradeId in After(db, steps).cleared
  {
    var init, step := steps[..|steps| - 1], steps[|steps| - 1];
    if i < |init| {
      assert init[i] == steps[i];
      ClearedIdStays(db, init, i, t);
      IdStaysCleared(After(db, init), step, t.tradeId);
    } else {
      ClearFilesId(db, init, step, t);
    }
  }

  lemma {:induction false} UnknownIdHasNoPending(rows: seq<Row>, id: string, mode: Mode)
    requires id !in IdsOf(rows)
    ensures PendingIndex(rows, id, mode).None?
  {
    if rows != [] {
      var init, last := rows[..|rows| - 1], rows[|rows| - 1];
      assert rows == init + [last] && last in rows;
      UnknownIdHasNoPending(init, id, mode);
    }
  }

  /**
   A verification of a trade that was read before its symbol was cleared changes no row, whatever revision it
   carries and whatever has been inserted, verified or cleared since.
   */
  lemma StaleVerificationChangesNothing(db: Db, steps: seq<Step>, i: nat, r: Row, row: Row, expected: nat)
    requires Inv(db) && r in db.rows && r.trade.tradeId == row.trade.tradeId
    requires i < |steps| && ClearsSymbol(steps[i], r.trade.symbol)
    ensures Verified(After(db, steps), row, expected) == (Unchanged, After(db, steps))
  {
    var later := After(db, steps);
    PlainMember(db.rows, r.trade);
    FilterMeans(db.accepted, NotIn(db.cleared.Keys));
    assert r.trade in db.accepted;
    ClearedIdStays(db, steps, i, r.trade);
    RunKeeps(db, steps);
    RunGrows(db, steps);
    AcceptedIdsAreFiledOnce(later, r.trade);
    UnknownIdHasNoPending(later.rows, row.trade.tradeId, row.trade.mode);
  }

  /**
   A revision read before a clear of the symbol protects every row of the symbol, also those inserted since:
   no verification that carries it, of whatever trade, changes any of them.
   */
  lemma StaleRevisionSparesSymbol(db: Db, steps: seq<Step>, i: nat, symbol: string, row: Row)
    requires Inv(db) && InProcess(steps) && i < |steps| && ClearsSymbol(steps[i], symbol)
    ensures var later := After(db, steps);
      Filter(Verified(later, row, ForSymbol(db.clears, symbol)).1.rows, OfSymbol(symbol)) == Filter(later.rows, OfSymbol(symbol))
  {
    ClearRaisesRevision(db, steps, symbol);
    var later := After(db, steps);
    if Verified(later, row, ForSymbol(db.clears, symbol)).0.Updated? {
      var k := PendingIndex(later.rows, row.trade.tradeId, row.trade.mode).value;
      UpdateSparesRows(later.rows, k, VerifiedRow(later.rows[k], row), symbol);
    }
  }

  /** A verification whose read no clear has overtaken settles the pending trade it was read for. */
  lemma TimelyVerificationSucceeds(db: Db, steps: seq<Step>, i: nat, row: Row)
    requires Inv(db) && InProcess(steps) && i < |After(db, steps).rows|
    requires Pending(After(db, steps).rows[i], row.trade.tradeId, row.trade.mode)
    requires forall k | 0 <= k < |steps| :: !ClearsSymbol(steps[k], After(db, steps).rows[i].trade.symbol)
    ensures var later := After(db, steps);
      var outcome := Verified(later, row, ForSymbol(db.clears, later.rows[i].trade.symbol));
      outcome.0.Updated? && outcome.1.rows == later.rows[i := VerifiedRow(later.rows[i], row)]
  {
    var later := After(db, steps);
    RunKeeps(db, steps);
    ClearRaisesRevision(db, steps, later.rows[i].trade.symbol);
    assert later.rows[i] in later.rows;
    var j := PendingIndex(later.rows, row.trade.tradeId, row.trade.mode).value;
    if i != j {
      LiveRowsAreDistinct(later, i, j);
    }
    PendingIsNeverMissing(later, row, ForSymbol(db.clears, later.rows[i].trade.symbol));
  }

  // ---------------------------------------------------------------- views kept under a revision

  function OfSymbol(symbol: string): Row -> bool {
    (r: Row) => r.trade.symbol == symbol
  }

  lemma ClearSparesRows(rows: seq<Row>, cleared: Option<string>, symbol: string)
    requires cleared.Some? && cleared.value != symbol
    ensures Filter(Filter(rows, Unselected(cleared)), OfSymbol(symbol)) == Filter(rows, OfSymbol(symbol))
  {
    FilterTwice(rows, Unselected(cleared), OfSymbol(symbol), OfSymbol(symbol));
  }

  lemma {:induction false} UpdateSparesRows(rows: seq<Row>, i: nat, r: Row, symbol: string)
    requires i < |rows| && r.trade == rows[i].trade && r.trade.symbol != symbol
    ensures Filter(rows[i := r], OfSymbol(symbol)) == Filter(rows, OfSymbol(symbol))
  {
    var n := |rows| - 1;
    if i == n {
      assert rows[i := r][..n] == rows[..n];
    } else {
      assert rows[i := r][..n] == rows[..n][i := r];
      UpdateSparesRows(rows[..n], i, r, symbol);
    }
  }

  /** A view of a symbol's trades kept under its data revision is never stale: any change of its rows raises the revision. */
  lemma ChangesRaiseRevision(db: Db, step: Step, symbol: string)
    requires Inv(db) && !step.Reopen?
    ensures ForSymbol(db.data, symbol) <= ForSymbol(Apply(db, step).data, symbol)
    ensures Filter(Apply(db, step).rows, OfSymbol(symbol)) != Filter(db.rows, OfSymbol(symbol)) ==>
              ForSymbol(db.data, symbol) < ForSymbol(Apply(db, step).data, symbol)
  {
    match step
    case Insert(row) =>
      EventRaises(db.data, Publish(row.trade.symbol), symbol);
      FilterPut(db.rows, row.(statsHour := Some(Hour(row.trade.timestamp))), OfSymbol(symbol));
    case Clear(cleared) =>
      EventRaises(db.data, EventOf(cleared), symbol);
      if cleared.Some? && cleared.value != symbol {
        ClearSparesRows(db.rows, cleared, symbol);
      }
    case Verify(row, expected) => VerifyRaisesRevision(db, row, expected, symbol);
  }

  lemma VerifyRaisesRevision(db: Db, row: Row, expected: nat, symbol: string)
    requires Bounded(db.data)
    ensures var t := Verified(db, row, expected).1;
      && ForSymbol(db.data, symbol) <= ForSymbol(t.data, symbol)
      && (Filter(t.rows, OfSymbol(symbol)) != Filter(db.rows, OfSymbol(symbol)) ==>
            ForSymbol(db.data, symbol) < ForSymbol(t.data, symbol))
  {
    if Verified(db, row, expected).0.Updated? {
      var i := PendingIndex(db.rows, row.trade.tradeId, row.trade.mode).value;
      EventRaises(db.data, Publish(db.rows[i].trade.symbol), symbol);
      if db.rows[i].trade.symbol != symbol {
        UpdateSparesRows(db.rows, i, VerifiedRow(db.rows[i], row), symbol);
      }
    }
  }

  // ---------------------------------------------------------------- pages of pending trades

  function PendingIn(scope: Scope): Row -> bool {
    (r: Row) => ScopeOf(r.trade) == scope && !r.verified
  }

  predicate Descending(rows: seq<Row>) {
    forall i, j | 0 <= i < j < |rows| :: rows[i].trade.timestamp >= rows[j].trade.timestamp
  }

  /** `ORDER BY timestamp DESC LIMIT limit OFFSET offset`: trades of one instant come in no fixed order. */
  ghost predicate IsPage(rows: seq<Row>, keep: Row -> bool, limit: nat, offset: nat, page: seq<Row>) {
    exists order: seq<Row> ::
      && multiset(order) == multiset(Filter(rows, keep)) && Descending(order)
      && page == order[Min(offset, |order|)..Min(offset + limit, |order|)]
  }

  /** The row put before the older ones of an ordered sequence. */
  function Placed(r: Row, rows: seq<Row>): seq<Row> {
    if rows == [] || rows[0].trade.timestamp < r.trade.timestamp then [r] + rows else [rows[0]] + Placed(r, rows[1..])
  }

  function NewestFirst(rows: seq<Row>): seq<Row> {
    if rows == [] then [] else Placed(rows[|rows| - 1], NewestFirst(rows[..|rows| - 1]))
  }

  lemma {:induction false} PlacedHolds(r: Row, rows: seq<Row>)
    ensures multiset(Placed(r, rows)) == multiset(rows) + multiset{r}
  {
    if rows != [] && rows[0].trade.timestamp >= r.trade.timestamp {
      assert rows == [rows[0]] + rows[1..];
      PlacedHolds(r, rows[1..]);
    }
  }

  lemma PutFirst(first: Row, rest: seq<Row>)
    requires Descending(rest) && forall q | q in rest :: first.trade.timestamp >= q.trade.timestamp
    ensures Descending([first] + rest)
  {
  }

  lemma {:induction false} PlacedIsSorted(r: Row, rows: seq<Row>)
    requires Descending(rows)
    ensures Descending(Placed(r, rows))
  {
    if rows == [] || rows[0].trade.timestamp < r.trade.timestamp {
      PutFirst(r, rows);
    } else {
      var first, rest := rows[0], rows[1..];
      PlacedIsSorted(r, rest);
      PlacedHolds(r, rest);
      forall q | q in Placed(r, rest) ensures first.trade.timestamp >= q.trade.timestamp {
        assert q in multiset(Placed(r, rest));
        assert q == r || q in rest;
      }
      PutFirst(first, Placed(r, rest));
    }
  }

  lemma {:induction false} OrderIsSorted(rows: seq<Row>)
    ensures Descending(NewestFirst(rows)) && multiset(NewestFirst(rows)) == multiset(rows)
  {
    if rows != [] {
      var init, last := rows[..|rows| - 1], rows[|rows| - 1];
      assert rows == init + [last];
      OrderIsSorted(init);
      PlacedIsSorted(last, NewestFirst(init));
      PlacedHolds(last, NewestFirst(init));
    }
  }

  lemma SameMember(a: seq<Row>, b: seq<Row>, r: Row)
    requires multiset(a) == multiset(b)
    ensures r in a <==> r in b
  {
    assert r in multiset(a) <==> r in multiset(b);
  }

  /** A page holds only matching rows, and a first page all of them unless it is full. */
  lemma PageMeans(rows: seq<Row>, keep: Row -> bool, limit: nat, offset: nat, page: seq<Row>, r: Row)
    requires IsPage(rows, keep, limit, offset, page)
    ensures r in page ==> r in rows && keep(r)
    ensures offset == 0 && |page| < limit && r in rows && keep(r) ==> r in page
  {
    FilterMeans(rows, keep);
    var order: seq<Row> :| multiset(order) == multiset(Filter(rows, keep)) && Descending(order)
      && page == order[Min(offset, |order|)..Min(offset + limit, |order|)];
    SameMember(order, Filter(rows, keep), r);
    assert r in page ==> r in order;
    if offset == 0 && |page| < limit {
      assert page == order;
    }
  }

  /** The page shows unverified trades of the scope, and a first page that is not full shows all of them. */
  predicate HoldsPending(rows: seq<Row>, scope: Scope, limit: nat, offset: nat, page: seq<Row>) {
    && (forall r | r in page :: r in rows && IsIn(r.trade, scope) && !r.verified)
    && (offset == 0 && |page| < limit ==> forall r | r in rows && IsIn(r.trade, scope) && !r.verified :: r in page)
  }

  lemma PendingPage(rows: seq<Row>, scope: Scope, limit: nat, offset: nat, page: seq<Row>)
    requires IsPage(rows, PendingIn(scope), limit, offset, page)
    ensures HoldsPending(rows, scope, limit, offset, page)
  {
    forall r ensures r in page ==> r in rows && IsIn(r.trade, scope) && !r.verified {
      PageMeans(rows, PendingIn(scope), limit, offset, page, r);
    }
    forall r | r in rows && IsIn(r.trade, scope) && !r.verified ensures offset == 0 && |page| < limit ==> r in page {
      PageMeans(rows, PendingIn(scope), limit, offset, page, r);
    }
  }

  // ---------------------------------------------------------------- the database, updated in place

  class Database {
    var rows: seq<Row>
    var cleared: map<string, OrderId>
    var frontiers: map<Scope, Frontier>
    var openings: map<OrderKey, Opening>
    const hourly: Rollups
    const tradeRevisions: RevisionTracker
    const clearRevisions: RevisionTracker
    ghost var accepted: seq<Trade>

    ghost function Value(): Db
      reads this, hourly, tradeRevisions, clearRevisions
    {
      Db(rows, cleared, frontiers, openings, hourly.table, tradeRevisions.Value(), clearRevisions.Value(), accepted)
    }

    ghost predicate Valid()
      reads this, hourly, tradeRevisions, clearRevisions
    {
      && Inv(Value()) && hourly.initialized
      && tradeRevisions.Valid() && clearRevisions.Valid() && tradeRevisions != clearRevisions
    }

    /** Opening saved tables, of any age and after any clears, indexes their rows once and keeps everything else. */
    constructor (rows: seq<Row>, cleared: map<string, OrderId>, frontiers: map<Scope, Frontier>, openings: map<OrderKey, Opening>,
                 table: Table, initialized: bool, ghost accepted: seq<Trade>)
      requires StoredOk(Db(rows, cleared, frontiers, openings, table, NoRevisions, NoRevisions, accepted))
      requires initialized ==> Indexed(rows, table)
      ensures Valid() && Plain(this.rows) == Plain(rows) && this.accepted == accepted
      ensures this.cleared == cleared && this.frontiers == frontiers && this.openings == openings
      ensures initialized ==> Value() == Reopened(Db(rows, cleared, frontiers, openings, table, NoRevisions, NoRevisions, accepted))
      ensures fresh(hourly) && fresh(tradeRevisions) && fresh(clearRevisions)
    {
      this.rows, this.cleared, this.frontiers, this.openings, this.accepted := rows, cleared, frontiers, openings, accepted;
      hourly := new Rollups.FromTables(table, initialized);
      tradeRevisions := new RevisionTracker();
      clearRevisions := new RevisionTracker();
      new;
      ghost var stored := Db(rows, cleared, frontiers, openings, table, NoRevisions, NoRevisions, accepted);
      this.rows := hourly.MigrateOn(rows);
      assert Plain(this.rows) == Plain(rows);
      assert Value() == Reopened(stored.(rows := this.rows, rollups := hourly.table));
      OpenedIsValid(stored, this.rows, hourly.table);
    }

    method InsertTradeOn(row: Row) returns (inserted: bool)
      requires tradeRevisions.Valid() && tradeRevisions != clearRevisions
      modifies this`rows, this`accepted, hourly`table, tradeRevisions
      ensures tradeRevisions.Valid() && (inserted, Value()) == Inserted(old(Value()), row)
    {
      if row.trade.tradeId in cleared
         || (exists id | id in cleared :: cleared[id] == OrderOf(row.trade))
         || row.trade.tradeId in IdsOf(rows) {
        return false;
      }
      var r := row.(statsHour := Some(Hour(row.trade.timestamp)));
      rows := rows + [r];
      hourly.InsertOn(r);
      tradeRevisions.Publish(row.trade.symbol);
      accepted := accepted + [row.trade];
      return true;
    }

    /** A refused trade changes nothing; an accepted one enters the table and its hour in one transaction. */
    method InsertTrade(row: Row) returns (inserted: bool)
      requires Valid()
      modifies this`rows, this`accepted, hourly`table, tradeRevisions
      ensures Valid() && (inserted, Value()) == Inserted(old(Value()), row)
    {
      InsertKeeps(Value(), row);
      inserted := InsertTradeOn(row);
    }

    method RaiseRevisions(symbol: Option<string>)
      requires tradeRevisions.Valid() && clearRevisions.Valid() && tradeRevisions != clearRevisions
      modifies tradeRevisions, clearRevisions
      ensures tradeRevisions.Valid() && tradeRevisions.Value() == Applied(old(tradeRevisions.Value()), EventOf(symbol))
      ensures clearRevisions.Valid() && clearRevisions.Value() == Applied(old(clearRevisions.Value()), EventOf(symbol))
    {
      if symbol.Some? {
        tradeRevisions.Publish(symbol.value);
        clearRevisions.Publish(symbol.value);
      } else {
        tradeRevisions.ClearAll();
        clearRevisions.ClearAll();
      }
    }

    method KeepForRecovery(symbol: Option<string>)
      modifies this`cleared, this`frontiers, this`openings
      ensures frontiers == MergedFrontiers(rows, old(frontiers), symbol)
      ensures cleared == MergedIds(rows, old(cleared), symbol)
      ensures openings == MergedOpenings(rows, old(openings), symbol)
    {
      frontiers := MergedFrontiers(rows, frontiers, symbol);
      cleared := MergedIds(rows, cleared, symbol);
      openings := MergedOpenings(rows, openings, symbol);
    }

    method DeleteTrades(symbol: Option<string>) returns (deleted: nat)
      modifies this`rows, hourly`table
      ensures rows == Filter(old(rows), Unselected(symbol)) && hourly.table == KeptHours(old(hourly.table), symbol)
      ensures deleted == |Filter(old(rows), Selected(symbol))| == |old(rows)| - |rows|
    {
      FilterSizes(rows, symbol);
      deleted := |Filter(rows, Selected(symbol))|;
      rows := Filter(rows, Unselected(symbol));
      hourly.table := KeptHours(hourly.table, symbol);
    }

    /** Recovery metadata is written from the rows before they are deleted. */
    method ClearTradesOn(symbol: Option<string>) returns (deleted: nat)
      requires tradeRevisions.Valid() && clearRevisions.Valid() && tradeRevisions != clearRevisions
      modifies this`rows, this`cleared, this`frontiers, this`openings, hourly`table, tradeRevisions, clearRevisions
      ensures tradeRevisions.Valid() && clearRevisions.Valid() && Value() == Cleared(old(Value()), symbol)
      ensures deleted == |Filter(old(rows), Selected(symbol))| == |old(rows)| - |rows|
    {
      KeepForRecovery(symbol);
      deleted := DeleteTrades(symbol);
      RaiseRevisions(symbol);
    }

    method ClearTrades(symbol: Option<string>) returns (deleted: nat)
      requires Valid()
      modifies this`rows, this`cleared, this`frontiers, this`openings, hourly`table, tradeRevisions, clearRevisions
      ensures Valid() && Value() == Cleared(old(Value()), symbol)
      ensures deleted == |Filter(old(rows), Selected(symbol))| == |old(rows)| - |rows|
    {
      ClearKeeps(Value(), symbol);
      deleted := ClearTradesOn(symbol);
    }

    method VerifyOn(row: Row, expected: nat) returns (outcome: Outcome)
      requires tradeRevisions.Valid() && clearRevisions.Valid() && tradeRevisions != clearRevisions
      modifies this`rows, hourly`table, tradeRevisions
      ensures tradeRevisions.Valid() && (outcome, Value()) == Verified(old(Value()), row, expected)
    {
      var i := PendingIndex(rows, row.trade.tradeId, row.trade.mode);
      if i.None? {
        return Unchanged;
      }
      var saved := rows[i.value];
      var revision := clearRevisions.SymbolRevision(saved.trade.symbol);
      if revision != expected {
        return Unchanged;
      }
      var ok := hourly.VerifyOn(saved.trade, row.pnl);
      if !ok {
        return MissingPending;
      }
      rows := rows[i.value := VerifiedRow(saved, row)];
      tradeRevisions.Publish(saved.trade.symbol);
      return Updated;
    }

    /** Verification never fails: it settles the trade or leaves everything as it is. */
    method VerifyTradePnl(row: Row, expected: nat) returns (updated: bool)
      requires Valid()
      modifies this`rows, hourly`table, tradeRevisions
      ensures Valid()
      ensures (if updated then Updated else Unchanged, Value()) == Verified(old(Value()), row, expected)
      ensures IsVerified(old(Value()), row, expected, updated, Value())
    {
      PendingIsNeverMissing(Value(), row, expected);
      VerificationMeans(Value(), row, expected);
      VerifyKeeps(Value(), row, expected);
      var outcome := VerifyOn(row, expected);
      updated := outcome.Updated?;
    }

    /** Read under one lock, the revision belongs to the rows. */
    method PendingTrades(scope: Scope, limit: nat, offset: nat) returns (page: seq<Row>, revision: nat)
      requires Valid()
      ensures IsPage(rows, PendingIn(scope), limit, offset, page)
      ensures HoldsPending(rows, scope, limit, offset, page)
      ensures revision == ForSymbol(Value().clears, scope.symbol)
    {
      var order := NewestFirst(Filter(rows, PendingIn(scope)));
      page := order[Min(offset, |order|)..Min(offset + limit, |order|)];
      OrderIsSorted(Filter(rows, PendingIn(scope)));
      PendingPage(rows, scope, limit, offset, page);
      revision := clearRevisions.SymbolRevision(scope.symbol);
    }

    method LastFill(scope: Scope) returns (fill: LastFill)
      requires Valid()
      ensures AnswersNewest(accepted, scope, fill)
    {
      LastFillAnswersNewest(Value(), scope);
      var live := Newest(Filter(Plain(rows), InScope(scope)));
      if live.Some? && (scope !in frontiers || live.value.timestamp >= frontiers[scope].timestamp) {
        fill := FillOf(Some(FrontierOf(live.value)));
      } else {
        fill := FillOf(if scope in frontiers then Some(frontiers[scope]) else None);
      }
    }

    method PairOpening(key: OrderKey) returns (answer: Option<Opening>)
      requires Valid()
      ensures IsPairOpening(Value(), key, answer)
      ensures answer.None? <==> forall t | t in accepted :: !IsFillOf(t, key)
    {
      var live := Filter(Plain(rows), OfOrder(key));
      LiveOpening(rows, key);
      if live != [] {
        answer := Some(OpeningOf(Newest(live).value));
      } else {
        answer := if key in openings then Some(openings[key]) else None;
      }
      PairOpeningsSurvive(Value(), key, answer);
    }

    method HasRecorded(order: OrderId) returns (recorded: bool)
      requires Valid()
      ensures recorded <==> exists t :: t in accepted && t.clientId == order.clientId && t.mode == order.mode
    {
      RecordedMeansAccepted(Value(), order);
      recorded := (exists r | r in rows :: OrderOf(r.trade) == order) || (exists id | id in cleared :: cleared[id] == order);
    }

    method HourlyTradeStats(scope: Scope, now: int) returns (stats: HourlyStats)
      requires Valid()
      ensures stats == PlainStats(rows, scope, now) && IsStats(rows, scope, now, stats)
    {
      stats := hourly.StatsOn(rows, scope, now);
    }
  }

  lemma {:induction false} FilterSizes(rows: seq<Row>, symbol: Option<string>)
    ensures |Filter(rows, Selected(symbol))| + |Filter(rows, Unselected(symbol))| == |rows|
  {
    if rows != [] {
      FilterSizes(rows[..|rows| - 1], symbol);
    }
  }
}
