/**
 The append-only log of order responses. Saving a batch of observations drops a snapshot that repeats the
 last stored one and a single query that repeats the last stored response of its order, yet loses nothing.
 */
module Evidence {
  import opened Basics
  import opened Sequences

  /** The account and symbol a log entry belongs to. */
  datatype Owner = Owner(account: int, symbol: string)

  /** The order a response is about, as the exchange names it. */
  datatype Observed = Observed(clientId: string, symbol: string, side: string, orderId: int)

  datatype Response = Response(order: Observed, body: string)

  /** A batch id is a snapshot's, a single query's own UUID, or neither. */
  datatype Batch = Snapshot(n: int) | Query(n: int) | Other(n: int)

  datatype ObservationId = Uuid(n: int) | Plain(n: int)

  datatype Observation = Observation(client: string, id: ObservationId, batch: Batch, response: Response)

  datatype Row = Row(owner: Owner, observation: Observation)

  datatype Call = Call(owner: Owner, deduplicate: bool, observations: seq<Observation>)

  /** One order under one owner: what an individual query is compared by. */
  datatype Identity = Identity(owner: Owner, client: string, order: Observed)

  function IdentityOf(owner: Owner, o: Observation): Identity {
    Identity(owner, o.client, o.response.order)
  }

  function OfIdentity(identity: Identity): Row -> bool {
    (r: Row) => IdentityOf(r.owner, r.observation) == identity
  }

  function InBatch(owner: Owner, batch: Batch): Row -> bool {
    (r: Row) => r.owner == owner && r.observation.batch == batch
  }

  function SnapshotOf(owner: Owner): Row -> bool {
    (r: Row) => r.owner == owner && r.observation.batch.Snapshot?
  }

  // ---------------------------------------------------------------- one call

  /** The row stored under an observation id. */
  function FindId(rows: seq<Row>, id: ObservationId): (r: Option<Row>)
    ensures r.Some? ==> r.value in rows && r.value.observation.id == id
    ensures r.None? ==> forall row | row in rows :: row.observation.id != id
  {
    if rows == [] then None
    else if rows[|rows| - 1].observation.id == id then Some(rows[|rows| - 1])
    else FindId(rows[..|rows| - 1], id)
  }

  /** An insert under a known id must repeat the stored data. */
  function InsertOne(rows: seq<Row>, owner: Owner, o: Observation): Option<seq<Row>> {
    var stored := FindId(rows, o.id);
    if stored.None? then Some(rows + [Row(owner, o)])
    else if stored.value == Row(owner, o) then Some(rows)
    else None
  }

  function InsertAll(rows: seq<Row>, owner: Owner, observations: seq<Observation>): Option<seq<Row>> {
    if observations == [] then Some(rows)
    else
      var before := InsertAll(rows, owner, observations[..|observations| - 1]);
      if before.None? then None else InsertOne(before.value, owner, observations[|observations| - 1])
  }

  function LastOf(rows: seq<Row>, keep: Row -> bool): Option<Row> {
    var found := Filter(rows, keep);
    if found == [] then None else Some(found[|found| - 1])
  }

  /** The content of a stored batch: clients and responses, in order. */
  function Contents(rows: seq<Row>): seq<(string, Response)> {
    seq(|rows|, i requires 0 <= i < |rows| => (rows[i].observation.client, rows[i].observation.response))
  }

  function ContentsOf(observations: seq<Observation>): seq<(string, Response)> {
    seq(|observations|, i requires 0 <= i < |observations| => (observations[i].client, observations[i].response))
  }

  /** All observations belong to one snapshot. */
  predicate IsSnapshot(observations: seq<Observation>) {
    && observations != [] && observations[0].batch.Snapshot?
    && forall o | o in observations :: o.batch == observations[0].batch
  }

  /** The call repeats the last stored snapshot of its owner under another batch id. */
  predicate RepeatsSnapshot(rows: seq<Row>, call: Call) {
    && call.deduplicate && IsSnapshot(call.observations)
    && var last := LastOf(rows, SnapshotOf(call.owner));
    && last.Some? && last.value.observation.batch != call.observations[0].batch
    && Contents(Filter(rows, InBatch(call.owner, last.value.observation.batch))) == ContentsOf(call.observations)
  }

  predicate IsQuery(observations: seq<Observation>) {
    |observations| == 1 && observations[0].id.Uuid? && observations[0].batch.Query?
  }

  predicate Unused(rows: seq<Row>, owner: Owner, o: Observation) {
    forall r | r in rows :: r.observation.id != o.id && !(r.owner == owner && r.observation.batch == o.batch)
  }

  /** The single query repeats the last stored response of its order, which was a single query itself. */
  predicate RepeatsQuery(rows: seq<Row>, call: Call) {
    && call.deduplicate && IsQuery(call.observations)
    && var o := call.observations[0];
    && var last := LastOf(rows, OfIdentity(IdentityOf(call.owner, o)));
    && last.Some? && last.value.observation.batch.Query? && last.value.observation.batch != o.batch
    && last.value.observation.response == o.response
    && |Filter(rows, InBatch(call.owner, last.value.observation.batch))| == 1
    && Unused(rows, call.owner, o)
  }

  predicate Repeats(rows: seq<Row>, call: Call) {
    RepeatsSnapshot(rows, call) || RepeatsQuery(rows, call)
  }

  /** `None` is the error "observation ID reused with different data", which rolls everything back. */
  function Saved(rows: seq<Row>, call: Call): Option<seq<Row>> {
    if Repeats(rows, call) then Some(rows) else InsertAll(rows, call.owner, call.observations)
  }

  function SavedRows(rows: seq<Row>, call: Call): seq<Row> {
    var saved := Saved(rows, call);
    if saved.Some? then saved.value else rows
  }

  function After(calls: seq<Call>): seq<Row> {
    if calls == [] then [] else SavedRows(After(calls[..|calls| - 1]), calls[|calls| - 1])
  }

  // ---------------------------------------------------------------- inserting

  predicate UniqueIds(rows: seq<Row>) {
    forall i, j | 0 <= i < j < |rows| :: rows[i].observation.id != rows[j].observation.id
  }

  lemma {:induction false} InsertAllMeans(rows: seq<Row>, owner: Owner, observations: seq<Observation>)
    requires UniqueIds(rows) && InsertAll(rows, owner, observations).Some?
    ensures var after := InsertAll(rows, owner, observations).value;
      && UniqueIds(after) && rows <= after
      && (forall o | o in observations :: Row(owner, o) in after)
      && (forall r | r in after :: r in rows || (r.owner == owner && r.observation in observations))
  {
    if observations != [] {
      var init, o := observations[..|observations| - 1], observations[|observations| - 1];
      assert observations == init + [o];
      InsertAllMeans(rows, owner, init);
      var before := InsertAll(rows, owner, init).value;
      if FindId(before, o.id).None? {
        assert InsertAll(rows, owner, observations).value == before + [Row(owner, o)];
      } else {
        assert InsertAll(rows, owner, observations).value == before;
      }
    }
  }

  /** Unused and distinct ids are all appended, in order. */
  lemma {:induction false} InsertAllFresh(rows: seq<Row>, owner: Owner, observations: seq<Observation>)
    requires forall r, o | r in rows && o in observations :: r.observation.id != o.id
    requires forall i, j | 0 <= i < j < |observations| :: observations[i].id != observations[j].id
    ensures InsertAll(rows, owner, observations) == Some(rows + RowsOf(owner, observations))
  {
    if observations == [] {
      assert rows + RowsOf(owner, []) == rows;
    } else {
      var init, o := observations[..|observations| - 1], observations[|observations| - 1];
      assert forall p | p in init :: p in observations;
      InsertAllFresh(rows, owner, init);
      var before := rows + RowsOf(owner, init);
      assert forall r | r in before :: r.observation.id != o.id;
      assert RowsOf(owner, observations) == RowsOf(owner, init) + [Row(owner, o)];
      assert before + [Row(owner, o)] == rows + RowsOf(owner, observations);
    }
  }

  function RowsOf(owner: Owner, observations: seq<Observation>): seq<Row> {
    seq(|observations|, i requires 0 <= i < |observations| => Row(owner, observations[i]))
  }

  /** Retrying rows that are all stored adds nothing and does not fail. */
  lemma {:induction false} InsertAllAgain(rows: seq<Row>, owner: Owner, observations: seq<Observation>)
    requires UniqueIds(rows) && forall o | o in observations :: Row(owner, o) in rows
    ensures InsertAll(rows, owner, observations) == Some(rows)
  {
    if observations != [] {
      var init, o := observations[..|observations| - 1], observations[|observations| - 1];
      InsertAllAgain(rows, owner, init);
      assert o in observations && Row(owner, o) in rows;
      var stored := FindId(rows, o.id).value;
      var i :| 0 <= i < |rows| && rows[i] == stored;
      var j :| 0 <= j < |rows| && rows[j] == Row(owner, o);
      assert i == j || i < j || j < i;
    }
  }

  /** An insert fails exactly when some id is already taken, in the table or earlier in the call, by different data. */
  predicate Reused(rows: seq<Row>, owner: Owner, observations: seq<Observation>, i: int) {
    && 0 <= i < |observations|
    && (|| (exists r :: r in rows && r.observation.id == observations[i].id && r != Row(owner, observations[i]))
        || (exists j :: 0 <= j < i && observations[j].id == observations[i].id && observations[j] != observations[i]))
  }

  lemma {:induction false} InsertFailsIffReused(rows: seq<Row>, owner: Owner, observations: seq<Observation>)
    requires UniqueIds(rows)
    ensures InsertAll(rows, owner, observations).None? <==> exists i :: Reused(rows, owner, observations, i)
  {
    if observations != [] {
      var n := |observations| - 1;
      var init, o := observations[..n], observations[n];
      InsertFailsIffReused(rows, owner, init);
      assert forall i | 0 <= i < n :: Reused(rows, owner, init, i) == Reused(rows, owner, observations, i);
      if InsertAll(rows, owner, init).Some? {
        LastInsertFails(rows, owner, observations);
      }
    }
  }

  lemma LastInsertFails(rows: seq<Row>, owner: Owner, observations: seq<Observation>)
    requires UniqueIds(rows) && observations != []
    requires InsertAll(rows, owner, observations[..|observations| - 1]).Some?
    ensures InsertAll(rows, owner, observations).None? <==> Reused(rows, owner, observations, |observations| - 1)
  {
    var n := |observations| - 1;
    var init, o := observations[..n], observations[n];
    InsertAllMeans(rows, owner, init);
    var before := InsertAll(rows, owner, init).value;
    var stored := FindId(before, o.id);
    if stored.Some? && stored.value != Row(owner, o) {
      if stored.value !in rows {
        var j :| 0 <= j < n && init[j] == stored.value.observation;
      }
    }
    if Reused(rows, owner, observations, n) {
      var taken: Row;
      if r :| r in rows && r.observation.id == o.id && r != Row(owner, o) {
        taken := r;
      } else {
        var j :| 0 <= j < n && observations[j].id == o.id && observations[j] != o;
        assert init[j] in init;
        taken := Row(owner, init[j]);
      }
      assert taken in before && taken.observation.id == o.id;
      SameIdSameRow(before, taken, stored.value);
    }
  }

  lemma SameIdSameRow(rows: seq<Row>, a: Row, b: Row)
    requires UniqueIds(rows) && a in rows && b in rows && a.observation.id == b.observation.id
    ensures a == b
  {
    var i :| 0 <= i < |rows| && rows[i] == a;
    var j :| 0 <= j < |rows| && rows[j] == b;
    assert i == j || i < j || j < i;
  }

  // ---------------------------------------------------------------- nothing is lost

  lemma SaveKeeps(rows: seq<Row>, call: Call)
    requires UniqueIds(rows)
    ensures UniqueIds(SavedRows(rows, call)) && rows <= SavedRows(rows, call)
  {
    if !Repeats(rows, call) && Saved(rows, call).Some? {
      InsertAllMeans(rows, call.owner, call.observations);
    }
  }

  /** The log holds this content for the owner. */
  predicate Holds(rows: seq<Row>, owner: Owner, client: string, response: Response) {
    exists r :: r in rows && r.owner == owner && r.observation.client == client && r.observation.response == response
  }

  lemma LastOfMeans(rows: seq<Row>, keep: Row -> bool)
    ensures var last := LastOf(rows, keep);
      if last.None? then forall r | r in rows :: !keep(r) else last.value in rows && keep(last.value)
  {
    FilterMeans(rows, keep);
    EmptyOrMember(Filter(rows, keep));
    var found := Filter(rows, keep);
    if found != [] {
      assert found[|found| - 1] in found;
    }
  }

  /** A successful save leaves every observed content in the log, stored now or stored before. */
  lemma SaveLosesNothing(rows: seq<Row>, call: Call, o: Observation)
    requires UniqueIds(rows) && Saved(rows, call).Some? && o in call.observations
    ensures Holds(SavedRows(rows, call), call.owner, o.client, o.response)
  {
    if RepeatsSnapshot(rows, call) {
      var last := LastOf(rows, SnapshotOf(call.owner)).value;
      var stored := Filter(rows, InBatch(call.owner, last.observation.batch));
      var i :| 0 <= i < |call.observations| && call.observations[i] == o;
      assert ContentsOf(call.observations)[i] == Contents(stored)[i];
      FilterMeans(rows, InBatch(call.owner, last.observation.batch));
      assert stored[i] in stored;
    } else if RepeatsQuery(rows, call) {
      LastOfMeans(rows, OfIdentity(IdentityOf(call.owner, call.observations[0])));
    } else {
      InsertAllMeans(rows, call.owner, call.observations);
      assert Row(call.owner, o) in SavedRows(rows, call);
    }
  }

  // ---------------------------------------------------------------- only repeats are dropped

  /** Row `i` is the last one of its kind. */
  ghost predicate IsLastAt(rows: seq<Row>, kind: Row -> bool, i: int) {
    0 <= i < |rows| && kind(rows[i]) && forall j | i < j < |rows| :: !kind(rows[j])
  }

  lemma {:induction false} LastOfIsLast(rows: seq<Row>, kind: Row -> bool, i: int)
    requires IsLastAt(rows, kind, i)
    ensures LastOf(rows, kind) == Some(rows[i])
  {
    var n := |rows| - 1;
    if i < n {
      assert !kind(rows[n]);
      LastOfIsLast(rows[..n], kind, i);
    }
  }

  lemma {:induction false} LastOfIsAt(rows: seq<Row>, kind: Row -> bool) returns (i: int)
    requires LastOf(rows, kind).Some?
    ensures IsLastAt(rows, kind, i) && LastOf(rows, kind) == Some(rows[i])
  {
    var n := |rows| - 1;
    if kind(rows[n]) {
      i := n;
    } else {
      i := LastOfIsAt(rows[..n], kind);
    }
  }

  /** All observations are of one snapshot, and the owner's last stored snapshot is another one with the same content. */
  ghost predicate SameAsLastSnapshot(rows: seq<Row>, call: Call) {
    && call.observations != []
    && (forall o | o in call.observations :: o.batch.Snapshot? && o.batch == call.observations[0].batch)
    && exists i :: IsLastAt(rows, SnapshotOf(call.owner), i) && rows[i].observation.batch != call.observations[0].batch
         && Contents(Filter(rows, InBatch(call.owner, rows[i].observation.batch))) == ContentsOf(call.observations)
  }

  /** The row shares its batch with no other. */
  ghost predicate IsAlone(rows: seq<Row>, i: int) {
    0 <= i < |rows|
    && forall j | 0 <= j < |rows| && j != i :: rows[j].owner != rows[i].owner || rows[j].observation.batch != rows[i].observation.batch
  }

  /** One query under an id and a batch of its own; the last stored response of its order is another one, with the same answer. */
  ghost predicate SameAsLastQuery(rows: seq<Row>, call: Call) {
    && |call.observations| == 1
    && var o := call.observations[0];
    && o.id.Uuid? && o.batch.Query?
    && (forall r | r in rows :: r.observation.id != o.id && (r.owner != call.owner || r.observation.batch != o.batch))
    && exists i :: IsLastAt(rows, OfIdentity(IdentityOf(call.owner, o)), i) && IsAlone(rows, i)
         && rows[i].observation.batch.Query? && rows[i].observation.response == o.response
  }

  lemma AloneMeans(rows: seq<Row>, i: int)
    requires 0 <= i < |rows|
    ensures IsAlone(rows, i) <==> |Filter(rows, InBatch(rows[i].owner, rows[i].observation.batch))| == 1
  {
    var kind := InBatch(rows[i].owner, rows[i].observation.batch);
    SplitAt(rows, i);
    FilterJoin(rows[..i], [rows[i]] + rows[i + 1..], kind);
    FilterCons(rows[i], rows[i + 1..], kind);
    NoneKept(rows[..i], kind);
    NoneKept(rows[i + 1..], kind);
    if IsAlone(rows, i) {
      assert forall r | r in rows[..i] :: !kind(r);
      assert forall r | r in rows[i + 1..] :: !kind(r);
    } else {
      var j :| 0 <= j < |rows| && j != i && kind(rows[j]);
      assert if j < i then rows[..i][j] == rows[j] else rows[i + 1..][j - i - 1] == rows[j];
    }
  }

  lemma NoneKept(rows: seq<Row>, kind: Row -> bool)
    ensures |Filter(rows, kind)| == 0 <==> forall r | r in rows :: !kind(r)
  {
    FilterMeans(rows, kind);
    EmptyOrMember(Filter(rows, kind));
  }

  lemma SnapshotRepeats(rows: seq<Row>, call: Call)
    ensures RepeatsSnapshot(rows, call) <==> call.deduplicate && SameAsLastSnapshot(rows, call)
  {
    if LastOf(rows, SnapshotOf(call.owner)).Some? {
      var i := LastOfIsAt(rows, SnapshotOf(call.owner));
    }
    if SameAsLastSnapshot(rows, call) {
      var i :| IsLastAt(rows, SnapshotOf(call.owner), i) && rows[i].observation.batch != call.observations[0].batch
        && Contents(Filter(rows, InBatch(call.owner, rows[i].observation.batch))) == ContentsOf(call.observations);
      LastOfIsLast(rows, SnapshotOf(call.owner), i);
    }
  }

  lemma QueryRepeats(rows: seq<Row>, call: Call)
    ensures RepeatsQuery(rows, call) <==> call.deduplicate && SameAsLastQuery(rows, call)
  {
    if |call.observations| == 1 {
      var o := call.observations[0];
      var kind := OfIdentity(IdentityOf(call.owner, o));
      if LastOf(rows, kind).Some? {
        var i := LastOfIsAt(rows, kind);
        AloneMeans(rows, i);
        assert rows[i] in rows;
      }
      if i :| IsLastAt(rows, kind, i) && IsAlone(rows, i) && rows[i].observation.batch.Query? && rows[i].observation.response == o.response {
        LastOfIsLast(rows, kind, i);
        AloneMeans(rows, i);
        assert rows[i] in rows;
      }
    }
  }

  /**
   Only repeats are dropped: a successful save leaves the log as it was when the call asks for deduplication and repeats
   the owner's last stored snapshot or the last stored query of its order, and otherwise stores every observation.
   */
  lemma OnlyRepeatsAreDropped(rows: seq<Row>, call: Call)
    requires UniqueIds(rows) && Saved(rows, call).Some?
    ensures
      if call.deduplicate && (SameAsLastSnapshot(rows, call) || SameAsLastQuery(rows, call)) then SavedRows(rows, call) == rows
      else
        && (forall o | o in call.observations :: Row(call.owner, o) in SavedRows(rows, call))
        && (forall r | r in SavedRows(rows, call) :: r in rows || (r.owner == call.owner && r.observation in call.observations))
  {
    SnapshotRepeats(rows, call);
    QueryRepeats(rows, call);
    if !Repeats(rows, call) {
      InsertAllMeans(rows, call.owner, call.observations);
    }
  }

  lemma {:induction false} RunIsUnique(calls: seq<Call>)
    ensures UniqueIds(After(calls))
  {
    if calls != [] {
      RunIsUnique(calls[..|calls| - 1]);
      SaveKeeps(After(calls[..|calls| - 1]), calls[|calls| - 1]);
    }
  }

  /** Over any run, every content that a successful call observed is in the log at the end. */
  lemma {:induction false} RunLosesNothing(calls: seq<Call>, k: nat, o: Observation)
    requires k < |calls| && o in calls[k].observations && Saved(After(calls[..k]), calls[k]).Some?
    ensures Holds(After(calls), calls[k].owner, o.client, o.response)
  {
    var init := calls[..|calls| - 1];
    RunIsUnique(init);
    if k == |calls| - 1 {
      SaveLosesNothing(After(init), calls[k], o);
    } else {
      assert init[..k] == calls[..k];
      RunLosesNothing(init, k, o);
      SaveKeeps(After(init), calls[|calls| - 1]);
    }
  }

  /** Retrying a successful call at once changes nothing and succeeds again. */
  lemma RetryAddsNothing(rows: seq<Row>, call: Call)
    requires UniqueIds(rows) && Saved(rows, call).Some?
    ensures Saved(SavedRows(rows, call), call) == Some(SavedRows(rows, call))
  {
    if !Repeats(rows, call) {
      InsertAllMeans(rows, call.owner, call.observations);
      InsertAllAgain(SavedRows(rows, call), call.owner, call.observations);
    }
  }

  /** Retrying rows that are stored changes nothing, however much has been saved since. */
  lemma StoredRowsAddNothing(rows: seq<Row>, call: Call)
    requires UniqueIds(rows) && forall o | o in call.observations :: Row(call.owner, o) in rows
    ensures Saved(rows, call) == Some(rows)
  {
    InsertAllAgain(rows, call.owner, call.observations);
  }

  /** A call fails exactly when it repeats nothing and reuses an id with different data, and then changes nothing. */
  lemma SaveFailsIffReused(rows: seq<Row>, call: Call)
    requires UniqueIds(rows)
    ensures Saved(rows, call).None?
        <==> !Repeats(rows, call) && exists i :: Reused(rows, call.owner, call.observations, i)
    ensures Saved(rows, call).None? ==> SavedRows(rows, call) == rows
  {
    InsertFailsIffReused(rows, call.owner, call.observations);
  }

  // ---------------------------------------------------------------- single queries of one order

  /** Consecutive repeats removed. */
  function Deduplicated<T(==)>(s: seq<T>): seq<T> {
    if |s| <= 1 then s
    else
      var init := Deduplicated(s[..|s| - 1]);
      if s[|s| - 1] == s[|s| - 2] then init else init + [s[|s| - 1]]
  }

  lemma {:induction false} DeduplicatedEndsAlike<T>(s: seq<T>)
    requires s != []
    ensures Deduplicated(s) != [] && Deduplicated(s)[|Deduplicated(s)| - 1] == s[|s| - 1]
  {
    if |s| > 1 {
      DeduplicatedEndsAlike(s[..|s| - 1]);
    }
  }

  function ResponsesOf(rows: seq<Row>): seq<Response> {
    seq(|rows|, i requires 0 <= i < |rows| => rows[i].observation.response)
  }

  /** The stored history of one order. */
  function StoredOf(rows: seq<Row>, identity: Identity): seq<Response> {
    ResponsesOf(Filter(rows, OfIdentity(identity)))
  }

  /** The observed history of one order. */
  function ObservedIn(call: Call, identity: Identity): seq<Response> {
    ResponsesOf(Filter(RowsOf(call.owner, call.observations), OfIdentity(identity)))
  }

  function ObservedOf(calls: seq<Call>, identity: Identity): seq<Response> {
    if calls == [] then [] else ObservedOf(calls[..|calls| - 1], identity) + ObservedIn(calls[|calls| - 1], identity)
  }

  predicate Mentions(call: Call, identity: Identity) {
    exists o :: o in call.observations && IdentityOf(call.owner, o) == identity
  }

  /** The two calls share no observation id, and no batch of the same owner. */
  predicate Apart(a: Call, b: Call) {
    forall o, p | o in a.observations && p in b.observations :: o.id != p.id && (a.owner == b.owner ==> o.batch != p.batch)
  }

  /** Every call about the order is a single query with an id and a batch of its own. */
  ghost predicate OwnQueries(calls: seq<Call>, identity: Identity) {
    && (forall i {:trigger Mentions(calls[i], identity)} | 0 <= i < |calls| && Mentions(calls[i], identity) ::
          calls[i].deduplicate && IsQuery(calls[i].observations))
    && (forall i, j {:trigger Apart(calls[i], calls[j])} |
          0 <= i < |calls| && 0 <= j < |calls| && i != j && Mentions(calls[i], identity) :: Apart(calls[i], calls[j]))
  }

  /** Every stored row was observed by an earlier call. */
  predicate From(calls: seq<Call>, r: Row, k: int) {
    0 <= k < |calls| && calls[k].owner == r.owner && r.observation in calls[k].observations
  }

  lemma {:induction false} RowsHaveCalls(calls: seq<Call>, r: Row)
    requires r in After(calls)
    ensures exists k :: From(calls, r, k)
  {
    var init, call := calls[..|calls| - 1], calls[|calls| - 1];
    RunIsUnique(init);
    if r in After(init) {
      RowsHaveCalls(init, r);
      var k :| From(init, r, k);
      assert From(calls, r, k);
    } else {
      InsertAllMeans(After(init), call.owner, call.observations);
      assert From(calls, r, |calls| - 1);
    }
  }

  lemma AtMostOne(rows: seq<Row>, keep: Row -> bool, r: Row)
    requires UniqueIds(rows) && r in rows && keep(r) && forall q | q in rows && keep(q) :: q == r
    ensures |Filter(rows, keep)| == 1
  {
    var n := |rows| - 1;
    var init := rows[..n];
    assert rows == init + [rows[n]];
    if keep(rows[n]) {
      forall q | q in init ensures !keep(q) {
        var i :| 0 <= i < |init| && init[i] == q;
        assert rows[i] == q && q in rows;
      }
      KeepNone(init, keep);
    } else {
      assert r in init;
      AtMostOne(init, keep, r);
    }
  }

  lemma SameBatchSameCall(calls: seq<Call>, identity: Identity, r: Row, k: int, q: Row, l: int)
    requires OwnQueries(calls, identity) && From(calls, r, k) && Mentions(calls[k], identity) && From(calls, q, l)
    requires q.owner == r.owner && q.observation.batch == r.observation.batch
    ensures l == k && q.observation == r.observation
  {
    assert l != k ==> Apart(calls[k], calls[l]);
    assert IsQuery(calls[k].observations);
  }

  lemma SameBatchSameRow(calls: seq<Call>, identity: Identity, r: Row, k: int, q: Row)
    requires OwnQueries(calls, identity) && From(calls, r, k) && Mentions(calls[k], identity)
    requires q in After(calls) && q.owner == r.owner && q.observation.batch == r.observation.batch
    ensures q == r
  {
    RowsHaveCalls(calls, q);
    var l :| From(calls, q, l);
    SameBatchSameCall(calls, identity, r, k, q, l);
  }

  /** A stored query of the order is alone in its batch. */
  lemma QueriesAreAlone(calls: seq<Call>, identity: Identity, r: Row)
    requires OwnQueries(calls, identity) && r in After(calls) && IdentityOf(r.owner, r.observation) == identity
    ensures r.observation.batch.Query?
    ensures |Filter(After(calls), InBatch(r.owner, r.observation.batch))| == 1
  {
    RowsHaveCalls(calls, r);
    var k :| From(calls, r, k);
    assert Mentions(calls[k], identity);
    forall q | q in After(calls) && InBatch(r.owner, r.observation.batch)(q) ensures q == r {
      SameBatchSameRow(calls, identity, r, k, q);
    }
    RunIsUnique(calls);
    AtMostOne(After(calls), InBatch(r.owner, r.observation.batch), r);
  }

  lemma LastIsUnused(calls: seq<Call>, identity: Identity)
    requires calls != [] && OwnQueries(calls, identity) && Mentions(calls[|calls| - 1], identity)
    ensures var call := calls[|calls| - 1]; Unused(After(calls[..|calls| - 1]), call.owner, call.observations[0])
  {
    var init, call := calls[..|calls| - 1], calls[|calls| - 1];
    forall r | r in After(init)
      ensures r.observation.id != call.observations[0].id
      ensures !(r.owner == call.owner && r.observation.batch == call.observations[0].batch)
    {
      RowsHaveCalls(init, r);
      var k :| From(init, r, k);
      assert calls[k] == init[k] && Apart(call, calls[k]);
    }
  }

  lemma PrefixOwnQueries(calls: seq<Call>, identity: Identity)
    requires calls != [] && OwnQueries(calls, identity)
    ensures OwnQueries(calls[..|calls| - 1], identity)
  {
  }

  /** A call that does not mention the order leaves its stored history alone. */
  lemma OthersDoNotInterfere(rows: seq<Row>, call: Call, identity: Identity)
    requires UniqueIds(rows) && !Mentions(call, identity)
    ensures StoredOf(SavedRows(rows, call), identity) == StoredOf(rows, identity)
    ensures ObservedIn(call, identity) == []
  {
    var mine := RowsOf(call.owner, call.observations);
    forall r | r in mine ensures !OfIdentity(identity)(r) {
      var i :| 0 <= i < |mine| && mine[i] == r;
      assert call.observations[i] in call.observations;
    }
    KeepNone(mine, OfIdentity(identity));
    var after := SavedRows(rows, call);
    SaveKeeps(rows, call);
    if !Repeats(rows, call) && Saved(rows, call).Some? {
      InsertAllMeans(rows, call.owner, call.observations);
      FilterRest(rows, after, OfIdentity(identity));
    }
  }

  /** Appending elements that are filtered out. */
  lemma {:induction false} FilterRest(rows: seq<Row>, after: seq<Row>, keep: Row -> bool)
    requires rows <= after && UniqueIds(after)
    requires forall r | r in after && r !in rows :: !keep(r)
    ensures Filter(after, keep) == Filter(rows, keep)
  {
    if after != rows {
      var n := |after| - 1;
      var init := after[..n];
      assert after == init + [after[n]];
      assert forall i | 0 <= i < |rows| :: rows[i] == after[i];
      assert after[n] !in rows;
      FilterRest(rows, init, keep);
    }
  }

  lemma QueryObserved(call: Call, identity: Identity)
    requires IsQuery(call.observations) && Mentions(call, identity)
    ensures IdentityOf(call.owner, call.observations[0]) == identity
    ensures ObservedIn(call, identity) == [call.observations[0].response]
  {
    var o := call.observations[0];
    assert RowsOf(call.owner, call.observations) == [Row(call.owner, o)];
    FilterPut([], Row(call.owner, o), OfIdentity(identity));
  }

  /** What the stored log knows about an order before its next query. */
  ghost predicate ReadyFor(rows: seq<Row>, identity: Identity, call: Call) {
    && call.deduplicate && IsQuery(call.observations)
    && IdentityOf(call.owner, call.observations[0]) == identity
    && Unused(rows, call.owner, call.observations[0])
    && var last := LastOf(rows, OfIdentity(identity));
       last.Some? ==>
         && last.value.observation.batch.Query?
         && last.value.observation.batch != call.observations[0].batch
         && |Filter(rows, InBatch(call.owner, last.value.observation.batch))| == 1
  }

  lemma QueriesAreReady(calls: seq<Call>, identity: Identity)
    requires calls != [] && OwnQueries(calls, identity) && Mentions(calls[|calls| - 1], identity)
    ensures ReadyFor(After(calls[..|calls| - 1]), identity, calls[|calls| - 1])
  {
    var init, call := calls[..|calls| - 1], calls[|calls| - 1];
    QueryObserved(call, identity);
    LastIsUnused(calls, identity);
    PrefixOwnQueries(calls, identity);
    LastOfMeans(After(init), OfIdentity(identity));
    var last := LastOf(After(init), OfIdentity(identity));
    if last.Some? {
      QueriesAreAlone(init, identity, last.value);
    }
  }

  /** A single query of the order is dropped exactly when it repeats the last stored response, and appended otherwise. */
  lemma QueryStep(rows: seq<Row>, identity: Identity, call: Call)
    requires ReadyFor(rows, identity, call)
    ensures var response, stored := call.observations[0].response, StoredOf(rows, identity);
      StoredOf(SavedRows(rows, call), identity) ==
        if stored != [] && stored[|stored| - 1] == response then stored else stored + [response]
  {
    var o := call.observations[0];
    if !RepeatsQuery(rows, call) {
      assert InsertAll(rows, call.owner, call.observations[..0]) == Some(rows);
      assert InsertAll(rows, call.owner, call.observations) == InsertOne(rows, call.owner, o);
      FilterPut(rows, Row(call.owner, o), OfIdentity(identity));
      assert StoredOf(rows + [Row(call.owner, o)], identity) == StoredOf(rows, identity) + [o.response];
    }
  }

  lemma DeduplicatedPut<T>(s: seq<T>, x: T)
    ensures Deduplicated(s + [x]) ==
      if s != [] && s[|s| - 1] == x then Deduplicated(s) else Deduplicated(s) + [x]
  {
    assert (s + [x])[..|s|] == s;
  }

  lemma HistoryStep(rows: seq<Row>, seen: seq<Response>, identity: Identity, call: Call)
    requires UniqueIds(rows) && StoredOf(rows, identity) == Deduplicated(seen)
    requires Mentions(call, identity) ==> ReadyFor(rows, identity, call)
    ensures StoredOf(SavedRows(rows, call), identity) == Deduplicated(seen + ObservedIn(call, identity))
  {
    if Mentions(call, identity) {
      QueryStep(rows, identity, call);
      QueryObserved(call, identity);
      DeduplicatedPut(seen, call.observations[0].response);
      if seen != [] {
        DeduplicatedEndsAlike(seen);
      }
    } else {
      OthersDoNotInterfere(rows, call, identity);
      assert seen + [] == seen;
    }
  }

  /**
   The stored history of an order that is only ever queried singly is its observed history with
   consecutive repeats removed, whatever snapshots and queries of other orders come in between.
   */
  lemma {:induction false} QueriesAreDeduplicated(calls: seq<Call>, identity: Identity)
    requires OwnQueries(calls, identity)
    ensures StoredOf(After(calls), identity) == Deduplicated(ObservedOf(calls, identity))
  {
    if calls != [] {
      var init, call := calls[..|calls| - 1], calls[|calls| - 1];
      PrefixOwnQueries(calls, identity);
      QueriesAreDeduplicated(init, identity);
      if Mentions(call, identity) {
        QueriesAreReady(calls, identity);
      }
      RunIsUnique(init);
      HistoryStep(After(init), ObservedOf(init, identity), identity, call);
    }
  }

  // ---------------------------------------------------------------- snapshots

  /** The content of the last stored snapshot of an owner. */
  function LatestSnapshot(rows: seq<Row>, owner: Owner): seq<(string, Response)> {
    var last := LastOf(rows, SnapshotOf(owner));
    if last.None? then [] else Contents(Filter(rows, InBatch(owner, last.value.observation.batch)))
  }

  predicate SnapshotCall(call: Call, owner: Owner) {
    call.owner == owner && IsSnapshot(call.observations)
  }

  /** The content of the last snapshot that was observed, if any. */
  function LastObservedSnapshot(calls: seq<Call>, owner: Owner): seq<(string, Response)> {
    if calls == [] then []
    else if SnapshotCall(calls[|calls| - 1], owner) then ContentsOf(calls[|calls| - 1].observations)
    else LastObservedSnapshot(calls[..|calls| - 1], owner)
  }

  predicate DistinctIds(observations: seq<Observation>) {
    forall i, j | 0 <= i < j < |observations| :: observations[i].id != observations[j].id
  }

  /** The owner's snapshots are saved with deduplication, whole, each under ids and a batch of its own. */
  ghost predicate OwnSnapshots(calls: seq<Call>, owner: Owner) {
    && (forall i {:trigger SnapshotCall(calls[i], owner)} | 0 <= i < |calls| && calls[i].owner == owner ::
          if SnapshotCall(calls[i], owner) then calls[i].deduplicate && DistinctIds(calls[i].observations)
          else forall o | o in calls[i].observations :: !o.batch.Snapshot?)
    && (forall i, j {:trigger Apart(calls[i], calls[j])} |
          0 <= i < |calls| && 0 <= j < |calls| && i != j && SnapshotCall(calls[i], owner) :: Apart(calls[i], calls[j]))
  }

  lemma SnapshotIsUnused(calls: seq<Call>, owner: Owner, r: Row, o: Observation)
    requires calls != [] && OwnSnapshots(calls, owner) && SnapshotCall(calls[|calls| - 1], owner)
    requires r in After(calls[..|calls| - 1]) && o in calls[|calls| - 1].observations
    ensures r.observation.id != o.id && (r.owner == owner ==> r.observation.batch != o.batch)
  {
    var init := calls[..|calls| - 1];
    RowsHaveCalls(init, r);
    var k :| From(init, r, k);
    assert calls[k] == init[k] && Apart(calls[|calls| - 1], calls[k]);
  }

  /** Appended rows of one new snapshot are the latest snapshot. */
  lemma AppendedSnapshot(rows: seq<Row>, added: seq<Row>, owner: Owner, batch: Batch)
    requires added != [] && batch.Snapshot?
    requires forall r | r in added :: r.owner == owner && r.observation.batch == batch
    requires forall r | r in rows :: !(r.owner == owner && r.observation.batch == batch)
    ensures LatestSnapshot(rows + added, owner) == Contents(added)
  {
    KeepNone(rows, InBatch(owner, batch));
    KeepAll(added, InBatch(owner, batch));
    KeepAll(added, SnapshotOf(owner));
    FilterJoin(rows, added, InBatch(owner, batch));
    FilterJoin(rows, added, SnapshotOf(owner));
    assert [] + added == added;
    var found := Filter(rows, SnapshotOf(owner)) + added;
    assert found[|found| - 1] == added[|added| - 1];
    assert added[|added| - 1] in added;
  }

  /** A snapshot under unused ids becomes the latest one. */
  lemma SnapshotStep(rows: seq<Row>, call: Call)
    requires call.deduplicate && IsSnapshot(call.observations) && DistinctIds(call.observations)
    requires forall r, o | r in rows && o in call.observations ::
      r.observation.id != o.id && (r.owner == call.owner ==> r.observation.batch != o.batch)
    ensures LatestSnapshot(SavedRows(rows, call), call.owner) == ContentsOf(call.observations)
  {
    if !RepeatsSnapshot(rows, call) {
      var added := RowsOf(call.owner, call.observations);
      assert call.observations[0] in call.observations;
      InsertAllFresh(rows, call.owner, call.observations);
      AddedAreInBatch(call);
      AppendedSnapshot(rows, added, call.owner, call.observations[0].batch);
      assert Contents(added) == ContentsOf(call.observations);
    }
  }

  lemma AddedAreInBatch(call: Call)
    requires IsSnapshot(call.observations)
    ensures forall r | r in RowsOf(call.owner, call.observations) ::
      r.owner == call.owner && r.observation.batch == call.observations[0].batch
  {
    var added := RowsOf(call.owner, call.observations);
    forall r | r in added ensures r.owner == call.owner && r.observation.batch == call.observations[0].batch {
      var i :| 0 <= i < |added| && added[i] == r;
      assert call.observations[i] in call.observations;
    }
  }

  lemma SameLatestSnapshot(rows: seq<Row>, after: seq<Row>, owner: Owner)
    requires rows <= after && UniqueIds(after)
    requires forall r | r in after && r !in rows :: !(r.owner == owner && r.observation.batch.Snapshot?)
    ensures LatestSnapshot(after, owner) == LatestSnapshot(rows, owner)
  {
    FilterRest(rows, after, SnapshotOf(owner));
    LastOfMeans(rows, SnapshotOf(owner));
    var last := LastOf(rows, SnapshotOf(owner));
    if last.Some? {
      FilterRest(rows, after, InBatch(owner, last.value.observation.batch));
    }
  }

  /** A call without a snapshot of the owner leaves the latest one in place. */
  lemma OthersKeepSnapshot(rows: seq<Row>, call: Call, owner: Owner)
    requires UniqueIds(rows)
    requires call.owner == owner ==> forall o | o in call.observations :: !o.batch.Snapshot?
    ensures LatestSnapshot(SavedRows(rows, call), owner) == LatestSnapshot(rows, owner)
  {
    if !Repeats(rows, call) && Saved(rows, call).Some? {
      InsertAllMeans(rows, call.owner, call.observations);
      SameLatestSnapshot(rows, SavedRows(rows, call), owner);
    }
  }

  /** The latest stored snapshot of an owner is the last one observed, although unchanged snapshots are not stored again. */
  lemma {:induction false} LatestSnapshotIsLastObserved(calls: seq<Call>, owner: Owner)
    requires OwnSnapshots(calls, owner)
    ensures LatestSnapshot(After(calls), owner) == LastObservedSnapshot(calls, owner)
  {
    if calls != [] {
      var init, call := calls[..|calls| - 1], calls[|calls| - 1];
      PrefixOwnSnapshots(calls, owner);
      LatestSnapshotIsLastObserved(init, owner);
      RunIsUnique(init);
      if SnapshotCall(call, owner) {
        forall r, o | r in After(init) && o in call.observations
          ensures r.observation.id != o.id && (r.owner == owner ==> r.observation.batch != o.batch)
        {
          SnapshotIsUnused(calls, owner, r, o);
        }
        SnapshotStep(After(init), call);
      } else {
        OthersKeepSnapshot(After(init), call, owner);
      }
    }
  }

  lemma PrefixOwnSnapshots(calls: seq<Call>, owner: Owner)
    requires calls != [] && OwnSnapshots(calls, owner)
    ensures OwnSnapshots(calls[..|calls| - 1], owner)
    ensures var call := calls[|calls| - 1];
      if SnapshotCall(call, owner) then call.deduplicate && DistinctIds(call.observations)
      else call.owner == owner ==> forall o | o in call.observations :: !o.batch.Snapshot?
  {
    var init := calls[..|calls| - 1];
    assert forall i | 0 <= i < |init| :: SnapshotCall(calls[i], owner) == SnapshotCall(init[i], owner);
    assert SnapshotCall(calls[|calls| - 1], owner) || !SnapshotCall(calls[|calls| - 1], owner);
  }

  // ---------------------------------------------------------------- the table, updated in place

  class EvidenceLog {
    var rows: seq<Row>

    ghost predicate Valid()
      reads this
    {
      UniqueIds(rows)
    }

    constructor ()
      ensures Valid() && rows == []
    {
      rows := [];
    }

    /** Compare the last stored snapshot of the owner with the new one, element by element. */
    method SameSnapshot(call: Call) returns (same: bool)
      ensures same == RepeatsSnapshot(rows, call)
    {
      if !call.deduplicate || !IsSnapshot(call.observations) {
        return false;
      }
      var last := LastOf(rows, SnapshotOf(call.owner));
      if last.None? || last.value.observation.batch == call.observations[0].batch {
        return false;
      }
      var previous := Filter(rows, InBatch(call.owner, last.value.observation.batch));
      if |previous| != |call.observations| {
        return false;
      }
      var i := 0;
      while i < |previous|
        invariant 0 <= i <= |previous|
        invariant forall j | 0 <= j < i :: Contents(previous)[j] == ContentsOf(call.observations)[j]
      {
        if previous[i].observation.client != call.observations[i].client
           || previous[i].observation.response != call.observations[i].response {
          assert Contents(previous)[i] != ContentsOf(call.observations)[i];
          return false;
        }
        i := i + 1;
      }
      return true;
    }

    /** Insert row by row; a reused id with other data undoes the inserts made so far. */
    method InsertRows(owner: Owner, observations: seq<Observation>) returns (ok: bool)
      modifies this
      ensures var inserted := InsertAll(old(rows), owner, observations);
        ok == inserted.Some? && rows == if ok then inserted.value else old(rows)
    {
      var before := rows;
      var i := 0;
      while i < |observations|
        invariant 0 <= i <= |observations|
        invariant InsertAll(before, owner, observations[..i]) == Some(rows)
      {
        var o := observations[i];
        assert observations[..i + 1][..i] == observations[..i];
        var stored := FindId(rows, o.id);
        if stored.Some? && stored.value != Row(owner, o) {
          InsertAllFails(before, owner, observations, i + 1);
          rows := before;
          return false;
        }
        if stored.None? {
          rows := rows + [Row(owner, o)];
        }
        i := i + 1;
      }
      assert observations[..i] == observations;
      return true;
    }

    /** One transaction: on a reused id with other data it fails and leaves the table as it was. */
    method Save(call: Call) returns (ok: bool)
      requires Valid()
      modifies this
      ensures Valid() && rows == SavedRows(old(rows), call) && ok == Saved(old(rows), call).Some?
    {
      SaveKeeps(rows, call);
      var duplicate := SameSnapshot(call);
      if duplicate || RepeatsQuery(rows, call) {
        return true;
      }
      ok := InsertRows(call.owner, call.observations);
    }
  }

  lemma {:induction false} InsertAllFails(rows: seq<Row>, owner: Owner, observations: seq<Observation>, n: nat)
    requires n <= |observations| && InsertAll(rows, owner, observations[..n]).None?
    ensures InsertAll(rows, owner, observations).None?
  {
    if n == |observations| {
      assert observations[..n] == observations;
    } else {
      var init := observations[..|observations| - 1];
      assert init[..n] == observations[..n];
      InsertAllFails(rows, owner, init, n);
    }
  }
}
