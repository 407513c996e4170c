/**
 The page loop of `get_user_trades`: a cursor over one order's executions that restarts once from
 identifier 0, merges pages by identifier and stops when the quantities add up.
 */
module FillPages {
  import opened Basics
  import opened MapSum

  const PAGE_LIMIT: nat := 1000
  const FILL_LIMIT: nat := 1_000_000
  const MAX_ID: int := 0x7fff_ffff_ffff_ffff
  const PAGES_PER_CALL: nat := 3

  datatype Trade = Trade(realizedPnl: real, commission: real, commissionAsset: string, maker: bool)

  datatype Fill = Fill(id: int, orderId: int, qty: real, trade: Trade)

  datatype Progress = Progress(
    expectedQty: real, fromId: Option<int>, restarted: bool,
    fills: map<int, Fill>, quantity: real, advances: nat)

  datatype PageError =
    | TooLarge | InvalidTrade | Conflict(id: int) | ExceedsQuantity | TooManyFills
    | Incomplete | InvalidCursor | CursorDidNotAdvance

  datatype Verdict = Complete(result: map<int, Fill>) | Continue | Reject(error: PageError)

  /** What one attempt of the loop meets: no budget, a failed request, a clear noticed afterwards, or a page. */
  datatype Reply = Refused | Failed | Cleared | Page(fills: seq<Fill>)

  datatype CallEnd = Finished(result: map<int, Fill>) | Later | Stopped | Broken(error: PageError)

  const Qty: Fill -> real := (f: Fill) => f.qty

  function Fresh(expectedQty: real): Progress {
    Progress(expectedQty, None, false, map[], 0.0, 0)
  }

  // ---------------------------------------------------------------- one page

  datatype Scan = Scanned(added: map<int, Fill>, quantity: real, maxId: Option<int>) | ScanFailed(error: PageError)

  predicate SameExecution(a: Fill, b: Fill) {
    a.qty == b.qty && a.trade == b.trade
  }

  function ScanFill(held: map<int, Fill>, orderId: int, so: Scan, fill: Fill): Scan {
    if so.ScanFailed? then so
    else if fill.orderId != orderId || fill.id < 0 || fill.qty <= 0.0 then ScanFailed(InvalidTrade)
    else
      var maxId := Some(if so.maxId.None? then fill.id else if fill.id > so.maxId.value then fill.id else so.maxId.value);
      if fill.id in held then
        if SameExecution(held[fill.id], fill) then so.(maxId := maxId) else ScanFailed(Conflict(fill.id))
      else if fill.id in so.added then
        if SameExecution(so.added[fill.id], fill) then so.(maxId := maxId) else ScanFailed(Conflict(fill.id))
      else
        Scanned(so.added[fill.id := fill], so.quantity + fill.qty, maxId)
  }

  /** The page read from left to right against the fills already held. */
  function ScanPage(held: map<int, Fill>, orderId: int, page: seq<Fill>, quantity: real): Scan {
    if page == [] then Scanned(map[], quantity, None)
    else ScanFill(held, orderId, ScanPage(held, orderId, page[..|page| - 1], quantity), page[|page| - 1])
  }

  /** The decision taken once a page of `size` fills has been scanned. */
  function Decide(p: Progress, size: nat, s: Scan): (Verdict, Progress) {
    match s
    case ScanFailed(error) => (Reject(error), p)
    case Scanned(added, quantity, maxId) =>
      if quantity > p.expectedQty then (Reject(ExceedsQuantity), p)
      else if |p.fills.Keys| + |added.Keys| > FILL_LIMIT then (Reject(TooManyFills), Fresh(p.expectedQty))
      else if quantity == p.expectedQty then (Complete(p.fills + added), p.(fills := map[]))
      else
        match NextCursor(p, size, maxId)
        case Next(id) => (Continue, Advanced(p, added, quantity, id))
        case Stuck(error) => (Reject(error), if error.Incomplete? then Fresh(p.expectedQty) else p)
  }

  datatype Cursor = Next(id: int) | Stuck(error: PageError)

  /** Where the next page starts: identifier 0 after the first page, past the page's maximum after a full one. */
  function NextCursor(p: Progress, size: nat, maxId: Option<int>): Cursor {
    if !p.restarted then Next(0)
    else if size < PAGE_LIMIT then Stuck(Incomplete)
    else if maxId.None? || maxId.value >= MAX_ID then Stuck(InvalidCursor)
    else if p.fromId.Some? && maxId.value + 1 <= p.fromId.value then Stuck(CursorDidNotAdvance)
    else Next(maxId.value + 1)
  }

  function PageStep(p: Progress, orderId: int, page: seq<Fill>): (Verdict, Progress) {
    if |page| > PAGE_LIMIT then (Reject(TooLarge), p)
    else Decide(p, |page|, ScanPage(p.fills, orderId, page, p.quantity))
  }

  function Advanced(p: Progress, added: map<int, Fill>, quantity: real, next: int): Progress {
    p.(fills := p.fills + added, quantity := quantity, fromId := Some(next), restarted := true, advances := p.advances + 1)
  }

  // ---------------------------------------------------------------- any server

  /** A fill the loop may hold for `orderId` under identifier `id`. */
  ghost predicate GoodFill(f: Fill, id: int, orderId: int) {
    f.id == id && id >= 0 && f.orderId == orderId && f.qty > 0.0
  }

  /** What a progress record satisfies whenever no call is working on it. */
  ghost predicate Saved(p: Progress, orderId: int) {
    && p.quantity == Sum(p.fills, Qty) < p.expectedQty
    && 0.0 < p.expectedQty
    && |p.fills.Keys| <= FILL_LIMIT
    && (forall id | id in p.fills :: GoodFill(p.fills[id], id, orderId))
    && (p.restarted <==> p.fromId.Some?)
    && (p.fromId.Some? ==> p.fromId.value >= 0)
    && (!p.restarted ==> p.fills == map[])
  }

  /** `f` is a valid execution of the order and is covered by the held and the added fills. */
  ghost predicate Covered(held: map<int, Fill>, added: map<int, Fill>, orderId: int, f: Fill) {
    && f.orderId == orderId && f.id >= 0 && f.qty > 0.0
    && (f.id in held || f.id in added)
    && SameExecution(if f.id in held then held[f.id] else added[f.id], f)
  }

  /** Every fill of `all` was held before or is on the page. */
  ghost predicate Origin(held: map<int, Fill>, page: seq<Fill>, f: Fill) {
    (f.id in held && held[f.id] == f) || f in page
  }

  ghost predicate FromPage(held: map<int, Fill>, page: seq<Fill>, all: map<int, Fill>) {
    forall id {:trigger Origin(held, page, all[id])} | id in all :: Origin(held, page, all[id])
  }

  function PageIds(page: seq<Fill>): set<int> {
    set i | 0 <= i < |page| :: page[i].id
  }

  ghost predicate IsMaxId(page: seq<Fill>, maxId: Option<int>) {
    if maxId.None? then page == [] else IsMax(page, maxId.value)
  }

  ghost predicate IsMax(page: seq<Fill>, m: int) {
    && m in PageIds(page)
    && (forall f | f in page :: f.id <= m)
  }

  /** What the scan of a page means: it covers the page, adds only new fills and counts each of them once. */
  ghost predicate ScanMeans(held: map<int, Fill>, orderId: int, page: seq<Fill>, quantity: real, s: Scan)
    requires s.Scanned?
  {
    && s.added.Keys !! held.Keys
    && s.quantity == quantity + Sum(s.added, Qty)
    && (forall id | id in s.added :: GoodFill(s.added[id], id, orderId))
    && FromPage(held, page, s.added)
    && (forall f | f in page :: Covered(held, s.added, orderId, f))
    && IsMaxId(page, s.maxId)
  }

  lemma MaxStep(init: seq<Fill>, last: Fill, maxId: Option<int>)
    requires IsMaxId(init, maxId)
    ensures IsMaxId(init + [last], Some(if maxId.None? || last.id > maxId.value then last.id else maxId.value))
  {
    var page := init + [last];
    assert page[|init|] == last;
    forall id | id in PageIds(init) ensures id in PageIds(page) {
      var i :| 0 <= i < |init| && init[i].id == id;
      assert page[i].id == id;
    }
  }

  lemma ScanStep(held: map<int, Fill>, orderId: int, init: seq<Fill>, last: Fill, quantity: real, before: Scan)
    requires before.Scanned? && ScanMeans(held, orderId, init, quantity, before)
    requires ScanFill(held, orderId, before, last).Scanned?
    ensures ScanMeans(held, orderId, init + [last], quantity, ScanFill(held, orderId, before, last))
  {
    var s := ScanFill(held, orderId, before, last);
    var page := init + [last];
    MaxStep(init, last, before.maxId);
    SumPut(before.added, last.id, last, Qty);
    forall f | f in page ensures Covered(held, s.added, orderId, f) {
      if f in init {
        assert Covered(held, before.added, orderId, f);
      }
    }
    forall id | id in s.added ensures Origin(held, page, s.added[id]) {
      if id in before.added {
        assert Origin(held, init, before.added[id]);
      }
    }
  }

  lemma {:induction false} ScanIsSound(held: map<int, Fill>, orderId: int, page: seq<Fill>, quantity: real)
    ensures var s := ScanPage(held, orderId, page, quantity); s.Scanned? ==> ScanMeans(held, orderId, page, quantity, s)
  {
    if page != [] {
      var init, last := page[..|page| - 1], page[|page| - 1];
      assert page == init + [last];
      ScanIsSound(held, orderId, init, quantity);
      var before := ScanPage(held, orderId, init, quantity);
      if before.Scanned? && ScanFill(held, orderId, before, last).Scanned? {
        ScanStep(held, orderId, init, last, quantity, before);
      }
    }
  }

  predicate IsExecution(f: Fill, orderId: int) {
    f.orderId == orderId && f.id >= 0 && f.qty > 0.0
  }

  /** Every fill of the page is an execution of the order, and no identifier stands for two executions. */
  ghost predicate Agrees(held: map<int, Fill>, orderId: int, page: seq<Fill>) {
    && (forall f | f in page :: IsExecution(f, orderId) && (f.id in held ==> SameExecution(held[f.id], f)))
    && (forall f, g | f in page && g in page && f.id == g.id :: SameExecution(f, g))
  }

  /** What the error says of the page. */
  ghost predicate IsDefect(held: map<int, Fill>, orderId: int, page: seq<Fill>, error: PageError) {
    match error
    case InvalidTrade => exists f :: f in page && !IsExecution(f, orderId)
    case Conflict(id) =>
      || (exists f :: f in page && f.id == id && id in held && !SameExecution(held[id], f))
      || (exists f, g :: f in page && g in page && f.id == g.id == id && !SameExecution(f, g))
    case _ => false
  }

  /** A scan refuses a page only for an invalid fill or for two executions that disagree. */
  lemma {:induction false} ScanRefusesOnlyBadPages(held: map<int, Fill>, orderId: int, page: seq<Fill>, quantity: real)
    requires ScanPage(held, orderId, page, quantity).ScanFailed?
    ensures IsDefect(held, orderId, page, ScanPage(held, orderId, page, quantity).error)
  {
    var init, last := page[..|page| - 1], page[|page| - 1];
    assert page == init + [last];
    var before := ScanPage(held, orderId, init, quantity);
    if before.ScanFailed? {
      ScanRefusesOnlyBadPages(held, orderId, init, quantity);
      assert forall f | f in init :: f in page;
    } else {
      ScanIsSound(held, orderId, init, quantity);
      assert last in page;
      if last.id in before.added {
        assert Origin(held, init, before.added[last.id]);
        assert before.added[last.id] in page;
      }
    }
  }

  /** What a completed order promises: distinct identifiers, and quantities that add up exactly. */
  ghost predicate Completed(p: Progress, orderId: int, page: seq<Fill>, result: map<int, Fill>) {
    && Sum(result, Qty) == p.expectedQty
    && |result.Keys| <= FILL_LIMIT
    && Within(p.fills, result)
    && (forall id | id in result :: GoodFill(result[id], id, orderId))
    && FromPage(p.fills, page, result)
    && (forall f | f in page :: Covered(map[], result, orderId, f))
  }

  /** What an advance promises: everything held stays held, the page is merged and the cursor moves on. */
  ghost predicate Progressed(p: Progress, orderId: int, page: seq<Fill>, next: Progress) {
    && Saved(next, orderId)
    && next.expectedQty == p.expectedQty
    && next.advances == p.advances + 1
    && next.restarted
    && Within(p.fills, next.fills)
    && FromPage(p.fills, page, next.fills)
    && (forall f | f in page :: Covered(map[], next.fills, orderId, f))
    && CursorMoves(p, page, next)
  }

  /** The first page restarts from identifier 0; afterwards the cursor follows the largest identifier of the page. */
  ghost predicate CursorMoves(p: Progress, page: seq<Fill>, next: Progress) {
    && next.fromId.Some?
    && (!p.restarted ==> next.fromId.value == 0)
    && (p.restarted ==> IsMax(page, next.fromId.value - 1))
    && (p.fromId.Some? ==> next.fromId.value > p.fromId.value)
  }

  /**
   Safety against any server. A completed order has fills under distinct identifiers whose
   quantities add up to the expected quantity exactly; otherwise the record stays saved: it keeps
   everything it held and only gains fills, or it starts again, or it does not change at all.
   */
  lemma PageSafety(p: Progress, orderId: int, page: seq<Fill>)
    requires Saved(p, orderId)
    ensures
      var (verdict, next) := PageStep(p, orderId, page);
      match verdict
      case Complete(result) => Completed(p, orderId, page, result)
      case Continue => Progressed(p, orderId, page, next)
      case Reject(_) => Saved(next, orderId) && (next == p || next == Fresh(p.expectedQty))
  {
    match PageStep(p, orderId, page).0
    case Complete(_) => CompleteIsExact(p, orderId, page);
    case Continue => ContinueProgresses(p, orderId, page);
    case Reject(_) => RejectKeeps(p, orderId, page);
  }

  lemma CompleteIsExact(p: Progress, orderId: int, page: seq<Fill>)
    requires Saved(p, orderId) && PageStep(p, orderId, page).0.Complete?
    ensures Completed(p, orderId, page, PageStep(p, orderId, page).0.result)
  {
    ScanIsSound(p.fills, orderId, page, p.quantity);
    CompletionIsExact(p, orderId, page, ScanPage(p.fills, orderId, page, p.quantity));
  }

  /** When the loop goes on, it has read the page, and how its cursor moves. */
  lemma ContinueMeans(p: Progress, size: nat, s: Scan)
    requires Decide(p, size, s).0.Continue?
    ensures s.Scanned? && s.quantity < p.expectedQty && |p.fills.Keys| + |s.added.Keys| <= FILL_LIMIT
    ensures var next := Decide(p, size, s).1;
      && next.fromId.Some? && next == Advanced(p, s.added, s.quantity, next.fromId.value)
      && (if p.restarted then s.maxId.Some? && next.fromId.value == s.maxId.value + 1 else next.fromId.value == 0)
      && (p.restarted && p.fromId.Some? ==> next.fromId.value > p.fromId.value)
  {
  }

  lemma ContinueProgresses(p: Progress, orderId: int, page: seq<Fill>)
    requires Saved(p, orderId) && PageStep(p, orderId, page).0.Continue?
    ensures Progressed(p, orderId, page, PageStep(p, orderId, page).1)
  {
    ScanIsSound(p.fills, orderId, page, p.quantity);
    var s := ScanPage(p.fills, orderId, page, p.quantity);
    ContinueMeans(p, |page|, s);
    AdvanceIsSaved(p, orderId, page, s, Decide(p, |page|, s).1.fromId.value);
  }

  lemma RejectKeeps(p: Progress, orderId: int, page: seq<Fill>)
    requires Saved(p, orderId) && PageStep(p, orderId, page).0.Reject?
    ensures var next := PageStep(p, orderId, page).1; Saved(next, orderId) && (next == p || next == Fresh(p.expectedQty))
  {
    SumEmpty<int, Fill>(map[], Qty);
  }

  lemma CompletionIsExact(p: Progress, orderId: int, page: seq<Fill>, s: Scan)
    requires Saved(p, orderId)
    requires s.Scanned? && ScanMeans(p.fills, orderId, page, p.quantity, s)
    requires s.quantity == p.expectedQty && |p.fills.Keys| + |s.added.Keys| <= FILL_LIMIT
    ensures Completed(p, orderId, page, p.fills + s.added)
  {
    MergeMeans(p.fills, orderId, page, p.quantity, s);
  }

  lemma AdvanceIsSaved(p: Progress, orderId: int, page: seq<Fill>, s: Scan, cursor: int)
    requires Saved(p, orderId)
    requires s.Scanned? && ScanMeans(p.fills, orderId, page, p.quantity, s)
    requires s.quantity < p.expectedQty && |p.fills.Keys| + |s.added.Keys| <= FILL_LIMIT
    requires if p.restarted then s.maxId.Some? && cursor == s.maxId.value + 1 else cursor == 0
    ensures p.fromId.None? || cursor > p.fromId.value ==>
              Progressed(p, orderId, page, Advanced(p, s.added, s.quantity, cursor))
  {
    MergeMeans(p.fills, orderId, page, p.quantity, s);
    MaxNonNegative(p.fills, orderId, page, p.quantity, s);
  }

  lemma MaxNonNegative(held: map<int, Fill>, orderId: int, page: seq<Fill>, quantity: real, s: Scan)
    requires s.Scanned? && ScanMeans(held, orderId, page, quantity, s)
    ensures s.maxId.Some? ==> s.maxId.value >= 0
  {
    if s.maxId.Some? {
      var i :| 0 <= i < |page| && page[i].id == s.maxId.value;
      assert Covered(held, s.added, orderId, page[i]);
    }
  }

  lemma MergeMeans(held: map<int, Fill>, orderId: int, page: seq<Fill>, quantity: real, s: Scan)
    requires s.Scanned? && ScanMeans(held, orderId, page, quantity, s)
    requires forall id | id in held :: GoodFill(held[id], id, orderId)
    ensures var all := held + s.added;
      && Sum(all, Qty) == Sum(held, Qty) + Sum(s.added, Qty)
      && |all.Keys| == |held.Keys| + |s.added.Keys|
      && Within(held, all)
      && (forall id | id in all :: GoodFill(all[id], id, orderId))
      && FromPage(held, page, all)
      && (forall f | f in page :: Covered(map[], all, orderId, f))
  {
    SumJoin(held, s.added, Qty);
    JoinSize(held, s.added);
    forall id | id in held + s.added ensures Origin(held, page, (held + s.added)[id]) {
      if id in s.added {
        assert Origin(held, page, s.added[id]);
      }
    }
    forall f | f in page ensures Covered(map[], held + s.added, orderId, f) {
      assert Covered(held, s.added, orderId, f);
    }
  }

  lemma JoinSize(a: map<int, Fill>, b: map<int, Fill>)
    requires a.Keys !! b.Keys
    ensures |(a + b).Keys| == |a.Keys| + |b.Keys|
  {
    assert (a + b).Keys == a.Keys + b.Keys;
    assert |(a + b).Keys| == |a.Keys| + |b.Keys|;
  }

  // ---------------------------------------------------------------- which verdict a page gets

  lemma ReadAgrees(held: map<int, Fill>, orderId: int, page: seq<Fill>, quantity: real)
    requires ScanPage(held, orderId, page, quantity).Scanned?
    ensures Agrees(held, orderId, page)
  {
    ScanIsSound(held, orderId, page, quantity);
    var added := ScanPage(held, orderId, page, quantity).added;
    assert forall f | f in page :: Covered(held, added, orderId, f);
  }

  /** A page is read exactly when it agrees with itself and with the fills held, and refused for what is wrong with it. */
  lemma PageIsReadIff(held: map<int, Fill>, orderId: int, page: seq<Fill>, quantity: real)
    ensures var s := ScanPage(held, orderId, page, quantity);
      && (s.Scanned? <==> Agrees(held, orderId, page))
      && (s.ScanFailed? ==> IsDefect(held, orderId, page, s.error))
  {
    if ScanPage(held, orderId, page, quantity).Scanned? {
      ReadAgrees(held, orderId, page, quantity);
    } else {
      ScanRefusesOnlyBadPages(held, orderId, page, quantity);
    }
  }

  /** `all` is what is held together with one fill for every other identifier of the page. */
  ghost predicate Merges(held: map<int, Fill>, page: seq<Fill>, all: map<int, Fill>) {
    Within(held, all) && FromPage(held, page, all) && all.Keys == held.Keys + PageIds(page)
  }

  lemma ReadKeys(held: map<int, Fill>, orderId: int, page: seq<Fill>, quantity: real, s: Scan)
    requires s.Scanned? && ScanMeans(held, orderId, page, quantity, s)
    ensures held.Keys + s.added.Keys == held.Keys + PageIds(page)
  {
    forall id | id in s.added.Keys ensures id in PageIds(page) {
      assert Origin(held, page, s.added[id]);
    }
    forall id | id in PageIds(page) ensures id in held.Keys + s.added.Keys {
      var i :| 0 <= i < |page| && page[i].id == id;
      assert Covered(held, s.added, orderId, page[i]);
    }
  }

  lemma ReadMerges(held: map<int, Fill>, orderId: int, page: seq<Fill>, quantity: real, s: Scan)
    requires s.Scanned? && ScanMeans(held, orderId, page, quantity, s)
    requires forall id | id in held :: GoodFill(held[id], id, orderId)
    ensures Merges(held, page, held + s.added)
  {
    MergeMeans(held, orderId, page, quantity, s);
    ReadKeys(held, orderId, page, quantity, s);
    assert (held + s.added).Keys == held.Keys + s.added.Keys;
  }

  ghost predicate Reaches(page: seq<Fill>, id: int) {
    exists f :: f in page && f.id >= id
  }

  function Moved(p: Progress, all: map<int, Fill>, quantity: real, cursor: int): Progress {
    Progress(p.expectedQty, Some(cursor), true, all, quantity, p.advances + 1)
  }

  /** The verdict on a page, and the record it leaves, once everything seen so far is `all`. */
  ghost predicate IsOutcome(p: Progress, page: seq<Fill>, all: map<int, Fill>, quantity: real, verdict: Verdict, next: Progress) {
    if quantity > p.expectedQty then verdict == Reject(ExceedsQuantity) && next == p
    else if |all.Keys| > 1_000_000 then verdict == Reject(TooManyFills) && next == Fresh(p.expectedQty)
    else if quantity == p.expectedQty then verdict == Complete(all)
    else if p.fromId.None? then verdict == Continue && next == Moved(p, all, quantity, 0)
    else if |page| < 1000 then verdict == Reject(Incomplete) && next == Fresh(p.expectedQty)
    else if Reaches(page, MAX_ID) then verdict == Reject(InvalidCursor) && next == p
    else if !Reaches(page, p.fromId.value) then verdict == Reject(CursorDidNotAdvance) && next == p
    else verdict == Continue && next.fromId.Some? && IsMax(page, next.fromId.value - 1)
         && next == Moved(p, all, quantity, next.fromId.value)
  }

  ghost predicate IsVerdict(p: Progress, orderId: int, page: seq<Fill>, verdict: Verdict, next: Progress) {
    if |page| > 1000 then verdict == Reject(TooLarge) && next == p
    else if !Agrees(p.fills, orderId, page) then
      verdict.Reject? && IsDefect(p.fills, orderId, page, verdict.error) && next == p
    else exists all :: Merges(p.fills, page, all) && IsOutcome(p, page, all, Sum(all, Qty), verdict, next)
  }

  lemma MaxBounds(page: seq<Fill>, max: int, bound: int)
    requires IsMax(page, max)
    ensures Reaches(page, bound) <==> max >= bound
  {
    var i :| 0 <= i < |page| && page[i].id == max;
    assert page[i] in page;
  }

  lemma CursorOutcome(p: Progress, page: seq<Fill>, all: map<int, Fill>, s: Scan)
    requires s.Scanned? && IsMaxId(page, s.maxId) && (p.restarted <==> p.fromId.Some?)
    requires all == p.fills + s.added && |p.fills.Keys| + |s.added.Keys| == |all.Keys| <= FILL_LIMIT
    requires s.quantity < p.expectedQty && |page| <= PAGE_LIMIT
    ensures var (verdict, next) := Decide(p, |page|, s); IsOutcome(p, page, all, s.quantity, verdict, next)
  {
    if p.fromId.Some? && |page| == PAGE_LIMIT {
      MaxBounds(page, s.maxId.value, MAX_ID);
      MaxBounds(page, s.maxId.value, p.fromId.value);
    }
  }

  lemma ReadOutcome(p: Progress, orderId: int, page: seq<Fill>, s: Scan)
    requires Saved(p, orderId) && |page| <= PAGE_LIMIT
    requires s.Scanned? && ScanMeans(p.fills, orderId, page, p.quantity, s)
    ensures var (verdict, next) := Decide(p, |page|, s); var all := p.fills + s.added;
      IsOutcome(p, page, all, Sum(all, Qty), verdict, next)
  {
    MergeMeans(p.fills, orderId, page, p.quantity, s);
    var all := p.fills + s.added;
    assert Sum(all, Qty) == s.quantity;
    if s.quantity < p.expectedQty && |all.Keys| <= FILL_LIMIT {
      CursorOutcome(p, page, all, s);
    }
  }

  /**
   Every page is given the verdict it calls for, and leaves the record it should. In particular the record is emptied
   exactly when the restarted reading ends short of the quantity or finds more than a million executions, and every
   other page that is refused leaves it as it was.
   */
  lemma EveryPageIsJudged(p: Progress, orderId: int, page: seq<Fill>)
    requires Saved(p, orderId)
    ensures var (verdict, next) := PageStep(p, orderId, page); IsVerdict(p, orderId, page, verdict, next)
  {
    PageIsReadIff(p.fills, orderId, page, p.quantity);
    var s := ScanPage(p.fills, orderId, page, p.quantity);
    if |page| <= PAGE_LIMIT && s.Scanned? {
      ScanIsSound(p.fills, orderId, page, p.quantity);
      ReadMerges(p.fills, orderId, page, p.quantity, s);
      ReadOutcome(p, orderId, page, s);
    }
  }

  // ---------------------------------------------------------------- an honest server

  /** The fixed executions of an order: together they make up the executed quantity. */
  ghost predicate HonestBook(book: map<int, Fill>, orderId: int, expectedQty: real) {
    && (forall id | id in book :: GoodFill(book[id], id, orderId) && id <= MAX_ID)
    && Sum(book, Qty) == expectedQty
    && |book.Keys| <= FILL_LIMIT
  }

  function From(book: map<int, Fill>, cursor: int): set<int> {
    set id | id in book && cursor <= id
  }

  /** Without a cursor, some of the fills; with one, the first thousand identifiers at or above it, in any order. */
  ghost predicate HonestPage(book: map<int, Fill>, cursor: Option<int>, page: seq<Fill>) {
    && |page| <= PAGE_LIMIT
    && (forall i, j :: 0 <= i < j < |page| ==> page[i].id != page[j].id)
    && (forall f | f in page :: f.id in book && book[f.id] == f)
    && match cursor
       case None => page != []
       case Some(c) =>
         && PageIds(page) <= From(book, c)
         && forall id | id in From(book, c) :: id in PageIds(page) || (|page| == PAGE_LIMIT && forall f | f in page :: f.id < id)
  }

  /** Only true fills are held, and every fill below the cursor is. */
  ghost predicate Honest(p: Progress, book: map<int, Fill>, orderId: int) {
    && Saved(p, orderId)
    && HonestBook(book, orderId, p.expectedQty)
    && Within(p.fills, book)
    && (p.fromId.Some? ==> p.fills != map[] && forall id | id in book && id < p.fromId.value :: id in p.fills)
  }

  lemma PageIdsStep(init: seq<Fill>, last: Fill)
    ensures PageIds(init + [last]) == PageIds(init) + {last.id}
  {
    var page := init + [last];
    forall id | id in PageIds(page) ensures id in PageIds(init) + {last.id} {
      var i :| 0 <= i < |page| && page[i].id == id;
      assert i < |init| ==> init[i].id == id;
    }
    forall id | id in PageIds(init) ensures id in PageIds(page) {
      var i :| 0 <= i < |init| && init[i].id == id;
      assert page[i].id == id;
    }
    assert page[|init|] == last;
  }

  lemma {:induction false} DistinctPageSize(page: seq<Fill>)
    requires forall i, j :: 0 <= i < j < |page| ==> page[i].id != page[j].id
    ensures |PageIds(page)| == |page|
  {
    if page != [] {
      var init, last := page[..|page| - 1], page[|page| - 1];
      DistinctPageSize(init);
      PageIdsStep(init, last);
      assert page == init + [last] && last.id !in PageIds(init);
    }
  }

  /** An honest page is never refused by the scan, and what it adds is true. */
  lemma HonestScan(p: Progress, book: map<int, Fill>, orderId: int, page: seq<Fill>)
    requires Honest(p, book, orderId)
    requires HonestPage(book, p.fromId, page)
    ensures var s := ScanPage(p.fills, orderId, page, p.quantity);
      && s.Scanned?
      && ScanMeans(p.fills, orderId, page, p.quantity, s)
      && Within(p.fills + s.added, book)
      && PageIds(page) <= (p.fills + s.added).Keys
      && s.quantity == Sum(p.fills + s.added, Qty)
      && (s.quantity <= p.expectedQty)
      && (s.quantity == p.expectedQty <==> p.fills + s.added == book)
      && |p.fills.Keys| + |s.added.Keys| <= FILL_LIMIT
  {
    var s := ScanPage(p.fills, orderId, page, p.quantity);
    if s.ScanFailed? {
      ScanRefusesOnlyBadPages(p.fills, orderId, page, p.quantity);
      assert false;
    }
    ScanIsSound(p.fills, orderId, page, p.quantity);
    HonestMerge(p, book, orderId, page, s);
  }

  lemma HonestMerge(p: Progress, book: map<int, Fill>, orderId: int, page: seq<Fill>, s: Scan)
    requires Honest(p, book, orderId)
    requires HonestPage(book, p.fromId, page)
    requires s.Scanned? && ScanMeans(p.fills, orderId, page, p.quantity, s)
    ensures
      && Within(p.fills + s.added, book)
      && PageIds(page) <= (p.fills + s.added).Keys
      && s.quantity == Sum(p.fills + s.added, Qty)
      && s.quantity <= p.expectedQty
      && (s.quantity == p.expectedQty <==> p.fills + s.added == book)
      && |p.fills.Keys| + |s.added.Keys| <= FILL_LIMIT
  {
    MergeMeans(p.fills, orderId, page, p.quantity, s);
    var all := p.fills + s.added;
    OnlyTrueFills(p.fills, book, orderId, page, all);
    TrueFillsAddUp(all, book, orderId, p.expectedQty);
  }

  lemma OnlyTrueFills(held: map<int, Fill>, book: map<int, Fill>, orderId: int, page: seq<Fill>, all: map<int, Fill>)
    requires Within(held, book) && FromPage(held, page, all)
    requires forall f | f in page :: f.id in book && book[f.id] == f
    requires forall id | id in all :: GoodFill(all[id], id, orderId)
    requires forall f | f in page :: Covered(map[], all, orderId, f)
    ensures Within(all, book)
    ensures PageIds(page) <= all.Keys
  {
    forall id | id in all ensures id in book && all[id] == book[id] {
      assert Origin(held, page, all[id]);
    }
    forall id | id in PageIds(page) ensures id in all {
      var i :| 0 <= i < |page| && page[i].id == id;
      assert Covered(map[], all, orderId, page[i]);
    }
  }

  lemma TrueFillsAddUp(all: map<int, Fill>, book: map<int, Fill>, orderId: int, expectedQty: real)
    requires Within(all, book) && HonestBook(book, orderId, expectedQty)
    ensures Sum(all, Qty) <= expectedQty
    ensures Sum(all, Qty) == expectedQty <==> all == book
    ensures |all.Keys| <= FILL_LIMIT
  {
    forall id | id in book ensures Qty(book[id]) > 0.0 {
      assert GoodFill(book[id], id, orderId);
    }
    SumWithin(all, book, Qty);
    WithinSize(all, book);
  }

  // ---------------------------------------------------------------- completeness and the page bound

  function Pages(fills: nat): nat {
    (fills + PAGE_LIMIT - 1) / PAGE_LIMIT
  }

  /** How many more honest pages the record needs at most. */
  function PagesLeft(p: Progress, book: map<int, Fill>): nat {
    match p.fromId
    case None => 1 + Pages(|book.Keys|)
    case Some(c) => Pages(|From(book, c)|)
  }

  /** A full page that does not complete the order moves the cursor past exactly its thousand fills. */
  lemma FullPageAdvances(book: map<int, Fill>, c: int, page: seq<Fill>, all: map<int, Fill>)
    requires HonestPage(book, Some(c), page)
    requires forall id | id in book :: id <= MAX_ID
    requires forall id | id in book && id < c :: id in all
    requires PageIds(page) <= all.Keys && Within(all, book) && all != book
    ensures |page| == PAGE_LIMIT
    ensures forall m | IsMax(page, m) ::
              && c <= m < MAX_ID
              && (forall id | id in book && id <= m :: id in all)
              && |From(book, m + 1)| == |From(book, c)| - PAGE_LIMIT
    ensures |From(book, c)| > 0
    ensures forall m | IsMax(page, m) :: |From(book, m + 1)| > 0
  {
    var missing := MissingFill(all, book);
    assert missing in From(book, c) && missing !in PageIds(page);
    forall m | IsMax(page, m)
      ensures c <= m < MAX_ID
      ensures forall id | id in book && id <= m :: id in all
      ensures |From(book, m + 1)| == |From(book, c)| - PAGE_LIMIT
      ensures |From(book, m + 1)| > 0
    {
      PageIsPrefix(book, c, page, m);
      assert missing in From(book, m + 1);
      forall id | id in book && id <= m ensures id in all {
        assert c <= id ==> id in From(book, c);
      }
    }
  }

  lemma MissingFill(all: map<int, Fill>, book: map<int, Fill>) returns (id: int)
    requires Within(all, book) && all != book
    ensures id in book && id !in all
  {
    if forall k | k in book :: k in all {
      SameKeys(all, book);
      id := 0;
    } else {
      id :| id in book && id !in all;
    }
  }

  lemma SameKeys(all: map<int, Fill>, book: map<int, Fill>)
    requires Within(all, book) && forall k | k in book :: k in all
    ensures all == book
  {
    assert forall k :: k in book <==> k in all;
    assert book.Keys == all.Keys;
  }

  /** An honest full page is exactly the part of the book between the cursor and its maximum. */
  lemma PageIsPrefix(book: map<int, Fill>, c: int, page: seq<Fill>, m: int)
    requires HonestPage(book, Some(c), page) && |page| == PAGE_LIMIT && IsMax(page, m)
    ensures c <= m && m in book
    ensures From(book, c) == PageIds(page) + From(book, m + 1)
    ensures PageIds(page) !! From(book, m + 1)
    ensures |From(book, c)| == PAGE_LIMIT + |From(book, m + 1)|
  {
    var k :| 0 <= k < |page| && page[k].id == m;
    assert page[k] in page && page[k].id in PageIds(page);
    assert m in From(book, c);
    forall id | id in PageIds(page) ensures id <= m {
      var i :| 0 <= i < |page| && page[i].id == id;
    }
    forall id | id in From(book, c) ensures id in PageIds(page) || id in From(book, m + 1) {
      if id !in PageIds(page) {
        assert page[k].id < id;
      }
    }
    assert From(book, c) == PageIds(page) + From(book, m + 1);
    DistinctPageSize(page);
  }

  /** Against an honest server a completed result is the book itself. */
  lemma CompletedIsBook(p: Progress, book: map<int, Fill>, orderId: int, page: seq<Fill>, result: map<int, Fill>)
    requires Honest(p, book, orderId) && HonestPage(book, p.fromId, page)
    requires Completed(p, orderId, page, result)
    ensures result == book
  {
    OnlyTrueFills(p.fills, book, orderId, page, result);
    TrueFillsAddUp(result, book, orderId, p.expectedQty);
  }

  lemma IncompleteMisses(p: Progress, book: map<int, Fill>, orderId: int)
    requires Honest(p, book, orderId)
    ensures p.fills != book
    ensures |book.Keys| > 0
    ensures p.fromId.Some? ==> |From(book, p.fromId.value)| > 0
  {
    TrueFillsAddUp(p.fills, book, orderId, p.expectedQty);
    var missing := MissingFill(p.fills, book);
    assert missing in book.Keys;
    if p.fromId.Some? {
      assert missing in From(book, p.fromId.value);
    }
  }

  /** The default page starts the record again at identifier 0, keeping what it brought. */
  lemma RestartIsHonest(p: Progress, book: map<int, Fill>, orderId: int, page: seq<Fill>, next: Progress)
    requires Honest(p, book, orderId) && p.fromId.None? && HonestPage(book, None, page)
    requires Progressed(p, orderId, page, next)
    ensures Honest(next, book, orderId)
    ensures PagesLeft(next, book) == PagesLeft(p, book) - 1
  {
    OnlyTrueFills(p.fills, book, orderId, page, next.fills);
    assert page[0].id in PageIds(page);
    assert From(book, 0) == book.Keys by {
      forall id | id in book ensures id in From(book, 0) {
        assert GoodFill(book[id], id, orderId);
      }
    }
  }

  lemma AdvanceIsHonest(p: Progress, book: map<int, Fill>, orderId: int, page: seq<Fill>, next: Progress)
    requires Honest(p, book, orderId) && p.fromId.Some? && HonestPage(book, p.fromId, page)
    requires Progressed(p, orderId, page, next)
    ensures Honest(next, book, orderId)
    ensures PagesLeft(next, book) == PagesLeft(p, book) - 1
  {
    OnlyTrueFills(p.fills, book, orderId, page, next.fills);
    TrueFillsAddUp(next.fills, book, orderId, p.expectedQty);
    forall id | id in book ensures id <= MAX_ID {
      assert GoodFill(book[id], id, orderId);
    }
    FullPageAdvances(book, p.fromId.value, page, next.fills);
  }

  /** None of the loop's errors can be raised by an honest page. */
  lemma HonestPageIsAccepted(p: Progress, book: map<int, Fill>, orderId: int, page: seq<Fill>)
    requires Honest(p, book, orderId) && HonestPage(book, p.fromId, page)
    ensures !PageStep(p, orderId, page).0.Reject?
  {
    HonestScan(p, book, orderId, page);
    var s := ScanPage(p.fills, orderId, page, p.quantity);
    if p.restarted && s.quantity < p.expectedQty {
      HonestPageIsFull(p, book, orderId, page, p.fills + s.added);
      assert IsMax(page, s.maxId.value);
    }
    DecisionAccepts(p, |page|, s);
  }

  lemma HonestPageIsFull(p: Progress, book: map<int, Fill>, orderId: int, page: seq<Fill>, all: map<int, Fill>)
    requires Honest(p, book, orderId) && p.fromId.Some? && HonestPage(book, p.fromId, page)
    requires PageIds(page) <= all.Keys && Within(all, book) && all != book && p.fills.Keys <= all.Keys
    ensures |page| == PAGE_LIMIT
    ensures forall m | IsMax(page, m) :: p.fromId.value <= m < MAX_ID
  {
    forall id | id in book ensures id <= MAX_ID {
      assert GoodFill(book[id], id, orderId);
    }
    FullPageAdvances(book, p.fromId.value, page, all);
  }

  lemma DecisionAccepts(p: Progress, size: nat, s: Scan)
    requires s.Scanned? && s.quantity <= p.expectedQty
    requires |p.fills.Keys| + |s.added.Keys| <= FILL_LIMIT
    requires p.restarted && s.quantity < p.expectedQty ==>
               size >= PAGE_LIMIT && p.fromId.Some? && s.maxId.Some? && p.fromId.value <= s.maxId.value < MAX_ID
    ensures !Decide(p, size, s).0.Reject?
  {
  }

  /**
   Completeness: an honest page is never refused. It either completes the order with exactly the
   true fills, or leaves an honest record that needs one page less.
   */
  lemma HonestStep(p: Progress, book: map<int, Fill>, orderId: int, page: seq<Fill>)
    requires Honest(p, book, orderId)
    requires HonestPage(book, p.fromId, page)
    ensures
      var (verdict, next) := PageStep(p, orderId, page);
      && PagesLeft(p, book) >= 1
      && match verdict
         case Reject(_) => false
         case Complete(result) => result == book
         case Continue => Honest(next, book, orderId) && PagesLeft(next, book) == PagesLeft(p, book) - 1
  {
    HonestPageIsAccepted(p, book, orderId, page);
    IncompleteMisses(p, book, orderId);
    PageSafety(p, orderId, page);
    var (verdict, next) := PageStep(p, orderId, page);
    if verdict.Complete? {
      CompletedIsBook(p, book, orderId, page, verdict.result);
    } else {
      HonestContinue(p, book, orderId, page, next);
    }
  }

  lemma HonestContinue(p: Progress, book: map<int, Fill>, orderId: int, page: seq<Fill>, next: Progress)
    requires Honest(p, book, orderId) && HonestPage(book, p.fromId, page)
    requires Progressed(p, orderId, page, next)
    ensures Honest(next, book, orderId) && PagesLeft(next, book) == PagesLeft(p, book) - 1
  {
    if p.fromId.None? {
      RestartIsHonest(p, book, orderId, page, next);
    } else {
      AdvanceIsHonest(p, book, orderId, page, next);
    }
  }

  // ---------------------------------------------------------------- calls, and calls resumed on a kept slot

  datatype CallResult = CallResult(end: CallEnd, progress: Progress, failedQuery: bool, pages: nat)

  /** One call: attempts in order until one of them ends it. `failedQuery` is what the cleanup will see. */
  function Attempts(p: Progress, orderId: int, replies: seq<Reply>): CallResult
    decreases |replies|
  {
    if replies == [] then CallResult(Later, p, false, 0)
    else
      match replies[0]
      case Refused => CallResult(Stopped, p, false, 0)
      case Cleared => CallResult(Stopped, p, false, 0)
      case Failed => CallResult(Stopped, p, true, 0)
      case Page(page) =>
        var (verdict, next) := PageStep(p, orderId, page);
        match verdict
        case Complete(result) => CallResult(Finished(result), next, true, 1)
        case Reject(error) => CallResult(Broken(error), next, true, 1)
        case Continue =>
          var rest := Attempts(next, orderId, replies[1..]);
          rest.(pages := rest.pages + 1)
  }

  /** The cleanup drops a slot whose record is not worth keeping; the next call then starts from nothing. */
  function AfterCleanup(p: Progress): Progress {
    if p.fromId.None? || p.fills == map[] then Fresh(p.expectedQty) else p
  }

  datatype Resumed = Resumed(end: CallEnd, progress: Progress, pages: nat)

  function Resume(p: Progress, orderId: int, calls: seq<seq<Reply>>): Resumed
    decreases |calls|
  {
    if calls == [] then Resumed(Later, p, 0)
    else
      var r := Attempts(p, orderId, calls[0]);
      if r.end.Finished? || r.end.Broken? then Resumed(r.end, r.progress, r.pages)
      else
        var rest := Resume(AfterCleanup(r.progress), orderId, calls[1..]);
        rest.(pages := r.pages + rest.pages)
  }

  ghost predicate HonestReplies(p: Progress, book: map<int, Fill>, orderId: int, replies: seq<Reply>)
    decreases |replies|
  {
    replies != [] && replies[0].Page? ==>
      && HonestPage(book, p.fromId, replies[0].fills)
      && var (verdict, next) := PageStep(p, orderId, replies[0].fills);
         verdict.Continue? ==> HonestReplies(next, book, orderId, replies[1..])
  }

  ghost predicate HonestCalls(p: Progress, book: map<int, Fill>, orderId: int, calls: seq<seq<Reply>>)
    decreases |calls|
  {
    calls != [] ==>
      && HonestReplies(p, book, orderId, calls[0])
      && HonestCalls(AfterCleanup(Attempts(p, orderId, calls[0]).progress), book, orderId, calls[1..])
  }

  ghost predicate CallIsSafe(p: Progress, orderId: int, r: CallResult) {
    match r.end
    case Finished(result) =>
      && Sum(result, Qty) == p.expectedQty
      && Within(p.fills, result)
      && forall id | id in result :: GoodFill(result[id], id, orderId)
    case end =>
      && Saved(r.progress, orderId)
      && r.progress.expectedQty == p.expectedQty
      && (end.Broken? || Within(p.fills, r.progress.fills))
  }

  lemma SafetyCarriesOver(p: Progress, next: Progress, orderId: int, r: CallResult)
    requires CallIsSafe(next, orderId, r)
    requires next.expectedQty == p.expectedQty && Within(p.fills, next.fills)
    ensures CallIsSafe(p, orderId, r)
  {
  }

  /** Whatever the server answers, a call returns an exact result or leaves a saved record. */
  lemma {:induction false} CallSafety(p: Progress, orderId: int, replies: seq<Reply>)
    requires Saved(p, orderId)
    ensures CallIsSafe(p, orderId, Attempts(p, orderId, replies))
    ensures Attempts(p, orderId, replies).pages <= |replies|
    decreases |replies|
  {
    if replies != [] && replies[0].Page? {
      var (verdict, next) := PageStep(p, orderId, replies[0].fills);
      PageSafety(p, orderId, replies[0].fills);
      if verdict.Continue? {
        CallSafety(next, orderId, replies[1..]);
        var rest := Attempts(next, orderId, replies[1..]);
        SafetyCarriesOver(p, next, orderId, rest);
        SafetyIgnoresPages(p, orderId, rest, rest.pages + 1);
      }
    }
  }

  lemma SafetyIgnoresPages(p: Progress, orderId: int, r: CallResult, pages: nat)
    requires CallIsSafe(p, orderId, r)
    ensures CallIsSafe(p, orderId, r.(pages := pages))
  {
  }

  /** The first `n` attempts each merge a page and leave the order open. */
  predicate MergeFirst(p: Progress, orderId: int, replies: seq<Reply>, n: nat)
    requires n <= |replies|
    decreases n
  {
    n > 0 ==>
      && replies[0].Page?
      && var (verdict, next) := PageStep(p, orderId, replies[0].fills);
         verdict.Continue? && MergeFirst(next, orderId, replies[1..], n - 1)
  }

  /** The record they leave. */
  function MergedFirst(p: Progress, orderId: int, replies: seq<Reply>, n: nat): Progress
    requires n <= |replies| && MergeFirst(p, orderId, replies, n)
    decreases n
  {
    if n == 0 then p else MergedFirst(PageStep(p, orderId, replies[0].fills).1, orderId, replies[1..], n - 1)
  }

  /** The call ends at attempt `n`: how, with what record, with or without a mark for its cleanup, and after how many pages. */
  ghost predicate CallEnds(p: Progress, orderId: int, replies: seq<Reply>, n: nat, r: CallResult) {
    n <= |replies| && MergeFirst(p, orderId, replies, n) &&
    var before := MergedFirst(p, orderId, replies, n);
    if n == |replies| then r == CallResult(Later, before, false, n)
    else match replies[n]
      case Page(page) =>
        var (verdict, after) := PageStep(before, orderId, page);
        && !verdict.Continue? && r.progress == after && r.failedQuery && r.pages == n + 1
        && r.end == if verdict.Complete? then Finished(verdict.result) else Broken(verdict.error)
      case Failed => r == CallResult(Stopped, before, true, n)
      case _ => r == CallResult(Stopped, before, false, n)
  }

  /**
   The call ends with the first attempt that does not merge a page, and its cleanup is told of a failure
   exactly when that attempt was a failed request or a page that did not advance the record.
   */
  ghost predicate AttemptsEnd(p: Progress, orderId: int, replies: seq<Reply>, r: CallResult) {
    exists n: nat :: CallEnds(p, orderId, replies, n, r) && (r.failedQuery <==> n < |replies| && (replies[n].Failed? || replies[n].Page?))
  }

  lemma AttemptsEndLater(p: Progress, orderId: int, replies: seq<Reply>)
    requires replies != [] && replies[0].Page? && PageStep(p, orderId, replies[0].fills).0.Continue?
    requires var next := PageStep(p, orderId, replies[0].fills).1;
      AttemptsEnd(next, orderId, replies[1..], Attempts(next, orderId, replies[1..]))
    ensures AttemptsEnd(p, orderId, replies, Attempts(p, orderId, replies))
  {
    var next := PageStep(p, orderId, replies[0].fills).1;
    var rest := Attempts(next, orderId, replies[1..]);
    var n: nat :| CallEnds(next, orderId, replies[1..], n, rest)
      && (rest.failedQuery <==> n < |replies[1..]| && (replies[1..][n].Failed? || replies[1..][n].Page?));
    assert MergeFirst(p, orderId, replies, n + 1);
    assert MergedFirst(p, orderId, replies, n + 1) == MergedFirst(next, orderId, replies[1..], n);
    assert n + 1 < |replies| ==> replies[1..][n] == replies[n + 1];
    assert CallEnds(p, orderId, replies, n + 1, Attempts(p, orderId, replies));
  }

  lemma AttemptsEndNow(p: Progress, orderId: int, replies: seq<Reply>)
    requires replies != [] && replies[0].Page? ==> !PageStep(p, orderId, replies[0].fills).0.Continue?
    ensures AttemptsEnd(p, orderId, replies, Attempts(p, orderId, replies))
  {
    assert CallEnds(p, orderId, replies, 0, Attempts(p, orderId, replies));
  }

  lemma {:induction false} CallsEnd(p: Progress, orderId: int, replies: seq<Reply>)
    ensures AttemptsEnd(p, orderId, replies, Attempts(p, orderId, replies))
    decreases |replies|
  {
    if replies != [] && replies[0].Page? && PageStep(p, orderId, replies[0].fills).0.Continue? {
      CallsEnd(PageStep(p, orderId, replies[0].fills).1, orderId, replies[1..]);
      AttemptsEndLater(p, orderId, replies);
    } else {
      AttemptsEndNow(p, orderId, replies);
    }
  }

  /** Every merged page advances the record by one, and nothing else does. */
  lemma {:induction false} MergesAdvance(p: Progress, orderId: int, replies: seq<Reply>, n: nat)
    requires n <= |replies| && MergeFirst(p, orderId, replies, n)
    ensures MergedFirst(p, orderId, replies, n).advances == p.advances + n
    ensures MergedFirst(p, orderId, replies, n).expectedQty == p.expectedQty
    decreases n
  {
    if n > 0 {
      MergesAdvance(PageStep(p, orderId, replies[0].fills).1, orderId, replies[1..], n - 1);
    }
  }

  lemma {:induction false} HonestCall(p: Progress, book: map<int, Fill>, orderId: int, replies: seq<Reply>)
    requires Honest(p, book, orderId) && HonestReplies(p, book, orderId, replies)
    ensures var r := Attempts(p, orderId, replies);
      match r.end
      case Broken(_) => false
      case Finished(result) => result == book && r.pages <= PagesLeft(p, book)
      case _ => Honest(r.progress, book, orderId) && r.pages + PagesLeft(r.progress, book) == PagesLeft(p, book)
    decreases |replies|
  {
    if replies != [] && replies[0].Page? {
      var (verdict, next) := PageStep(p, orderId, replies[0].fills);
      HonestStep(p, book, orderId, replies[0].fills);
      if verdict.Continue? {
        HonestCall(next, book, orderId, replies[1..]);
      }
    }
  }

  lemma CleanupKeepsHonest(p: Progress, book: map<int, Fill>, orderId: int)
    requires Honest(p, book, orderId)
    ensures Honest(AfterCleanup(p), book, orderId)
    ensures PagesLeft(AfterCleanup(p), book) == PagesLeft(p, book)
    ensures p.fromId.Some? ==> AfterCleanup(p) == p
    ensures p.expectedQty == AfterCleanup(p).expectedQty
  {
    SumEmpty<int, Fill>(map[], Qty);
  }

  lemma {:induction false} ResumedCallsFrom(p: Progress, book: map<int, Fill>, orderId: int, calls: seq<seq<Reply>>)
    requires Honest(p, book, orderId) && HonestCalls(p, book, orderId, calls)
    ensures var r := Resume(p, orderId, calls);
      match r.end
      case Broken(_) => false
      case Finished(result) => result == book && r.pages <= PagesLeft(p, book)
      case _ => r.pages < PagesLeft(p, book)
    decreases |calls|
  {
    IncompleteMisses(p, book, orderId);
    if calls != [] {
      HonestCall(p, book, orderId, calls[0]);
      var r := Attempts(p, orderId, calls[0]);
      if !r.end.Finished? {
        CleanupKeepsHonest(r.progress, book, orderId);
        ResumedCallsFrom(AfterCleanup(r.progress), book, orderId, calls[1..]);
      }
    }
  }

  /**
   Against an honest server, calls resumed on a kept slot never raise an error of the loop, return
   nothing but the complete book, and finish by the time 1 + ceil(n / 1000) pages have been served.
   */
  lemma ResumedCallsComplete(book: map<int, Fill>, orderId: int, expectedQty: real, calls: seq<seq<Reply>>)
    requires expectedQty > 0.0 && HonestBook(book, orderId, expectedQty)
    requires HonestCalls(Fresh(expectedQty), book, orderId, calls)
    ensures var r := Resume(Fresh(expectedQty), orderId, calls);
      && !r.end.Broken?
      && (r.end.Finished? ==> r.end.result == book)
      && r.pages <= 1 + Pages(|book.Keys|)
      && (r.pages == 1 + Pages(|book.Keys|) ==> r.end.Finished?)
  {
    SumEmpty<int, Fill>(map[], Qty);
    ResumedCallsFrom(Fresh(expectedQty), book, orderId, calls);
  }

  // ---------------------------------------------------------------- the record, updated in place

  class FillProgress {
    var expectedQty: real
    var fromId: Option<int>
    var restarted: bool
    var fills: map<int, Fill>
    var quantity: real
    var advances: nat

    function Value(): Progress
      reads this
    {
      Progress(expectedQty, fromId, restarted, fills, quantity, advances)
    }

    constructor (expectedQty: real)
      ensures Value() == Fresh(expectedQty)
    {
      this.expectedQty, fromId, restarted, fills, quantity, advances := expectedQty, None, false, map[], 0.0, 0;
    }

    method Reset()
      modifies this
      ensures Value() == Fresh(old(expectedQty))
    {
      fromId, restarted, fills, quantity, advances := None, false, map[], 0.0, 0;
    }

    /** Read one page from left to right up to the first fill that cannot be held. */
    method ReadPage(orderId: int, page: seq<Fill>) returns (error: Option<PageError>, added: map<int, Fill>, sum: real, maxId: Option<int>)
      ensures ScanPage(fills, orderId, page, quantity) == if error.Some? then ScanFailed(error.value) else Scanned(added, sum, maxId)
    {
      error, maxId, added, sum := None, None, map[], quantity;
      for i := 0 to |page|
        invariant error.None? && ScanPage(fills, orderId, page[..i], quantity) == Scanned(added, sum, maxId)
      {
        var fill := page[i];
        assert page[..i + 1] == page[..i] + [fill];
        ScanPut(fills, orderId, page[..i], fill, quantity);
        if fill.orderId != orderId || fill.id < 0 || fill.qty <= 0.0 {
          ScanErrorStays(fills, orderId, page, quantity, i + 1);
          error := Some(InvalidTrade);
          return;
        }
        maxId := Some(if maxId.None? then fill.id else if fill.id > maxId.value then fill.id else maxId.value);
        if fill.id in fills || fill.id in added {
          var existing := if fill.id in fills then fills[fill.id] else added[fill.id];
          if !SameExecution(existing, fill) {
            ScanErrorStays(fills, orderId, page, quantity, i + 1);
            error := Some(Conflict(fill.id));
            return;
          }
        } else {
          sum := sum + fill.qty;
          added := added[fill.id := fill];
        }
      }
      assert page[..|page|] == page;
    }

    /** Validate and merge one page, exactly as far as the loop body goes without waiting. */
    method Receive(orderId: int, page: seq<Fill>) returns (verdict: Verdict)
      modifies this
      ensures (verdict, Value()) == PageStep(old(Value()), orderId, page)
    {
      if |page| > PAGE_LIMIT {
        return Reject(TooLarge);
      }
      var error, added, sum, maxId := ReadPage(orderId, page);
      if error.Some? {
        return Reject(error.value);
      }
      verdict := Conclude(|page|, added, sum, maxId);
    }

    /** What happens to a scanned page: complete the order, move the cursor on, or give up. */
    method Conclude(size: nat, added: map<int, Fill>, sum: real, maxId: Option<int>) returns (verdict: Verdict)
      modifies this
      ensures (verdict, Value()) == Decide(old(Value()), size, Scanned(added, sum, maxId))
    {
      if sum > expectedQty {
        return Reject(ExceedsQuantity);
      }
      if |fills.Keys| + |added.Keys| > FILL_LIMIT {
        Reset();
        return Reject(TooManyFills);
      }
      if sum == expectedQty {
        var result := TakeAll(added);
        return Complete(result);
      }
      match NextCursor(Value(), size, maxId) {
        case Next(id) =>
          Advance(added, sum, id);
          return Continue;
        case Stuck(error) =>
          if error.Incomplete? {
            Reset();
          }
          return Reject(error);
      }
    }

    method Advance(added: map<int, Fill>, sum: real, next: int)
      modifies this
      ensures Value() == Advanced(old(Value()), added, sum, next)
    {
      fills, quantity, fromId, restarted, advances := fills + added, sum, Some(next), true, advances + 1;
    }

    method TakeAll(added: map<int, Fill>) returns (result: map<int, Fill>)
      modifies this
      ensures result == old(fills) + added
      ensures Value() == old(Value()).(fills := map[])
    {
      result := fills + added;
      fills := map[];
    }

    /** The attempts of one call; `replies[i]` is what the i-th attempt would meet. */
    method Call(orderId: int, replies: seq<Reply>) returns (end: CallEnd, failedQuery: bool, ghost pages: nat)
      requires |replies| == PAGES_PER_CALL
      modifies this
      ensures CallResult(end, Value(), failedQuery, pages) == Attempts(old(Value()), orderId, replies)
      ensures AttemptsEnd(old(Value()), orderId, replies, CallResult(end, Value(), failedQuery, pages))
    {
      CallsEnd(Value(), orderId, replies);
      failedQuery, pages := false, 0;
      for attempt := 0 to PAGES_PER_CALL
        invariant !failedQuery
        invariant var rest := Attempts(Value(), orderId, replies[attempt..]);
          Attempts(old(Value()), orderId, replies) == rest.(pages := rest.pages + pages)
      {
        assert replies[attempt..][1..] == replies[attempt + 1..];
        match replies[attempt] {
          case Refused => return Stopped, false, pages;
          case Failed => return Stopped, true, pages;
          case Cleared => return Stopped, false, pages;
          case Page(page) =>
            var verdict := Receive(orderId, page);
            pages := pages + 1;
            match verdict {
              case Complete(result) => return Finished(result), true, pages;
              case Reject(error) => return Broken(error), true, pages;
              case Continue =>
            }
        }
      }
      return Later, false, pages;
    }
  }

  /** An error met early in the page is the outcome of the whole page. */
  lemma ScanPut(held: map<int, Fill>, orderId: int, init: seq<Fill>, fill: Fill, quantity: real)
    ensures ScanPage(held, orderId, init + [fill], quantity) == ScanFill(held, orderId, ScanPage(held, orderId, init, quantity), fill)
  {
    assert (init + [fill])[..|init|] == init;
  }

  lemma {:induction false} ScanErrorStays(held: map<int, Fill>, orderId: int, page: seq<Fill>, quantity: real, n: nat)
    requires n <= |page|
    requires ScanPage(held, orderId, page[..n], quantity).ScanFailed?
    ensures ScanPage(held, orderId, page, quantity) == ScanPage(held, orderId, page[..n], quantity)
    decreases |page|
  {
    if n == |page| {
      assert page[..n] == page;
    } else {
      var init := page[..|page| - 1];
      assert init[..n] == page[..n];
      ScanErrorStays(held, orderId, init, quantity, n);
    }
  }
}
