/**
 The shared paper wallet: every symbol contributes to the totals of one asset, and a publication replaces
 its contribution in place. The saved accounts behind the ledger are in the module PaperStore.
 */
module PaperLedger {
  import opened Basics
  import opened MapSum

  datatype PositionInfo = PositionInfo(
    size: real, entryPrice: real, markPrice: real, unrealizedPnl: real, leverage: nat, updateTime: Option<int>)

  datatype AccountInfo = AccountInfo(
    asset: string, totalWalletBalance: real, availableBalance: real, marginBalance: real, unrealizedProfit: real, updateTime: int)

  const PAPER_INITIAL_BALANCE: real := 10000.0

  datatype Contribution = Contribution(
    asset: string, walletDelta: real, unrealizedPnl: real, positionMargin: real, size: real, entryPrice: real,
    openTime: Option<int>, updateTime: int, committed: bool)

  datatype AssetLedger = AssetLedger(
    walletDelta: real, unrealizedPnl: real, positionMargin: real, openTimes: map<int, nat>, latestUpdate: int)

  datatype Ledger = Ledger(symbols: map<string, Contribution>, assets: map<string, AssetLedger>, unresolved: map<string, set<string>>)

  const EmptyAsset: AssetLedger := AssetLedger(0.0, 0.0, 0.0, map[], 0)

  const EmptyLedger: Ledger := Ledger(map[], map[], map[])

  // ---------------------------------------------------------------- contributions

  predicate IsMagnitude(x: real, m: real) {
    m >= 0.0 && (m == x || m == -x)
  }

  /** At its leverage the margin carries the whole position, valued at its mark price or, without one, at its entry price. */
  function PositionMargin(p: PositionInfo): (margin: real)
    ensures var price := if p.markPrice > 0.0 then p.markPrice else p.entryPrice;
      exists size :: IsMagnitude(p.size, size) && margin * Max(p.leverage, 1) as real == size * price
    ensures p.markPrice > 0.0 || p.entryPrice >= 0.0 ==> margin >= 0.0
  {
    var size := if p.size < 0.0 then -p.size else p.size;
    var price := if p.markPrice > 0.0 then p.markPrice else p.entryPrice;
    var value := size * price;
    assert price >= 0.0 ==> value >= 0.0;
    assert IsMagnitude(p.size, size);
    value / (if p.leverage > 1 then p.leverage else 1) as real
  }

  function TimeOf(p: PositionInfo, a: AccountInfo): int {
    if p.updateTime.Some? then p.updateTime.value else a.updateTime
  }

  function Refreshed(c: Contribution, p: PositionInfo, a: AccountInfo, committed: bool): Contribution {
    Contribution(
      c.asset, a.totalWalletBalance - PAPER_INITIAL_BALANCE, p.unrealizedPnl, PositionMargin(p), p.size, p.entryPrice,
      if p.size != 0.0 then Some(Min(TimeOf(p, a), a.updateTime)) else None, a.updateTime, c.committed || committed)
  }

  function NewContribution(p: PositionInfo, a: AccountInfo, committed: bool): Contribution {
    Refreshed(Contribution(a.asset, 0.0, 0.0, 0.0, 0.0, 0.0, None, a.updateTime, committed), p, a, committed)
  }

  /** A contribution's wallet and holdings are those of a position and an account. */
  predicate Agrees(c: Contribution, p: PositionInfo, a: AccountInfo) {
    && c.walletDelta == a.totalWalletBalance - PAPER_INITIAL_BALANCE
    && c.size == p.size && c.entryPrice == p.entryPrice
  }

  predicate AcceptsValuation(c: Contribution, p: PositionInfo, a: AccountInfo) {
    && (c.committed ==> Agrees(c, p, a))
    && a.updateTime >= c.updateTime
    && (c.openTime.Some? ==> TimeOf(p, a) >= c.openTime.value)
  }

  // ---------------------------------------------------------------- totals of one asset

  /** The contribution's valuation time is counted, so taking it out cannot fail. */
  predicate Counts(l: AssetLedger, c: Contribution) {
    c.openTime.Some? ==> c.openTime.value in l.openTimes && l.openTimes[c.openTime.value] > 0
  }

  function WithoutTime(times: map<int, nat>, time: int): map<int, nat>
    requires time in times && times[time] > 0
  {
    if times[time] == 1 then times - {time} else times[time := times[time] - 1]
  }

  function WithTime(times: map<int, nat>, time: int): map<int, nat> {
    times[time := (if time in times then times[time] else 0) + 1]
  }

  function Removed(l: AssetLedger, c: Contribution): AssetLedger
    requires Counts(l, c)
  {
    AssetLedger(
      l.walletDelta - c.walletDelta, l.unrealizedPnl - c.unrealizedPnl, l.positionMargin - c.positionMargin,
      if c.openTime.Some? then WithoutTime(l.openTimes, c.openTime.value) else l.openTimes, l.latestUpdate)
  }

  function Added(l: AssetLedger, c: Contribution): AssetLedger {
    AssetLedger(
      l.walletDelta + c.walletDelta, l.unrealizedPnl + c.unrealizedPnl, l.positionMargin + c.positionMargin,
      if c.openTime.Some? then WithTime(l.openTimes, c.openTime.value) else l.openTimes, Max(l.latestUpdate, c.updateTime))
  }

  predicate IsFirst(times: set<int>, first: int) {
    first in times && forall t | t in times :: first <= t
  }

  function FirstTime(times: set<int>): (first: Option<int>)
    ensures first.None? <==> times == {}
    ensures first.Some? ==> IsFirst(times, first.value)
  {
    if times == {} then None
    else
      FirstExists(times);
      var first :| IsFirst(times, first);
      Some(first)
  }

  lemma Member<T>(s: set<T>) returns (x: T)
    requires s != {}
    ensures x in s
  {
    x :| x in s;
  }

  lemma {:induction false} FirstExists(times: set<int>)
    ensures times == {} || exists first :: IsFirst(times, first)
    decreases |times|
  {
    if times != {} {
      var t := Member(times);
      var rest := times - {t};
      FirstExists(rest);
      if rest == {} {
        assert forall u | u in times :: u == t || u in rest;
        assert IsFirst(times, t);
      } else {
        var first :| IsFirst(rest, first);
        assert forall u | u in times :: u == t || u in rest;
        assert IsFirst(times, Min(first, t));
      }
    }
  }

  function AccountOf(l: AssetLedger, asset: string): AccountInfo {
    var total := PAPER_INITIAL_BALANCE + l.walletDelta;
    var margin := total + l.unrealizedPnl;
    var first := FirstTime(l.openTimes.Keys);
    AccountInfo(asset, total, margin - l.positionMargin, margin, l.unrealizedPnl,
                if first.Some? then first.value else l.latestUpdate)
  }

  // ---------------------------------------------------------------- the ledger

  /** Every contribution is counted by the ledger of its asset. */
  predicate Consistent(l: Ledger) {
    forall s | s in l.symbols :: l.symbols[s].asset in l.assets && Counts(l.assets[l.symbols[s].asset], l.symbols[s])
  }

  function AssetIn(assets: map<string, AssetLedger>, asset: string): AssetLedger {
    if asset in assets then assets[asset] else EmptyAsset
  }

  function Entered(l: Ledger, symbol: string, c: Contribution): Ledger {
    l.(symbols := l.symbols[symbol := c], assets := l.assets[c.asset := Added(AssetIn(l.assets, c.asset), c)])
  }

  /** The contribution of `symbol` taken out of its asset's totals. */
  function Withdrawn(l: Ledger, symbol: string): Ledger
    requires Consistent(l) && symbol in l.symbols
  {
    var c := l.symbols[symbol];
    l.(symbols := l.symbols - {symbol}, assets := l.assets[c.asset := Removed(l.assets[c.asset], c)])
  }

  function Published(l: Ledger, symbol: string, p: PositionInfo, a: AccountInfo, committed: bool): Ledger
    requires Consistent(l)
  {
    if symbol in l.symbols then
      var previous := l.symbols[symbol];
      if !committed && !AcceptsValuation(previous, p, a) then l
      else Entered(Withdrawn(l, symbol), symbol, Refreshed(previous.(asset := a.asset), p, a, committed))
    else Entered(l, symbol, NewContribution(p, a, committed))
  }

  // ---------------------------------------------------------------- what a publication means

  /** The time an open position was valued at: its own or, if it has none, the account's, and no later than the account's. */
  ghost predicate IsOpenTime(p: PositionInfo, a: AccountInfo, time: Option<int>) {
    if p.size == 0.0 then time.None?
    else
      && time.Some? && time.value <= a.updateTime
      && (p.updateTime.Some? ==> time.value <= p.updateTime.value)
      && (time.value == a.updateTime || Some(time.value) == p.updateTime)
  }

  /** At the position's leverage the margin carries its whole size, at the mark price or, without one, at the entry price. */
  ghost predicate IsMargin(p: PositionInfo, margin: real) {
    var price := if p.markPrice > 0.0 then p.markPrice else p.entryPrice;
    exists size :: IsMagnitude(p.size, size) && margin * Max(p.leverage, 1) as real == size * price
  }

  /** The contribution is that of the position and the account. */
  ghost predicate Shows(c: Contribution, p: PositionInfo, a: AccountInfo) {
    && c.asset == a.asset && c.updateTime == a.updateTime
    && c.walletDelta + PAPER_INITIAL_BALANCE == a.totalWalletBalance
    && c.unrealizedPnl == p.unrealizedPnl && IsMargin(p, c.positionMargin)
    && c.size == p.size && c.entryPrice == p.entryPrice
    && IsOpenTime(p, a, c.openTime)
  }

  /** A valuation is late: it would change holdings that a transaction has published, or go back in time. */
  ghost predicate IsLate(c: Contribution, p: PositionInfo, a: AccountInfo) {
    || (c.committed && (c.walletDelta + PAPER_INITIAL_BALANCE != a.totalWalletBalance || c.size != p.size || c.entryPrice != p.entryPrice))
    || a.updateTime < c.updateTime
    || (c.openTime.Some? && if p.updateTime.Some? then p.updateTime.value < c.openTime.value else a.updateTime < c.openTime.value)
  }

  /** A late valuation changes nothing; any other publication makes its symbol's contribution what it says, and changes no other. */
  ghost predicate IsPublished(l: Ledger, l': Ledger, symbol: string, p: PositionInfo, a: AccountInfo, committed: bool) {
    if symbol in l.symbols && !committed && IsLate(l.symbols[symbol], p, a) then l' == l
    else
      && l'.unresolved == l.unresolved
      && l'.symbols.Keys == l.symbols.Keys + {symbol}
      && (forall s | s in l.symbols && s != symbol :: l'.symbols[s] == l.symbols[s])
      && Shows(l'.symbols[symbol], p, a)
      && (l'.symbols[symbol].committed <==> committed || (symbol in l.symbols && l.symbols[symbol].committed))
  }

  lemma RefreshedShows(c: Contribution, p: PositionInfo, a: AccountInfo, committed: bool)
    requires c.asset == a.asset
    ensures Shows(Refreshed(c, p, a, committed), p, a)
  {
  }

  lemma LateIsRefused(c: Contribution, p: PositionInfo, a: AccountInfo)
    ensures AcceptsValuation(c, p, a) <==> !IsLate(c, p, a)
  {
  }

  /** Every publication does what it says, or is refused for being late. */
  lemma PublicationMeans(l: Ledger, symbol: string, p: PositionInfo, a: AccountInfo, committed: bool)
    requires Consistent(l)
    ensures IsPublished(l, Published(l, symbol, p, a, committed), symbol, p, a, committed)
  {
    PublishedSymbols(l, symbol, p, a, committed);
    if symbol in l.symbols {
      LateIsRefused(l.symbols[symbol], p, a);
      RefreshedShows(l.symbols[symbol].(asset := a.asset), p, a, committed);
    } else {
      RefreshedShows(Contribution(a.asset, 0.0, 0.0, 0.0, 0.0, 0.0, None, a.updateTime, committed), p, a, committed);
    }
  }

  predicate EndsWith(s: string, suffix: string) {
    |s| >= |suffix| && s[|s| - |suffix|..] == suffix
  }

  const QUOTES: set<string> := {"FDUSD", "USDC", "USDT", "BUSD"}

  /** The quote asset a symbol is priced in, or the symbol itself. */
  function QuoteAsset(symbol: string): string {
    if EndsWith(symbol, "FDUSD") then "FDUSD"
    else if EndsWith(symbol, "USDC") then "USDC"
    else if EndsWith(symbol, "USDT") then "USDT"
    else if EndsWith(symbol, "BUSD") then "BUSD"
    else symbol
  }

  lemma SameEnd(s: string, q: string, r: string, i: nat)
    requires EndsWith(s, q) && EndsWith(s, r) && 0 < i <= |q| && i <= |r|
    ensures q[|q| - i] == r[|r| - i]
  {
    assert s[|s| - |q|..][|q| - i] == s[|s| - i] == s[|s| - |r|..][|r| - i];
  }

  /** At most one of the quote assets ends a symbol. */
  lemma OneQuote(symbol: string, q: string, r: string)
    requires q in QUOTES && r in QUOTES && EndsWith(symbol, q) && EndsWith(symbol, r)
    ensures q == r
  {
    SameEnd(symbol, q, r, 1);
    SameEnd(symbol, q, r, 4);
    assert "FDUSD"[4] == 'D' && "USDC"[3] == 'C' && "USDT"[3] == 'T' && "BUSD"[3] == 'D';
    assert "FDUSD"[1] == 'D' && "BUSD"[0] == 'B';
  }

  /** It is the quote asset that the symbol ends with, or the symbol itself if there is none. */
  lemma QuoteAssetMeans(symbol: string)
    ensures forall q | q in QUOTES && EndsWith(symbol, q) :: QuoteAsset(symbol) == q
    ensures (forall q | q in QUOTES :: !EndsWith(symbol, q)) ==> QuoteAsset(symbol) == symbol
  {
    forall q | q in QUOTES && EndsWith(symbol, q) ensures QuoteAsset(symbol) == q {
      FirstQuote(symbol, q);
    }
  }

  lemma FirstQuote(symbol: string, q: string)
    requires q in QUOTES && EndsWith(symbol, q)
    ensures QuoteAsset(symbol) == q
  {
    if EndsWith(symbol, "FDUSD") {
      OneQuote(symbol, q, "FDUSD");
    } else if EndsWith(symbol, "USDC") {
      OneQuote(symbol, q, "USDC");
    } else if EndsWith(symbol, "USDT") {
      OneQuote(symbol, q, "USDT");
    } else {
      assert q == "BUSD";
    }
  }

  function Unresolved(l: Ledger, asset: string): set<string> {
    if asset in l.unresolved then l.unresolved[asset] else {}
  }

  function LegacyRecorded(l: Ledger, symbol: string): Ledger {
    if symbol in l.symbols then l
    else l.(unresolved := l.unresolved[QuoteAsset(symbol) := Unresolved(l, QuoteAsset(symbol)) + {symbol}])
  }

  function Resolved(unresolved: map<string, set<string>>, asset: string, symbol: string): map<string, set<string>> {
    if asset !in unresolved then unresolved
    else if unresolved[asset] - {symbol} == {} then unresolved - {asset}
    else unresolved[asset := unresolved[asset] - {symbol}]
  }

  function Committed(l: Ledger, symbol: string, p: PositionInfo, a: AccountInfo): Ledger
    requires Consistent(l)
  {
    Published(l.(unresolved := Resolved(l.unresolved, QuoteAsset(symbol), symbol)), symbol, p, a, true)
  }

  /** `NoLedger` stands for the failing `unwrap` of an asset that has no ledger. */
  datatype SharedResult = Wallet(account: AccountInfo) | MissingAsset | LegacyUnresolved | NoLedger

  function Shared(l: Ledger, symbol: string, p: PositionInfo, a: AccountInfo): (SharedResult, Ledger)
    requires Consistent(l)
  {
    if a.asset == "" then (MissingAsset, l)
    else if a.asset in l.unresolved then (LegacyUnresolved, l)
    else
      var next := Published(l, symbol, p, a, false);
      (if a.asset in next.assets then Wallet(AccountOf(next.assets[a.asset], a.asset)) else NoLedger, next)
  }

  // ---------------------------------------------------------------- what every publication keeps

  function WalletIn(asset: string): Contribution -> real {
    (c: Contribution) => if c.asset == asset then c.walletDelta else 0.0
  }

  function ProfitIn(asset: string): Contribution -> real {
    (c: Contribution) => if c.asset == asset then c.unrealizedPnl else 0.0
  }

  function MarginIn(asset: string): Contribution -> real {
    (c: Contribution) => if c.asset == asset then c.positionMargin else 0.0
  }

  /** The symbols of the asset whose open position was valued at `time`. */
  function OpenAt(symbols: map<string, Contribution>, asset: string, time: int): set<string> {
    set s | s in symbols && symbols[s].asset == asset && symbols[s].openTime == Some(time)
  }

  /** The open-valuation multiset holds exactly the times of the open contributions. */
  ghost predicate TimesOk(symbols: map<string, Contribution>, asset: string, times: map<int, nat>) {
    forall time :: (if time in times then times[time] else 0) == |OpenAt(symbols, asset, time)|
      && (time in times ==> times[time] > 0)
  }

  /** The totals are the sums over the asset's current contributions. */
  ghost predicate TotalsOk(symbols: map<string, Contribution>, asset: string, l: AssetLedger) {
    && l.walletDelta == Sum(symbols, WalletIn(asset))
    && l.unrealizedPnl == Sum(symbols, ProfitIn(asset))
    && l.positionMargin == Sum(symbols, MarginIn(asset))
    && TimesOk(symbols, asset, l.openTimes)
    && (forall s | s in symbols && symbols[s].asset == asset :: symbols[s].updateTime <= l.latestUpdate)
  }

  ghost predicate LedgerOk(l: Ledger) {
    && (forall asset | asset in l.assets :: TotalsOk(l.symbols, asset, l.assets[asset]))
    && (forall s | s in l.symbols :: l.symbols[s].asset in l.assets)
    && (forall asset | asset in l.unresolved :: l.unresolved[asset] != {})
  }

  lemma LedgerIsConsistent(l: Ledger)
    requires LedgerOk(l)
    ensures Consistent(l)
  {
    forall s | s in l.symbols ensures Counts(l.assets[l.symbols[s].asset], l.symbols[s]) {
      var c := l.symbols[s];
      if c.openTime.Some? {
        assert s in OpenAt(l.symbols, c.asset, c.openTime.value);
        assert TimesOk(l.symbols, c.asset, l.assets[c.asset].openTimes);
      }
    }
  }

  lemma OpenAtPut(symbols: map<string, Contribution>, s: string, c: Contribution, asset: string, time: int)
    requires s !in symbols
    ensures |OpenAt(symbols[s := c], asset, time)| ==
      |OpenAt(symbols, asset, time)| + (if c.asset == asset && c.openTime == Some(time) then 1 else 0)
  {
    var before, after := OpenAt(symbols, asset, time), OpenAt(symbols[s := c], asset, time);
    assert after == if c.asset == asset && c.openTime == Some(time) then before + {s} else before;
  }

  lemma TimesAfterAdd(symbols: map<string, Contribution>, s: string, c: Contribution, times: map<int, nat>)
    requires s !in symbols && TimesOk(symbols, c.asset, times)
    ensures TimesOk(symbols[s := c], c.asset, if c.openTime.Some? then WithTime(times, c.openTime.value) else times)
  {
    forall time ensures |OpenAt(symbols[s := c], c.asset, time)| ==
      |OpenAt(symbols, c.asset, time)| + (if c.openTime == Some(time) then 1 else 0)
    {
      OpenAtPut(symbols, s, c, c.asset, time);
    }
  }

  lemma TimesAfterRemove(symbols: map<string, Contribution>, s: string, times: map<int, nat>)
    requires s in symbols && TimesOk(symbols, symbols[s].asset, times)
    ensures var c := symbols[s];
      && (c.openTime.Some? ==> c.openTime.value in times)
      && TimesOk(symbols - {s}, c.asset, if c.openTime.Some? then WithoutTime(times, c.openTime.value) else times)
  {
    var c := symbols[s];
    assert symbols == (symbols - {s})[s := c];
    forall time ensures |OpenAt(symbols, c.asset, time)| ==
      |OpenAt(symbols - {s}, c.asset, time)| + (if c.openTime == Some(time) then 1 else 0)
    {
      OpenAtPut(symbols - {s}, s, c, c.asset, time);
    }
    if c.openTime.Some? {
      assert |OpenAt(symbols, c.asset, c.openTime.value)| > 0;
    }
  }

  lemma SumsAfterAdd(symbols: map<string, Contribution>, s: string, c: Contribution, asset: string)
    requires s !in symbols
    ensures Sum(symbols[s := c], WalletIn(asset)) == Sum(symbols, WalletIn(asset)) + (if c.asset == asset then c.walletDelta else 0.0)
    ensures Sum(symbols[s := c], ProfitIn(asset)) == Sum(symbols, ProfitIn(asset)) + (if c.asset == asset then c.unrealizedPnl else 0.0)
    ensures Sum(symbols[s := c], MarginIn(asset)) == Sum(symbols, MarginIn(asset)) + (if c.asset == asset then c.positionMargin else 0.0)
  {
    SumPut(symbols, s, c, WalletIn(asset));
    SumPut(symbols, s, c, ProfitIn(asset));
    SumPut(symbols, s, c, MarginIn(asset));
  }

  lemma TotalsAfterAdd(symbols: map<string, Contribution>, s: string, c: Contribution, l: AssetLedger)
    requires s !in symbols && TotalsOk(symbols, c.asset, l)
    ensures TotalsOk(symbols[s := c], c.asset, Added(l, c))
  {
    SumsAfterAdd(symbols, s, c, c.asset);
    TimesAfterAdd(symbols, s, c, l.openTimes);
  }

  lemma TotalsAfterRemove(symbols: map<string, Contribution>, s: string, l: AssetLedger)
    requires s in symbols && TotalsOk(symbols, symbols[s].asset, l)
    ensures Counts(l, symbols[s]) && TotalsOk(symbols - {s}, symbols[s].asset, Removed(l, symbols[s]))
  {
    var c := symbols[s];
    assert symbols == (symbols - {s})[s := c];
    SumsAfterAdd(symbols - {s}, s, c, c.asset);
    TimesAfterRemove(symbols, s, l.openTimes);
  }

  /** Another asset's totals do not notice. */
  lemma TotalsElsewhere(symbols: map<string, Contribution>, s: string, c: Contribution, asset: string, l: AssetLedger)
    requires s !in symbols && c.asset != asset
    ensures TotalsOk(symbols, asset, l) <==> TotalsOk(symbols[s := c], asset, l)
  {
    var after := symbols[s := c];
    SumsAfterAdd(symbols, s, c, asset);
    forall time ensures |OpenAt(after, asset, time)| == |OpenAt(symbols, asset, time)| {
      OpenAtPut(symbols, s, c, asset, time);
    }
    assert TimesOk(symbols, asset, l.openTimes) <==> TimesOk(after, asset, l.openTimes);
    assert forall r | r in symbols :: r in after && after[r] == symbols[r];
  }

  lemma EmptyTotals(symbols: map<string, Contribution>, asset: string)
    requires forall s | s in symbols :: symbols[s].asset != asset
    ensures TotalsOk(symbols, asset, EmptyAsset)
  {
    ZeroSum(symbols, WalletIn(asset));
    ZeroSum(symbols, ProfitIn(asset));
    ZeroSum(symbols, MarginIn(asset));
    forall time ensures OpenAt(symbols, asset, time) == {} {
    }
  }

  lemma {:induction false} ZeroSum(symbols: map<string, Contribution>, f: Contribution -> real)
    requires forall s | s in symbols :: f(symbols[s]) == 0.0
    ensures Sum(symbols, f) == 0.0
    decreases |symbols.Keys|
  {
    if symbols.Keys == {} {
      SumEmpty(symbols, f);
    } else {
      var s := Pick(symbols);
      SumTake(symbols, s, f);
      ZeroSum(symbols - {s}, f);
    }
  }

  lemma EnteredKeeps(l: Ledger, symbol: string, c: Contribution)
    requires LedgerOk(l) && symbol !in l.symbols
    ensures LedgerOk(Entered(l, symbol, c))
  {
    var l' := Entered(l, symbol, c);
    if c.asset !in l.assets {
      EmptyTotals(l.symbols, c.asset);
    }
    TotalsAfterAdd(l.symbols, symbol, c, AssetIn(l.assets, c.asset));
    forall asset | asset in l'.assets && asset != c.asset ensures TotalsOk(l'.symbols, asset, l'.assets[asset]) {
      TotalsElsewhere(l.symbols, symbol, c, asset, l.assets[asset]);
    }
  }

  lemma TotalsWithout(symbols: map<string, Contribution>, s: string, asset: string, l: AssetLedger)
    requires s in symbols && symbols[s].asset != asset && TotalsOk(symbols, asset, l)
    ensures TotalsOk(symbols - {s}, asset, l)
  {
    assert symbols == (symbols - {s})[s := symbols[s]];
    TotalsElsewhere(symbols - {s}, s, symbols[s], asset, l);
  }

  lemma WithdrawnKeeps(l: Ledger, symbol: string)
    requires LedgerOk(l) && Consistent(l) && symbol in l.symbols
    ensures LedgerOk(Withdrawn(l, symbol)) && symbol !in Withdrawn(l, symbol).symbols
  {
    var c, l' := l.symbols[symbol], Withdrawn(l, symbol);
    TotalsAfterRemove(l.symbols, symbol, l.assets[c.asset]);
    forall asset | asset in l'.assets && asset != c.asset ensures TotalsOk(l'.symbols, asset, l'.assets[asset]) {
      TotalsWithout(l.symbols, symbol, asset, l.assets[asset]);
    }
  }

  /** A publication, accepted or not, leaves every asset's totals the sums of its current contributions. */
  lemma PublishedKeeps(l: Ledger, symbol: string, p: PositionInfo, a: AccountInfo, committed: bool)
    requires LedgerOk(l) && Consistent(l)
    ensures LedgerOk(Published(l, symbol, p, a, committed))
  {
    if symbol in l.symbols {
      WithdrawnKeeps(l, symbol);
      EnteredKeeps(Withdrawn(l, symbol), symbol, Refreshed(l.symbols[symbol].(asset := a.asset), p, a, committed));
    } else {
      EnteredKeeps(l, symbol, NewContribution(p, a, committed));
    }
  }

  /** What a publication does to the contributions. */
  lemma PublishedSymbols(l: Ledger, symbol: string, p: PositionInfo, a: AccountInfo, committed: bool)
    requires Consistent(l)
    ensures var l' := Published(l, symbol, p, a, committed);
      && l'.unresolved == l.unresolved
      && if symbol in l.symbols && !committed && !AcceptsValuation(l.symbols[symbol], p, a) then l' == l
         else
           var c := if symbol in l.symbols then Refreshed(l.symbols[symbol].(asset := a.asset), p, a, committed)
                    else NewContribution(p, a, committed);
           l'.symbols == l.symbols[symbol := c]
  {
    if symbol in l.symbols {
      var c := Refreshed(l.symbols[symbol].(asset := a.asset), p, a, committed);
      assert (l.symbols - {symbol})[symbol := c] == l.symbols[symbol := c];
    }
  }

  lemma SetsKeep(l: Ledger, unresolved: map<string, set<string>>)
    requires LedgerOk(l) && forall asset | asset in unresolved :: unresolved[asset] != {}
    ensures LedgerOk(l.(unresolved := unresolved))
  {
  }

  lemma CommittedKeeps(l: Ledger, symbol: string, p: PositionInfo, a: AccountInfo)
    requires LedgerOk(l) && Consistent(l)
    ensures LedgerOk(Committed(l, symbol, p, a))
  {
    var resolved := Resolved(l.unresolved, QuoteAsset(symbol), symbol);
    SetsKeep(l, resolved);
    PublishedKeeps(l.(unresolved := resolved), symbol, p, a, true);
  }

  /** The symbol's mark in its quote asset ends, every other mark stays, and an asset without marks is free. */
  ghost predicate IsResolved(l: Ledger, l': Ledger, symbol: string) {
    && (forall asset, s :: s in Unresolved(l', asset) <==> s in Unresolved(l, asset) && (s != symbol || asset != QuoteAsset(symbol)))
    && (forall asset | asset in l'.unresolved :: l'.unresolved[asset] != {})
  }

  lemma ResolvedMeans(l: Ledger, symbol: string)
    requires forall asset | asset in l.unresolved :: l.unresolved[asset] != {}
    ensures IsResolved(l, l.(unresolved := Resolved(l.unresolved, QuoteAsset(symbol), symbol)), symbol)
  {
  }

  /** The publication of a committed account: its contribution, its totals, and the end of the symbol's mark. */
  ghost predicate IsCommitted(l: Ledger, l': Ledger, symbol: string, p: PositionInfo, a: AccountInfo) {
    IsResolved(l, l', symbol) && IsPublished(l.(unresolved := l'.unresolved), l', symbol, p, a, true)
  }

  lemma CommitMeans(l: Ledger, symbol: string, p: PositionInfo, a: AccountInfo)
    requires LedgerOk(l) && Consistent(l)
    ensures IsCommitted(l, Committed(l, symbol, p, a), symbol, p, a)
  {
    var resolved := l.(unresolved := Resolved(l.unresolved, QuoteAsset(symbol), symbol));
    ResolvedMeans(l, symbol);
    PublicationMeans(resolved, symbol, p, a, true);
    PublishedSymbols(resolved, symbol, p, a, true);
    SameMarks(l, resolved, Committed(l, symbol, p, a), symbol);
  }

  lemma SameMarks(l: Ledger, l': Ledger, l'': Ledger, symbol: string)
    requires IsResolved(l, l', symbol) && l''.unresolved == l'.unresolved
    ensures IsResolved(l, l'', symbol)
  {
    forall asset ensures Unresolved(l'', asset) == Unresolved(l', asset) {
    }
  }

  /** A symbol with history and no contribution marks its quote asset, and nothing else changes. */
  ghost predicate IsMarked(l: Ledger, l': Ledger, symbol: string) {
    && l'.symbols == l.symbols && l'.assets == l.assets
    && forall asset, s :: s in Unresolved(l', asset) <==>
         s in Unresolved(l, asset) || (s == symbol && asset == QuoteAsset(symbol) && symbol !in l.symbols)
  }

  lemma LegacyMeans(l: Ledger, symbol: string)
    ensures IsMarked(l, LegacyRecorded(l, symbol), symbol)
  {
  }

  lemma LegacyKeeps(l: Ledger, symbol: string)
    requires LedgerOk(l)
    ensures LedgerOk(LegacyRecorded(l, symbol))
  {
    if symbol !in l.symbols {
      SetsKeep(l, LegacyRecorded(l, symbol).unresolved);
    }
  }

  lemma SharedKeeps(l: Ledger, symbol: string, p: PositionInfo, a: AccountInfo)
    requires LedgerOk(l) && Consistent(l)
    ensures LedgerOk(Shared(l, symbol, p, a).1)
  {
    PublishedKeeps(l, symbol, p, a, false);
  }

  /** An open valuation is no younger than the account it came with. */
  predicate Dated(l: Ledger) {
    forall s | s in l.symbols && l.symbols[s].openTime.Some? :: l.symbols[s].openTime.value <= l.symbols[s].updateTime
  }

  /** Valuations never move a contribution back in time: a late one is refused. */
  lemma ValuationsMoveForward(l: Ledger, symbol: string, p: PositionInfo, a: AccountInfo, s: string)
    requires Consistent(l) && Dated(l) && s in l.symbols
    ensures var l' := Published(l, symbol, p, a, false);
      && Dated(l') && s in l'.symbols
      && l'.symbols[s].updateTime >= l.symbols[s].updateTime
      && (l.symbols[s].openTime.Some? && l'.symbols[s].openTime.Some? ==>
            l'.symbols[s].openTime.value >= l.symbols[s].openTime.value)
      && (s != symbol ==> l'.symbols[s] == l.symbols[s])
  {
    PublishedSymbols(l, symbol, p, a, false);
  }

  // ---------------------------------------------------------------- what the wallet shows

  ghost predicate OpenIn(symbols: map<string, Contribution>, asset: string, s: string) {
    s in symbols && symbols[s].asset == asset && symbols[s].openTime.Some?
  }

  /** The wallet's balances are sums over the contributions, and its time is the oldest valuation of an open position. */
  lemma WalletIsSum(l: Ledger, asset: string)
    requires LedgerOk(l) && asset in l.assets
    ensures var account := AccountOf(l.assets[asset], asset);
      && account.totalWalletBalance == PAPER_INITIAL_BALANCE + Sum(l.symbols, WalletIn(asset))
      && account.marginBalance == account.totalWalletBalance + Sum(l.symbols, ProfitIn(asset))
      && account.availableBalance == account.marginBalance - Sum(l.symbols, MarginIn(asset))
      && (forall s | OpenIn(l.symbols, asset, s) :: account.updateTime <= l.symbols[s].openTime.value)
      && ((exists s :: OpenIn(l.symbols, asset, s)) ==>
            exists s :: OpenIn(l.symbols, asset, s) && l.symbols[s].openTime.value == account.updateTime)
  {
    var times := l.assets[asset].openTimes;
    forall s | OpenIn(l.symbols, asset, s) ensures l.symbols[s].openTime.value in times {
      assert s in OpenAt(l.symbols, asset, l.symbols[s].openTime.value);
      assert |OpenAt(l.symbols, asset, l.symbols[s].openTime.value)| > 0;
    }
    var first := FirstTime(times.Keys);
    if first.Some? {
      assert |OpenAt(l.symbols, asset, first.value)| > 0;
      var s :| s in OpenAt(l.symbols, asset, first.value);
      assert OpenIn(l.symbols, asset, s);
    }
  }

  /** The valuation times of the asset's open contributions. */
  function OpenTimes(symbols: map<string, Contribution>, asset: string): set<int> {
    set s | s in symbols && symbols[s].asset == asset && symbols[s].openTime.Some? :: symbols[s].openTime.value
  }

  lemma TimesAreOpenTimes(symbols: map<string, Contribution>, asset: string, times: map<int, nat>)
    requires TimesOk(symbols, asset, times)
    ensures times.Keys == OpenTimes(symbols, asset)
  {
    forall time ensures time in times <==> time in OpenTimes(symbols, asset) {
      assert (if time in times then times[time] else 0) == |OpenAt(symbols, asset, time)|;
      if time in OpenTimes(symbols, asset) {
        var s :| s in symbols && symbols[s].asset == asset && symbols[s].openTime == Some(time);
        assert s in OpenAt(symbols, asset, time);
      } else {
        assert OpenAt(symbols, asset, time) == {};
      }
    }
  }

  /** The latest of some times, and the default time if all are older. */
  function Latest(times: set<int>): (last: int)
    ensures (last == 0 || last in times) && last >= 0 && forall t | t in times :: t <= last
  {
    LastExists(times);
    var last :| IsLast(times, last);
    last
  }

  predicate IsLast(times: set<int>, last: int) {
    (last == 0 || last in times) && last >= 0 && forall t | t in times :: t <= last
  }

  lemma {:induction false} LastExists(times: set<int>)
    ensures exists last :: IsLast(times, last)
    decreases |times|
  {
    if times == {} {
      assert IsLast(times, 0);
    } else {
      var t := Member(times);
      var rest := times - {t};
      LastExists(rest);
      var last :| IsLast(rest, last);
      assert forall u | u in times :: u == t || u in rest;
      assert IsLast(times, Max(last, t));
    }
  }

  /** The update times of the asset's contributions. */
  function UpdateTimes(symbols: map<string, Contribution>, asset: string): set<int> {
    set s | s in symbols && symbols[s].asset == asset :: symbols[s].updateTime
  }

  /** The sums over the asset's contributions and the oldest open valuation, or `idle` when nothing is open. */
  ghost function WalletAt(symbols: map<string, Contribution>, asset: string, idle: int): AccountInfo {
    var total := PAPER_INITIAL_BALANCE + Sum(symbols, WalletIn(asset));
    var margin := total + Sum(symbols, ProfitIn(asset));
    var first := FirstTime(OpenTimes(symbols, asset));
    AccountInfo(asset, total, margin - Sum(symbols, MarginIn(asset)), margin, Sum(symbols, ProfitIn(asset)),
                if first.Some? then first.value else idle)
  }

  /** The wallet as the contributions alone determine it. */
  ghost function WalletOf(symbols: map<string, Contribution>, asset: string): AccountInfo {
    WalletAt(symbols, asset, Latest(UpdateTimes(symbols, asset)))
  }

  lemma WalletIsShown(l: Ledger, asset: string)
    requires LedgerOk(l) && asset in l.assets
    ensures AccountOf(l.assets[asset], asset) == WalletAt(l.symbols, asset, l.assets[asset].latestUpdate)
  {
    TimesAreOpenTimes(l.symbols, asset, l.assets[asset].openTimes);
  }

  /** The idle time is all that two wallets over the same contributions may differ in. */
  lemma WalletsDiffer(symbols: map<string, Contribution>, asset: string, idle: int, idle': int)
    ensures WalletAt(symbols, asset, idle) == WalletAt(symbols, asset, idle')
        <==> (exists s :: OpenIn(symbols, asset, s)) || idle == idle'
  {
    OpenMeansTimes(symbols, asset);
  }

  /** The answer to a valuation: refused without effect, or the wallet that all contributions give once it is published. */
  ghost predicate IsShared(l: Ledger, l': Ledger, symbol: string, p: PositionInfo, a: AccountInfo, result: SharedResult) {
    if a.asset == "" then l' == l && result == MissingAsset
    else if a.asset in l.unresolved then l' == l && result == LegacyUnresolved
    else
      && IsPublished(l, l', symbol, p, a, false)
      && if a.asset in l.assets || !(symbol in l.symbols && IsLate(l.symbols[symbol], p, a))
         then result.Wallet? && exists idle :: result.account == WalletAt(l'.symbols, a.asset, idle)
         else result.NoLedger?
  }

  /** A wallet is shown exactly if the asset has a ledger, which it lacks only when a late valuation names a new asset. */
  lemma SharedMeans(l: Ledger, symbol: string, p: PositionInfo, a: AccountInfo)
    requires LedgerOk(l) && Consistent(l)
    ensures IsShared(l, Shared(l, symbol, p, a).1, symbol, p, a, Shared(l, symbol, p, a).0)
    ensures symbol in l.symbols && l.symbols[symbol].asset == a.asset ==> !Shared(l, symbol, p, a).0.NoLedger?
  {
    if a.asset != "" && a.asset !in l.unresolved {
      PublicationMeans(l, symbol, p, a, false);
      PublishedKeeps(l, symbol, p, a, false);
      PublishedLatest(l, symbol, p, a, false, a.asset);
      if symbol in l.symbols {
        LateIsRefused(l.symbols[symbol], p, a);
      }
      if a.asset in Published(l, symbol, p, a, false).assets {
        WalletIsShown(Published(l, symbol, p, a, false), a.asset);
      }
    }
  }

  const Flat: PositionInfo := PositionInfo(0.0, 0.0, 0.0, 0.0, 1, None)

  function StartAccount(asset: string, time: int): AccountInfo {
    AccountInfo(asset, PAPER_INITIAL_BALANCE, 0.0, 0.0, 0.0, time)
  }

  /** For instance: a symbol valued in one asset, and then an older valuation of it in another. */
  lemma LateValuationInNewAsset(symbol: string, asset: string, other: string)
    requires asset != other && other != ""
    ensures var l := Published(EmptyLedger, symbol, Flat, StartAccount(asset, 10), false);
      Consistent(l) && Shared(l, symbol, Flat, StartAccount(other, 5)).0 == NoLedger
  {
  }

  // ---------------------------------------------------------------- runs of the ledger

  /** `TakeOver` loads one saved row. */
  datatype Op =
    | TakeOver(symbol: string, position: PositionInfo, account: AccountInfo)
    | Commit(symbol: string, position: PositionInfo, account: AccountInfo)
    | Share(symbol: string, position: PositionInfo, account: AccountInfo)
    | RecordLegacy(symbol: string)

  function Apply(l: Ledger, op: Op): Ledger
    requires Consistent(l)
  {
    match op
    case TakeOver(symbol, p, a) => Published(l, symbol, p, a, true)
    case Commit(symbol, p, a) => Committed(l, symbol, p, a)
    case Share(symbol, p, a) => Shared(l, symbol, p, a).1
    case RecordLegacy(symbol) => LegacyRecorded(l, symbol)
  }

  /** The operation publishes into the asset and is not refused. */
  predicate Publishes(l: Ledger, op: Op, asset: string) {
    && !op.RecordLegacy? && op.account.asset == asset
    && (op.Share? ==>
          && asset != "" && asset !in l.unresolved
          && (op.symbol in l.symbols ==> AcceptsValuation(l.symbols[op.symbol], op.position, op.account)))
  }

  lemma ApplyKeeps(l: Ledger, op: Op)
    requires LedgerOk(l) && Consistent(l)
    ensures LedgerOk(Apply(l, op)) && Consistent(Apply(l, op))
  {
    match op {
      case TakeOver(symbol, p, a) => PublishedKeeps(l, symbol, p, a, true);
      case Commit(symbol, p, a) => CommittedKeeps(l, symbol, p, a);
      case Share(symbol, p, a) => SharedKeeps(l, symbol, p, a);
      case RecordLegacy(symbol) => LegacyKeeps(l, symbol);
    }
    LedgerIsConsistent(Apply(l, op));
  }

  ghost function After(ops: seq<Op>): (l: Ledger)
    ensures LedgerOk(l) && Consistent(l)
  {
    if ops == [] then EmptyLedger
    else
      var l := After(ops[..|ops| - 1]);
      ApplyKeeps(l, ops[|ops| - 1]);
      Apply(l, ops[|ops| - 1])
  }

  /** The update times of all publications ever accepted into the asset, current or replaced. */
  ghost function PublishedTimes(ops: seq<Op>, asset: string): set<int> {
    if ops == [] then {}
    else
      var op := ops[|ops| - 1];
      PublishedTimes(ops[..|ops| - 1], asset)
      + if Publishes(After(ops[..|ops| - 1]), op, asset) then {op.account.updateTime} else {}
  }

  lemma PublishedLatest(l: Ledger, symbol: string, p: PositionInfo, a: AccountInfo, committed: bool, asset: string)
    requires Consistent(l)
    ensures var l' := Published(l, symbol, p, a, committed);
      var accepted := symbol in l.symbols ==> committed || AcceptsValuation(l.symbols[symbol], p, a);
      && (asset in l'.assets <==> asset in l.assets || (accepted && a.asset == asset))
      && AssetIn(l'.assets, asset).latestUpdate ==
         if accepted && a.asset == asset then Max(AssetIn(l.assets, asset).latestUpdate, a.updateTime)
         else AssetIn(l.assets, asset).latestUpdate
  {
  }

  lemma ApplyLatest(l: Ledger, op: Op, asset: string)
    requires Consistent(l)
    ensures asset in Apply(l, op).assets <==> asset in l.assets || Publishes(l, op, asset)
    ensures AssetIn(Apply(l, op).assets, asset).latestUpdate ==
      if Publishes(l, op, asset) then Max(AssetIn(l.assets, asset).latestUpdate, op.account.updateTime)
      else AssetIn(l.assets, asset).latestUpdate
  {
    match op
    case TakeOver(symbol, p, a) => PublishedLatest(l, symbol, p, a, true, asset);
    case Commit(symbol, p, a) =>
      PublishedLatest(l.(unresolved := Resolved(l.unresolved, QuoteAsset(symbol), symbol)), symbol, p, a, true, asset);
    case Share(symbol, p, a) => PublishedLatest(l, symbol, p, a, false, asset);
    case RecordLegacy(_) =>
  }

  lemma LatestPut(times: set<int>, time: int)
    ensures Latest(times + {time}) == Max(Latest(times), time)
  {
    assert time in times + {time};
    assert forall t | t in times :: t in times + {time};
  }

  /** An asset's update time is the latest of all publications ever accepted into it, also of those replaced since. */
  lemma {:induction false} LatestUpdateIsLatestPublication(ops: seq<Op>, asset: string)
    ensures asset in After(ops).assets <==> PublishedTimes(ops, asset) != {}
    ensures AssetIn(After(ops).assets, asset).latestUpdate == Latest(PublishedTimes(ops, asset))
  {
    if ops != [] {
      var init, op := ops[..|ops| - 1], ops[|ops| - 1];
      LatestUpdateIsLatestPublication(init, asset);
      ApplyLatest(After(init), op, asset);
      if Publishes(After(init), op, asset) {
        LatestPut(PublishedTimes(init, asset), op.account.updateTime);
      } else {
        assert PublishedTimes(ops, asset) == PublishedTimes(init, asset);
      }
    }
  }

  lemma ApplyUpdates(l: Ledger, op: Op, asset: string)
    requires Consistent(l)
    ensures UpdateTimes(Apply(l, op).symbols, asset)
         <= UpdateTimes(l.symbols, asset) + if Publishes(l, op, asset) then {op.account.updateTime} else {}
  {
    match op
    case TakeOver(symbol, p, a) => PublishedSymbols(l, symbol, p, a, true);
    case Commit(symbol, p, a) =>
      PublishedSymbols(l.(unresolved := Resolved(l.unresolved, QuoteAsset(symbol), symbol)), symbol, p, a, true);
    case Share(symbol, p, a) => PublishedSymbols(l, symbol, p, a, false);
    case RecordLegacy(_) =>
  }

  lemma {:induction false} ContributionsWerePublished(ops: seq<Op>, asset: string)
    ensures UpdateTimes(After(ops).symbols, asset) <= PublishedTimes(ops, asset)
  {
    if ops != [] {
      ContributionsWerePublished(ops[..|ops| - 1], asset);
      ApplyUpdates(After(ops[..|ops| - 1]), ops[|ops| - 1], asset);
    }
  }

  /** The last accepted publication of each symbol. */
  datatype Publication = Publication(position: PositionInfo, account: AccountInfo)

  ghost function LatestOf(ops: seq<Op>): map<string, Publication> {
    if ops == [] then map[]
    else
      var op, before := ops[|ops| - 1], LatestOf(ops[..|ops| - 1]);
      if !op.RecordLegacy? && Publishes(After(ops[..|ops| - 1]), op, op.account.asset)
      then before[op.symbol := Publication(op.position, op.account)] else before
  }

  ghost predicate ShowsAll(symbols: map<string, Contribution>, latest: map<string, Publication>) {
    && symbols.Keys == latest.Keys
    && forall s | s in symbols :: Shows(symbols[s], latest[s].position, latest[s].account)
  }

  lemma ShowsNext(l: Ledger, l': Ledger, latest: map<string, Publication>, symbol: string, p: PositionInfo, a: AccountInfo, committed: bool)
    requires ShowsAll(l.symbols, latest) && IsPublished(l, l', symbol, p, a, committed)
    ensures ShowsAll(l'.symbols,
      if symbol in l.symbols && !committed && IsLate(l.symbols[symbol], p, a) then latest else latest[symbol := Publication(p, a)])
  {
  }

  lemma ApplyShows(l: Ledger, op: Op, latest: map<string, Publication>)
    requires Consistent(l) && ShowsAll(l.symbols, latest)
    ensures ShowsAll(Apply(l, op).symbols,
      if !op.RecordLegacy? && Publishes(l, op, op.account.asset) then latest[op.symbol := Publication(op.position, op.account)] else latest)
  {
    match op
    case TakeOver(symbol, p, a) =>
      PublicationMeans(l, symbol, p, a, true);
      ShowsNext(l, Apply(l, op), latest, symbol, p, a, true);
    case Commit(symbol, p, a) =>
      var l' := l.(unresolved := Resolved(l.unresolved, QuoteAsset(symbol), symbol));
      PublicationMeans(l', symbol, p, a, true);
      ShowsNext(l', Apply(l, op), latest, symbol, p, a, true);
    case Share(symbol, p, a) =>
      if a.asset != "" && a.asset !in l.unresolved {
        PublicationMeans(l, symbol, p, a, false);
        ShowsNext(l, Apply(l, op), latest, symbol, p, a, false);
        if symbol in l.symbols {
          LateIsRefused(l.symbols[symbol], p, a);
        }
      }
    case RecordLegacy(_) =>
  }

  /** In every run each symbol contributes exactly what its last accepted publication says. */
  lemma {:induction false} ContributionsShowLatest(ops: seq<Op>)
    ensures ShowsAll(After(ops).symbols, LatestOf(ops))
  {
    if ops != [] {
      ContributionsShowLatest(ops[..|ops| - 1]);
      ApplyShows(After(ops[..|ops| - 1]), ops[|ops| - 1], LatestOf(ops[..|ops| - 1]));
    }
  }

  function BalanceOf(asset: string): Publication -> real {
    (u: Publication) => if u.account.asset == asset then u.account.totalWalletBalance - PAPER_INITIAL_BALANCE else 0.0
  }

  function OpenProfitOf(asset: string): Publication -> real {
    (u: Publication) => if u.account.asset == asset then u.position.unrealizedPnl else 0.0
  }

  function MarginOf(asset: string): Publication -> real {
    (u: Publication) => if u.account.asset == asset then PositionMargin(u.position) else 0.0
  }

  lemma MarginIsUnique(p: PositionInfo, margin: real)
    requires IsMargin(p, margin)
    ensures margin == PositionMargin(p)
  {
    var lever := Max(p.leverage, 1) as real;
    assert margin * lever == PositionMargin(p) * lever;
    assert margin * lever / lever == margin && PositionMargin(p) * lever / lever == PositionMargin(p);
  }

  /**
   In every run the shared wallet of an asset is made of the last accepted publication of each symbol: its total
   is the initial balance plus what each account has made or lost, its profit the sum of the positions' open
   profits, and what is not available of the margin balance the sum of the positions' margins.
   */
  lemma WalletShowsLatest(ops: seq<Op>, asset: string)
    requires asset in After(ops).assets
    ensures var account, latest := AccountOf(After(ops).assets[asset], asset), LatestOf(ops);
      && account.totalWalletBalance == PAPER_INITIAL_BALANCE + Sum(latest, BalanceOf(asset))
      && account.unrealizedProfit == Sum(latest, OpenProfitOf(asset))
      && account.marginBalance == account.totalWalletBalance + account.unrealizedProfit
      && account.availableBalance == account.marginBalance - Sum(latest, MarginOf(asset))
  {
    var l, latest := After(ops), LatestOf(ops);
    ContributionsShowLatest(ops);
    WalletIsShown(l, asset);
    SumMatch(l.symbols, latest, WalletIn(asset), BalanceOf(asset));
    SumMatch(l.symbols, latest, ProfitIn(asset), OpenProfitOf(asset));
    forall s | s in l.symbols ensures MarginIn(asset)(l.symbols[s]) == MarginOf(asset)(latest[s]) {
      MarginIsUnique(latest[s].position, l.symbols[s].positionMargin);
    }
    SumMatch(l.symbols, latest, MarginIn(asset), MarginOf(asset));
  }

  /** A publication that has been withdrawn or replaced is later than every contribution the asset has now. */
  ghost predicate ReplacedLater(ops: seq<Op>, asset: string) {
    exists t :: t in PublishedTimes(ops, asset) && t > Latest(UpdateTimes(After(ops).symbols, asset))
  }

  /** Over any run the wallet is the one its current contributions determine, except when nothing is open and a replaced publication was later. */
  lemma WalletDependsOnContributions(ops: seq<Op>, asset: string)
    requires asset in After(ops).assets
    ensures AccountOf(After(ops).assets[asset], asset) == WalletOf(After(ops).symbols, asset)
        <==> (exists s :: OpenIn(After(ops).symbols, asset, s)) || !ReplacedLater(ops, asset)
  {
    var l := After(ops);
    WalletIsShown(l, asset);
    WalletsDiffer(l.symbols, asset, l.assets[asset].latestUpdate, Latest(UpdateTimes(l.symbols, asset)));
    LatestUpdateIsLatestPublication(ops, asset);
    ContributionsWerePublished(ops, asset);
    if l.assets[asset].latestUpdate != Latest(UpdateTimes(l.symbols, asset)) {
      assert Latest(PublishedTimes(ops, asset)) in PublishedTimes(ops, asset);
    }
  }

  lemma OpenMeansTimes(symbols: map<string, Contribution>, asset: string)
    ensures OpenTimes(symbols, asset) != {} <==> exists s :: OpenIn(symbols, asset, s)
  {
    if s :| OpenIn(symbols, asset, s) {
      assert symbols[s].openTime.value in OpenTimes(symbols, asset);
    }
    if OpenTimes(symbols, asset) != {} {
      var time := Member(OpenTimes(symbols, asset));
      var s :| s in symbols && symbols[s].asset == asset && symbols[s].openTime == Some(time);
      assert OpenIn(symbols, asset, s);
    }
  }

  /** Two runs that end with the same contributions show the same wallet unless nothing is open and their latest publications differ. */
  lemma SameContributionsSameWallet(ops: seq<Op>, others: seq<Op>, asset: string)
    requires After(ops).symbols == After(others).symbols && asset in After(ops).assets && asset in After(others).assets
    ensures AccountOf(After(ops).assets[asset], asset) == AccountOf(After(others).assets[asset], asset)
        <==> (exists s :: OpenIn(After(ops).symbols, asset, s))
             || Latest(PublishedTimes(ops, asset)) == Latest(PublishedTimes(others, asset))
  {
    var l, m := After(ops), After(others);
    WalletIsShown(l, asset);
    WalletIsShown(m, asset);
    WalletsDiffer(l.symbols, asset, l.assets[asset].latestUpdate, m.assets[asset].latestUpdate);
    LatestUpdateIsLatestPublication(ops, asset);
    LatestUpdateIsLatestPublication(others, asset);
  }

  /** One symbol without a position, last published at `time`, in an asset last updated at `latest`. */
  function FlatLedger(symbol: string, asset: string, time: int, latest: int): Ledger {
    Ledger(map[symbol := Contribution(asset, 0.0, 0.0, 0.0, 0.0, 0.0, None, time, true)],
           map[asset := AssetLedger(0.0, 0.0, 0.0, map[], latest)], map[])
  }

  lemma FirstFlat(symbol: string, asset: string, time: int)
    requires time >= EmptyAsset.latestUpdate && Consistent(EmptyLedger)
    ensures Published(EmptyLedger, symbol, Flat, StartAccount(asset, time), true) == FlatLedger(symbol, asset, time, time)
  {
    assert PositionMargin(Flat) == 0.0;
  }

  lemma FlatAgain(symbol: string, asset: string, time: int, before: int)
    requires time <= before
    ensures Consistent(FlatLedger(symbol, asset, before, before))
    ensures Published(FlatLedger(symbol, asset, before, before), symbol, Flat, StartAccount(asset, time), true)
         == FlatLedger(symbol, asset, time, before)
  {
    assert PositionMargin(Flat) == 0.0;
  }

  lemma AfterOne(op: Op)
    ensures Consistent(EmptyLedger) && After([op]) == Apply(EmptyLedger, op)
  {
    assert [op][..0] == [];
  }

  lemma AfterPut(ops: seq<Op>, op: Op)
    ensures Consistent(After(ops)) && After(ops + [op]) == Apply(After(ops), op)
  {
    assert (ops + [op])[..|ops|] == ops;
  }

  lemma AfterFlat(symbol: string, asset: string, time: int)
    requires time >= 0
    ensures After([TakeOver(symbol, Flat, StartAccount(asset, time))]) == FlatLedger(symbol, asset, time, time)
  {
    AfterOne(TakeOver(symbol, Flat, StartAccount(asset, time)));
    FirstFlat(symbol, asset, time);
  }

  lemma AfterFlatAgain(symbol: string, asset: string, time: int, before: int)
    requires 0 <= time <= before
    ensures After([TakeOver(symbol, Flat, StartAccount(asset, before)), TakeOver(symbol, Flat, StartAccount(asset, time))])
         == FlatLedger(symbol, asset, time, before)
  {
    AfterFlat(symbol, asset, before);
    AfterPut([TakeOver(symbol, Flat, StartAccount(asset, before))], TakeOver(symbol, Flat, StartAccount(asset, time)));
    FlatAgain(symbol, asset, time, before);
  }

  /** With nothing open, the update time does depend on the past: a later publication that was replaced still shows. */
  lemma IdleTimeRemembersReplacedPublications(asset: string, symbol: string)
    ensures var early, late := TakeOver(symbol, Flat, StartAccount(asset, 5)), TakeOver(symbol, Flat, StartAccount(asset, 10));
      var once, twice := After([early]), After([late, early]);
      && once.symbols == twice.symbols
      && asset in once.assets && AccountOf(once.assets[asset], asset).updateTime == 5
      && asset in twice.assets && AccountOf(twice.assets[asset], asset).updateTime == 10
  {
    AfterFlat(symbol, asset, 5);
    AfterFlatAgain(symbol, asset, 5, 10);
  }

  // ---------------------------------------------------------------- the ledger, updated in place

  class PaperBook {
    var symbols: map<string, Contribution>
    var assets: map<string, AssetLedger>
    var unresolved: map<string, set<string>>

    function Value(): Ledger
      reads this
    {
      Ledger(symbols, assets, unresolved)
    }

    ghost predicate Valid()
      reads this
    {
      LedgerOk(Value()) && Consistent(Value())
    }

    constructor ()
      ensures Valid() && Value() == EmptyLedger
    {
      symbols, assets, unresolved := map[], map[], map[];
    }

    method Publish(symbol: string, p: PositionInfo, a: AccountInfo, committed: bool)
      requires Valid()
      modifies this`symbols, this`assets
      ensures Valid() && Value() == Published(old(Value()), symbol, p, a, committed)
      ensures IsPublished(old(Value()), Value(), symbol, p, a, committed)
    {
      PublicationMeans(Value(), symbol, p, a, committed);
      PublishedKeeps(Value(), symbol, p, a, committed);
      LedgerIsConsistent(Published(Value(), symbol, p, a, committed));
      PublishOn(symbol, p, a, committed);
    }

    method PublishOn(symbol: string, p: PositionInfo, a: AccountInfo, committed: bool)
      requires Consistent(Value())
      modifies this`symbols, this`assets
      ensures Value() == Published(old(Value()), symbol, p, a, committed)
    {
      ghost var was := Value();
      if symbol in symbols {
        var previous := symbols[symbol];
        if !committed && !AcceptsValuation(previous, p, a) {
          return;
        }
        assets := assets[previous.asset := Removed(assets[previous.asset], previous)];
        var next := Refreshed(previous.(asset := a.asset), p, a, committed);
        assets := assets[a.asset := Added(AssetIn(assets, a.asset), next)];
        symbols := symbols[symbol := next];
        assert (was.symbols - {symbol})[symbol := next] == symbols;
      } else {
        var c := NewContribution(p, a, committed);
        assets := assets[a.asset := Added(AssetIn(assets, a.asset), c)];
        symbols := symbols[symbol := c];
      }
    }

    method RecordLegacy(symbol: string)
      requires Valid()
      modifies this`unresolved
      ensures Valid() && Value() == LegacyRecorded(old(Value()), symbol)
      ensures IsMarked(old(Value()), Value(), symbol)
    {
      LegacyMeans(Value(), symbol);
      LegacyKeeps(Value(), symbol);
      if symbol in symbols {
        return;
      }
      var asset := QuoteAsset(symbol);
      var group := {};
      if asset in unresolved {
        group := unresolved[asset];
      }
      unresolved := unresolved[asset := group + {symbol}];
    }

    method Commit(symbol: string, p: PositionInfo, a: AccountInfo)
      requires Valid()
      modifies this
      ensures Valid() && Value() == Committed(old(Value()), symbol, p, a)
      ensures IsCommitted(old(Value()), Value(), symbol, p, a)
    {
      CommitMeans(Value(), symbol, p, a);
      var asset := QuoteAsset(symbol);
      SetsKeep(Value(), Resolved(unresolved, asset, symbol));
      if asset in unresolved {
        if unresolved[asset] - {symbol} == {} {
          unresolved := unresolved - {asset};
        } else {
          unresolved := unresolved[asset := unresolved[asset] - {symbol}];
        }
      }
      assert Value() == old(Value()).(unresolved := Resolved(old(unresolved), asset, symbol));
      Publish(symbol, p, a, true);
    }

    method SharedWallet(symbol: string, p: PositionInfo, a: AccountInfo) returns (result: SharedResult)
      requires Valid()
      modifies this`symbols, this`assets
      ensures Valid() && (result, Value()) == Shared(old(Value()), symbol, p, a)
      ensures IsShared(old(Value()), Value(), symbol, p, a, result)
    {
      SharedMeans(Value(), symbol, p, a);
      if a.asset == "" {
        return MissingAsset;
      }
      if a.asset in unresolved {
        return LegacyUnresolved;
      }
      Publish(symbol, p, a, false);
      if a.asset !in assets {
        return NoLedger;
      }
      result := Wallet(AccountOf(assets[a.asset], a.asset));
    }
  }
}
