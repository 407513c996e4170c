/**
 The saved paper accounts and the process-local ledger that caches them: trades, resets and restarts on one
 side, valuations on the other. The ledger is built from the saved rows on first use.
 */
module PaperStore {
  import opened Basics
  import opened PaperLedger
  import Trades

  datatype Saved = Saved(position: PositionInfo, account: AccountInfo)

  /** `legacy` holds the symbols with paper history of any kind; the cache is absent until it is first needed. */
  datatype Store = Store(accounts: map<string, Saved>, legacy: set<string>, cache: Option<Ledger>)

  datatype Step =
    | InsertTrade(symbol: string, mode: Trades.Mode, inserted: bool)
    | InsertWithState(symbol: string, mode: Trades.Mode, inserted: bool, state: Option<Saved>)
    | InitializeLegacy(symbol: string, now: int)
    | Share(symbol: string, position: PositionInfo, account: AccountInfo, loaded: Ledger)
    | Restart

  predicate OfPaper(mode: Trades.Mode) {
    mode.Paper? || mode.Unknown?
  }

  // ---------------------------------------------------------------- loading

  predicate MissingAssetIn(accounts: map<string, Saved>) {
    exists s :: s in accounts && accounts[s].account.asset == ""
  }

  /** The ledger has exactly the saved accounts as committed contributions. */
  ghost predicate LoadedAccounts(accounts: map<string, Saved>, l: Ledger) {
    && l.symbols.Keys == accounts.Keys
    && forall s | s in accounts :: l.symbols[s] == NewContribution(accounts[s].position, accounts[s].account, true)
  }

  /** A legacy symbol without a saved account blocks the wallet of its quote asset. */
  ghost predicate LegacyKnown(legacy: set<string>, l: Ledger) {
    forall s | s in legacy :: s in l.symbols || s in Unresolved(l, QuoteAsset(s))
  }

  /** What loading may give, in any order of the rows. */
  ghost predicate IsLoaded(accounts: map<string, Saved>, legacy: set<string>, l: Ledger) {
    LedgerOk(l) && LoadedAccounts(accounts, l) && LegacyKnown(legacy, l) && LegacyOnly(accounts, legacy, l.unresolved)
  }

  ghost predicate LoadedPart(accounts: map<string, Saved>, done: set<string>, symbols: map<string, Contribution>) {
    && done <= accounts.Keys && symbols.Keys == done
    && forall s | s in done ::
         && accounts[s].account.asset != ""
         && symbols[s] == NewContribution(accounts[s].position, accounts[s].account, true)
  }

  lemma LoadedStep(accounts: map<string, Saved>, done: set<string>, l: Ledger, s: string)
    requires Consistent(l) && LoadedPart(accounts, done, l.symbols)
    requires s in accounts && s !in done && accounts[s].account.asset != ""
    ensures var l' := Published(l, s, accounts[s].position, accounts[s].account, true);
      LoadedPart(accounts, done + {s}, l'.symbols) && l'.unresolved == l.unresolved
  {
  }

  /** Loading one more row enters one more contribution. */
  method LoadRow(book: PaperBook, accounts: map<string, Saved>, ghost done: set<string>, s: string)
    requires book.Valid() && LoadedPart(accounts, done, book.symbols)
    requires s in accounts && s !in done && accounts[s].account.asset != ""
    modifies book
    ensures book.Valid() && LoadedPart(accounts, done + {s}, book.symbols) && book.unresolved == old(book.unresolved)
  {
    LoadedStep(accounts, done, book.Value(), s);
    book.Publish(s, accounts[s].position, accounts[s].account, true);
  }

  method LoadAccounts(accounts: map<string, Saved>) returns (book: PaperBook, ok: bool)
    ensures fresh(book) && book.Valid() && book.unresolved == map[]
    ensures ok == !MissingAssetIn(accounts)
    ensures ok ==> LoadedAccounts(accounts, book.Value())
  {
    book := new PaperBook();
    var rest := accounts.Keys;
    while rest != {}
      invariant fresh(book) && book.Valid() && rest <= accounts.Keys && book.unresolved == map[]
      invariant LoadedPart(accounts, accounts.Keys - rest, book.symbols)
    {
      var s :| s in rest;
      if accounts[s].account.asset == "" {
        return book, false;
      }
      OneLess(accounts.Keys, rest, s);
      LoadRow(book, accounts, accounts.Keys - rest, s);
      rest := rest - {s};
    }
    AllLoaded(accounts, rest, book.Value());
    ok := true;
  }

  lemma OneLess(all: set<string>, rest: set<string>, s: string)
    requires s in rest && rest <= all
    ensures all - rest + {s} == all - (rest - {s}) && s !in all - rest
  {
  }

  lemma AllLoaded(accounts: map<string, Saved>, rest: set<string>, l: Ledger)
    requires rest == {} && LoadedPart(accounts, accounts.Keys - rest, l.symbols)
    ensures LoadedAccounts(accounts, l) && !MissingAssetIn(accounts)
  {
    assert accounts.Keys - rest == accounts.Keys;
  }

  ghost predicate LegacyOnly(accounts: map<string, Saved>, legacy: set<string>, unresolved: map<string, set<string>>) {
    forall asset, s | asset in unresolved && s in unresolved[asset] :: s in legacy && s !in accounts && asset == QuoteAsset(s)
  }

  lemma LegacyStep(accounts: map<string, Saved>, legacy: set<string>, done: set<string>, l: Ledger, s: string)
    requires l.symbols.Keys == accounts.Keys && s in legacy
    requires LegacyKnown(done, l) && LegacyOnly(accounts, legacy, l.unresolved)
    ensures LegacyKnown(done + {s}, LegacyRecorded(l, s)) && LegacyOnly(accounts, legacy, LegacyRecorded(l, s).unresolved)
  {
  }

  method LoadLegacy(book: PaperBook, accounts: map<string, Saved>, legacy: set<string>)
    requires book.Valid() && LoadedAccounts(accounts, book.Value()) && book.unresolved == map[]
    modifies book`unresolved
    ensures book.Valid() && LegacyKnown(legacy, book.Value()) && LegacyOnly(accounts, legacy, book.unresolved)
  {
    var left := legacy;
    while left != {}
      invariant book.Valid() && left <= legacy
      invariant LegacyKnown(legacy - left, book.Value())
      invariant LegacyOnly(accounts, legacy, book.unresolved)
    {
      var s :| s in left;
      LegacyStep(accounts, legacy, legacy - left, book.Value(), s);
      assert legacy - left + {s} == legacy - (left - {s});
      book.RecordLegacy(s);
      left := left - {s};
    }
    assert legacy - left == legacy;
  }

  /** The saved accounts first, then the symbols that only have history. */
  method Load(accounts: map<string, Saved>, legacy: set<string>) returns (book: PaperBook, ok: bool)
    ensures fresh(book) && book.Valid()
    ensures ok == !MissingAssetIn(accounts)
    ensures ok ==> IsLoaded(accounts, legacy, book.Value())
  {
    book, ok := LoadAccounts(accounts);
    if ok {
      LoadLegacy(book, accounts, legacy);
    }
  }

  // ---------------------------------------------------------------- steps

  function CacheAfter(cache: Option<Ledger>, symbol: string, state: Option<Saved>): Option<Ledger>
    requires cache.Some? ==> Consistent(cache.value)
  {
    if cache.None? then None
    else if state.Some? then Some(Committed(cache.value, symbol, state.value.position, state.value.account))
    else Some(LegacyRecorded(cache.value, symbol))
  }

  /** A trade that was inserted, with or without the account it leads to, reaches the row and the cache together. */
  function Recorded(s: Store, symbol: string, mode: Trades.Mode, state: Option<Saved>): Store
    requires s.cache.Some? ==> Consistent(s.cache.value)
  {
    if !OfPaper(mode) then s
    else Store(
      if state.Some? then s.accounts[symbol := state.value] else s.accounts,
      s.legacy + {symbol}, CacheAfter(s.cache, symbol, state))
  }

  function InitialState(symbol: string, now: int): Saved {
    Saved(PositionInfo(0.0, 0.0, 0.0, 0.0, 0, None),
          AccountInfo(QuoteAsset(symbol), PAPER_INITIAL_BALANCE, PAPER_INITIAL_BALANCE, PAPER_INITIAL_BALANCE, 0.0, now))
  }

  /** A symbol with history but no account starts from the initial balance. */
  function Initialized(s: Store, symbol: string, now: int): Store
    requires s.cache.Some? ==> Consistent(s.cache.value)
  {
    if symbol in s.accounts || symbol !in s.legacy then s
    else
      var state := InitialState(symbol, now);
      s.(accounts := s.accounts[symbol := state], cache := CacheAfter(s.cache, symbol, Some(state)))
  }

  /** The cache that a valuation works on: the one in place, or the one it loads. */
  function Opened(s: Store, loaded: Ledger): Ledger {
    if s.cache.Some? then s.cache.value else loaded
  }

  ghost predicate Enabled(s: Store, step: Step) {
    && (s.cache.Some? ==> Consistent(s.cache.value))
    && (step.Share? && s.cache.None? && !MissingAssetIn(s.accounts) ==>
          IsLoaded(s.accounts, s.legacy, step.loaded) && Consistent(step.loaded))
  }

  function Apply(s: Store, step: Step): Store
    requires Enabled(s, step)
  {
    match step
    case InsertTrade(symbol, mode, inserted) => if inserted then Recorded(s, symbol, mode, None) else s
    case InsertWithState(symbol, mode, inserted, state) =>
      if (state.Some? && !mode.Paper?) || !inserted then s else Recorded(s, symbol, mode, state)
    case InitializeLegacy(symbol, now) => Initialized(s, symbol, now)
    case Share(symbol, position, account, loaded) =>
      if s.cache.None? && MissingAssetIn(s.accounts) then s
      else s.(cache := Some(Shared(Opened(s, loaded), symbol, position, account).1))
    case Restart => s.(cache := None)
  }

  // ---------------------------------------------------------------- agreement

  /** Every saved account is a committed contribution with the saved wallet and holdings. */
  ghost predicate AccountsAgree(accounts: map<string, Saved>, l: Ledger) {
    forall s | s in accounts ::
      s in l.symbols && l.symbols[s].committed && Agrees(l.symbols[s], accounts[s].position, accounts[s].account)
  }

  ghost predicate CacheOk(accounts: map<string, Saved>, legacy: set<string>, l: Ledger) {
    LedgerOk(l) && Consistent(l) && AccountsAgree(accounts, l) && LegacyKnown(legacy, l)
  }

  ghost predicate Inv(s: Store) {
    s.cache.Some? ==> CacheOk(s.accounts, s.legacy, s.cache.value)
  }

  lemma LoadedIsOk(accounts: map<string, Saved>, legacy: set<string>, l: Ledger)
    requires IsLoaded(accounts, legacy, l)
    ensures CacheOk(accounts, legacy, l)
  {
    LedgerIsConsistent(l);
  }

  lemma CommitAgrees(accounts: map<string, Saved>, legacy: set<string>, l: Ledger, symbol: string, state: Saved)
    requires Consistent(l) && AccountsAgree(accounts, l) && LegacyKnown(legacy, l)
    ensures AccountsAgree(accounts[symbol := state], Committed(l, symbol, state.position, state.account))
    ensures LegacyKnown(legacy + {symbol}, Committed(l, symbol, state.position, state.account))
  {
    PublishedSymbols(l.(unresolved := Resolved(l.unresolved, QuoteAsset(symbol), symbol)), symbol, state.position, state.account, true);
  }

  /** A committed state replaces row and contribution together. */
  lemma CommitKeeps(accounts: map<string, Saved>, legacy: set<string>, l: Ledger, symbol: string, state: Saved)
    requires CacheOk(accounts, legacy, l)
    ensures CacheOk(accounts[symbol := state], legacy + {symbol}, Committed(l, symbol, state.position, state.account))
  {
    CommitAgrees(accounts, legacy, l, symbol, state);
    CommittedKeeps(l, symbol, state.position, state.account);
    LedgerIsConsistent(Committed(l, symbol, state.position, state.account));
  }

  lemma LegacyRecordKeeps(accounts: map<string, Saved>, legacy: set<string>, l: Ledger, symbol: string)
    requires CacheOk(accounts, legacy, l)
    ensures CacheOk(accounts, legacy + {symbol}, LegacyRecorded(l, symbol))
  {
    LegacyKeeps(l, symbol);
    LedgerIsConsistent(LegacyRecorded(l, symbol));
  }

  lemma ValuationAgrees(accounts: map<string, Saved>, legacy: set<string>, l: Ledger, symbol: string, p: PositionInfo, a: AccountInfo)
    requires Consistent(l) && AccountsAgree(accounts, l) && LegacyKnown(legacy, l)
    ensures AccountsAgree(accounts, Shared(l, symbol, p, a).1) && LegacyKnown(legacy, Shared(l, symbol, p, a).1)
  {
    PublishedSymbols(l, symbol, p, a, false);
  }

  /** A valuation, however stale, cannot move a saved wallet or its holdings. */
  lemma ValuationKeeps(accounts: map<string, Saved>, legacy: set<string>, l: Ledger, symbol: string, p: PositionInfo, a: AccountInfo)
    requires CacheOk(accounts, legacy, l)
    ensures CacheOk(accounts, legacy, Shared(l, symbol, p, a).1)
  {
    ValuationAgrees(accounts, legacy, l, symbol, p, a);
    SharedKeeps(l, symbol, p, a);
    LedgerIsConsistent(Shared(l, symbol, p, a).1);
  }

  lemma RecordedKeeps(s: Store, symbol: string, mode: Trades.Mode, state: Option<Saved>)
    requires Inv(s)
    ensures Inv(Recorded(s, symbol, mode, state))
  {
    if s.cache.Some? && OfPaper(mode) {
      if state.Some? {
        CommitKeeps(s.accounts, s.legacy, s.cache.value, symbol, state.value);
      } else {
        LegacyRecordKeeps(s.accounts, s.legacy, s.cache.value, symbol);
      }
    }
  }

  lemma InitializeKeeps(s: Store, symbol: string, now: int)
    requires Inv(s)
    ensures Inv(Initialized(s, symbol, now))
  {
    if s.cache.Some? && symbol !in s.accounts && symbol in s.legacy {
      CommitKeeps(s.accounts, s.legacy, s.cache.value, symbol, InitialState(symbol, now));
      assert s.legacy + {symbol} == s.legacy;
    }
  }

  lemma ShareKeeps(s: Store, symbol: string, p: PositionInfo, a: AccountInfo, loaded: Ledger)
    requires Inv(s) && Enabled(s, Step.Share(symbol, p, a, loaded))
    ensures Inv(Apply(s, Step.Share(symbol, p, a, loaded)))
  {
    if s.cache.Some? || !MissingAssetIn(s.accounts) {
      if s.cache.None? {
        LoadedIsOk(s.accounts, s.legacy, loaded);
      }
      ValuationKeeps(s.accounts, s.legacy, Opened(s, loaded), symbol, p, a);
    }
  }

  lemma StepKeeps(s: Store, step: Step)
    requires Inv(s) && Enabled(s, step)
    ensures Inv(Apply(s, step))
  {
    match step
    case InsertTrade(symbol, mode, _) => RecordedKeeps(s, symbol, mode, None);
    case InsertWithState(symbol, mode, _, state) => RecordedKeeps(s, symbol, mode, state);
    case InitializeLegacy(symbol, now) => InitializeKeeps(s, symbol, now);
    case Share(symbol, position, account, loaded) => ShareKeeps(s, symbol, position, account, loaded);
    case Restart =>
  }

  ghost predicate Runs(s: Store, steps: seq<Step>)
    decreases |steps|
  {
    steps != [] ==> Enabled(s, steps[0]) && Runs(Apply(s, steps[0]), steps[1..])
  }

  ghost function After(s: Store, steps: seq<Step>): Store
    requires Runs(s, steps)
    decreases |steps|
  {
    if steps == [] then s else After(Apply(s, steps[0]), steps[1..])
  }

  lemma {:induction false} RunKeeps(s: Store, steps: seq<Step>)
    requires Inv(s) && Runs(s, steps)
    ensures Inv(After(s, steps))
    decreases |steps|
  {
    if steps != [] {
      StepKeeps(s, steps[0]);
      RunKeeps(Apply(s, steps[0]), steps[1..]);
    }
  }

  /**
   From any saved rows, over any run of trades, valuations, resets and restarts, the cache agrees with the
   rows whenever it exists: every saved account is counted with its saved wallet, size and entry price.
   */
  lemma CacheAgreesWithRows(accounts: map<string, Saved>, legacy: set<string>, steps: seq<Step>, symbol: string)
    requires Runs(Store(accounts, legacy, None), steps)
    requires var s := After(Store(accounts, legacy, None), steps); symbol in s.accounts && s.cache.Some?
    ensures var s := After(Store(accounts, legacy, None), steps);
      && symbol in s.cache.value.symbols
      && Agrees(s.cache.value.symbols[symbol], s.accounts[symbol].position, s.accounts[symbol].account)
  {
    RunKeeps(Store(accounts, legacy, None), steps);
  }

  /** A wallet is only shown once every symbol with paper history in its quote asset has a contribution. */
  lemma WalletIsComplete(s: Store, symbol: string, p: PositionInfo, a: AccountInfo, other: string)
    requires Inv(s) && s.cache.Some? && Shared(s.cache.value, symbol, p, a).0.Wallet?
    requires other in s.legacy && QuoteAsset(other) == a.asset
    ensures other in s.cache.value.symbols
  {
  }

  // ---------------------------------------------------------------- what the rows hold

  /** No position, and the initial balance in the symbol's quote asset. */
  ghost predicate IsStart(state: Saved, symbol: string, now: int) {
    && state.position.size == 0.0 && state.position.entryPrice == 0.0 && state.position.unrealizedPnl == 0.0
    && state.account.asset == QuoteAsset(symbol) && state.account.updateTime == now && state.account.unrealizedProfit == 0.0
    && state.account.totalWalletBalance == state.account.availableBalance == state.account.marginBalance == 10000.0
  }

  /** The step saves the account for the symbol. */
  ghost predicate Saves(s: Store, step: Step, symbol: string, state: Saved) {
    || (step.InsertWithState? && step.symbol == symbol && step.inserted && step.mode.Paper? && step.state == Some(state))
    || (step.InitializeLegacy? && step.symbol == symbol && symbol in s.legacy && symbol !in s.accounts && IsStart(state, symbol, step.now))
  }

  ghost predicate SavesAny(s: Store, step: Step, symbol: string) {
    exists state :: Saves(s, step, symbol, state)
  }

  /** The step inserts a trade of the symbol into its paper history; a trade of unknown mode counts as one. */
  predicate Files(step: Step, symbol: string) {
    || (step.InsertTrade? && step.symbol == symbol && step.inserted && !step.mode.Live?)
    || (step.InsertWithState? && step.symbol == symbol && step.inserted && (step.mode.Paper? || (step.state.None? && step.mode.Unknown?)))
  }

  /** What one step does to a symbol's row, to its history and to its part of the cache. */
  lemma StepSaves(s: Store, step: Step, symbol: string)
    requires Enabled(s, step)
    ensures var t := Apply(s, step);
      && (if SavesAny(s, step, symbol) then symbol in t.accounts && Saves(s, step, symbol, t.accounts[symbol])
          else (symbol in t.accounts <==> symbol in s.accounts) && (symbol in s.accounts ==> t.accounts[symbol] == s.accounts[symbol]))
      && (symbol in t.legacy <==> symbol in s.legacy || Files(step, symbol))
      && (t.cache.Some? <==> !step.Restart? && (s.cache.Some? || (step.Share? && !MissingAssetIn(s.accounts))))
  {
    if step.InitializeLegacy? && step.symbol == symbol && symbol in s.legacy && symbol !in s.accounts {
      assert Saves(s, step, symbol, InitialState(symbol, step.now));
    }
    if step.InsertWithState? && step.state.Some? {
      assert step.symbol == symbol && step.inserted && step.mode.Paper? ==> Saves(s, step, symbol, step.state.value);
    }
  }

  /** An account that is saved is counted at once: in an existing cache its contribution shows it, committed. */
  lemma SavedIsShown(s: Store, step: Step, symbol: string)
    requires Inv(s) && Enabled(s, step) && SavesAny(s, step, symbol) && s.cache.Some?
    ensures var t := Apply(s, step);
      && symbol in t.accounts && t.cache.Some?
      && IsCommitted(s.cache.value, t.cache.value, symbol, t.accounts[symbol].position, t.accounts[symbol].account)
  {
    StepSaves(s, step, symbol);
    var state := Apply(s, step).accounts[symbol];
    CommitMeans(s.cache.value, symbol, state.position, state.account);
  }

  /** Some step of the run saves an account for the symbol. */
  ghost predicate SavedAlong(s: Store, steps: seq<Step>, symbol: string)
    requires Runs(s, steps)
    decreases |steps|
  {
    steps != [] && (SavesAny(s, steps[0], symbol) || SavedAlong(Apply(s, steps[0]), steps[1..], symbol))
  }

  lemma {:induction false} UnsavedStays(s: Store, steps: seq<Step>, symbol: string)
    requires Runs(s, steps) && !SavedAlong(s, steps, symbol)
    ensures symbol in After(s, steps).accounts <==> symbol in s.accounts
    ensures symbol in s.accounts ==> After(s, steps).accounts[symbol] == s.accounts[symbol]
    decreases |steps|
  {
    if steps != [] {
      StepSaves(s, steps[0], symbol);
      UnsavedStays(Apply(s, steps[0]), steps[1..], symbol);
    }
  }

  /** The account saved last for a symbol stands, through valuations and restarts, until another is saved for it. */
  lemma LastSavedStands(s: Store, step: Step, later: seq<Step>, symbol: string)
    requires Enabled(s, step) && Runs(Apply(s, step), later)
    requires SavesAny(s, step, symbol) && !SavedAlong(Apply(s, step), later, symbol)
    ensures symbol in After(Apply(s, step), later).accounts
    ensures Saves(s, step, symbol, After(Apply(s, step), later).accounts[symbol])
  {
    StepSaves(s, step, symbol);
    UnsavedStays(Apply(s, step), later, symbol);
  }

  /** A symbol has paper history exactly when it began with some or a paper trade of it has been inserted since. */
  lemma {:induction false} HistoryIsFiled(s: Store, steps: seq<Step>, symbol: string)
    requires Runs(s, steps)
    ensures symbol in After(s, steps).legacy <==> symbol in s.legacy || exists k :: 0 <= k < |steps| && Files(steps[k], symbol)
    decreases |steps|
  {
    if steps != [] {
      StepSaves(s, steps[0], symbol);
      HistoryIsFiled(Apply(s, steps[0]), steps[1..], symbol);
      assert forall k | 0 <= k < |steps| - 1 :: steps[1..][k] == steps[k + 1];
    }
  }

  // ---------------------------------------------------------------- the database's part, updated in place

  class PaperDatabase {
    var accounts: map<string, Saved>
    var legacy: set<string>
    var book: PaperBook?

    ghost function Value(): Store
      reads this, book
    {
      Store(accounts, legacy, if book == null then None else Some(book.Value()))
    }

    ghost predicate Valid()
      reads this, book
    {
      Inv(Value())
    }

    constructor (accounts: map<string, Saved>, legacy: set<string>)
      ensures Valid() && Value() == Store(accounts, legacy, None)
    {
      this.accounts, this.legacy, book := accounts, legacy, null;
    }

    /** Row and contribution change under one lock. */
    method Record(symbol: string, mode: Trades.Mode, state: Option<Saved>)
      requires Valid()
      modifies this, book
      ensures Valid() && book == old(book) && Value() == Recorded(old(Value()), symbol, mode, state)
    {
      RecordedKeeps(Value(), symbol, mode, state);
      if OfPaper(mode) {
        if state.Some? {
          accounts := accounts[symbol := state.value];
        }
        legacy := legacy + {symbol};
        if book != null {
          if state.Some? {
            book.Commit(symbol, state.value.position, state.value.account);
          } else {
            book.RecordLegacy(symbol);
          }
        }
      }
    }

    /** Refused for a symbol that has an account or no history; otherwise row and contribution start together. */
    method InitializeLegacy(symbol: string, now: int) returns (ok: bool)
      requires Valid()
      modifies this`accounts, book
      ensures Valid() && book == old(book) && Value() == Initialized(old(Value()), symbol, now)
      ensures ok <==> symbol !in old(accounts) && symbol in legacy
      ensures if ok then symbol in accounts && IsStart(accounts[symbol], symbol, now) else Value() == old(Value())
    {
      InitializeKeeps(Value(), symbol, now);
      if symbol in accounts || symbol !in legacy {
        return false;
      }
      var state := InitialState(symbol, now);
      accounts := accounts[symbol := state];
      if book != null {
        book.Commit(symbol, state.position, state.account);
      }
      ok := true;
    }

    /** Shows the wallet of a symbol's asset, loading the ledger first if there is none. */
    method SharedPaperAccount(symbol: string, p: PositionInfo, a: AccountInfo) returns (result: SharedResult, loaded: bool)
      requires Valid()
      modifies this`book, book
      ensures Valid() && accounts == old(accounts) && legacy == old(legacy)
      ensures loaded == (old(book) != null || !MissingAssetIn(accounts))
      ensures !loaded ==> Value() == old(Value()) && result == MissingAsset
      ensures loaded && old(book) != null ==>
        (result, Value().cache) == (Shared(old(Value()).cache.value, symbol, p, a).0, Some(Shared(old(Value()).cache.value, symbol, p, a).1))
      ensures loaded && old(book) == null ==>
        exists l :: IsLoaded(accounts, legacy, l) && Consistent(l)
          && (result, Value().cache) == (Shared(l, symbol, p, a).0, Some(Shared(l, symbol, p, a).1))
    {
      if book == null {
        var built, ok := Load(accounts, legacy);
        if !ok {
          return MissingAsset, false;
        }
        book := built;
        LoadedIsOk(accounts, legacy, book.Value());
      }
      ValuationKeeps(accounts, legacy, book.Value(), symbol, p, a);
      result := book.SharedWallet(symbol, p, a);
      loaded := true;
    }
  }
}
