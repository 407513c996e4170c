/**
 Revision counters of the trade history. Clearing everything empties the per-symbol map and raises one
 common floor, yet two readings of a symbol's revision still tell whether anything touched it in between.
 */
module Revisions {

  datatype Event = Publish(symbol: string) | ClearAll

  datatype Revisions = Revisions(revision: nat, cleared: nat, symbols: map<string, nat>)

  const NoRevisions: Revisions := Revisions(0, 0, map[])

  function ForSymbol(r: Revisions, symbol: string): nat {
    if symbol in r.symbols then r.symbols[symbol] else r.cleared
  }

  function Applied(r: Revisions, event: Event): Revisions {
    match event
    case Publish(symbol) => Revisions(r.revision + 1, r.cleared, r.symbols[symbol := r.revision + 1])
    case ClearAll => Revisions(r.revision + 1, r.revision + 1, map[])
  }

  /** The tracker after a log of events. */
  function Replay(events: seq<Event>): Revisions {
    if events == [] then NoRevisions else Applied(Replay(events[..|events| - 1]), events[|events| - 1])
  }

  predicate Touches(event: Event, symbol: string) {
    event.ClearAll? || event.symbol == symbol
  }

  ghost predicate Bounded(r: Revisions) {
    r.cleared <= r.revision && forall symbol | symbol in r.symbols :: r.cleared <= r.symbols[symbol] <= r.revision
  }

  /** An event raises the revision of the symbols it touches and leaves the others alone. */
  lemma EventRaises(r: Revisions, event: Event, symbol: string)
    requires Bounded(r)
    ensures Bounded(Applied(r, event))
    ensures if Touches(event, symbol) then ForSymbol(r, symbol) < ForSymbol(Applied(r, event), symbol)
            else ForSymbol(r, symbol) == ForSymbol(Applied(r, event), symbol)
  {
  }

  /** The revision of a symbol is the number of the last event that touched it, and 0 if none did. */
  ghost predicate IsLastTouch(events: seq<Event>, symbol: string, revision: nat) {
    && revision <= |events|
    && (revision > 0 ==> Touches(events[revision - 1], symbol))
    && (forall i | revision <= i < |events| :: !Touches(events[i], symbol))
  }

  lemma {:induction false} ReplayFindsLastTouch(events: seq<Event>, symbol: string)
    ensures IsLastTouch(events, symbol, ForSymbol(Replay(events), symbol))
    ensures Replay(events).revision == |events|
  {
    if events != [] {
      ReplayFindsLastTouch(events[..|events| - 1], symbol);
    }
  }

  /** Two readings agree exactly when nothing touched the symbol between them. */
  lemma ReadingsAgreeIffUntouched(before: seq<Event>, later: seq<Event>, symbol: string)
    ensures ForSymbol(Replay(before), symbol) <= ForSymbol(Replay(before + later), symbol)
    ensures ForSymbol(Replay(before), symbol) == ForSymbol(Replay(before + later), symbol)
        <==> forall e | e in later :: !Touches(e, symbol)
  {
    var all := before + later;
    ReplayFindsLastTouch(before, symbol);
    ReplayFindsLastTouch(all, symbol);
    var first, second := ForSymbol(Replay(before), symbol), ForSymbol(Replay(all), symbol);
    if second > |before| {
      assert later[second - 1 - |before|] == all[second - 1];
    } else {
      assert forall i | 0 <= i < |later| :: later[i] == all[|before| + i];
    }
    if first > 0 {
      assert all[first - 1] == before[first - 1];
    }
  }

  class RevisionTracker {
    var revision: nat
    var cleared: nat
    var symbols: map<string, nat>
    ghost var log: seq<Event>

    function Value(): Revisions
      reads this
    {
      Revisions(revision, cleared, symbols)
    }

    ghost predicate Valid()
      reads this
    {
      Value() == Replay(log)
    }

    constructor ()
      ensures Valid() && log == [] && Value() == NoRevisions
    {
      revision, cleared, symbols, log := 0, 0, map[], [];
    }

    method Current() returns (r: nat)
      requires Valid()
      ensures r == |log|
    {
      ReplayFindsLastTouch(log, "");
      r := revision;
    }

    method SymbolRevision(symbol: string) returns (r: nat)
      requires Valid()
      ensures IsLastTouch(log, symbol, r) && r == ForSymbol(Value(), symbol)
    {
      ReplayFindsLastTouch(log, symbol);
      r := if symbol in symbols then symbols[symbol] else cleared;
    }

    method Publish(symbol: string)
      requires Valid()
      modifies this
      ensures Valid() && log == old(log) + [Event.Publish(symbol)] && Value() == Applied(old(Value()), Event.Publish(symbol))
    {
      revision := revision + 1;
      symbols := symbols[symbol := revision];
      log := log + [Event.Publish(symbol)];
      assert log[..|log| - 1] == old(log);
    }

    method ClearAll()
      requires Valid()
      modifies this
      ensures Valid() && log == old(log) + [Event.ClearAll] && Value() == Applied(old(Value()), Event.ClearAll)
    {
      revision := revision + 1;
      cleared := revision;
      symbols := map[];
      log := log + [Event.ClearAll];
      assert log[..|log| - 1] == old(log);
    }
  }
}
