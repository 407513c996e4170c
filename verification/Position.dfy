/** Position arithmetic: adding to, reducing, closing and flipping a position by fills, over exact numbers. */
module Position {
  import opened Basics

  datatype Fill = Fill(side: Side, price: real, qty: real)

  datatype Position = Position(size: real, entry: real)

  /** A position with the profit realised so far. */
  datatype Book = Book(position: Position, realized: real)

  const Flat: Position := Position(0.0, 0.0)

  function Abs(x: real): real {
    if x < 0.0 then -x else x
  }

  function Signed(f: Fill): real {
    if f.side.Buy? then f.qty else -f.qty
  }

  /** The sign bit: a zero keeps the sign of its side. */
  predicate SignPositive(f: Fill) {
    Signed(f) > 0.0 || (Signed(f) == 0.0 && f.side.Buy?)
  }

  predicate SameDirection(size: real, f: Fill) {
    size == 0.0 || (size > 0.0) == SignPositive(f)
  }

  /** The new size and entry price, and the profit that the fill realises. */
  function ApplyFill(p: Position, f: Fill): (Position, real) {
    var size := p.size + Signed(f);
    if SameDirection(p.size, f) then
      (Position(size, if size == 0.0 then 0.0 else (p.entry * Abs(p.size) + f.price * f.qty) / Abs(size)), 0.0)
    else
      var closed := if f.qty < Abs(p.size) then f.qty else Abs(p.size);
      var direction := if p.size > 0.0 then 1.0 else -1.0;
      (Position(size, if size == 0.0 then 0.0 else if (size > 0.0) != (p.size > 0.0) then f.price else p.entry),
       (f.price - p.entry) * closed * direction)
  }

  function Booked(b: Book, f: Fill): Book {
    var (position, realized) := ApplyFill(b.position, f);
    Book(position, b.realized + realized)
  }

  function BookedAll(b: Book, fills: seq<Fill>): Book {
    if fills == [] then b else Booked(BookedAll(b, fills[..|fills| - 1]), fills[|fills| - 1])
  }

  // ---------------------------------------------------------------- conservation

  /** What a book is worth when the market is at `mark`. */
  function Worth(b: Book, mark: real): real {
    b.realized + b.position.size * (mark - b.position.entry)
  }

  /** What the fills themselves have earned at `mark`. */
  function Earned(fills: seq<Fill>, mark: real): real {
    if fills == [] then 0.0
    else Earned(fills[..|fills| - 1], mark) + Signed(fills[|fills| - 1]) * (mark - fills[|fills| - 1].price)
  }

  /** The cost of a position after an addition. */
  lemma AddedCost(p: Position, f: Fill)
    requires SameDirection(p.size, f) && p.size + Signed(f) != 0.0
    ensures ApplyFill(p, f).0.entry * Abs(p.size + Signed(f)) == p.entry * Abs(p.size) + f.price * f.qty
  {
    var cost, total := p.entry * Abs(p.size) + f.price * f.qty, Abs(p.size + Signed(f));
    assert cost / total * total == cost;
  }

  lemma CostOfAddition(size: real, entry: real, price: real, qty: real, signed: real, size': real, entry': real)
    requires size' == size + signed
    requires entry' * Abs(size') == entry * Abs(size) + price * qty
    requires (size >= 0.0 && size' >= 0.0 && signed == qty) || (size <= 0.0 && size' <= 0.0 && signed == -qty)
    ensures size' * entry' == size * entry + signed * price
  {
  }

  /** One fill changes the worth of a book, at any mark, by exactly what it earns. */
  lemma FillConserves(b: Book, f: Fill, mark: real)
    requires f.qty >= 0.0
    ensures Worth(Booked(b, f), mark) == Worth(b, mark) + Signed(f) * (mark - f.price)
  {
    var p, s := b.position, Signed(f);
    var (q, realized) := ApplyFill(p, f);
    if SameDirection(p.size, f) {
      if q.size != 0.0 {
        AddedCost(p, f);
        CostOfAddition(p.size, p.entry, f.price, f.qty, s, q.size, q.entry);
      }
    } else {
      OppositeConserves(p, f);
    }
    assert q.size * (mark - q.entry) == q.size * mark - q.size * q.entry;
    assert p.size * (mark - p.entry) == p.size * mark - p.size * p.entry;
    assert s * (mark - f.price) == s * mark - s * f.price;
    assert q.size * mark == p.size * mark + s * mark;
  }

  /** A reduction, an exact close or a flip realises what it takes off the cost. */
  lemma OppositeConserves(p: Position, f: Fill)
    requires f.qty >= 0.0 && !SameDirection(p.size, f)
    ensures var (q, realized) := ApplyFill(p, f);
      realized == q.size * q.entry - p.size * p.entry - Signed(f) * f.price
  {
    var direction := if p.size > 0.0 then 1.0 else -1.0;
    assert Signed(f) == -f.qty * direction && Abs(p.size) * direction == p.size;
    if f.qty < Abs(p.size) {
      assert (f.price - p.entry) * f.qty * direction == (f.price - p.entry) * (f.qty * direction);
    } else {
      assert (f.price - p.entry) * Abs(p.size) * direction == (f.price - p.entry) * p.size;
    }
  }

  /**
   Conservation: after any fills from flat, and at any mark, the realised profit plus the profit on the
   open position is the sum over the fills of signed quantity times the distance from the fill to the mark.
   */
  lemma {:induction false} FillsConserve(fills: seq<Fill>, mark: real)
    requires forall f | f in fills :: f.qty >= 0.0
    ensures Worth(BookedAll(Book(Flat, 0.0), fills), mark) == Earned(fills, mark)
  {
    if fills != [] {
      var init, f := fills[..|fills| - 1], fills[|fills| - 1];
      FillsConserve(init, mark);
      BookedLast(Book(Flat, 0.0), init, f, mark);
      EarnedPut(init, f, mark);
      assert fills == init + [f];
    }
  }

  lemma BookedLast(b: Book, init: seq<Fill>, f: Fill, mark: real)
    requires f.qty >= 0.0
    ensures Worth(BookedAll(b, init + [f]), mark) == Worth(BookedAll(b, init), mark) + Signed(f) * (mark - f.price)
  {
    var before := BookedAll(b, init);
    BookedPut(b, init, f);
    FillConserves(before, f, mark);
  }

  lemma BookedPut(b: Book, init: seq<Fill>, f: Fill)
    ensures BookedAll(b, init + [f]) == Booked(BookedAll(b, init), f)
  {
    assert (init + [f])[..|init|] == init;
  }

  lemma EarnedPut(init: seq<Fill>, f: Fill, mark: real)
    ensures Earned(init + [f], mark) == Earned(init, mark) + Signed(f) * (mark - f.price)
  {
    assert (init + [f])[..|init|] == init;
  }

  /** A negative quantity breaks conservation, unless it offsets the position at its own entry price. */
  lemma ConservesIff(b: Book, f: Fill, mark: real)
    requires f.price > 0.0
    ensures Worth(Booked(b, f), mark) == Worth(b, mark) + Signed(f) * (mark - f.price)
        <==> f.qty >= 0.0 || (!SameDirection(b.position.size, f) && f.price == b.position.entry)
  {
    if f.qty >= 0.0 {
      FillConserves(b, f, mark);
    } else {
      NegativeQuantity(b, f, mark);
    }
  }

  /** For instance: buying -1 at 1 from flat leaves a short with entry price -1, which is worth 2 less than the fill earns. */
  lemma NegativeQuantityLosesWorth(mark: real)
    ensures var f := Fill(Buy, 1.0, -1.0);
      var after := Booked(Book(Flat, 0.0), f);
      after.position == Position(-1.0, -1.0) && Worth(after, mark) == Signed(f) * (mark - f.price) - 2.0
  {
    var f := Fill(Buy, 1.0, -1.0);
    var after := Booked(Book(Flat, 0.0), f);
    assert after.position.entry == -1.0 / 1.0;
    assert Worth(after, mark) == -1.0 * (mark + 1.0);
  }

  /** A fill conserves worth, at any mark, exactly when the realised profit is the change of cost less the fill's own cost. */
  lemma WorthIffCost(size: real, entry: real, size': real, entry': real, before: real, realized: real, signed: real, price: real, mark: real)
    requires size' == size + signed
    ensures before + realized + size' * (mark - entry') == before + size * (mark - entry) + signed * (mark - price)
        <==> realized == size' * entry' - size * entry - signed * price
  {
    assert size' * (mark - entry') == size' * mark - size' * entry';
    assert size * (mark - entry) == size * mark - size * entry;
    assert signed * (mark - price) == signed * mark - signed * price;
    assert size' * mark == size * mark + signed * mark;
  }

  lemma NegativeQuantity(b: Book, f: Fill, mark: real)
    requires f.price > 0.0 && f.qty < 0.0
    ensures Worth(Booked(b, f), mark) == Worth(b, mark) + Signed(f) * (mark - f.price)
        <==> !SameDirection(b.position.size, f) && f.price == b.position.entry
  {
    var p := b.position;
    var (q, realized) := ApplyFill(p, f);
    WorthIffCost(p.size, p.entry, q.size, q.entry, b.realized, realized, Signed(f), f.price, mark);
    NegativeCost(p, f);
  }

  lemma NegativeCost(p: Position, f: Fill)
    requires f.price > 0.0 && f.qty < 0.0
    ensures var (q, realized) := ApplyFill(p, f);
      (realized == q.size * q.entry - p.size * p.entry - Signed(f) * f.price)
        <==> (!SameDirection(p.size, f) && f.price == p.entry)
  {
    var (q, realized) := ApplyFill(p, f);
    if SameDirection(p.size, f) {
      AddedCost(p, f);
      NegativeAddition(p.size, p.entry, f.price, f.qty, Signed(f), q.size, q.entry);
    } else {
      var direction := if p.size > 0.0 then 1.0 else -1.0;
      assert Signed(f) == f.qty * direction;
      assert (f.price - p.entry) * f.qty * direction == (f.price - p.entry) * Signed(f);
      NegativeReduction(p.size, p.entry, f.price, Signed(f), q.size, q.entry);
    }
  }

  lemma NegativeAddition(size: real, entry: real, price: real, qty: real, signed: real, size': real, entry': real)
    requires size' == size + signed && price > 0.0 && qty < 0.0
    requires entry' * Abs(size') == entry * Abs(size) + price * qty
    requires (size >= 0.0 && signed > 0.0 && signed == -qty) || (size <= 0.0 && signed < 0.0 && signed == qty)
    ensures size' * entry' != size * entry + signed * price
  {
    assert price * qty < 0.0;
    if size >= 0.0 && signed > 0.0 {
      assert signed * price == -(price * qty);
    } else {
      assert signed * price == price * qty;
    }
  }

  lemma NegativeReduction(size: real, entry: real, price: real, signed: real, size': real, entry': real)
    requires size != 0.0 && signed != 0.0 && (size > 0.0) != (signed > 0.0) && size' == size + signed
    requires entry' == if size' == 0.0 then 0.0 else if (size' > 0.0) != (size > 0.0) then price else entry
    ensures (price - entry) * signed == size' * entry' - size * entry - signed * price <==> price == entry
  {
    if size' != 0.0 && (size' > 0.0) != (size > 0.0) {
      assert size' * entry' - size * entry - signed * price == size * (price - entry);
      assert (price - entry) * signed == size * (price - entry) <==> (price - entry) * (signed - size) == 0.0;
    } else {
      assert size' * entry' == size' * entry;
      assert size' * entry - size * entry - signed * price == -((price - entry) * signed);
    }
  }

  // ---------------------------------------------------------------- the entry price

  /** The prices at which the open leg was opened or added to. */
  function LegOf(p: Position, leg: seq<real>, f: Fill): seq<real> {
    var size := p.size + Signed(f);
    if size == 0.0 then []
    else if p.size == 0.0 || (size > 0.0) != (p.size > 0.0) then [f.price]
    else if SameDirection(p.size, f) then leg + [f.price]
    else leg
  }

  function Leg(fills: seq<Fill>): seq<real> {
    if fills == [] then []
    else
      var init := fills[..|fills| - 1];
      LegOf(BookedAll(Book(Flat, 0.0), init).position, Leg(init), fills[|fills| - 1])
  }

  ghost predicate Between(entry: real, leg: seq<real>) {
    (exists low :: low in leg && low <= entry) && (exists high :: high in leg && entry <= high)
  }

  lemma MeanIsBetween(entry: real, size: real, price: real, qty: real, mean: real)
    requires size > 0.0 && qty >= 0.0 && mean * (size + qty) == entry * size + price * qty
    ensures (entry <= mean || price <= mean) && (mean <= entry || mean <= price)
  {
    assert mean < entry ==> mean * size < entry * size;
    assert mean < price ==> mean * qty <= price * qty;
    assert mean > entry ==> mean * size > entry * size;
    assert mean > price ==> mean * qty >= price * qty;
    assert mean * (size + qty) == mean * size + mean * qty;
  }

  lemma EntryStaysBetween(p: Position, leg: seq<real>, f: Fill)
    requires f.qty >= 0.0
    requires if p.size == 0.0 then leg == [] else Between(p.entry, leg)
    ensures var (q, _) := ApplyFill(p, f);
      if q.size == 0.0 then q.entry == 0.0 && LegOf(p, leg, f) == [] else Between(q.entry, LegOf(p, leg, f))
  {
    var q := ApplyFill(p, f).0;
    var leg' := LegOf(p, leg, f);
    if q.size != 0.0 && SameDirection(p.size, f) {
      AddedCost(p, f);
      if p.size == 0.0 {
        assert q.entry * f.qty == f.price * f.qty && f.price in leg';
        assert (q.entry - f.price) * f.qty == 0.0;
      } else {
        assert Abs(q.size) == Abs(p.size) + f.qty;
        MeanIsBetween(p.entry, Abs(p.size), f.price, f.qty, q.entry);
        var low :| low in leg && low <= p.entry;
        var high :| high in leg && p.entry <= high;
        assert low in leg' && high in leg' && f.price in leg';
      }
    } else if q.size != 0.0 && (q.size > 0.0) != (p.size > 0.0) {
      assert f.price in leg';
    }
  }

  /** From flat, an open position's entry price lies between the lowest and the highest price of its current leg. */
  lemma {:induction false} EntryIsWithinLeg(fills: seq<Fill>)
    requires forall f | f in fills :: f.qty >= 0.0
    ensures var p := BookedAll(Book(Flat, 0.0), fills).position;
      if p.size == 0.0 then p.entry == 0.0 && Leg(fills) == [] else Between(p.entry, Leg(fills))
  {
    if fills != [] {
      var init := fills[..|fills| - 1];
      EntryIsWithinLeg(init);
      EntryStaysBetween(BookedAll(Book(Flat, 0.0), init).position, Leg(init), fills[|fills| - 1]);
    }
  }

  // ---------------------------------------------------------------- splitting a fill

  lemma SameWorthSameBook(c: Book, d: Book, mark: real)
    requires c.position == d.position && Worth(c, mark) == Worth(d, mark)
    ensures c == d
  {
  }

  /** Two fills at one price on one side come to the same book as one fill of their total quantity. */
  lemma FillSplits(b: Book, side: Side, price: real, first: real, second: real)
    requires first >= 0.0 && second >= 0.0
    ensures Booked(Booked(b, Fill(side, price, first)), Fill(side, price, second)) == Booked(b, Fill(side, price, first + second))
  {
    SplitPosition(b.position, side, price, first, second);
    SplitWorth(b, side, price, first, second);
    SameWorthSameBook(
      Booked(Booked(b, Fill(side, price, first)), Fill(side, price, second)),
      Booked(b, Fill(side, price, first + second)), price);
  }

  /** At the fill price no fill changes the worth. */
  lemma SplitWorth(b: Book, side: Side, price: real, first: real, second: real)
    requires first >= 0.0 && second >= 0.0
    ensures Worth(Booked(Booked(b, Fill(side, price, first)), Fill(side, price, second)), price)
         == Worth(Booked(b, Fill(side, price, first + second)), price)
  {
    FillAtMark(b, Fill(side, price, first));
    FillAtMark(Booked(b, Fill(side, price, first)), Fill(side, price, second));
    FillAtMark(b, Fill(side, price, first + second));
  }

  lemma FillAtMark(b: Book, f: Fill)
    requires f.qty >= 0.0
    ensures Worth(Booked(b, f), f.price) == Worth(b, f.price)
  {
    FillConserves(b, f, f.price);
  }

  lemma SplitPosition(p: Position, side: Side, price: real, first: real, second: real)
    requires first >= 0.0 && second >= 0.0
    ensures ApplyFill(ApplyFill(p, Fill(side, price, first)).0, Fill(side, price, second)).0
         == ApplyFill(p, Fill(side, price, first + second)).0
  {
    if SameDirection(p.size, Fill(side, price, first)) {
      SplitAddition(p, side, price, first, second);
    } else {
      SplitReduction(p, side, price, first, second);
    }
  }

  /** What an addition does, without division. */
  ghost predicate Adds(p: Position, f: Fill, q: Position) {
    && q.size == p.size + Signed(f) && Abs(q.size) == Abs(p.size) + f.qty
    && (if q.size == 0.0 then q.entry == 0.0 else q.entry * Abs(q.size) == p.entry * Abs(p.size) + f.price * f.qty)
  }

  lemma AdditionAdds(p: Position, f: Fill)
    requires f.qty >= 0.0 && SameDirection(p.size, f)
    ensures Adds(p, f, ApplyFill(p, f).0)
  {
    if p.size + Signed(f) != 0.0 {
      AddedCost(p, f);
    }
  }

  lemma AdditionsAgree(p: Position, f: Fill, g: Fill, h: Fill, q: Position, r: Position, w: Position)
    requires f.qty >= 0.0 && g.qty >= 0.0 && h.qty == f.qty + g.qty
    requires f.side == g.side == h.side && f.price == g.price == h.price
    requires Adds(p, f, q) && Adds(q, g, r) && Adds(p, h, w)
    ensures r == w
  {
    if r.size != 0.0 {
      MeansAgree(p.entry, Abs(p.size), f.price, f.qty, g.qty, q.entry, r.entry, w.entry);
    }
  }

  lemma SplitAddition(p: Position, side: Side, price: real, first: real, second: real)
    requires first >= 0.0 && second >= 0.0 && SameDirection(p.size, Fill(side, price, first))
    ensures ApplyFill(ApplyFill(p, Fill(side, price, first)).0, Fill(side, price, second)).0
         == ApplyFill(p, Fill(side, price, first + second)).0
  {
    var f, g, h := Fill(side, price, first), Fill(side, price, second), Fill(side, price, first + second);
    AdditionAdds(p, f);
    AdditionAdds(ApplyFill(p, f).0, g);
    AdditionAdds(p, h);
    AdditionsAgree(p, f, g, h, ApplyFill(p, f).0, ApplyFill(ApplyFill(p, f).0, g).0, ApplyFill(p, h).0);
  }

  lemma MeansAgree(entry: real, size: real, price: real, first: real, second: real, mean: real, two: real, one: real)
    requires size + first + second > 0.0
    requires mean * (size + first) == entry * size + price * first || (size + first == 0.0 && size == 0.0 && first == 0.0)
    requires two * (size + first + second) == mean * (size + first) + price * second
    requires one * (size + first + second) == entry * size + price * (first + second)
    ensures two == one
  {
    assert price * (first + second) == price * first + price * second;
    assert (two - one) * (size + first + second) == 0.0;
  }

  lemma SplitReduction(p: Position, side: Side, price: real, first: real, second: real)
    requires first >= 0.0 && second >= 0.0 && !SameDirection(p.size, Fill(side, price, first))
    ensures ApplyFill(ApplyFill(p, Fill(side, price, first)).0, Fill(side, price, second)).0
         == ApplyFill(p, Fill(side, price, first + second)).0
  {
    var f, g := Fill(side, price, first), Fill(side, price, second);
    var q := ApplyFill(p, f).0;
    if first >= Abs(p.size) && q.size + Signed(g) != 0.0 {
      AddedCost(q, g);
      var r := ApplyFill(q, g).0;
      SameMean(r.entry, q.entry, Abs(q.size), price, second);
    }
  }

  lemma SameMean(mean: real, entry: real, size: real, price: real, qty: real)
    requires size >= 0.0 && qty >= 0.0 && size + qty > 0.0 && (entry == price || size == 0.0)
    requires mean * (size + qty) == entry * size + price * qty
    ensures mean == price
  {
    assert (mean - price) * (size + qty) == 0.0;
  }
}
