/** Average-cost position accounting (internal/instrument/ledger.go), exact over the reals. */
module Ledger {
  import opened Orders

  /** qty is signed: positive is long, negative is short. */
  datatype Position = Position(token: string, qty: int, avgPrice: real, realizedPnL: real)

  /** The zero value every actor starts from. */
  const FLAT := Position("", 0, 0.0, 0.0)

  function SignedQty(f: Fill): int {
    if f.side == Sell then -f.qty else f.qty
  }

  function Abs(n: int): nat {
    if n < 0 then -n else n
  }

  function Sign(n: int): int {
    if n > 0 then 1 else if n < 0 then -1 else 0
  }

  /** Open, add, close in part, close exactly, or flip. */
  function ApplyFill(pos: Position, fill: Fill): Position {
    var out := pos.(token := fill.token);
    var delta := SignedQty(fill);
    if delta == 0 then out
    else if pos.qty == 0 then out.(qty := delta, avgPrice := fill.price)
    else if Sign(pos.qty) == Sign(delta) then
      var total := Abs(pos.qty) + Abs(delta);
      out.(qty := pos.qty + delta,
           avgPrice := (Abs(pos.qty) as real * pos.avgPrice + Abs(delta) as real * fill.price) / total as real)
    else
      var closing := if Abs(pos.qty) < Abs(delta) then Abs(pos.qty) else Abs(delta);
      var pnlPerUnit := if pos.qty > 0 then fill.price - pos.avgPrice else pos.avgPrice - fill.price;
      var closed := out.(realizedPnL := pos.realizedPnL + closing as real * pnlPerUnit);
      var remaining := Abs(delta) - Abs(pos.qty);
      if remaining > 0 then closed.(qty := remaining * Sign(delta), avgPrice := fill.price)
      else if remaining == 0 then closed.(qty := 0, avgPrice := 0.0)
      else closed.(qty := pos.qty + delta)
  }

  function UnrealizedPnL(pos: Position, ltp: real): real {
    pos.qty as real * (ltp - pos.avgPrice)
  }

  /** Realized plus unrealized profit when the instrument trades at x. */
  function Equity(pos: Position, x: real): real {
    pos.realizedPnL + UnrealizedPnL(pos, x)
  }

  /** The position after a sequence of fills, from flat. */
  function Fold(fills: seq<Fill>): Position {
    if fills == [] then FLAT
    else ApplyFill(Fold(fills[..|fills| - 1]), fills[|fills| - 1])
  }

  lemma FoldGrows(fills: seq<Fill>, f: Fill)
    ensures Fold(fills + [f]) == ApplyFill(Fold(fills), f)
  {
    hide ApplyFill;
    assert (fills + [f])[..|fills|] == fills;
  }

  // ---------- one fill ----------

  /** A buy moves the position up by its quantity, a sell down, from long, short or flat. */
  lemma QtyAdds(pos: Position, fill: Fill)
    ensures fill.side == Sell ==> ApplyFill(pos, fill).qty == pos.qty - fill.qty
    ensures fill.side != Sell ==> ApplyFill(pos, fill).qty == pos.qty + fill.qty
  {
  }

  /** Averaging in moves no money: cost basis is additive. */
  lemma CostBasisAdds(pos: Position, fill: Fill)
    requires pos.qty != 0 && SignedQty(fill) != 0 && Sign(pos.qty) == Sign(SignedQty(fill))
    ensures var q := ApplyFill(pos, fill);
            q.qty as real * q.avgPrice == pos.qty as real * pos.avgPrice + SignedQty(fill) as real * fill.price
  {
  }

  /** A fill changes equity by exactly its own mark-to-market, in every one of the five cases. */
  lemma EquityOfFill(pos: Position, fill: Fill, x: real)
    ensures Equity(ApplyFill(pos, fill), x) == Equity(pos, x) + SignedQty(fill) as real * (x - fill.price)
  {
    var delta := SignedQty(fill);
    var q := ApplyFill(pos, fill);
    var n, d := pos.qty as real, delta as real;
    if delta == 0 || pos.qty == 0 {
    } else if Sign(pos.qty) == Sign(delta) {
      CostBasisAdds(pos, fill);
      QtyAdds(pos, fill);
      Distribute(q.qty as real, x, q.avgPrice);
      Distribute(n, x, pos.avgPrice);
      Distribute(d, x, fill.price);
      assert (n + d) * x == n * x + d * x;
    } else {
      QtyAdds(pos, fill);
      EquityOfClose(pos, fill, x);
    }
  }

  lemma Distribute(n: real, x: real, a: real)
    ensures n * (x - a) == n * x - n * a
  {
  }

  lemma EquityOfClose(pos: Position, fill: Fill, x: real)
    requires pos.qty != 0 && SignedQty(fill) != 0 && Sign(pos.qty) != Sign(SignedQty(fill))
    ensures Equity(ApplyFill(pos, fill), x) == Equity(pos, x) + SignedQty(fill) as real * (x - fill.price)
  {
  }

  /** At the price of the fill itself, equity does not move. */
  lemma EquityAtFillPrice(pos: Position, fill: Fill)
    ensures Equity(ApplyFill(pos, fill), fill.price) == Equity(pos, fill.price)
  {
    EquityOfFill(pos, fill, fill.price);
    assert fill.price - fill.price == 0.0;
  }

  /** In market terms: a buyer gains what the price rises above the fill, a seller what it falls below. */
  lemma GainOfFill(pos: Position, fill: Fill, x: real)
    ensures var q := ApplyFill(pos, fill);
            q.realizedPnL + q.qty as real * (x - q.avgPrice) ==
            pos.realizedPnL + pos.qty as real * (x - pos.avgPrice)
            + if fill.side == Sell then fill.qty as real * (fill.price - x) else fill.qty as real * (x - fill.price)
  {
    hide ApplyFill;
    EquityOfFill(pos, fill, x);
    if fill.side == Sell {
      assert (-fill.qty) as real * (x - fill.price) == fill.qty as real * (fill.price - x);
    }
  }

  /** What the books must say after a fill, with no formula for the average or for the realized profit. */
  ghost predicate Books(pos: Position, fill: Fill, q: Position) {
    var delta := if fill.side == Sell then -fill.qty else fill.qty;
    && q.token == fill.token && q.qty == pos.qty + delta
    && (forall x :: Equity(q, x) == Equity(pos, x) + delta as real * (x - fill.price))
    && (delta == 0 || pos.qty == 0 || Sign(pos.qty) == Sign(delta) ==> q.realizedPnL == pos.realizedPnL)
    && (delta == 0 || (Sign(pos.qty) == -Sign(delta) && Sign(q.qty) == Sign(pos.qty)) ==> q.avgPrice == pos.avgPrice)
    && (delta != 0 && Sign(q.qty) != Sign(pos.qty) ==> q.avgPrice == if q.qty == 0 then 0.0 else fill.price)
  }

  lemma RuleBooks(pos: Position, fill: Fill)
    ensures Books(pos, fill, ApplyFill(pos, fill))
  {
    QtyAdds(pos, fill);
    hide Equity;
    forall x ensures Equity(ApplyFill(pos, fill), x) == Equity(pos, x) + SignedQty(fill) as real * (x - fill.price) {
      EquityOfFill(pos, fill, x);
    }
  }

  lemma OneBook(pos: Position, fill: Fill, q: Position, a: Position)
    requires Books(pos, fill, q) && Books(pos, fill, a)
    ensures q == a
  {
    assert Equity(q, 0.0) == Equity(a, 0.0);
    SameEquity(q, a);
    hide Equity;
  }

  /**
   * The accounting rule is the only one that books every fill at its own mark-to-market, realizes nothing
   * on opening or adding, keeps the average on a partial close and starts afresh on a close or a flip.
   */
  lemma ApplyFillIsTheOnlyRule(pos: Position, fill: Fill, q: Position)
    ensures Books(pos, fill, q) <==> q == ApplyFill(pos, fill)
  {
    hide Books, ApplyFill;
    RuleBooks(pos, fill);
    if Books(pos, fill, q) {
      OneBook(pos, fill, q, ApplyFill(pos, fill));
    }
  }

  lemma SameEquity(q: Position, a: Position)
    requires q.qty == a.qty && Equity(q, 0.0) == Equity(a, 0.0)
    ensures q.realizedPnL == a.realizedPnL && q.qty != 0 ==> q.avgPrice == a.avgPrice
    ensures q.avgPrice == a.avgPrice ==> q.realizedPnL == a.realizedPnL
  {
    var n := q.qty as real;
    if q.realizedPnL == a.realizedPnL && q.qty != 0 {
      assert n * (0.0 - q.avgPrice) == n * (0.0 - a.avgPrice);
      assert n * (a.avgPrice - q.avgPrice) == 0.0;
    }
  }

  // ---------- any sequence of fills ----------

  /** What was bought less what was sold. */
  function NetOf(fills: seq<Fill>): int {
    if fills == [] then 0
    else var f := fills[|fills| - 1];
         NetOf(fills[..|fills| - 1]) + if f.side == Sell then -f.qty else f.qty
  }

  /** The gain of every fill at x, with no reference to positions or averages. */
  function MarkOf(fills: seq<Fill>, x: real): real {
    if fills == [] then 0.0
    else var f := fills[|fills| - 1];
         MarkOf(fills[..|fills| - 1], x)
         + if f.side == Sell then f.qty as real * (f.price - x) else f.qty as real * (x - f.price)
  }

  lemma {:induction false} QtyIsNet(fills: seq<Fill>)
    ensures Fold(fills).qty == NetOf(fills)
  {
    if fills != [] {
      var rest := fills[..|fills| - 1];
      QtyIsNet(rest);
      QtyAdds(Fold(rest), fills[|fills| - 1]);
    }
  }

  /** The accounting identity: total profit at any price is the sum over the fills. */
  lemma {:induction false} AccountingIdentity(fills: seq<Fill>, x: real)
    ensures var pos := Fold(fills);
            && pos.realizedPnL + UnrealizedPnL(pos, x) == MarkOf(fills, x)
            && UnrealizedPnL(pos, x) == pos.qty as real * (x - pos.avgPrice)
  {
    hide ApplyFill;
    if fills != [] {
      var rest := fills[..|fills| - 1];
      AccountingIdentity(rest, x);
      GainOfFill(Fold(rest), fills[|fills| - 1], x);
    }
  }

  /** The total quantity of the fills on one side. */
  function VolumeOf(fills: seq<Fill>, side: Side): int {
    if fills == [] then 0
    else var f := fills[|fills| - 1];
         VolumeOf(fills[..|fills| - 1], side) + if f.side == side then f.qty else 0
  }

  /** What the fills on one side cost or brought in. */
  function TurnoverOf(fills: seq<Fill>, side: Side): real {
    if fills == [] then 0.0
    else var f := fills[|fills| - 1];
         TurnoverOf(fills[..|fills| - 1], side) + if f.side == side then f.qty as real * f.price else 0.0
  }

  ghost predicate Sided(fills: seq<Fill>) {
    forall i | 0 <= i < |fills| :: fills[i].side == Buy || fills[i].side == Sell
  }

  /**
   * The books in cash terms: the position is what was bought less what was sold, and total profit at x is what the
   * sells brought in, less what the buys cost, plus the position at x.
   */
  lemma {:induction false} BooksAreCash(fills: seq<Fill>, x: real)
    requires Sided(fills)
    ensures var pos := Fold(fills);
            && pos.qty == VolumeOf(fills, Buy) - VolumeOf(fills, Sell)
            && pos.realizedPnL + pos.qty as real * (x - pos.avgPrice) ==
               TurnoverOf(fills, Sell) - TurnoverOf(fills, Buy)
               + (VolumeOf(fills, Buy) - VolumeOf(fills, Sell)) as real * x
  {
    hide ApplyFill;
    if fills != [] {
      var n := |fills| - 1;
      var rest, f := fills[..n], fills[n];
      assert forall i | 0 <= i < n :: rest[i] == fills[i];
      BooksAreCash(rest, x);
      QtyAdds(Fold(rest), f);
      GainOfFill(Fold(rest), f, x);
      var net, q := VolumeOf(rest, Buy) - VolumeOf(rest, Sell), f.qty as real;
      if f.side == Buy {
        Distribute(q, x, f.price);
        assert (net + f.qty) as real * x == net as real * x + q * x;
      } else {
        Distribute(q, f.price, x);
        assert (net - f.qty) as real * x == net as real * x - q * x;
      }
    }
  }

  // ---------- the average price ----------

  ghost predicate PricesWithin(fills: seq<Fill>, from: nat, lo: real, hi: real) {
    forall i {:trigger fills[i]} | from <= i < |fills| :: lo <= fills[i].price <= hi
  }

  /** fills[k] is the fill that opened the position now held, from flat or by a flip. */
  ghost predicate OpenedBy(fills: seq<Fill>, k: nat) {
    && k < |fills|
    && Sign(NetOf(fills)) != 0
    && Sign(NetOf(fills[..k])) != Sign(NetOf(fills))
    && forall j | k < j <= |fills| :: Sign(NetOf(fills[..j])) == Sign(NetOf(fills))
  }

  /** One fill keeps the average between the old average and the fill price. */
  lemma AverageStep(pos: Position, f: Fill, lo: real, hi: real)
    requires lo <= f.price <= hi
    requires Sign(pos.qty) == Sign(pos.qty + SignedQty(f)) ==> lo <= pos.avgPrice <= hi
    requires pos.qty + SignedQty(f) != 0
    ensures lo <= ApplyFill(pos, f).avgPrice <= hi
  {
  }

  /**
   * The average price of an open position lies between the least and the greatest price
   * traded since the position was opened, through any adds and partial closes.
   */
  lemma {:induction false} AverageWithinTradedRange(fills: seq<Fill>, k: nat, lo: real, hi: real)
    requires OpenedBy(fills, k) && PricesWithin(fills, k, lo, hi)
    ensures lo <= Fold(fills).avgPrice <= hi
  {
    hide ApplyFill;
    var n := |fills| - 1;
    var rest, f := fills[..n], fills[n];
    QtyIsNet(rest);
    assert fills[..|fills|] == fills;
    if k < n {
      assert forall j | 0 <= j <= n :: rest[..j] == fills[..j];
      assert rest[..n] == rest;
      assert Sign(NetOf(fills[..n])) == Sign(NetOf(fills));
      AverageWithinTradedRange(rest, k, lo, hi);
    }
    AverageStep(Fold(rest), f, lo, hi);
  }

  /** A position that is not flat was opened by some fill. */
  lemma {:induction false} OpeningExists(fills: seq<Fill>) returns (k: nat)
    requires NetOf(fills) != 0
    ensures OpenedBy(fills, k)
  {
    var n := |fills| - 1;
    var rest := fills[..n];
    assert fills[..|fills|] == fills;
    if Sign(NetOf(rest)) == Sign(NetOf(fills)) {
      k := OpeningExists(rest);
      assert forall j | 0 <= j <= n :: rest[..j] == fills[..j];
      assert rest[..n] == rest;
    } else {
      k := n;
    }
  }

  lemma FlatStep(pos: Position, f: Fill)
    requires f.price > 0.0
    requires if pos.qty == 0 then pos.avgPrice == 0.0 else pos.avgPrice > 0.0
    ensures var q := ApplyFill(pos, f); if q.qty == 0 then q.avgPrice == 0.0 else q.avgPrice > 0.0
  {
  }

  /** With positive prices, the average is zero exactly when the position is flat. */
  lemma {:induction false} FlatIffNoAverage(fills: seq<Fill>)
    requires forall i | 0 <= i < |fills| :: fills[i].price > 0.0
    ensures Fold(fills).qty == 0 <==> Fold(fills).avgPrice == 0.0
    ensures Fold(fills).qty != 0 ==> Fold(fills).avgPrice > 0.0
  {
    hide ApplyFill;
    if fills != [] {
      var n := |fills| - 1;
      FlatIffNoAverage(fills[..n]);
      FlatStep(Fold(fills[..n]), fills[n]);
    }
  }
}
