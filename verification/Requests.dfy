/**
 * What a client is told, in terms of the request itself: when an order or a bracket is refused and why, what becomes
 * of one that is not, what a cancel does, and what a snapshot shows (internal/instrument/messages.go,
 * internal/instrument/actor_state.go:107-175, 207-218; internal/instrument/bracket.go:27-117).
 */
module Requests {
  import opened Wrappers
  import opened Orders
  import opened Ledger
  import opened Journal
  import opened Settlement
  import opened Protocol
  import opened Moves
  import opened Runs
  import opened Histories

  // ---------- refusals ----------

  /** A defect, if it is there, and the reason that reports it. */
  type Defect = (bool, Reason)

  /** What can be wrong with the fields of an order, in the order in which it is reported. */
  function FieldDefects(o: Order): seq<Defect> {
    [(o.token == "", MissingToken),
     (o.side != Buy && o.side != Sell, InvalidSide),
     (o.kind != Market && o.kind != Limit && o.kind != Stop, InvalidKind),
     (o.qty <= 0, NonPositiveQty),
     (o.kind != Market && o.limitPrice <= 0.0, NonPositiveLimit)]
  }

  /** What can be wrong with an otherwise good order for the actor of one instrument. */
  function PlaceDefects(token: string, b: Book, o: Order): seq<Defect> {
    [(o.token != token, WrongToken), (o.id in b, DuplicateID(o.id))]
  }

  /** What can be wrong with three good orders as a bracket. */
  function ShapeDefects(entry: Order, target: Order, stop: Order): seq<Defect> {
    [(entry.kind == Stop, EntryKind),
     (target.kind != Limit, TargetKind),
     (stop.kind != Stop, StopKind),
     (target.side != stop.side, LegSidesDiffer),
     (target.side == entry.side, LegSideOfEntry),
     (target.qty != entry.qty || stop.qty != entry.qty, LegQty),
     (entry.id == target.id || entry.id == stop.id || target.id == stop.id, SharedIDs)]
  }

  /** What can be wrong with a good bracket for the actor of one instrument. */
  function BracketDefects(token: string, b: Book, entry: Order, target: Order, stop: Order): seq<Defect> {
    [(entry.token != token || target.token != token || stop.token != token, WrongToken),
     (entry.id in b, DuplicateID(entry.id)),
     (target.id in b, DuplicateID(target.id)),
     (stop.id in b, DuplicateID(stop.id))]
  }

  predicate Defective(ds: seq<Defect>) {
    exists i :: 0 <= i < |ds| && ds[i].0
  }

  /** The reason belongs to the first defect that is there. */
  predicate Reports(ds: seq<Defect>, why: Reason) {
    exists i :: 0 <= i < |ds| && ds[i].0 && ds[i].1 == why && forall j | 0 <= j < i :: !ds[j].0
  }

  lemma SoundFields(o: Order)
    ensures Defective(FieldDefects(o)) <==>
            || o.token == "" || !(o.side == Buy || o.side == Sell)
            || !(o.kind == Market || o.kind == Limit || o.kind == Stop)
            || o.qty <= 0 || (o.kind != Market && o.limitPrice <= 0.0)
    ensures Validate(o).Pass? <==> !Defective(FieldDefects(o))
  {
    var ds := FieldDefects(o);
    assert ds[0].0 || ds[1].0 || ds[2].0 || ds[3].0 || ds[4].0 ==> Defective(ds);
  }

  lemma FirstField(o: Order)
    requires Validate(o).Fail?
    ensures Reports(FieldDefects(o), Validate(o).error)
  {
    var ds := FieldDefects(o);
    var i := if ds[0].0 then 0 else if ds[1].0 then 1 else if ds[2].0 then 2 else if ds[3].0 then 3 else 4;
    assert ds[i].0 && ds[i].1 == Validate(o).error;
  }

  /** An order is refused exactly if a field is bad, it is for another instrument, or its ID was used. */
  lemma PlacementIsRefusedIff(s: State, o: Order, s': State, r: Reply)
    requires Next(s, PlaceOrder(o), s', r)
    ensures r.OrderReply?
    ensures r.outcome == Rejected <==>
            || o.token == "" || !(o.side == Buy || o.side == Sell)
            || !(o.kind == Market || o.kind == Limit || o.kind == Stop)
            || o.qty <= 0 || (o.kind != Market && o.limitPrice <= 0.0)
            || o.token != s.token || o.id in BookOf(s.log)
    ensures r.outcome == Rejected ==>
              && s' == s && r.order == o && r.fill == None && r.error.Some?
              && Reports(FieldDefects(o) + PlaceDefects(s.token, BookOf(s.log), o), r.error.value)
  {
    hide BookOf, LedgerOf, Lawful, FillsNow, Defective, Reports, FieldDefects, PlaceDefects, WouldFill, Validate;
    SoundFields(o);
    if Validate(o).Fail? {
      FirstField(o);
      ReportsEarlier(FieldDefects(o), PlaceDefects(s.token, BookOf(s.log), o), Validate(o).error);
    } else if o.token != s.token || o.id in BookOf(s.log) {
      FirstPlaceDefect(s.token, BookOf(s.log), o);
      ReportsLater(FieldDefects(o), PlaceDefects(s.token, BookOf(s.log), o), r.error.value);
    }
  }

  lemma FirstPlaceDefect(token: string, b: Book, o: Order)
    requires o.token != token || o.id in b
    ensures Reports(PlaceDefects(token, b, o), if o.token != token then WrongToken else DuplicateID(o.id))
  {
    var ds := PlaceDefects(token, b, o);
    var i := if ds[0].0 then 0 else 1;
    assert ds[i].0;
  }

  lemma ReportsEarlier(x: seq<Defect>, y: seq<Defect>, why: Reason)
    requires Reports(x, why)
    ensures Reports(x + y, why)
  {
    var i :| 0 <= i < |x| && x[i].0 && x[i].1 == why && forall j | 0 <= j < i :: !x[j].0;
    assert (x + y)[i] == x[i];
  }

  lemma ReportsLater(x: seq<Defect>, y: seq<Defect>, why: Reason)
    requires !Defective(x) && Reports(y, why)
    ensures Reports(x + y, why)
  {
    var i :| 0 <= i < |y| && y[i].0 && y[i].1 == why && forall j | 0 <= j < i :: !y[j].0;
    assert (x + y)[|x| + i] == y[i];
    forall j | 0 <= j < |x| + i
      ensures !(x + y)[j].0
    {
      if j >= |x| {
        assert (x + y)[j] == y[j - |x|];
      }
    }
  }

  /** The defects of three orders as a bracket: first those of the fields of each, then those of the three together. */
  ghost predicate ReportsBracket(token: string, b: Book, entry: Order, target: Order, stop: Order, why: Reason) {
    if Defective(FieldDefects(entry)) then why.BadEntry? && Reports(FieldDefects(entry), why.inner)
    else if Defective(FieldDefects(target)) then why.BadTarget? && Reports(FieldDefects(target), why.inner)
    else if Defective(FieldDefects(stop)) then why.BadStop? && Reports(FieldDefects(stop), why.inner)
    else Reports(ShapeDefects(entry, target, stop) + BracketDefects(token, b, entry, target, stop), why)
  }

  /**
   * A bracket is refused exactly if one of its orders is bad by itself, or one of these holds: the entry is a stop,
   * the target no limit or the stop no stop order; the legs are on different sides, or on that of the entry; a
   * quantity differs; two IDs are the same; an order is for another instrument; an ID was used.
   */
  lemma BracketIsRefusedIff(s: State, entry: Order, target: Order, stop: Order, s': State, r: Reply)
    requires Next(s, PlaceBracket(entry, target, stop), s', r)
    ensures r.BracketReply?
    ensures r.outcome == Rejected <==>
            || Defective(FieldDefects(entry)) || Defective(FieldDefects(target)) || Defective(FieldDefects(stop))
            || entry.kind == Stop || target.kind != Limit || stop.kind != Stop
            || target.side != stop.side || target.side == entry.side
            || target.qty != entry.qty || stop.qty != entry.qty
            || entry.id == target.id || entry.id == stop.id || target.id == stop.id
            || entry.token != s.token || target.token != s.token || stop.token != s.token
            || entry.id in BookOf(s.log) || target.id in BookOf(s.log) || stop.id in BookOf(s.log)
    ensures r.outcome == Rejected ==>
              && s' == s && r.entry == entry && r.target == target && r.stop == stop && r.fill == None
              && r.error.Some? && ReportsBracket(s.token, BookOf(s.log), entry, target, stop, r.error.value)
  {
    hide BookOf, LedgerOf, Lawful, FillsNow, Defective, Reports, FieldDefects, BracketDefects, WouldFill, Validate;
    hide LegsStored;
    SoundFields(entry);
    SoundFields(target);
    SoundFields(stop);
    KindIsKnown(entry);
    if Validate(entry).Fail? {
      FirstField(entry);
    } else if Validate(target).Fail? {
      FirstField(target);
    } else if Validate(stop).Fail? {
      FirstField(stop);
    } else if r.outcome == Rejected {
      FirstBracketDefect(s.token, BookOf(s.log), entry, target, stop);
    }
  }

  lemma KindIsKnown(o: Order)
    ensures Validate(o).Pass? ==> o.kind == Market || o.kind == Limit || o.kind == Stop
  {
  }

  lemma FirstShapeDefect(entry: Order, target: Order, stop: Order)
    requires Validate(entry).Pass? && Validate(target).Pass? && Validate(stop).Pass?
    ensures if ValidateBracket(entry, target, stop).Pass? then !Defective(ShapeDefects(entry, target, stop))
            else Reports(ShapeDefects(entry, target, stop), ValidateBracket(entry, target, stop).error)
  {
    hide Validate;
    KindIsKnown(entry);
    var ds := ShapeDefects(entry, target, stop);
    if ValidateBracket(entry, target, stop).Fail? {
      var i := if ds[0].0 then 0 else if ds[1].0 then 1 else if ds[2].0 then 2 else if ds[3].0 then 3
               else if ds[4].0 then 4 else if ds[5].0 then 5 else 6;
      assert ds[i].0 && ds[i].1 == ValidateBracket(entry, target, stop).error;
    }
  }

  lemma FirstBracketDefect(token: string, b: Book, entry: Order, target: Order, stop: Order)
    requires Validate(entry).Pass? && Validate(target).Pass? && Validate(stop).Pass?
    requires BracketVerdict(token, b, entry, target, stop).Fail?
    ensures Reports(ShapeDefects(entry, target, stop) + BracketDefects(token, b, entry, target, stop),
                    BracketVerdict(token, b, entry, target, stop).error)
  {
    hide Validate, ValidateBracket, ShapeDefects, Defective;
    FirstShapeDefect(entry, target, stop);
    var shape, ds := ShapeDefects(entry, target, stop), BracketDefects(token, b, entry, target, stop);
    var why := BracketVerdict(token, b, entry, target, stop).error;
    if ValidateBracket(entry, target, stop).Pass? {
      var i := if ds[0].0 then 0 else if ds[1].0 then 1 else if ds[2].0 then 2 else 3;
      assert ds[i].0 && ds[i].1 == why;
      ReportsLater(shape, ds, why);
    } else {
      ReportsEarlier(shape, ds, why);
    }
  }

  // ---------- what is accepted ----------

  /** The order as requested, apart from its status and its links. */
  predicate AsRequested(o: Order, stored: Order) {
    && stored.id == o.id && stored.token == o.token && stored.side == o.side && stored.kind == o.kind
    && stored.qty == o.qty && stored.limitPrice == o.limitPrice
  }

  /** The last traded price is known and the order is not on the waiting side of it. */
  predicate Reaches(price: Option<real>, o: Order) {
    price.Some? && !Waits(o, price.value)
  }

  lemma ReachesIffMarketable(price: Option<real>, o: Order)
    requires Validate(o).Pass?
    ensures Reaches(price, o) <==> Marketable(price, o)
  {
  }

  /** What the fill of o on arrival leaves of the orders that were stored before it, and of o itself. */
  lemma ArrivalOutcome(token: string, log: seq<Event>, price: Option<real>, o: Order, log': seq<Event>)
    requires FillsNow(token, log, price, o, log') && Lawful(token, log') && o.id !in BookOf(log)
    ensures var b, b' := BookOf(log), BookOf(log');
            && b'.Keys == b.Keys + {o.id} && b'[o.id] == o.(status := Filled) && Advances(b, b')
    ensures FillCount(log', o.id) == 1
  {
    hide BookOf, LedgerOf, Lawful, Validate, WouldFill, Reacts, KeepsPairs, ApplyFill, FillCount, Advances;
    var e := log'[|log|];
    var first := log + [e];
    Grow(token, log, e);
    assert first <= log';
    StatusesOnlyAdvance(token, log', |first|);
    StatusesOnlyAdvance(token, log', |log|);
    assert log'[..|first|] == first && log'[..|log|] == log;
    FilledStays(BookOf(first), BookOf(log'), o.id);
    CalmKeys(Rested(BookOf(log), o), BookOf(log'), price.value);
    OneFillPerFilledOrder(token, log', o.id);
  }

  /**
   * An order that is not refused fills in full at the last traded price if that reaches it, and otherwise rests; the
   * reply says so and shows the stored order, and no other order is added.
   */
  lemma PlacementIsCarriedOut(s: State, o: Order, s': State, r: Reply)
    requires Lawful(s.token, s.log) && Next(s, PlaceOrder(o), s', r) && r.outcome != Rejected
    ensures var b, b' := BookOf(s.log), BookOf(s'.log);
            && b'.Keys == b.Keys + {o.id} && AsRequested(o, b'[o.id]) && r.order == b'[o.id] && r.error == None
            && s'.price == s.price
            && if Reaches(s.price, o) then
                 && r.outcome == FilledNow && b'[o.id].status == Filled && FillCount(s'.log, o.id) == 1
                 && r.fill == Some(Fill(o.id, o.token, o.side, o.qty, s.price.value))
               else
                 && r.outcome == NowResting && r.fill == None && b' == b[o.id := b'[o.id]]
                 && b'[o.id].status == Resting && LedgerOf(s'.log) == LedgerOf(s.log)
  {
    hide BookOf, LedgerOf, Lawful, FillsNow, WouldFill, Validate, Waits, FillCount, Advances;
    ReachesIffMarketable(s.price, o);
    if Marketable(s.price, o) {
      ArrivalOutcome(s.token, s.log, s.price, o, s'.log);
    } else {
      Grow(s.token, s.log, Accepted(o.(status := Resting)));
    }
  }

  /** A leg is stored on the terms of the request, linked to the entry and to the other leg. */
  predicate LegAsRequested(leg: Order, entry: Order, sibling: Order, stored: Order) {
    AsRequested(leg, stored) && stored.entryID == entry.id && stored.siblingID == sibling.id
  }

  lemma LegKeepsTerms(b: Book, b': Book, leg: Order, entry: Order, sibling: Order)
    requires Advances(b, b') && leg.id in b && LegAsRequested(leg, entry, sibling, b[leg.id])
    ensures leg.id in b' && LegAsRequested(leg, entry, sibling, b'[leg.id])
  {
    assert SameTerms(b[leg.id], b'[leg.id]);
  }

  /** The book in which the legs wait for the entry, in terms of the request. */
  lemma LegsAreStored(token: string, log: seq<Event>, entry: Order, target: Order, stop: Order)
    requires target.id != stop.id && target.id !in BookOf(log) && stop.id !in BookOf(log)
    ensures var b, b' := BookOf(log), BookOf(LegsStored(log, entry, target, stop));
            && b'.Keys == b.Keys + {target.id, stop.id}
            && LegAsRequested(target, entry, stop, b'[target.id]) && b'[target.id].status == Pending
            && LegAsRequested(stop, entry, target, b'[stop.id]) && b'[stop.id].status == Pending
    ensures LedgerOf(LegsStored(log, entry, target, stop)) == LedgerOf(log)
  {
    hide BookOf, LedgerOf;
    LegsStoredBook(log, entry, target, stop);
  }

  /**
   * A bracket that is not refused stores its three orders on the terms of the request, the legs linked to the entry and
   * to each other, and nothing else.  Its entry is treated like a standalone order; while it rests, both legs are
   * pending.  The reply shows the three as they end up.
   */
  lemma BracketIsCarriedOut(s: State, entry: Order, target: Order, stop: Order, s': State, r: Reply)
    requires Lawful(s.token, s.log) && Next(s, PlaceBracket(entry, target, stop), s', r) && r.outcome != Rejected
    ensures var b, b' := BookOf(s.log), BookOf(s'.log);
            && b'.Keys == b.Keys + {entry.id, target.id, stop.id} && s'.price == s.price
            && AsRequested(entry, b'[entry.id])
            && LegAsRequested(target, entry, stop, b'[target.id]) && LegAsRequested(stop, entry, target, b'[stop.id])
            && r.entry == b'[entry.id] && r.target == b'[target.id] && r.stop == b'[stop.id] && r.error == None
    ensures if Reaches(s.price, entry) then
              && r.outcome == FilledNow && r.entry.status == Filled && FillCount(s'.log, entry.id) == 1
              && r.fill == Some(Fill(entry.id, entry.token, entry.side, entry.qty, s.price.value))
            else
              && r.outcome == NowResting && r.entry.status == Resting && r.fill == None
              && r.target.status == Pending && r.stop.status == Pending && LedgerOf(s'.log) == LedgerOf(s.log)
  {
    hide BookOf, LedgerOf, Lawful, FillsNow, WouldFill, Validate, ValidateBracket, Waits, FillCount, Advances;
    hide LegsStored, LinkLeg;
    var b, legs := BookOf(s.log), LegsStored(s.log, entry, target, stop);
    EntryPasses(s.token, b, entry, target, stop);
    ReachesIffMarketable(s.price, entry);
    BracketPasses(s.token, b, entry, target, stop);
    LegsAreStored(s.token, s.log, entry, target, stop);
    LegsStoredBook(s.log, entry, target, stop);
    if Marketable(s.price, entry) {
      ArrivalOutcome(s.token, legs, s.price, entry, s'.log);
      LegKeepsTerms(BookOf(legs), BookOf(s'.log), target, entry, stop);
      LegKeepsTerms(BookOf(legs), BookOf(s'.log), stop, entry, target);
    } else {
      Grow(s.token, legs, Accepted(entry.(status := Resting)));
    }
  }

  lemma EntryPasses(token: string, b: Book, entry: Order, target: Order, stop: Order)
    requires BracketVerdict(token, b, entry, target, stop).Pass?
    ensures Validate(entry).Pass?
  {
    hide Validate;
  }

  // ---------- cancels and snapshots ----------

  /**
   * A cancel of a resting or pending order cancels it and touches nothing else; any other changes nothing.  The
   * reply names the case and shows the order as it then is.
   */
  lemma CancelIsCarriedOut(s: State, id: string, s': State, r: Reply)
    requires Lawful(s.token, s.log) && Next(s, CancelOrder(id), s', r)
    ensures var b, b' := BookOf(s.log), BookOf(s'.log);
            && r.CancelReply? && s'.price == s.price && LedgerOf(s'.log) == LedgerOf(s.log)
            && if id !in b then r.cancelled == NotFound && r.found == None && s' == s
               else
                 && id in b' && r.found == Some(b'[id])
                 && match b[id].status
                    case Filled => r.cancelled == AlreadyFilled && s' == s
                    case Cancelled => r.cancelled == AlreadyCancelled && s' == s
                    case _ => r.cancelled == CancelledNow && b' == b[id := b[id].(status := Cancelled)]
  {
    hide Lawful, BookOf, LedgerOf, Validate, WouldFill, Admits;
    BookIsSound(s.token, s.log);
    if id in BookOf(s.log) {
      Grow(s.token, s.log, Withdrawn(BookOf(s.log)[id].(status := Cancelled)));
    }
  }

  /** The price of the last tick that was handled, if there was one since the process last booted. */
  function KnownPrice(hs: seq<Happening>): Option<real> {
    if hs == [] then None
    else
      match hs[|hs| - 1]
      case Handled(m, _) => if m.Tick? then Some(m.ltp) else KnownPrice(hs[..|hs| - 1])
      case Restarted => None
      case CrashedIn(_) => None
  }

  lemma {:induction false} PriceIsKnown(token: string, states: seq<State>, hs: seq<Happening>, j: nat)
    requires IsHistory(token, states, hs) && j <= |hs|
    ensures states[j].price == KnownPrice(hs[..j])
  {
    hide Next;
    if j > 0 {
      PriceIsKnown(token, states, hs, j - 1);
      assert hs[..j][..j - 1] == hs[..j - 1];
      assert Happens(states[j - 1], hs[j - 1], states[j]);
      match hs[j - 1]
      case Handled(m, r) => PriceAfter(states[j - 1], m, states[j], r);
      case Restarted =>
      case CrashedIn(_) =>
    }
  }

  lemma SnapshotShows(s: State, s': State, r: Reply)
    requires Next(s, TakeSnapshot, s', r)
    ensures r.SnapshotReply? && s' == s && r.token == s.token && r.position == LedgerOf(s.log)
    ensures Enumerates(r.orders, BookOf(s.log)) && r.lastLTP == if s.price.Some? then s.price.value else 0.0
  {
    hide BookOf, LedgerOf, Lawful, Enumerates;
  }

  lemma HandledStep(token: string, states: seq<State>, hs: seq<Happening>, j: nat)
    requires IsHistory(token, states, hs) && j < |hs| && hs[j].Handled?
    ensures Next(states[j], hs[j].m, states[j + 1], hs[j].r)
  {
    assert Happens(states[j], hs[j], states[j + 1]);
    hide Next;
  }

  /**
   * A snapshot, at any time in any history, lists every order of the actor once and as it stands; its position is what
   * the listed buys that filled come to less the sells; its total profit is that of the fills; and its price is that
   * of the last tick since the process booted, or zero.
   */
  lemma SnapshotTellsAll(token: string, states: seq<State>, hs: seq<Happening>, j: nat, x: real)
    requires IsHistory(token, states, hs) && j < |hs| && hs[j].Handled? && hs[j].m == TakeSnapshot
    ensures var r, log := hs[j].r, states[j].log;
            && r.SnapshotReply? && r.token == token && Enumerates(r.orders, BookOf(log)) && states[j + 1] == states[j]
            && r.lastLTP == (if KnownPrice(hs[..j]).Some? then KnownPrice(hs[..j]).value else 0.0)
            && r.position.qty == FilledQty(BookOf(log), Buy) - FilledQty(BookOf(log), Sell)
            && r.position.realizedPnL + r.position.qty as real * (x - r.position.avgPrice) ==
               TurnoverOf(FillsOf(log), Sell) - TurnoverOf(FillsOf(log), Buy) + r.position.qty as real * x
  {
    hide Happens, BookOf, LedgerOf, Lawful, FilledQty, TurnoverOf, FillsOf, Enumerates, KnownPrice, Next;
    HandledStep(token, states, hs, j);
    SnapshotShows(states[j], states[j + 1], hs[j].r);
    PriceIsKnown(token, states, hs, j);
    LogsStayLawful(token, states, hs, j, j);
    PositionInPlainTerms(token, states, hs, j, x);
  }
}
