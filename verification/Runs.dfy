/** Runs of the actor protocol: what holds in every state, over every run, across restarts. */
module Runs {
  import opened Wrappers
  import opened Orders
  import opened Ledger
  import opened Journal
  import opened Settlement
  import opened Protocol

  // ---------- cascades settle the book ----------

  lemma ConsistentIsCalm(b: Book)
    requires Linked(b) && Consistent(b)
    ensures Orphans(b) == {} && Rivals(b) == {} && Doubled(b) == {} && Clashes(b) == {}
  {
  }

  lemma FullyWithin(b: Book, p: real)
    requires Consistent(b)
    ensures Within(b, p, b)
  {
  }

  /** A finished cascade, from a point where it was still within bounds, has settled its base. */
  lemma CascadeSettles(token: string, base: Book, past: set<string>, from: seq<Event>, log: seq<Event>, p: real)
    requires Linked(base) && Consistent(base) && Within(base, p, BookOf(from))
    requires Lawful(token, log) && Reacts(past, from, log, p)
    requires Calmer(base, BookOf(log), p) && KeepsPairs(base, BookOf(log))
    requires Triggered(BookOf(log), p) == {}
    ensures Settled(base, p, BookOf(log))
  {
    hide Lawful, BookOf, Within, Linked, Consistent, Settled, KeepsPairs;
    ConsistentIsCalm(base);
    CascadeStaysWithin(token, base, p, past, from, log);
    WithinOrders(base, p, BookOf(log));
    LinkedPairs(base, BookOf(log));
    RestIsSettled(base, p, BookOf(log));
  }

  /** A tick ends in the closed form. */
  lemma TickSettles(token: string, log: seq<Event>, log': seq<Event>, p: real)
    requires Linked(BookOf(log)) && Consistent(BookOf(log)) && Lawful(token, log')
    requires Cascade(BookOf(log), log, log', p) && Triggered(BookOf(log'), p) == {}
    ensures Settled(BookOf(log), p, BookOf(log'))
  {
    hide Lawful, BookOf, Linked, Consistent, Settled, Calmer, KeepsPairs;
    FullyWithin(BookOf(log), p);
    CascadeSettles(token, BookOf(log), Fills(BookOf(log)), log, log', p);
  }

  // ---------- the invariant between messages ----------

  /** Brackets are linked and consistent, and no resting order could fill at the known price. */
  ghost predicate Inv(s: State) {
    var b := BookOf(s.log);
    && Lawful(s.token, s.log) && Linked(b) && Consistent(b)
    && (s.price.Some? ==> Triggered(b, s.price.value) == {})
  }

  lemma OrderLinked(b: Book, o: Order)
    requires Linked(b) && o.id != "" && o.id !in b && Standalone(o)
    ensures Linked(Rested(b, o))
  {
    var base := Rested(b, o);
    forall id | id in base
      ensures LinkedAt(base, id)
    {
      if id != o.id { assert LinkedAt(b, id); }
    }
  }

  /** A new standalone order, resting, keeps the bracket rules. */
  lemma OrderBase(b: Book, o: Order)
    requires Linked(b) && Consistent(b) && o.id != "" && o.id !in b && Standalone(o)
    ensures Linked(Rested(b, o)) && Consistent(Rested(b, o))
  {
    OrderLinked(b, o);
    hide Linked, LinkedAt;
    var base := Rested(b, o);
    forall id | id in base
      ensures id !in Orphans(base) && base[id].status != Unset
      ensures base[id].entryID != "" && base[id].status == Filled ==>
                base[id].siblingID in base && base[base[id].siblingID].status == Cancelled
      ensures base[id].entryID != "" && (base[id].status == Resting || base[id].status == Filled) ==>
                base[id].entryID in base && base[base[id].entryID].status == Filled
    {
      if id != o.id {
        OldOrderLinked(b, id);
        assert id !in Orphans(b);
      }
    }
  }

  lemma OldOrderLinked(b: Book, id: string)
    requires Linked(b) && id in b
    ensures b[id].entryID != "" ==> b[id].entryID in b && b[id].siblingID in b
  {
    assert LinkedAt(b, id);
  }

  /** The book with both legs pending and the entry resting. */
  function BracketBook(b: Book, entry: Order, target: Order, stop: Order): Book {
    Rested(b[target.id := LinkLeg(target, entry, stop)][stop.id := LinkLeg(stop, entry, target)], entry)
  }

  /** Three fresh orders that form one bracket. */
  ghost predicate FreshBracket(b: Book, entry: Order, target: Order, stop: Order) {
    && entry.id !in b && target.id !in b && stop.id !in b
    && entry.id != "" && target.id != "" && stop.id != ""
    && entry.id != target.id && entry.id != stop.id && target.id != stop.id
    && Standalone(entry)
    && target.side == stop.side != entry.side && target.qty == stop.qty == entry.qty
    && (entry.side == Buy || entry.side == Sell) && (stop.side == Buy || stop.side == Sell)
  }

  lemma OldOrderInBracketBook(b: Book, entry: Order, target: Order, stop: Order, id: string)
    requires Linked(b) && FreshBracket(b, entry, target, stop) && id in b
    ensures var base := BracketBook(b, entry, target, stop);
            && id in base && base[id] == b[id] && LinkedAt(base, id)
            && b[id].entryID != entry.id
            && (b[id].entryID != "" ==>
                  && b[id].siblingID in b && b[id].entryID in b
                  && base[b[id].siblingID] == b[b[id].siblingID] && base[b[id].entryID] == b[b[id].entryID])
  {
    assert LinkedAt(b, id);
  }

  lemma NewOrderInBracketBook(b: Book, entry: Order, target: Order, stop: Order, id: string)
    requires FreshBracket(b, entry, target, stop) && id in BracketBook(b, entry, target, stop) && id !in b
    ensures LinkedAt(BracketBook(b, entry, target, stop), id)
  {
  }

  /** The legs of one entry are each other's siblings. */
  lemma SiblingsInBracketBook(b: Book, entry: Order, target: Order, stop: Order, i: string, j: string)
    requires Linked(b) && FreshBracket(b, entry, target, stop)
    requires i in BracketBook(b, entry, target, stop) && j in BracketBook(b, entry, target, stop)
    requires var base := BracketBook(b, entry, target, stop); base[i].entryID == base[j].entryID != ""
    ensures j == i || j == BracketBook(b, entry, target, stop)[i].siblingID
  {
    hide LinkedAt;
    if i in b {
      OldOrderInBracketBook(b, entry, target, stop, i);
    }
    if j in b {
      OldOrderInBracketBook(b, entry, target, stop, j);
    }
  }

  lemma BracketLinked(b: Book, entry: Order, target: Order, stop: Order)
    requires Linked(b) && FreshBracket(b, entry, target, stop)
    ensures Linked(BracketBook(b, entry, target, stop))
  {
    hide LinkedAt;
    var base := BracketBook(b, entry, target, stop);
    assert "" !in base;
    hide BracketBook, FreshBracket;
    forall id | id in base
      ensures LinkedAt(base, id)
    {
      if id in b {
        OldOrderInBracketBook(b, entry, target, stop, id);
      } else {
        NewOrderInBracketBook(b, entry, target, stop, id);
      }
    }
    forall i, j | i in base && j in base && base[i].entryID == base[j].entryID != ""
      ensures j == i || j == base[i].siblingID
    {
      SiblingsInBracketBook(b, entry, target, stop, i, j);
    }
  }

  /** A new bracket keeps the bracket rules. */
  lemma BracketBase(b: Book, entry: Order, target: Order, stop: Order)
    requires Linked(b) && Consistent(b) && FreshBracket(b, entry, target, stop)
    ensures Linked(BracketBook(b, entry, target, stop)) && Consistent(BracketBook(b, entry, target, stop))
  {
    BracketLinked(b, entry, target, stop);
    hide LinkedAt, Linked;
    var base := BracketBook(b, entry, target, stop);
    forall id | id in base
      ensures id !in Orphans(base) && base[id].status != Unset
      ensures base[id].entryID != "" && base[id].status == Filled ==>
                base[id].siblingID in base && base[base[id].siblingID].status == Cancelled
      ensures base[id].entryID != "" && (base[id].status == Resting || base[id].status == Filled) ==>
                base[id].entryID in base && base[base[id].entryID].status == Filled
    {
      if id in b {
        OldOrderInBracketBook(b, entry, target, stop, id);
        assert id !in Orphans(b);
      }
    }
  }

  lemma LegsStoredBook(log: seq<Event>, entry: Order, target: Order, stop: Order)
    ensures BookOf(LegsStored(log, entry, target, stop)) ==
            BookOf(log)[target.id := LinkLeg(target, entry, stop)][stop.id := LinkLeg(stop, entry, target)]
    ensures LedgerOf(LegsStored(log, entry, target, stop)) == LedgerOf(log)
  {
    hide BookOf, LedgerOf, Lawful;
    var e1, e2 := Accepted(LinkLeg(target, entry, stop)), Accepted(LinkLeg(stop, entry, target));
    Grow("", log, e1);
    Grow("", log + [e1], e2);
    assert log + [e1] + [e2] == LegsStored(log, entry, target, stop);
  }

  /** An order filled on arrival settles the book in which it would have rested. */
  lemma FillOnArrivalSettles(token: string, log: seq<Event>, price: Option<real>, o: Order, log': seq<Event>)
    requires FillsNow(token, log, price, o, log') && Lawful(token, log') && o.id !in BookOf(log)
    requires var base := Rested(BookOf(log), o); Linked(base) && Consistent(base)
    requires Triggered(BookOf(log), price.value) == {}
    ensures Settled(Rested(BookOf(log), o), price.value, BookOf(log'))
  {
    hide BookOf, LedgerOf, Lawful, Linked, Consistent, Settled, Validate, WouldFill, Within, Fills, Advances, Admits;
    hide KeepsPairs, Orphans, Rivals, Pendings, ApplyFill, Calmer;
    var p := price.value;
    var base := Rested(BookOf(log), o);
    var e := log'[|log|];
    var first := log + [e];
    Grow(token, log, e);
    assert first <= log';
    assert BookOf(first) == base[o.id := o.(status := Filled)];
    StatusIsNoTerm(o, Resting, p);
    FilledOnArrivalWithin(base, p, o);
    ReactsLater(Fills(BookOf(log)), log, first, log', p);
    StatusesOnlyAdvance(token, log', |first|);
    assert log'[..|first|] == first;
    FilledStays(BookOf(first), BookOf(log'), o.id);
    OnlyItWasTriggered(BookOf(log), o, BookOf(log'), p);
    CascadeSettles(token, base, Fills(BookOf(log)), first, log', p);
  }

  /** An order filled on arrival is there, and filled, in the end. */
  lemma FilledOnArrival(token: string, log: seq<Event>, price: Option<real>, o: Order, log': seq<Event>)
    requires FillsNow(token, log, price, o, log') && Lawful(token, log')
    ensures o.id in BookOf(log') && BookOf(log')[o.id].status == Filled
  {
    hide BookOf, LedgerOf, Lawful, Validate, WouldFill, Cascade, ApplyFill;
    var first := log + [log'[|log|]];
    Grow(token, log, log'[|log|]);
    assert first <= log';
    StatusesOnlyAdvance(token, log', |first|);
    assert log'[..|first|] == first;
  }

  lemma ReactsLater(past: set<string>, log: seq<Event>, mid: seq<Event>, log': seq<Event>, p: real)
    requires Reacts(past, log, log', p) && log <= mid <= log'
    ensures Reacts(past, mid, log', p)
  {
    hide Reaction;
  }

  /** If nothing was marketable before o came, and o has filled, nothing is. */
  lemma OnlyItWasTriggered(b: Book, o: Order, b': Book, p: real)
    requires Triggered(b, p) == {} && Calmer(Rested(b, o), b', p)
    requires o.id !in b && o.id in b' && b'[o.id].status == Filled
    ensures Triggered(b', p) == {}
  {
    hide WouldFill, Orphans, Rivals, Pendings;
    forall id | id in Triggered(Rested(b, o), p)
      ensures id == o.id
    {
      assert id != o.id ==> id in Triggered(b, p);
    }
    assert o.id !in Triggered(b', p);
  }

  lemma FilledOnArrivalWithin(base: Book, p: real, o: Order)
    requires Linked(base) && Consistent(base) && o.id in base && base[o.id] == o.(status := Resting)
    requires WouldFill(base[o.id], p)
    ensures Within(base, p, base[o.id := o.(status := Filled)])
  {
    hide Linked, LinkedAt, WouldFill;
    var cur := base[o.id := o.(status := Filled)];
    assert Hit(base, p, o.id);
    forall id | id in base
      ensures WithinAt(base, p, cur, id)
    {
      hide Hit;
      assert id !in Orphans(base);
    }
    hide Consistent, WithinAt, Hit;
  }

  lemma PlaceKeepsInv(s: State, o: Order, s': State, r: Reply)
    requires Inv(s) && Admissible(PlaceOrder(o)) && Next(s, PlaceOrder(o), s', r)
    ensures Inv(s')
    ensures OrderVerdict(s.token, BookOf(s.log), o).Pass? && Marketable(s.price, o) ==>
              Settled(Rested(BookOf(s.log), o), s.price.value, BookOf(s'.log))
  {
    hide BookOf, LedgerOf, Lawful, Linked, Consistent, Settled, Validate, Cascade;
    if OrderVerdict(s.token, BookOf(s.log), o).Pass? {
      OrderBase(BookOf(s.log), o);
      if Marketable(s.price, o) {
        FillOnArrivalSettles(s.token, s.log, s.price, o, s'.log);
        SettledIsConsistent(Rested(BookOf(s.log), o), s.price.value, BookOf(s'.log));
      } else {
        Grow(s.token, s.log, Accepted(o.(status := Resting)));
        if s.price.Some? {
          StatusIsNoTerm(o, Resting, s.price.value);
        }
      }
    }
  }

  lemma BracketKeepsInv(s: State, entry: Order, target: Order, stop: Order, s': State, r: Reply)
    requires Inv(s) && Admissible(PlaceBracket(entry, target, stop))
    requires Next(s, PlaceBracket(entry, target, stop), s', r)
    ensures Inv(s')
    ensures BracketVerdict(s.token, BookOf(s.log), entry, target, stop).Pass? && Marketable(s.price, entry) ==>
              Settled(BracketBook(BookOf(s.log), entry, target, stop), s.price.value, BookOf(s'.log))
  {
    hide BookOf, LedgerOf, Lawful, Linked, Consistent, Settled, Validate, Cascade, ValidateBracket;
    if BracketVerdict(s.token, BookOf(s.log), entry, target, stop).Pass? {
      var legs := LegsStored(s.log, entry, target, stop);
      LegsStoredBook(s.log, entry, target, stop);
      assert FreshBracket(BookOf(s.log), entry, target, stop);
      BracketBase(BookOf(s.log), entry, target, stop);
      if Marketable(s.price, entry) {
        FillOnArrivalSettles(s.token, legs, s.price, entry, s'.log);
        SettledIsConsistent(BracketBook(BookOf(s.log), entry, target, stop), s.price.value, BookOf(s'.log));
      } else {
        Grow(s.token, legs, Accepted(entry.(status := Resting)));
        if s.price.Some? {
          StatusIsNoTerm(entry, Resting, s.price.value);
        }
      }
    }
  }

  lemma CancelKeepsInv(s: State, id: string, s': State, r: Reply)
    requires Inv(s) && Next(s, CancelOrder(id), s', r)
    ensures Inv(s')
  {
    hide BookOf, LedgerOf, Lawful, Validate, Linked, Consistent, Triggered, WouldFill;
    var b := BookOf(s.log);
    if id in b && Live(b[id]) {
      var gone := b[id].(status := Cancelled);
      BookIsSound(s.token, s.log);
      Grow(s.token, s.log, Withdrawn(gone));
      LinkageIsImmutable(b, b[id := gone]);
      CancelKeepsConsistent(b, id);
      if s.price.Some? {
        CancelTriggersNothing(b, id, s.price.value);
      }
    }
  }

  lemma CancelTriggersNothing(b: Book, id: string, p: real)
    requires id in b
    ensures Triggered(b[id := b[id].(status := Cancelled)], p) <= Triggered(b, p)
  {
    hide WouldFill;
  }

  lemma CancelKeepsConsistent(b: Book, id: string)
    requires Linked(b) && Consistent(b) && id in b && Live(b[id])
    ensures Consistent(b[id := b[id].(status := Cancelled)])
  {
  }

  lemma TickKeepsInv(s: State, ltp: real, s': State, r: Reply)
    requires Inv(s) && Next(s, Tick(ltp), s', r)
    ensures Inv(s') && Settled(BookOf(s.log), ltp, BookOf(s'.log))
  {
    hide BookOf, LedgerOf, Lawful, Linked, Consistent, Settled, Cascade, Triggered;
    TickSettles(s.token, s.log, s'.log, ltp);
    SettledIsConsistent(BookOf(s.log), ltp, BookOf(s'.log));
  }

  /** Every message keeps the invariant, although it is broken in the middle of a fill. */
  lemma MessageKeepsInv(s: State, m: Message, s': State, r: Reply)
    requires Inv(s) && Admissible(m) && Next(s, m, s', r)
    ensures Inv(s')
  {
    match m
    case PlaceOrder(o) => PlaceKeepsInv(s, o, s', r);
    case PlaceBracket(entry, target, stop) => BracketKeepsInv(s, entry, target, stop, s', r);
    case CancelOrder(id) => CancelKeepsInv(s, id, s', r);
    case Tick(ltp) => TickKeepsInv(s, ltp, s', r);
    case TakeSnapshot =>
  }

  // ---------- no missed trigger, whatever else is unfinished ----------

  /** No resting order could fill at the price in force. */
  ghost predicate MissesNothing(s: State) {
    s.price.Some? ==> Triggered(BookOf(s.log), s.price.value) == {}
  }

  lemma FillMissesNothing(token: string, log: seq<Event>, price: Option<real>, o: Order, log': seq<Event>)
    requires FillsNow(token, log, price, o, log') && Lawful(token, log') && o.id !in BookOf(log)
    requires Triggered(BookOf(log), price.value) == {}
    ensures Triggered(BookOf(log'), price.value) == {}
  {
    hide BookOf, LedgerOf, Lawful, Validate, WouldFill, ApplyFill, Reacts, Calmer, KeepsPairs, Triggered;
    FilledOnArrival(token, log, price, o, log');
    OnlyItWasTriggered(BookOf(log), o, BookOf(log'), price.value);
  }

  lemma RestMissesNothing(b: Book, o: Order, p: real)
    requires Triggered(b, p) == {} && (o.status == Resting ==> !WouldFill(o, p))
    ensures Triggered(b[o.id := o], p) == {}
  {
    forall id | id in b
      ensures id !in Triggered(b, p)
    {
    }
  }

  /** No message leaves a marketable order resting, also in a book that crashes left half done. */
  lemma MessageMissesNothing(s: State, m: Message, s': State, r: Reply)
    requires Lawful(s.token, s.log) && MissesNothing(s) && Next(s, m, s', r)
    ensures MissesNothing(s')
  {
    hide BookOf, LedgerOf, Lawful, Triggered, FillsNow, Cascade, Validate, ValidateBracket, WouldFill, LegsStored;
    match m
    case PlaceOrder(o) =>
      if OrderVerdict(s.token, BookOf(s.log), o).Pass? && s.price.Some? {
        PlaceMissesNothing(s, o, s', r);
      }
    case PlaceBracket(entry, target, stop) =>
      if BracketVerdict(s.token, BookOf(s.log), entry, target, stop).Pass? && s.price.Some? {
        BracketMissesNothing(s, entry, target, stop, s', r);
      }
    case CancelOrder(id) =>
      if id in BookOf(s.log) && Live(BookOf(s.log)[id]) && s.price.Some? {
        BookIsSound(s.token, s.log);
        Grow(s.token, s.log, Withdrawn(BookOf(s.log)[id].(status := Cancelled)));
        CancelTriggersNothing(BookOf(s.log), id, s.price.value);
      }
    case Tick(ltp) =>
    case TakeSnapshot =>
  }

  lemma PlaceMissesNothing(s: State, o: Order, s': State, r: Reply)
    requires MissesNothing(s) && Next(s, PlaceOrder(o), s', r) && s.price.Some?
    requires OrderVerdict(s.token, BookOf(s.log), o).Pass?
    ensures MissesNothing(s')
  {
    hide BookOf, LedgerOf, Lawful, Triggered, FillsNow, Validate, WouldFill;
    if Marketable(s.price, o) {
      assert Marketable(s.price, o) && FillsNow(s.token, s.log, s.price, o, s'.log);
      FillMissesNothing(s.token, s.log, s.price, o, s'.log);
    } else {
      StatusIsNoTerm(o, Resting, s.price.value);
      Grow(s.token, s.log, Accepted(o.(status := Resting)));
      RestMissesNothing(BookOf(s.log), o.(status := Resting), s.price.value);
    }
  }

  lemma BracketMissesNothing(s: State, entry: Order, target: Order, stop: Order, s': State, r: Reply)
    requires MissesNothing(s) && Next(s, PlaceBracket(entry, target, stop), s', r) && s.price.Some?
    requires BracketVerdict(s.token, BookOf(s.log), entry, target, stop).Pass?
    ensures MissesNothing(s')
  {
    hide BookOf, LedgerOf, Lawful, Triggered, FillsNow, Validate, ValidateBracket, WouldFill, LegsStored;
    var b, legs, p := BookOf(s.log), LegsStored(s.log, entry, target, stop), s.price.value;
    LegsStoredBook(s.log, entry, target, stop);
    RestMissesNothing(b, LinkLeg(target, entry, stop), p);
    RestMissesNothing(b[target.id := LinkLeg(target, entry, stop)], LinkLeg(stop, entry, target), p);
    assert entry.id !in BookOf(legs) by {
      BracketPasses(s.token, b, entry, target, stop);
    }
    if Marketable(s.price, entry) {
      FillMissesNothing(s.token, legs, s.price, entry, s'.log);
    } else {
      StatusIsNoTerm(entry, Resting, p);
      Grow(s.token, legs, Accepted(entry.(status := Resting)));
      RestMissesNothing(BookOf(legs), entry.(status := Resting), p);
    }
  }

  lemma BracketPasses(token: string, b: Book, entry: Order, target: Order, stop: Order)
    requires BracketVerdict(token, b, entry, target, stop).Pass?
    ensures entry.id !in b && target.id !in b && stop.id !in b
    ensures entry.id != target.id && entry.id != stop.id && target.id != stop.id
  {
    hide Validate;
  }
}
