/**
 * The history of one instrument's actor.
 *
 * Every change an actor makes to its order map is followed at once by exactly one durable
 * write (internal/instrument/actor_state.go:138-140, 163-165, 246-248 and
 * internal/instrument/bracket.go:80-83, 114-115, 131-133, 159-161), so one sequence of events
 * is the history of the map, of the position and of the writes.  A log is lawful when each
 * event was allowed by what came before it.  Lawfulness is closed under prefixes: whatever
 * is proved of lawful logs holds after every single write, hence at every crash point.
 */
module Journal {
  import opened Orders
  import opened Ledger

  datatype Event =
    | Accepted(order: Order)                                   // a new resting order or pending leg
    | Activated(order: Order)                                  // a pending leg whose entry filled
    | Withdrawn(order: Order)                                  // cancelled on request
    | Superseded(order: Order, winner: string)                   // cancelled because its sibling filled
    | Executed(order: Order, fill: Fill, position: Position)   // filled, with the new position

  type Book = map<string, Order>

  /** All orders ever seen, as the log leaves them. */
  function BookOf(log: seq<Event>): Book {
    if log == [] then map[]
    else var o := log[|log| - 1].order; BookOf(log[..|log| - 1])[o.id := o]
  }

  /** The position recorded by the last execution. */
  function LedgerOf(log: seq<Event>): Position {
    if log == [] then FLAT
    else if log[|log| - 1].Executed? then log[|log| - 1].position
    else LedgerOf(log[..|log| - 1])
  }

  function FillsOf(log: seq<Event>): seq<Fill> {
    if log == [] then []
    else if log[|log| - 1].Executed? then FillsOf(log[..|log| - 1]) + [log[|log| - 1].fill]
    else FillsOf(log[..|log| - 1])
  }

  predicate Sound(token: string, o: Order) {
    o.id != "" && o.token == token && Validate(o).Pass? && o.status != Unset
  }

  /** May this event follow, given the book and the position so far? */
  predicate Admits(token: string, book: Book, pos: Position, e: Event) {
    var o := e.order;
    && Sound(token, o)
    && match e
       case Accepted(_) =>
         && o.id !in book
         && ((o.status == Resting && Standalone(o))
             || (o.status == Pending && o.entryID != "" && o.siblingID != ""))
       case Activated(_) =>
         && o.id in book && o.status == Resting && book[o.id] == o.(status := Pending)
         && o.entryID in book && book[o.entryID].status == Filled
       case Withdrawn(_) =>
         && o.id in book && Live(book[o.id]) && o == book[o.id].(status := Cancelled)
       case Superseded(_, winner) =>
         && o.id in book && Live(book[o.id]) && o == book[o.id].(status := Cancelled)
         && winner in book && book[winner].status == Filled && book[winner].siblingID == o.id
       case Executed(_, f, p) =>
         && o.status == Filled
         && (if o.id in book then book[o.id] == o.(status := Resting) else Standalone(o))
         && WouldFill(o, f.price) && f == FillFor(o, f.price) && p == ApplyFill(pos, f)
  }

  predicate Lawful(token: string, log: seq<Event>) {
    log == [] ||
    var past := log[..|log| - 1];
    Lawful(token, past) && Admits(token, BookOf(past), LedgerOf(past), log[|log| - 1])
  }

  /** The unfolding of every reading of a log that has grown by one event. */
  lemma Grow(token: string, log: seq<Event>, e: Event)
    ensures BookOf(log + [e]) == BookOf(log)[e.order.id := e.order]
    ensures LedgerOf(log + [e]) == if e.Executed? then e.position else LedgerOf(log)
    ensures FillsOf(log + [e]) == if e.Executed? then FillsOf(log) + [e.fill] else FillsOf(log)
    ensures Lawful(token, log + [e]) <==>
            Lawful(token, log) && Admits(token, BookOf(log), LedgerOf(log), e)
  {
    hide Admits;
    assert (log + [e])[..|log|] == log;
  }

  /** The same, read backwards from a log that is not empty. */
  lemma LastStep(token: string, log: seq<Event>)
    requires Lawful(token, log) && log != []
    ensures var past, e := log[..|log| - 1], log[|log| - 1];
            && log == past + [e] && Lawful(token, past) && Admits(token, BookOf(past), LedgerOf(past), e)
            && BookOf(log) == BookOf(past)[e.order.id := e.order]
            && LedgerOf(log) == (if e.Executed? then e.position else LedgerOf(past))
            && FillsOf(log) == (if e.Executed? then FillsOf(past) + [e.fill] else FillsOf(past))
  {
    hide Admits;
  }

  /** A crash keeps some prefix of the writes, and a prefix of a lawful log is lawful. */
  lemma {:induction false} PrefixIsLawful(token: string, log: seq<Event>, k: nat)
    requires Lawful(token, log) && k <= |log|
    ensures Lawful(token, log[..k])
  {
    hide Admits;
    if k < |log| {
      var past := log[..|log| - 1];
      PrefixIsLawful(token, past, k);
      assert past[..k] == log[..k];
    } else {
      assert log[..k] == log;
    }
  }

  lemma {:induction false} BookIsSound(token: string, log: seq<Event>)
    requires Lawful(token, log)
    ensures forall id | id in BookOf(log) :: BookOf(log)[id].id == id && Sound(token, BookOf(log)[id])
  {
    hide Lawful, BookOf, LedgerOf, Admits, Sound;
    if log == [] {
      assert BookOf(log) == map[] by { NoBook(); }
    } else {
      var past, e := log[..|log| - 1], log[|log| - 1];
      LastStep(token, log);
      BookIsSound(token, past);
      EventIsSound(token, BookOf(past), LedgerOf(past), e);
    }
  }

  // ---------- status changes ----------

  /** How far an order has come: pending, resting, done. */
  function Stage(s: Status): nat {
    match s
    case Unset => 0
    case Pending => 1
    case Resting => 2
    case Filled => 3
    case Cancelled => 3
  }

  /** The orders of b are still there on the same terms, none moved back, and the done ones never moved. */
  ghost predicate Advances(b: Book, b': Book) {
    forall id | id in b ::
      && id in b' && SameTerms(b[id], b'[id])
      && (b'[id] == b[id] || Stage(b[id].status) < Stage(b'[id].status))
  }

  lemma EventIsSound(token: string, book: Book, pos: Position, e: Event)
    requires Admits(token, book, pos, e)
    ensures Sound(token, e.order) && e.order.token == token && (e.Executed? ==> e.position.token == token)
  {
    hide Validate, WouldFill;
  }

  /** An event moves a live order forward on unchanged terms. */
  lemma EventAdvances(token: string, book: Book, pos: Position, e: Event)
    requires Admits(token, book, pos, e) && e.order.id in book
    ensures Live(book[e.order.id]) && SameTerms(book[e.order.id], e.order)
    ensures Stage(book[e.order.id].status) < Stage(e.order.status)
  {
    hide ApplyFill, Validate, WouldFill;
  }

  /** What each kind of event does to its order, and what it takes. */
  lemma EventKind(token: string, book: Book, pos: Position, e: Event)
    requires Admits(token, book, pos, e)
    ensures e.Accepted? ==> e.order.id !in book
    ensures e.order.status == Filled <==> e.Executed?
    ensures e.order.status == Cancelled <==> e.Superseded? || e.Withdrawn?
    ensures e.order.status == Pending ==> e.Accepted? && e.order.entryID != ""
    ensures e.order.entryID != "" && e.order.status == Resting ==>
              e.Activated? && e.order.entryID in book && book[e.order.entryID].status == Filled
    ensures e.Executed? ==>
              && WouldFill(e.order, e.fill.price) && e.fill == FillFor(e.order, e.fill.price)
              && e.position == ApplyFill(pos, e.fill)
              && (if e.order.id in book then book[e.order.id] == e.order.(status := Resting) else Standalone(e.order))
    ensures e.Superseded? ==>
              && e.order.id in book && Live(book[e.order.id]) && e.winner in book
              && book[e.winner].status == Filled && book[e.winner].siblingID == e.order.id
  {
    hide ApplyFill, Validate, WouldFill;
  }

  lemma NoBook()
    ensures BookOf([]) == map[] && NetQty(map[]) == 0
  {
  }

  lemma NoLedger()
    ensures LedgerOf([]) == FLAT == Fold(FillsOf([]))
  {
  }

  lemma AdvancesTransitive(a: Book, b: Book, c: Book)
    requires Advances(a, b) && Advances(b, c)
    ensures Advances(a, c)
  {
  }

  lemma FilledStays(b: Book, b': Book, id: string)
    requires Advances(b, b') && id in b && b[id].status == Filled
    ensures id in b' && b'[id] == b[id]
  {
  }

  lemma {:induction false} StatusesOnlyAdvance(token: string, log: seq<Event>, k: nat)
    requires Lawful(token, log) && k <= |log|
    ensures Advances(BookOf(log[..k]), BookOf(log))
  {
    hide Lawful, BookOf, LedgerOf, Admits;
    if k < |log| {
      var past, e := log[..|log| - 1], log[|log| - 1];
      LastStep(token, log);
      StatusesOnlyAdvance(token, past, k);
      assert past[..k] == log[..k];
      if e.order.id in BookOf(past) {
        EventAdvances(token, BookOf(past), LedgerOf(past), e);
      }
      assert Advances(BookOf(past), BookOf(log));
      hide Advances;
      AdvancesTransitive(BookOf(log[..k]), BookOf(past), BookOf(log));
    } else {
      assert log[..k] == log;
    }
  }

  /** A leg works only after its entry has filled, at every point of every lawful history. */
  lemma {:induction false} LegsFollowEntries(token: string, log: seq<Event>, id: string)
    requires Lawful(token, log) && id in BookOf(log) && BookOf(log)[id].entryID != ""
    requires BookOf(log)[id].status == Resting || BookOf(log)[id].status == Filled
    ensures var b := BookOf(log); b[id].entryID in b && b[b[id].entryID].status == Filled
  {
    hide Lawful, BookOf, LedgerOf, Admits, WouldFill;
    if log == [] {
      NoBook();
    } else {
      var past, e := log[..|log| - 1], log[|log| - 1];
      var b := BookOf(past);
      LastStep(token, log);
      EventKind(token, b, LedgerOf(past), e);
      if e.order.id in b {
        EventAdvances(token, b, LedgerOf(past), e);
      }
      if e.order.id != id || e.Executed? {
        LegsFollowEntries(token, past, id);
      }
    }
  }

  /** Only legs are ever pending. */
  lemma {:induction false} PendingIsLeg(token: string, log: seq<Event>, id: string)
    requires Lawful(token, log) && id in BookOf(log) && BookOf(log)[id].status == Pending
    ensures BookOf(log)[id].entryID != ""
  {
    hide Lawful, BookOf, LedgerOf, Admits, WouldFill;
    if log == [] {
      NoBook();
    } else {
      var past, e := log[..|log| - 1], log[|log| - 1];
      LastStep(token, log);
      EventKind(token, BookOf(past), LedgerOf(past), e);
      if e.order.id != id {
        PendingIsLeg(token, past, id);
      }
    }
  }

  // ---------- executions and the ledger ----------

  function FillCount(log: seq<Event>, id: string): nat {
    if log == [] then 0
    else FillCount(log[..|log| - 1], id)
         + if log[|log| - 1].Executed? && log[|log| - 1].fill.orderID == id then 1 else 0
  }

  /** An order executed once if it is Filled, and never otherwise. */
  lemma {:induction false} OneFillPerFilledOrder(token: string, log: seq<Event>, id: string)
    requires Lawful(token, log)
    ensures FillCount(log, id) == if id in BookOf(log) && BookOf(log)[id].status == Filled then 1 else 0
  {
    hide Lawful, BookOf, LedgerOf, Admits, WouldFill;
    if log == [] {
      NoBook();
    } else {
      var past, e := log[..|log| - 1], log[|log| - 1];
      LastStep(token, log);
      EventKind(token, BookOf(past), LedgerOf(past), e);
      if e.order.id in BookOf(past) {
        EventAdvances(token, BookOf(past), LedgerOf(past), e);
      }
      OneFillPerFilledOrder(token, past, id);
    }
  }

  /** Every fill is of a Filled order, in full, at a price that order was willing to take. */
  lemma {:induction false} FillsMatchOrders(token: string, log: seq<Event>)
    requires Lawful(token, log)
    ensures forall i {:trigger FillsOf(log)[i]} | 0 <= i < |FillsOf(log)| ::
              var f := FillsOf(log)[i];
              && f.orderID in BookOf(log) && BookOf(log)[f.orderID].status == Filled
              && f == FillFor(BookOf(log)[f.orderID], f.price)
              && WouldFill(BookOf(log)[f.orderID], f.price)
  {
    if log != [] {
      var past := log[..|log| - 1];
      FillsMatchOrders(token, past);
      var fs := FillsOf(log);
      forall i | 0 <= i < |fs|
        ensures && fs[i].orderID in BookOf(log) && BookOf(log)[fs[i].orderID].status == Filled
                && fs[i] == FillFor(BookOf(log)[fs[i].orderID], fs[i].price)
                && WouldFill(BookOf(log)[fs[i].orderID], fs[i].price)
      {
        if i < |FillsOf(past)| {
          assert fs[i] == FillsOf(past)[i];
        }
      }
    }
  }

  /** The recorded position is the fold of the accounting rule over the fills, nothing else. */
  lemma {:induction false} LedgerIsFold(token: string, log: seq<Event>)
    requires Lawful(token, log)
    ensures LedgerOf(log) == Fold(FillsOf(log))
  {
    hide Lawful, BookOf, LedgerOf, FillsOf, Admits, Fold, WouldFill;
    if log == [] {
      NoLedger();
    } else {
      var past, e := log[..|log| - 1], log[|log| - 1];
      LastStep(token, log);
      EventKind(token, BookOf(past), LedgerOf(past), e);
      LedgerIsFold(token, past);
      if e.Executed? {
        FoldGrows(FillsOf(past), e.fill);
      }
    }
  }

  /** What an order adds to the position once Filled: its quantity if it buys, and less that if it sells. */
  function Contribution(o: Order): int {
    if o.status != Filled then 0 else if o.side == Sell then -o.qty else o.qty
  }

  ghost function Pick(b: Book): (id: string)
    requires b != map[]
    ensures id in b
  {
    var id :| id in b; id
  }

  /** The sum of the contributions of all orders in a book. */
  ghost function NetQty(b: Book): int {
    if b == map[] then 0 else Contribution(b[Pick(b)]) + NetQty(b - {Pick(b)})
  }

  lemma {:induction false} NetQtySplit(b: Book, id: string)
    requires id in b
    ensures NetQty(b) == Contribution(b[id]) + NetQty(b - {id})
    decreases |b|
  {
    var p := Pick(b);
    if p != id {
      NetQtySplit(b - {p}, id);
      NetQtySplit(b - {id}, p);
      assert b - {p} - {id} == b - {id} - {p};
    }
  }

  lemma NetQtyUpdate(b: Book, o: Order)
    ensures NetQty(b[o.id := o]) ==
            NetQty(b) + Contribution(o) - if o.id in b then Contribution(b[o.id]) else 0
  {
    var b' := b[o.id := o];
    NetQtySplit(b', o.id);
    assert b' - {o.id} == b - {o.id};
    if o.id in b {
      NetQtySplit(b, o.id);
    } else {
      assert b - {o.id} == b;
    }
  }

  /** The total quantity of the Filled orders on one side. */
  ghost function FilledQty(b: Book, side: Side): int {
    if b == map[] then 0
    else
      var o := b[Pick(b)];
      (if o.status == Filled && o.side == side then o.qty else 0) + FilledQty(b - {Pick(b)}, side)
  }

  ghost predicate TwoSided(b: Book) {
    forall id | id in b :: b[id].side == Buy || b[id].side == Sell
  }

  lemma {:induction false} NetQtyBySide(b: Book)
    requires TwoSided(b)
    ensures NetQty(b) == FilledQty(b, Buy) - FilledQty(b, Sell)
    decreases |b|
  {
    if b != map[] {
      NetQtyBySide(b - {Pick(b)});
    }
  }

  lemma BookIsTwoSided(token: string, log: seq<Event>)
    requires Lawful(token, log)
    ensures TwoSided(BookOf(log))
  {
    hide Lawful, BookOf;
    BookIsSound(token, log);
  }

  lemma FillsAreSided(token: string, log: seq<Event>)
    requires Lawful(token, log)
    ensures Sided(FillsOf(log))
  {
    hide Lawful, BookOf, FillsOf, WouldFill;
    FillsMatchOrders(token, log);
    BookIsTwoSided(token, log);
    forall i | 0 <= i < |FillsOf(log)|
      ensures FillsOf(log)[i].side == Buy || FillsOf(log)[i].side == Sell
    {
      assert FillsOf(log)[i].orderID in BookOf(log);
    }
  }

  /** The signed position is the sum of the signed quantities of the Filled orders. */
  lemma {:induction false} QtyIsNetQty(token: string, log: seq<Event>)
    requires Lawful(token, log)
    ensures LedgerOf(log).qty == NetQty(BookOf(log))
  {
    hide Lawful, BookOf, LedgerOf, Admits, NetQty, WouldFill, ApplyFill;
    if log == [] {
      NoLedger();
      NoBook();
    } else {
      var past, e := log[..|log| - 1], log[|log| - 1];
      LastStep(token, log);
      EventKind(token, BookOf(past), LedgerOf(past), e);
      if e.order.id in BookOf(past) {
        EventAdvances(token, BookOf(past), LedgerOf(past), e);
      }
      QtyIsNetQty(token, past);
      NetQtyUpdate(BookOf(past), e.order);
      if e.Executed? {
        QtyAdds(LedgerOf(past), e.fill);
      }
    }
  }

  /**
   * The exactly-once ledger: after any write, the position is the accounting fold over one
   * fill per Filled order, and its quantity is the sum over those orders.
   */
  lemma ExactlyOnceLedger(token: string, log: seq<Event>, k: nat)
    requires Lawful(token, log) && k <= |log|
    ensures var durable := log[..k];
            && LedgerOf(durable) == Fold(FillsOf(durable))
            && LedgerOf(durable).qty == NetQty(BookOf(durable))
            && forall id ::
                 FillCount(durable, id) ==
                 if id in BookOf(durable) && BookOf(durable)[id].status == Filled then 1 else 0
  {
    var durable := log[..k];
    PrefixIsLawful(token, log, k);
    LedgerIsFold(token, durable);
    QtyIsNetQty(token, durable);
    forall id {
      OneFillPerFilledOrder(token, durable, id);
    }
  }
}
