/**
 * What one price does to a book of orders with brackets
 * (internal/instrument/actor_state.go:177-194, 237-255 and internal/instrument/bracket.go:126-162).
 *
 * The program reaches the result by ranging over a map in an arbitrary order while recursive
 * fills rewrite that map.  Here the result is given in closed form, from the book before and
 * the price alone, and shown to be the only place a lawful cascade can come to rest.
 */
module Settlement {
  import opened Orders
  import opened Ledger
  import opened Journal

  // ---------- the kinds of unfinished business ----------

  /** Resting orders that the price would fill. */
  function Triggered(b: Book, p: real): set<string> {
    set id | id in b && b[id].status == Resting && WouldFill(b[id], p)
  }

  /** Pending legs whose entry has filled. */
  function Orphans(b: Book): set<string> {
    set id | id in b && b[id].status == Pending && b[id].entryID in b && b[b[id].entryID].status == Filled
  }

  /** Filled orders whose sibling could still fill. */
  function Rivals(b: Book): set<string> {
    set id | id in b && b[id].status == Filled && b[id].siblingID in b && Live(b[b[id].siblingID])
  }

  /** Filled orders whose sibling has filled too. */
  function Doubled(b: Book): set<string> {
    set id | id in b && b[id].status == Filled && b[id].siblingID in b && b[b[id].siblingID].status == Filled
  }

  /** Both sides of each pair in which one leg has filled and the other could still fill. */
  function Clashes(b: Book): set<string> {
    set id | id in b && b[id].siblingID in b
             && ((b[id].status == Filled && Live(b[b[id].siblingID]))
                 || (Live(b[id]) && b[b[id].siblingID].status == Filled))
  }

  /** Orders that have filled. */
  function Fills(b: Book): set<string> {
    set id | id in b && b[id].status == Filled
  }

  /** Legs waiting for their entry. */
  function Pendings(b: Book): set<string> {
    set id | id in b && b[id].status == Pending
  }

  // ---------- the linkage of brackets ----------

  /**
   * A leg names an entry that is not itself a leg, and a sibling that names it back; the two
   * legs close the entry: same quantity, opposite side.
   */
  ghost predicate LinkedAt(b: Book, id: string)
    requires id in b
  {
    var o := b[id];
    && o.id == id && id != ""
    && if o.entryID == "" then o.siblingID == ""
       else
         && o.entryID in b && b[o.entryID].entryID == ""
         && o.siblingID in b && o.siblingID != id
         && b[o.siblingID].siblingID == id && b[o.siblingID].entryID == o.entryID
         && o.qty == b[o.entryID].qty
         && (o.side == Buy || o.side == Sell)
         && (b[o.entryID].side == Buy || b[o.entryID].side == Sell)
         && o.side != b[o.entryID].side
  }

  ghost predicate Linked(b: Book) {
    && "" !in b
    && (forall id | id in b :: LinkedAt(b, id))
    && (forall i, j | i in b && j in b && b[i].entryID == b[j].entryID != "" :: j == i || j == b[i].siblingID)
  }

  /** Between messages: a filled leg has a cancelled sibling, and legs follow their entry. */
  ghost predicate Consistent(b: Book) {
    && Orphans(b) == {}
    && (forall id | id in b :: b[id].status != Unset)
    && (forall id | id in b && b[id].entryID != "" && b[id].status == Filled ::
          b[id].siblingID in b && b[b[id].siblingID].status == Cancelled)
    && (forall id | id in b && b[id].entryID != "" && (b[id].status == Resting || b[id].status == Filled) ::
          b[id].entryID in b && b[b[id].entryID].status == Filled)
  }

  ghost predicate SameOrders(b: Book, b': Book) {
    b'.Keys == b.Keys && forall id | id in b :: SameTerms(b[id], b'[id])
  }

  lemma LinkageIsImmutable(b: Book, b': Book)
    requires Linked(b) && SameOrders(b, b')
    ensures Linked(b')
  {
  }

  lemma AdvancedOrders(b: Book, b': Book)
    requires Advances(b, b') && b'.Keys == b.Keys
    ensures SameOrders(b, b')
  {
  }

  /** Two legs of one entry that name each other as siblings; the entry itself is no leg. */
  predicate PairedAt(b: Book, id: string)
    requires id in b
  {
    var e, sib := b[id].entryID, b[id].siblingID;
    && e != "" && e in b && b[e].entryID == ""
    && sib in b && sib != id && b[sib].siblingID == id && b[sib].entryID == e
  }

  function Paired(b: Book): set<string> {
    set id | id in b && PairedAt(b, id)
  }

  /** A pair of which both have filled in b' had done so in base already, or one had and the other was still live. */
  ghost predicate KeepsPairs(base: Book, b': Book) {
    Doubled(b') * Paired(base) <= Doubled(base) + Clashes(base)
  }

  lemma SamePairs(b: Book, b': Book)
    requires SameOrders(b, b')
    ensures Paired(b') == Paired(b)
  {
    forall id | id in b
      ensures PairedAt(b, id) <==> PairedAt(b', id)
    {
      assert SameTerms(b[id], b'[id]);
      assert b[id].siblingID in b ==> SameTerms(b[b[id].siblingID], b'[b[id].siblingID]);
      assert b[id].entryID in b ==> SameTerms(b[b[id].entryID], b'[b[id].entryID]);
    }
    hide PairedAt;
  }

  /** In a linked book every order with a sibling is one of a pair. */
  lemma LinkedPairs(b: Book, b': Book)
    requires Linked(b) && SameOrders(b, b') && KeepsPairs(b, b')
    ensures Doubled(b') <= Doubled(b) + Clashes(b)
  {
    forall id | id in Doubled(b')
      ensures id in Paired(b)
    {
      assert SameTerms(b[id], b'[id]);
      assert LinkedAt(b, id);
    }
    hide *;
  }

  // ---------- the closed form ----------

  /** Can this order be filled in this step: resting already, or activated by its entry's fill? */
  predicate InPlay(b: Book, p: real, id: string)
    requires id in b
  {
    || b[id].status == Resting
    || (b[id].status == Pending && b[id].entryID in b
        && b[b[id].entryID].status == Resting && WouldFill(b[b[id].entryID], p))
  }

  predicate Hit(b: Book, p: real, id: string) {
    id in b && InPlay(b, p, id) && WouldFill(b[id], p)
  }

  predicate RivalHit(b: Book, p: real, id: string)
    requires id in b
  {
    b[id].siblingID != "" && Hit(b, p, b[id].siblingID)
  }

  /** Both legs of a bracket are marketable at once: one of them wins. */
  predicate Contested(b: Book, p: real, id: string)
    requires id in b
  {
    Hit(b, p, id) && RivalHit(b, p, id)
  }

  /** The status of every uncontested order, from the book before the step and the price. */
  function SettledStatus(b: Book, p: real, id: string): Status
    requires id in b
  {
    if !InPlay(b, p, id) then b[id].status
    else if Hit(b, p, id) then Filled
    else if RivalHit(b, p, id) then Cancelled
    else Resting
  }

  /** b' is b settled at price p. */
  ghost predicate Settled(b: Book, p: real, b': Book) {
    && SameOrders(b, b')
    && forall id | id in b ::
         if Contested(b, p, id) then
           && b[id].siblingID in b
           && ((b'[id].status == Filled && b'[b[id].siblingID].status == Cancelled)
               || (b'[id].status == Cancelled && b'[b[id].siblingID].status == Filled))
         else b'[id].status == SettledStatus(b, p, id)
  }

  // ---------- confluence ----------

  /** Two settlements of one book agree on every uncontested order, and on a contested pair up to which leg won. */
  lemma SettlementIsUnique(b: Book, p: real, x: Book, y: Book, id: string)
    requires Linked(b) && Settled(b, p, x) && Settled(b, p, y) && id in b
    ensures x.Keys == y.Keys
    ensures !Contested(b, p, id) ==> x[id] == y[id]
    ensures Contested(b, p, id) && x[id] != y[id] ==>
              var sib := b[id].siblingID;
              x[id].status == y[sib].status && x[sib].status == y[id].status
  {
    assert LinkedAt(b, id);
    assert SameTerms(b[id], x[id]) && SameTerms(b[id], y[id]);
  }

  /** x and y differ only by exchanging statuses within pairs of siblings of equal contribution. */
  ghost predicate SwapsLegs(b: Book, x: Book, y: Book) {
    && x.Keys == y.Keys
    && forall id | id in x && x[id] != y[id] ::
         && id in b && b[id].siblingID in x && b[id].siblingID != id
         && b[id].siblingID in b && b[b[id].siblingID].siblingID == id
         && x[b[id].siblingID] != y[b[id].siblingID]
         && Contribution(x[id]) == Contribution(y[b[id].siblingID])
         && Contribution(x[b[id].siblingID]) == Contribution(y[id])
  }

  /** Two orders set aside together. */
  lemma PairCounts(x: Book, id: string, sib: string)
    requires id in x && sib in x && sib != id
    ensures NetQty(x) == Contribution(x[id]) + Contribution(x[sib]) + NetQty(x - {id} - {sib})
    ensures |x - {id} - {sib}| < |x|
  {
    hide Contribution, NetQty;
    NetQtySplit(x, id);
    NetQtySplit(x - {id}, sib);
  }

  lemma {:induction false} SwapsKeepNetQty(b: Book, x: Book, y: Book)
    requires SwapsLegs(b, x, y)
    ensures NetQty(x) == NetQty(y)
    decreases |x|
  {
    hide NetQty, SwapsLegs;
    SwapsSameKeys(b, x, y);
    if x.Keys == {} {
      assert x == y;
    } else {
      var id :| id in x;
      if x[id] == y[id] {
        SwapsLessOne(b, x, y, id);
        SwapsKeepNetQty(b, x - {id}, y - {id});
      } else {
        SwapsLessPair(b, x, y, id);
        SwapsKeepNetQty(b, x - {id} - {b[id].siblingID}, y - {id} - {b[id].siblingID});
      }
    }
  }

  lemma SwapsLessOne(b: Book, x: Book, y: Book, id: string)
    requires SwapsLegs(b, x, y) && id in x && id in y && x[id] == y[id]
    ensures SwapsLegs(b, x - {id}, y - {id}) && |x - {id}| < |x|
    ensures NetQty(x) - NetQty(y) == NetQty(x - {id}) - NetQty(y - {id})
  {
    hide Contribution, NetQty, SwapsLegs;
    NetQtySplit(x, id);
    NetQtySplit(y, id);
    SwapsWithoutOne(b, x, y, id);
  }

  lemma SwapsLessPair(b: Book, x: Book, y: Book, id: string)
    requires SwapsLegs(b, x, y) && id in x && id in y && x[id] != y[id]
    ensures id in b
    ensures var x', y' := x - {id} - {b[id].siblingID}, y - {id} - {b[id].siblingID};
            SwapsLegs(b, x', y') && |x'| < |x| && NetQty(x) - NetQty(y) == NetQty(x') - NetQty(y')
  {
    hide Contribution, NetQty, SwapsLegs;
    SwapsWithoutPair(b, x, y, id);
    PairCounts(x, id, b[id].siblingID);
    PairCounts(y, id, b[id].siblingID);
  }

  lemma SwapsSameKeys(b: Book, x: Book, y: Book)
    requires SwapsLegs(b, x, y)
    ensures x.Keys == y.Keys
  {
    hide Contribution;
  }

  /** An order that did not change can be set aside. */
  lemma SwapsWithoutOne(b: Book, x: Book, y: Book, id: string)
    requires SwapsLegs(b, x, y) && id in x && x[id] == y[id]
    ensures SwapsLegs(b, x - {id}, y - {id})
  {
  }

  /** So can a pair that was exchanged. */
  lemma SwapsWithoutPair(b: Book, x: Book, y: Book, id: string)
    requires SwapsLegs(b, x, y) && id in x && x[id] != y[id]
    ensures id in b && b[id].siblingID in x && b[id].siblingID in y && b[id].siblingID != id
    ensures Contribution(x[id]) == Contribution(y[b[id].siblingID])
    ensures Contribution(x[b[id].siblingID]) == Contribution(y[id])
    ensures SwapsLegs(b, x - {id} - {b[id].siblingID}, y - {id} - {b[id].siblingID})
  {
  }

  lemma DifferenceIsASwap(b: Book, p: real, x: Book, y: Book, id: string)
    requires Linked(b) && Settled(b, p, x) && Settled(b, p, y) && id in x && x[id] != y[id]
    ensures id in b && b[id].siblingID in x && b[id].siblingID != id
    ensures b[id].siblingID in b && b[b[id].siblingID].siblingID == id
    ensures x[b[id].siblingID] != y[b[id].siblingID]
    ensures Contribution(x[id]) == Contribution(y[b[id].siblingID])
    ensures Contribution(x[b[id].siblingID]) == Contribution(y[id])
  {
  }

  /** The position after a settlement does not depend on the order of iteration. */
  lemma SettledQtyIsUnique(b: Book, p: real, x: Book, y: Book)
    requires Linked(b) && Settled(b, p, x) && Settled(b, p, y)
    ensures NetQty(x) == NetQty(y)
  {
    hide Settled, Linked;
    assert x.Keys == y.Keys by {
      hide *;
      SameKeys(b, p, x, y);
    }
    forall id | id in x && x[id] != y[id]
      ensures && id in b && b[id].siblingID in x && b[id].siblingID != id
              && b[id].siblingID in b && b[b[id].siblingID].siblingID == id
              && x[b[id].siblingID] != y[b[id].siblingID]
              && Contribution(x[id]) == Contribution(y[b[id].siblingID])
              && Contribution(x[b[id].siblingID]) == Contribution(y[id])
    {
      DifferenceIsASwap(b, p, x, y, id);
    }
    SwapsKeepNetQty(b, x, y);
  }

  lemma SameKeys(b: Book, p: real, x: Book, y: Book)
    requires Settled(b, p, x) && Settled(b, p, y)
    ensures x.Keys == y.Keys == b.Keys
  {
  }

  // ---------- lawful cascades come to rest only there ----------

  /** A fill at p, or the activation of a leg or cancellation of a sibling by a fill that is not of the past. */
  ghost predicate Reaction(past: set<string>, e: Event, p: real) {
    match e
    case Activated(o) => o.entryID !in past
    case Superseded(_, winner) => winner !in past
    case Executed(_, f, _) => f.price == p
    case Accepted(_) => false
    case Withdrawn(_) => false
  }

  ghost predicate Reacts(past: set<string>, log: seq<Event>, log': seq<Event>, p: real) {
    log <= log' && forall i {:trigger log'[i]} | |log| <= i < |log'| :: Reaction(past, log'[i], p)
  }

  /** How far a cascade at price p may have carried one order of b. */
  ghost predicate WithinAt(b: Book, p: real, cur: Book, id: string)
    requires id in b && id in cur
  {
    && (cur[id] == b[id] || Stage(b[id].status) < Stage(cur[id].status))
    && (cur[id].status == Filled && b[id].status != Filled ==> Hit(b, p, id))
    && (b[id].status == Pending && (cur[id].status == Resting || cur[id].status == Filled) ==>
          b[id].entryID in cur && cur[b[id].entryID].status == Filled)
    && (cur[id].status == Cancelled && b[id].status != Cancelled ==>
          b[id].siblingID in cur && cur[b[id].siblingID].status == Filled)
  }

  ghost predicate Within(b: Book, p: real, cur: Book) {
    && SameOrders(b, cur)
    && forall id | id in b :: WithinAt(b, p, cur, id)
  }

  lemma WithinStep(token: string, b: Book, p: real, cur: Book, pos: Position, e: Event)
    requires Linked(b) && Consistent(b) && Within(b, p, cur)
    requires Admits(token, cur, pos, e)
    requires e.Activated? || e.Superseded? || (e.Executed? && e.fill.price == p && e.order.id in cur)
    ensures Within(b, p, cur[e.order.id := e.order])
  {
    hide Admits, LinkedAt, WouldFill, Linked, Consistent, Hit;
    ChangedOrderWithin(token, b, p, cur, pos, e);
    var id := e.order.id;
    var next := cur[id := e.order];
    EventAdvances(token, cur, pos, e);
    assert SameTerms(b[id], cur[id]);
    assert SameOrders(b, next);
    forall i | i in b
      ensures WithinAt(b, p, next, i)
    {
      if i != id {
        assert WithinAt(b, p, cur, i);
      }
    }
  }

  lemma ChangedOrderWithin(token: string, b: Book, p: real, cur: Book, pos: Position, e: Event)
    requires Linked(b) && Consistent(b) && Within(b, p, cur)
    requires Admits(token, cur, pos, e)
    requires e.Activated? || e.Superseded? || (e.Executed? && e.fill.price == p && e.order.id in cur)
    ensures e.order.id in b && WithinAt(b, p, cur[e.order.id := e.order], e.order.id)
  {
    hide ApplyFill, Validate, WouldFill, Hit, Consistent, Linked, LinkedAt;
    var id := e.order.id;
    EventAdvances(token, cur, pos, e);
    assert id in b && WithinAt(b, p, cur, id) && SameTerms(b[id], cur[id]);
    if e.Superseded? {
      SiblingOf(b, p, cur, id, e.winner);
    } else if e.Activated? {
      OwnEntry(b, id);
    } else {
      ExecutedWasHit(token, b, p, cur, pos, e);
    }
  }

  lemma OwnEntry(b: Book, id: string)
    requires Linked(b) && id in b
    ensures b[id].entryID != id
  {
    assert LinkedAt(b, id);
  }

  /** Whoever names id as its sibling is id's sibling. */
  lemma SiblingOf(b: Book, p: real, cur: Book, id: string, w: string)
    requires Linked(b) && SameOrders(b, cur) && id in b && w in cur && cur[w].siblingID == id
    ensures b[id].siblingID == w && w != id
  {
  }

  lemma ExecutedWasHit(token: string, b: Book, p: real, cur: Book, pos: Position, e: Event)
    requires Linked(b) && Consistent(b) && Within(b, p, cur)
    requires Admits(token, cur, pos, e)
    requires e.Executed? && e.fill.price == p && e.order.id in cur
    ensures Hit(b, p, e.order.id)
    ensures e.order.id in b && b[e.order.id].status == Pending ==>
              cur[e.order.entryID].status == Filled && e.order.entryID != e.order.id
  {
    hide ApplyFill, Validate;
    var id := e.order.id;
    assert id in b && LinkedAt(b, id) && WithinAt(b, p, cur, id) && SameTerms(b[id], cur[id]);
    assert WouldFill(b[id], p);
    if b[id].status == Pending {
      var n := b[id].entryID;
      assert LinkedAt(b, n) && SameTerms(b[n], cur[n]) && WithinAt(b, p, cur, n);
      assert id !in Orphans(b);
      assert Hit(b, p, n);
    }
  }

  /** A cascade stays within bounds, however long it is and in whatever order it runs. */
  lemma {:induction false} CascadeStaysWithin(token: string, b: Book, p: real, past: set<string>,
                                              log: seq<Event>, log': seq<Event>)
    requires Linked(b) && Consistent(b) && Within(b, p, BookOf(log))
    requires Lawful(token, log') && Reacts(past, log, log', p) && BookOf(log').Keys == b.Keys
    ensures Within(b, p, BookOf(log'))
    decreases |log'|
  {
    hide Admits, Lawful, BookOf, LedgerOf, Reaction, Within, Linked, Consistent;
    if log' == log {
    } else {
      var before, e := log'[..|log'| - 1], log'[|log'| - 1];
      assert log' == before + [e] && log <= before;
      Grow(token, before, e);
      ReactsBefore(past, log, log', p);
      StatusesOnlyAdvance(token, log', |before|);
      StatusesOnlyAdvance(token, before, |log|);
      assert before[..|log|] == log && log'[..|before|] == before;
      KeysBetween(BookOf(log), BookOf(before), BookOf(log'));
      WithinOrders(b, p, BookOf(log));
      CascadeStaysWithin(token, b, p, past, log, before);
      KindOfReaction(past, e, p);
      WithinStep(token, b, p, BookOf(before), LedgerOf(before), e);
    }
  }

  lemma ReactsBefore(past: set<string>, log: seq<Event>, log': seq<Event>, p: real)
    requires Reacts(past, log, log', p) && log != log'
    ensures Reacts(past, log, log'[..|log'| - 1], p) && Reaction(past, log'[|log'| - 1], p)
  {
    var before := log'[..|log'| - 1];
    assert forall i | |log| <= i < |before| :: before[i] == log'[i];
  }

  lemma KindOfReaction(past: set<string>, e: Event, p: real)
    requires Reaction(past, e, p)
    ensures e.Activated? || e.Superseded? || (e.Executed? && e.fill.price == p)
  {
  }

  lemma KeysBetween(a: Book, b: Book, c: Book)
    requires Advances(a, b) && Advances(b, c)
    ensures a.Keys <= b.Keys <= c.Keys
  {
  }

  lemma WithinOrders(b: Book, p: real, cur: Book)
    requires Within(b, p, cur)
    ensures SameOrders(b, cur)
  {
  }

  /** No unfinished business. */
  ghost predicate AtRest(b: Book, p: real) {
    Triggered(b, p) == {} && Orphans(b) == {} && Rivals(b) == {} && Doubled(b) == {}
  }

  /** A cascade that leaves no unfinished business has reached the closed form. */
  lemma RestIsSettled(b: Book, p: real, cur: Book)
    requires Linked(b) && Consistent(b) && Within(b, p, cur) && AtRest(cur, p)
    ensures Settled(b, p, cur)
  {
    forall id | id in b
      ensures if Contested(b, p, id) then
                && b[id].siblingID in b
                && ((cur[id].status == Filled && cur[b[id].siblingID].status == Cancelled)
                    || (cur[id].status == Cancelled && cur[b[id].siblingID].status == Filled))
              else cur[id].status == SettledStatus(b, p, id)
    {
      AtRestOne(b, p, cur, id);
      if b[id].entryID != "" {
        AtRestOne(b, p, cur, b[id].siblingID);
      }
    }
  }

  lemma EntryAtRest(b: Book, p: real, cur: Book, id: string)
    requires Linked(b) && Consistent(b) && Within(b, p, cur) && AtRest(cur, p) && id in b && b[id].entryID == ""
    ensures LinkedAt(b, id) && SameTerms(b[id], cur[id]) && WithinAt(b, p, cur, id)
    ensures !InPlay(b, p, id) ==> cur[id].status == b[id].status
    ensures InPlay(b, p, id) && !Hit(b, p, id) ==>
              cur[id].status == Resting || (cur[id].status == Cancelled && RivalHit(b, p, id))
    ensures Hit(b, p, id) ==> cur[id].status == Filled || (cur[id].status == Cancelled && RivalHit(b, p, id))
  {
    assert LinkedAt(b, id);
    assert SameTerms(b[id], cur[id]) && WithinAt(b, p, cur, id);
    assert id !in Triggered(cur, p);
    hide Settled, Rivals, Doubled, Orphans, Clashes;
  }

  lemma LegAtRest(b: Book, p: real, cur: Book, id: string)
    requires Linked(b) && Consistent(b) && Within(b, p, cur) && AtRest(cur, p) && id in b && b[id].entryID != ""
    ensures LinkedAt(b, id) && SameTerms(b[id], cur[id]) && WithinAt(b, p, cur, id)
    ensures !InPlay(b, p, id) ==> cur[id].status == b[id].status
    ensures InPlay(b, p, id) && !Hit(b, p, id) ==>
              cur[id].status == Resting || (cur[id].status == Cancelled && RivalHit(b, p, id))
    ensures Hit(b, p, id) ==> cur[id].status == Filled || (cur[id].status == Cancelled && RivalHit(b, p, id))
    ensures b[id].entryID != "" && cur[id].status == Filled ==> cur[b[id].siblingID].status == Cancelled
  {
    hide Settled, Clashes;
    var e, sib := b[id].entryID, b[id].siblingID;
    assert LinkedAt(b, id) && LinkedAt(b, sib);
    EntryAtRest(b, p, cur, e);
    assert SameTerms(b[id], cur[id]) && WithinAt(b, p, cur, id);
    assert SameTerms(b[sib], cur[sib]) && WithinAt(b, p, cur, sib);
    assert id !in Triggered(cur, p) && id !in Orphans(cur) && id !in Rivals(cur) && id !in Doubled(cur);
    assert id !in Orphans(b);
  }

  /** Where one order stands at rest. */
  lemma AtRestOne(b: Book, p: real, cur: Book, id: string)
    requires Linked(b) && Consistent(b) && Within(b, p, cur) && AtRest(cur, p) && id in b
    ensures LinkedAt(b, id) && SameTerms(b[id], cur[id]) && WithinAt(b, p, cur, id)
    ensures !InPlay(b, p, id) ==> cur[id].status == b[id].status
    ensures InPlay(b, p, id) && !Hit(b, p, id) ==>
              cur[id].status == Resting || (cur[id].status == Cancelled && RivalHit(b, p, id))
    ensures Hit(b, p, id) ==> cur[id].status == Filled || (cur[id].status == Cancelled && RivalHit(b, p, id))
    ensures b[id].entryID != "" && cur[id].status == Filled ==> cur[b[id].siblingID].status == Cancelled
  {
    hide Linked, Consistent, Within, AtRest;
    if b[id].entryID == "" {
      EntryAtRest(b, p, cur, id);
    } else {
      LegAtRest(b, p, cur, id);
    }
  }

  /** A settled book keeps the bracket rules and has nothing left to fill at that price. */
  lemma SettledIsConsistent(b: Book, p: real, b': Book)
    requires Linked(b) && Consistent(b) && Settled(b, p, b')
    ensures Linked(b') && Consistent(b') && Triggered(b', p) == {}
  {
    SettledKeys(b, p, b');
    LinkageIsImmutable(b, b');
    forall id | id in b
      ensures id !in Triggered(b', p) && b'[id].status != Unset && id !in Orphans(b')
      ensures b'[id].entryID != "" && b'[id].status == Filled ==>
                b'[id].siblingID in b' && b'[b'[id].siblingID].status == Cancelled
      ensures b'[id].entryID != "" && (b'[id].status == Resting || b'[id].status == Filled) ==>
                b'[id].entryID in b' && b'[b'[id].entryID].status == Filled
    {
      hide Settled, WouldFill, Consistent;
      SettledOne(b, p, b', id);
      assert LinkedAt(b, id);
      if b[id].entryID != "" {
        LegAfterSettlement(b, p, b', id);
      }
    }
    hide Settled, Linked;
  }

  lemma SettledKeys(b: Book, p: real, b': Book)
    requires Settled(b, p, b')
    ensures SameOrders(b, b')
  {
  }

  /** No order is left resting that the price would fill. */
  lemma SettledOne(b: Book, p: real, b': Book, id: string)
    requires Consistent(b) && Settled(b, p, b') && id in b
    ensures id in b' && SameTerms(b[id], b'[id]) && b'[id].status != Unset
    ensures b'[id].status == Resting ==> !WouldFill(b'[id], p)
  {
    assert SameTerms(b[id], b'[id]);
    StatusIsNoTerm(b[id], b'[id].status, p);
    hide WouldFill;
  }

  /** Where the three orders of a bracket stand in a settled book. */
  lemma LegAfterSettlement(b: Book, p: real, b': Book, id: string)
    requires Linked(b) && Consistent(b) && Settled(b, p, b') && id in b && b[id].entryID != ""
    ensures LinkedAt(b, id) && SameTerms(b[id], b'[id])
    ensures b'[id].status == Filled ==> b'[b[id].siblingID].status == Cancelled
    ensures b'[id].status == Resting || b'[id].status == Filled ==> b'[b[id].entryID].status == Filled
    ensures b'[id].status == Pending ==> b'[b[id].entryID].status != Filled
  {
    assert LinkedAt(b, id);
    var e, sib := b[id].entryID, b[id].siblingID;
    assert LinkedAt(b, e) && LinkedAt(b, sib);
    assert SameTerms(b[id], b'[id]) && SameTerms(b[e], b'[e]) && SameTerms(b[sib], b'[sib]);
    assert id !in Orphans(b) && sib !in Orphans(b);
  }

  // ---------- what one bracket can do to the position ----------

  /** A bracket contributes its entry's quantity while it is open, and nothing before or after. */
  lemma BracketExposure(b: Book, leg: string)
    requires Linked(b) && Consistent(b) && leg in b && b[leg].entryID != ""
    ensures LinkedAt(b, leg)
    ensures var e, sib := b[b[leg].entryID], b[b[leg].siblingID];
            Contribution(e) + Contribution(b[leg]) + Contribution(sib) ==
            if e.status == Filled && b[leg].status != Filled && sib.status != Filled
            then if e.side == Buy then e.qty else -e.qty else 0
    ensures forall id | id in b && b[id].entryID == b[leg].entryID :: id == leg || id == b[leg].siblingID
  {
  }
}
