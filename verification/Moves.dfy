/**
 * The proof steps behind fillOrder, activateChildrenOf, cancelSiblingOf and handleTick
 * (internal/instrument/actor_state.go:186-194, 237-255; internal/instrument/bracket.go:126-162):
 * how each single write changes what is unfinished in the book, for any linkage whatever.
 */
module Moves {
  import opened Wrappers
  import opened Orders
  import opened Ledger
  import opened Journal
  import opened Settlement
  import opened Protocol

  // ---------- one move at a time ----------

  /** The first move of a fill: o is filled in b1; only its own legs and sibling may be left over. */
  ghost predicate Begun(base: Book, o: Order, b1: Book, p: real) {
    && b1.Keys == base.Keys && o.id in b1
    && Triggered(b1, p) <= Triggered(base, p) - {o.id}
    && Pendings(b1) <= Pendings(base)
    && (forall id | id in Orphans(b1) :: id in Orphans(base) || b1[id].entryID == o.id)
    && (forall id | id in Rivals(b1) :: id in Rivals(base) || id == o.id)
    && Paired(b1) == Paired(base) && KeepsPairs(base, b1) && ClashesWith(base, b1, o.id)
  }

  /** No pair newly has one leg filled and the other live, except that of the order that was filled. */
  ghost predicate ClashesWith(base: Book, b1: Book, id: string) {
    forall i | i in Clashes(b1) && i in Paired(base) :: i in Clashes(base) || i == id || b1[i].siblingID == id
  }

  lemma FillMove(b: Book, o: Order, p: real)
    requires o.id != "" && (if o.id in b then b[o.id] == o && o.status == Resting else Standalone(o))
    requires "" !in b
    ensures Begun(Rested(b, o), o.(status := Filled), b[o.id := o.(status := Filled)], p)
    ensures Pendings(b[o.id := o.(status := Filled)]) <= Pendings(b)
  {
    hide WouldFill, KeepsPairs, ClashesWith, Paired;
    var base, b1 := Rested(b, o), b[o.id := o.(status := Filled)];
    assert b1 == base[o.id := base[o.id].(status := Filled)];
    FillKeepsPairs(base, b1, o.id);
    SamePairs(base, b1);
  }

  lemma FillKeepsPairs(base: Book, b1: Book, id: string)
    requires id in base && base[id].status == Resting && b1 == base[id := base[id].(status := Filled)]
    ensures KeepsPairs(base, b1) && ClashesWith(base, b1, id)
  {
    assert forall i | i in base :: b1[i].entryID == base[i].entryID && b1[i].siblingID == base[i].siblingID;
    assert forall i | i in base && i != id :: b1[i] == base[i];
  }

  /** The second move: every pending leg of the entry is activated, and filled if marketable. */
  ghost predicate Released(b1: Book, b2: Book, entryID: string, p: real) {
    && Calmer(b1, b2, p)
    && (forall id | id in Orphans(b2) :: b2[id].entryID != entryID)
    && KeepsPairs(b1, b2)
    && FillsBelow(b1, b2, entryID)
  }

  /** What has newly filled is a leg of this entry, or a leg of something that is a leg itself. */
  ghost predicate FillsBelow(b: Book, b': Book, entryID: string) {
    forall id | id in b && id in b' && b'[id].status == Filled && b[id].status != Filled ::
      b[id].entryID == entryID || (b[id].entryID in b && b[b[id].entryID].entryID != "")
  }

  /** The last move: o's sibling is cancelled if it is still live. */
  ghost predicate Decided(b2: Book, b3: Book, o: Order) {
    if o.siblingID in b2 && o.siblingID != "" && Live(b2[o.siblingID])
    then b3 == b2[o.siblingID := b2[o.siblingID].(status := Cancelled)]
    else b3 == b2
  }

  /** Cancelling a live sibling starts nothing, and ends the rivalry with o if there was one. */
  lemma DecidedCalms(b2: Book, b3: Book, o: Order, p: real)
    requires Decided(b2, b3, o) && "" !in b2 && o.id in b2 && b2[o.id].siblingID == o.siblingID
    ensures Calmer(b2, b3, p) && o.id !in Rivals(b3) && Doubled(b3) <= Doubled(b2)
    ensures forall id | id in Orphans(b3) :: b3[id].entryID == b2[id].entryID
  {
    hide WouldFill;
  }

  /** Whatever is orphaned or rivalled in the end was so before the fill. */
  lemma NothingNewIsLeft(base: Book, o: Order, b1: Book, b2: Book, b3: Book, p: real)
    requires Begun(base, o, b1, p) && Released(b1, b2, o.id, p)
    requires Orphans(b3) <= Orphans(b2) && Rivals(b3) <= Rivals(b2) && o.id !in Rivals(b3)
    requires Advances(b1, b2)
    ensures Orphans(b3) <= Orphans(base) && Rivals(b3) <= Rivals(base)
  {
    hide WouldFill, Paired, Clashes, Doubled, Triggered, Pendings, ClashesWith, KeepsPairs, FillsBelow;
    forall id | id in Orphans(b3)
      ensures id in Orphans(base)
    {
      assert id in Orphans(b2) && id in Orphans(b1);
      assert SameTerms(b1[id], b2[id]);
    }
    hide Orphans, Rivals;
  }

  /** The sibling of an order cannot be filled by what the order's own fill sets off. */
  lemma SiblingIsNotBelow(b1: Book, b2: Book, id: string, i: string)
    requires FillsBelow(b1, b2, id) && Advances(b1, b2) && b2.Keys == b1.Keys && i in Paired(b1)
    requires i == id || b1[i].siblingID == id
    requires id in b1 && b1[id].status == Filled && i in Doubled(b2)
    ensures i in Doubled(b1)
  {
    assert PairedAt(b1, i);
    var other := if i == id then b1[i].siblingID else i;
    assert SameTerms(b1[i], b2[i]) && SameTerms(b1[other], b2[other]);
    assert b1[other].entryID != id && b1[b1[other].entryID].entryID == "";
  }

  lemma NothingNewIsDoubled(base: Book, o: Order, b1: Book, b2: Book, p: real)
    requires Begun(base, o, b1, p) && Released(b1, b2, o.id, p)
    requires Advances(b1, b2) && b1[o.id].status == Filled
    ensures KeepsPairs(base, b2)
  {
    hide Paired, Clashes, Doubled, Triggered, Pendings, Orphans, Rivals, Advances, FillsBelow;
    forall i | i in Doubled(b2) && i in Paired(base)
      ensures i in Doubled(base) || i in Clashes(base)
    {
      PairIsThere(b1, i);
      if i == o.id || b1[i].siblingID == o.id {
        SiblingIsNotBelow(b1, b2, o.id, i);
      }
      assert i in Doubled(b2) * Paired(b1);
      assert i in Doubled(b1) ==> i in Doubled(b1) * Paired(base);
    }
  }

  lemma PairIsThere(b: Book, i: string)
    requires i in Paired(b)
    ensures i in b
  {
  }

  /** The three moves together leave nothing new unfinished. */
  lemma FillSettles(base: Book, o: Order, b1: Book, b2: Book, b3: Book, p: real)
    requires Begun(base, o, b1, p) && Released(b1, b2, o.id, p) && Decided(b2, b3, o)
    requires Advances(b1, b2) && b1[o.id].status == Filled && b1[o.id].siblingID == o.siblingID
    requires "" !in b2
    ensures Calmer(base, b3, p) && o.id !in Triggered(b3, p)
    ensures KeepsPairs(base, b3) && FillsBelow(b1, b3, o.id)
  {
    hide WouldFill, Paired, Clashes, Doubled, Triggered, Pendings, Orphans, Rivals, ClashesWith;
    DecidedFillsNothing(b1, b2, b3, o);
    hide Decided, FillsBelow;
    assert SameTerms(b1[o.id], b2[o.id]);
    DecidedCalms(b2, b3, o, p);
    NothingNewIsLeft(base, o, b1, b2, b3, p);
    NothingNewIsDoubled(base, o, b1, b2, p);
  }

  lemma DecidedFillsNothing(b1: Book, b2: Book, b3: Book, o: Order)
    requires FillsBelow(b1, b2, o.id) && Decided(b2, b3, o)
    ensures FillsBelow(b1, b3, o.id)
  {
  }

  /** Activating a leg leaves nothing new unfinished but the leg itself, if marketable. */
  lemma ActivateMove(b: Book, c: Order, p: real)
    requires c.id in b && b[c.id] == c && c.status == Pending
    ensures var b1 := b[c.id := c.(status := Resting)];
            && b1.Keys == b.Keys
            && Triggered(b1, p) <= Triggered(b, p) + (if WouldFill(c, p) then {c.id} else {})
            && Pendings(b1) == Pendings(b) - {c.id}
            && Orphans(b1) <= Orphans(b) - {c.id}
            && Rivals(b1) <= Rivals(b)
            && Doubled(b1) <= Doubled(b)
            && Clashes(b1) <= Clashes(b)
            && Paired(b1) == Paired(b)
  {
    hide WouldFill, Paired;
    StatusIsNoTerm(c, Resting, p);
    var b1 := b[c.id := c.(status := Resting)];
    assert Rivals(b1) <= Rivals(b);
    hide Rivals, Triggered, Orphans, Doubled, Pendings, Clashes;
    SamePairs(b, b1);
  }

  /** Halfway through the legs: those of the entry that are not in todo have left Pending. */
  ghost predicate Releasing(b: Book, cur: Book, entryID: string, p: real, todo: set<string>) {
    && Calmer(b, cur, p) && Advances(b, cur)
    && (forall id | id in Orphans(cur) && cur[id].entryID == entryID :: id in todo)
    && KeepsPairs(b, cur)
    && FillsBelow(b, cur, entryID)
  }

  lemma ReleasingStarts(b: Book, entryID: string, p: real)
    ensures Releasing(b, b, entryID, p, b.Keys)
  {
    hide WouldFill, Paired, Clashes;
  }

  lemma ReleasingEnds(b: Book, cur: Book, entryID: string, p: real)
    requires Releasing(b, cur, entryID, p, {})
    ensures Released(b, cur, entryID, p)
  {
    hide WouldFill, Paired, Clashes;
  }

  lemma ReleasingSkips(b: Book, cur: Book, entryID: string, p: real, todo: set<string>, id: string)
    requires Releasing(b, cur, entryID, p, todo) && id in cur
    requires cur[id].entryID != entryID || cur[id].status != Pending
    ensures Releasing(b, cur, entryID, p, todo - {id})
  {
    hide WouldFill, Paired, Clashes;
  }

  lemma PendingsShrink(b: Book, cur: Book, entryID: string, p: real, todo: set<string>)
    requires Releasing(b, cur, entryID, p, todo)
    ensures Pendings(cur) <= Pendings(b)
  {
    hide WouldFill, Paired, Clashes;
  }

  /** Each recursive fill happens after one more order has left Pending. */
  lemma PendingsDrop(b: Book, c: Order)
    requires c.id in b && b[c.id] == c && c.status == Pending
    ensures Pendings(b[c.id := c.(status := Resting)]) < Pendings(b)
  {
    assert c.id in Pendings(b) && c.id !in Pendings(b[c.id := c.(status := Resting)]);
  }

  /** One more leg c is activated; if marketable it is filled, which leads to next. */
  lemma ReleasingMoves(b: Book, cur: Book, entryID: string, p: real, todo: set<string>, c: Order, next: Book)
    requires Releasing(b, cur, entryID, p, todo) && entryID != ""
    requires c.id in cur && cur[c.id] == c && c.status == Pending && c.entryID == entryID
    requires Advances(b, next)
    requires var b1 := cur[c.id := c.(status := Resting)];
             if WouldFill(c, p) then
               && Calmer(b1, next, p) && c.id !in Triggered(next, p)
               && KeepsPairs(b1, next) && FillsBelow(cur[c.id := c.(status := Filled)], next, c.id)
             else next == b1
    ensures Releasing(b, next, entryID, p, todo - {c.id}) && next.Keys == b.Keys
  {
    hide WouldFill, Paired, Clashes, Triggered, Pendings, Rivals, Doubled, FillsBelow;
    ActivateMove(cur, c, p);
    ReleasedDoubles(b, cur, entryID, p, todo, c, next);
    ReleasedFills(b, cur, entryID, p, todo, c, next);
    ReleasedTriggers(b, cur, c, next, p);
    assert SameTerms(b[c.id], cur[c.id]);
    forall id | id in Orphans(next)
      ensures id in Orphans(cur) && id != c.id && next[id].entryID == cur[id].entryID
    {
      assert SameTerms(b[id], next[id]) && SameTerms(b[id], cur[id]);
    }
  }

  /** What the fill of a leg sets off is a leg of that leg, or further down. */
  lemma ReleasedFills(b: Book, cur: Book, entryID: string, p: real, todo: set<string>, c: Order, next: Book)
    requires Releasing(b, cur, entryID, p, todo) && entryID != "" && cur.Keys == b.Keys
    requires c.id in cur && cur[c.id] == c && c.status == Pending && c.entryID == entryID
    requires if WouldFill(c, p) then FillsBelow(cur[c.id := c.(status := Filled)], next, c.id)
             else next == cur[c.id := c.(status := Resting)]
    ensures FillsBelow(b, next, entryID)
  {
    hide WouldFill, Paired, Clashes, Triggered, Pendings, Rivals, Doubled, Orphans, KeepsPairs;
    assert forall id | id in b :: SameTerms(b[id], cur[id]);
  }

  /** Only the activated leg was newly triggered, and it is not any more. */
  lemma ReleasedTriggers(b: Book, cur: Book, c: Order, next: Book, p: real)
    requires Calmer(b, cur, p) && c.id in cur && cur[c.id] == c && c.status == Pending
    requires var b1 := cur[c.id := c.(status := Resting)];
             if WouldFill(c, p) then Calmer(b1, next, p) && c.id !in Triggered(next, p) else next == b1
    ensures Triggered(next, p) <= Triggered(b, p)
  {
    hide WouldFill, Paired, Clashes, Orphans, Rivals, Doubled, Pendings;
    ActivateMove(cur, c, p);
    hide Triggered;
  }

  /** Neither the activation nor the fill doubles a bracket. */
  lemma ReleasedDoubles(b: Book, cur: Book, entryID: string, p: real, todo: set<string>, c: Order, next: Book)
    requires Releasing(b, cur, entryID, p, todo)
    requires c.id in cur && cur[c.id] == c && c.status == Pending && c.entryID == entryID
    requires var b1 := cur[c.id := c.(status := Resting)];
             if WouldFill(c, p) then KeepsPairs(b1, next) else next == b1
    ensures KeepsPairs(b, next)
  {
    hide WouldFill, Paired, Clashes, Orphans, Rivals, Doubled, Pendings, Triggered;
    ActivateMove(cur, c, p);
    PairsKept(b, cur);
    assert SameTerms(b[c.id], cur[c.id]);
  }

  /** Where no new rival appears, no new pair clashes. */
  lemma PairsKept(b: Book, b': Book)
    requires Advances(b, b') && b'.Keys == b.Keys && Rivals(b') <= Rivals(b)
    ensures Paired(b') == Paired(b) && Clashes(b') * Paired(b) <= Clashes(b)
  {
    AdvancedOrders(b, b');
    SamePairs(b, b');
    forall id | id in Clashes(b') && id in Paired(b)
      ensures id in Clashes(b)
    {
      assert SameTerms(b[id], b'[id]);
      assert id in Rivals(b') || b'[id].siblingID in Rivals(b');
    }
    hide Clashes, Paired;
  }

  lemma MayActivate(token: string, log: seq<Event>, c: Order)
    requires Lawful(token, log) && c.id in BookOf(log) && BookOf(log)[c.id] == c && c.status == Pending
    requires c.entryID in BookOf(log) && BookOf(log)[c.entryID].status == Filled
    ensures Admits(token, BookOf(log), LedgerOf(log), Activated(c.(status := Resting)))
    ensures Sound(token, c.(status := Resting))
  {
    hide ApplyFill, WouldFill;
    BookIsSound(token, log);
  }

  lemma NoBlankID(token: string, log: seq<Event>)
    requires Lawful(token, log)
    ensures "" !in BookOf(log)
  {
    hide Lawful, BookOf, Validate;
    BookIsSound(token, log);
  }

  lemma SoundIfValid(token: string, o: Order)
    requires o.id != "" && o.token == token && Validate(o).Pass?
    ensures Sound(token, o.(status := Resting))
  {
  }

  lemma MayAccept(token: string, log: seq<Event>, o: Order)
    requires o.id != "" && o.token == token && Validate(o).Pass? && o.id !in BookOf(log)
    requires (o.status == Resting && Standalone(o)) || (o.status == Pending && o.entryID != "" && o.siblingID != "")
    ensures Admits(token, BookOf(log), LedgerOf(log), Accepted(o))
  {
    hide ApplyFill, WouldFill, Validate;
  }

  lemma ReactsNot(past: set<string>, log: seq<Event>, p: real)
    ensures Reacts(past, log, log, p)
  {
  }

  lemma ReactsOnce(past: set<string>, log: seq<Event>, e: Event, p: real)
    requires Reaction(past, e, p)
    ensures Reacts(past, log, log + [e], p)
  {
    hide Reaction;
  }

  lemma ReactsTwice(past: set<string>, later: set<string>, a: seq<Event>, b: seq<Event>, c: seq<Event>, p: real)
    requires Reacts(past, a, b, p) && Reacts(later, b, c, p) && past <= later
    ensures Reacts(past, a, c, p)
  {
  }

  /** The three parts of a fill: its own event, what its legs do, and the end of its sibling. */
  lemma FillReacts(past: set<string>, pre: seq<Event>, e: Event, later: set<string>,
                   mid: seq<Event>, log: seq<Event>, p: real)
    requires e.Executed? && e.fill.price == p && e.order.id !in past && past <= later
    requires Reacts(later, pre + [e], mid, p)
    requires log == mid || (|log| == |mid| + 1 && log == mid + [log[|mid|]]
                            && log[|mid|].Superseded? && log[|mid|].winner == e.order.id)
    ensures Reacts(past, pre, log, p) && pre < log && log[|pre|] == e
  {
  }

  /** Filling one more order adds it, and only it, to those that have filled. */
  lemma FillsGrow(b: Book, o: Order)
    requires o.id in b ==> b[o.id].status != Filled
    ensures Fills(b[o.id := o.(status := Filled)]) - {o.id} == Fills(b) && o.id !in Fills(b)
  {
  }

  lemma Advanced(token: string, past: set<string>, log: seq<Event>, log': seq<Event>, p: real)
    requires Lawful(token, log') && Reacts(past, log, log', p)
    ensures Advances(BookOf(log), BookOf(log')) && Fills(BookOf(log)) <= Fills(BookOf(log'))
  {
    hide Lawful, BookOf;
    StatusesOnlyAdvance(token, log', |log|);
    assert log'[..|log|] == log;
  }

  /** One round of the loop over the legs: c is activated, and filled if marketable. */
  lemma LegReleased(token: string, start: seq<Event>, mid: seq<Event>, log: seq<Event>, entryID: string, p: real,
                    todo: set<string>, c: Order)
    requires Lawful(token, mid) && Lawful(token, log) && Reacts(Fills(BookOf(start)) - {entryID}, start, mid, p)
    requires var b, cur := BookOf(start), BookOf(mid);
             && Releasing(b, cur, entryID, p, todo) && entryID != "" && entryID in b && b[entryID].status == Filled
             && c.id in cur && cur[c.id] == c && c.status == Pending && c.entryID == entryID
    requires var active := mid + [Activated(c.(status := Resting))];
             if WouldFill(c, p) then
               && Lawful(token, active) && Cascade(BookOf(active), active, log, p)
               && c.id !in Triggered(BookOf(log), p)
               && FillsBelow(BookOf(mid)[c.id := c.(status := Filled)], BookOf(log), c.id)
             else log == active
    ensures Reacts(Fills(BookOf(start)) - {entryID}, start, log, p)
    ensures Releasing(BookOf(start), BookOf(log), entryID, p, todo - {c.id})
    ensures BookOf(log).Keys == BookOf(start).Keys && BookOf(log)[entryID] == BookOf(start)[entryID]
  {
    hide Lawful, BookOf, LedgerOf, WouldFill, KeepsPairs, Clashes, Doubled, Triggered, Calmer, Releasing;
    hide Advances, Reacts, Fills;
    var e := Activated(c.(status := Resting));
    var active := mid + [e];
    var past := Fills(BookOf(start)) - {entryID};
    Grow(token, mid, e);
    ReactsOnce(past, mid, e, p);
    ReactsTwice(past, past, start, mid, active, p);
    if WouldFill(c, p) {
      Advanced(token, past, start, active, p);
      ReactsTwice(past, Fills(BookOf(active)), start, active, log, p);
    }
    Advanced(token, past, start, log, p);
    FilledStays(BookOf(start), BookOf(log), entryID);
    ReleasingMoves(BookOf(start), BookOf(mid), entryID, p, todo, c, BookOf(log));
  }

  // ---------- the loop of a tick ----------

  lemma TickStarts(b: Book, log: seq<Event>, p: real)
    requires BookOf(log) == b
    ensures Cascade(b, log, log, p) && Triggered(b, p) <= b.Keys
  {
    hide WouldFill, BookOf;
  }

  lemma NotTriggered(b: Book, p: real, id: string)
    requires id in b && (b[id].status != Resting || !WouldFill(b[id], p))
    ensures id !in Triggered(b, p)
  {
  }

  /** Two cascades in a row, the second from where the first left the book. */
  lemma TickMoves(token: string, b: Book, start: seq<Event>, mid: seq<Event>, log: seq<Event>, p: real)
    requires BookOf(start) == b && Lawful(token, mid)
    requires Cascade(b, start, mid, p) && Cascade(BookOf(mid), mid, log, p)
    ensures Cascade(b, start, log, p) && BookOf(log).Keys == b.Keys && start <= log
    ensures Triggered(BookOf(log), p) <= Triggered(BookOf(mid), p)
  {
    hide WouldFill, Lawful, BookOf, Paired;
    Advanced(token, Fills(b), start, mid, p);
    ReactsTwice(Fills(b), Fills(BookOf(mid)), start, mid, log, p);
    PairsKept(b, BookOf(mid));
  }

  lemma StoredRests(b: Book, o: Order)
    requires o.id in b && b[o.id] == o && o.status == Resting
    ensures Rested(b, o) == b
  {
  }

  lemma TickIsNext(s: State, ltp: real, s': State)
    requires Lawful(s'.token, s'.log) && s'.token == s.token && s'.price == Some(ltp) && s.log <= s'.log
    requires Cascade(BookOf(s.log), s.log, s'.log, ltp) && Triggered(BookOf(s'.log), ltp) == {}
    ensures Next(s, Tick(ltp), s', NoReply)
  {
    hide Lawful, BookOf, Cascade, Triggered;
  }

  lemma CascadeKeys(base: Book, log: seq<Event>, log': seq<Event>, p: real)
    requires Cascade(base, log, log', p)
    ensures BookOf(log').Keys == base.Keys
  {
    hide WouldFill, BookOf, KeepsPairs, Clashes;
  }

  // ---------- the outcomes of placing a bracket ----------

  /** The first of some IDs that the book already knows. */
  function FirstIn(b: Book, ids: seq<string>): Option<string> {
    if ids == [] then None else if ids[0] in b then Some(ids[0]) else FirstIn(b, ids[1..])
  }

  lemma FirstOfThree(b: Book, x: string, y: string, z: string)
    ensures FirstIn(b, [x, y, z]) ==
            if x in b then Some(x) else if y in b then Some(y) else if z in b then Some(z) else None
  {
    assert [z][1..] == [];
    assert FirstIn(b, [z]) == if z in b then Some(z) else None;
    assert [y, z][1..] == [z];
    assert FirstIn(b, [y, z]) == if y in b then Some(y) else FirstIn(b, [z]);
    assert [x, y, z][1..] == [y, z];
  }

  lemma BracketRejected(s: State, entry: Order, target: Order, stop: Order, why: Reason)
    requires Lawful(s.token, s.log) && BracketVerdict(s.token, BookOf(s.log), entry, target, stop) == Fail(why)
    ensures Next(s, PlaceBracket(entry, target, stop), s,
                 BracketReply(Rejected, entry, target, stop, None, Some(why)))
  {
    hide Lawful, BookOf, BracketVerdict;
  }

  lemma BracketRested(s: State, entry: Order, target: Order, stop: Order, s': State)
    requires BracketVerdict(s.token, BookOf(s.log), entry, target, stop).Pass? && !Marketable(s.price, entry)
    requires Lawful(s.token, s'.log)
    requires s' == s.(log := LegsStored(s.log, entry, target, stop) + [Accepted(entry.(status := Resting))])
    ensures Next(s, PlaceBracket(entry, target, stop), s',
                 BracketReply(NowResting, entry.(status := Resting), LinkLeg(target, entry, stop),
                              LinkLeg(stop, entry, target), None, None))
  {
    hide Lawful, BookOf, BracketVerdict, WouldFill;
  }

  lemma BracketFilled(s: State, entry: Order, target: Order, stop: Order, s': State)
    requires BracketVerdict(s.token, BookOf(s.log), entry, target, stop).Pass? && Marketable(s.price, entry)
    requires Lawful(s.token, s'.log) && s'.token == s.token && s'.price == s.price
    requires FillsNow(s.token, LegsStored(s.log, entry, target, stop), s.price, entry, s'.log)
    requires target.id in BookOf(s'.log) && stop.id in BookOf(s'.log)
    ensures Next(s, PlaceBracket(entry, target, stop), s',
                 BracketReply(FilledNow, entry.(status := Filled), BookOf(s'.log)[target.id], BookOf(s'.log)[stop.id],
                              Some(FillFor(entry, s.price.value)), None))
  {
    hide Lawful, BookOf, LedgerOf, BracketVerdict, WouldFill, Cascade, ApplyFill;
  }
}
