/**
 * The single-writer actor of one instrument (internal/instrument/actor_state.go, bracket.go,
 * actor.go).  Ranging over a Go map is modelled as visiting every key once, in an arbitrary
 * order, and reading the value at the time of the visit; no key is added or removed while
 * the program ranges.
 */
module Actor {
  import opened Wrappers
  import opened Orders
  import opened Ledger
  import opened Journal
  import opened Settlement
  import opened Protocol
  import opened Storage
  import opened Durability
  import opened Moves
  import opened Runs
  import opened Histories

  /** The first of some IDs that the book already knows. */
  method FirstKnown(b: Book, ids: seq<string>) returns (known: Option<string>)
    ensures known == FirstIn(b, ids)
  {
    for i := 0 to |ids|
      invariant FirstIn(b, ids) == FirstIn(b, ids[i..])
    {
      if ids[i] in b {
        return Some(ids[i]);
      }
    }
    return None;
  }

  /** The orders listed so far, and no others, are in the copy. */
  ghost predicate Copied(listed: seq<Order>, b: Book, copy: map<string, Order>) {
    && (forall i | 0 <= i < |listed| :: listed[i].id in copy)
    && (forall id | id in copy :: id in b && copy[id] == b[id])
  }

  lemma CopyOneMore(listed: seq<Order>, i: nat, b: Book, copy: map<string, Order>)
    requires Enumerates(listed, b) && i < |listed| && Copied(listed[..i], b, copy)
    ensures Copied(listed[..i + 1], b, copy[listed[i].id := listed[i]])
  {
    assert listed[i].id in b && b[listed[i].id] == listed[i];
    hide Enumerates;
    assert forall j | 0 <= j < i :: listed[..i + 1][j] == listed[..i][j];
  }

  lemma CopiedAll(listed: seq<Order>, b: Book, copy: map<string, Order>)
    requires Enumerates(listed, b) && Copied(listed, b, copy) && forall id | id in b :: b[id].id == id
    ensures copy == b
  {
    forall id | id in b
      ensures id in copy
    {
      assert b[id] in listed;
    }
  }

  class ActorState {
    const token: string
    const store: OrderStore?
    var position: Position
    var lastLTP: real
    var hasLTP: bool
    var orders: map<string, Order>
    ghost var log: seq<Event>

    ghost function Disk(): set<object> {
      if store == null then {} else {store}
    }

    /** The disk holds this actor's writes, in order. */
    ghost predicate OnDisk()
      reads this`log, Disk()
    {
      store != null ==> store.Valid() && WritesFor(store.journal, token) == WritesOf(log)
    }

    ghost predicate Valid()
      reads this, Disk()
    {
      && Lawful(token, log) && orders == BookOf(log) && position == LedgerOf(log)
      && (!hasLTP ==> lastLTP == 0.0)
      && OnDisk()
    }

    ghost function View(): State
      reads this
    {
      State(token, log, if hasLTP then Some(lastLTP) else None)
    }

    /** Only this instrument's writes were added to the disk. */
    twostate predicate DiskGrows()
      reads this, Disk()
    {
      store != null ==>
        && old(store.journal) <= store.journal
        && forall t | t != token :: WritesFor(store.journal, t) == old(WritesFor(store.journal, t))
    }

    constructor (token: string, store: OrderStore?)
      ensures IsBlank() && this.store == store && this.token == token
    {
      this.token, this.store := token, store;
      position, lastLTP, hasLTP, orders, log := FLAT, 0.0, false, map[], [];
    }

    ghost predicate IsBlank()
      reads this
    {
      position == FLAT && lastLTP == 0.0 && !hasLTP && orders == map[] && log == []
    }

    /** Takes over the orders and position of a history; the price is left unknown. */
    method Restore(seed: InitialState, ghost history: seq<Event>)
      requires IsBlank() && Lawful(token, history) && Seeds(seed, history)
      requires store != null ==> store.Valid() && WritesFor(store.journal, token) == WritesOf(history)
      modifies this`position, this`orders, this`log
      ensures Valid() && View() == State(token, history, None)
    {
      hide Lawful, BookOf, LedgerOf, Durable, Enumerates, WritesFor, WritesOf;
      position := seed.position;
      ghost var b := BookOf(history);
      for i := 0 to |seed.orders|
        invariant position == seed.position && Copied(seed.orders[..i], b, orders)
      {
        var o := seed.orders[i];
        CopyOneMore(seed.orders, i, b, orders);
        orders := orders[o.id := o];
      }
      log := history;
      BookIsSound(token, history);
      assert seed.orders[..|seed.orders|] == seed.orders;
      CopiedAll(seed.orders, b, orders);
    }

    /** The memory is one event ahead of the log. */
    ghost predicate Ahead(e: Event)
      reads this, Disk()
    {
      && Lawful(token, log) && Admits(token, BookOf(log), LedgerOf(log), e)
      && orders == BookOf(log)[e.order.id := e.order]
      && position == (if e.Executed? then e.position else LedgerOf(log))
      && (!hasLTP ==> lastLTP == 0.0)
      && OnDisk()
    }

    method PersistOrder(o: Order, ghost e: Event)
      requires Ahead(e) && e.order == o && !e.Executed?
      modifies this`log, Disk()
      ensures Valid() && log == old(log) + [e] && DiskGrows()
    {
      hide Lawful, BookOf, LedgerOf, Durable, Admits, ApplyFill, WouldFill, Validate, Sound, WritesFor, WritesOf;
      Grow(token, log, e);
      GrowWrites(log, e);
      EventIsSound(token, BookOf(log), LedgerOf(log), e);
      if store != null {
        ghost var journal := store.journal;
        store.SaveOrder(o);
        forall t { GrowJournal(journal, OrderWrite(o), t); }
      }
      log := log + [e];
    }

    method PersistFill(o: Order, pos: Position, ghost e: Event)
      requires Ahead(e) && e.order == o && e.Executed? && e.position == pos
      modifies this`log, Disk()
      ensures Valid() && log == old(log) + [e] && DiskGrows()
    {
      hide Lawful, BookOf, LedgerOf, Durable, Admits, ApplyFill, WouldFill, Validate, Sound, WritesFor, WritesOf;
      Grow(token, log, e);
      GrowWrites(log, e);
      EventIsSound(token, BookOf(log), LedgerOf(log), e);
      if store != null {
        ghost var journal := store.journal;
        store.SaveFillTransition(o, pos);
        forall t { GrowJournal(journal, FillWrite(o, pos), t); }
      }
      log := log + [e];
    }

    /** Marks o filled, applies the fill, activates o's legs, then cancels o's sibling. */
    method FillOrder(o: Order, price: real) returns (filled: Order, fill: Fill)
      requires Valid() && hasLTP && price == lastLTP
      requires Sound(token, o.(status := Resting)) && WouldFill(o, price)
      requires if o.id in orders then orders[o.id] == o && o.status == Resting else Standalone(o)
      modifies this`position, this`orders, this`log, Disk()
      ensures Valid() && DiskGrows()
      ensures filled == o.(status := Filled) && fill == FillFor(o, price)
      ensures old(log) < log && log[|old(log)|] == Executed(filled, fill, ApplyFill(old(position), fill))
      ensures Cascade(Rested(old(orders), o), old(log), log, price)
      ensures o.id !in Triggered(orders, price)
      ensures FillsBelow(old(orders)[o.id := filled], orders, o.id)
      decreases Pendings(orders), 2
    {
      hide Lawful, BookOf, LedgerOf, OnDisk, ApplyFill, WouldFill, Validate;
      hide Triggered, Pendings, Rivals, Orphans, Doubled, KeepsPairs, Clashes, Begun, Released, Decided, Calmer;
      hide Advances, Reacts, Fills, FillsBelow;
      ghost var pre, base, past := log, Rested(orders, o), Fills(orders);
      BookIsSound(token, log);
      FillMove(orders, o, price);
      FillsGrow(orders, o);
      StatusIsNoTerm(o, Filled, price);

      fill := FillFor(o, price);
      position := ApplyFill(position, fill);
      filled := o.(status := Filled);
      orders := orders[o.id := filled];
      ghost var e := Executed(filled, fill, position);
      PersistFill(filled, position, e);
      ghost var b1, log1 := orders, log;

      ActivateChildrenOf(o.id);
      ghost var b2, log2 := orders, log;
      Advanced(token, Fills(b1) - {o.id}, log1, log2, price);
      FilledStays(b1, b2, o.id);
      BookIsSound(token, log);

      CancelSiblingOf(filled);
      FillSettles(base, filled, b1, b2, orders, price);
      FillReacts(past, pre, e, Fills(b1) - {o.id}, log2, log, price);
    }

    /** Turns the pending legs of an entry into resting orders, filling those already marketable. */
    method ActivateChildrenOf(entryID: string)
      requires Valid() && hasLTP && entryID in orders && orders[entryID].status == Filled
      modifies this`position, this`orders, this`log, Disk()
      ensures Valid() && DiskGrows()
      ensures Reacts(old(Fills(orders)) - {entryID}, old(log), log, lastLTP)
      ensures Released(old(orders), orders, entryID, lastLTP)
      decreases Pendings(orders), 1
    {
      hide Lawful, BookOf, LedgerOf, OnDisk, ApplyFill, WouldFill, Validate, Sound, Admits;
      hide Triggered, Pendings, Rivals, Orphans, Doubled, KeepsPairs, Clashes, Releasing, Released, Calmer;
      hide Advances, Reacts, Cascade, Fills, FillsBelow;
      ghost var b, start := orders, log;
      var ids := orders.Keys;
      NoBlankID(token, log);
      ReleasingStarts(b, entryID, lastLTP);
      ghost var past := Fills(b) - {entryID};
      ReactsNot(past, log, lastLTP);
      while ids != {}
        invariant Valid() && DiskGrows() && hasLTP
        invariant Reacts(past, start, log, lastLTP) && ids <= orders.Keys && orders.Keys == b.Keys
        invariant Releasing(b, orders, entryID, lastLTP, ids) && orders[entryID] == b[entryID]
        decreases |ids|
      {
        var id :| id in ids;
        var o := orders[id];
        BookIsSound(token, log);
        if o.entryID != entryID || o.status != Pending {
          ReleasingSkips(b, orders, entryID, lastLTP, ids, id);
          ids := ids - {id};
          continue;
        }
        ghost var mid := log;
        PendingsShrink(b, orders, entryID, lastLTP, ids);
        Activate(o);
        LegReleased(token, start, mid, log, entryID, lastLTP, ids, o);
        ids := ids - {id};
      }
      ReleasingEnds(b, orders, entryID, lastLTP);
    }

    /** One leg: resting now, and filled if the price is right. */
    method Activate(leg: Order)
      requires Valid() && hasLTP && leg.id in orders && orders[leg.id] == leg && leg.status == Pending
      requires leg.entryID in orders && orders[leg.entryID].status == Filled
      modifies this`position, this`orders, this`log, Disk()
      ensures Valid() && DiskGrows()
      ensures var active := old(log) + [Activated(leg.(status := Resting))];
              if WouldFill(leg, lastLTP) then
                && Lawful(token, active) && Cascade(BookOf(active), active, log, lastLTP)
                && leg.id !in Triggered(orders, lastLTP)
                && FillsBelow(old(orders)[leg.id := leg.(status := Filled)], orders, leg.id)
              else log == active
      decreases Pendings(orders), 0
    {
      hide Lawful, BookOf, LedgerOf, OnDisk, ApplyFill, WouldFill, Validate, Sound, Admits, Cascade;
      hide Triggered, Pendings;
      ghost var b := orders;
      BookIsSound(token, log);
      MayActivate(token, log, leg);
      StatusIsNoTerm(leg, Resting, lastLTP);
      PendingsDrop(b, leg);
      var o := leg.(status := Resting);
      orders := orders[o.id := o];
      PersistOrder(o, Activated(o));
      if hasLTP && WouldFill(o, lastLTP) {
        assert Rested(orders, o) == orders;
        var _, _ := FillOrder(o, lastLTP);
      }
    }

    /** One cancels the other. */
    method CancelSiblingOf(o: Order)
      requires Valid() && o.id in orders && orders[o.id] == o && o.status == Filled
      modifies this`orders, this`log, Disk()
      ensures Valid() && DiskGrows()
      ensures Decided(old(orders), orders, o)
      ensures if orders == old(orders) then log == old(log)
              else o.siblingID in orders && log == old(log) + [Superseded(orders[o.siblingID], o.id)]
    {
      hide Lawful, BookOf, LedgerOf, OnDisk, ApplyFill, WouldFill, Validate;
      if o.siblingID == "" {
        return;
      }
      if o.siblingID !in orders {
        return;
      }
      BookIsSound(token, log);
      var sibling := orders[o.siblingID];
      if sibling.status != Resting && sibling.status != Pending {
        return;
      }
      sibling := sibling.(status := Cancelled);
      orders := orders[sibling.id := sibling];
      PersistOrder(sibling, Superseded(sibling, o.id));
    }

    /** Rejects, fills at once, or rests a standalone order. */
    method HandlePlaceOrder(m: Order) returns (r: Reply)
      requires Valid() && Admissible(PlaceOrder(m))
      modifies this`position, this`orders, this`log, Disk()
      ensures Valid() && DiskGrows()
      ensures Next(old(View()), PlaceOrder(m), View(), r)
    {
      hide Lawful, BookOf, LedgerOf, OnDisk, ApplyFill, WouldFill, Cascade, FillsBelow;
      var o := m;
      var v := Validate(o);
      if v.Fail? {
        return OrderReply(Rejected, o, None, Some(v.error));
      }
      if o.token != token {
        return OrderReply(Rejected, o, None, Some(WrongToken));
      }
      if o.id in orders {
        return OrderReply(Rejected, o, None, Some(DuplicateID(o.id)));
      }
      if hasLTP && WouldFill(o, lastLTP) {
        var filled, fill := FillOrder(o, lastLTP);
        return OrderReply(FilledNow, filled, Some(fill), None);
      }
      o := o.(status := Resting);
      orders := orders[o.id := o];
      PersistOrder(o, Accepted(o));
      r := OrderReply(NowResting, o, None, None);
    }

    /** Only a resting or pending order can still be cancelled; its sibling is left alone. */
    method HandleCancelOrder(orderID: string) returns (r: Reply)
      requires Valid()
      modifies this`orders, this`log, Disk()
      ensures Valid() && DiskGrows()
      ensures Next(old(View()), CancelOrder(orderID), View(), r)
    {
      hide Lawful, BookOf, LedgerOf, OnDisk, ApplyFill, WouldFill, Validate;
      if orderID !in orders {
        return CancelReply(NotFound, None);
      }
      BookIsSound(token, log);
      var o := orders[orderID];
      match o.status
      case Resting | Pending =>
        o := o.(status := Cancelled);
        orders := orders[o.id := o];
        PersistOrder(o, Withdrawn(o));
        r := CancelReply(CancelledNow, Some(o));
      case Filled =>
        r := CancelReply(AlreadyFilled, Some(o));
      case Cancelled =>
        r := CancelReply(AlreadyCancelled, Some(o));
    }

    /**
     * Fills every resting order that the price crosses.  From a consistent book the result is
     * the closed form, whatever the order of iteration.
     */
    method HandleTick(ltp: real) returns (r: Reply)
      requires Valid()
      modifies this`position, this`orders, this`log, this`lastLTP, this`hasLTP, Disk()
      ensures Valid() && DiskGrows()
      ensures Next(old(View()), Tick(ltp), View(), r)
      ensures old(Linked(orders) && Consistent(orders)) ==> Settled(old(orders), ltp, orders)
    {
      hide Lawful, BookOf, LedgerOf, OnDisk, ApplyFill, WouldFill, Validate, Sound, Cascade, Next, Rested;
      hide Pendings, Rivals, Orphans, KeepsPairs, Calmer, Triggered, Reacts, Linked, Consistent, Settled, Fills;
      hide Doubled, Clashes, FillsBelow;
      ghost var s, b, start := View(), orders, log;
      lastLTP := ltp;
      hasLTP := true;
      var ids := orders.Keys;
      TickStarts(b, start, ltp);
      while ids != {}
        invariant Valid() && DiskGrows() && hasLTP && lastLTP == ltp
        invariant Cascade(b, start, log, ltp) && start <= log
        invariant orders.Keys == b.Keys && ids <= b.Keys && Triggered(orders, ltp) <= ids
        decreases |ids|
      {
        var id :| id in ids;
        var o := orders[id];
        BookIsSound(token, log);
        if o.status != Resting {
          NotTriggered(orders, ltp, id);
          ids := ids - {id};
          continue;
        }
        if WouldFill(o, ltp) {
          ghost var mid := log;
          StoredRests(orders, o);
          var _, _ := FillOrder(o, ltp);
          TickMoves(token, b, start, mid, log, ltp);
        } else {
          NotTriggered(orders, ltp, id);
        }
        ids := ids - {id};
      }
      r := NoReply;
      TickIsNext(s, ltp, View());
      if Linked(b) && Consistent(b) {
        TickSettles(token, start, log, ltp);
      }
    }

    method HandleSnapshot() returns (r: Reply)
      requires Valid()
      ensures Next(View(), TakeSnapshot, View(), r)
    {
      hide Lawful, BookOf, LedgerOf, OnDisk, ApplyFill, WouldFill, Validate, Enumerates;
      BookIsSound(token, log);
      var listed := ListOrders(orders);
      r := SnapshotReply(token, position, lastLTP, listed);
    }

    /** Links the legs to each other and to the entry, and stores both as pending. */
    method StoreLegs(entry: Order, targetLeg: Order, stopLeg: Order) returns (target: Order, stop: Order)
      requires Valid() && entry.id != "" && targetLeg.id != "" && stopLeg.id != "" && targetLeg.id != stopLeg.id
      requires targetLeg.token == stopLeg.token == token && Validate(targetLeg).Pass? && Validate(stopLeg).Pass?
      requires targetLeg.id !in orders && stopLeg.id !in orders
      modifies this`orders, this`log, Disk()
      ensures Valid() && DiskGrows()
      ensures target == LinkLeg(targetLeg, entry, stopLeg) && stop == LinkLeg(stopLeg, entry, targetLeg)
      ensures target == targetLeg.(entryID := entry.id, siblingID := stopLeg.id, status := Pending)
      ensures stop == stopLeg.(entryID := entry.id, siblingID := targetLeg.id, status := Pending)
      ensures log == LegsStored(old(log), entry, targetLeg, stopLeg)
      ensures orders == old(orders)[target.id := target][stop.id := stop]
    {
      hide Lawful, BookOf, LedgerOf, OnDisk, ApplyFill, WouldFill, Validate, Admits, Sound;
      target := targetLeg.(entryID := entry.id, siblingID := stopLeg.id);
      stop := stopLeg.(entryID := entry.id, siblingID := target.id);
      target := target.(status := Pending);
      stop := stop.(status := Pending);

      MayAccept(token, log, target);
      orders := orders[target.id := target];
      PersistOrder(target, Accepted(target));
      MayAccept(token, log, stop);
      orders := orders[stop.id := stop];
      PersistOrder(stop, Accepted(stop));
    }

    /** Stores the legs as pending, then places the entry as a standalone order would be. */
    method HandlePlaceBracket(entry: Order, targetLeg: Order, stopLeg: Order) returns (r: Reply)
      requires Valid() && Admissible(PlaceBracket(entry, targetLeg, stopLeg))
      modifies this`position, this`orders, this`log, Disk()
      ensures Valid() && DiskGrows()
      ensures Next(old(View()), PlaceBracket(entry, targetLeg, stopLeg), View(), r)
    {
      hide Lawful, BookOf, LedgerOf, OnDisk, ApplyFill, WouldFill, Cascade, Validate;
      hide Next, SameTerms, Admits, Sound, FillsBelow;
      ghost var s := View();
      var v := ValidateBracket(entry, targetLeg, stopLeg);
      if v.Fail? {
        BracketRejected(s, entry, targetLeg, stopLeg, v.error);
        return BracketReply(Rejected, entry, targetLeg, stopLeg, None, Some(v.error));
      }
      hide ValidateBracket;
      if entry.token != token || targetLeg.token != token || stopLeg.token != token {
        BracketRejected(s, entry, targetLeg, stopLeg, WrongToken);
        return BracketReply(Rejected, entry, targetLeg, stopLeg, None, Some(WrongToken));
      }
      var known := FirstKnown(orders, [entry.id, targetLeg.id, stopLeg.id]);
      FirstOfThree(orders, entry.id, targetLeg.id, stopLeg.id);
      if known.Some? {
        BracketRejected(s, entry, targetLeg, stopLeg, DuplicateID(known.value));
        return BracketReply(Rejected, entry, targetLeg, stopLeg, None, Some(DuplicateID(known.value)));
      }
      var target, stop := StoreLegs(entry, targetLeg, stopLeg);

      if hasLTP && WouldFill(entry, lastLTP) {
        ghost var base, stored := Rested(orders, entry), log;
        SoundIfValid(token, entry);
        var filled, fill := FillOrder(entry, lastLTP);
        CascadeKeys(base, stored, log, lastLTP);
        r := BracketReply(FilledNow, filled, orders[target.id], orders[stop.id], Some(fill), None);
        BracketFilled(s, entry, targetLeg, stopLeg, View());
        return;
      }
      var resting := entry.(status := Resting);
      MayAccept(token, log, resting);
      orders := orders[resting.id := resting];
      PersistOrder(resting, Accepted(resting));
      r := BracketReply(NowResting, resting, target, stop, None, None);
      BracketRested(s, entry, targetLeg, stopLeg, View());
    }

    /** One message, run to completion. */
    method Handle(m: Message) returns (r: Reply)
      requires Valid() && Admissible(m)
      modifies this`position, this`orders, this`log, this`lastLTP, this`hasLTP, Disk()
      ensures Valid() && DiskGrows()
      ensures Next(old(View()), m, View(), r)
    {
      match m
      case PlaceOrder(o) => r := HandlePlaceOrder(o);
      case CancelOrder(id) => r := HandleCancelOrder(id);
      case Tick(ltp) => r := HandleTick(ltp);
      case TakeSnapshot => r := HandleSnapshot();
      case PlaceBracket(entry, target, stop) => r := HandlePlaceBracket(entry, target, stop);
    }
  }

  /** The actor's life: restore once, then one message at a time in the order received. */
  method Run(token: string, store: OrderStore?, seed: InitialState, inbox: seq<Message>, ghost history: seq<Event>)
    returns (actor: ActorState, replies: seq<Reply>, ghost states: seq<State>)
    requires Lawful(token, history) && Seeds(seed, history)
    requires store != null ==> store.Valid() && WritesFor(store.journal, token) == WritesOf(history)
    requires forall i | 0 <= i < |inbox| :: Admissible(inbox[i])
    modifies if store == null then {} else {store}
    ensures fresh(actor) && actor.token == token && actor.store == store && actor.Valid()
    ensures IsRun(states, inbox, replies)
    ensures states[0] == State(token, history, None) && states[|inbox|] == actor.View()
  {
    hide Lawful, Next, Admissible, WritesFor, WritesOf, Seeds;
    actor := new ActorState(token, store);
    actor.Restore(seed, history);
    replies, states := [], [actor.View()];
    for i := 0 to |inbox|
      invariant fresh(actor) && actor.token == token && actor.store == store && actor.Valid()
      invariant |replies| == i && |states| == i + 1
      invariant states[0] == State(token, history, None) && states[i] == actor.View()
      invariant forall k | 0 <= k < i :: Next(states[k], inbox[k], states[k + 1], replies[k])
    {
      var r := actor.Handle(inbox[i]);
      replies, states := replies + [r], states + [actor.View()];
    }
  }
}
