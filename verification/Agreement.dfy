/**
 * Any two runs of the actor over the same messages agree, however each of them ranges over its
 * map, up to which leg of a bracket won where both were marketable at once; and a restart is
 * invisible once a tick has come (internal/instrument/actor_state.go:43-56, 132-141, 177-205).
 */
module Agreement {
  import opened Wrappers
  import opened Orders
  import opened Ledger
  import opened Journal
  import opened Settlement
  import opened Protocol
  import opened Runs
  import opened Histories

  // ---------- books ----------

  /** One leg of the pair filled and the other was cancelled in each book, but not the same one. */
  predicate OtherLegWon(x: Book, y: Book, id: string) {
    id in x && id in y &&
    var sib := x[id].siblingID;
    && sib in x && sib in y && x[sib].status == y[id].status && y[sib].status == x[id].status
    && ((x[id].status == Filled && y[id].status == Cancelled) || (x[id].status == Cancelled && y[id].status == Filled))
  }

  /** The same orders on the same terms in the same states, except where the other leg won. */
  ghost predicate Alike(x: Book, y: Book) {
    SameOrders(x, y) && forall id | id in x && x[id] != y[id] :: OtherLegWon(x, y, id)
  }

  lemma AlikeItself(b: Book)
    ensures Alike(b, b)
  {
  }

  /** A pair differs as a whole, and only a pair can differ. */
  lemma DifferAsPair(x: Book, y: Book, id: string)
    requires Linked(x) && Alike(x, y) && id in x
    ensures x[id].siblingID == "" ==> x[id] == y[id]
    ensures x[id].siblingID != "" ==>
              x[id].siblingID in x && (x[id] == y[id] <==> x[x[id].siblingID] == y[x[id].siblingID])
    ensures x[id].entryID != "" ==> x[id].entryID in x && x[x[id].entryID] == y[x[id].entryID]
  {
    assert LinkedAt(x, id);
    if x[id].entryID != "" {
      assert LinkedAt(x, x[id].siblingID) && LinkedAt(x, x[id].entryID);
    }
  }

  /** Where two alike books agree on an order, a price does the same to it in both. */
  lemma SamePlay(x: Book, y: Book, p: real, id: string)
    requires Linked(x) && Alike(x, y) && id in x && x[id] == y[id]
    ensures InPlay(x, p, id) == InPlay(y, p, id) && Hit(x, p, id) == Hit(y, p, id)
    ensures RivalHit(x, p, id) == RivalHit(y, p, id)
  {
    DifferAsPair(x, y, id);
    if x[id].siblingID != "" {
      DifferAsPair(x, y, x[id].siblingID);
    }
    hide WouldFill, Linked, Alike;
  }

  /** A pair that is already decided is out of play. */
  lemma DecidedStays(x: Book, y: Book, p: real, x': Book, y': Book, id: string)
    requires Linked(x) && Alike(x, y) && Settled(x, p, x') && Settled(y, p, y') && id in x && x[id] != y[id]
    ensures x'[id] == x[id] && y'[id] == y[id]
  {
    assert SameTerms(x[id], x'[id]) && SameTerms(y[id], y'[id]);
    assert OtherLegWon(x, y, id);
    hide WouldFill, Linked;
  }

  lemma BothDecidedStay(x: Book, y: Book, p: real, x': Book, y': Book, id: string)
    requires Linked(x) && Alike(x, y) && Settled(x, p, x') && Settled(y, p, y') && id in x && x[id] != y[id]
    ensures OtherLegWon(x', y', id)
  {
    assert OtherLegWon(x, y, id);
    hide Settled, Linked, Alike;
    DifferAsPair(x, y, id);
    DecidedStays(x, y, p, x', y', id);
    DecidedStays(x, y, p, x', y', x[id].siblingID);
    SettledKeys(x, p, x');
    SettledKeys(y, p, y');
  }

  lemma OpenSettlesAlike(x: Book, y: Book, p: real, x': Book, y': Book, id: string)
    requires Linked(x) && Alike(x, y) && Settled(x, p, x') && Settled(y, p, y') && id in x && x[id] == y[id]
    ensures x'[id] == y'[id] || OtherLegWon(x', y', id)
  {
    hide WouldFill, InPlay, Hit, Linked, Alike, RivalHit;
    SamePlay(x, y, p, id);
    AlikeAt(x, y, id);
    DifferAsPair(x, y, id);
    SettledKeys(x, p, x');
    SettledKeys(y, p, y');
    assert SameTerms(x[id], x'[id]) && SameTerms(y[id], y'[id]);
  }

  /** Alike books settle alike. */
  lemma SettleAlike(x: Book, y: Book, p: real, x': Book, y': Book)
    requires Linked(x) && Alike(x, y) && Settled(x, p, x') && Settled(y, p, y')
    ensures Alike(x', y')
  {
    hide Settled, Linked, OtherLegWon;
    SettledKeys(x, p, x');
    SettledKeys(y, p, y');
    forall id | id in x'
      ensures SameTerms(x'[id], y'[id])
      ensures x'[id] != y'[id] ==> OtherLegWon(x', y', id)
    {
      assert SameTerms(x[id], x'[id]) && SameTerms(y[id], y'[id]) && SameTerms(x[id], y[id]);
      if x[id] == y[id] {
        OpenSettlesAlike(x, y, p, x', y', id);
      } else {
        BothDecidedStay(x, y, p, x', y', id);
      }
    }
  }

  /** Storing the same order in both keeps them alike, unless it was one of a decided pair. */
  lemma StoreAlike(x: Book, y: Book, o: Order)
    requires Linked(x) && Alike(x, y) && (o.id in x ==> x[o.id] == y[o.id])
    ensures Alike(x[o.id := o], y[o.id := o])
  {
    hide Linked;
    var x', y' := x[o.id := o], y[o.id := o];
    forall id | id in x && x[id] != y[id]
      ensures id != o.id && x[id].siblingID != o.id
    {
      DifferAsPair(x, y, id);
    }
  }

  /** Two legs of one bracket add the same to the position, whichever fills. */
  lemma AlikeNetQty(x: Book, y: Book)
    requires Linked(x) && Alike(x, y)
    ensures NetQty(x) == NetQty(y)
  {
    forall id | id in x && x[id] != y[id]
      ensures && x[id].siblingID in x && x[id].siblingID != id && x[x[id].siblingID].siblingID == id
              && x[x[id].siblingID] != y[x[id].siblingID]
              && Contribution(x[id]) == Contribution(y[x[id].siblingID])
              && Contribution(x[x[id].siblingID]) == Contribution(y[id])
    {
      AlikePair(x, y, id);
    }
    hide Linked, Alike;
    SwapsKeepNetQty(x, x, y);
  }

  lemma AlikePair(x: Book, y: Book, id: string)
    requires Linked(x) && Alike(x, y) && id in x && x[id] != y[id]
    ensures x[id].siblingID in x && x[id].siblingID != id && x[x[id].siblingID].siblingID == id
    ensures x[x[id].siblingID] != y[x[id].siblingID]
    ensures Contribution(x[id]) == Contribution(y[x[id].siblingID])
    ensures Contribution(x[x[id].siblingID]) == Contribution(y[id])
  {
    DifferAsPair(x, y, id);
    var sib := x[id].siblingID;
    assert OtherLegWon(x, y, id);
    assert LinkedAt(x, id) && LinkedAt(x, sib);
    assert SameTerms(x[id], y[id]) && SameTerms(x[sib], y[sib]);
  }

  // ---------- positions ----------

  /** The same quantity, and the same total profit whatever the price. */
  ghost predicate SameWorth(p: Position, q: Position) {
    p.qty == q.qty && forall x :: Equity(p, x) == Equity(q, x)
  }

  /** Equal quantity and equal equity at one price make equal equity at every price. */
  lemma WorthFromOnePrice(p: Position, q: Position, at: real)
    requires p.qty == q.qty && Equity(p, at) == Equity(q, at)
    ensures SameWorth(p, q)
  {
    var n := p.qty as real;
    forall x
      ensures Equity(p, x) == Equity(q, x)
    {
      Slope(n, x, at, p.avgPrice);
      Slope(n, x, at, q.avgPrice);
    }
  }

  lemma Slope(n: real, x: real, at: real, avg: real)
    ensures n * (x - avg) == n * (at - avg) + n * (x - at)
  {
  }

  // ---------- replies ----------

  predicate LegAlike(o: Order, q: Order) {
    SameTerms(o, q)
    && (o == q || (o.siblingID != "" && ((o.status == Filled && q.status == Cancelled)
                                         || (o.status == Cancelled && q.status == Filled))))
  }

  /**
   * The same reply, except that where two legs were marketable at once the one reported filled
   * may be the other one, and realized profit may be split from the average price differently.
   */
  ghost predicate RepliesAlike(m: Message, r: Reply, q: Reply) {
    match m
    case PlaceOrder(_) => r == q
    case Tick(_) => r == q
    case PlaceBracket(_, _, _) =>
      && r.BracketReply? && q.BracketReply? && q == r.(target := q.target, stop := q.stop)
      && LegAlike(r.target, q.target) && LegAlike(r.stop, q.stop)
      && (r.target == q.target <==> r.stop == q.stop)
    case CancelOrder(id) =>
      && r.CancelReply? && q.CancelReply?
      && (r == q || (&& r.found.Some? && q.found.Some? && r.found != q.found && LegAlike(r.found.value, q.found.value)
                     && {r.cancelled, q.cancelled} == {AlreadyFilled, AlreadyCancelled}))
    case TakeSnapshot =>
      && r.SnapshotReply? && q.SnapshotReply? && r.token == q.token && r.lastLTP == q.lastLTP
      && SameWorth(r.position, q.position)
      && exists x, y :: Enumerates(r.orders, x) && Enumerates(q.orders, y) && Alike(x, y)
  }

  // ---------- one message ----------

  /** Two actors that no message can tell apart, up to which leg won. */
  ghost predicate Peers(s: State, t: State) {
    && s.token == t.token && Inv(s) && Inv(t)
    && Alike(BookOf(s.log), BookOf(t.log)) && SameWorth(LedgerOf(s.log), LedgerOf(t.log))
  }

  /** Equal books up to the winners, and no profit made by the message, leave the positions worth the same. */
  lemma WorthKept(s: State, t: State, m: Message, s': State, t': State, r: Reply, q: Reply)
    requires Peers(s, t) && Next(s, m, s', r) && Next(t, m, t', q)
    requires s'.price.Some? && s'.price == t'.price
    requires Linked(BookOf(s'.log)) && Alike(BookOf(s'.log), BookOf(t'.log))
    ensures SameWorth(LedgerOf(s'.log), LedgerOf(t'.log))
  {
    var p := s'.price.value;
    MessageKeepsEquity(s, m, s', r);
    MessageKeepsEquity(t, m, t', q);
    AlikeNetQty(BookOf(s'.log), BookOf(t'.log));
    hide Inv, Alike, Linked, Equity, BookOf, LedgerOf, NextPlace, NextBracket, NextCancel, NextTick, NextSnapshot;
    QtyIsNetQty(s.token, s'.log);
    QtyIsNetQty(t.token, t'.log);
    hide Lawful, Next;
    WorthFromOnePrice(LedgerOf(s'.log), LedgerOf(t'.log), p);
  }

  lemma TickAgrees(s: State, t: State, ltp: real, s': State, t': State, r: Reply, q: Reply)
    requires Peers(s, t) && Next(s, Tick(ltp), s', r) && Next(t, Tick(ltp), t', q)
    ensures Peers(s', t') && s'.price == t'.price == Some(ltp) && r == q
  {
    hide BookOf, LedgerOf, Lawful, Linked, Consistent, Settled, Alike, Cascade, Triggered, SameWorth;
    TickKeepsInv(s, ltp, s', r);
    TickKeepsInv(t, ltp, t', q);
    SettleAlike(BookOf(s.log), BookOf(t.log), ltp, BookOf(s'.log), BookOf(t'.log));
    WorthKept(s, t, Tick(ltp), s', t', r, q);
  }

  lemma AlikeAt(x: Book, y: Book, id: string)
    requires Alike(x, y)
    ensures x.Keys == y.Keys
    ensures id in x && x[id] == y[id] ==> LegAlike(x[id], y[id])
    ensures id in x && x[id] != y[id] ==>
              && OtherLegWon(x, y, id) && SameTerms(x[id], y[id])
              && {x[id].status, y[id].status} == {Filled, Cancelled}
  {
  }

  /** Where they agree on an order, both cancel it or neither does; elsewhere there is nothing to cancel. */
  lemma CancelSame(s: State, t: State, id: string, s': State, t': State, r: Reply, q: Reply)
    requires Peers(s, t) && Next(s, CancelOrder(id), s', r) && Next(t, CancelOrder(id), t', q)
    ensures Alike(BookOf(s'.log), BookOf(t'.log))
    ensures LedgerOf(s'.log) == LedgerOf(s.log) && LedgerOf(t'.log) == LedgerOf(t.log)
  {
    hide BookOf, LedgerOf, Lawful, Alike, SameWorth, Linked, Consistent, Triggered, Validate, WouldFill, OtherLegWon;
    hide LegAlike;
    var x, y := BookOf(s.log), BookOf(t.log);
    AlikeAt(x, y, id);
    if id in x && x[id] == y[id] && Live(x[id]) {
      var gone := x[id].(status := Cancelled);
      BookIsSound(s.token, s.log);
      StoreAlike(x, y, gone);
      Grow(s.token, s.log, Withdrawn(gone));
      Grow(t.token, t.log, Withdrawn(gone));
    }
  }

  lemma CancelAnswers(s: State, t: State, id: string, s': State, t': State, r: Reply, q: Reply)
    requires Peers(s, t) && Next(s, CancelOrder(id), s', r) && Next(t, CancelOrder(id), t', q)
    ensures RepliesAlike(CancelOrder(id), r, q) && s'.price == s.price && t'.price == t.price
  {
    hide BookOf, LedgerOf, Lawful, Alike, SameWorth, Inv, OtherLegWon;
    var x, y := BookOf(s.log), BookOf(t.log);
    AlikeAt(x, y, id);
    if id in x && x[id] != y[id] {
      PairIsAlike(s, t, id);
    }
  }

  lemma PairIsAlike(s: State, t: State, id: string)
    requires Peers(s, t) && id in BookOf(s.log) && id in BookOf(t.log) && BookOf(s.log)[id] != BookOf(t.log)[id]
    ensures LegAlike(BookOf(s.log)[id], BookOf(t.log)[id])
  {
    hide BookOf, LedgerOf, Lawful, Alike, SameWorth, Linked, OtherLegWon;
    AlikeAt(BookOf(s.log), BookOf(t.log), id);
    DifferAsPair(BookOf(s.log), BookOf(t.log), id);
  }

  /** A cancel is answered alike whatever the prices are, and leaves the price alone. */
  lemma CancelAgrees(s: State, t: State, id: string, s': State, t': State, r: Reply, q: Reply)
    requires Peers(s, t) && Next(s, CancelOrder(id), s', r) && Next(t, CancelOrder(id), t', q)
    ensures Peers(s', t') && s'.price == s.price && t'.price == t.price && RepliesAlike(CancelOrder(id), r, q)
  {
    hide BookOf, LedgerOf, Alike, SameWorth, Inv, RepliesAlike, NextCancel;
    CancelKeepsInv(s, id, s', r);
    CancelKeepsInv(t, id, t', q);
    CancelSame(s, t, id, s', t', r, q);
    CancelAnswers(s, t, id, s', t', r, q);
  }

  lemma PlaceAgrees(s: State, t: State, o: Order, s': State, t': State, r: Reply, q: Reply)
    requires Peers(s, t) && s.price == t.price && Admissible(PlaceOrder(o))
    requires Next(s, PlaceOrder(o), s', r) && Next(t, PlaceOrder(o), t', q)
    ensures Peers(s', t') && s'.price == t'.price == s.price && r == q
  {
    hide BookOf, LedgerOf, Lawful, Linked, Consistent, Settled, Alike, Cascade, SameWorth, Validate;
    hide Triggered, WouldFill;
    var x, y := BookOf(s.log), BookOf(t.log);
    PlaceKeepsInv(s, o, s', r);
    PlaceKeepsInv(t, o, t', q);
    AlikeAt(x, y, o.id);
    if OrderVerdict(s.token, x, o).Pass? {
      StoreAlike(x, y, o.(status := Resting));
      OrderBase(x, o);
      if Marketable(s.price, o) {
        SettleAlike(Rested(x, o), Rested(y, o), s.price.value, BookOf(s'.log), BookOf(t'.log));
        WorthKept(s, t, PlaceOrder(o), s', t', r, q);
      } else {
        Grow(s.token, s.log, Accepted(o.(status := Resting)));
        Grow(t.token, t.log, Accepted(o.(status := Resting)));
      }
    }
  }

  lemma StoreNew(x: Book, y: Book, o: Order)
    requires Alike(x, y) && o.id !in x
    ensures Alike(x[o.id := o], y[o.id := o])
  {
  }

  lemma BracketBooksAlike(x: Book, y: Book, entry: Order, target: Order, stop: Order)
    requires Alike(x, y) && FreshBracket(x, entry, target, stop)
    ensures Alike(BracketBook(x, entry, target, stop), BracketBook(y, entry, target, stop))
  {
    hide Alike;
    var t, q := LinkLeg(target, entry, stop), LinkLeg(stop, entry, target);
    StoreNew(x, y, t);
    StoreNew(x[t.id := t], y[t.id := t], q);
    StoreNew(x[t.id := t][q.id := q], y[t.id := t][q.id := q], entry.(status := Resting));
  }

  /** The legs of a placed bracket are alike, and differ together or not at all. */
  lemma LegsDifferTogether(b: Book, x: Book, y: Book, entry: Order, target: Order, stop: Order)
    requires entry.id != target.id && entry.id != stop.id && target.id != stop.id
    requires SameOrders(BracketBook(b, entry, target, stop), x) && Linked(x) && Alike(x, y)
    ensures target.id in x && stop.id in x && target.id in y && stop.id in y
    ensures LegAlike(x[target.id], y[target.id]) && LegAlike(x[stop.id], y[stop.id])
    ensures x[target.id] == y[target.id] <==> x[stop.id] == y[stop.id]
  {
    var base := BracketBook(b, entry, target, stop);
    assert base[target.id] == LinkLeg(target, entry, stop) && base[stop.id] == LinkLeg(stop, entry, target);
    assert SameTerms(base[target.id], x[target.id]) && SameTerms(base[stop.id], x[stop.id]);
    DifferAsPair(x, y, target.id);
    assert LinkedAt(x, target.id) && LinkedAt(x, stop.id);
  }

  lemma VerdictsAgree(token: string, x: Book, y: Book, entry: Order, target: Order, stop: Order)
    requires x.Keys == y.Keys
    ensures BracketVerdict(token, x, entry, target, stop) == BracketVerdict(token, y, entry, target, stop)
    ensures BracketVerdict(token, x, entry, target, stop).Pass? && Admissible(PlaceBracket(entry, target, stop)) ==>
              FreshBracket(x, entry, target, stop)
  {
    assert entry.id in x <==> entry.id in y;
    assert target.id in x <==> target.id in y;
    assert stop.id in x <==> stop.id in y;
  }

  lemma BracketAgrees(s: State, t: State, entry: Order, target: Order, stop: Order,
                      s': State, t': State, r: Reply, q: Reply)
    requires Peers(s, t) && s.price == t.price && Admissible(PlaceBracket(entry, target, stop))
    requires Next(s, PlaceBracket(entry, target, stop), s', r) && Next(t, PlaceBracket(entry, target, stop), t', q)
    ensures Peers(s', t') && s'.price == t'.price == s.price
    ensures RepliesAlike(PlaceBracket(entry, target, stop), r, q)
  {
    hide BookOf, LedgerOf, Lawful, Linked, Consistent, Settled, Alike, Cascade, SameWorth, Validate, Triggered;
    hide WouldFill, BracketVerdict, LegsStored, BracketBook, FreshBracket;
    var x, y := BookOf(s.log), BookOf(t.log);
    var m := PlaceBracket(entry, target, stop);
    BracketKeepsInv(s, entry, target, stop, s', r);
    BracketKeepsInv(t, entry, target, stop, t', q);
    AlikeAt(x, y, entry.id);
    VerdictsAgree(s.token, x, y, entry, target, stop);
    if BracketVerdict(s.token, x, entry, target, stop).Pass? {
      BracketBooksAlike(x, y, entry, target, stop);
      BracketBase(x, entry, target, stop);
      var bookX, bookY := BracketBook(x, entry, target, stop), BracketBook(y, entry, target, stop);
      if Marketable(s.price, entry) {
        var p := s.price.value;
        SettleAlike(bookX, bookY, p, BookOf(s'.log), BookOf(t'.log));
        WorthKept(s, t, m, s', t', r, q);
        SettledKeys(bookX, p, BookOf(s'.log));
        FreshIDs(x, entry, target, stop);
        LegsDifferTogether(x, BookOf(s'.log), BookOf(t'.log), entry, target, stop);
      } else {
        RestingBracket(s.token, s.log, entry, target, stop);
        RestingBracket(t.token, t.log, entry, target, stop);
      }
    }
    hide Inv;
  }

  lemma FreshIDs(b: Book, entry: Order, target: Order, stop: Order)
    requires FreshBracket(b, entry, target, stop)
    ensures entry.id != target.id && entry.id != stop.id && target.id != stop.id
  {
  }

  lemma RestingBracket(token: string, log: seq<Event>, entry: Order, target: Order, stop: Order)
    ensures var log' := LegsStored(log, entry, target, stop) + [Accepted(entry.(status := Resting))];
            && BookOf(log') == BracketBook(BookOf(log), entry, target, stop) && LedgerOf(log') == LedgerOf(log)
  {
    hide BookOf, LedgerOf, LegsStored;
    LegsStoredBook(log, entry, target, stop);
    Grow(token, LegsStored(log, entry, target, stop), Accepted(entry.(status := Resting)));
  }

  lemma SnapshotAgrees(s: State, t: State, s': State, t': State, r: Reply, q: Reply)
    requires Peers(s, t) && s.price == t.price
    requires Next(s, TakeSnapshot, s', r) && Next(t, TakeSnapshot, t', q)
    ensures s' == s && t' == t && RepliesAlike(TakeSnapshot, r, q)
  {
    hide Inv, BookOf, LedgerOf, Lawful, Alike, SameWorth, Enumerates;
    assert Enumerates(r.orders, BookOf(s.log)) && Enumerates(q.orders, BookOf(t.log));
  }

  /** One message keeps peers peers and is answered alike; only a cancel may come before both know the price. */
  lemma MessageAgrees(s: State, t: State, m: Message, s': State, t': State, r: Reply, q: Reply)
    requires Peers(s, t) && (s.price == t.price || m.Tick? || m.CancelOrder?) && Admissible(m)
    requires Next(s, m, s', r) && Next(t, m, t', q)
    ensures Peers(s', t') && RepliesAlike(m, r, q)
    ensures s.price == t.price || m.Tick? ==> s'.price == t'.price
  {
    hide Peers, Next, RepliesAlike;
    match m
    case PlaceOrder(o) => PlaceAgrees(s, t, o, s', t', r, q); OrderRepliesAlike(o, r, q);
    case PlaceBracket(entry, target, stop) => BracketAgrees(s, t, entry, target, stop, s', t', r, q);
    case CancelOrder(id) => CancelAgrees(s, t, id, s', t', r, q);
    case Tick(ltp) => TickAgrees(s, t, ltp, s', t', r, q); TickRepliesAlike(ltp, r, q);
    case TakeSnapshot => SnapshotAgrees(s, t, s', t', r, q);
  }

  lemma OrderRepliesAlike(o: Order, r: Reply, q: Reply)
    requires r == q
    ensures RepliesAlike(PlaceOrder(o), r, q)
  {
  }

  lemma TickRepliesAlike(ltp: real, r: Reply, q: Reply)
    requires r == q
    ensures RepliesAlike(Tick(ltp), r, q)
  {
  }

  // ---------- whole runs ----------

  ghost predicate AllAdmissible(ms: seq<Message>) {
    forall i | 0 <= i < |ms| :: Admissible(ms[i])
  }

  /** Placements and snapshots come only after a tick. */
  predicate Sheltered(ms: seq<Message>) {
    forall i | 0 <= i < |ms| && !ms[i].Tick? && !ms[i].CancelOrder? :: Ticked(ms[..i])
  }

  predicate Ticked(ms: seq<Message>) {
    exists i :: 0 <= i < |ms| && ms[i].Tick?
  }

  /**
   * For any two runs over the same messages from peers: if they knew the same price at the start, or no
   * placement and no snapshot comes before the first tick, they stay peers, the prices are the same
   * from the first tick on, and every reply is alike.
   */
  lemma {:induction false} RunsAgree(xs: seq<State>, ys: seq<State>, ms: seq<Message>,
                                     rs: seq<Reply>, qs: seq<Reply>, i: nat)
    requires IsRun(xs, ms, rs) && IsRun(ys, ms, qs) && AllAdmissible(ms)
    requires Peers(xs[0], ys[0]) && i <= |ms|
    requires xs[0].price == ys[0].price || Sheltered(ms)
    ensures Peers(xs[i], ys[i])
    ensures xs[0].price == ys[0].price || Ticked(ms[..i]) ==> xs[i].price == ys[i].price
    ensures forall k | 0 <= k < i :: RepliesAlike(ms[k], rs[k], qs[k])
  {
    hide Peers, Next, RepliesAlike, Admissible;
    if i > 0 {
      RunsAgree(xs, ys, ms, rs, qs, i - 1);
      assert Ticked(ms[..i]) <==> Ticked(ms[..i - 1]) || ms[i - 1].Tick? by { TickedGrows(ms, i); }
      MessageAgrees(xs[i - 1], ys[i - 1], ms[i - 1], xs[i], ys[i], rs[i - 1], qs[i - 1]);
    }
  }

  lemma TickedGrows(ms: seq<Message>, i: nat)
    requires 0 < i <= |ms|
    ensures Ticked(ms[..i]) <==> Ticked(ms[..i - 1]) || ms[i - 1].Tick?
  {
    var a, b := ms[..i], ms[..i - 1];
    if Ticked(a) {
      var k :| 0 <= k < |a| && a[k].Tick?;
      assert k < i - 1 ==> b[k].Tick?;
    }
    if Ticked(b) {
      var k :| 0 <= k < |b| && b[k].Tick?;
      assert a[k].Tick?;
    }
    assert a[i - 1] == ms[i - 1];
  }

  /** What two runs of one actor's messages have in common after i messages. */
  ghost predicate Agree(s: State, t: State) {
    && Alike(BookOf(s.log), BookOf(t.log))
    && LedgerOf(s.log).qty == LedgerOf(t.log).qty
    && forall x :: Equity(LedgerOf(s.log), x) == Equity(LedgerOf(t.log), x)
  }

  lemma PeersAgree(s: State, t: State)
    requires Peers(s, t)
    ensures Agree(s, t)
  {
    hide BookOf, LedgerOf, Alike, Inv, Equity;
  }

  lemma SameLogPeers(s: State, t: State)
    requires Inv(s) && t.token == s.token && t.log == s.log && (t.price.None? || t.price == s.price)
    ensures Peers(s, t)
  {
    hide BookOf, LedgerOf, Lawful, Linked, Consistent, Equity;
    AlikeItself(BookOf(s.log));
  }

  /** Confluence of whole runs: from one state, the same messages always lead to the same place. */
  lemma RunsAreConfluent(xs: seq<State>, ys: seq<State>, ms: seq<Message>, rs: seq<Reply>, qs: seq<Reply>, i: nat)
    requires IsRun(xs, ms, rs) && IsRun(ys, ms, qs) && AllAdmissible(ms) && i <= |ms|
    requires Inv(xs[0]) && ys[0] == xs[0]
    ensures Agree(xs[i], ys[i]) && xs[i].price == ys[i].price
    ensures forall k | 0 <= k < i :: RepliesAlike(ms[k], rs[k], qs[k])
  {
    hide Peers, Agree, Inv, Next, AllAdmissible, RepliesAlike;
    SameLogPeers(xs[0], ys[0]);
    RunsAgree(xs, ys, ms, rs, qs, i);
    PeersAgree(xs[i], ys[i]);
  }

  /**
   * A restart cannot be seen: take any run of an actor that never stopped, and any run of one that
   * was restored from the same tables.  If no placement and no snapshot comes before the first
   * tick, both give like replies and stay in agreement throughout, and know the same price from that tick on.
   */
  lemma RestartCannotBeSeen(xs: seq<State>, ys: seq<State>, ms: seq<Message>, rs: seq<Reply>, qs: seq<Reply>, i: nat)
    requires IsRun(xs, ms, rs) && IsRun(ys, ms, qs) && AllAdmissible(ms) && Sheltered(ms) && i <= |ms|
    requires Inv(xs[0]) && ys[0] == xs[0].(price := None)
    ensures Agree(xs[i], ys[i]) && (Ticked(ms[..i]) ==> xs[i].price == ys[i].price)
    ensures forall k | 0 <= k < i :: RepliesAlike(ms[k], rs[k], qs[k])
  {
    hide Peers, Agree, Inv, Next, AllAdmissible, RepliesAlike, Sheltered;
    SameLogPeers(xs[0], ys[0]);
    RunsAgree(xs, ys, ms, rs, qs, i);
    PeersAgree(xs[i], ys[i]);
  }

  // ---------- without shelter ----------

  /** A placement before the first tick shows the restart exactly when the order was marketable. */
  lemma PlacementShowsRestartIff(s: State, t: State, o: Order, s': State, r: Reply, t': State, q: Reply)
    requires t == s.(price := None) && s.price.Some?
    requires Next(s, PlaceOrder(o), s', r) && Next(t, PlaceOrder(o), t', q)
    ensures r == q <==> OrderVerdict(s.token, BookOf(s.log), o).Fail? || !WouldFill(o, s.price.value)
  {
    hide Lawful, BookOf, WouldFill, Validate;
  }

  /** So does a bracket, whatever its legs. */
  lemma BracketShowsRestartIff(s: State, t: State, entry: Order, target: Order, stop: Order,
                               s': State, r: Reply, t': State, q: Reply)
    requires t == s.(price := None) && s.price.Some?
    requires Next(s, PlaceBracket(entry, target, stop), s', r) && Next(t, PlaceBracket(entry, target, stop), t', q)
    ensures r == q <==>
            BracketVerdict(s.token, BookOf(s.log), entry, target, stop).Fail? || !WouldFill(entry, s.price.value)
  {
    hide Lawful, BookOf, WouldFill, Validate, ValidateBracket;
  }

  /** A snapshot before the first tick shows it exactly when the forgotten price was not zero. */
  lemma SnapshotShowsRestartIff(s: State, t: State, s': State, r: Reply, t': State, q: Reply)
    requires t == s.(price := None) && s.price.Some?
    requires Next(s, TakeSnapshot, s', r) && Next(t, TakeSnapshot, t', q)
    ensures r.position == q.position && (r.lastLTP == q.lastLTP <==> s.price.value == 0.0)
    ensures forall o :: o in r.orders <==> o in q.orders
  {
    hide Lawful, BookOf, LedgerOf;
  }
}
