/**
 * Brackets that no crash touched.  A crash in the middle of a message may leave some brackets half
 * filled, half released or half stored; every other bracket of the instrument keeps all its rules through
 * whatever follows (internal/instrument/actor_state.go:237-255; internal/instrument/bracket.go:61-162).
 */
module Survival {
  import opened Wrappers
  import opened Orders
  import opened Ledger
  import opened Journal
  import opened Settlement
  import opened Protocol
  import opened Moves
  import opened Runs
  import opened Histories

  ghost predicate InOrder(b: Book, id: string) {
    id !in Orphans(b) && id !in Rivals(b) && id !in Doubled(b)
  }

  /** Neither leg is left behind by its entry, and not both have filled or still may. */
  ghost predicate Whole(b: Book, leg: string) {
    && leg in b && b[leg].entryID != "" && b[leg].siblingID in b
    && InOrder(b, leg) && InOrder(b, b[leg].siblingID)
  }

  /** A bracket linked as it should be, with nothing unfinished; of the rest of the book nothing is said. */
  ghost predicate Fit(b: Book, leg: string) {
    Whole(b, leg) && LinkedAt(b, leg) && LinkedAt(b, b[leg].siblingID)
  }

  // ---------- what can happen to a bracket that is fit ----------

  /** Nothing new is unfinished in b', so brackets that were whole still are. */
  lemma CalmKeepsFit(b: Book, b': Book, p: real, leg: string)
    requires SameOrders(b, b') && Calmer(b, b', p) && KeepsPairs(b, b') && Fit(b, leg)
    ensures Fit(b', leg)
  {
    var sib := b[leg].siblingID;
    assert SameTerms(b[leg], b'[leg]) && SameTerms(b[sib], b'[sib]) && SameTerms(b[b[leg].entryID], b'[b[leg].entryID]);
    assert leg in Paired(b) && sib in Paired(b);
    assert leg !in Clashes(b) && sib !in Clashes(b);
    hide Orphans, Rivals, Doubled, Clashes, Triggered, Pendings, Paired;
  }

  /** Storing an order under a new ID, or a new bracket, concerns no other bracket. */
  lemma StoreKeepsFit(b: Book, b': Book, leg: string)
    requires Fit(b, leg) && b.Keys <= b'.Keys && forall id | id in b :: b'[id] == b[id]
    ensures Fit(b', leg)
  {
  }

  lemma NewBracketIsFit(b: Book, entry: Order, target: Order, stop: Order, leg: string)
    requires FreshBracket(b, entry, target, stop) && (leg == target.id || leg == stop.id)
    ensures Fit(BracketBook(b, entry, target, stop), leg)
  {
  }

  lemma CancelKeepsFit(b: Book, id: string, leg: string)
    requires Fit(b, leg) && id in b && Live(b[id])
    ensures Fit(b[id := b[id].(status := Cancelled)], leg)
  {
  }

  // ---------- one message ----------

  lemma FillKeepsOrders(token: string, log: seq<Event>, price: Option<real>, o: Order, log': seq<Event>)
    requires FillsNow(token, log, price, o, log') && Lawful(token, log') && o.id !in BookOf(log)
    ensures SameOrders(Rested(BookOf(log), o), BookOf(log'))
  {
    hide BookOf, LedgerOf, Lawful, KeepsPairs, Reacts, Validate, WouldFill, ApplyFill;
    var e := log'[|log|];
    var first := log + [e];
    Grow(token, log, e);
    assert first <= log';
    StatusesOnlyAdvance(token, log', |first|);
    assert log'[..|first|] == first;
    CalmKeys(Rested(BookOf(log), o), BookOf(log'), price.value);
  }

  lemma BracketKeys(b: Book, entry: Order, target: Order, stop: Order)
    requires FreshBracket(b, entry, target, stop)
    ensures var b' := BracketBook(b, entry, target, stop);
            && b'.Keys == b.Keys + {entry.id, target.id, stop.id} && (forall id | id in b :: b'[id] == b[id])
            && b'[entry.id].entryID == ""
  {
  }

  /** What a message makes of a bracket that is new, or was fit, and of the linkage of the whole book. */
  ghost predicate Preserves(b: Book, b': Book, leg: string) {
    && (leg in b' && b'[leg].entryID != "" && (leg in b ==> Fit(b, leg)) ==> Fit(b', leg))
    && (Linked(b) ==> Linked(b'))
  }

  /** The new orders are stored, and then a fill follows. */
  lemma FillPreserves(b: Book, base: Book, b': Book, p: real, leg: string)
    requires SameOrders(base, b') && Calmer(base, b', p) && KeepsPairs(base, b')
    requires Preserves(b, base, leg)
    ensures Preserves(b, b', leg)
  {
    hide Linked, Fit, Calmer, KeepsPairs, LinkedAt;
    if Linked(base) {
      LinkageIsImmutable(base, b');
    }
    if Fit(base, leg) {
      CalmKeepsFit(base, b', p, leg);
    }
    assert leg in b' ==> SameTerms(base[leg], b'[leg]);
  }

  lemma SamePreserves(b: Book, leg: string)
    ensures Preserves(b, b, leg)
  {
    hide Linked, Fit;
  }

  lemma RestPreserves(b: Book, o: Order, leg: string)
    requires o.id != "" && o.id !in b && Standalone(o)
    ensures Preserves(b, Rested(b, o), leg)
  {
    hide Linked, Fit;
    if Linked(b) {
      OrderLinked(b, o);
    }
    if Fit(b, leg) {
      StoreKeepsFit(b, Rested(b, o), leg);
    }
  }

  lemma BracketPreserves(b: Book, entry: Order, target: Order, stop: Order, leg: string)
    requires FreshBracket(b, entry, target, stop)
    ensures Preserves(b, BracketBook(b, entry, target, stop), leg)
  {
    hide Linked, Fit, BracketBook, FreshBracket;
    BracketKeys(b, entry, target, stop);
    if Linked(b) {
      BracketLinked(b, entry, target, stop);
    }
    if Fit(b, leg) {
      StoreKeepsFit(b, BracketBook(b, entry, target, stop), leg);
    }
    if leg == target.id || leg == stop.id {
      NewBracketIsFit(b, entry, target, stop, leg);
    }
  }

  lemma CancelPreserves(b: Book, id: string, leg: string)
    requires id in b && Live(b[id])
    ensures Preserves(b, b[id := b[id].(status := Cancelled)], leg)
  {
    hide Linked, Fit;
    var b' := b[id := b[id].(status := Cancelled)];
    if Linked(b) {
      LinkageIsImmutable(b, b');
    }
    if Fit(b, leg) {
      CancelKeepsFit(b, id, leg);
    }
  }

  /** Every message keeps each bracket that is fit, whatever is unfinished elsewhere, and adds only such. */
  lemma MessagePreserves(s: State, m: Message, s': State, r: Reply, leg: string)
    requires Lawful(s.token, s.log) && Admissible(m) && Next(s, m, s', r)
    ensures Preserves(BookOf(s.log), BookOf(s'.log), leg)
  {
    hide Lawful, BookOf, LedgerOf, Preserves, Cascade, Validate, ValidateBracket, WouldFill;
    SamePreserves(BookOf(s.log), leg);
    match m
    case PlaceOrder(o) => PlacePreserves(s, o, s', r, leg);
    case PlaceBracket(entry, target, stop) => PlaceBracketPreserves(s, entry, target, stop, s', r, leg);
    case CancelOrder(id) =>
      if id in BookOf(s.log) && Live(BookOf(s.log)[id]) {
        BookIsSound(s.token, s.log);
        CancelPreserves(BookOf(s.log), id, leg);
        Grow(s.token, s.log, Withdrawn(BookOf(s.log)[id].(status := Cancelled)));
      }
    case Tick(ltp) => TickPreserves(s, ltp, s', r, leg);
    case TakeSnapshot =>
  }

  lemma TickPreserves(s: State, ltp: real, s': State, r: Reply, leg: string)
    requires Next(s, Tick(ltp), s', r)
    ensures Preserves(BookOf(s.log), BookOf(s'.log), leg)
  {
    hide Lawful, BookOf, LedgerOf, Linked, Preserves, Calmer, Reacts, KeepsPairs, Fills, Advances, Fit;
    var b, b' := BookOf(s.log), BookOf(s'.log);
    Advanced(s'.token, Fills(b), s.log, s'.log, ltp);
    CalmKeys(b, b', ltp);
    AdvancedOrders(b, b');
    SamePreserves(b, leg);
    FillPreserves(b, b, b', ltp, leg);
  }

  lemma PlacePreserves(s: State, o: Order, s': State, r: Reply, leg: string)
    requires Admissible(PlaceOrder(o)) && Next(s, PlaceOrder(o), s', r)
    ensures Preserves(BookOf(s.log), BookOf(s'.log), leg)
  {
    hide Lawful, BookOf, LedgerOf, Linked, Calmer, Reacts, KeepsPairs, Fills, Validate, WouldFill, Fit;
    var b, b' := BookOf(s.log), BookOf(s'.log);
    if OrderVerdict(s.token, b, o).Pass? {
      RestPreserves(b, o, leg);
      if Marketable(s.price, o) {
        FillKeepsOrders(s'.token, s.log, s.price, o, s'.log);
        FillPreserves(b, Rested(b, o), b', s.price.value, leg);
      } else {
        Grow(s.token, s.log, Accepted(o.(status := Resting)));
      }
    }
  }

  lemma PlaceBracketPreserves(s: State, entry: Order, target: Order, stop: Order, s': State, r: Reply, leg: string)
    requires Admissible(PlaceBracket(entry, target, stop)) && Next(s, PlaceBracket(entry, target, stop), s', r)
    ensures Preserves(BookOf(s.log), BookOf(s'.log), leg)
  {
    hide Lawful, BookOf, LedgerOf, Linked, Calmer, Reacts, KeepsPairs, Fills, Validate, WouldFill, Fit;
    hide LegsStored, ValidateBracket;
    var b, b' := BookOf(s.log), BookOf(s'.log);
    if BracketVerdict(s.token, b, entry, target, stop).Pass? {
      var legs := LegsStored(s.log, entry, target, stop);
      assert FreshBracket(b, entry, target, stop);
      LegsStoredBook(s.log, entry, target, stop);
      BracketPreserves(b, entry, target, stop, leg);
      if Marketable(s.price, entry) {
        FillKeepsOrders(s'.token, legs, s.price, entry, s'.log);
        FillPreserves(b, BracketBook(b, entry, target, stop), b', s.price.value, leg);
      } else {
        Grow(s.token, legs, Accepted(entry.(status := Resting)));
      }
    }
  }

  // ---------- histories with crashes anywhere ----------

  /** The crash left the rows of this bracket as it found them. */
  ghost predicate Spares(b: Book, b': Book, leg: string) {
    leg in b' && b'[leg].entryID != "" ==>
      && leg in b && b[leg].entryID in b && b[leg].siblingID in b
      && b'[leg] == b[leg] && b[leg].entryID in b' && b[leg].siblingID in b'
      && b'[b[leg].entryID] == b[b[leg].entryID] && b'[b[leg].siblingID] == b[b[leg].siblingID]
  }

  /** Every crash spares this bracket. */
  ghost predicate CrashesSpare(states: seq<State>, hs: seq<Happening>, j: nat, leg: string)
    requires j <= |hs| < |states|
  {
    forall k | 0 <= k < j && hs[k].CrashedIn? :: Spares(BookOf(states[k].log), BookOf(states[k + 1].log), leg)
  }

  lemma SparedIsFit(b: Book, b': Book, leg: string)
    requires Spares(b, b', leg) && Advances(b, b') && (leg in b && b[leg].entryID != "" ==> Fit(b, leg))
    ensures leg in b' && b'[leg].entryID != "" ==> Fit(b', leg)
  {
  }

  lemma {:induction false} SparedStaysFit(token: string, states: seq<State>, hs: seq<Happening>, j: nat, leg: string)
    requires IsHistory(token, states, hs) && j < |states| && CrashesSpare(states, hs, j, leg)
    ensures leg in BookOf(states[j].log) && BookOf(states[j].log)[leg].entryID != "" ==> Fit(BookOf(states[j].log), leg)
  {
    hide BookOf, Lawful, Next, Spares, Fit, Linked;
    if j == 0 {
      NoBook();
    } else {
      SparedStaysFit(token, states, hs, j - 1, leg);
      var s, h, s' := states[j - 1], hs[j - 1], states[j];
      assert Happens(s, h, s');
      LogsStayLawful(token, states, hs, j - 1, j - 1);
      LogsStayLawful(token, states, hs, j - 1, j);
      StatusesOnlyAdvance(token, s'.log, |s.log|);
      assert s'.log[..|s.log|] == s.log;
      match h
      case Handled(m, r) =>
        MessagePreserves(s, m, s', r, leg);
      case Restarted =>
      case CrashedIn(m) =>
        SparedIsFit(BookOf(s.log), BookOf(s'.log), leg);
    }
  }

  /**
   * A bracket that no crash touched is safe, however much of the rest of the book crashes have left half done: a
   * filled leg's sibling is cancelled, no leg is left pending by a filled entry or works before it, and
   * the three orders together add the entry's quantity to the position while it is open and else nothing.
   */
  lemma SparedBracketIsSafe(token: string, states: seq<State>, hs: seq<Happening>, j: nat, leg: string)
    requires IsHistory(token, states, hs) && j < |states| && CrashesSpare(states, hs, j, leg)
    requires leg in BookOf(states[j].log) && BookOf(states[j].log)[leg].entryID != ""
    ensures var b := BookOf(states[j].log); LinkedAt(b, leg) && BracketSafe(b, leg)
  {
    hide BookOf, Lawful, IsHistory, CrashesSpare, Validate;
    SparedStaysFit(token, states, hs, j, leg);
    LogsStayLawful(token, states, hs, j, j);
    var log, b := states[j].log, BookOf(states[j].log);
    BookIsSound(token, log);
    if b[leg].status == Resting || b[leg].status == Filled {
      LegsFollowEntries(token, log, leg);
    }
    if b[b[leg].siblingID].status == Filled || b[b[leg].siblingID].status == Resting {
      LegsFollowEntries(token, log, b[leg].siblingID);
    }
  }

  ghost predicate BracketSafe(b: Book, leg: string)
    requires leg in b && b[leg].entryID in b && b[leg].siblingID in b
  {
    var entry, sib := b[b[leg].entryID], b[b[leg].siblingID];
    && (b[leg].status == Filled ==> sib.status == Cancelled)
    && (sib.status == Filled ==> b[leg].status == Cancelled)
    && (entry.status == Filled ==> b[leg].status != Pending)
    && (b[leg].status == Resting || b[leg].status == Filled ==> entry.status == Filled)
    && Contribution(entry) + Contribution(b[leg]) + Contribution(sib) ==
       if entry.status == Filled && b[leg].status != Filled && sib.status != Filled
       then if entry.side == Buy then entry.qty else -entry.qty else 0
  }
}
