/**
 * Crashes in the middle of a message, and the ticks replayed after the restart
 * (internal/storage/order_store.go:76-80, migrations/0002_orders_positions.sql:13-16,
 * internal/instrument/actor_state.go:43-56).
 *
 * The fill of an order, the activation of its legs and the cancellation of its sibling are
 * separate durable writes, and so are the three orders of a new bracket: a crash may fall between them.
 */
module Recovery {
  import opened Wrappers
  import opened Orders
  import opened Journal
  import opened Settlement
  import opened Protocol
  import opened Moves
  import opened Runs
  import opened Histories

  // ---------- what a reaction can do to one order ----------

  /** A leg whose entry filled in the past is never activated: only the fill itself does that. */
  lemma {:induction false} OrphanStaysOut(token: string, past: set<string>, log: seq<Event>, log': seq<Event>,
                                          p: real, id: string)
    requires Lawful(token, log') && Reacts(past, log, log', p)
    requires id in BookOf(log) && BookOf(log)[id].status == Pending && BookOf(log)[id].entryID in past
    ensures id in BookOf(log') && SameTerms(BookOf(log)[id], BookOf(log')[id])
    ensures BookOf(log')[id].status == Pending || BookOf(log')[id].status == Cancelled
    decreases |log'|
  {
    hide Admits, Lawful, BookOf, LedgerOf, WouldFill;
    if log != log' {
      var n := |log'| - 1;
      var before, e := log'[..n], log'[n];
      assert log' == before + [e];
      Grow(token, before, e);
      ReactsBefore(past, log, log', p);
      hide Reacts;
      OrphanStaysOut(token, past, log, before, p, id);
      if e.order.id == id {
        EventAdvances(token, BookOf(before), LedgerOf(before), e);
        EventKind(token, BookOf(before), LedgerOf(before), e);
      }
    }
  }

  /** Whatever is cancelled in a reaction is the sibling of an order that filled in it. */
  lemma {:induction false} CancelledBy(token: string, past: set<string>, log: seq<Event>, log': seq<Event>,
                                       p: real, id: string)
    returns (winner: string)
    requires Lawful(token, log') && Reacts(past, log, log', p)
    requires id in BookOf(log) && BookOf(log)[id].status != Cancelled
    requires id in BookOf(log') && BookOf(log')[id].status == Cancelled
    ensures winner !in past && winner in BookOf(log')
    ensures BookOf(log')[winner].status == Filled && BookOf(log')[winner].siblingID == id
    decreases |log'|
  {
    hide Admits, Lawful, BookOf, LedgerOf, WouldFill;
    var n := |log'| - 1;
    var before, e := log'[..n], log'[n];
    assert log' == before + [e];
    Grow(token, before, e);
    ReactsBefore(past, log, log', p);
    Advanced(token, past, log, before, p);
    hide Reacts, Fills;
    EventKind(token, BookOf(before), LedgerOf(before), e);
    if e.order.id in BookOf(before) {
      EventAdvances(token, BookOf(before), LedgerOf(before), e);
    }
    if BookOf(before)[id].status == Cancelled {
      winner := CancelledBy(token, past, log, before, p, id);
    } else {
      winner := e.winner;
    }
  }

  /** Whatever fills in a reaction was willing to fill at its price. */
  lemma {:induction false} FilledAt(token: string, past: set<string>, log: seq<Event>, log': seq<Event>,
                                    p: real, id: string)
    requires Lawful(token, log') && Reacts(past, log, log', p)
    requires id in BookOf(log) && BookOf(log)[id].status != Filled
    requires id in BookOf(log') && BookOf(log')[id].status == Filled
    ensures WouldFill(BookOf(log)[id], p)
    decreases |log'|
  {
    hide Admits, Lawful, BookOf, LedgerOf, WouldFill;
    var n := |log'| - 1;
    var before, e := log'[..n], log'[n];
    assert log' == before + [e];
    Grow(token, before, e);
    ReactsBefore(past, log, log', p);
    Advanced(token, past, log, before, p);
    hide Reacts, Fills;
    EventKind(token, BookOf(before), LedgerOf(before), e);
    assert SameTerms(BookOf(log)[id], BookOf(before)[id]);
    StatusIsNoTerm(BookOf(log)[id], BookOf(before)[id].status, p);
    StatusIsNoTerm(e.order, Resting, p);
    StatusIsNoTerm(BookOf(log)[id], Resting, p);
    if e.order.id in BookOf(before) {
      EventAdvances(token, BookOf(before), LedgerOf(before), e);
    }
    if BookOf(before)[id].status == Filled {
      FilledAt(token, past, log, before, p, id);
    }
  }

  // ---------- one tick on a book that may be half done ----------

  /** What a tick can do to one order of a book that may be half done. */
  ghost predicate TickedAt(b: Book, b': Book, p: real, id: string)
    requires id in b && id in b'
  {
    && b[id].status != Unset && (b[id].status == Pending ==> b[id].entryID != "")
    && (id in Orphans(b) ==> b'[id].status == Pending || b'[id].status == Cancelled)
    && (b'[id].status == Filled && b[id].status != Filled ==> WouldFill(b[id], p))
    && (b'[id].status == Cancelled && b[id].status != Cancelled ==>
          && b[id].siblingID in b && b[id].siblingID in b'
          && b'[b[id].siblingID].status == Filled && b[b[id].siblingID].status != Filled)
  }

  ghost predicate TickTakes(b: Book, b': Book, p: real) {
    && Linked(b) && SameOrders(b, b') && Advances(b, b') && Calmer(b, b', p) && Triggered(b', p) == {}
    && Doubled(b') <= Doubled(b) + Clashes(b)
    && forall id | id in b :: TickedAt(b, b', p, id)
  }

  lemma EarlierIsSound(token: string, past: set<string>, log: seq<Event>, log': seq<Event>, p: real)
    requires Lawful(token, log') && Reacts(past, log, log', p)
    ensures forall id | id in BookOf(log) :: BookOf(log)[id].status != Unset
    ensures forall id | id in BookOf(log) && BookOf(log)[id].status == Pending :: BookOf(log)[id].entryID != ""
  {
    hide Lawful, BookOf, Validate;
    PrefixIsLawful(token, log', |log|);
    assert log'[..|log|] == log;
    BookIsSound(token, log);
    forall id | id in BookOf(log) && BookOf(log)[id].status == Pending
      ensures BookOf(log)[id].entryID != ""
    {
      PendingIsLeg(token, log, id);
    }
  }

  lemma OrphanIsOrphan(b: Book, x: string)
    requires x in Orphans(b)
    ensures x in b && b[x].status == Pending && b[x].entryID in Fills(b)
  {
  }

  lemma WinnerIsSibling(b1: Book, b2: Book, z: string, v: string)
    requires Linked(b1) && Advances(b1, b2) && b2.Keys == b1.Keys && z in b1
    requires v in b2 && b2[v].siblingID == z && b2[v].status == Filled && v !in Fills(b1)
    ensures v in b1 && b1[z].siblingID == v && b1[v].siblingID == z && b1[v].entryID == b1[z].entryID
    ensures b1[v].status == Pending || b1[v].status == Resting || b1[v].status == Unset
  {
    assert SameTerms(b1[v], b2[v]);
    assert LinkedAt(b1, v);
  }

  lemma OneTicked(token: string, log: seq<Event>, log': seq<Event>, p: real, id: string)
    requires Lawful(token, log') && Reacts(Fills(BookOf(log)), log, log', p)
    requires Linked(BookOf(log)) && BookOf(log').Keys == BookOf(log).Keys && id in BookOf(log)
    ensures TickedAt(BookOf(log), BookOf(log'), p, id)
  {
    hide Lawful, BookOf, LedgerOf, Reacts, Fills, Linked, Advances, WouldFill;
    var b, b', past := BookOf(log), BookOf(log'), Fills(BookOf(log));
    Advanced(token, past, log, log', p);
    EarlierIsSound(token, past, log, log', p);
    if id in Orphans(b) {
      OrphanIsOrphan(b, id);
      OrphanStaysOut(token, past, log, log', p, id);
    }
    if b'[id].status == Filled && b[id].status != Filled {
      FilledAt(token, past, log, log', p, id);
    }
    if b'[id].status == Cancelled && b[id].status != Cancelled {
      var v := CancelledBy(token, past, log, log', p, id);
      WinnerIsSibling(b, b', id, v);
    }
  }

  lemma TickTaken(s: State, p: real, s': State, r: Reply)
    requires Next(s, Tick(p), s', r) && Linked(BookOf(s.log))
    ensures TickTakes(BookOf(s.log), BookOf(s'.log), p) && Linked(BookOf(s'.log))
  {
    hide Lawful, BookOf, LedgerOf, Reacts, Fills, Linked, Advances, Calmer, Triggered, TickedAt, KeepsPairs;
    var b, b' := BookOf(s.log), BookOf(s'.log);
    CalmKeys(b, b', p);
    Advanced(s'.token, Fills(b), s.log, s'.log, p);
    forall id | id in b
      ensures TickedAt(b, b', p, id)
    {
      OneTicked(s'.token, s.log, s'.log, p, id);
    }
    AdvancedOrders(b, b');
    LinkageIsImmutable(b, b');
    LinkedPairs(b, b');
  }

  /** A filled leg whose sibling was never cancelled. */
  predicate Broken(b: Book, id: string) {
    id in b && b[id].status == Filled && b[id].siblingID in b && b[b[id].siblingID].status != Cancelled
  }

  lemma BrokenStays(b: Book, b': Book, p: real, id: string)
    requires TickTakes(b, b', p) && Broken(b, id)
    ensures Broken(b', id)
  {
    assert LinkedAt(b, id);
    assert SameTerms(b[id], b'[id]);
    assert TickedAt(b, b', p, b[id].siblingID);
  }

  /** A tick settles an orphan together with its sibling, or touches neither. */
  lemma OrphanPair(b: Book, b': Book, p: real, x: string)
    requires TickTakes(b, b', p) && Rivals(b) == {} && x in Orphans(b)
    ensures b[x].siblingID in b && SameTerms(b[x], b'[x])
    ensures x in Orphans(b') <==> b[x].siblingID !in Triggered(b, p)
    ensures x in Orphans(b') ==> b'[b[x].siblingID] == b[b[x].siblingID]
  {
    var y := b[x].siblingID;
    assert LinkedAt(b, x);
    assert SameTerms(b[x], b'[x]) && SameTerms(b[y], b'[y]);
    assert TickedAt(b, b', p, x) && TickedAt(b, b', p, y);
    assert y !in Triggered(b', p) && y !in Rivals(b') && y !in Rivals(b);
    assert b'[b[x].entryID] == b[b[x].entryID];
    assert b[y].status == Pending ==> y in Orphans(b);
    StatusIsNoTerm(b[y], b'[y].status, p);
    if y in Triggered(b, p) {
      assert b'[y].status != Resting;
    }
  }

  lemma NoRivalsNoClashes(b: Book)
    requires Linked(b) && Rivals(b) == {}
    ensures Clashes(b) == {}
  {
    forall id | id in b
      ensures id !in Clashes(b)
    {
      assert LinkedAt(b, id);
      assert id !in Rivals(b) && b[id].siblingID !in Rivals(b);
    }
  }

  lemma NothingNew(b: Book, b': Book, p: real)
    requires TickTakes(b, b', p) && Rivals(b) == {} && Doubled(b) == {}
    ensures Rivals(b') == {} && Doubled(b') == {} && Orphans(b') <= Orphans(b)
  {
    NoRivalsNoClashes(b);
    hide Linked;
  }

  // ---------- a replay, from wherever it starts ----------

  ghost predicate IsTickRun(states: seq<State>, prices: seq<real>) {
    && |states| == |prices| + 1
    && forall i | 0 <= i < |prices| :: Next(states[i], Tick(prices[i]), states[i + 1], NoReply)
  }

  /** Ticks place no order and change no terms. */
  lemma {:induction false} ReplayKeepsOrders(states: seq<State>, prices: seq<real>, k: nat)
    requires IsTickRun(states, prices) && k < |states|
    ensures SameOrders(BookOf(states[0].log), BookOf(states[k].log))
  {
    hide Lawful, BookOf, Calmer, Reacts, KeepsPairs, Advances, Fills, Triggered;
    if k > 0 {
      ReplayKeepsOrders(states, prices, k - 1);
      var s, p, s' := states[k - 1], prices[k - 1], states[k];
      assert Next(s, Tick(p), s', NoReply);
      Advanced(s'.token, Fills(BookOf(s.log)), s.log, s'.log, p);
      CalmKeys(BookOf(s.log), BookOf(s'.log), p);
      AdvancedOrders(BookOf(s.log), BookOf(s'.log));
    }
  }

  lemma {:induction false} ReplayIsLawful(states: seq<State>, prices: seq<real>, k: nat)
    requires IsTickRun(states, prices) && Lawful(states[0].token, states[0].log) && k < |states|
    ensures Lawful(states[k].token, states[k].log)
  {
    hide Lawful, NextTick;
    if k > 0 {
      assert Next(states[k - 1], Tick(prices[k - 1]), states[k], NoReply);
    }
  }

  lemma ReplayStaysLinked(states: seq<State>, prices: seq<real>, k: nat)
    requires IsTickRun(states, prices) && k < |states|
    ensures Linked(BookOf(states[k].log)) <==> Linked(BookOf(states[0].log))
  {
    ReplayKeepsOrders(states, prices, k);
    hide IsTickRun, BookOf;
    var b, now := BookOf(states[0].log), BookOf(states[k].log);
    if Linked(b) {
      LinkageIsImmutable(b, now);
    } else if Linked(now) {
      LinkageIsImmutable(now, b);
    }
  }

  lemma {:induction false} BrokenForEver(states: seq<State>, prices: seq<real>, k: nat, id: string)
    requires IsTickRun(states, prices) && Linked(BookOf(states[0].log))
    requires k < |states| && Broken(BookOf(states[0].log), id)
    ensures Broken(BookOf(states[k].log), id)
  {
    hide Linked, Lawful, BookOf, Next, Broken;
    if k > 0 {
      BrokenForEver(states, prices, k - 1, id);
      ReplayStaysLinked(states, prices, k - 1);
      TickTaken(states[k - 1], prices[k - 1], states[k], NoReply);
      BrokenStays(BookOf(states[k - 1].log), BookOf(states[k].log), prices[k - 1], id);
    }
  }

  /** The sibling of x was resting at the start, and one of the prices fills it. */
  predicate Rescued(b: Book, prices: seq<real>, x: string) {
    exists i :: 0 <= i < |prices| && x in b && b[x].siblingID in Triggered(b, prices[i])
  }

  /** Where an orphan and its sibling are after some ticks. */
  ghost predicate OrphanAfter(b: Book, now: Book, prices: seq<real>, x: string) {
    && x in b && x in now && b[x].siblingID in b && b[x].siblingID in now && SameTerms(b[x], now[x])
    && (x in Orphans(now) <==> !Rescued(b, prices, x))
    && (x in Orphans(now) ==> now[b[x].siblingID] == b[b[x].siblingID])
  }

  lemma OrphanGoesOn(b: Book, b1: Book, b2: Book, prices: seq<real>, p: real, x: string)
    requires OrphanAfter(b, b1, prices, x) && TickTakes(b1, b2, p) && Rivals(b1) == {} && x in Orphans(b)
    ensures OrphanAfter(b, b2, prices + [p], x)
  {
    hide WouldFill, Linked;
    var more := prices + [p];
    assert Rescued(b, more, x) <==> Rescued(b, prices, x) || b[x].siblingID in Triggered(b, p) by {
      RescuedGrows(b, prices, p, x);
    }
    assert SameTerms(b1[x], b2[x]);
    hide Rescued;
    if x in Orphans(b1) {
      OrphanPair(b1, b2, p, x);
    } else {
      assert Orphans(b2) <= Orphans(b1);
    }
  }

  lemma RescuedGrows(b: Book, prices: seq<real>, p: real, x: string)
    requires x in b
    ensures Rescued(b, prices + [p], x) <==> Rescued(b, prices, x) || b[x].siblingID in Triggered(b, p)
  {
    hide Triggered;
    var more := prices + [p];
    if Rescued(b, prices, x) {
      var i :| 0 <= i < |prices| && b[x].siblingID in Triggered(b, prices[i]);
      assert b[x].siblingID in Triggered(b, more[i]);
    }
    if Rescued(b, more, x) {
      var i :| 0 <= i < |more| && b[x].siblingID in Triggered(b, more[i]);
      assert i < |prices| ==> b[x].siblingID in Triggered(b, prices[i]);
    }
    assert more[|prices|] == p;
  }

  lemma {:induction false} ReplayMends(states: seq<State>, prices: seq<real>, k: nat)
    requires IsTickRun(states, prices) && Linked(BookOf(states[0].log))
    requires Rivals(BookOf(states[0].log)) == {} && Doubled(BookOf(states[0].log)) == {} && k < |states|
    ensures var b, now := BookOf(states[0].log), BookOf(states[k].log);
            && Rivals(now) == {} && Doubled(now) == {} && Orphans(now) <= Orphans(b)
            && forall x | x in Orphans(b) :: OrphanAfter(b, now, prices[..k], x)
  {
    hide Lawful, BookOf, Next, Rivals, Doubled, Orphans, OrphanAfter;
    var b, now := BookOf(states[0].log), BookOf(states[k].log);
    if k == 0 {
      forall x | x in Orphans(b)
        ensures OrphanAfter(b, b, prices[..0], x)
      {
        OrphanAtFirst(b, x);
        assert prices[..0] == [];
      }
    } else {
      hide Linked;
      var last := BookOf(states[k - 1].log);
      ReplayMends(states, prices, k - 1);
      ReplayStaysLinked(states, prices, k - 1);
      TickTaken(states[k - 1], prices[k - 1], states[k], NoReply);
      NothingNew(last, now, prices[k - 1]);
      assert prices[..k] == prices[..k - 1] + [prices[k - 1]];
      hide TickTakes;
      forall x | x in Orphans(b)
        ensures OrphanAfter(b, now, prices[..k], x)
      {
        OrphanGoesOn(b, last, now, prices[..k - 1], prices[k - 1], x);
      }
    }
  }

  lemma OrphanAtFirst(b: Book, x: string)
    requires Linked(b) && x in Orphans(b)
    ensures OrphanAfter(b, b, [], x)
  {
    assert LinkedAt(b, x);
  }

  /** Every filled leg's sibling is cancelled, and each leg left behind has a sibling that one of the prices fills. */
  ghost predicate Mended(b: Book, prices: seq<real>) {
    && (forall id | id in b :: !Broken(b, id))
    && forall x | x in Orphans(b) :: Rescued(b, prices, x)
  }

  lemma UnbrokenIsCalm(b: Book)
    requires forall id | id in b :: !Broken(b, id)
    ensures Rivals(b) == {} && Doubled(b) == {}
  {
    forall id | id in b
      ensures id !in Rivals(b) && id !in Doubled(b)
    {
      assert !Broken(b, id);
    }
  }

  /**
   * The ticks of any replay, over the tables left by any crashes whatever, restore every rule of the book if and only
   * if every bracket was stored whole and the legs pass the test above.
   */
  lemma ReplayRestoresIff(states: seq<State>, prices: seq<real>)
    requires IsTickRun(states, prices) && prices != [] && Lawful(states[0].token, states[0].log)
    ensures var b := BookOf(states[0].log); Inv(states[|prices|]) <==> Linked(b) && Mended(b, prices)
  {
    hide Lawful, BookOf, LedgerOf, Linked, Next, Orphans, Rivals, Doubled, Consistent, Broken;
    var n := |prices|;
    var b, now := BookOf(states[0].log), BookOf(states[n].log);
    ReplayIsLawful(states, prices, n);
    ReplayStaysLinked(states, prices, n);
    LastPrice(states[n - 1], prices[n - 1], states[n], NoReply);
    if Linked(b) {
      if id :| id in b && Broken(b, id) {
        BrokenForEver(states, prices, n, id);
        BrokenIsInconsistent(now, id);
      } else {
        UnbrokenIsCalm(b);
        ReplayMends(states, prices, n);
        assert prices[..n] == prices;
        MendedIff(states[n].token, states[n].log, b, prices);
      }
    }
  }

  lemma LastPrice(s: State, p: real, s': State, r: Reply)
    requires Next(s, Tick(p), s', r)
    ensures s'.price == Some(p) && Triggered(BookOf(s'.log), p) == {} && r == NoReply
    ensures s'.token == s.token && Lawful(s'.token, s'.log) && s.log <= s'.log
  {
    hide Lawful, BookOf, Cascade;
  }

  lemma BrokenIsInconsistent(b: Book, id: string)
    requires Linked(b) && Broken(b, id)
    ensures !Consistent(b)
  {
    assert LinkedAt(b, id);
  }

  lemma MendedIff(token: string, log: seq<Event>, b: Book, prices: seq<real>)
    requires Lawful(token, log) && Linked(BookOf(log)) && forall id | id in b :: !Broken(b, id)
    requires Rivals(BookOf(log)) == {} && Doubled(BookOf(log)) == {} && Orphans(BookOf(log)) <= Orphans(b)
    requires forall x | x in Orphans(b) :: OrphanAfter(b, BookOf(log), prices, x)
    ensures Consistent(BookOf(log)) <==> Mended(b, prices)
  {
    hide Lawful, BookOf, Rescued;
    var now := BookOf(log);
    if Orphans(now) == {} {
      QuietIsConsistent(token, log);
    }
  }

  /** A linked book with no orphan, no rival and no doubled leg keeps the bracket rules. */
  lemma QuietIsConsistent(token: string, log: seq<Event>)
    requires Lawful(token, log) && Linked(BookOf(log))
    requires Orphans(BookOf(log)) == {} && Rivals(BookOf(log)) == {} && Doubled(BookOf(log)) == {}
    ensures Consistent(BookOf(log))
  {
    hide Lawful, BookOf, Validate;
    var b := BookOf(log);
    BookIsSound(token, log);
    forall id | id in b && b[id].entryID != ""
      ensures b[id].status == Resting || b[id].status == Filled ==>
                b[id].entryID in b && b[b[id].entryID].status == Filled
      ensures b[id].status == Filled ==> b[id].siblingID in b && b[b[id].siblingID].status == Cancelled
    {
      assert LinkedAt(b, id);
      assert id !in Rivals(b) && id !in Doubled(b);
      if b[id].status == Resting || b[id].status == Filled {
        LegsFollowEntries(token, log, id);
      }
    }
  }

  // ---------- the tick that crashed comes again ----------

  lemma PrefixReacts(past: set<string>, log: seq<Event>, mid: seq<Event>, log': seq<Event>, p: real)
    requires Reacts(past, log, log', p) && log <= mid <= log'
    ensures Reacts(past, log, mid, p)
  {
  }

  /** The process dies any number of times, always inside this tick or with nothing in hand. */
  ghost predicate IsCrashedTick(states: seq<State>, hs: seq<Happening>, p: real) {
    && |states| == |hs| + 1
    && forall i | 0 <= i < |hs| ::
         Happens(states[i], hs[i], states[i + 1]) && (hs[i] == Restarted || hs[i] == CrashedIn(Tick(p)))
  }

  /** A tick, or the beginning of one, carries on within the bounds that an earlier book sets. */
  lemma TickStaysWithin(b: Book, p: real, s: State, whole: State, r: Reply, log: seq<Event>)
    requires Linked(b) && Consistent(b) && Within(b, p, BookOf(s.log))
    requires Next(s, Tick(p), whole, r) && s.log <= log <= whole.log
    ensures Lawful(s.token, log) && Within(b, p, BookOf(log))
  {
    hide Lawful, BookOf, LedgerOf, Linked, Consistent, Within, Reacts, Calmer, Triggered, Fills, KeepsPairs, Advances;
    PrefixIsLawful(s.token, whole.log, |log|);
    assert whole.log[..|log|] == log;
    var past := Fills(BookOf(s.log));
    PrefixReacts(past, s.log, log, whole.log, p);
    Advanced(s.token, past, s.log, log, p);
    StatusesOnlyAdvance(s.token, whole.log, |log|);
    CalmKeys(BookOf(s.log), BookOf(whole.log), p);
    WithinOrders(b, p, BookOf(s.log));
    KeysBetween(BookOf(s.log), BookOf(log), BookOf(whole.log));
    CascadeStaysWithin(s.token, b, p, past, s.log, log);
  }

  lemma {:induction false} CrashesStayWithin(states: seq<State>, hs: seq<Happening>, p: real, k: nat)
    requires IsCrashedTick(states, hs, p) && Inv(states[0]) && k < |states|
    ensures var b := BookOf(states[0].log); Linked(b) && Consistent(b) && Within(b, p, BookOf(states[k].log))
    ensures Lawful(states[k].token, states[k].log)
  {
    hide Lawful, BookOf, Linked, Consistent, Within, Next;
    var b := BookOf(states[0].log);
    if k == 0 {
      FullyWithin(b, p);
    } else {
      CrashesStayWithin(states, hs, p, k - 1);
      var s, s' := states[k - 1], states[k];
      assert Happens(s, hs[k - 1], s');
      HappeningKeepsLaw(s, hs[k - 1], s');
      if hs[k - 1].CrashedIn? {
        var whole, r :| Next(s, Tick(p), whole, r) && s.log <= s'.log <= whole.log;
        TickStaysWithin(b, p, s, whole, r, s'.log);
      }
    }
  }

  /**
   * However often a tick is cut short by crashes, at whatever writes: handled again, it ends in the book that it
   * would have settled if and only if the tables left by the last crash pass, and then every rule holds.
   */
  lemma CrashedTickRecoversIff(states: seq<State>, hs: seq<Happening>, p: real, s': State, r: Reply)
    requires IsCrashedTick(states, hs, p) && Inv(states[0]) && Next(states[|hs|], Tick(p), s', r)
    ensures Mended(BookOf(states[|hs|].log), [p]) <==> Settled(BookOf(states[0].log), p, BookOf(s'.log))
    ensures Mended(BookOf(states[|hs|].log), [p]) <==> Inv(s')
  {
    hide Lawful, BookOf, Linked, Consistent, Within, Next, Settled, Mended, Triggered, Happens;
    var s, b, now := states[|hs|], BookOf(states[0].log), BookOf(s'.log);
    CrashesStayWithin(states, hs, p, |hs|);
    LastPrice(s, p, s', r);
    TickStaysWithin(b, p, s, s', r, s'.log);
    WithinOrders(b, p, BookOf(s.log));
    LinkageIsImmutable(b, BookOf(s.log));
    ReplayRestoresIff([s, s'], [p]);
    if Inv(s') {
      ConsistentIsCalm(now);
      RestIsSettled(b, p, now);
    }
    if Settled(b, p, now) {
      SettledIsConsistent(b, p, now);
    }
  }

  // ---------- orders outside brackets ----------

  /** One of the prices fills the order. */
  predicate Reached(o: Order, prices: seq<real>) {
    exists i :: 0 <= i < |prices| && WouldFill(o, prices[i])
  }

  /** An order outside brackets is filled by the first price that reaches it, and else left as it was. */
  ghost predicate PlainAfter(b: Book, now: Book, prices: seq<real>, id: string) {
    && id in b && id in now && SameTerms(b[id], now[id])
    && now[id].status == if b[id].status == Resting && Reached(b[id], prices) then Filled else b[id].status
  }

  lemma ReachedGrows(o: Order, prices: seq<real>, p: real)
    ensures Reached(o, prices + [p]) <==> Reached(o, prices) || WouldFill(o, p)
  {
    hide WouldFill;
    var more := prices + [p];
    if Reached(o, prices) {
      var i :| 0 <= i < |prices| && WouldFill(o, prices[i]);
      assert WouldFill(o, more[i]);
    }
    if Reached(o, more) {
      var i :| 0 <= i < |more| && WouldFill(o, more[i]);
      assert i < |prices| ==> WouldFill(o, prices[i]);
    }
    assert more[|prices|] == p;
  }

  lemma PlainIsSound(token: string, log: seq<Event>, id: string)
    requires Lawful(token, log) && id in BookOf(log) && Standalone(BookOf(log)[id])
    ensures BookOf(log)[id].status != Unset && BookOf(log)[id].status != Pending
  {
    hide Lawful, BookOf, Validate;
    BookIsSound(token, log);
    if BookOf(log)[id].status == Pending {
      PendingIsLeg(token, log, id);
    }
  }

  /** No order names id as its sibling. */
  ghost predicate Unnamed(b: Book, id: string) {
    forall i | i in b :: b[i].siblingID != id
  }

  /** No order newly stored names id as its sibling. */
  ghost predicate NamesNot(log: seq<Event>, log': seq<Event>, id: string) {
    log <= log' && forall i | |log| <= i < |log'| && log'[i].Accepted? :: log'[i].order.siblingID != id
  }

  lemma {:induction false} StaysUnnamed(token: string, log: seq<Event>, log': seq<Event>, id: string)
    requires Lawful(token, log') && NamesNot(log, log', id) && Unnamed(BookOf(log), id) && id != ""
    ensures Unnamed(BookOf(log'), id)
    decreases |log'|
  {
    hide Lawful, BookOf, LedgerOf, WouldFill, Validate;
    if log != log' {
      var n := |log'| - 1;
      var before, e := log'[..n], log'[n];
      assert log' == before + [e];
      Grow(token, before, e);
      StaysUnnamed(token, log, before, id);
    }
  }

  lemma MessageNamesNot(s: State, m: Message, s': State, r: Reply, id: string)
    requires Lawful(s.token, s.log) && Admissible(m) && Next(s, m, s', r) && id in BookOf(s.log)
    ensures NamesNot(s.log, s'.log, id) && id != ""
  {
    hide Lawful, BookOf, LedgerOf, Calmer, KeepsPairs, Validate, ValidateBracket, WouldFill, Fills;
    BookIsSound(s.token, s.log);
    match m
    case PlaceOrder(o) =>
    case PlaceBracket(entry, target, stop) =>
    case CancelOrder(_) =>
    case Tick(_) =>
    case TakeSnapshot =>
  }

  /** A reaction either fills a plain order that its price reaches, or leaves it alone. */
  lemma PlainReaction(token: string, past: set<string>, log: seq<Event>, log': seq<Event>, p: real, id: string)
    requires Lawful(token, log') && Reacts(past, log, log', p) && id in BookOf(log) && Unnamed(BookOf(log'), id)
    requires BookOf(log)[id].status != Unset && BookOf(log)[id].status != Pending
    ensures var b, b' := BookOf(log), BookOf(log');
            && id in b' && SameTerms(b[id], b'[id])
            && (b'[id] == b[id] || (b[id].status == Resting && b'[id].status == Filled && WouldFill(b[id], p)))
  {
    hide Lawful, BookOf, Reacts, Fills, WouldFill;
    Advanced(token, past, log, log', p);
    var b, b' := BookOf(log), BookOf(log');
    if b'[id].status == Cancelled && b[id].status != Cancelled {
      var _ := CancelledBy(token, past, log, log', p, id);
    } else if b'[id].status == Filled && b[id].status != Filled {
      FilledAt(token, past, log, log', p, id);
    }
  }

  predicate Cancels(h: Happening, id: string) {
    (h.Handled? || h.CrashedIn?) && h.m == CancelOrder(id)
  }

  /** What one message does to a plain order: only a tick that reaches it fills it, and such a tick always does. */
  ghost predicate PlainMoves(b: Book, b': Book, m: Message, id: string) {
    && id in b && id in b' && SameTerms(b[id], b'[id])
    && (b'[id] == b[id] || (b[id].status == Resting && b'[id].status == Filled && m.Tick? && WouldFill(b[id], m.ltp)))
    && (m.Tick? && b'[id].status == Resting ==> !WouldFill(b[id], m.ltp))
  }

  lemma TickMovesPlain(s: State, p: real, s': State, r: Reply, id: string)
    requires Lawful(s.token, s.log) && Next(s, Tick(p), s', r)
    requires id in BookOf(s.log) && Standalone(BookOf(s.log)[id]) && Unnamed(BookOf(s'.log), id)
    ensures PlainMoves(BookOf(s.log), BookOf(s'.log), Tick(p), id)
  {
    hide Lawful, BookOf, Reacts, Fills, WouldFill, Calmer, KeepsPairs, Triggered;
    PlainIsSound(s.token, s.log, id);
    PlainReaction(s.token, Fills(BookOf(s.log)), s.log, s'.log, p, id);
    if BookOf(s'.log)[id].status == Resting {
      RestingIsMissed(BookOf(s.log), BookOf(s'.log), p, id);
    }
  }

  lemma RestingIsMissed(b: Book, b': Book, p: real, id: string)
    requires Triggered(b', p) == {} && id in b && id in b' && SameTerms(b[id], b'[id]) && b'[id].status == Resting
    ensures !WouldFill(b[id], p)
  {
    StatusIsNoTerm(b[id], Resting, p);
    assert id !in Triggered(b', p);
  }

  /** An order filled on arrival fills no plain order that rested before it. */
  lemma ArrivalMovesNoPlain(token: string, log: seq<Event>, price: Option<real>, o: Order, log': seq<Event>, id: string)
    requires FillsNow(token, log, price, o, log') && Lawful(token, log) && Lawful(token, log')
    requires Triggered(BookOf(log), price.value) == {}
    requires id in BookOf(log) && Standalone(BookOf(log)[id]) && Unnamed(BookOf(log'), id)
    ensures id in BookOf(log') && BookOf(log')[id] == BookOf(log)[id]
  {
    hide Lawful, BookOf, LedgerOf, Reacts, Fills, WouldFill, Calmer, KeepsPairs;
    PlainIsSound(token, log, id);
    PlainReaction(token, Fills(BookOf(log)), log, log', price.value, id);
    assert id !in Triggered(BookOf(log), price.value);
  }

  lemma PlaceMovesPlain(s: State, o: Order, s': State, r: Reply, id: string)
    requires Lawful(s.token, s.log) && MissesNothing(s) && Next(s, PlaceOrder(o), s', r)
    requires id in BookOf(s.log) && Standalone(BookOf(s.log)[id]) && Unnamed(BookOf(s'.log), id)
    ensures PlainMoves(BookOf(s.log), BookOf(s'.log), PlaceOrder(o), id)
  {
    hide Lawful, BookOf, LedgerOf, FillsNow, WouldFill, Validate, Triggered;
    if OrderVerdict(s.token, BookOf(s.log), o).Pass? {
      if Marketable(s.price, o) {
        ArrivalMovesNoPlain(s.token, s.log, s.price, o, s'.log, id);
      } else {
        Grow(s.token, s.log, Accepted(o.(status := Resting)));
      }
    }
  }

  lemma BracketMovesPlain(s: State, entry: Order, target: Order, stop: Order, s': State, r: Reply, id: string)
    requires Lawful(s.token, s.log) && MissesNothing(s) && Next(s, PlaceBracket(entry, target, stop), s', r)
    requires id in BookOf(s.log) && Standalone(BookOf(s.log)[id]) && Unnamed(BookOf(s'.log), id)
    ensures PlainMoves(BookOf(s.log), BookOf(s'.log), PlaceBracket(entry, target, stop), id)
  {
    hide Lawful, BookOf, LedgerOf, FillsNow, WouldFill, Validate, ValidateBracket, Triggered, LegsStored;
    var b := BookOf(s.log);
    if BracketVerdict(s.token, b, entry, target, stop).Pass? {
      var legs := LegsStored(s.log, entry, target, stop);
      LegsStoredBook(s.log, entry, target, stop);
      BracketPasses(s.token, b, entry, target, stop);
      if Marketable(s.price, entry) {
        assert legs < s'.log by { hide *; FillIsLater(s, entry, target, stop, s', r); }
        PrefixIsLawful(s.token, s'.log, |legs|);
        assert s'.log[..|legs|] == legs;
        RestMissesNothing(b, LinkLeg(target, entry, stop), s.price.value);
        RestMissesNothing(b[target.id := LinkLeg(target, entry, stop)], LinkLeg(stop, entry, target), s.price.value);
        ArrivalMovesNoPlain(s.token, legs, s.price, entry, s'.log, id);
      } else {
        Grow(s.token, legs, Accepted(entry.(status := Resting)));
      }
    }
  }

  lemma FillIsLater(s: State, entry: Order, target: Order, stop: Order, s': State, r: Reply)
    requires BracketVerdict(s.token, BookOf(s.log), entry, target, stop).Pass? && Marketable(s.price, entry)
    requires Next(s, PlaceBracket(entry, target, stop), s', r)
    ensures LegsStored(s.log, entry, target, stop) < s'.log
  {
    hide Lawful, BookOf, LedgerOf, Cascade, WouldFill, BracketVerdict, LegsStored;
  }

  lemma MessageMovesPlain(s: State, m: Message, s': State, r: Reply, id: string)
    requires Lawful(s.token, s.log) && MissesNothing(s) && Admissible(m) && Next(s, m, s', r) && m != CancelOrder(id)
    requires id in BookOf(s.log) && Standalone(BookOf(s.log)[id]) && Unnamed(BookOf(s.log), id)
    ensures PlainMoves(BookOf(s.log), BookOf(s'.log), m, id) && NamesNot(s.log, s'.log, id)
  {
    hide Lawful, BookOf, LedgerOf, NextPlace, NextBracket, NextTick, WouldFill, Triggered, Standalone;
    hide Unnamed, NamesNot, MissesNothing;
    MessageNamesNot(s, m, s', r, id);
    StaysUnnamed(s.token, s.log, s'.log, id);
    match m
    case PlaceOrder(o) => PlaceMovesPlain(s, o, s', r, id);
    case PlaceBracket(entry, target, stop) => BracketMovesPlain(s, entry, target, stop, s', r, id);
    case CancelOrder(other) =>
      BookIsSound(s.token, s.log);
      if other in BookOf(s.log) {
        Grow(s.token, s.log, Withdrawn(BookOf(s.log)[other].(status := Cancelled)));
      }
    case Tick(ltp) => TickMovesPlain(s, ltp, s', r, id);
    case TakeSnapshot =>
  }

  // ---------- over any piece of a history ----------

  predicate IsTick(h: Happening) {
    (h.Handled? || h.CrashedIn?) && h.m.Tick?
  }

  /** The prices of the ticks that were handled to the end. */
  function PricesHandled(hs: seq<Happening>): seq<real> {
    if hs == [] then []
    else
      var past, last := PricesHandled(hs[..|hs| - 1]), hs[|hs| - 1];
      if last.Handled? && last.m.Tick? then past + [last.m.ltp] else past
  }

  /** One of the ticks, finished or not, reaches the order. */
  predicate Touched(o: Order, hs: seq<Happening>) {
    exists k :: 0 <= k < |hs| && IsTick(hs[k]) && WouldFill(o, hs[k].m.ltp)
  }

  /** Where a plain order stands after some happenings. */
  ghost predicate PlainSoFar(b: Book, now: Book, hs: seq<Happening>, id: string) {
    && id in b && id in now && SameTerms(b[id], now[id])
    && (now[id] == b[id] || (b[id].status == Resting && now[id].status == Filled && Touched(b[id], hs)))
    && (now[id].status == Resting ==> !Reached(b[id], PricesHandled(hs)))
  }

  /** A crash leaves one order as the message found it, or as it would have left it. */
  lemma CutMovesOne(token: string, log: seq<Event>, cut: seq<Event>, whole: seq<Event>, id: string)
    requires Lawful(token, whole) && log <= cut <= whole && id in BookOf(log)
    requires BookOf(log)[id].status == Resting || Stage(BookOf(log)[id].status) == 3
    ensures id in BookOf(cut) && id in BookOf(whole)
    ensures BookOf(cut)[id] == BookOf(log)[id] || BookOf(cut)[id] == BookOf(whole)[id]
  {
    hide Lawful, BookOf;
    PrefixIsLawful(token, whole, |cut|);
    assert whole[..|cut|] == cut && cut[..|log|] == log;
    StatusesOnlyAdvance(token, whole, |cut|);
    StatusesOnlyAdvance(token, cut, |log|);
  }

  lemma HappeningMovesPlain(s: State, h: Happening, s': State, id: string)
    requires Lawful(s.token, s.log) && MissesNothing(s) && Happens(s, h, s') && !Cancels(h, id)
    requires id in BookOf(s.log) && Standalone(BookOf(s.log)[id]) && Unnamed(BookOf(s.log), id)
    ensures Unnamed(BookOf(s'.log), id) && id in BookOf(s'.log)
    ensures h.Handled? ==> PlainMoves(BookOf(s.log), BookOf(s'.log), h.m, id)
    ensures h.Restarted? ==> BookOf(s'.log)[id] == BookOf(s.log)[id]
    ensures h.CrashedIn? ==>
              var b, b' := BookOf(s.log), BookOf(s'.log);
              b'[id] == b[id] || (SameTerms(b[id], b'[id]) && b[id].status == Resting && b'[id].status == Filled
                                  && h.m.Tick? && WouldFill(b[id], h.m.ltp))
  {
    hide Lawful, BookOf, Next, WouldFill, Unnamed, NamesNot, MissesNothing, Standalone;
    BookIsSound(s.token, s.log);
    match h
    case Handled(m, r) =>
      MessageMovesPlain(s, m, s', r, id);
      HappeningKeepsLaw(s, h, s');
      StaysUnnamed(s.token, s.log, s'.log, id);
    case Restarted =>
    case CrashedIn(m) =>
      var whole, r :| Next(s, m, whole, r) && s.log <= s'.log <= whole.log;
      HappeningKeepsLaw(s, h, s');
      HappeningKeepsLaw(s, Handled(m, r), whole);
      MessageMovesPlain(s, m, whole, r, id);
      CutNamesNot(s.log, s'.log, whole.log, id);
      StaysUnnamed(s.token, s.log, s'.log, id);
      PlainIsSound(s.token, s.log, id);
      CutMovesOne(s.token, s.log, s'.log, whole.log, id);
  }

  lemma CutNamesNot(log: seq<Event>, cut: seq<Event>, whole: seq<Event>, id: string)
    requires NamesNot(log, whole, id) && log <= cut <= whole
    ensures NamesNot(log, cut, id)
  {
    assert forall i | |log| <= i < |cut| :: cut[i] == whole[i];
  }

  lemma TouchedGrows(o: Order, hs: seq<Happening>, h: Happening)
    ensures Touched(o, hs) || (IsTick(h) && WouldFill(o, h.m.ltp)) ==> Touched(o, hs + [h])
    ensures PricesHandled(hs + [h]) == PricesHandled(hs) + if h.Handled? && h.m.Tick? then [h.m.ltp] else []
  {
    hide WouldFill;
    var more := hs + [h];
    assert more[|hs|] == h && more[..|hs|] == hs;
    if Touched(o, hs) {
      var k :| 0 <= k < |hs| && IsTick(hs[k]) && WouldFill(o, hs[k].m.ltp);
      assert more[k] == hs[k];
    }
  }

  lemma PlainStep(b: Book, b1: Book, b2: Book, hs: seq<Happening>, h: Happening, id: string)
    requires PlainSoFar(b, b1, hs, id) && id in b2
    requires h.Handled? ==> PlainMoves(b1, b2, h.m, id)
    requires h.Restarted? ==> b2[id] == b1[id]
    requires h.CrashedIn? ==>
               b2[id] == b1[id] || (SameTerms(b1[id], b2[id]) && b1[id].status == Resting && b2[id].status == Filled
                                    && h.m.Tick? && WouldFill(b1[id], h.m.ltp))
    ensures PlainSoFar(b, b2, hs + [h], id)
  {
    TouchedGrows(b[id], hs, h);
    if h.Handled? && h.m.Tick? {
      ReachedGrows(b[id], PricesHandled(hs), h.m.ltp);
      StatusIsNoTerm(b[id], b1[id].status, h.m.ltp);
    }
    if h.CrashedIn? && h.m.Tick? {
      StatusIsNoTerm(b[id], b1[id].status, h.m.ltp);
    }
    hide WouldFill, Touched, Reached, PricesHandled;
  }

  lemma {:induction false} PlainBetween(token: string, states: seq<State>, hs: seq<Happening>,
                                        i: nat, j: nat, id: string)
    requires IsHistory(token, states, hs) && i <= j < |states|
    requires id in BookOf(states[i].log) && Standalone(BookOf(states[i].log)[id]) && Unnamed(BookOf(states[i].log), id)
    requires forall k | i <= k < j :: !Cancels(hs[k], id)
    ensures PlainSoFar(BookOf(states[i].log), BookOf(states[j].log), hs[i..j], id)
    ensures Unnamed(BookOf(states[j].log), id)
    decreases j
  {
    hide Lawful, BookOf, Happens, Unnamed, MissesNothing;
    var b := BookOf(states[i].log);
    if i == j {
      assert hs[i..j] == [];
      hide IsHistory;
    } else {
      PlainBetween(token, states, hs, i, j - 1, id);
      LogsStayLawful(token, states, hs, j - 1, j - 1);
      NothingIsMissed(token, states, hs, j - 1);
      var s, h, s' := states[j - 1], hs[j - 1], states[j];
      assert Happens(s, h, s');
      assert hs[i..j] == hs[i..j - 1] + [h];
      hide IsHistory;
      PlainKeepsTerms(b, BookOf(s.log), hs[i..j - 1], id);
      HappeningMovesPlain(s, h, s', id);
      PlainStep(b, BookOf(s.log), BookOf(s'.log), hs[i..j - 1], h, id);
    }
  }

  lemma PlainKeepsTerms(b: Book, now: Book, hs: seq<Happening>, id: string)
    requires PlainSoFar(b, now, hs, id) && Standalone(b[id])
    ensures id in now && Standalone(now[id])
  {
  }

  /** The price of each tick that crashed is also that of one that was handled. */
  ghost predicate CrashedTicksReplayed(hs: seq<Happening>) {
    forall k | 0 <= k < |hs| && hs[k].CrashedIn? && hs[k].m.Tick? :: hs[k].m.ltp in PricesHandled(hs)
  }

  lemma {:induction false} HandledIsListed(hs: seq<Happening>, k: nat)
    requires k < |hs| && hs[k].Handled? && hs[k].m.Tick?
    ensures hs[k].m.ltp in PricesHandled(hs)
  {
    var n := |hs| - 1;
    if k < n {
      HandledIsListed(hs[..n], k);
    }
  }

  /**
   * Orders outside brackets always recover.  Over any piece of any history, with any messages, restarts and crashes
   * inside messages, such an order that nobody cancels ends up filled exactly if one of the ticks handled reaches it,
   * as though there had been no crash, provided the ticks that crashed were replayed.
   */
  lemma PlainOrdersRecover(token: string, states: seq<State>, hs: seq<Happening>, i: nat, j: nat, id: string)
    requires IsHistory(token, states, hs) && i <= j < |states|
    requires id in BookOf(states[i].log) && Standalone(BookOf(states[i].log)[id]) && Unnamed(BookOf(states[i].log), id)
    requires CrashedTicksReplayed(hs[i..j]) && forall k | i <= k < j :: !Cancels(hs[k], id)
    ensures PlainAfter(BookOf(states[i].log), BookOf(states[j].log), PricesHandled(hs[i..j]), id)
  {
    hide Lawful, BookOf, Happens, PricesHandled, WouldFill;
    PlainBetween(token, states, hs, i, j, id);
    var o, piece := BookOf(states[i].log)[id], hs[i..j];
    if Touched(o, piece) {
      var k :| 0 <= k < |piece| && IsTick(piece[k]) && WouldFill(o, piece[k].m.ltp);
      if piece[k].Handled? {
        HandledIsListed(piece, k);
      }
      var n :| 0 <= n < |PricesHandled(piece)| && PricesHandled(piece)[n] == piece[k].m.ltp;
      assert Reached(o, PricesHandled(piece));
    }
  }
}
