/**
 * Whole histories of one instrument: messages, restarts between messages, and crashes in the
 * middle of a message (internal/instrument/actor.go:78-90, actor_state.go:43-56).
 */
module Histories {
  import opened Wrappers
  import opened Orders
  import opened Ledger
  import opened Journal
  import opened Settlement
  import opened Protocol
  import opened Runs

  datatype Happening =
    | Handled(m: Message, r: Reply)
    | Restarted                 // stopped between two messages and booted again
    | CrashedIn(m: Message)     // some prefix of the message's writes became durable

  ghost predicate Happens(s: State, h: Happening, s': State) {
    match h
    case Handled(m, r) => Admissible(m) && Next(s, m, s', r)
    case Restarted => s' == s.(price := None)
    case CrashedIn(m) =>
      && Admissible(m) && s'.token == s.token && s'.price.None?
      && exists whole, r :: Next(s, m, whole, r) && s.log <= s'.log <= whole.log
  }

  ghost predicate IsHistory(token: string, states: seq<State>, hs: seq<Happening>) {
    && |states| == |hs| + 1 && states[0] == State(token, [], None)
    && forall i | 0 <= i < |hs| :: Happens(states[i], hs[i], states[i + 1])
  }

  // ---------- any history, crashes anywhere ----------

  lemma HappeningKeepsLaw(s: State, h: Happening, s': State)
    requires Lawful(s.token, s.log) && Happens(s, h, s')
    ensures s'.token == s.token && Lawful(s.token, s'.log) && s.log <= s'.log
  {
    hide Lawful, NextPlace, NextBracket, NextCancel, NextTick, NextSnapshot;
    match h
    case Handled(_, _) =>
    case Restarted =>
    case CrashedIn(m) =>
      var whole, r :| Next(s, m, whole, r) && s.log <= s'.log <= whole.log;
      PrefixIsLawful(s.token, whole.log, |s'.log|);
      assert whole.log[..|s'.log|] == s'.log;
  }

  /** The durable log is lawful in every state, and what is durable is never lost. */
  lemma {:induction false} LogsStayLawful(token: string, states: seq<State>, hs: seq<Happening>, i: nat, j: nat)
    requires IsHistory(token, states, hs) && i <= j < |states|
    ensures states[j].token == token && Lawful(token, states[j].log)
    ensures states[i].log <= states[j].log
    decreases j
  {
    hide Happens, Lawful;
    if j == 0 {
      NoLogIsLawful(token);
    } else if i < j {
      LogsStayLawful(token, states, hs, i, j - 1);
      HappeningKeepsLaw(states[j - 1], hs[j - 1], states[j]);
    } else {
      LogsStayLawful(token, states, hs, j - 1, j - 1);
      HappeningKeepsLaw(states[j - 1], hs[j - 1], states[j]);
    }
  }

  lemma NoLogIsLawful(token: string)
    ensures Lawful(token, [])
  {
  }

  /** However often the process dies, the ledger is the fold over one fill per Filled order. */
  lemma LedgerSurvivesCrashes(token: string, states: seq<State>, hs: seq<Happening>, j: nat)
    requires IsHistory(token, states, hs) && j < |states|
    ensures var log := states[j].log;
            && LedgerOf(log) == Fold(FillsOf(log)) && LedgerOf(log).qty == NetQty(BookOf(log))
            && forall id ::
                 FillCount(log, id) == if id in BookOf(log) && BookOf(log)[id].status == Filled then 1 else 0
  {
    hide IsHistory, Lawful;
    LogsStayLawful(token, states, hs, j, j);
    var log := states[j].log;
    ExactlyOnceLedger(token, log, |log|);
    assert log[..|log|] == log;
  }

  /**
   * The books in plain terms, whenever and however often the process dies: the position is the quantity of the buys
   * that filled less that of the sells that filled, and total profit at any price x is what the sells brought in,
   * less what the buys cost, plus the position at x.
   */
  lemma PositionInPlainTerms(token: string, states: seq<State>, hs: seq<Happening>, j: nat, x: real)
    requires IsHistory(token, states, hs) && j < |states|
    ensures var b, pos, fills := BookOf(states[j].log), LedgerOf(states[j].log), FillsOf(states[j].log);
            && pos.qty == FilledQty(b, Buy) - FilledQty(b, Sell)
            && pos.qty == VolumeOf(fills, Buy) - VolumeOf(fills, Sell)
            && pos.realizedPnL + pos.qty as real * (x - pos.avgPrice) ==
               TurnoverOf(fills, Sell) - TurnoverOf(fills, Buy) + pos.qty as real * x
  {
    hide *;
    var log := states[j].log;
    LogsStayLawful(token, states, hs, j, j);
    QtyIsNetQty(token, log);
    BookIsTwoSided(token, log);
    NetQtyBySide(BookOf(log));
    LedgerIsFold(token, log);
    FillsAreSided(token, log);
    BooksAreCash(FillsOf(log), x);
  }

  /** A cancel reply tells the state in which the cancel leaves the order. */
  lemma CancelReplyIsNow(s: State, id: string, s': State, r: Reply)
    requires Lawful(s.token, s.log) && Next(s, CancelOrder(id), s', r)
    ensures r.CancelReply? && (r.cancelled == NotFound <==> id !in BookOf(s.log))
    ensures r.cancelled != NotFound ==>
              && id in BookOf(s'.log)
              && BookOf(s'.log)[id].status == (if r.cancelled == AlreadyFilled then Filled else Cancelled)
  {
    hide Lawful, BookOf, LedgerOf, Validate, WouldFill, Admits;
    BookIsSound(s.token, s.log);
    if id in BookOf(s.log) {
      Grow(s.token, s.log, Withdrawn(BookOf(s.log)[id].(status := Cancelled)));
    }
  }

  /**
   * A cancel reply is the truth for ever: an order reported cancelled never executed and never
   * will; one reported filled executed once and never will again.  Later crashes change nothing.
   */
  lemma CancelIsTruthful(token: string, states: seq<State>, hs: seq<Happening>, i: nat, j: nat, id: string)
    requires IsHistory(token, states, hs) && i < |hs| && i < j < |states|
    requires hs[i].Handled? && hs[i].m == CancelOrder(id)
    ensures hs[i].r.CancelReply?
    ensures hs[i].r.cancelled == NotFound <==> id !in BookOf(states[i].log)
    ensures hs[i].r.cancelled == NotFound ==> FillCount(states[i].log, id) == 0
    ensures hs[i].r.cancelled != NotFound ==> id in BookOf(states[j].log)
    ensures hs[i].r.cancelled == CancelledNow || hs[i].r.cancelled == AlreadyCancelled ==>
              FillCount(states[j].log, id) == 0 && BookOf(states[j].log)[id].status == Cancelled
    ensures hs[i].r.cancelled == AlreadyFilled ==>
              FillCount(states[j].log, id) == 1 && BookOf(states[j].log)[id].status == Filled
  {
    hide Lawful, BookOf, FillCount, Next, NextCancel;
    LogsStayLawful(token, states, hs, i + 1, j);
    LogsStayLawful(token, states, hs, i, i);
    assert Happens(states[i], hs[i], states[i + 1]);
    var now, later := states[i + 1].log, states[j].log;
    CancelReplyIsNow(states[i], id, states[i + 1], hs[i].r);
    StatusesOnlyAdvance(token, later, |now|);
    assert later[..|now|] == now;
    OneFillPerFilledOrder(token, later, id);
    OneFillPerFilledOrder(token, states[i].log, id);
  }

  /** Executions happen only while handling a message, at the price then in force. */
  lemma FillsAtLastPrice(s: State, m: Message, s': State, r: Reply, i: nat)
    requires Next(s, m, s', r) && |s.log| <= i < |s'.log| && s'.log[i].Executed?
    ensures s'.price == Some(s'.log[i].fill.price)
  {
    hide Lawful, BookOf, LedgerOf, Calmer, Linked, Clashes, Validate, ValidateBracket;
    match m
    case PlaceOrder(o) =>
    case PlaceBracket(entry, target, stop) =>
    case CancelOrder(id) =>
    case Tick(ltp) =>
    case TakeSnapshot =>
  }

  /** A limit never fills worse than its limit, and a stop never before its trigger. */
  lemma PriceProtection(token: string, states: seq<State>, hs: seq<Happening>, j: nat, k: nat)
    requires IsHistory(token, states, hs) && j < |states| && k < |FillsOf(states[j].log)|
    ensures var f := FillsOf(states[j].log)[k];
            && f.orderID in BookOf(states[j].log)
            && var o := BookOf(states[j].log)[f.orderID];
               && o.status == Filled && f == Fill(o.id, token, o.side, o.qty, f.price)
               && (o.kind == Limit && o.side == Buy ==> f.price <= o.limitPrice)
               && (o.kind == Limit && o.side == Sell ==> f.price >= o.limitPrice)
               && (o.kind == Stop && o.side == Sell ==> f.price <= o.limitPrice)
               && (o.kind == Stop && o.side == Buy ==> f.price >= o.limitPrice)
  {
    hide IsHistory, Lawful, BookOf, FillsOf;
    LogsStayLawful(token, states, hs, j, j);
    FillsMatchOrders(token, states[j].log);
    BookIsSound(token, states[j].log);
  }

  /** Every tick, also one cut short by a crash, is at a positive price. */
  ghost predicate PositiveTicks(hs: seq<Happening>) {
    forall i | 0 <= i < |hs| ::
      && (hs[i].Handled? && hs[i].m.Tick? ==> hs[i].m.ltp > 0.0)
      && (hs[i].CrashedIn? && hs[i].m.Tick? ==> hs[i].m.ltp > 0.0)
  }

  ghost predicate PositiveFills(log: seq<Event>) {
    forall i | 0 <= i < |log| && log[i].Executed? :: log[i].fill.price > 0.0
  }

  lemma MessageFillsPositive(s: State, m: Message, s': State, r: Reply)
    requires Next(s, m, s', r) && PositiveFills(s.log) && (s.price.Some? ==> s.price.value > 0.0)
    requires m.Tick? ==> m.ltp > 0.0
    ensures PositiveFills(s'.log) && (s'.price.Some? ==> s'.price.value > 0.0)
  {
    PriceAfter(s, m, s', r);
    forall i | 0 <= i < |s'.log| && s'.log[i].Executed?
      ensures s'.log[i].fill.price > 0.0
    {
      if i < |s.log| {
        assert s'.log[i] == s.log[i];
      } else {
        FillsAtLastPrice(s, m, s', r, i);
      }
    }
  }

  lemma PriceAfter(s: State, m: Message, s': State, r: Reply)
    requires Next(s, m, s', r)
    ensures s'.price == if m.Tick? then Some(m.ltp) else s.price
  {
    hide Lawful, BookOf, LedgerOf, Cascade, OrderVerdict, BracketVerdict, WouldFill;
  }

  lemma {:induction false} HistoryFillsPositive(token: string, states: seq<State>, hs: seq<Happening>, j: nat)
    requires IsHistory(token, states, hs) && PositiveTicks(hs) && j < |states|
    ensures PositiveFills(states[j].log) && (states[j].price.Some? ==> states[j].price.value > 0.0)
  {
    hide Next, PositiveFills;
    if j == 0 {
      NoFillsPositive();
    } else {
      HistoryFillsPositive(token, states, hs, j - 1);
      var s, h, s' := states[j - 1], hs[j - 1], states[j];
      assert Happens(s, h, s');
      match h
      case Handled(m, r) =>
        MessageFillsPositive(s, m, s', r);
      case Restarted =>
      case CrashedIn(m) =>
        var whole, r :| Next(s, m, whole, r) && s.log <= s'.log <= whole.log;
        MessageFillsPositive(s, m, whole, r);
        PrefixFillsPositive(s'.log, whole.log);
    }
  }

  lemma NoFillsPositive()
    ensures PositiveFills([])
  {
  }

  lemma PrefixFillsPositive(log: seq<Event>, log': seq<Event>)
    requires PositiveFills(log') && log <= log'
    ensures PositiveFills(log)
  {
  }

  lemma {:induction false} FillPricesPositive(log: seq<Event>)
    requires PositiveFills(log)
    ensures forall i | 0 <= i < |FillsOf(log)| :: FillsOf(log)[i].price > 0.0
  {
    if log != [] {
      var n := |log| - 1;
      PrefixFillsPositive(log[..n], log);
      FillPricesPositive(log[..n]);
    }
  }

  /**
   * The average price over any history of positive ticks, crashes included: zero exactly when the position is flat,
   * and otherwise within the prices traded since the fill, which always exists, that opened the position.
   */
  lemma AverageOverHistories(token: string, states: seq<State>, hs: seq<Happening>, j: nat) returns (k: nat)
    requires IsHistory(token, states, hs) && PositiveTicks(hs) && j < |states|
    ensures var pos := LedgerOf(states[j].log); pos.qty == 0 <==> pos.avgPrice == 0.0
    ensures var pos, fills := LedgerOf(states[j].log), FillsOf(states[j].log);
            pos.qty != 0 ==>
              && OpenedBy(fills, k) && pos.avgPrice > 0.0
              && forall lo, hi | PricesWithin(fills, k, lo, hi) :: lo <= pos.avgPrice <= hi
  {
    hide IsHistory, Lawful, LedgerOf, FillsOf, PositiveTicks, OpenedBy, PricesWithin;
    var log, fills := states[j].log, FillsOf(states[j].log);
    LogsStayLawful(token, states, hs, j, j);
    HistoryFillsPositive(token, states, hs, j);
    FillPricesPositive(log);
    LedgerIsFold(token, log);
    FlatIffNoAverage(fills);
    QtyIsNet(fills);
    k := 0;
    if NetOf(fills) != 0 {
      k := OpeningExists(fills);
      forall lo, hi | PricesWithin(fills, k, lo, hi)
        ensures lo <= LedgerOf(log).avgPrice <= hi
      {
        AverageWithinTradedRange(fills, k, lo, hi);
      }
    }
  }

  // ---------- histories whose crashes fall between messages ----------

  lemma EmptyInv(token: string)
    ensures Inv(State(token, [], None))
  {
  }

  /** Linkage, one-cancels-other and no missed trigger hold between all messages. */
  lemma {:induction false} InvHolds(token: string, states: seq<State>, hs: seq<Happening>, j: nat)
    requires IsHistory(token, states, hs) && j < |states|
    requires forall i | 0 <= i < j :: !hs[i].CrashedIn?
    ensures Inv(states[j])
  {
    hide Inv, Next;
    if j == 0 {
      EmptyInv(token);
    } else {
      InvHolds(token, states, hs, j - 1);
      var s, h, s' := states[j - 1], hs[j - 1], states[j];
      assert Happens(s, h, s');
      if h.Handled? {
        MessageKeepsInv(s, h.m, s', h.r);
      } else {
        RestartKeepsInv(s);
      }
    }
  }

  lemma RestartKeepsInv(s: State)
    requires Inv(s)
    ensures Inv(s.(price := None))
  {
  }

  /** Whatever crashes left undone, no resting order could fill at the price in force. */
  lemma {:induction false} NothingIsMissed(token: string, states: seq<State>, hs: seq<Happening>, j: nat)
    requires IsHistory(token, states, hs) && j < |states|
    ensures MissesNothing(states[j])
  {
    hide MissesNothing, Next, Lawful;
    if j == 0 {
      NoPriceNoMiss(states[0]);
    } else {
      NothingIsMissed(token, states, hs, j - 1);
      LogsStayLawful(token, states, hs, j - 1, j - 1);
      var s, h, s' := states[j - 1], hs[j - 1], states[j];
      assert Happens(s, h, s');
      if h.Handled? {
        MessageMissesNothing(s, h.m, s', h.r);
      } else {
        NoPriceNoMiss(s');
      }
    }
  }

  lemma NoPriceNoMiss(s: State)
    requires s.price.None?
    ensures MissesNothing(s)
  {
  }

  /** The market is on the far side of the order's price: above a bid, below an offer, short of a stop. */
  predicate Waits(o: Order, ltp: real) {
    !o.kind.Market? &&
    if o.kind.Limit? == o.side.Buy? then ltp > o.limitPrice else ltp < o.limitPrice
  }

  /** A sound order waits exactly while it would not fill. */
  lemma WaitsIffUnfilled(token: string, o: Order, ltp: real)
    requires Sound(token, o)
    ensures Waits(o, ltp) <==> !WouldFill(o, ltp)
  {
  }

  /** One cancels the other, and nothing marketable is left resting. */
  lemma BracketsAreSafe(token: string, states: seq<State>, hs: seq<Happening>, j: nat, id: string)
    requires IsHistory(token, states, hs) && j < |states| && id in BookOf(states[j].log)
    requires forall i | 0 <= i < j :: !hs[i].CrashedIn?
    ensures var b := BookOf(states[j].log);
            && (b[id].siblingID != "" ==> b[id].siblingID in b && b[id].entryID in b)
            && (b[id].siblingID != "" && b[id].status == Filled ==> b[b[id].siblingID].status == Cancelled)
            && (b[id].siblingID != "" && b[b[id].entryID].status == Filled ==> b[id].status != Pending)
            && (b[id].siblingID != "" && b[b[id].entryID].status == Cancelled ==>
                  b[id].status == Pending || b[id].status == Cancelled)
            && (states[j].price.Some? && b[id].status == Resting ==> Waits(b[id], states[j].price.value))
    ensures var b := BookOf(states[j].log);
            b[id].siblingID != "" ==>
              var entry, sib := b[b[id].entryID], b[b[id].siblingID];
              Contribution(entry) + Contribution(b[id]) + Contribution(sib) ==
              if entry.status == Filled && b[id].status != Filled && sib.status != Filled
              then if entry.side == Buy then entry.qty else -entry.qty else 0
  {
    hide IsHistory, Lawful, BookOf;
    InvHolds(token, states, hs, j);
    var b := BookOf(states[j].log);
    LogsStayLawful(token, states, hs, j, j);
    BookIsSound(token, states[j].log);
    if states[j].price.Some? {
      WaitsIffUnfilled(token, b[id], states[j].price.value);
      assert id !in Triggered(b, states[j].price.value);
    }
    assert LinkedAt(b, id);
    assert id !in Orphans(b);
    if b[id].siblingID != "" {
      assert LinkedAt(b, b[id].siblingID);
      BracketExposure(b, id);
    }
  }

  // ---------- one price, many orders of iteration ----------

  /** Any number of executions at one price leaves total equity at that price unchanged. */
  lemma {:induction false} CascadeKeepsEquity(token: string, log: seq<Event>, log': seq<Event>, p: real)
    requires Lawful(token, log') && log <= log'
    requires forall i | |log| <= i < |log'| && log'[i].Executed? :: log'[i].fill.price == p
    ensures Equity(LedgerOf(log'), p) == Equity(LedgerOf(log), p)
    decreases |log'|
  {
    hide ApplyFill, Equity, WouldFill, Validate, BookOf;
    if log != log' {
      var n := |log'| - 1;
      var past, e := log'[..n], log'[n];
      assert log' == past + [e];
      Grow(token, past, e);
      CascadeKeepsEquity(token, log, past, p);
      if e.Executed? {
        assert log'[n].fill.price == p;
        EquityAtFillPrice(LedgerOf(past), e.fill);
      }
    }
  }

  /** No message moves equity at the price in force: fills at the market are worth nothing yet. */
  lemma MessageKeepsEquity(s: State, m: Message, s': State, r: Reply)
    requires Next(s, m, s', r) && s'.price.Some?
    ensures Equity(LedgerOf(s'.log), s'.price.value) == Equity(LedgerOf(s.log), s'.price.value)
  {
    forall i | |s.log| <= i < |s'.log| && s'.log[i].Executed?
      ensures s'.log[i].fill.price == s'.price.value
    {
      FillsAtLastPrice(s, m, s', r, i);
    }
    hide NextPlace, NextBracket, NextCancel, NextTick, NextSnapshot, Equity, Lawful, LedgerOf;
    CascadeKeepsEquity(s.token, s.log, s'.log, s'.price.value);
  }

  /**
   * Confluence: two actors that handle the same tick from the same state, ranging in different
   * orders, agree on every order up to which leg of a contested bracket won, on the position's
   * quantity, and on total profit.
   */
  lemma TickIsConfluent(s: State, ltp: real, x: State, y: State)
    requires Inv(s) && Next(s, Tick(ltp), x, NoReply) && Next(s, Tick(ltp), y, NoReply)
    ensures var b, b1, b2 := BookOf(s.log), BookOf(x.log), BookOf(y.log);
            && b1.Keys == b2.Keys == b.Keys
            && (forall id | id in b && !Contested(b, ltp, id) :: b1[id] == b2[id])
            && (forall id | id in b && Contested(b, ltp, id) && b1[id] != b2[id] ::
                  b1[id].status == b2[b[id].siblingID].status && b1[b[id].siblingID].status == b2[id].status)
    ensures LedgerOf(x.log).qty == LedgerOf(y.log).qty
    ensures Equity(LedgerOf(x.log), ltp) == Equity(LedgerOf(y.log), ltp)
  {
    hide Lawful, BookOf, LedgerOf, Linked, Consistent, Settled, Cascade, Triggered, Equity;
    TickKeepsInv(s, ltp, x, NoReply);
    TickKeepsInv(s, ltp, y, NoReply);
    var b, b1, b2 := BookOf(s.log), BookOf(x.log), BookOf(y.log);
    SameKeys(b, ltp, b1, b2);
    forall id | id in b
      ensures !Contested(b, ltp, id) ==> b1[id] == b2[id]
      ensures Contested(b, ltp, id) && b1[id] != b2[id] ==>
                b[id].siblingID in b
                && b1[id].status == b2[b[id].siblingID].status && b1[b[id].siblingID].status == b2[id].status
    {
      SettlementIsUnique(b, ltp, b1, b2, id);
    }
    SettledQtyIsUnique(b, ltp, b1, b2);
    QtyIsNetQty(s.token, x.log);
    QtyIsNetQty(s.token, y.log);
    MessageKeepsEquity(s, Tick(ltp), x, NoReply);
    MessageKeepsEquity(s, Tick(ltp), y, NoReply);
  }

  // ---------- replay ----------

  ghost predicate IsRun(states: seq<State>, ms: seq<Message>, rs: seq<Reply>) {
    && |states| == |ms| + 1 && |rs| == |ms|
    && forall i | 0 <= i < |ms| :: Next(states[i], ms[i], states[i + 1], rs[i])
  }

  /** The first write of a tick executes an order that was resting and marketable. */
  lemma FirstWriteFills(token: string, log: seq<Event>, log': seq<Event>, p: real)
    requires Lawful(token, log') && Cascade(BookOf(log), log, log', p) && log != log'
    ensures log'[|log|].order.id in Triggered(BookOf(log), p)
  {
    hide Lawful, BookOf, LedgerOf, ApplyFill, Validate, WouldFill, Triggered, Rivals, Orphans, Doubled, Clashes, Linked;
    var n := |log|;
    var e, first := log'[n], log'[..n + 1];
    assert first == log + [e];
    PrefixIsLawful(token, log', n + 1);
    Grow(token, log, e);
    StatusesOnlyAdvance(token, log', n + 1);
    EventKind(token, BookOf(log), LedgerOf(log), e);
    assert Reaction(Fills(BookOf(log)), e, p);
    assert e.order.id in BookOf(first) && e.order.id in BookOf(log');
    IsTriggered(BookOf(log), e.order, p);
  }

  lemma IsTriggered(b: Book, o: Order, p: real)
    requires o.id in b && b[o.id] == o.(status := Resting) && WouldFill(o, p)
    ensures o.id in Triggered(b, p)
  {
    StatusIsNoTerm(o, Resting, p);
  }

  /**
   * A tick leaves the actor's orders and ledger alone exactly when no resting order is marketable at it, also in a
   * book that a crash left half done.
   */
  lemma TickIsIdleIff(s: State, ltp: real, s': State, r: Reply)
    requires Lawful(s.token, s.log) && Next(s, Tick(ltp), s', r)
    ensures s'.log == s.log <==> Triggered(BookOf(s.log), ltp) == {}
    ensures Inv(s) && s.price == Some(ltp) ==> s' == s
  {
    hide Lawful, BookOf, Cascade, Triggered;
    if s'.log != s.log {
      FirstWriteFills(s.token, s.log, s'.log, ltp);
    }
  }

  /** The orders marketable at p that were not resting yet in an earlier book. */
  function Newcomers(earlier: Book, b: Book, p: real): set<string> {
    set id | id in Triggered(b, p) && (id !in earlier || earlier[id].status == Pending)
  }

  /**
   * Once a tick at p has been handled, only an order that began to rest afterwards can ever be
   * marketable at p, whatever happens in between, crashes included.
   */
  lemma ReplayFillsOnlyNewcomers(token: string, states: seq<State>, hs: seq<Happening>, i: nat, j: nat, p: real)
    requires IsHistory(token, states, hs) && i < |hs| && i < j < |states|
    requires hs[i].Handled? && hs[i].m == Tick(p)
    ensures var earlier, b := BookOf(states[i + 1].log), BookOf(states[j].log);
            Triggered(b, p) == Newcomers(earlier, b, p)
  {
    hide Lawful, BookOf, Cascade, WouldFill;
    LogsStayLawful(token, states, hs, i + 1, j);
    LogsStayLawful(token, states, hs, i + 1, i + 1);
    assert Happens(states[i], hs[i], states[i + 1]);
    var was, now := states[i + 1].log, states[j].log;
    StatusesOnlyAdvance(token, now, |was|);
    assert now[..|was|] == was;
    BookIsSound(token, was);
    forall id | id in Triggered(BookOf(now), p)
      ensures id !in BookOf(was) || BookOf(was)[id].status == Pending
    {
      RestingWasNew(BookOf(was), BookOf(now), p, id);
    }
  }

  lemma RestingWasNew(earlier: Book, b: Book, p: real, id: string)
    requires Advances(earlier, b) && Triggered(earlier, p) == {} && id in Triggered(b, p)
    requires id in earlier ==> earlier[id].status != Unset
    ensures id !in earlier || earlier[id].status == Pending
  {
    if id in earlier {
      assert SameTerms(earlier[id], b[id]);
      assert id !in Triggered(earlier, p);
      StatusIsNoTerm(earlier[id], b[id].status, p);
    }
  }

  /**
   * A tick that was handled before and comes again, through any number of restarts and crashes, changes orders
   * and ledger exactly when it is marketable for an order that began to rest since.
   */
  lemma ReplayedTickIsHarmlessIff(token: string, states: seq<State>, hs: seq<Happening>, i: nat, j: nat, p: real)
    requires IsHistory(token, states, hs) && i < j < |hs|
    requires hs[i].Handled? && hs[i].m == Tick(p) && hs[j].Handled? && hs[j].m == Tick(p)
    ensures states[j + 1].log == states[j].log <==>
            Newcomers(BookOf(states[i + 1].log), BookOf(states[j].log), p) == {}
  {
    ReplayFillsOnlyNewcomers(token, states, hs, i, j, p);
    LogsStayLawful(token, states, hs, j, j);
    assert Happens(states[j], hs[j], states[j + 1]);
    hide Lawful, BookOf, NextTick, Inv, Newcomers, Triggered, IsHistory;
    TickIsIdleIff(states[j], p, states[j + 1], hs[j].r);
  }

  // ---------- legs that a crash left behind ----------

  /** None of the new events activates a leg of an entry that had filled before. */
  ghost predicate ActivatesNoneOf(past: set<string>, log: seq<Event>, log': seq<Event>) {
    log <= log' && forall i | |log| <= i < |log'| && log'[i].Activated? :: log'[i].order.entryID !in past
  }

  lemma MessageActivatesNoneOf(s: State, m: Message, s': State, r: Reply)
    requires Lawful(s.token, s.log) && Next(s, m, s', r)
    ensures ActivatesNoneOf(Fills(BookOf(s.log)), s.log, s'.log)
  {
    hide Lawful, BookOf, LedgerOf, Calmer, Linked, Clashes, Validate, ValidateBracket, WouldFill, Fills;
    match m
    case PlaceOrder(o) =>
    case PlaceBracket(entry, target, stop) =>
      var legs := LegsStored(s.log, entry, target, stop);
      if s.log != s'.log && legs <= s'.log {
        StoredLegsKeepFills(s.token, s.log, s'.log, entry, target, stop);
      }
    case CancelOrder(id) =>
    case Tick(ltp) =>
    case TakeSnapshot =>
  }

  lemma StoredLegsKeepFills(token: string, log: seq<Event>, log': seq<Event>, entry: Order, target: Order, stop: Order)
    requires Lawful(token, log') && LegsStored(log, entry, target, stop) <= log'
    ensures Fills(BookOf(log)) <= Fills(BookOf(LegsStored(log, entry, target, stop)))
  {
    hide Lawful, BookOf;
    var legs := LegsStored(log, entry, target, stop);
    PrefixIsLawful(token, log', |legs|);
    assert log'[..|legs|] == legs;
    StatusesOnlyAdvance(token, legs, |log|);
    assert legs[..|log|] == log;
    FillsOnlyGrow(BookOf(log), BookOf(legs));
  }

  lemma FillsOnlyGrow(b: Book, b': Book)
    requires Advances(b, b')
    ensures Fills(b) <= Fills(b')
  {
  }

  lemma {:induction false} StrandedInLog(token: string, past: set<string>,
                                         log: seq<Event>, log': seq<Event>, id: string)
    requires Lawful(token, log') && ActivatesNoneOf(past, log, log')
    requires id in BookOf(log) && BookOf(log)[id].status == Pending && BookOf(log)[id].entryID in past
    ensures id in BookOf(log') && SameTerms(BookOf(log)[id], BookOf(log')[id])
    ensures BookOf(log')[id].status == Pending || BookOf(log')[id].status == Cancelled
    decreases |log'|
  {
    hide Admits, Lawful, BookOf, LedgerOf, WouldFill;
    if log != log' {
      var n := |log'| - 1;
      var before, e := log'[..n], log'[n];
      assert log' == before + [e];
      Grow(token, before, e);
      StrandedInLog(token, past, log, before, id);
      if e.order.id == id {
        EventAdvances(token, BookOf(before), LedgerOf(before), e);
        EventKind(token, BookOf(before), LedgerOf(before), e);
      }
    }
  }

  lemma StrandedStep(s: State, h: Happening, s': State, id: string)
    requires Lawful(s.token, s.log) && Happens(s, h, s') && id in Orphans(BookOf(s.log))
    ensures id in Orphans(BookOf(s'.log)) || (id in BookOf(s'.log) && BookOf(s'.log)[id].status == Cancelled)
  {
    hide Lawful, BookOf, LedgerOf, Next;
    var past, e := Fills(BookOf(s.log)), BookOf(s.log)[id].entryID;
    HappeningKeepsLaw(s, h, s');
    match h {
      case Handled(m, r) =>
        MessageActivatesNoneOf(s, m, s', r);
      case Restarted =>
      case CrashedIn(m) =>
        var whole, r :| Next(s, m, whole, r) && s.log <= s'.log <= whole.log;
        MessageActivatesNoneOf(s, m, whole, r);
        PrefixActivates(past, s.log, s'.log, whole.log);
    }
    StrandedInLog(s.token, past, s.log, s'.log, id);
    StatusesOnlyAdvance(s.token, s'.log, |s.log|);
    assert s'.log[..|s.log|] == s.log;
    FillsOnlyGrow(BookOf(s.log), BookOf(s'.log));
  }

  lemma PrefixActivates(past: set<string>, log: seq<Event>, mid: seq<Event>, log': seq<Event>)
    requires ActivatesNoneOf(past, log, log') && log <= mid <= log'
    ensures ActivatesNoneOf(past, log, mid)
  {
    forall i | |log| <= i < |mid| && mid[i].Activated?
      ensures mid[i].order.entryID !in past
    {
      assert mid[i] == log'[i];
    }
  }

  /**
   * A leg that is still pending after its entry has filled is lost for good: in every later state, through any
   * messages, restarts and crashes, it is pending or cancelled.
   */
  lemma {:induction false} StrandedForEver(token: string, states: seq<State>, hs: seq<Happening>,
                                           i: nat, j: nat, id: string)
    requires IsHistory(token, states, hs) && i <= j < |states| && id in Orphans(BookOf(states[i].log))
    ensures id in BookOf(states[j].log)
    ensures BookOf(states[j].log)[id].status == Pending || BookOf(states[j].log)[id].status == Cancelled
    ensures BookOf(states[j].log)[id].status == Pending ==> id in Orphans(BookOf(states[j].log))
    decreases j
  {
    hide Happens, Lawful, BookOf;
    if i < j {
      StrandedForEver(token, states, hs, i, j - 1, id);
      LogsStayLawful(token, states, hs, j - 1, j - 1);
      LogsStayLawful(token, states, hs, j - 1, j);
      LogsStayLawful(token, states, hs, j, j);
      var s, s' := states[j - 1], states[j];
      if id in Orphans(BookOf(s.log)) {
        StrandedStep(s, hs[j - 1], s', id);
      } else {
        StatusesOnlyAdvance(token, s'.log, |s.log|);
        assert s'.log[..|s.log|] == s.log;
      }
    }
  }

  /**
   * The reply to an accepted bracket shows its legs pending or resting, as messages.go:63 says
   * of every accepted bracket, exactly when no leg is marketable at the price that fills the entry.
   */
  lemma LegsAreQuietIff(s: State, entry: Order, target: Order, stop: Order, s': State, r: Reply)
    requires Inv(s) && Admissible(PlaceBracket(entry, target, stop))
    requires Next(s, PlaceBracket(entry, target, stop), s', r) && r.outcome != Rejected
    ensures Live(r.target) && Live(r.stop) <==>
            !(Marketable(s.price, entry) && (WouldFill(target, s.price.value) || WouldFill(stop, s.price.value)))
  {
    hide BookOf, LedgerOf, Lawful, Validate, Cascade, Linked, Consistent, Inv, Settled, BracketBook, WouldFill;
    if Marketable(s.price, entry) {
      BracketKeepsInv(s, entry, target, stop, s', r);
      LegsSettle(BookOf(s.log), entry, target, stop, s.price.value, BookOf(s'.log));
    }
  }

  /** The legs of a bracket whose entry fills at once are live afterwards exactly if neither fills too. */
  lemma LegsSettle(b: Book, entry: Order, target: Order, stop: Order, p: real, b': Book)
    requires entry.id != target.id && entry.id != stop.id && target.id != stop.id && entry.id != ""
    requires target.id != "" && stop.id != "" && WouldFill(entry, p)
    requires Settled(BracketBook(b, entry, target, stop), p, b') && target.id in b' && stop.id in b'
    ensures Live(b'[target.id]) && Live(b'[stop.id]) <==> !(WouldFill(target, p) || WouldFill(stop, p))
  {
    var base := BracketBook(b, entry, target, stop);
    var t, q := LinkLeg(target, entry, stop), LinkLeg(stop, entry, target);
    assert base[target.id] == t && base[stop.id] == q && base[entry.id].status == Resting;
    assert WouldFill(base[entry.id], p) == WouldFill(entry, p);
    assert WouldFill(t, p) == WouldFill(target, p) && WouldFill(q, p) == WouldFill(stop, p);
    assert InPlay(base, p, target.id) && InPlay(base, p, stop.id);
    hide WouldFill, InPlay, BracketBook;
  }
}
