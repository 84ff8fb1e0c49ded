/**
 * Inputs on which the program departs from its own comments: messages.go:63 (the legs of an accepted
 * bracket are pending or resting), main.go:143-148 (a replayed tick is harmless), order_store.go:76-80 (after a
 * crash, replaying the tick makes up for what was lost) and main.go:47-54 (a restart with a replay resumes
 * exactly where the process left off).  Histories.LegsAreQuietIff, Histories.ReplayedTickIsHarmlessIff,
 * Recovery.ReplayRestoresIff and Handover.NothingMissedIff say exactly when each holds.
 */
module Scenarios {
  import opened Wrappers
  import opened Orders
  import opened Ledger
  import opened Journal
  import opened Settlement
  import opened Protocol
  import opened Runs
  import opened Histories
  import opened Moves
  import opened Recovery
  import Storage
  import Durability
  import Registries
  import C = Candles
  import CandleStorage
  import Pipeline
  import Server

  /** An actor that has seen one tick, at 100, and no order. */
  const AT_HUNDRED := State("X", [], Some(100.0))

  const ENTRY := Order("e", "X", Buy, Market, 10, 0.0, Unset, "", "")
  const TARGET := Order("t", "X", Sell, Limit, 10, 90.0, Unset, "", "")
  const STOP := Order("s", "X", Sell, Stop, 10, 80.0, Unset, "", "")

  lemma BlankInv(price: Option<real>)
    ensures Inv(State("X", [], price))
  {
  }

  /** A target below the market executes inside the request that placed it, so one leg is not live. */
  lemma BracketMayCloseAtOnce(s': State, r: Reply)
    requires Next(AT_HUNDRED, PlaceBracket(ENTRY, TARGET, STOP), s', r)
    ensures r.outcome == FilledNow && !(Live(r.target) && Live(r.stop))
  {
    hide Inv, Cascade, Lawful, BookOf, LedgerOf;
    BlankInv(Some(100.0));
    assert BookOf(AT_HUNDRED.log) == map[] by { EmptyBook(); }
    assert BracketVerdict("X", map[], ENTRY, TARGET, STOP) == Pass;
    LegsAreQuietIff(AT_HUNDRED, ENTRY, TARGET, STOP, s', r);
  }

  lemma EmptyBook()
    ensures BookOf([]) == map[]
  {
  }

  const BID := Order("b", "X", Buy, Limit, 10, 95.0, Unset, "", "")

  lemma NoOrderNoFill(s: State, ltp: real, s': State, r: Reply)
    requires s.token == "X" && s.log == [] && Next(s, Tick(ltp), s', r)
    ensures s' == State("X", [], Some(ltp))
  {
    EmptyBook();
    NoLogIsLawful("X");
    hide Inv, Lawful, BookOf, Cascade;
    TickIsIdleIff(s, ltp, s', r);
  }

  lemma BidRests(s: State, s': State, r: Reply)
    requires s == AT_HUNDRED && Next(s, PlaceOrder(BID), s', r)
    ensures r.OrderReply? && r.outcome == NowResting && s' == s.(log := [Accepted(BID.(status := Resting))])
    ensures BookOf(s'.log) == map["b" := BID.(status := Resting)]
  {
    hide Cascade, Lawful, BookOf;
    EmptyBook();
    assert OrderVerdict("X", map[], BID) == Pass;
    assert s'.log == [] + [Accepted(BID.(status := Resting))] == [Accepted(BID.(status := Resting))];
    Grow("X", [], Accepted(BID.(status := Resting)));
  }

  lemma BidFills(s: State, s': State, r: Reply)
    requires s.token == "X" && BookOf(s.log) == map["b" := BID.(status := Resting)] && Inv(s)
    requires Next(s, Tick(90.0), s', r)
    ensures "b" in BookOf(s'.log) && BookOf(s'.log)["b"].status == Filled
  {
    hide Lawful, BookOf, Cascade;
    TickKeepsInv(s, 90.0, s', r);
    var b := BookOf(s.log);
    assert Hit(b, 90.0, "b") && !Contested(b, 90.0, "b");
  }

  /** Ticks at 90 and 100, a buy limit at 95 that rests, a restart, and the tick at 90 once more. */
  ghost predicate IsStaleReplay(states: seq<State>, hs: seq<Happening>) {
    && |hs| == 5 && IsHistory("X", states, hs)
    && hs[0].Handled? && hs[0].m == Tick(90.0) && hs[1].Handled? && hs[1].m == Tick(100.0)
    && hs[2].Handled? && hs[2].m == PlaceOrder(BID) && hs[3].Restarted?
    && hs[4].Handled? && hs[4].m == Tick(90.0)
  }

  /** The replayed tick, at a price from before the order existed, executes it. */
  lemma ReplayedTickMayFill(states: seq<State>, hs: seq<Happening>)
    requires IsStaleReplay(states, hs)
    ensures hs[2].r.OrderReply? && hs[2].r.outcome == NowResting
    ensures "b" in BookOf(states[5].log) && BookOf(states[5].log)["b"].status == Filled
  {
    hide Next, Inv, BookOf;
    assert Happens(states[0], hs[0], states[1]) && Happens(states[1], hs[1], states[2]);
    assert Happens(states[2], hs[2], states[3]) && Happens(states[3], hs[3], states[4]);
    assert Happens(states[4], hs[4], states[5]);
    NoOrderNoFill(states[0], 90.0, states[1], hs[0].r);
    NoOrderNoFill(states[1], 100.0, states[2], hs[1].r);
    BidRests(states[2], states[3], hs[2].r);
    InvHolds("X", states, hs, 4);
    BidFills(states[4], states[5], hs[4].r);
  }

  /** What a tick leaves in the watermark table. */
  lemma MarkAfter(p: Pipeline.Pipe, t: C.Tick)
    ensures var disk := Pipeline.Process(p, t).disk;
            t.token in disk.marks
            && disk.marks[t.token] ==
               if CandleStorage.Seen(p.disk, t.token, t.seqNo) then p.disk.marks[t.token] else t.seqNo
  {
    hide CandleStorage.Upserted, C.Advance, C.Closes;
  }

  lemma SeenBoth(p: Pipeline.Pipe)
    requires p.disk == CandleStorage.NO_TABLES
    ensures var p1 := Pipeline.Process(p, C.Tick(1, "X", 90.0, 0));
            CandleStorage.Seen(Pipeline.Process(p1, C.Tick(2, "X", 100.0, 0)).disk, "X", 1)
  {
    hide Pipeline.Process;
    MarkAfter(p, C.Tick(1, "X", 90.0, 0));
    MarkAfter(Pipeline.Process(p, C.Tick(1, "X", 90.0, 0)), C.Tick(2, "X", 100.0, 0));
  }

  lemma NothingWritten()
    ensures Durability.AreHistories([], map[]) && Storage.OwnedIDs([])
  {
  }

  lemma DiskIsTables(server: Server.Server)
    ensures server.Pipe().disk == server.candles.Tables()
  {
  }

  /** A tick comes in, and its actor, with nothing else to do, handles it. */
  method TickAndWork(server: Server.Server, t: C.Tick) returns (duplicate: bool, ghost v: State, ghost v': State)
    requires server.candles.Valid() && server.registry.Valid() && server.AllAdmissible()
    requires server.InboxOf(t.token) == []
    modifies server.candles, server.agg, server`inboxes, server.registry`actors, server.registry.Repr()
    ensures server.candles.Valid() && server.registry.Valid() && server.AllAdmissible()
    ensures server.InboxOf(t.token) == [] && fresh(server.registry.Repr() - old(server.registry.Repr()))
    ensures server.Pipe() == Pipeline.Process(old(server.Pipe()), t)
    ensures duplicate == CandleStorage.Seen(old(server.Pipe()).disk, t.token, t.seqNo)
    ensures v == old(server.registry.ViewOf(t.token)) && v' == server.registry.ViewOf(t.token)
    ensures Next(v, Tick(t.ltp), v', NoReply)
    ensures forall token | token != t.token :: server.registry.ViewOf(token) == old(server.registry.ViewOf(token))
  {
    hide Next, Lawful, Pipeline.Process, CandleStorage.Seen, Durability.WritesOf, Storage.WritesFor, BookOf, LedgerOf;
    hide Registries.Registry.Valid, Registries.Registry.ViewOf, Registries.Registry.Served, Server.Server.AllAdmissible;
    v := server.registry.ViewOf(t.token);
    duplicate := server.OnTick(t);
    CandlesAreApart(server);
    ghost var inbox := server.InboxOf(t.token);
    assert inbox == [Tick(t.ltp)];
    var r := server.Work(t.token);
    v' := server.registry.ViewOf(t.token);
    Server.TicksAreNotAnswered(v, t.ltp, v', r);
  }

  lemma CandlesAreApart(server: Server.Server)
    ensures server.candles !in server.registry.Repr() && server.agg !in server.registry.Repr()
  {
  }

  /** The server handles the ticks at 90 and 100. */
  method TwoTicks(server: Server.Server) returns (ghost states: seq<State>)
    requires server.candles.Valid() && server.registry.Valid() && server.AllAdmissible()
    requires server.candles.Tables() == CandleStorage.NO_TABLES && server.InboxOf("X") == []
    modifies server.candles, server.agg, server`inboxes, server.registry`actors, server.registry.Repr()
    ensures server.candles.Valid() && server.registry.Valid() && server.AllAdmissible()
    ensures fresh(server.registry.Repr() - old(server.registry.Repr()))
    ensures CandleStorage.Seen(server.candles.Tables(), "X", 1)
    ensures |states| == 3 && states[0] == old(server.registry.ViewOf("X")) && states[2] == server.registry.ViewOf("X")
    ensures Next(states[0], Tick(90.0), states[1], NoReply) && Next(states[1], Tick(100.0), states[2], NoReply)
    ensures forall t | t != "X" :: server.registry.ViewOf(t) == old(server.registry.ViewOf(t))
  {
    hide Next, Lawful, Pipeline.Process, CandleStorage.Seen, Durability.WritesOf, Storage.WritesFor, BookOf, LedgerOf;
    hide Registries.Registry.Valid, Registries.Registry.ViewOf, Registries.Registry.Served, Server.Server.AllAdmissible;
    ghost var p0 := server.Pipe();
    DiskIsTables(server);
    var d;
    ghost var v0, v1, v2;
    d, v0, v1 := TickAndWork(server, C.Tick(1, "X", 90.0, 0));
    d, v1, v2 := TickAndWork(server, C.Tick(2, "X", 100.0, 0));
    SeenBoth(p0);
    DiskIsTables(server);
    states := [v0, v1, v2];
  }

  /** A fresh process sees the ticks at 90 and 100 and takes the order. */
  method BeforeTheRestart(candles: CandleStorage.CandleStore, orders: Storage.OrderStore)
    returns (server: Server.Server, r: Reply, ghost states: seq<State>)
    requires candles.Valid() && candles.Tables() == CandleStorage.NO_TABLES
    requires orders.Valid() && orders.journal == []
    modifies candles, orders
    ensures fresh(server) && fresh(server.agg) && fresh(server.registry)
    ensures server.candles == candles && server.registry.store == orders
    ensures candles.Valid() && server.registry.Valid() && CandleStorage.Seen(candles.Tables(), "X", 1)
    ensures server.AllAdmissible()
    ensures |states| == 4 && states[0] == State("X", [], None) && states[3] == server.registry.ViewOf("X")
    ensures Next(states[0], Tick(90.0), states[1], NoReply) && Next(states[1], Tick(100.0), states[2], NoReply)
    ensures Next(states[2], PlaceOrder(BID), states[3], r)
    ensures forall t | t != "X" :: server.registry.ViewOf(t).log == []
  {
    NothingWritten();
    hide Next, Lawful, Pipeline.Process, Pipeline.Reseeded, CandleStorage.Seen, Durability.AreHistories;
    hide Storage.OwnedIDs, Durability.WritesOf, Storage.WritesFor, BookOf, LedgerOf, Storage.Durable;
    server := new Server.Server(candles, orders, map[]);
    states := TwoTicks(server);
    r := server.registry.Deliver("X", PlaceOrder(BID));
    states := states + [server.registry.ViewOf("X")];
  }

  /** A new process over the same tables is given a tick. */
  method AfterTheRestart(candles: CandleStorage.CandleStore, was: Registries.Registry, t: C.Tick)
    returns (duplicate: bool, ghost v: State, ghost v': State)
    requires candles.Valid() && was.Valid() && t.token == "X"
    requires forall token | token != "X" :: was.ViewOf(token).log == []
    modifies candles, was.store
    ensures duplicate == old(CandleStorage.Seen(candles.Tables(), "X", t.seqNo))
    ensures v == old(was.ViewOf("X")).(price := None) && Next(v, Tick(t.ltp), v', NoReply)
  {
    hide Next, Lawful, Pipeline.Process, Pipeline.Reseeded, CandleStorage.Seen;
    hide Durability.AreHistories, Storage.OwnedIDs;
    Registries.OneInstrumentOwnsIDs(was, "X");
    Registries.LogsAreHistories(was);
    var server := new Server.Server(candles, was.store, was.Logs());
    duplicate, v, v' := TickAndWork(server, t);
  }

  /**
   * The server is restarted and the stream replayed from its first event.  The candles recognise the tick as a
   * duplicate; the order that was placed after it fills all the same.
   */
  method ReplayAfterRestart()
    returns (placed: Reply, duplicate: bool, ghost states: seq<State>, ghost hs: seq<Happening>)
    ensures placed.OrderReply? && placed.outcome == NowResting && duplicate
    ensures IsStaleReplay(states, hs) && hs[2].r == placed
    ensures "b" in BookOf(states[5].log) && BookOf(states[5].log)["b"].status == Filled
  {
    hide *;
    var candles := new CandleStorage.CandleStore();
    var orders := new Storage.OrderStore();
    var server;
    server, placed, states := BeforeTheRestart(candles, orders);
    ghost var v4, v5;
    duplicate, v4, v5 := AfterTheRestart(candles, server.registry, C.Tick(1, "X", 90.0, 0));
    states := states + [v4, v5];
    hs := [Handled(Tick(90.0), NoReply), Handled(Tick(100.0), NoReply), Handled(PlaceOrder(BID), placed), Restarted,
           Handled(Tick(90.0), NoReply)];
    ReplayOf(states, hs, placed);
    ReplayedTickMayFill(states, hs);
  }

  lemma ReplayOf(states: seq<State>, hs: seq<Happening>, placed: Reply)
    requires |states| == 6 && states[0] == State("X", [], None)
    requires Next(states[0], Tick(90.0), states[1], NoReply) && Next(states[1], Tick(100.0), states[2], NoReply)
    requires Next(states[2], PlaceOrder(BID), states[3], placed) && states[4] == states[3].(price := None)
    requires Next(states[4], Tick(90.0), states[5], NoReply)
    requires hs == [Handled(Tick(90.0), NoReply), Handled(Tick(100.0), NoReply), Handled(PlaceOrder(BID), placed),
                    Restarted, Handled(Tick(90.0), NoReply)]
    ensures IsStaleReplay(states, hs) && |hs| == 5 && hs[2].r == placed
  {
    hide Next;
    assert Happens(states[0], hs[0], states[1]) && Happens(states[1], hs[1], states[2]);
    assert Happens(states[2], hs[2], states[3]) && Happens(states[3], hs[3], states[4]);
    assert Happens(states[4], hs[4], states[5]);
  }

  /** The bid rests at 100, and still does after another tick at 100. */
  lemma BidWaits(s: State, s': State, r: Reply)
    requires BookOf(s.log) == map["b" := BID.(status := Resting)] && Inv(s)
    requires Next(s, Tick(100.0), s', r)
    ensures s'.log == s.log
  {
    hide Lawful, BookOf, Cascade;
    assert Triggered(BookOf(s.log), 100.0) == {};
    hide Inv, Triggered;
    TickIsIdleIff(s, 100.0, s', r);
  }

  lemma TwoTicksAndABid(states: seq<State>, placed: Reply)
    requires |states| == 4 && states[0] == State("X", [], None)
    requires Next(states[0], Tick(90.0), states[1], NoReply) && Next(states[1], Tick(100.0), states[2], NoReply)
    requires Next(states[2], PlaceOrder(BID), states[3], placed)
    ensures placed.OrderReply? && placed.outcome == NowResting
    ensures states[3].token == "X" && BookOf(states[3].log) == map["b" := BID.(status := Resting)]
    ensures Inv(states[3]) && Inv(states[3].(price := None))
  {
    hide Inv, Next, BookOf;
    NoOrderNoFill(states[0], 90.0, states[1], NoReply);
    NoOrderNoFill(states[1], 100.0, states[2], NoReply);
    BidRests(states[2], states[3], placed);
    BlankInv(Some(100.0));
    MessageKeepsInv(states[2], PlaceOrder(BID), states[3], placed);
    RestartKeepsInv(states[3]);
  }

  lemma ProcessedIsSeen(p: Pipeline.Pipe, t: C.Tick)
    ensures CandleStorage.Seen(Pipeline.Process(p, t).disk, t.token, t.seqNo)
  {
    hide Pipeline.Process;
    MarkAfter(p, t);
  }

  /**
   * A tick at 90 is committed and put into the actor's inbox, and the process dies before the actor takes it.  The
   * candles call the tick seen; a replay from the first uncommitted event goes on with the next one, and the bid at
   * 95 still rests.
   */
  method CommittedThenDied()
    returns (placed: Reply, ghost states: seq<State>, ghost disk: CandleStorage.CandleTables)
    ensures placed.OrderReply? && placed.outcome == NowResting
    ensures CandleStorage.Seen(disk, "X", 3) && |states| == 3
    ensures states[1] == states[0].(price := None) && Next(states[1], Tick(100.0), states[2], NoReply)
    ensures BookOf(states[0].log) == BookOf(states[2].log) == map["b" := BID.(status := Resting)]
    ensures forall s, r | Next(states[0], Tick(90.0), s, r) ::
              "b" in BookOf(s.log) && BookOf(s.log)["b"].status == Filled
  {
    hide *;
    var candles := new CandleStorage.CandleStore();
    var orders := new Storage.OrderStore();
    var server;
    ghost var before;
    server, placed, before := BeforeTheRestart(candles, orders);
    ghost var v, p := before[3], server.Pipe();
    TwoTicksAndABid(before, placed);
    var _ := server.OnTick(C.Tick(3, "X", 90.0, 0));
    ProcessedIsSeen(p, C.Tick(3, "X", 90.0, 0));
    disk := server.Pipe().disk;
    ghost var v1, v2;
    var again;
    again, v1, v2 := AfterTheRestart(candles, server.registry, C.Tick(4, "X", 100.0, 0));
    BidWaits(v1, v2, NoReply);
    states := [v, v1, v2];
    forall s, r | Next(v, Tick(90.0), s, r)
      ensures "b" in BookOf(s.log) && BookOf(s.log)["b"].status == Filled
    {
      BidFills(v, s, r);
    }
  }

  const BUY := Order("e", "X", Buy, Limit, 10, 95.0, Unset, "", "")
  const TAKE := Order("t", "X", Sell, Limit, 10, 120.0, Pending, "e", "s")
  const CUT := Order("s", "X", Sell, Stop, 10, 80.0, Pending, "e", "t")
  const FILL := Fill("e", "X", Buy, 10, 90.0)

  /** An open bracket: the entry rests at 95, with a target at 120 and a stop at 80. */
  const OPEN_LOG: seq<Event> := [Accepted(TAKE), Accepted(CUT), Accepted(BUY.(status := Resting))]

  /** The three writes of the tick at 90. */
  const TICK_LOG: seq<Event> :=
    OPEN_LOG + [Executed(BUY.(status := Filled), FILL, ApplyFill(FLAT, FILL))]
    + [Activated(TAKE.(status := Resting))] + [Activated(CUT.(status := Resting))]

  lemma OpenBook()
    ensures BookOf(OPEN_LOG) == map["t" := TAKE, "s" := CUT, "e" := BUY.(status := Resting)]
    ensures LedgerOf(OPEN_LOG) == FLAT && Lawful("X", OPEN_LOG)
  {
    hide ApplyFill;
    Grow("X", [], Accepted(TAKE));
    Grow("X", [Accepted(TAKE)], Accepted(CUT));
    Grow("X", [Accepted(TAKE), Accepted(CUT)], Accepted(BUY.(status := Resting)));
    assert [Accepted(TAKE)] == [] + [Accepted(TAKE)];
    assert [Accepted(TAKE), Accepted(CUT)] == [Accepted(TAKE)] + [Accepted(CUT)];
    assert OPEN_LOG == [Accepted(TAKE), Accepted(CUT)] + [Accepted(BUY.(status := Resting))];
  }

  /** The book after the first write of the tick: the entry has filled and both legs are still pending. */
  lemma CutBook()
    ensures BookOf(TICK_LOG[..4]) == map["t" := TAKE, "s" := CUT, "e" := BUY.(status := Filled)]
    ensures LedgerOf(TICK_LOG[..4]) == ApplyFill(FLAT, FILL) && Lawful("X", TICK_LOG[..4])
  {
    hide ApplyFill;
    var e := Executed(BUY.(status := Filled), FILL, ApplyFill(FLAT, FILL));
    OpenBook();
    Grow("X", OPEN_LOG, e);
    assert TICK_LOG[..4] == OPEN_LOG + [e];
  }

  lemma TickBook()
    ensures BookOf(TICK_LOG) == map["t" := TAKE.(status := Resting), "s" := CUT.(status := Resting),
                                    "e" := BUY.(status := Filled)]
    ensures Lawful("X", TICK_LOG)
  {
    hide ApplyFill;
    CutBook();
    var e1, e2 := Activated(TAKE.(status := Resting)), Activated(CUT.(status := Resting));
    Grow("X", TICK_LOG[..4], e1);
    Grow("X", TICK_LOG[..4] + [e1], e2);
    assert TICK_LOG == TICK_LOG[..4] + [e1] + [e2];
  }

  lemma OpenLinked(b: Book)
    requires b == map["t" := TAKE, "s" := CUT, "e" := BUY.(status := Resting)]
    ensures Linked(b)
  {
    hide WouldFill;
    assert LinkedAt(b, "t") && LinkedAt(b, "s") && LinkedAt(b, "e");
    hide LinkedAt;
  }

  lemma OpenConsistent(b: Book)
    requires b == map["t" := TAKE, "s" := CUT, "e" := BUY.(status := Resting)]
    ensures Consistent(b) && Triggered(b, 100.0) == {}
  {
    assert forall id | id in b :: b[id].status == Pending || b[id].status == Resting;
  }

  lemma OpenInv()
    ensures Inv(State("X", OPEN_LOG, Some(100.0)))
  {
    hide ApplyFill, Lawful, BookOf, Linked, Consistent, Triggered;
    OpenBook();
    OpenLinked(BookOf(OPEN_LOG));
    OpenConsistent(BookOf(OPEN_LOG));
  }

  lemma TickReacts()
    ensures Reacts(Fills(BookOf(OPEN_LOG)), OPEN_LOG, TICK_LOG, 90.0)
  {
    OpenBook();
    hide ApplyFill, BookOf;
  }

  lemma TickCalms(b: Book, b': Book)
    requires b == map["t" := TAKE, "s" := CUT, "e" := BUY.(status := Resting)]
    requires b' == map["t" := TAKE.(status := Resting), "s" := CUT.(status := Resting), "e" := BUY.(status := Filled)]
    ensures Calmer(b, b', 90.0) && Doubled(b') == {} && Triggered(b', 90.0) == {}
  {
    TickIsQuiet(b');
    hide WouldFill;
    assert b'.Keys == b.Keys;
    assert Triggered(b', 90.0) == {} && Pendings(b') == {} && Orphans(b') == {};
    assert Rivals(b') == {} && Doubled(b') == {};
    hide Triggered, Pendings, Orphans, Rivals, Doubled;
  }

  lemma TickIsQuiet(b': Book)
    requires b' == map["t" := TAKE.(status := Resting), "s" := CUT.(status := Resting), "e" := BUY.(status := Filled)]
    ensures forall id | id in b' :: b'[id].status == Filled || (b'[id].status == Resting && !WouldFill(b'[id], 90.0))
    ensures forall id | id in b' && b'[id].status == Filled :: b'[id].siblingID !in b'
  {
    forall id | id in b'
      ensures b'[id].status == Filled || (b'[id].status == Resting && !WouldFill(b'[id], 90.0))
      ensures b'[id].status == Filled ==> b'[id].siblingID == ""
    {
    }
    assert "" !in b' by {
      assert |""| == 0 && |"t"| == 1 && |"s"| == 1 && |"e"| == 1;
    }
  }

  /** The tick at 90 fills the entry and activates both legs. */
  lemma TickHappens()
    ensures Next(State("X", OPEN_LOG, Some(100.0)), Tick(90.0), State("X", TICK_LOG, Some(90.0)), NoReply)
  {
    hide ApplyFill, Lawful, BookOf, Linked, Reacts, Calmer, Doubled, Triggered;
    OpenBook();
    TickBook();
    TickReacts();
    TickCalms(BookOf(OPEN_LOG), BookOf(TICK_LOG));
  }

  /** Legs that a crash left behind, both of them, stay pending through the replayed tick. */
  lemma BothStayBehind(token: string, log: seq<Event>, log': seq<Event>, p: real)
    requires Lawful(token, log') && Reacts(Fills(BookOf(log)), log, log', p) && BookOf(log').Keys == BookOf(log).Keys
    requires BookOf(log) == map["t" := TAKE, "s" := CUT, "e" := BUY.(status := Filled)]
    ensures BookOf(log')["t"].status == Pending && BookOf(log')["s"].status == Pending
  {
    hide Lawful, BookOf, Reacts, WouldFill;
    var past := Fills(BookOf(log));
    OrphanStaysOut(token, past, log, log', p, "t");
    OrphanStaysOut(token, past, log, log', p, "s");
    Extends(past, log, log', p);
    StatusesOnlyAdvance(token, log', |log|);
    assert BookOf(log')["e"] == BUY.(status := Filled);
    if BookOf(log')["t"].status == Cancelled {
      var winner := CancelledBy(token, past, log, log', p, "t");
    }
    if BookOf(log')["s"].status == Cancelled {
      var winner := CancelledBy(token, past, log, log', p, "s");
    }
  }

  lemma Extends(past: set<string>, log: seq<Event>, log': seq<Event>, p: real)
    requires Reacts(past, log, log', p)
    ensures log <= log' && log'[..|log|] == log
  {
  }

  /**
   * A crash after the first of the three writes: whatever the replayed tick does, both legs are still
   * pending after it, and the bracket has no exit.
   */
  lemma CrashMayStrandLegs()
    ensures var s, s1 := State("X", OPEN_LOG, Some(100.0)), State("X", TICK_LOG[..4], None);
            && Inv(s) && Happens(s, CrashedIn(Tick(90.0)), s1) && !Mended(BookOf(s1.log), [90.0])
            && forall s2, r | Next(s1, Tick(90.0), s2, r) ::
                 && !Settled(BookOf(s.log), 90.0, BookOf(s2.log))
                 && "t" in Orphans(BookOf(s2.log)) && "s" in Orphans(BookOf(s2.log))
  {
    OpenInv();
    TickHappens();
    CutBook();
    hide Inv, Next, BookOf, Lawful;
    var s, s1 := State("X", OPEN_LOG, Some(100.0)), State("X", TICK_LOG[..4], None);
    var whole := State("X", TICK_LOG, Some(90.0));
    assert s.log <= s1.log <= whole.log;
    assert Next(s, Tick(90.0), whole, NoReply);
    assert "t" in Orphans(BookOf(s1.log));
    assert Happens(s, CrashedIn(Tick(90.0)), s1);
    forall s2, r | Next(s1, Tick(90.0), s2, r)
      ensures !Settled(BookOf(s.log), 90.0, BookOf(s2.log))
      ensures "t" in Orphans(BookOf(s2.log)) && "s" in Orphans(BookOf(s2.log))
    {
      ReplayStrands(s, s1, s2, r);
    }
  }

  lemma ReplayStrands(s: State, s1: State, s2: State, r: Reply)
    requires Inv(s) && Happens(s, CrashedIn(Tick(90.0)), s1) && Next(s1, Tick(90.0), s2, r)
    requires BookOf(s1.log) == map["t" := TAKE, "s" := CUT, "e" := BUY.(status := Filled)]
    ensures !Settled(BookOf(s.log), 90.0, BookOf(s2.log)) && !Mended(BookOf(s1.log), [90.0])
    ensures "t" in Orphans(BookOf(s2.log)) && "s" in Orphans(BookOf(s2.log))
  {
    hide Inv, BookOf, Lawful, Settled, Happens, Reacts, Calmer, Triggered, WouldFill, Linked, Consistent, KeepsPairs;
    CalmKeys(BookOf(s1.log), BookOf(s2.log), 90.0);
    BothStayBehind(s1.token, s1.log, s2.log, 90.0);
    StatusesOnlyAdvance(s1.token, s2.log, |s1.log|);
    assert s2.log[..|s1.log|] == s1.log;
    assert "t" in Orphans(BookOf(s1.log));
    NotTriggered(BookOf(s1.log), 90.0, "s");
    assert !Rescued(BookOf(s1.log), [90.0], "t");
    hide Mended, Next;
    CrashedTickRecoversIff([s, s1], [CrashedIn(Tick(90.0))], 90.0, s2, r);
  }

  /** The three writes that place the bracket. */
  lemma BracketIsPlaced()
    ensures Next(State("X", [], None), PlaceBracket(BUY, TAKE, CUT), State("X", OPEN_LOG, None),
                 BracketReply(NowResting, BUY.(status := Resting), TAKE, CUT, None, None))
  {
    OpenBook();
    EmptyBook();
    hide BookOf, Lawful, LedgerOf;
    assert BracketVerdict("X", map[], BUY, TAKE, CUT) == Pass;
    assert LegsStored([], BUY, TAKE, CUT) == [Accepted(TAKE), Accepted(CUT)];
    assert OPEN_LOG == LegsStored([], BUY, TAKE, CUT) + [Accepted(BUY.(status := Resting))];
  }

  lemma OneLegBook()
    ensures BookOf([Accepted(TAKE)]) == map["t" := TAKE] && Lawful("X", [Accepted(TAKE)])
  {
    Grow("X", [], Accepted(TAKE));
    assert [Accepted(TAKE)] == [] + [Accepted(TAKE)];
  }

  lemma OneLegIsMended(b: Book, prices: seq<real>)
    requires b == map["t" := TAKE]
    ensures Mended(b, prices) && !Linked(b)
  {
    assert "e" !in b by {
      assert "e"[0] != "t"[0];
    }
    assert Orphans(b) == {};
    assert !LinkedAt(b, "t");
  }

  /**
   * A crash while a bracket is being placed, after the first leg's write: no leg has filled or lost its entry, and
   * yet no replay restores the rules, for the leg's sibling and entry are nowhere.
   */
  lemma CrashMayHalveBracket()
    ensures var s, s1 := State("X", [], None), State("X", [Accepted(TAKE)], None);
            && Inv(s) && Happens(s, CrashedIn(PlaceBracket(BUY, TAKE, CUT)), s1)
            && forall states, prices | IsTickRun(states, prices) && prices != [] && states[0] == s1 ::
                 Mended(BookOf(s1.log), prices) && !Inv(states[|prices|])
  {
    BlankInv(None);
    BracketIsPlaced();
    OneLegBook();
    hide Next, Inv, BookOf, Lawful, Mended, Linked;
    var s, s1, whole := State("X", [], None), State("X", [Accepted(TAKE)], None), State("X", OPEN_LOG, None);
    var r := BracketReply(NowResting, BUY.(status := Resting), TAKE, CUT, None, None);
    assert s.log <= s1.log <= whole.log;
    assert Next(s, PlaceBracket(BUY, TAKE, CUT), whole, r);
    forall states, prices | IsTickRun(states, prices) && prices != [] && states[0] == s1
      ensures Mended(BookOf(s1.log), prices) && !Inv(states[|prices|])
    {
      OneLegIsMended(BookOf(s1.log), prices);
      ReplayRestoresIff(states, prices);
    }
  }
}
