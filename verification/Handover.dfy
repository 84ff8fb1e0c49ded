/**
 * From the candle tables to the actors: a tick is committed first and then put into an actor's inbox,
 * which is handled later, so a crash in between is not seen by the orders
 * (cmd/server/main.go:116-163; internal/instrument/actor.go:78-106, 140-146).
 *
 * The desk is the timing of one program run after another: connections, commits, inboxes, crashes.  The scene
 * adds what the desk works on, the candle pipeline and the actors, and the requests of clients.
 */
module Handover {
  import opened Wrappers
  import opened Orders
  import opened Journal
  import opened Settlement
  import opened Histories
  import P = Protocol
  import R = Registries
  import C = Candles
  import Pipeline
  import Replay
  import TickGen

  // ---------- the timing ----------

  /**
   * Events are known by their index in the stream.  cursor is the next event of the connection; frontier the
   * first whose transaction has not run; inHand is committed and not sent yet; waiting is in inboxes.
   */
  datatype Desk = Desk(up: bool, cursor: nat, frontier: nat, inHand: Option<nat>, waiting: set<nat>, handled: set<nat>)

  const EMPTY_DESK := Desk(false, 0, 0, None, {}, {})

  datatype Move =
    | Connected(start: nat)
    | Committed             // the transaction of the next event ran, or found a duplicate
    | Sent                  // the event went into its actor's inbox
    | Taken(k: nat)         // an actor took an event from its inbox and handled it to the end
    | Died                  // the process died and booted again

  /** A process connects once, after it has booted. */
  ghost predicate Moves(es: seq<TickGen.Event>, d: Desk, m: Move, d': Desk) {
    match m
    case Connected(start) => !d.up && start <= |es| && d' == d.(up := true, cursor := start)
    case Committed =>
      && d.up && d.inHand.None? && d.cursor < |es|
      && d' == d.(cursor := d.cursor + 1, inHand := Some(d.cursor),
                  frontier := if d.cursor < d.frontier then d.frontier else d.cursor + 1)
    case Sent => d.inHand.Some? && d' == d.(inHand := None, waiting := d.waiting + {d.inHand.value})
    case Taken(k) => k in d.waiting && d' == d.(waiting := d.waiting - {k}, handled := d.handled + {k})
    case Died => d' == d.(up := false, inHand := None, waiting := {})
  }

  ghost predicate IsShift(es: seq<TickGen.Event>, ds: seq<Desk>, ms: seq<Move>) {
    && |ds| == |ms| + 1 && ds[0] == EMPTY_DESK
    && forall i | 0 <= i < |ms| :: Moves(es, ds[i], ms[i], ds[i + 1])
  }

  /** The event is on its way to its actor. */
  predicate UnderWay(d: Desk, k: nat) {
    k in d.waiting || d.inHand == Some(k)
  }

  /** A connection starts at or before the first event that no actor has handled. */
  ghost predicate StartsInTime(d: Desk, m: Move) {
    m.Connected? ==> forall k: nat | k < m.start :: k in d.handled
  }

  ghost predicate InTime(ds: seq<Desk>, ms: seq<Move>)
    requires |ds| == |ms| + 1
  {
    forall i | 0 <= i < |ms| :: StartsInTime(ds[i], ms[i])
  }

  /** What the desk keeps: events on their way exist and are committed, and there are none while it is down. */
  ghost predicate Orderly(es: seq<TickGen.Event>, d: Desk) {
    && (forall k: nat | UnderWay(d, k) || k in d.handled :: k < |es| && k < d.frontier)
    && (!d.up ==> d.inHand.None? && d.waiting == {})
  }

  lemma MoveKeepsOrderly(es: seq<TickGen.Event>, d: Desk, m: Move, d': Desk)
    requires Moves(es, d, m, d') && Orderly(es, d)
    ensures Orderly(es, d')
  {
    forall k: nat | UnderWay(d', k) || k in d'.handled
      ensures k < |es| && k < d'.frontier
    {
      assert UnderWay(d, k) || k in d.handled || (m.Committed? && k == d.cursor);
    }
  }

  lemma {:induction false} ShiftIsOrderly(es: seq<TickGen.Event>, ds: seq<Desk>, ms: seq<Move>, j: nat)
    requires IsShift(es, ds, ms) && j < |ds|
    ensures Orderly(es, ds[j])
  {
    hide Moves, Orderly;
    if j == 0 {
      EmptyIsOrderly(es);
    } else {
      ShiftIsOrderly(es, ds, ms, j - 1);
      MoveKeepsOrderly(es, ds[j - 1], ms[j - 1], ds[j]);
    }
  }

  lemma EmptyIsOrderly(es: seq<TickGen.Event>)
    ensures Orderly(es, EMPTY_DESK)
  {
  }

  /** Whatever the connection has passed is handled or on its way. */
  ghost predicate Covered(d: Desk) {
    d.up ==> forall k: nat | k < d.cursor :: UnderWay(d, k) || k in d.handled
  }

  lemma MoveKeepsCovered(es: seq<TickGen.Event>, d: Desk, m: Move, d': Desk)
    requires Moves(es, d, m, d') && Covered(d) && StartsInTime(d, m)
    ensures Covered(d')
  {
    forall k: nat | d'.up && k < d'.cursor
      ensures UnderWay(d', k) || k in d'.handled
    {
      assert (m.Committed? && k == d.cursor) || (m.Connected? && k in d.handled) || UnderWay(d, k) || k in d.handled;
    }
  }

  lemma {:induction false} InTimeCovers(es: seq<TickGen.Event>, ds: seq<Desk>, ms: seq<Move>, j: nat)
    requires IsShift(es, ds, ms) && InTime(ds, ms) && j < |ds|
    ensures Covered(ds[j])
  {
    hide Moves, StartsInTime;
    if j > 0 {
      InTimeCovers(es, ds, ms, j - 1);
      MoveKeepsCovered(es, ds[j - 1], ms[j - 1], ds[j]);
    }
  }

  // ---------- what the desk works on ----------

  /** The desk, the candle pipeline, and where each instrument's orders stand. */
  datatype Scene = Scene(desk: Desk, pipe: Pipeline.Pipe, views: R.Views)

  datatype Act =
    | AtDesk(move: Move)                                    // a move of the desk other than a crash
    | Crashed(inFlight: map<string, P.Message>)             // the process died while these messages were being handled
    | Served(token: string, m: P.Message, r: P.Reply)       // a client's request

  /** The ticks among the messages in flight were taken from inboxes. */
  ghost predicate FromInboxes(es: seq<TickGen.Event>, d: Desk, inFlight: map<string, P.Message>) {
    forall t | t in inFlight && inFlight[t].Tick? ::
      exists k: nat :: k in d.waiting && k < |es| && es[k].token == t && P.Tick(es[k].ltp) == inFlight[t]
  }

  /** What a move does to the candle pipeline and to the orders. */
  ghost predicate Works(es: seq<TickGen.Event>, s: Scene, m: Move, s': Scene) {
    match m
    case Connected(_) => s'.pipe == s.pipe && s'.views == s.views
    case Committed =>
      && s'.views == s.views && s.desk.cursor < |es|
      && exists t :: Replay.Carries(es[s.desk.cursor], t) && s'.pipe == Pipeline.Process(s.pipe, t)
    case Sent => s'.pipe == s.pipe && s'.views == s.views
    case Taken(k) =>
      && s'.pipe == s.pipe && k < |es|
      && R.Occurs(s.views, R.Delivered(es[k].token, P.Tick(es[k].ltp), P.NoReply), s'.views)
    case Died => false
  }

  ghost predicate Steps(es: seq<TickGen.Event>, s: Scene, a: Act, s': Scene) {
    match a
    case AtDesk(m) => Moves(es, s.desk, m, s'.desk) && Works(es, s, m, s')
    case Crashed(inFlight) =>
      && Moves(es, s.desk, Died, s'.desk) && FromInboxes(es, s.desk, inFlight)
      && Pipeline.Delivers(s.pipe, Pipeline.Rebooted, s'.pipe)
      && R.Occurs(s.views, R.Died(inFlight), s'.views)
    case Served(token, m, r) =>
      && !m.Tick? && s'.desk == s.desk && s'.pipe == s.pipe
      && R.Occurs(s.views, R.Delivered(token, m, r), s'.views)
  }

  /** No order yet and no price, for any instrument. */
  ghost predicate Blank(v: R.Views) {
    forall t :: v[t] == P.State(t, [], None)
  }

  ghost predicate IsFloor(es: seq<TickGen.Event>, ss: seq<Scene>, acts: seq<Act>) {
    && |ss| == |acts| + 1 && ss[0].desk == EMPTY_DESK && ss[0].pipe == Pipeline.EMPTY && Blank(ss[0].views)
    && forall i | 0 <= i < |acts| :: Steps(es, ss[i], acts[i], ss[i + 1])
  }

  /** The timing of a run: its moves, without the requests of clients. */
  function MovesOf(acts: seq<Act>): seq<Move> {
    if acts == [] then []
    else
      var past := MovesOf(acts[..|acts| - 1]);
      match acts[|acts| - 1]
      case AtDesk(m) => past + [m]
      case Crashed(_) => past + [Died]
      case Served(_, _, _) => past
  }

  /** The timing decides the desk. */
  lemma {:induction false} DeskFollows(es: seq<TickGen.Event>, ds: seq<Desk>, ms: seq<Move>,
                                       ss: seq<Scene>, acts: seq<Act>, j: nat)
    requires IsShift(es, ds, ms) && IsFloor(es, ss, acts) && j <= |acts| && MovesOf(acts[..j]) <= ms
    ensures ss[j].desk == ds[|MovesOf(acts[..j])|]
  {
    hide Works, Pipeline.Delivers, R.Occurs, FromInboxes;
    if j > 0 {
      assert acts[..j][..j - 1] == acts[..j - 1];
      DeskFollows(es, ds, ms, ss, acts, j - 1);
      assert Steps(es, ss[j - 1], acts[j - 1], ss[j]);
    }
  }

  // ---------- connections in time ----------

  /** A tick that counts as handled was handled at some point. */
  lemma {:induction false} HandledWhen(es: seq<TickGen.Event>, ss: seq<Scene>, acts: seq<Act>, j: nat, k: nat)
    returns (i: nat)
    requires IsFloor(es, ss, acts) && j <= |acts| && k in ss[j].desk.handled
    ensures i < j && acts[i] == AtDesk(Taken(k))
  {
    hide Works, Pipeline.Delivers, R.Occurs, FromInboxes;
    i := 0;
    if j > 0 {
      assert Steps(es, ss[j - 1], acts[j - 1], ss[j]);
      if k in ss[j - 1].desk.handled {
        i := HandledWhen(es, ss, acts, j - 1, k);
      } else {
        i := j - 1;
      }
    }
  }

  /** What the act is for the actors. */
  function OccurrenceOf(es: seq<TickGen.Event>, a: Act): Option<R.Occurrence> {
    match a
    case AtDesk(m) =>
      if m.Taken? && m.k < |es| then Some(R.Delivered(es[m.k].token, P.Tick(es[m.k].ltp), P.NoReply)) else None
    case Crashed(inFlight) => Some(R.Died(inFlight))
    case Served(token, m, r) => Some(R.Delivered(token, m, r))
  }

  lemma ActOccurs(es: seq<TickGen.Event>, s: Scene, a: Act, s': Scene)
    requires Steps(es, s, a, s')
    ensures var o := OccurrenceOf(es, a); if o.Some? then R.Occurs(s.views, o.value, s'.views) else s'.views == s.views
  {
    hide R.Occurs, Moves, Pipeline.Delivers, Pipeline.Process, FromInboxes;
  }

  /** To one instrument, an act is a happening of its history or nothing at all. */
  lemma ActForOne(es: seq<TickGen.Event>, s: Scene, a: Act, s': Scene, token: string)
    requires Steps(es, s, a, s') && Lawful(token, s.views[token].log) && s.views[token].token == token
    ensures Lawful(token, s'.views[token].log) && s'.views[token].token == token
    ensures s.views[token].log <= s'.views[token].log
  {
    hide *;
    ActOccurs(es, s, a, s');
    var o := OccurrenceOf(es, a);
    if o.Some? {
      R.ShareHappens(s.views, o.value, s'.views, token);
      var h := R.Share(o.value, token);
      if h.Some? {
        HappeningKeepsLaw(s.views[token], h.value, s'.views[token]);
      }
    }
  }

  /** Every instrument's log is lawful and only grows. */
  lemma {:induction false} LogsGrow(es: seq<TickGen.Event>, ss: seq<Scene>, acts: seq<Act>,
                                    i: nat, j: nat, token: string)
    requires IsFloor(es, ss, acts) && i <= j <= |acts|
    ensures ss[j].views[token].token == token && Lawful(token, ss[j].views[token].log)
    ensures ss[i].views[token].log <= ss[j].views[token].log
    decreases j
  {
    hide Steps, Lawful;
    if j == 0 {
      NoLogIsLawful(token);
    } else {
      LogsGrow(es, ss, acts, if i < j then i else j - 1, j - 1, token);
      ActForOne(es, ss[j - 1], acts[j - 1], ss[j], token);
    }
  }

  /**
   * The connection has passed event k and no actor is about to handle it; its price would fill an order that is
   * still resting; and that order did not begin to rest after its actor had handled the event.
   */
  ghost predicate Missed(es: seq<TickGen.Event>, ss: seq<Scene>, acts: seq<Act>, k: nat, id: string)
    requires |ss| == |acts| + 1
  {
    var now := ss[|acts|];
    && now.desk.up && k < now.desk.cursor && !UnderWay(now.desk, k) && k < |es|
    && id in Triggered(BookOf(now.views[es[k].token].log), es[k].ltp)
    && forall i | 0 <= i < |acts| && acts[i] == AtDesk(Taken(k)) ::
         !RestsSince(es, ss[i + 1], now, k, id)
  }

  ghost predicate RestsSince(es: seq<TickGen.Event>, since: Scene, now: Scene, k: nat, id: string)
    requires k < |es|
  {
    var token := es[k].token;
    id in Newcomers(BookOf(since.views[token].log), BookOf(now.views[token].log), es[k].ltp)
  }

  lemma TakenSettles(es: seq<TickGen.Event>, s: Scene, k: nat, s': Scene)
    requires Steps(es, s, AtDesk(Taken(k)), s')
    ensures k < |es| && Triggered(BookOf(s'.views[es[k].token].log), es[k].ltp) == {}
  {
    hide Lawful, BookOf, Moves, P.Cascade;
  }

  lemma NewcomerSince(es: seq<TickGen.Event>, ss: seq<Scene>, acts: seq<Act>, i: nat, k: nat, id: string)
    requires IsFloor(es, ss, acts) && i < |acts| && acts[i] == AtDesk(Taken(k)) && k < |es|
    requires id in Triggered(BookOf(ss[|acts|].views[es[k].token].log), es[k].ltp)
    ensures RestsSince(es, ss[i + 1], ss[|acts|], k, id)
  {
    hide Lawful, BookOf, Steps, Triggered, Sound;
    var token := es[k].token;
    var was, now := ss[i + 1].views[token].log, ss[|acts|].views[token].log;
    assert Steps(es, ss[i], acts[i], ss[i + 1]);
    TakenSettles(es, ss[i], k, ss[i + 1]);
    LogsGrow(es, ss, acts, i + 1, |acts|, token);
    LogsGrow(es, ss, acts, i + 1, i + 1, token);
    StatusesOnlyAdvance(token, now, |was|);
    assert now[..|was|] == was;
    NoneUnset(token, was);
    RestingWasNew(BookOf(was), BookOf(now), es[k].ltp, id);
  }

  lemma NoneUnset(token: string, log: seq<Event>)
    requires Lawful(token, log)
    ensures forall id | id in BookOf(log) :: BookOf(log)[id].status != Unset
  {
    hide Lawful, BookOf, Validate;
    BookIsSound(token, log);
  }

  /** If every connection starts in time, no order ever misses an event. */
  lemma NothingIsMissedInTime(es: seq<TickGen.Event>, ds: seq<Desk>, ms: seq<Move>,
                              ss: seq<Scene>, acts: seq<Act>, k: nat, id: string)
    requires IsShift(es, ds, ms) && InTime(ds, ms) && IsFloor(es, ss, acts) && MovesOf(acts) <= ms
    ensures !Missed(es, ss, acts, k, id)
  {
    hide IsFloor, Moves, InTime, Triggered, BookOf, RestsSince;
    assert |ss| == |acts| + 1 by { FloorLength(es, ss, acts); }
    if Missed(es, ss, acts, k, id) {
      assert acts[..|acts|] == acts;
      DeskFollows(es, ds, ms, ss, acts, |acts|);
      InTimeCovers(es, ds, ms, |MovesOf(acts)|);
      var i := HandledWhen(es, ss, acts, |acts|, k);
      NewcomerSince(es, ss, acts, i, k, id);
    }
  }

  lemma FloorLength(es: seq<TickGen.Event>, ss: seq<Scene>, acts: seq<Act>)
    requires IsFloor(es, ss, acts)
    ensures |ss| == |acts| + 1
  {
  }

  // ---------- a connection that is late ----------

  ghost predicate Priced(es: seq<TickGen.Event>) {
    forall k | 0 <= k < |es| :: es[k].ltp > 0.0 && es[k].token != ""
  }

  /** Nobody has placed an order, and a process that has no feed yet knows no price. */
  ghost predicate Quiet(s: Scene) {
    forall t :: s.views[t].token == t && s.views[t].log == [] && (!s.desk.up ==> s.views[t].price.None?)
  }

  lemma EmptyTick(token: string, price: Option<real>, ltp: real)
    ensures Happens(P.State(token, [], price), Handled(P.Tick(ltp), P.NoReply), P.State(token, [], Some(ltp)))
  {
    hide WouldFill;
    NoBook();
    NoLogIsLawful(token);
  }

  lemma RestartedQuietly(token: string, price: Option<real>)
    ensures Happens(P.State(token, [], price), Restarted, P.State(token, [], None))
  {
  }

  lemma OneMove(a: Act)
    ensures MovesOf([a]) == match a case AtDesk(m) => [m] case Crashed(_) => [Died] case Served(_, _, _) => []
  {
    assert [a][..0] == [];
  }

  lemma CommittedQuietly(es: seq<TickGen.Event>, s: Scene, d': Desk, committed: seq<C.Tick>)
    returns (s': Scene, committed': seq<C.Tick>)
    requires Moves(es, s.desk, Committed, d') && Quiet(s)
    requires Pipeline.Tracks(s.pipe, committed) && Pipeline.Rising(committed)
    ensures Steps(es, s, AtDesk(Committed), s') && s'.desk == d' && Quiet(s')
    ensures Pipeline.Tracks(s'.pipe, committed') && Pipeline.Rising(committed')
  {
    hide Pipeline.Tracks, Pipeline.Rising, Pipeline.Process, Pipeline.IsNew, R.Occurs;
    var e := es[s.desk.cursor];
    var t := C.Tick(e.seqNo, e.token, e.ltp, 0);
    assert Replay.Carries(e, t);
    Pipeline.ProcessTracks(s.pipe, committed, t);
    s' := s.(desk := d', pipe := Pipeline.Process(s.pipe, t));
    committed' := Pipeline.Counted(committed, t);
  }

  lemma TakenQuietly(es: seq<TickGen.Event>, s: Scene, k: nat, d': Desk) returns (s': Scene)
    requires Moves(es, s.desk, Taken(k), d') && Quiet(s) && Orderly(es, s.desk)
    ensures Steps(es, s, AtDesk(Taken(k)), s') && s'.desk == d' && s'.pipe == s.pipe && Quiet(s')
  {
    hide Happens;
    assert UnderWay(s.desk, k);
    var t, p := es[k].token, es[k].ltp;
    EmptyTick(t, s.views[t].price, p);
    assert s.views[t] == P.State(t, [], s.views[t].price);
    s' := s.(desk := d', views := s.views[t := P.State(t, [], Some(p))]);
  }

  lemma DiedQuietly(es: seq<TickGen.Event>, s: Scene, d': Desk, committed: seq<C.Tick>) returns (s': Scene)
    requires Moves(es, s.desk, Died, d') && Quiet(s) && Pipeline.Tracks(s.pipe, committed)
    ensures Steps(es, s, Crashed(map[]), s') && s'.desk == d' && s'.pipe == s.pipe && Quiet(s')
  {
    hide Happens, Pipeline.Tracks, Pipeline.Reseeded;
    Pipeline.LostCanBeRebuilt(s.pipe, committed);
    s' := s.(desk := d', views := imap t: string :: P.State(t, [], None));
    forall t
      ensures Happens(s.views[t], Restarted, s'.views[t])
    {
      RestartedQuietly(t, s.views[t].price);
      assert s.views[t] == P.State(t, [], s.views[t].price);
    }
    assert R.Occurs(s.views, R.Died(map[]), s'.views);
  }

  /** Any move of the desk can be made with no order in any book. */
  lemma QuietStep(es: seq<TickGen.Event>, s: Scene, m: Move, d': Desk, committed: seq<C.Tick>)
    returns (a: Act, s': Scene, committed': seq<C.Tick>)
    requires Moves(es, s.desk, m, d') && Quiet(s) && Orderly(es, s.desk)
    requires Pipeline.Tracks(s.pipe, committed) && Pipeline.Rising(committed)
    ensures Steps(es, s, a, s') && s'.desk == d' && Quiet(s') && MovesOf([a]) == [m]
    ensures Pipeline.Tracks(s'.pipe, committed') && Pipeline.Rising(committed')
  {
    hide Pipeline.Tracks, Pipeline.Rising, Pipeline.Delivers, R.Occurs, Orderly, MovesOf;
    a, s', committed' := AtDesk(m), s.(desk := d'), committed;
    match m {
      case Connected(_) =>
      case Committed =>
        s', committed' := CommittedQuietly(es, s, d', committed);
      case Sent =>
        NothingWaitsOffline(es, s, d');
      case Taken(k) =>
        s' := TakenQuietly(es, s, k, d');
      case Died =>
        a := Crashed(map[]);
        s' := DiedQuietly(es, s, d', committed);
    }
    OneMove(a);
  }

  lemma NothingWaitsOffline(es: seq<TickGen.Event>, s: Scene, d': Desk)
    requires Moves(es, s.desk, Sent, d') && Orderly(es, s.desk)
    ensures s.desk.up && d'.up
  {
  }

  lemma {:induction false} MovesGrow(acts: seq<Act>, j: nat)
    requires j <= |acts|
    ensures MovesOf(acts[..j]) <= MovesOf(acts)
  {
    if j < |acts| {
      var past := acts[..|acts| - 1];
      MovesGrow(past, j);
      assert past[..j] == acts[..j];
    } else {
      assert acts[..j] == acts;
    }
  }

  lemma OneMoreMove(acts: seq<Act>, a: Act)
    ensures MovesOf(acts + [a]) == MovesOf(acts) + MovesOf([a])
  {
    assert (acts + [a])[..|acts|] == acts;
    OneMove(a);
  }

  lemma FloorGrows(es: seq<TickGen.Event>, ss: seq<Scene>, acts: seq<Act>, a: Act, s': Scene)
    requires IsFloor(es, ss, acts) && Steps(es, ss[|acts|], a, s')
    ensures IsFloor(es, ss + [s'], acts + [a])
  {
    hide Steps, Blank;
    var ss', acts' := ss + [s'], acts + [a];
    forall i | 0 <= i < |acts'|
      ensures Steps(es, ss'[i], acts'[i], ss'[i + 1])
    {
      if i < |acts| {
        assert acts'[i] == acts[i] && ss'[i] == ss[i] && ss'[i + 1] == ss[i + 1];
      }
    }
  }

  lemma EmptyFloor(es: seq<TickGen.Event>) returns (s: Scene)
    ensures IsFloor(es, [s], []) && Quiet(s) && s.desk == EMPTY_DESK && s.pipe == Pipeline.EMPTY
  {
    s := Scene(EMPTY_DESK, Pipeline.EMPTY, imap t: string :: P.State(t, [], None));
  }

  /** So any beginning of a shift can run with no order at all. */
  lemma {:induction false} QuietRun(es: seq<TickGen.Event>, ds: seq<Desk>, ms: seq<Move>, i: nat)
    returns (ss: seq<Scene>, acts: seq<Act>, committed: seq<C.Tick>)
    requires IsShift(es, ds, ms) && i <= |ms|
    ensures IsFloor(es, ss, acts) && MovesOf(acts) == ms[..i]
    ensures ss[|acts|].desk == ds[i] && Quiet(ss[|acts|])
    ensures Pipeline.Tracks(ss[|acts|].pipe, committed) && Pipeline.Rising(committed)
  {
    hide Pipeline.Tracks, Pipeline.Rising, Quiet, Moves, Steps, Orderly, Blank;
    if i == 0 {
      var s := EmptyFloor(es);
      Pipeline.NothingTracked();
      ss, acts, committed := [s], [], [];
    } else {
      ss, acts, committed := QuietRun(es, ds, ms, i - 1);
      ShiftIsOrderly(es, ds, ms, i - 1);
      var a, s';
      a, s', committed := QuietStep(es, ss[|acts|], ms[i - 1], ds[i], committed);
      FloorGrows(es, ss, acts, a, s');
      OneMoreMove(acts, a);
      ss, acts := ss + [s'], acts + [a];
    }
  }

  /** A bid at the price of an event. */
  function BidAt(e: TickGen.Event): Order {
    Order("o", e.token, Buy, Limit, 1, e.ltp, Unset, "", "")
  }

  lemma BidIsTriggered(e: TickGen.Event)
    ensures "o" in Triggered(map["o" := BidAt(e).(status := Resting)], e.ltp)
  {
  }

  lemma BidPasses(e: TickGen.Event)
    requires e.ltp > 0.0 && e.token != ""
    ensures P.OrderVerdict(e.token, map[], BidAt(e)).Pass?
  {
  }

  /** An order that passes the checks while no price is known rests. */
  lemma RestsUnpriced(token: string, o: Order)
    requires P.OrderVerdict(token, map[], o).Pass? && o.id != "" && Standalone(o)
    ensures var o' := o.(status := Resting);
            && BookOf([Accepted(o')]) == map[o.id := o']
            && P.Next(P.State(token, [], None), P.PlaceOrder(o), P.State(token, [Accepted(o')], None),
                      P.OrderReply(P.NowResting, o', None, None))
  {
    hide Lawful, LedgerOf, Admits, Validate, P.OrderVerdict;
    MayRest(token, o);
    NoBook();
    NoLogIsLawful(token);
    var o' := o.(status := Resting);
    hide BookOf;
    Grow(token, [], Accepted(o'));
    assert [Accepted(o')] == [] + [Accepted(o')];
  }

  /** So does the bid. */
  lemma BidRests(e: TickGen.Event)
    requires e.ltp > 0.0 && e.token != ""
    ensures var o := BidAt(e);
            var after := P.State(e.token, [Accepted(o.(status := Resting))], None);
            && Happens(P.State(e.token, [], None), Handled(P.PlaceOrder(o), BidReply(e)), after)
            && "o" in Triggered(BookOf(after.log), e.ltp)
  {
    hide BookOf, Validate, Triggered, P.Next, P.OrderVerdict;
    BidPasses(e);
    BidIsTriggered(e);
    RestsUnpriced(e.token, BidAt(e));
  }

  lemma MayRest(token: string, o: Order)
    requires P.OrderVerdict(token, map[], o).Pass? && o.id != "" && Standalone(o)
    ensures Admits(token, BookOf([]), LedgerOf([]), Accepted(o.(status := Resting)))
  {
  }

  function BidReply(e: TickGen.Event): P.Reply {
    P.OrderReply(P.NowResting, BidAt(e).(status := Resting), None, None)
  }

  /** A client places the bid while the desk is down. */
  lemma BidIsServed(es: seq<TickGen.Event>, s: Scene, k: nat) returns (s': Scene)
    requires k < |es| && Priced(es) && Quiet(s) && !s.desk.up
    ensures Steps(es, s, Served(es[k].token, P.PlaceOrder(BidAt(es[k])), BidReply(es[k])), s')
    ensures s'.desk == s.desk && "o" in Triggered(BookOf(s'.views[es[k].token].log), es[k].ltp)
  {
    hide Happens, BookOf, Triggered, BidAt, BidReply;
    var e := es[k];
    var o := BidAt(e);
    BidRests(e);
    assert s.views[e.token] == P.State(e.token, [], None);
    s' := s.(views := s.views[e.token := P.State(e.token, [Accepted(o.(status := Resting))], None)]);
  }

  lemma {:induction false} TakenIsHandled(es: seq<TickGen.Event>, ss: seq<Scene>, acts: seq<Act>,
                                          i: nat, j: nat, k: nat)
    requires IsFloor(es, ss, acts) && i < j <= |acts| && acts[i] == AtDesk(Taken(k))
    ensures k in ss[j].desk.handled
    decreases j
  {
    hide Works, Pipeline.Delivers, R.Occurs, FromInboxes, Blank;
    assert Steps(es, ss[j - 1], acts[j - 1], ss[j]);
    if i < j - 1 {
      TakenIsHandled(es, ss, acts, i, j - 1, k);
    }
  }

  lemma WhatWasTaken(es: seq<TickGen.Event>, ss: seq<Scene>, acts: seq<Act>, k: nat)
    requires IsFloor(es, ss, acts)
    ensures forall i | 0 <= i < |acts| && acts[i] == AtDesk(Taken(k)) :: k in ss[|acts|].desk.handled
  {
    hide Steps, Blank;
    forall i | 0 <= i < |acts| && acts[i] == AtDesk(Taken(k))
      ensures k in ss[|acts|].desk.handled
    {
      TakenIsHandled(es, ss, acts, i, |acts|, k);
    }
  }

  /**
   * Wherever a connection starts past an event that no actor has handled, there is a run with just this timing in
   * which an order rests before the connection, and misses that event.
   */
  lemma LateConnectionMisses(es: seq<TickGen.Event>, ds: seq<Desk>, ms: seq<Move>, i: nat, k: nat)
    returns (ss: seq<Scene>, acts: seq<Act>)
    requires IsShift(es, ds, ms) && Priced(es) && i < |ms|
    requires ms[i].Connected? && k < ms[i].start && k !in ds[i].handled
    ensures IsFloor(es, ss, acts) && MovesOf(acts) == ms[..i + 1] && Missed(es, ss, acts, k, "o")
  {
    hide Pipeline.Tracks, Pipeline.Rising, Quiet, Steps, Blank, Triggered, BookOf, RestsSince, BidAt, BidReply;
    var committed;
    ss, acts, committed := QuietRun(es, ds, ms, i);
    assert Moves(es, ds[i], ms[i], ds[i + 1]);
    ShiftIsOrderly(es, ds, ms, i);
    var s := ss[|acts|];
    var placed := Served(es[k].token, P.PlaceOrder(BidAt(es[k])), BidReply(es[k]));
    var s1 := BidIsServed(es, s, k);
    FloorGrows(es, ss, acts, placed, s1);
    OneMoreMove(acts, placed);
    OneMove(placed);
    ss, acts := ss + [s1], acts + [placed];
    var s2 := s1.(desk := ds[i + 1]);
    assert Steps(es, s1, AtDesk(ms[i]), s2) by { ConnectsOnly(es, s1, ms[i], s2); }
    FloorGrows(es, ss, acts, AtDesk(ms[i]), s2);
    OneMoreMove(acts, AtDesk(ms[i]));
    OneMove(AtDesk(ms[i]));
    ss, acts := ss + [s2], acts + [AtDesk(ms[i])];
    WhatWasTaken(es, ss, acts, k);
  }

  lemma ConnectsOnly(es: seq<TickGen.Event>, s: Scene, m: Move, s': Scene)
    requires m.Connected? && Moves(es, s.desk, m, s'.desk) && s'.pipe == s.pipe && s'.views == s.views
    ensures Steps(es, s, AtDesk(m), s')
  {
  }

  /**
   * A restart with a replay resumes where the process left off, for whatever clients do and wherever crashes fall, if
   * and only if the replay starts at or before the first event that no actor has handled: not, as the candles
   * alone would need, at the first that is not committed.
   */
  lemma NothingMissedIff(es: seq<TickGen.Event>, ds: seq<Desk>, ms: seq<Move>)
    requires IsShift(es, ds, ms) && Priced(es)
    ensures InTime(ds, ms) <==>
            forall ss, acts, k, id | IsFloor(es, ss, acts) && MovesOf(acts) <= ms :: !Missed(es, ss, acts, k, id)
  {
    hide IsFloor, Moves, Missed, Priced;
    if InTime(ds, ms) {
      forall ss, acts, k, id | IsFloor(es, ss, acts) && MovesOf(acts) <= ms
        ensures |ss| == |acts| + 1 && !Missed(es, ss, acts, k, id)
      {
        FloorLength(es, ss, acts);
        NothingIsMissedInTime(es, ds, ms, ss, acts, k, id);
      }
    } else {
      var i :| 0 <= i < |ms| && !StartsInTime(ds[i], ms[i]);
      var k: nat :| k < ms[i].start && k !in ds[i].handled;
      var ss, acts := LateConnectionMisses(es, ds, ms, i, k);
      FloorLength(es, ss, acts);
    }
  }

  // ---------- the candle half ----------

  /** What the candles need of a connection is less: to start at or before the first uncommitted event. */
  ghost predicate StartsForCandles(d: Desk, m: Move) {
    m.Connected? ==> m.start <= d.frontier
  }

  /** It is no more than the orders need... */
  lemma InTimeIsEnoughForCandles(es: seq<TickGen.Event>, ds: seq<Desk>, ms: seq<Move>, j: nat)
    requires IsShift(es, ds, ms) && j < |ms| && StartsInTime(ds[j], ms[j])
    ensures StartsForCandles(ds[j], ms[j])
  {
    hide Moves;
    ShiftIsOrderly(es, ds, ms, j);
    if ms[j].Connected? && ms[j].start > 0 {
      var last: nat := ms[j].start - 1;
      assert last in ds[j].handled;
    }
  }

  /** The candle half of a scene. */
  function WorldOf(s: Scene): Replay.World {
    Replay.World(s.pipe, Replay.Line(s.desk.up, s.desk.cursor, s.desk.frontier))
  }

  lemma CandleStep(es: seq<TickGen.Event>, s: Scene, a: Act, s': Scene, ticks: seq<C.Tick>)
    returns (ticks': seq<C.Tick>)
    requires TickGen.Contiguous(es) && Steps(es, s, a, s') && (a.AtDesk? ==> StartsForCandles(s.desk, a.move))
    requires Replay.Sound(WorldOf(s).line, ticks) && Replay.Follows(es, ticks)
    requires Pipeline.Tracks(s.pipe, ticks) && Pipeline.Rising(ticks)
    ensures Replay.Sound(WorldOf(s').line, ticks') && Replay.Follows(es, ticks')
    ensures Pipeline.Tracks(s'.pipe, ticks') && Pipeline.Rising(ticks')
  {
    hide TickGen.Contiguous, Pipeline.Tracks, Pipeline.Rising, Pipeline.Process, Pipeline.Reseeded, R.Occurs;
    hide Replay.Follows, FromInboxes;
    var w, w' := WorldOf(s), WorldOf(s');
    ticks' := ticks;
    match a {
      case AtDesk(m) =>
        if m.Connected? {
          ticks' := Replay.HopKeepsUp(es, w, Replay.Connected(m.start), w', ticks);
        } else if m.Committed? {
          var t :| Replay.Carries(es[s.desk.cursor], t) && s'.pipe == Pipeline.Process(s.pipe, t);
          ticks' := Replay.HopKeepsUp(es, w, Replay.Received(Pipeline.Processed(t)), w', ticks);
        }
      case Crashed(_) =>
        ticks' := Replay.HopKeepsUp(es, w, Replay.Received(Pipeline.Rebooted), w', ticks);
      case Served(_, _, _) =>
    }
  }

  lemma StartsHere(es: seq<TickGen.Event>, ds: seq<Desk>, ms: seq<Move>, ss: seq<Scene>, acts: seq<Act>, j: nat)
    requires IsShift(es, ds, ms) && InTime(ds, ms) && IsFloor(es, ss, acts) && MovesOf(acts) <= ms && j < |acts|
    ensures acts[j].AtDesk? ==> StartsForCandles(ss[j].desk, acts[j].move)
  {
    hide Moves, Steps, Blank;
    MovesGrow(acts, j);
    MovesGrow(acts, j + 1);
    assert acts[..j + 1] == acts[..j] + [acts[j]];
    OneMoreMove(acts[..j], acts[j]);
    OneMove(acts[j]);
    DeskFollows(es, ds, ms, ss, acts, j);
    if acts[j].AtDesk? {
      var n := |MovesOf(acts[..j])|;
      assert MovesOf(acts[..j + 1])[n] == acts[j].move == ms[n];
      InTimeIsEnoughForCandles(es, ds, ms, n);
    }
  }

  lemma {:induction false} FloorKeepsUp(es: seq<TickGen.Event>, ds: seq<Desk>, ms: seq<Move>,
                                        ss: seq<Scene>, acts: seq<Act>, j: nat)
    returns (ticks: seq<C.Tick>)
    requires TickGen.Contiguous(es) && IsShift(es, ds, ms) && InTime(ds, ms)
    requires IsFloor(es, ss, acts) && MovesOf(acts) <= ms && j <= |acts|
    ensures Replay.Sound(WorldOf(ss[j]).line, ticks) && Replay.Follows(es, ticks)
    ensures Pipeline.Tracks(ss[j].pipe, ticks) && Pipeline.Rising(ticks)
  {
    hide TickGen.Contiguous, Pipeline.Tracks, Pipeline.Rising, Steps, Blank, MovesOf, InTime;
    if j == 0 {
      ticks := [];
      Pipeline.NothingTracked();
    } else {
      ticks := FloorKeepsUp(es, ds, ms, ss, acts, j - 1);
      StartsHere(es, ds, ms, ss, acts, j - 1);
      ticks := CandleStep(es, ss[j - 1], acts[j - 1], ss[j], ticks);
    }
  }

  /** ...so the same runs keep memory and tables exactly once, in order, as though the process had never died... */
  lemma InTimeKeepsCandles(es: seq<TickGen.Event>, ds: seq<Desk>, ms: seq<Move>,
                           ss: seq<Scene>, acts: seq<Act>, j: nat)
    returns (ticks: seq<C.Tick>)
    requires TickGen.Contiguous(es) && IsShift(es, ds, ms) && InTime(ds, ms)
    requires IsFloor(es, ss, acts) && MovesOf(acts) <= ms && j <= |acts|
    ensures |ticks| == ss[j].desk.frontier && Replay.Follows(es, ticks)
    ensures ss[j].pipe == Pipeline.FreshRun(ticks)
  {
    hide TickGen.Contiguous, IsFloor, IsShift, Pipeline.Tracks, Pipeline.Rising, Pipeline.FreshRun, Replay.Follows;
    FloorLength(es, ss, acts);
    ticks := FloorKeepsUp(es, ds, ms, ss, acts, j);
    Pipeline.FreshRunTracks(ticks);
    Pipeline.TracksDetermines(ss[j].pipe, Pipeline.FreshRun(ticks), ticks);
  }

  /** ...and not enough: an event committed just before a crash is passed over by a connection that starts after it. */
  lemma CommittedAndLost(es: seq<TickGen.Event>) returns (ss: seq<Scene>, acts: seq<Act>)
    requires es != [] && Priced(es)
    ensures var ms := [Connected(0), Committed, Died, Connected(1)];
            var ds := [EMPTY_DESK, Desk(true, 0, 0, None, {}, {}), Desk(true, 1, 1, Some(0), {}, {}),
                       Desk(false, 1, 1, None, {}, {}), Desk(true, 1, 1, None, {}, {})];
            && IsShift(es, ds, ms) && (forall i | 0 <= i < |ms| :: StartsForCandles(ds[i], ms[i]))
            && IsFloor(es, ss, acts) && MovesOf(acts) == ms && Missed(es, ss, acts, 0, "o")
  {
    var ms := [Connected(0), Committed, Died, Connected(1)];
    var ds := [EMPTY_DESK, Desk(true, 0, 0, None, {}, {}), Desk(true, 1, 1, Some(0), {}, {}),
               Desk(false, 1, 1, None, {}, {}), Desk(true, 1, 1, None, {}, {})];
    assert IsShift(es, ds, ms);
    hide IsFloor, Missed, Priced, Moves, MovesOf;
    ss, acts := LateConnectionMisses(es, ds, ms, 3, 0);
    assert ms[..4] == ms;
  }
}
