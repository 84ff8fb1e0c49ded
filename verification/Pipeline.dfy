/**
 * The aggregator and its tables in lockstep, under replays and crashes
 * (cmd/server/main.go:90-115, 129-141; internal/storage/candle_store.go:113-167).
 */
module Pipeline {
  import opened Wrappers
  import opened Candles
  import opened CandleStorage

  datatype Pipe = Pipe(states: map<string, InstrumentState>, disk: CandleTables)

  const EMPTY := Pipe(map[], NO_TABLES)

  datatype Delivery =
    | Processed(t: Tick)          // applied and committed, or recognised as a duplicate
    | LostBeforeCommit(t: Tick)   // applied in memory, then the process died and booted again
    | LostAfterCommit(t: Tick)    // committed, then the process died and booted again
    | Rebooted

  /** The aggregator seeded from the tables: one entry per watermark, with its latest candle. */
  ghost predicate Reseeded(disk: CandleTables, states: map<string, InstrumentState>) {
    && states.Keys == disk.marks.Keys
    && forall token | token in states ::
         var rows := RowsOf(disk.rows, token);
         if rows == map[] then states[token] == Seeded(disk.marks[token], None)
         else
           && IsLatest(rows, states[token].current)
           && states[token] == Seeded(disk.marks[token], Some(states[token].current))
  }

  function LatestOrNone(latest: map<string, Candle>, token: string): Option<Candle> {
    if token in latest then Some(latest[token]) else None
  }

  /** The instruments seeded so far. */
  ghost predicate SeededFrom(states: map<string, InstrumentState>, tokens: set<string>,
                             marks: map<string, int>, latest: map<string, Candle>)
  {
    && states.Keys == tokens <= marks.Keys
    && forall token | token in states :: states[token] == Seeded(marks[token], LatestOrNone(latest, token))
  }

  lemma SeedOneMore(states: map<string, InstrumentState>, tokens: set<string>,
                    marks: map<string, int>, latest: map<string, Candle>, token: string)
    requires SeededFrom(states, tokens, marks, latest) && token in marks
    ensures SeededFrom(states[token := Seeded(marks[token], LatestOrNone(latest, token))], tokens + {token},
                       marks, latest)
  {
    hide Seeded;
  }

  lemma SeedsAreReseeded(disk: CandleTables, latest: map<string, Candle>, states: map<string, InstrumentState>)
    requires AreLatest(disk.rows, latest) && SeededFrom(states, disk.marks.Keys, disk.marks, latest)
    ensures Reseeded(disk, states)
  {
    hide IsLatest;
  }

  /** Boot of the candle path: every watermark, with the latest candle of its instrument if there is one. */
  method SeedAggregator(candles: CandleStore) returns (agg: Aggregator)
    requires candles.Valid()
    ensures fresh(agg) && Reseeded(candles.Tables(), agg.states)
  {
    hide Seeded, SeededFrom, AreLatest, Reseeded, WellKeyed;
    agg := new Aggregator();
    var watermarks := candles.AllWatermarks();
    var latest := candles.AllLatestCandles();
    var tokens := watermarks.Keys;
    ghost var done: set<string> := {};
    NothingSeeded(watermarks, latest);
    while tokens != {}
      invariant done + tokens == watermarks.Keys && SeededFrom(agg.states, done, watermarks, latest)
      decreases |tokens|
    {
      var token :| token in tokens;
      SeedOneMore(agg.states, done, watermarks, latest, token);
      tokens := tokens - {token};
      done := done + {token};
      if token in latest {
        agg.Seed(token, watermarks[token], Some(latest[token]));
      } else {
        agg.Seed(token, watermarks[token], None);
      }
    }
    SeedsAreReseeded(candles.Tables(), latest, agg.states);
  }

  lemma NothingSeeded(marks: map<string, int>, latest: map<string, Candle>)
    ensures SeededFrom(map[], {}, marks, latest)
  {
  }

  /** The tick loop's body: the aggregator, then the transaction with its result. */
  function Process(p: Pipe, t: Tick): Pipe {
    Pipe(Applied(p.states, t), TickCommitted(p.disk, t.token, t.seqNo, ResultOf(p.states, t)))
  }

  ghost predicate Delivers(p: Pipe, d: Delivery, p': Pipe) {
    match d
    case Processed(t) => p' == Process(p, t)
    case LostBeforeCommit(t) => p'.disk == p.disk && Reseeded(p'.disk, p'.states)
    case LostAfterCommit(t) => p'.disk == Process(p, t).disk && Reseeded(p'.disk, p'.states)
    case Rebooted => p'.disk == p.disk && Reseeded(p'.disk, p'.states)
  }

  ghost predicate IsFeed(ps: seq<Pipe>, ds: seq<Delivery>) {
    && |ps| == |ds| + 1 && ps[0] == EMPTY
    && forall i | 0 <= i < |ds| :: Delivers(ps[i], ds[i], ps[i + 1])
  }

  // ---------- the ticks that count ----------

  /** Later than every committed tick of its instrument. */
  predicate IsNew(committed: seq<Tick>, t: Tick) {
    forall i | 0 <= i < |committed| && committed[i].token == t.token :: committed[i].seqNo < t.seqNo
  }

  /** The committed ticks after one more delivery. */
  function CommittedAfter(past: seq<Tick>, d: Delivery): seq<Tick> {
    if (d.Processed? || d.LostAfterCommit?) && IsNew(past, d.t) then past + [d.t] else past
  }

  /** The deliveries that left a mark: those whose transaction ran with a new maximum seq. */
  function CommittedBy(ds: seq<Delivery>): seq<Tick> {
    if ds == [] then [] else CommittedAfter(CommittedBy(ds[..|ds| - 1]), ds[|ds| - 1])
  }

  /** A fresh pipeline run over some ticks, with no crash. */
  function FreshRun(ts: seq<Tick>): Pipe {
    if ts == [] then EMPTY else Process(FreshRun(ts[..|ts| - 1]), ts[|ts| - 1])
  }

  function TicksOf(ts: seq<Tick>, token: string): seq<Tick> {
    if ts == [] then []
    else
      var past, t := TicksOf(ts[..|ts| - 1], token), ts[|ts| - 1];
      if t.token == token then past + [t] else past
  }

  // ---------- what one instrument's ticks determine ----------

  /** The aggregator state after some new ticks of one instrument. */
  function StateOf(mine: seq<Tick>): InstrumentState
    requires mine != []
  {
    var ss := Segments(mine);
    InstrumentState(mine[|mine| - 1].seqNo, true, BarOf(ss[|ss| - 1]), true)
  }

  ghost predicate TracksAt(p: Pipe, mine: seq<Tick>, token: string) {
    if mine == [] then token !in p.states && token !in p.disk.rows && token !in p.disk.marks
    else
      && token in p.states && p.states[token] == StateOf(mine)
      && token in p.disk.rows && p.disk.rows[token] == RowsFrom(Segments(mine))
      && token in p.disk.marks && p.disk.marks[token] == mine[|mine| - 1].seqNo
  }

  /** Memory and tables are what the committed ticks determine. */
  ghost predicate Tracks(p: Pipe, committed: seq<Tick>) {
    forall token :: TracksAt(p, TicksOf(committed, token), token)
  }

  lemma TracksDetermines(p: Pipe, q: Pipe, committed: seq<Tick>)
    requires Tracks(p, committed) && Tracks(q, committed)
    ensures p == q
  {
    forall token
      ensures token in p.states <==> token in q.states
      ensures token in p.disk.rows <==> token in q.disk.rows
      ensures token in p.disk.marks <==> token in q.disk.marks
      ensures token in p.states ==> p.states[token] == q.states[token]
      ensures token in p.disk.rows ==> p.disk.rows[token] == q.disk.rows[token]
      ensures token in p.disk.marks ==> p.disk.marks[token] == q.disk.marks[token]
    {
      hide StateOf, RowsFrom, Segments;
      assert TracksAt(p, TicksOf(committed, token), token);
      assert TracksAt(q, TicksOf(committed, token), token);
    }
    assert p.states == q.states;
    assert p.disk.rows == q.disk.rows;
    assert p.disk.marks == q.disk.marks;
  }

  /** Each committed tick was new when it came. */
  predicate Rising(committed: seq<Tick>) {
    committed == [] ||
    (Rising(committed[..|committed| - 1]) && IsNew(committed[..|committed| - 1], committed[|committed| - 1]))
  }

  /** The last tick of an instrument is the one to beat. */
  lemma {:induction false} NewMeansAboveLast(committed: seq<Tick>, t: Tick)
    requires Rising(committed)
    ensures var mine := TicksOf(committed, t.token);
            IsNew(committed, t) <==> mine == [] || mine[|mine| - 1].seqNo < t.seqNo
  {
    if committed != [] {
      var n := |committed| - 1;
      var past, last := committed[..n], committed[n];
      NewMeansAboveLast(past, t);
      assert forall i | 0 <= i < n :: past[i] == committed[i];
    }
  }

  lemma {:induction false} TicksAreOf(ts: seq<Tick>, token: string)
    ensures forall i | 0 <= i < |TicksOf(ts, token)| :: TicksOf(ts, token)[i].token == token
  {
    if ts != [] {
      TicksAreOf(ts[..|ts| - 1], token);
    }
  }

  /** What one new tick does to its own instrument: the next segment, or one more tick in the last. */
  lemma NextState(mine: seq<Tick>, t: Tick)
    requires mine != [] && forall i | 0 <= i < |mine| :: mine[i].token == t.token
    ensures Advance(StateOf(mine), t) == StateOf(mine + [t])
    ensures var ss := Segments(mine); var last := BarOf(ss[|ss| - 1]);
            && last.token == t.token && last.bucket == MinuteOf(ss[|ss| - 1])
            && Segments(mine + [t]) == (if BucketFor(t.ts) > last.bucket then ss + [[t]]
                                        else ss[..|ss| - 1] + [ss[|ss| - 1] + [t]])
            && Closes(StateOf(mine), t) == if BucketFor(t.ts) > last.bucket then Some(last) else None
  {
    hide BucketFor, Segments;
    var ss := Segments(mine);
    var last := ss[|ss| - 1];
    GrowSegments(mine, t);
    BarMinute(last);
    LastSegmentToken(mine, t.token);
    BarIsOhlc(last);
    assert (last + [t])[..|last|] == last;
  }

  lemma {:induction false} LastSegmentToken(mine: seq<Tick>, token: string)
    requires mine != [] && forall i | 0 <= i < |mine| :: mine[i].token == token
    ensures var ss := Segments(mine); ss[|ss| - 1][0].token == token
  {
    hide BucketFor;
    if |mine| > 1 {
      LastSegmentToken(mine[..|mine| - 1], token);
    }
  }

  /** The closed candle is already stored, so writing it again changes nothing; the new one is a new row. */
  lemma NewMinuteRows(rows: map<string, map<int, Candle>>, token: string, ss: seq<Segment>, t: Tick)
    requires ss != [] && Proper(ss) && token == t.token && BarOf(ss[|ss| - 1]).token == token
    requires token in rows && rows[token] == RowsFrom(ss) && BucketFor(t.ts) > MinuteOf(ss[|ss| - 1])
    ensures Upserted(Upserted(rows, BarOf(ss[|ss| - 1])), OpenBar(t)) == rows[token := RowsFrom(ss + [[t]])]
  {
    var bar := BarOf(ss[|ss| - 1]);
    BarMinute(ss[|ss| - 1]);
    LastRow(ss);
    RowsGrow(ss, [t]);
    SingleTick(t);
    hide BarOf, MinuteOf, BucketFor, RowsFrom, Upserted;
    UpsertSame(rows, bar);
    UpsertNew(rows, OpenBar(t));
  }

  lemma LastRow(ss: seq<Segment>)
    requires ss != [] && Proper(ss)
    ensures var last := ss[|ss| - 1];
            && MinuteOf(last) in RowsFrom(ss) && RowsFrom(ss)[MinuteOf(last)] == BarOf(last)
            && forall b | b in RowsFrom(ss) :: b <= MinuteOf(last)
  {
    EarlierRows(ss);
    hide BarOf, MinuteOf;
  }

  lemma UpsertSame(rows: map<string, map<int, Candle>>, c: Candle)
    requires c.token in rows && c.bucket in rows[c.token] && rows[c.token][c.bucket] == c
    ensures Upserted(rows, c) == rows
  {
    assert rows[c.token][c.bucket := c] == rows[c.token];
  }

  lemma UpsertNew(rows: map<string, map<int, Candle>>, c: Candle)
    requires c.token in rows && c.bucket !in rows[c.token]
    ensures Upserted(rows, c) == rows[c.token := rows[c.token][c.bucket := c]]
  {
  }

  /** In the same minute the row keeps its open price, which is what the candle in memory has too. */
  lemma SameMinuteRows(rows: map<string, map<int, Candle>>, token: string, ss: seq<Segment>, t: Tick)
    requires ss != [] && BarOf(ss[|ss| - 1]).token == token
    requires token in rows && rows[token] == RowsFrom(ss)
    ensures var n := |ss| - 1;
            Upserted(rows, Extend(BarOf(ss[n]), t)) == rows[token := RowsFrom(ss[..n] + [ss[n] + [t]])]
  {
    var n := |ss| - 1;
    var longer: Segment := ss[n] + [t];
    BarGrows(ss[n], t);
    RowsGrow(ss[..n], longer);
    hide BarOf, MinuteOf;
    var key := MinuteOf(ss[n]);
    assert RowsFrom(ss)[key] == BarOf(ss[n]);
    assert RowsFrom(ss)[key := BarOf(longer)] == RowsFrom(ss[..n])[key := BarOf(longer)];
  }

  /** The rows after the transaction of a new tick are the rows of the longer history. */
  lemma NextRows(rows: map<string, map<int, Candle>>, mine: seq<Tick>, t: Tick)
    requires mine != [] && forall i | 0 <= i < |mine| :: mine[i].token == t.token
    requires t.token in rows && rows[t.token] == RowsFrom(Segments(mine))
    ensures var closed := Closes(StateOf(mine), t);
            var mid := if closed.Some? then Upserted(rows, closed.value) else rows;
            Upserted(mid, Advance(StateOf(mine), t).current) == rows[t.token := RowsFrom(Segments(mine + [t]))]
  {
    var ss := Segments(mine);
    NextState(mine, t);
    SegmentsPartition(mine);
    StateIsBar(mine);
    hide BucketFor, Segments, MinuteOf, BarOf, StateOf, RowsFrom, Upserted, OpenBar, Extend;
    if BucketFor(t.ts) > BarOf(ss[|ss| - 1]).bucket {
      NewMinuteRows(rows, t.token, ss, t);
    } else {
      SameMinuteRows(rows, t.token, ss, t);
    }
  }

  lemma RowsGrow(ss: seq<Segment>, last: Segment)
    ensures RowsFrom(ss + [last]) == RowsFrom(ss)[MinuteOf(last) := BarOf(last)]
  {
    hide MinuteOf, BarOf;
    assert (ss + [last])[..|ss|] == ss;
  }

  lemma SingleTick(t: Tick)
    ensures BarOf([t]) == OpenBar(t) && MinuteOf([t]) == BucketFor(t.ts)
  {
  }

  lemma BarGrows(seg: Segment, t: Tick)
    ensures var longer: Segment := seg + [t];
            BarOf(longer) == Extend(BarOf(seg), t) && MinuteOf(longer) == MinuteOf(seg) == BarOf(seg).bucket
  {
    BarMinute(seg);
    assert (seg + [t])[..|seg|] == seg;
  }

  lemma StateIsBar(mine: seq<Tick>)
    requires mine != []
    ensures var ss := Segments(mine);
            StateOf(mine) == InstrumentState(mine[|mine| - 1].seqNo, true, BarOf(ss[|ss| - 1]), true)
  {
  }

  lemma GrowTicks(ts: seq<Tick>, t: Tick, token: string)
    ensures TicksOf(ts + [t], token) == if t.token == token then TicksOf(ts, token) + [t] else TicksOf(ts, token)
    ensures Rising(ts + [t]) <==> Rising(ts) && IsNew(ts, t)
    ensures FreshRun(ts + [t]) == Process(FreshRun(ts), t)
  {
    hide Process;
    assert (ts + [t])[..|ts|] == ts;
  }

  /** The committed ticks after one more that reached the transaction. */
  function Counted(committed: seq<Tick>, t: Tick): seq<Tick> {
    if IsNew(committed, t) then committed + [t] else committed
  }

  /** The aggregator and the watermark check always agree on what is a duplicate. */
  lemma VerdictsAgree(p: Pipe, committed: seq<Tick>, t: Tick)
    requires Tracks(p, committed) && Rising(committed)
    ensures ResultOf(p.states, t).duplicate <==> Seen(p.disk, t.token, t.seqNo)
    ensures ResultOf(p.states, t).duplicate <==> !IsNew(committed, t)
  {
    hide Segments, BarOf, RowsFrom, Advance, Closes;
    NewMeansAboveLast(committed, t);
    assert TracksAt(p, TicksOf(committed, t.token), t.token);
  }

  /** The first tick of an instrument opens its state, its rows and its watermark. */
  lemma ProcessFirst(p: Pipe, t: Tick)
    requires TracksAt(p, [], t.token)
    ensures TracksAt(Process(p, t), [t], t.token) && OnlyTouches(p, Process(p, t), t.token)
  {
    FirstTick(t);
    hide Segments, BarOf, BucketFor, StateOf, RowsFrom;
    var p' := Process(p, t);
    assert p'.states[t.token] == InstrumentState(t.seqNo, true, OpenBar(t), true);
    assert p'.disk.rows[t.token] == map[OpenBar(t).bucket := OpenBar(t)];
  }

  /** A later new tick of an instrument takes its state, its rows and its watermark one tick on. */
  lemma ProcessLater(p: Pipe, mine: seq<Tick>, t: Tick)
    requires mine != [] && forall i | 0 <= i < |mine| :: mine[i].token == t.token
    requires TracksAt(p, mine, t.token) && mine[|mine| - 1].seqNo < t.seqNo
    ensures TracksAt(Process(p, t), mine + [t], t.token) && OnlyTouches(p, Process(p, t), t.token)
  {
    StateIsBar(mine);
    hide Segments, BarOf, BucketFor, RowsFrom, Upserted, Advance, Closes, StateOf, Process, Seen, OnlyTouches;
    assert StateAt(p.states, t.token) == StateOf(mine);
    assert !Seen(p.disk, t.token, t.seqNo) by {
      NotSeen(p.disk, t);
    }
    hide TracksAt;
    NextState(mine, t);
    NextRows(p.disk.rows, mine, t);
    LaterTables(p, mine, t);
    TouchesOne(p, Process(p, t), mine + [t], t.token);
  }

  lemma NotSeen(disk: CandleTables, t: Tick)
    requires t.token in disk.marks && disk.marks[t.token] < t.seqNo
    ensures !Seen(disk, t.token, t.seqNo)
  {
  }

  lemma TouchesOne(p: Pipe, p': Pipe, mine: seq<Tick>, token: string)
    requires mine != []
    requires p'.states == p.states[token := StateOf(mine)]
    requires p'.disk == CandleTables(p.disk.rows[token := RowsFrom(Segments(mine))],
                                     p.disk.marks[token := mine[|mine| - 1].seqNo])
    ensures TracksAt(p', mine, token) && OnlyTouches(p, p', token)
  {
    hide Segments, StateOf, RowsFrom;
  }

  lemma LaterTables(p: Pipe, mine: seq<Tick>, t: Tick)
    requires mine != [] && StateAt(p.states, t.token) == StateOf(mine)
    requires !IsDuplicate(StateOf(mine), t) && !Seen(p.disk, t.token, t.seqNo)
    requires var closed := Closes(StateOf(mine), t);
             var mid := if closed.Some? then Upserted(p.disk.rows, closed.value) else p.disk.rows;
             Upserted(mid, Advance(StateOf(mine), t).current) == p.disk.rows[t.token := RowsFrom(Segments(mine + [t]))]
    ensures Process(p, t).disk == CandleTables(p.disk.rows[t.token := RowsFrom(Segments(mine + [t]))],
                                               p.disk.marks[t.token := t.seqNo])
    ensures Process(p, t).states == p.states[t.token := Advance(StateOf(mine), t)]
  {
    hide Segments, BarOf, BucketFor, RowsFrom, Upserted, Advance, Closes, StateOf;
  }

  /** Nothing of any other instrument changes. */
  ghost predicate OnlyTouches(p: Pipe, p': Pipe, token: string) {
    forall other | other != token ::
      && (other in p'.states <==> other in p.states)
      && (other in p.states ==> p'.states[other] == p.states[other])
      && (other in p'.disk.rows <==> other in p.disk.rows)
      && (other in p.disk.rows ==> p'.disk.rows[other] == p.disk.rows[other])
      && (other in p'.disk.marks <==> other in p.disk.marks)
      && (other in p.disk.marks ==> p'.disk.marks[other] == p.disk.marks[other])
  }

  lemma ProcessOwn(p: Pipe, committed: seq<Tick>, t: Tick)
    requires Tracks(p, committed) && Rising(committed) && IsNew(committed, t)
    ensures TracksAt(Process(p, t), TicksOf(committed, t.token) + [t], t.token)
    ensures OnlyTouches(p, Process(p, t), t.token)
  {
    var mine := TicksOf(committed, t.token);
    TracksEach(p, committed, t.token);
    TicksAreOf(committed, t.token);
    NewMeansAboveLast(committed, t);
    hide TracksAt, OnlyTouches, Process;
    if mine == [] {
      ProcessFirst(p, t);
      assert mine + [t] == [t];
    } else {
      ProcessLater(p, mine, t);
    }
  }

  lemma FirstTick(t: Tick)
    ensures Segments([t]) == [[t]] && StateOf([t]) == InstrumentState(t.seqNo, true, OpenBar(t), true)
    ensures RowsFrom(Segments([t])) == map[BucketFor(t.ts) := OpenBar(t)]
  {
    assert [t][..0] == [];
    assert [[t]][..0] == [];
  }

  lemma OthersKeepTrack(p: Pipe, p': Pipe, mine: seq<Tick>, token: string, touched: string)
    requires TracksAt(p, mine, token) && OnlyTouches(p, p', touched) && token != touched
    ensures TracksAt(p', mine, token)
  {
    hide StateOf, RowsFrom, Segments;
  }

  lemma DuplicateChangesNothing(p: Pipe, committed: seq<Tick>, t: Tick)
    requires Tracks(p, committed) && Rising(committed) && !IsNew(committed, t)
    ensures Process(p, t) == p
  {
    VerdictsAgree(p, committed, t);
    TracksEach(p, committed, t.token);
    NewMeansAboveLast(committed, t);
    hide Segments, BarOf, RowsFrom, Advance, Closes, Tracks;
    assert Applied(p.states, t) == p.states;
  }

  /** One delivery keeps memory and tables in lockstep with the ticks that count. */
  lemma ProcessTracks(p: Pipe, committed: seq<Tick>, t: Tick)
    requires Tracks(p, committed) && Rising(committed)
    ensures Tracks(Process(p, t), Counted(committed, t)) && Rising(Counted(committed, t))
  {
    hide Process, TracksAt, Tracks, IsNew, OnlyTouches;
    if IsNew(committed, t) {
      ProcessOwn(p, committed, t);
      var p' := Process(p, t);
      GrowTicks(committed, t, t.token);
      forall token
        ensures TracksAt(p', TicksOf(committed + [t], token), token)
      {
        GrowTicks(committed, t, token);
        if token != t.token {
          TracksEach(p, committed, token);
          OthersKeepTrack(p, p', TicksOf(committed, token), token, t.token);
        }
      }
      TracksAll(p', committed + [t]);
    } else {
      DuplicateChangesNothing(p, committed, t);
    }
  }

  lemma TracksEach(p: Pipe, committed: seq<Tick>, token: string)
    requires Tracks(p, committed)
    ensures TracksAt(p, TicksOf(committed, token), token)
  {
    hide TracksAt, TicksOf;
  }

  lemma TracksAll(p: Pipe, committed: seq<Tick>)
    requires forall token :: TracksAt(p, TicksOf(committed, token), token)
    ensures Tracks(p, committed)
  {
    hide TracksAt, TicksOf;
  }

  /** Seeding rebuilds exactly the aggregator that was lost. */
  lemma SeedRebuilds(p: Pipe, committed: seq<Tick>, states: map<string, InstrumentState>)
    requires Tracks(p, committed) && Reseeded(p.disk, states)
    ensures states == p.states
  {
    hide Segments, BarOf, RowsFrom, IsLatest;
    forall token
      ensures token in states <==> token in p.states
      ensures token in states ==> states[token] == p.states[token]
    {
      var mine := TicksOf(committed, token);
      assert TracksAt(p, mine, token);
      if mine != [] {
        LastSegmentIsLatest(mine);
      }
    }
  }

  /** And what was lost is a seeding of the tables. */
  lemma LostCanBeRebuilt(p: Pipe, committed: seq<Tick>)
    requires Tracks(p, committed)
    ensures Reseeded(p.disk, p.states)
  {
    hide Segments, BarOf, RowsFrom, IsLatest;
    forall token
      ensures token in p.states <==> token in p.disk.marks
      ensures token in p.states ==>
                var rows := RowsOf(p.disk.rows, token);
                && rows != map[] && IsLatest(rows, p.states[token].current)
                && p.states[token] == Seeded(p.disk.marks[token], Some(p.states[token].current))
    {
      var mine := TicksOf(committed, token);
      assert TracksAt(p, mine, token);
      if mine != [] {
        LastSegmentIsLatest(mine);
      }
    }
  }

  lemma NothingTracked()
    ensures Tracks(EMPTY, []) && Rising([])
  {
  }

  /** One delivery, whatever its fate, keeps memory and tables on track. */
  lemma DeliveryTracks(p: Pipe, past: seq<Tick>, d: Delivery, p': Pipe)
    requires Tracks(p, past) && Rising(past) && Delivers(p, d, p')
    ensures Tracks(p', CommittedAfter(past, d)) && Rising(CommittedAfter(past, d))
  {
    hide Tracks, Rising, Process, Reseeded, IsNew;
    match d
    case Processed(t) =>
      ProcessTracks(p, past, t);
    case LostBeforeCommit(t) =>
      SeedRebuilds(p, past, p'.states);
    case LostAfterCommit(t) =>
      ProcessTracks(p, past, t);
      SeedRebuilds(Process(p, t), Counted(past, t), p'.states);
    case Rebooted =>
      SeedRebuilds(p, past, p'.states);
  }

  /** After any deliveries, replays and crashes, memory and tables track the committed ticks. */
  lemma {:induction false} FeedTracks(ps: seq<Pipe>, ds: seq<Delivery>, j: nat)
    requires IsFeed(ps, ds) && j < |ps|
    ensures Tracks(ps[j], CommittedBy(ds[..j])) && Rising(CommittedBy(ds[..j]))
  {
    hide Tracks, Rising, CommittedAfter;
    if j == 0 {
      NothingTracked();
      assert ds[..0] == [];
    } else {
      FeedTracks(ps, ds, j - 1);
      assert ds[..j][..j - 1] == ds[..j - 1];
      DeliveryTracks(ps[j - 1], CommittedBy(ds[..j - 1]), ds[j - 1], ps[j]);
    }
  }

  lemma {:induction false} FreshRunTracks(committed: seq<Tick>)
    requires Rising(committed)
    ensures Tracks(FreshRun(committed), committed)
  {
    hide Tracks, Process, IsNew;
    if committed == [] {
      NothingTracked();
    } else {
      var n := |committed| - 1;
      var past, t := committed[..n], committed[n];
      assert committed == past + [t];
      FreshRunTracks(past);
      GrowTicks(past, t, t.token);
      ProcessTracks(FreshRun(past), past, t);
    }
  }

  /**
   * Crash and replay refinement: the aggregator, the candle rows and the watermarks are exactly
   * those of a fresh process that saw only the committed ticks, once each, and never crashed.
   */
  lemma FeedRefinesFreshRun(ps: seq<Pipe>, ds: seq<Delivery>, j: nat)
    requires IsFeed(ps, ds) && j < |ps|
    ensures ps[j] == FreshRun(CommittedBy(ds[..j]))
  {
    hide Tracks, Rising;
    FeedTracks(ps, ds, j);
    FreshRunTracks(CommittedBy(ds[..j]));
    TracksDetermines(ps[j], FreshRun(CommittedBy(ds[..j])), CommittedBy(ds[..j]));
  }

  /**
   * The stored candles are true OHLC segments: an instrument's committed ticks split into
   * consecutive segments of strictly increasing minutes, one row for each, although an update
   * never writes the open price; and no tick is lost or counted twice.
   */
  lemma RowsAreTrueCandles(ps: seq<Pipe>, ds: seq<Delivery>, j: nat, token: string) returns (ss: seq<Segment>)
    requires IsFeed(ps, ds) && j < |ps|
    ensures Proper(ss) && Flatten(ss) == TicksOf(CommittedBy(ds[..j]), token)
    ensures var rows := RowsOf(ps[j].disk.rows, token);
            && (forall i | 0 <= i < |ss| :: MinuteOf(ss[i]) in rows && IsOhlc(rows[MinuteOf(ss[i])], ss[i]))
            && (forall b | b in rows :: exists i :: 0 <= i < |ss| && MinuteOf(ss[i]) == b)
            && TotalCount(rows) == |TicksOf(CommittedBy(ds[..j]), token)|
  {
    hide Rising, IsOhlc, MinuteOf, TotalCount, Proper, Segments;
    var mine := TicksOf(CommittedBy(ds[..j]), token);
    FeedTracks(ps, ds, j);
    assert TracksAt(ps[j], mine, token);
    ss := Segments(mine);
    SegmentsPartition(mine);
    NoTicksNoSegments();
    NoRowsNoTicks();
    CountsAddUp(ss);
    var rows := RowsOf(ps[j].disk.rows, token);
    assert rows == RowsFrom(ss);
    forall i | 0 <= i < |ss|
      ensures MinuteOf(ss[i]) in rows && IsOhlc(rows[MinuteOf(ss[i])], ss[i])
    {
      SegmentHasRow(ss, i);
    }
    forall b | b in rows
      ensures exists i :: 0 <= i < |ss| && MinuteOf(ss[i]) == b
    {
      var i := RowHasSegment(ss, b);
    }
  }

  /**
   * And if the committed ticks of an instrument never go back by a minute, and only then, each stored row is exactly
   * its own 60000 milliseconds: ticks share a row exactly when they share a minute.
   */
  lemma StoredRowsAreMinutesIff(ps: seq<Pipe>, ds: seq<Delivery>, j: nat, token: string)
    requires IsFeed(ps, ds) && j < |ps|
    ensures var mine := TicksOf(CommittedBy(ds[..j]), token);
            AreMinuteRows(RowsOf(ps[j].disk.rows, token), mine) <==> NeverBack(mine)
  {
    hide Rising, Segments, RowsFrom, AreMinuteRows, NeverBack, StateOf;
    var mine := TicksOf(CommittedBy(ds[..j]), token);
    FeedTracks(ps, ds, j);
    assert TracksAt(ps[j], mine, token);
    NoTicksNoRows();
    var rows := RowsOf(ps[j].disk.rows, token);
    assert rows == RowsFrom(Segments(mine));
    RowsAreMinutesIff(mine);
  }

  lemma NoTicksNoRows()
    ensures RowsFrom(Segments([])) == map[]
  {
  }

  /** A watermark exists exactly where a candle exists, and the latest row is the candle in progress. */
  lemma LatestRowIsInProgress(ps: seq<Pipe>, ds: seq<Delivery>, j: nat, token: string)
    requires IsFeed(ps, ds) && j < |ps|
    ensures var p := ps[j];
            && (token in p.disk.marks <==> RowsOf(p.disk.rows, token) != map[])
            && (token in p.disk.marks <==> token in p.states)
            && (token in p.states ==>
                  && p.states[token].hasSeen && p.states[token].hasOpen
                  && p.states[token].lastSeq == p.disk.marks[token]
                  && IsLatest(RowsOf(p.disk.rows, token), p.states[token].current))
  {
    hide Rising, Segments, BarOf, RowsFrom, IsLatest;
    var mine := TicksOf(CommittedBy(ds[..j]), token);
    FeedTracks(ps, ds, j);
    assert TracksAt(ps[j], mine, token);
    if mine != [] {
      LastSegmentIsLatest(mine);
    }
  }

  /** In every reachable state the two duplicate checks give the same verdict on any tick. */
  lemma DuplicateVerdictsAgree(ps: seq<Pipe>, ds: seq<Delivery>, j: nat, t: Tick)
    requires IsFeed(ps, ds) && j < |ps|
    ensures ResultOf(ps[j].states, t).duplicate <==> Seen(ps[j].disk, t.token, t.seqNo)
  {
    hide Tracks, Rising, ResultOf, Seen;
    FeedTracks(ps, ds, j);
    VerdictsAgree(ps[j], CommittedBy(ds[..j]), t);
  }
}
