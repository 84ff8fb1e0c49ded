/**
 * The whole candle path: the numbered stream, connections that may start anywhere at or before the
 * first unprocessed event, and a process that may die at any tick
 * (tickgen/main.go:77-101, cmd/server/main.go:90-163).
 */
module Replay {
  import opened Candles
  import opened CandleStorage
  import opened Pipeline
  import TickGen

  /** A tick is an event with the time at which it was sent. */
  ghost predicate Carries(e: TickGen.Event, t: Tick) {
    t.seqNo == e.seqNo && t.token == e.token && t.ltp == e.ltp
  }

  /**
   * cursor is the index of the next event of the connection, if one is up; frontier is the first event
   * whose transaction has not run.
   */
  datatype Line = Line(up: bool, cursor: nat, frontier: nat)

  datatype World = World(pipe: Pipe, line: Line)

  datatype Hop = Connected(start: nat) | Received(d: Delivery)

  ghost predicate Hops(es: seq<TickGen.Event>, w: World, h: Hop, w': World) {
    match h
    case Connected(start) =>
      start <= w.line.frontier && w' == World(w.pipe, w.line.(up := true, cursor := start))
    case Received(d) =>
      && Delivers(w.pipe, d, w'.pipe)
      && if d.Rebooted? then w'.line == w.line.(up := false)
         else
           && w.line.up && w.line.cursor < |es| && Carries(es[w.line.cursor], d.t)
           && w'.line == Line(d.Processed?, w.line.cursor + 1,
                              if d.LostBeforeCommit? || w.line.cursor < w.line.frontier then w.line.frontier
                              else w.line.cursor + 1)
  }

  ghost predicate IsReplay(es: seq<TickGen.Event>, ws: seq<World>, hs: seq<Hop>) {
    && |ws| == |hs| + 1 && ws[0] == World(EMPTY, Line(false, 0, 0))
    && forall i | 0 <= i < |hs| :: Hops(es, ws[i], hs[i], ws[i + 1])
  }

  /** The ticks are the leading events of the stream, one for one and in order. */
  ghost predicate Follows(es: seq<TickGen.Event>, ticks: seq<Tick>) {
    |ticks| <= |es| && forall i | 0 <= i < |ticks| :: Carries(es[i], ticks[i])
  }

  /** A replayed event is never new; the next one always is. */
  lemma NewIffAtFrontier(es: seq<TickGen.Event>, ticks: seq<Tick>, k: nat, t: Tick)
    requires TickGen.Contiguous(es) && Follows(es, ticks) && k <= |ticks| && k < |es| && Carries(es[k], t)
    ensures IsNew(ticks, t) <==> k == |ticks|
  {
    if k == |ticks| {
      forall i | 0 <= i < |ticks| && ticks[i].token == t.token
        ensures ticks[i].seqNo < t.seqNo
      {
        TickGen.CountGrows(es, i, k);
      }
    } else {
      assert ticks[k].token == t.token;
    }
  }

  lemma HopKeepsUp(es: seq<TickGen.Event>, w: World, h: Hop, w': World, ticks: seq<Tick>) returns (ticks': seq<Tick>)
    requires TickGen.Contiguous(es) && Hops(es, w, h, w') && Sound(w.line, ticks) && Follows(es, ticks)
    requires Tracks(w.pipe, ticks) && Rising(ticks)
    ensures Sound(w'.line, ticks') && Follows(es, ticks') && Tracks(w'.pipe, ticks') && Rising(ticks')
  {
    hide TickGen.Contiguous, IsNew, Rising, Tracks, Delivers;
    ticks' := ticks;
    if h.Received? {
      ticks' := CommittedAfter(ticks, h.d);
      DeliveryTracks(w.pipe, ticks, h.d, w'.pipe);
      if !h.d.Rebooted? {
        NewIffAtFrontier(es, ticks, w.line.cursor, h.d.t);
      }
    }
  }

  ghost predicate Sound(l: Line, ticks: seq<Tick>) {
    l.frontier == |ticks| && (l.up ==> l.cursor <= l.frontier)
  }

  lemma {:induction false} ReplayKeepsUp(es: seq<TickGen.Event>, ws: seq<World>, hs: seq<Hop>, j: nat)
    returns (ticks: seq<Tick>)
    requires TickGen.Contiguous(es) && IsReplay(es, ws, hs) && j < |ws|
    ensures Sound(ws[j].line, ticks) && Follows(es, ticks) && Tracks(ws[j].pipe, ticks) && Rising(ticks)
  {
    if j == 0 {
      ticks := [];
      NothingTracked();
    } else {
      ticks := ReplayKeepsUp(es, ws, hs, j - 1);
      ticks := HopKeepsUp(es, ws[j - 1], hs[j - 1], ws[j], ticks);
    }
  }

  /**
   * Exactly once, in order: whatever the crashes and reconnections, memory and tables are those of a
   * process that never crashed and saw each event up to the frontier once.
   */
  lemma ReplayIsExactlyOnce(es: seq<TickGen.Event>, ws: seq<World>, hs: seq<Hop>, j: nat)
    returns (ticks: seq<Tick>)
    requires TickGen.Contiguous(es) && IsReplay(es, ws, hs) && j < |ws|
    ensures |ticks| == ws[j].line.frontier && Follows(es, ticks)
    ensures ws[j].pipe == FreshRun(ticks)
  {
    hide TickGen.Contiguous, IsReplay, Tracks, Rising, FreshRun;
    ticks := ReplayKeepsUp(es, ws, hs, j);
    FreshRunTracks(ticks);
    TracksDetermines(ws[j].pipe, FreshRun(ticks), ticks);
  }

  lemma {:induction false} OwnTicks(es: seq<TickGen.Event>, ticks: seq<Tick>, token: string)
    requires TickGen.Contiguous(es) && Follows(es, ticks)
    ensures var mine := TicksOf(ticks, token); var count := TickGen.CountToken(es[..|ticks|], token);
            |mine| == count && (mine != [] ==> mine[count - 1].seqNo == count)
  {
    if ticks != [] {
      var n := |ticks| - 1;
      OwnTicks(es, ticks[..n], token);
      assert es[..n + 1][..n] == es[..n];
    }
  }

  /** What the tables say of an instrument: its rows hold n ticks, and n is its watermark if not zero. */
  ghost predicate Holds(disk: CandleTables, token: string, n: nat) {
    && TotalCount(RowsOf(disk.rows, token)) == n
    && if n == 0 then token !in disk.marks else token in disk.marks && disk.marks[token] == n
  }

  lemma TrackedCount(p: Pipe, ticks: seq<Tick>, token: string)
    requires Tracks(p, ticks)
    ensures var mine := TicksOf(ticks, token);
            && TotalCount(RowsOf(p.disk.rows, token)) == |mine|
            && (token in p.disk.marks <==> mine != [])
            && (mine != [] ==> p.disk.marks[token] == mine[|mine| - 1].seqNo)
  {
    var mine := TicksOf(ticks, token);
    TracksEach(p, ticks, token);
    hide Segments, RowsFrom, TotalCount, StateOf, Candles.Proper, TicksOf, Tracks;
    SegmentsPartition(mine);
    CountsAddUp(Segments(mine));
    NoTicksNoSegments();
    NoRowsNoTicks();
  }

  /**
   * Conservation end to end: after any run of crashes and replays, the sum of tick_count over an
   * instrument's rows and its watermark both equal the number of its events up to the frontier.
   */
  lemma TicksAreConserved(es: seq<TickGen.Event>, ws: seq<World>, hs: seq<Hop>, j: nat, token: string)
    requires TickGen.Contiguous(es) && IsReplay(es, ws, hs) && j < |ws|
    ensures ws[j].line.frontier <= |es|
    ensures Holds(ws[j].pipe.disk, token, TickGen.CountToken(es[..ws[j].line.frontier], token))
  {
    hide TickGen.Contiguous, IsReplay, Tracks, Rising, TotalCount;
    var ticks := ReplayKeepsUp(es, ws, hs, j);
    TrackedCount(ws[j].pipe, ticks, token);
    OwnTicks(es, ticks, token);
  }

  // ---------- any feed at all ----------

  ghost predicate Climbing(mine: seq<Tick>) {
    forall i, k | 0 <= i < k < |mine| :: mine[i].seqNo < mine[k].seqNo
  }

  lemma {:induction false} OwnTicksRise(committed: seq<Tick>, token: string)
    requires Rising(committed)
    ensures Climbing(TicksOf(committed, token))
  {
    if committed != [] {
      var n := |committed| - 1;
      var t, past := committed[n], TicksOf(committed[..n], token);
      OwnTicksRise(committed[..n], token);
      NewMeansAboveLast(committed[..n], t);
      if t.token == token && past != [] {
        assert forall i | 0 <= i < |past| - 1 :: past[i].seqNo < past[|past| - 1].seqNo;
      }
    }
  }

  /** Strictly rising positive numbers reach at least their count, and exactly it when none is skipped. */
  lemma {:induction false} RisingNumbers(mine: seq<Tick>)
    requires Climbing(mine)
    requires mine != [] && Numbered(mine)
    ensures |mine| <= mine[|mine| - 1].seqNo
    ensures |mine| == mine[|mine| - 1].seqNo <==> forall i | 0 <= i < |mine| :: mine[i].seqNo == i + 1
  {
    var n := |mine| - 1;
    if n > 0 {
      var past := mine[..n];
      RisingNumbers(past);
      assert forall i | 0 <= i < n :: mine[i] == past[i];
      assert mine[n - 1].seqNo < mine[n].seqNo;
    }
  }

  ghost predicate Numbered(ticks: seq<Tick>) {
    forall i | 0 <= i < |ticks| :: ticks[i].seqNo >= 1
  }

  lemma {:induction false} CommittedAreNumbered(ds: seq<Delivery>)
    requires forall i | 0 <= i < |ds| && !ds[i].Rebooted? :: ds[i].t.seqNo >= 1
    ensures Numbered(CommittedBy(ds))
  {
    hide IsNew;
    if ds != [] {
      CommittedAreNumbered(ds[..|ds| - 1]);
    }
  }

  lemma {:induction false} OwnAreNumbered(ticks: seq<Tick>, token: string)
    requires Numbered(ticks)
    ensures Numbered(TicksOf(ticks, token))
  {
    if ticks != [] {
      OwnAreNumbered(ticks[..|ticks| - 1], token);
    }
  }

  /**
   * With no promise about where connections start: the rows never hold more ticks than the watermark,
   * and they hold exactly as many if and only if no number of the instrument was skipped.
   */
  lemma WatermarkCountsTicksIffNoGap(ps: seq<Pipe>, ds: seq<Delivery>, j: nat, token: string)
    requires IsFeed(ps, ds) && j < |ps| && token in ps[j].disk.marks
    requires forall i | 0 <= i < |ds| && !ds[i].Rebooted? :: ds[i].t.seqNo >= 1
    ensures var mine := TicksOf(CommittedBy(ds[..j]), token);
            var count := TotalCount(RowsOf(ps[j].disk.rows, token));
            && count <= ps[j].disk.marks[token]
            && (count == ps[j].disk.marks[token] <==> forall i | 0 <= i < |mine| :: mine[i].seqNo == i + 1)
  {
    hide Tracks, TotalCount, TicksOf, Rising, CommittedBy, Climbing;
    var committed := CommittedBy(ds[..j]);
    FeedTracks(ps, ds, j);
    TrackedCount(ps[j], committed, token);
    CommittedAreNumbered(ds[..j]);
    OwnAreNumbered(committed, token);
    OwnTicksRise(committed, token);
    RisingNumbers(TicksOf(committed, token));
  }
}
