/**
 * One-minute candles in memory (internal/candle/candle.go, internal/candle/aggregator.go).
 * Times are milliseconds since the Unix epoch.
 */
module Candles {
  import opened Wrappers

  datatype Tick = Tick(seqNo: int, token: string, ltp: real, ts: int)

  datatype Candle = Candle(
    token: string, bucket: int, open: real, high: real, low: real, close: real, tickCount: int)

  const MINUTE := 60000

  const NO_CANDLE := Candle("", 0, 0.0, 0.0, 0.0, 0.0, 0)

  /** Start of the minute: truncation rounds down, also before the epoch. */
  function BucketFor(ts: int): (b: int)
    ensures b <= ts < b + 60000 && b % 60000 == 0
  {
    ts / MINUTE * MINUTE
  }

  datatype InstrumentState = InstrumentState(lastSeq: int, hasSeen: bool, current: Candle, hasOpen: bool)

  const UNSEEN := InstrumentState(0, false, NO_CANDLE, false)

  datatype ApplyResult = ApplyResult(duplicate: bool, current: Candle, closed: Option<Candle>)

  function Max(x: real, y: real): real { if x < y then y else x }

  function Min(x: real, y: real): real { if y < x then y else x }

  /** A candle of one tick. */
  function OpenBar(t: Tick): Candle {
    Candle(t.token, BucketFor(t.ts), t.ltp, t.ltp, t.ltp, t.ltp, 1)
  }

  /** One more tick in the same candle. */
  function Extend(c: Candle, t: Tick): Candle {
    c.(high := Max(c.high, t.ltp), low := Min(c.low, t.ltp), close := t.ltp, tickCount := c.tickCount + 1)
  }

  function StateAt(states: map<string, InstrumentState>, token: string): InstrumentState {
    if token in states then states[token] else UNSEEN
  }

  function IsDuplicate(st: InstrumentState, t: Tick): bool {
    st.hasSeen && t.seqNo <= st.lastSeq
  }

  /** The state of t's instrument after t, if t is new. */
  function Advance(st: InstrumentState, t: Tick): InstrumentState {
    InstrumentState(t.seqNo, true,
                    if st.hasOpen && BucketFor(t.ts) <= st.current.bucket then Extend(st.current, t) else OpenBar(t),
                    true)
  }

  /** The candle that t closes, if any. */
  function Closes(st: InstrumentState, t: Tick): Option<Candle> {
    if st.hasOpen && BucketFor(t.ts) > st.current.bucket then Some(st.current) else None
  }

  function Applied(states: map<string, InstrumentState>, t: Tick): map<string, InstrumentState> {
    var st := StateAt(states, t.token);
    if IsDuplicate(st, t) then states[t.token := st] else states[t.token := Advance(st, t)]
  }

  function ResultOf(states: map<string, InstrumentState>, t: Tick): ApplyResult {
    var st := StateAt(states, t.token);
    if IsDuplicate(st, t) then ApplyResult(true, NO_CANDLE, None)
    else ApplyResult(false, Advance(st, t).current, Closes(st, t))
  }

  /**
   * A tick, in terms of the clock: it is a duplicate if its seq is not above the last one seen.  Otherwise, if its
   * minute is later than that of the candle in progress, it closes that candle and opens one of its own; else it
   * counts in the candle in progress.
   */
  lemma TickIsApplied(states: map<string, InstrumentState>, t: Tick)
    ensures var was, now, r := StateAt(states, t.token), StateAt(Applied(states, t), t.token), ResultOf(states, t);
            && (r.duplicate <==> was.hasSeen && t.seqNo <= was.lastSeq)
            && (r.duplicate ==> now == was && r.closed == None)
            && (!r.duplicate ==>
                  && now.hasSeen && now.hasOpen && now.lastSeq == t.seqNo && r.current == now.current
                  && var later := was.hasOpen && t.ts - t.ts % 60000 > was.current.bucket;
                     && r.closed == (if later then Some(was.current) else None)
                     && now.current == if !was.hasOpen || later
                          then Candle(t.token, t.ts - t.ts % 60000, t.ltp, t.ltp, t.ltp, t.ltp, 1)
                          else was.current.(high := if was.current.high < t.ltp then t.ltp else was.current.high,
                                            low := if t.ltp < was.current.low then t.ltp else was.current.low,
                                            close := t.ltp, tickCount := was.current.tickCount + 1))
    ensures forall token | token != t.token :: StateAt(Applied(states, t), token) == StateAt(states, token)
  {
    assert BucketFor(t.ts) == t.ts - t.ts % 60000 by {
      BucketIsMinute(t.ts, t.ts - t.ts % 60000);
    }
    hide BucketFor;
  }

  class Aggregator {
    var states: map<string, InstrumentState>

    constructor ()
      ensures states == map[]
    {
      states := map[];
    }

    /** A tick already seen for its instrument changes nothing. */
    method Apply(t: Tick) returns (r: ApplyResult)
      modifies this
      ensures states == Applied(old(states), t) && r == ResultOf(old(states), t)
    {
      var st := UNSEEN;
      if t.token in states {
        st := states[t.token];
      } else {
        states := states[t.token := st];
      }
      if st.hasSeen && t.seqNo <= st.lastSeq {
        return ApplyResult(true, NO_CANDLE, None);
      }
      st := st.(lastSeq := t.seqNo, hasSeen := true);

      var bucket := BucketFor(t.ts);
      var closed := None;
      if !st.hasOpen {
        st := st.(current := Candle(t.token, bucket, t.ltp, t.ltp, t.ltp, t.ltp, 1), hasOpen := true);
      } else if bucket > st.current.bucket {
        closed := Some(st.current);
        st := st.(current := Candle(t.token, bucket, t.ltp, t.ltp, t.ltp, t.ltp, 1));
      } else {
        var c := st.current;
        c := c.(high := Max(c.high, t.ltp), low := Min(c.low, t.ltp), close := t.ltp, tickCount := c.tickCount + 1);
        st := st.(current := c);
      }
      states := states[t.token := st];
      r := ApplyResult(false, st.current, closed);
    }

    /** The in-progress candle of an instrument. */
    method Snapshot(token: string) returns (c: Option<Candle>)
      ensures c == if StateAt(states, token).hasOpen then Some(StateAt(states, token).current) else None
    {
      if token !in states || !states[token].hasOpen {
        return None;
      }
      c := Some(states[token].current);
    }

    /** Resumes an instrument from its watermark and its latest stored candle. */
    method Seed(token: string, lastSeq: int, current: Option<Candle>)
      modifies this
      ensures states == old(states)[token := Seeded(lastSeq, current)]
    {
      var st := InstrumentState(lastSeq, true, NO_CANDLE, false);
      if current.Some? {
        st := st.(current := current.value, hasOpen := true);
      }
      states := states[token := st];
    }
  }

  function Seeded(lastSeq: int, current: Option<Candle>): InstrumentState {
    match current
    case None => InstrumentState(lastSeq, true, NO_CANDLE, false)
    case Some(c) => InstrumentState(lastSeq, true, c, true)
  }

  // ---------- the reference: segments of a tick sequence ----------

  /** Consecutive ticks of one instrument that share a candle. */
  type Segment = s: seq<Tick> | |s| > 0 witness [Tick(0, "", 0.0, 0)]

  /** The minute of a segment is that of its first tick. */
  function MinuteOf(seg: Segment): int {
    BucketFor(seg[0].ts)
  }

  /** The candle of a segment, tick by tick. */
  function BarOf(seg: Segment): Candle {
    if |seg| == 1 then OpenBar(seg[0]) else Extend(BarOf(seg[..|seg| - 1]), seg[|seg| - 1])
  }

  /** c is exactly first, greatest, least, last and number of the prices of the segment. */
  ghost predicate IsOhlc(c: Candle, seg: Segment) {
    && c.token == seg[0].token && c.bucket == MinuteOf(seg)
    && c.open == seg[0].ltp && c.close == seg[|seg| - 1].ltp && c.tickCount == |seg|
    && (forall i | 0 <= i < |seg| :: c.low <= seg[i].ltp <= c.high)
    && (exists i :: 0 <= i < |seg| && seg[i].ltp == c.high)
    && (exists i :: 0 <= i < |seg| && seg[i].ltp == c.low)
  }

  lemma {:induction false} BarIsOhlc(seg: Segment)
    ensures IsOhlc(BarOf(seg), seg)
  {
    if |seg| == 1 {
      assert seg[0].ltp == BarOf(seg).high == BarOf(seg).low;
    } else {
      var n := |seg| - 1;
      var past := seg[..n];
      BarIsOhlc(past);
      var hi :| 0 <= hi < |past| && past[hi].ltp == BarOf(past).high;
      var lo :| 0 <= lo < |past| && past[lo].ltp == BarOf(past).low;
      assert seg[hi] == past[hi] && seg[lo] == past[lo];
      assert seg[n].ltp == BarOf(seg).high || seg[hi].ltp == BarOf(seg).high;
      assert seg[n].ltp == BarOf(seg).low || seg[lo].ltp == BarOf(seg).low;
      forall i | 0 <= i < |seg|
        ensures BarOf(seg).low <= seg[i].ltp <= BarOf(seg).high
      {
        if i < n { assert seg[i] == past[i]; }
      }
    }
  }

  /** Cut where a tick falls in a later minute than the first tick of the running segment. */
  function Segments(ts: seq<Tick>): (ss: seq<Segment>)
    ensures ts != [] ==> ss != []
  {
    if ts == [] then []
    else
      var ss, t := Segments(ts[..|ts| - 1]), ts[|ts| - 1];
      if ss == [] || BucketFor(t.ts) > MinuteOf(ss[|ss| - 1]) then ss + [[t]]
      else ss[..|ss| - 1] + [ss[|ss| - 1] + [t]]
  }

  function Flatten(ss: seq<Segment>): seq<Tick> {
    if ss == [] then [] else Flatten(ss[..|ss| - 1]) + ss[|ss| - 1]
  }

  /** Consecutive segments with strictly increasing minutes, each holding the ticks of its minute or earlier. */
  ghost predicate Proper(ss: seq<Segment>) {
    && (forall i, j | 0 <= i < j < |ss| :: MinuteOf(ss[i]) < MinuteOf(ss[j]))
    && (forall i, k | 0 <= i < |ss| && 0 <= k < |ss[i]| :: BucketFor(ss[i][k].ts) <= MinuteOf(ss[i]))
  }

  lemma GrowSegments(ts: seq<Tick>, t: Tick)
    ensures var ss := Segments(ts);
            Segments(ts + [t]) ==
            if ss == [] || BucketFor(t.ts) > MinuteOf(ss[|ss| - 1]) then ss + [[t]]
            else ss[..|ss| - 1] + [ss[|ss| - 1] + [t]]
  {
    hide BucketFor;
    assert (ts + [t])[..|ts|] == ts;
  }

  lemma FlattenLast(ss: seq<Segment>, last: Segment)
    ensures Flatten(ss + [last]) == Flatten(ss) + last
  {
    assert (ss + [last])[..|ss|] == ss;
  }

  lemma ProperGrows(ss: seq<Segment>, t: Tick)
    requires Proper(ss)
    requires ss != [] ==> BucketFor(t.ts) > MinuteOf(ss[|ss| - 1])
    ensures Proper(ss + [[t]])
  {
  }

  lemma ProperExtends(ss: seq<Segment>, t: Tick)
    requires Proper(ss) && ss != [] && BucketFor(t.ts) <= MinuteOf(ss[|ss| - 1])
    ensures Proper(ss[..|ss| - 1] + [ss[|ss| - 1] + [t]])
  {
  }

  /** The segments are a partition of the ticks into proper pieces. */
  lemma {:induction false} SegmentsPartition(ts: seq<Tick>)
    ensures Proper(Segments(ts)) && Flatten(Segments(ts)) == ts
  {
    hide BucketFor, Flatten, Proper, Segments;
    if ts == [] {
      NoTicksNoSegments();
    } else {
      var n := |ts| - 1;
      var past, t := ts[..n], ts[n];
      assert ts == past + [t];
      SegmentsPartition(past);
      GrowSegments(past, t);
      var ss: seq<Segment> := Segments(past);
      if ss == [] || BucketFor(t.ts) > MinuteOf(ss[|ss| - 1]) {
        ProperGrows(ss, t);
        FlattenLast(ss, [t]);
      } else {
        var m := |ss| - 1;
        ProperExtends(ss, t);
        FlattenLast(ss[..m], ss[m] + [t]);
        FlattenLast(ss[..m], ss[m]);
        assert ss == ss[..m] + [ss[m]];
      }
    }
  }

  lemma NoTicksNoSegments()
    ensures Segments([]) == [] && Proper([]) && Flatten([]) == []
  {
  }

  /** The rows that the segments stand for, keyed by minute. */
  function RowsFrom(ss: seq<Segment>): map<int, Candle>
  {
    if ss == [] then map[]
    else
      var last := ss[|ss| - 1];
      RowsFrom(ss[..|ss| - 1])[MinuteOf(last) := BarOf(last)]
  }

  /** Every row belongs to a segment. */
  lemma {:induction false} RowHasSegment(ss: seq<Segment>, b: int) returns (i: nat)
    requires b in RowsFrom(ss)
    ensures i < |ss| && MinuteOf(ss[i]) == b
  {
    hide BucketFor, BarOf;
    var n := |ss| - 1;
    if b == MinuteOf(ss[n]) {
      i := n;
    } else {
      i := RowHasSegment(ss[..n], b);
    }
  }

  /** Every segment has its row, and the row is the OHLC of the segment. */
  lemma {:induction false} SegmentHasRow(ss: seq<Segment>, i: nat)
    requires Proper(ss) && i < |ss|
    ensures MinuteOf(ss[i]) in RowsFrom(ss) && RowsFrom(ss)[MinuteOf(ss[i])] == BarOf(ss[i])
    ensures IsOhlc(RowsFrom(ss)[MinuteOf(ss[i])], ss[i])
  {
    hide BucketFor, BarOf, IsOhlc, MinuteOf;
    BarIsOhlc(ss[i]);
    var n := |ss| - 1;
    if i < n {
      var past := ss[..n];
      assert forall j | 0 <= j < n :: past[j] == ss[j];
      SegmentHasRow(past, i);
      assert MinuteOf(ss[i]) < MinuteOf(ss[n]);
    }
  }

  ghost predicate AllBefore(rows: map<int, Candle>, minute: int) {
    forall b | b in rows :: b < minute
  }

  /** The rows before the last segment are of earlier minutes. */
  lemma EarlierRows(ss: seq<Segment>)
    requires Proper(ss) && ss != []
    ensures AllBefore(RowsFrom(ss[..|ss| - 1]), MinuteOf(ss[|ss| - 1]))
  {
    hide MinuteOf, RowsFrom;
    var past := ss[..|ss| - 1];
    var rows := RowsFrom(past);
    forall b | b in rows
      ensures b < MinuteOf(ss[|ss| - 1])
    {
      var i := RowHasSegment(past, b);
      assert past[i] == ss[i];
    }
  }

  // ---------- rows and the clock ----------

  /** The ticks of the 60000 milliseconds that start at b, in order. */
  function InMinute(ts: seq<Tick>, b: int): seq<Tick> {
    if ts == [] then []
    else
      var past, t := InMinute(ts[..|ts| - 1], b), ts[|ts| - 1];
      if b <= t.ts < b + 60000 then past + [t] else past
  }

  /** A row for each minute in which something traded, and its row is the exact OHLC of the ticks of that minute. */
  ghost predicate IsMinuteRow(rows: map<int, Candle>, ts: seq<Tick>, b: int) {
    var own := InMinute(ts, b);
    if b % 60000 == 0 && own != [] then b in rows && IsOhlc(rows[b], own) else b !in rows
  }

  ghost predicate AreMinuteRows(rows: map<int, Candle>, ts: seq<Tick>) {
    forall b :: IsMinuteRow(rows, ts, b)
  }

  /** No tick falls in an earlier minute than one before it. */
  ghost predicate NeverBack(ts: seq<Tick>) {
    forall i, k | 0 <= i < k < |ts| :: ts[i].ts / 60000 <= ts[k].ts / 60000
  }

  /** Every tick of the segment falls in its minute. */
  ghost predicate Pure(seg: Segment) {
    forall k | 0 <= k < |seg| :: BucketFor(seg[k].ts) == MinuteOf(seg)
  }

  ghost predicate AllPure(ss: seq<Segment>) {
    forall i | 0 <= i < |ss| :: Pure(ss[i])
  }

  lemma BucketIsMinute(ts: int, b: int)
    requires b % 60000 == 0
    ensures BucketFor(ts) == b <==> b <= ts < b + 60000
    ensures BucketFor(ts) == ts / 60000 * 60000
  {
  }

  lemma MinuteGrows(x: seq<Tick>, t: Tick, b: int)
    ensures InMinute(x + [t], b) == if b <= t.ts < b + 60000 then InMinute(x, b) + [t] else InMinute(x, b)
  {
    assert (x + [t])[..|x|] == x;
  }

  lemma {:induction false} InMinuteSplits(x: seq<Tick>, y: seq<Tick>, b: int)
    ensures InMinute(x + y, b) == InMinute(x, b) + InMinute(y, b)
  {
    if y == [] {
      assert x + y == x;
    } else {
      hide InMinute;
      var n := |y| - 1;
      var past, t := y[..n], y[n];
      InMinuteSplits(x, past, b);
      MinuteGrows(x + past, t, b);
      MinuteGrows(past, t, b);
      assert y == past + [t] && x + y == x + past + [t];
    }
  }

  /** At most all of the ticks fall in one minute, and all of them only if each does. */
  lemma {:induction false} InMinuteCount(ts: seq<Tick>, b: int)
    ensures |InMinute(ts, b)| <= |ts|
    ensures |InMinute(ts, b)| == |ts| <==> forall k | 0 <= k < |ts| :: b <= ts[k].ts < b + 60000
    ensures |InMinute(ts, b)| == |ts| ==> InMinute(ts, b) == ts
    ensures InMinute(ts, b) == [] <==> forall k | 0 <= k < |ts| :: !(b <= ts[k].ts < b + 60000)
  {
    if ts != [] {
      var n := |ts| - 1;
      InMinuteCount(ts[..n], b);
      assert forall k | 0 <= k < n :: ts[..n][k] == ts[k];
    }
  }

  /** While time does not go back by a minute, every segment stays pure. */
  lemma {:induction false} ForwardIsPure(ts: seq<Tick>)
    requires NeverBack(ts)
    ensures AllPure(Segments(ts))
    ensures ts != [] ==> BucketFor(ts[|ts| - 1].ts) == MinuteOf(Segments(ts)[|Segments(ts)| - 1])
  {
    hide BucketFor, Segments;
    if ts == [] {
      NoTicksNoSegments();
    } else {
      var n := |ts| - 1;
      var past, t := ts[..n], ts[n];
      assert ts == past + [t];
      ForwardIsPure(past);
      GrowSegments(past, t);
      if n == 0 {
        NoTicksNoSegments();
      } else {
        BucketIsMinute(t.ts, 0);
        BucketIsMinute(ts[n - 1].ts, 0);
        assert BucketFor(ts[n - 1].ts) <= BucketFor(t.ts);
      }
    }
  }

  /** The ticks of a minute are the segment of that minute, or there are none. */
  lemma {:induction false} PureSegmentsAreMinutes(ss: seq<Segment>, b: int)
    requires Proper(ss) && AllPure(ss) && b % 60000 == 0
    ensures forall i | 0 <= i < |ss| && MinuteOf(ss[i]) == b :: InMinute(Flatten(ss), b) == ss[i]
    ensures (forall i | 0 <= i < |ss| :: MinuteOf(ss[i]) != b) ==> InMinute(Flatten(ss), b) == []
  {
    hide BucketFor, MinuteOf;
    if ss != [] {
      var n := |ss| - 1;
      var past, last := ss[..n], ss[n];
      assert forall i | 0 <= i < n :: past[i] == ss[i];
      PureSegmentsAreMinutes(past, b);
      InMinuteSplits(Flatten(past), last, b);
      InMinuteCount(last, b);
      forall k | 0 <= k < |last|
        ensures b <= last[k].ts < b + 60000 <==> MinuteOf(last) == b
      {
        BucketIsMinute(last[k].ts, b);
      }
      assert MinuteOf(last) == b ==> forall i | 0 <= i < n :: MinuteOf(past[i]) != b;
    }
  }

  /** If each segment has as many ticks as its minute, no tick strayed into a segment of another minute. */
  lemma {:induction false} FullSegmentsArePure(ss: seq<Segment>)
    requires Proper(ss)
    requires forall i | 0 <= i < |ss| :: |InMinute(Flatten(ss), MinuteOf(ss[i]))| == |ss[i]|
    ensures AllPure(ss)
  {
    hide BucketFor, Flatten;
    if ss != [] {
      var n := |ss| - 1;
      var past, last := ss[..n], ss[n];
      var m := MinuteOf(last);
      assert forall i | 0 <= i < n :: past[i] == ss[i];
      assert ss == past + [last];
      FlattenLast(past, last);
      NothingLater(past, m);
      InMinuteSplits(Flatten(past), last, m);
      InMinuteCount(last, m);
      forall k | 0 <= k < |last|
        ensures BucketFor(last[k].ts) == m
      {
        BucketIsMinute(last[k].ts, m);
      }
      forall i | 0 <= i < n
        ensures |InMinute(Flatten(past), MinuteOf(past[i]))| == |past[i]|
      {
        var b := MinuteOf(past[i]);
        InMinuteSplits(Flatten(past), last, b);
        InMinuteCount(last, b);
        forall k | 0 <= k < |last|
          ensures !(b <= last[k].ts < b + 60000)
        {
          BucketIsMinute(last[k].ts, b);
        }
      }
      FullSegmentsArePure(past);
    }
  }

  /** Segments of earlier minutes hold no tick of this one. */
  lemma {:induction false} NothingLater(ss: seq<Segment>, b: int)
    requires Proper(ss) && b % 60000 == 0 && forall i | 0 <= i < |ss| :: MinuteOf(ss[i]) < b
    ensures InMinute(Flatten(ss), b) == []
  {
    hide BucketFor, MinuteOf;
    if ss != [] {
      var n := |ss| - 1;
      var past, last := ss[..n], ss[n];
      assert forall i | 0 <= i < n :: past[i] == ss[i];
      NothingLater(past, b);
      InMinuteSplits(Flatten(past), last, b);
      InMinuteCount(last, b);
      forall k | 0 <= k < |last|
        ensures !(b <= last[k].ts < b + 60000)
      {
        BucketIsMinute(last[k].ts, b);
      }
    }
  }

  /** Pure segments follow the clock. */
  lemma {:induction false} PureIsForward(ss: seq<Segment>)
    requires Proper(ss) && AllPure(ss)
    ensures NeverBack(Flatten(ss))
    ensures ss != [] ==> forall k | 0 <= k < |Flatten(ss)| :: BucketFor(Flatten(ss)[k].ts) <= MinuteOf(ss[|ss| - 1])
  {
    hide BucketFor, MinuteOf;
    if ss != [] {
      var n := |ss| - 1;
      var past, last := ss[..n], ss[n];
      assert forall i | 0 <= i < n :: past[i] == ss[i];
      PureIsForward(past);
      var before, all := Flatten(past), Flatten(ss);
      assert all == before + last;
      forall i, k | 0 <= i < k < |all|
        ensures all[i].ts / 60000 <= all[k].ts / 60000
      {
        BucketIsMinute(all[i].ts, 0);
        BucketIsMinute(all[k].ts, 0);
        if k < |before| {
          assert all[i] == before[i] && all[k] == before[k];
        } else {
          assert all[k] == last[k - |before|];
          assert i < |before| ==> all[i] == before[i];
          assert i >= |before| ==> all[i] == last[i - |before|];
        }
      }
    }
  }

  lemma ForwardRows(ts: seq<Tick>)
    requires NeverBack(ts)
    ensures AreMinuteRows(RowsFrom(Segments(ts)), ts)
  {
    hide *;
    SegmentsPartition(ts);
    ForwardIsPure(ts);
    PureRows(Segments(ts), ts);
  }

  lemma PureRows(ss: seq<Segment>, ts: seq<Tick>)
    requires Proper(ss) && AllPure(ss) && Flatten(ss) == ts
    ensures AreMinuteRows(RowsFrom(ss), ts)
  {
    hide Proper, AllPure, Flatten, RowsFrom, IsMinuteRow;
    forall b
      ensures IsMinuteRow(RowsFrom(ss), ts, b)
    {
      PureRow(ss, ts, b);
    }
  }

  lemma MinuteRowsMeanForward(ts: seq<Tick>)
    requires AreMinuteRows(RowsFrom(Segments(ts)), ts)
    ensures NeverBack(ts)
  {
    hide BucketFor, BarOf, Segments, Flatten, NeverBack, IsOhlc, IsMinuteRow, Proper, AllPure;
    var ss: seq<Segment> := Segments(ts);
    SegmentsPartition(ts);
    forall i | 0 <= i < |ss|
      ensures |InMinute(Flatten(ss), MinuteOf(ss[i]))| == |ss[i]|
    {
      SegmentHasRow(ss, i);
      assert IsMinuteRow(RowsFrom(ss), ts, MinuteOf(ss[i]));
      RowCounts(RowsFrom(ss), ts, ss[i]);
    }
    FullSegmentsArePure(ss);
    PureIsForward(ss);
  }

  /**
   * Each row is exactly its own 60000 milliseconds of trading, and each such minute has its row, if and only if no tick
   * falls in an earlier minute than one before it.
   */
  lemma RowsAreMinutesIff(ts: seq<Tick>)
    ensures AreMinuteRows(RowsFrom(Segments(ts)), ts) <==> NeverBack(ts)
  {
    hide *;
    if NeverBack(ts) {
      ForwardRows(ts);
    }
    if AreMinuteRows(RowsFrom(Segments(ts)), ts) {
      MinuteRowsMeanForward(ts);
    }
  }

  lemma PureRow(ss: seq<Segment>, ts: seq<Tick>, b: int)
    requires Proper(ss) && AllPure(ss) && Flatten(ss) == ts
    ensures IsMinuteRow(RowsFrom(ss), ts, b)
  {
    hide BarOf, Flatten, IsOhlc, Proper, AllPure, RowsFrom;
    if b in RowsFrom(ss) {
      var i := RowHasSegment(ss, b);
      PureSegmentsAreMinutes(ss, b);
      SegmentHasRow(ss, i);
    } else if b % 60000 == 0 {
      forall i | 0 <= i < |ss|
        ensures MinuteOf(ss[i]) != b
      {
        SegmentHasRow(ss, i);
      }
      PureSegmentsAreMinutes(ss, b);
    }
  }

  lemma RowCounts(rows: map<int, Candle>, ts: seq<Tick>, seg: Segment)
    requires var b := MinuteOf(seg); b in rows && IsMinuteRow(rows, ts, b) && IsOhlc(rows[b], seg)
    ensures |InMinute(ts, MinuteOf(seg))| == |seg|
  {
  }

  // ---------- conservation ----------

  ghost function PickKey<T>(keys: set<T>): (b: T)
    requires keys != {}
    ensures b in keys
  {
    var b :| b in keys; b
  }

  ghost function PickRow(rows: map<int, Candle>): (b: int)
    requires rows != map[]
    ensures b in rows
  {
    assert rows.Keys != {};
    PickKey(rows.Keys)
  }

  /** The sum of tick_count over some rows. */
  ghost function TotalCount(rows: map<int, Candle>): int {
    if rows == map[] then 0
    else rows[PickRow(rows)].tickCount + TotalCount(rows - {PickRow(rows)})
  }

  lemma {:induction false} TotalCountSplit(rows: map<int, Candle>, b: int)
    requires b in rows
    ensures TotalCount(rows) == rows[b].tickCount + TotalCount(rows - {b})
    decreases |rows|
  {
    var p := PickRow(rows);
    if p != b {
      TotalCountSplit(rows - {p}, b);
      TotalCountSplit(rows - {b}, p);
      assert rows - {p} - {b} == rows - {b} - {p};
    }
  }

  /** No tick is lost or counted twice. */
  lemma {:induction false} CountsAddUp(ss: seq<Segment>)
    requires Proper(ss)
    ensures TotalCount(RowsFrom(ss)) == |Flatten(ss)|
  {
    hide BucketFor, BarOf, TotalCount;
    if ss == [] {
      NoRowsNoTicks();
    } else {
      var n := |ss| - 1;
      var past, last := ss[..n], ss[n];
      assert forall i | 0 <= i < n :: past[i] == ss[i];
      CountsAddUp(past);
      var b := MinuteOf(last);
      EarlierRows(ss);
      BarIsOhlc(last);
      TotalCountSplit(RowsFrom(ss), b);
      assert RowsFrom(ss) - {b} == RowsFrom(past);
    }
  }

  lemma NoRowsNoTicks()
    ensures TotalCount(map[]) == 0
  {
  }

  /** The row of the latest minute. */
  ghost predicate IsLatest(rows: map<int, Candle>, c: Candle) {
    c.bucket in rows && rows[c.bucket] == c && forall b | b in rows :: b <= c.bucket
  }

  /** The row with the largest minute is the candle of the last segment. */
  lemma LastSegmentIsLatest(ts: seq<Tick>)
    requires ts != []
    ensures var ss := Segments(ts);
            RowsFrom(ss) != map[] && forall c :: IsLatest(RowsFrom(ss), c) <==> c == BarOf(ss[|ss| - 1])
  {
    hide BarOf, MinuteOf, Segments;
    var ss := Segments(ts);
    SegmentsPartition(ts);
    EarlierRows(ss);
    BarMinute(ss[|ss| - 1]);
    assert MinuteOf(ss[|ss| - 1]) in RowsFrom(ss);
  }

  lemma BarMinute(seg: Segment)
    ensures BarOf(seg).bucket == MinuteOf(seg)
  {
    BarIsOhlc(seg);
  }
}
