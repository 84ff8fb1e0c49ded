/** The deterministic tick stream (tickgen/main.go:35-101). Random draws and the wall clock are parameters. */
module TickGen {
  /** The content of one tick, without its timestamp. */
  datatype Event = Event(seqNo: int, token: string, ltp: real)

  /** One turn of the random generator: an instrument and a price move. */
  datatype Draw = Draw(index: nat, move: real)

  const TICK_SIZE := 0.05

  /** Half away from zero. */
  function Round(x: real): (n: int)
    ensures x - 0.5 <= n as real <= x + 0.5
  {
    if x >= 0.0 then (x + 0.5).Floor else -((-x + 0.5).Floor)
  }

  /** Round leaves whole numbers alone. */
  lemma RoundWhole(k: int)
    ensures Round(k as real) == k
  {
  }

  function RoundTick(p: real): real {
    var whole := Round(p / TICK_SIZE) as real * TICK_SIZE;
    var atLeast := if whole < TICK_SIZE then TICK_SIZE else whole;
    Round(atLeast * 100.0) as real / 100.0
  }

  /** A positive multiple of 0.05: the nearest one to p, the upper one of two, but never below the smallest. */
  lemma RoundTickIsNearest(p: real) returns (k: int)
    ensures k >= 1 && RoundTick(p) == (5 * k) as real / 100.0
    ensures if p < 0.025 then k == 1 else -0.025 < RoundTick(p) - p <= 0.025
  {
    var n := Round(p / TICK_SIZE);
    k := if n < 1 then 1 else n;
    assert k as real * TICK_SIZE * 100.0 == (5 * k) as real;
    RoundWhole(5 * k);
  }

  /** How many of the draws fell on an instrument. */
  function CountOf(draws: seq<Draw>, i: nat): nat {
    if draws == [] then 0
    else CountOf(draws[..|draws| - 1], i) + if draws[|draws| - 1].index == i then 1 else 0
  }

  /** An instrument's price after its random walk. */
  function PriceOf(draws: seq<Draw>, start: real, i: nat): real {
    if draws == [] then start
    else
      var before, d := PriceOf(draws[..|draws| - 1], start, i), draws[|draws| - 1];
      if d.index == i then RoundTick(before + d.move) else before
  }

  datatype Board = Board(tokens: seq<string>, start: seq<real>)

  ghost predicate Distinct(tokens: seq<string>) {
    forall i, j | 0 <= i < j < |tokens| :: tokens[i] != tokens[j]
  }

  /** The instruments are distinct, each has a starting price, and every draw picks one of them. */
  ghost predicate On(board: Board, draws: seq<Draw>) {
    && |board.tokens| == |board.start| && Distinct(board.tokens)
    && forall g | 0 <= g < |draws| :: draws[g].index < |board.tokens|
  }

  /** The event of the last draw. */
  function LastEvent(board: Board, draws: seq<Draw>): Event
    requires On(board, draws) && draws != []
  {
    var i := draws[|draws| - 1].index;
    Event(CountOf(draws, i), board.tokens[i], PriceOf(draws, board.start[i], i))
  }

  /** The whole stream, from global index 0. */
  function EventsOf(board: Board, draws: seq<Draw>): (es: seq<Event>)
    requires On(board, draws)
    ensures |es| == |draws|
  {
    if draws == [] then [] else EventsOf(board, draws[..|draws| - 1]) + [LastEvent(board, draws)]
  }

  lemma Turn(board: Board, draws: seq<Draw>)
    requires On(board, draws) && draws != []
    ensures var past, d := draws[..|draws| - 1], draws[|draws| - 1];
            && On(board, past)
            && EventsOf(board, draws) == EventsOf(board, past) + [LastEvent(board, draws)]
            && forall i | 0 <= i < |board.tokens| ::
                 && CountOf(draws, i) == (if d.index == i then CountOf(past, i) + 1 else CountOf(past, i))
                 && var was := PriceOf(past, board.start[i], i);
                    PriceOf(draws, board.start[i], i) == (if d.index == i then RoundTick(was + d.move) else was)
  {
    hide RoundTick;
  }

  /** The part of a stream from a global index on. */
  function From(es: seq<Event>, start: int): seq<Event> {
    if start < 0 then es else if start < |es| then es[start..] else []
  }

  /** Dropping the events before start: position k of the suffix is position start + k of the stream. */
  lemma FromIsSuffix(es: seq<Event>, start: int)
    ensures var out, first := From(es, start), if start < 0 then 0 else start;
            && |out| == (if first < |es| then |es| - first else 0)
            && forall k | 0 <= k < |out| :: out[k] == es[first + k]
  {
  }

  lemma FromGrows(es: seq<Event>, e: Event, start: int)
    ensures From(es + [e], start) == if |es| >= start then From(es, start) + [e] else From(es, start)
  {
  }

  /** The counters and prices kept while streaming. */
  ghost predicate Tallies(board: Board, draws: seq<Draw>, seqs: seq<int>, prices: seq<real>)
    requires On(board, draws)
  {
    && |seqs| == |prices| == |board.tokens|
    && forall i | 0 <= i < |seqs| :: seqs[i] == CountOf(draws, i) && prices[i] == PriceOf(draws, board.start[i], i)
  }

  /** Everything the stream holds after g draws: counters, prices and what it has handed over. */
  ghost predicate Streamed(board: Board, draws: seq<Draw>, g: nat, start: int,
                           seqs: seq<int>, prices: seq<real>, emitted: seq<Event>)
  {
    && g <= |draws| && On(board, draws[..g]) && Tallies(board, draws[..g], seqs, prices)
    && emitted == From(EventsOf(board, draws[..g]), start)
  }

  lemma StreamStarts(board: Board, draws: seq<Draw>, seqs: seq<int>, prices: seq<real>, start: int)
    requires On(board, draws) && |seqs| == |board.tokens| && prices == board.start
    requires forall i | 0 <= i < |seqs| :: seqs[i] == 0
    ensures Streamed(board, draws, 0, start, seqs, prices, [])
  {
  }

  lemma StreamFits(board: Board, draws: seq<Draw>, g: nat, start: int,
                   seqs: seq<int>, prices: seq<real>, emitted: seq<Event>)
    requires On(board, draws) && g < |draws| && Streamed(board, draws, g, start, seqs, prices, emitted)
    ensures draws[g].index < |seqs| == |prices| == |board.tokens|
  {
  }

  /** One more draw moves one counter and one price, and they make up its event. */
  lemma StreamGoesOn(board: Board, draws: seq<Draw>, g: nat, start: int,
                     seqs: seq<int>, prices: seq<real>, emitted: seq<Event>,
                     seqs': seq<int>, prices': seq<real>, e: Event)
    requires On(board, draws) && g < |draws| && Streamed(board, draws, g, start, seqs, prices, emitted)
    requires draws[g].index < |seqs| == |prices| == |board.tokens|
    requires var i := draws[g].index;
             && seqs' == seqs[i := seqs[i] + 1] && prices' == prices[i := RoundTick(prices[i] + draws[g].move)]
             && e == Event(seqs'[i], board.tokens[i], prices'[i])
    ensures Streamed(board, draws, g + 1, start, seqs', prices', if g >= start then emitted + [e] else emitted)
  {
    hide RoundTick, Distinct, From;
    assert draws[..g + 1][..g] == draws[..g];
    Turn(board, draws[..g + 1]);
    FromGrows(EventsOf(board, draws[..g]), LastEvent(board, draws[..g + 1]), start);
  }

  lemma StreamEnds(board: Board, draws: seq<Draw>, start: int, seqs: seq<int>, prices: seq<real>, emitted: seq<Event>)
    requires On(board, draws) && Streamed(board, draws, |draws|, start, seqs, prices, emitted)
    ensures emitted == From(EventsOf(board, draws), start)
  {
    assert draws[..|draws|] == draws;
  }

  /** One step of the walk, in place, and its event. */
  method Walk(tokens: seq<string>, seqs: array<int>, prices: array<real>, d: Draw) returns (e: Event)
    requires d.index < seqs.Length == prices.Length == |tokens|
    modifies seqs, prices
    ensures seqs[..] == old(seqs[..])[d.index := old(seqs[..])[d.index] + 1]
    ensures prices[..] == old(prices[..])[d.index := RoundTick(old(prices[..])[d.index] + d.move)]
    ensures e == Event(seqs[..][d.index], tokens[d.index], prices[..][d.index])
  {
    hide RoundTick;
    prices[d.index] := RoundTick(prices[d.index] + d.move);
    seqs[d.index] := seqs[d.index] + 1;
    e := Event(seqs[d.index], tokens[d.index], prices[d.index]);
  }

  /**
   * Runs the stream until the client is gone, that is, for as many draws as there are, and hands over
   * the events with global index >= start: always a suffix of the one stream.
   */
  method Stream(board: Board, draws: seq<Draw>, start: int) returns (emitted: seq<Event>)
    requires On(board, draws)
    ensures emitted == From(EventsOf(board, draws), start)
    ensures var es, first := EventsOf(board, draws), if start < 0 then 0 else start;
            && |emitted| == (if first < |draws| then |draws| - first else 0)
            && forall k | 0 <= k < |emitted| :: emitted[k] == es[first + k]
  {
    assert |board.tokens| == |board.start|;
    FromIsSuffix(EventsOf(board, draws), start);
    hide *;
    var n := |board.tokens|;
    var seqs := new int[n](_ => 0);
    var prices := new real[n](i requires 0 <= i < |board.start| => board.start[i]);
    emitted := [];
    StreamStarts(board, draws, seqs[..], prices[..], start);
    for g := 0 to |draws|
      invariant Streamed(board, draws, g, start, seqs[..], prices[..], emitted)
    {
      ghost var ss, ps := seqs[..], prices[..];
      StreamFits(board, draws, g, start, ss, ps, emitted);
      var e := Walk(board.tokens, seqs, prices, draws[g]);
      StreamGoesOn(board, draws, g, start, ss, ps, emitted, seqs[..], prices[..], e);
      if g >= start {
        emitted := emitted + [e];
      }
    }
    StreamEnds(board, draws, start, seqs[..], prices[..], emitted);
  }

  function CountToken(es: seq<Event>, token: string): nat {
    if es == [] then 0
    else CountToken(es[..|es| - 1], token) + if es[|es| - 1].token == token then 1 else 0
  }

  /** Every event is numbered one above the number of earlier events of its instrument. */
  ghost predicate Contiguous(es: seq<Event>) {
    forall g | 0 <= g < |es| :: es[g].seqNo == CountToken(es[..g], es[g].token) + 1
  }

  lemma {:induction false} CountsMatch(board: Board, draws: seq<Draw>, i: nat)
    requires On(board, draws) && i < |board.tokens|
    ensures CountToken(EventsOf(board, draws), board.tokens[i]) == CountOf(draws, i)
  {
    if draws != [] {
      var past := draws[..|draws| - 1];
      CountsMatch(board, past, i);
      assert EventsOf(board, draws)[..|past|] == EventsOf(board, past);
    }
  }

  /** Each instrument's events carry seq 1, 2, 3, ... without a gap. */
  lemma {:induction false} StreamIsContiguous(board: Board, draws: seq<Draw>)
    requires On(board, draws)
    ensures Contiguous(EventsOf(board, draws))
  {
    hide RoundTick, Distinct;
    if draws != [] {
      var n := |draws| - 1;
      var past := draws[..n];
      Turn(board, draws);
      StreamIsContiguous(board, past);
      CountsMatch(board, past, draws[n].index);
      var es, before := EventsOf(board, draws), EventsOf(board, past);
      forall g | 0 <= g < |es|
        ensures es[g].seqNo == CountToken(es[..g], es[g].token) + 1
      {
        assert es[..g] == before[..g];
        if g == n { assert before[..g] == before; }
      }
    }
  }

  /** Every price in the stream is a positive multiple of 0.05. */
  lemma StreamPricesOnGrid(board: Board, draws: seq<Draw>, g: nat) returns (k: int)
    requires On(board, draws) && g < |draws|
    ensures k >= 1 && EventsOf(board, draws)[g].ltp == (5 * k) as real / 100.0
  {
    hide *;
    k := StreamWalks(board, draws, g);
  }

  /** The price that an instrument's latest event carries, if it has one. */
  function LastPrice(es: seq<Event>, token: string, start: real): real {
    if es == [] then start
    else if es[|es| - 1].token == token then es[|es| - 1].ltp
    else LastPrice(es[..|es| - 1], token, start)
  }

  lemma {:induction false} PricesMatch(board: Board, draws: seq<Draw>, i: nat)
    requires On(board, draws) && i < |board.tokens|
    ensures PriceOf(draws, board.start[i], i) == LastPrice(EventsOf(board, draws), board.tokens[i], board.start[i])
  {
    hide RoundTick;
    if draws != [] {
      var past := draws[..|draws| - 1];
      PricesMatch(board, past, i);
      assert EventsOf(board, draws)[..|past|] == EventsOf(board, past);
    }
  }

  /**
   * The walk: each event is of the instrument drawn, and its price is the multiple of 0.05 nearest to that
   * instrument's previous price plus the move drawn, or the smallest one.
   */
  lemma {:induction false} StreamWalks(board: Board, draws: seq<Draw>, g: nat) returns (k: int)
    requires On(board, draws) && g < |draws|
    ensures var es, i := EventsOf(board, draws), draws[g].index;
            && es[g].token == board.tokens[i]
            && k >= 1 && es[g].ltp == (5 * k) as real / 100.0
            && var p := LastPrice(es[..g], board.tokens[i], board.start[i]) + draws[g].move;
               if p < 0.025 then k == 1 else -0.025 < es[g].ltp - p <= 0.025
  {
    hide RoundTick, Distinct, LastPrice;
    var n := |draws| - 1;
    var past := draws[..n];
    Turn(board, draws);
    var es, before := EventsOf(board, draws), EventsOf(board, past);
    assert es[..g] == before[..g];
    if g < n {
      k := StreamWalks(board, past, g);
    } else {
      var i := draws[n].index;
      PricesMatch(board, past, i);
      assert before[..g] == before;
      k := RoundTickIsNearest(PriceOf(past, board.start[i], i) + draws[n].move);
    }
  }

  /** Later events of the same instrument carry larger numbers. */
  lemma {:induction false} CountGrows(es: seq<Event>, i: nat, g: nat)
    requires Contiguous(es) && i < g <= |es|
    ensures CountToken(es[..g], es[i].token) >= es[i].seqNo
    decreases g
  {
    assert es[..g][..g - 1] == es[..g - 1];
    if i < g - 1 {
      CountGrows(es, i, g - 1);
    }
  }
}
