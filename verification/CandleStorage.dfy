/** The candles and watermark tables (internal/storage/candle_store.go). */
module CandleStorage {
  import opened Wrappers
  import opened Candles

  /** rows is keyed by token, then by minute; marks holds the last applied seq of each token. */
  datatype CandleTables = CandleTables(rows: map<string, map<int, Candle>>, marks: map<string, int>)

  const NO_TABLES := CandleTables(map[], map[])

  function RowsOf(rows: map<string, map<int, Candle>>, token: string): map<int, Candle> {
    if token in rows then rows[token] else map[]
  }

  /** INSERT ... ON CONFLICT DO UPDATE: an existing row keeps its open price. */
  function Upserted(rows: map<string, map<int, Candle>>, c: Candle): map<string, map<int, Candle>> {
    var mine := RowsOf(rows, c.token);
    rows[c.token := mine[c.bucket := if c.bucket in mine then c.(open := mine[c.bucket].open) else c]]
  }

  predicate Seen(t: CandleTables, token: string, seqNo: int) {
    token in t.marks && seqNo <= t.marks[token]
  }

  /** The transaction of one tick: nothing if its seq is not new, else candle rows and watermark together. */
  function TickCommitted(t: CandleTables, token: string, seqNo: int, result: ApplyResult): CandleTables {
    if Seen(t, token, seqNo) then t
    else
      var closedRows := if result.closed.Some? then Upserted(t.rows, result.closed.value) else t.rows;
      CandleTables(Upserted(closedRows, result.current), t.marks[token := seqNo])
  }

  ghost predicate WellKeyed(rows: map<string, map<int, Candle>>) {
    forall token, b | token in rows && b in rows[token] ::
      rows[token][b].token == token && rows[token][b].bucket == b
  }

  /** At most one candle per token: the one of the latest minute. */
  ghost predicate AreLatest(rows: map<string, map<int, Candle>>, latest: map<string, Candle>) {
    forall token ::
      if RowsOf(rows, token) == map[] then token !in latest
      else token in latest && IsLatest(RowsOf(rows, token), latest[token])
  }

  /** Some row or other. */
  method AnyOf<T(==)>(keys: set<T>) returns (key: T)
    requires keys != {}
    ensures key in keys
  {
    key :| key in keys;
  }

  /** ORDER BY bucket_ts DESC LIMIT 1, over the rows of one instrument. */
  method LatestOf(rows: map<int, Candle>) returns (latest: Option<Candle>)
    requires forall b | b in rows :: rows[b].bucket == b
    ensures if rows == map[] then latest == None else latest.Some? && IsLatest(rows, latest.value)
  {
    latest := None;
    var keys := rows.Keys;
    while keys != {}
      invariant keys <= rows.Keys
      invariant latest == None ==> keys == rows.Keys
      invariant latest.Some? ==>
                  && latest.value.bucket in rows && rows[latest.value.bucket] == latest.value
                  && forall b | b in rows && b !in keys :: b <= latest.value.bucket
      decreases |keys|
    {
      var b := AnyOf(keys);
      keys := keys - {b};
      if latest.None? || b > latest.value.bucket {
        latest := Some(rows[b]);
      }
    }
  }

  class CandleStore {
    var rows: map<string, map<int, Candle>>
    var marks: map<string, int>

    ghost predicate Valid()
      reads this
    {
      WellKeyed(rows)
    }

    function Tables(): CandleTables
      reads this
    {
      CandleTables(rows, marks)
    }

    constructor ()
      ensures Valid() && Tables() == NO_TABLES
    {
      rows, marks := map[], map[];
    }

    method GetWatermark(token: string) returns (lastSeq: int, found: bool)
      ensures found <==> token in marks
      ensures found ==> lastSeq == marks[token]
    {
      if token !in marks {
        return 0, false;
      }
      return marks[token], true;
    }

    method UpsertCandle(c: Candle)
      requires Valid()
      modifies this`rows
      ensures Valid() && rows == Upserted(old(rows), c)
      ensures var mine := RowsOf(old(rows), c.token);
              && RowsOf(rows, c.token).Keys == mine.Keys + {c.bucket}
              && RowsOf(rows, c.token)[c.bucket] ==
                 (if c.bucket in mine then c.(open := mine[c.bucket].open) else c)
              && (forall b | b in mine && b != c.bucket :: RowsOf(rows, c.token)[b] == mine[b])
      ensures forall token | token != c.token :: RowsOf(rows, token) == RowsOf(old(rows), token)
    {
      var mine := RowsOf(rows, c.token);
      if c.bucket in mine {
        var row := mine[c.bucket];
        mine := mine[c.bucket := row.(high := c.high, low := c.low, close := c.close, tickCount := c.tickCount)];
        assert row.token == c.token && row.bucket == c.bucket;
      } else {
        mine := mine[c.bucket := c];
      }
      rows := rows[c.token := mine];
    }

    /** One transaction: check the watermark, write the candles, bump the watermark. */
    method ApplyTick(token: string, seqNo: int, result: ApplyResult) returns (duplicate: bool)
      requires Valid()
      modifies this
      ensures Valid()
      ensures Tables() == TickCommitted(old(Tables()), token, seqNo, result)
      ensures duplicate == Seen(old(Tables()), token, seqNo)
      ensures duplicate <==> token in old(marks) && seqNo <= old(marks)[token]
      ensures if duplicate then rows == old(rows) && marks == old(marks) else marks == old(marks)[token := seqNo]
      ensures !duplicate ==>
                && result.current.bucket in RowsOf(rows, result.current.token)
                && var row := RowsOf(rows, result.current.token)[result.current.bucket];
                   row == result.current.(open := row.open)
      ensures !duplicate && result.closed.Some? ==>
                var c := result.closed.value;
                && c.bucket in RowsOf(rows, c.token)
                && (c.token != result.current.token || c.bucket != result.current.bucket ==>
                      var row := RowsOf(rows, c.token)[c.bucket]; row == c.(open := row.open))
    {
      var lastSeq, found := GetWatermark(token);
      if found && seqNo <= lastSeq {
        return true;
      }
      if result.closed.Some? {
        UpsertCandle(result.closed.value);
      }
      UpsertCandle(result.current);
      marks := marks[token := seqNo];
      duplicate := false;
    }

    /** Copies the watermark table, row by row. */
    method AllWatermarks() returns (out: map<string, int>)
      ensures out == marks
    {
      out := map[];
      var tokens := marks.Keys;
      while tokens != {}
        invariant tokens <= marks.Keys && out.Keys == marks.Keys - tokens
        invariant forall t | t in out :: out[t] == marks[t]
        decreases |tokens|
      {
        var t :| t in tokens;
        tokens := tokens - {t};
        out := out[t := marks[t]];
      }
    }

    /** The latest candle of every instrument that has one. */
    method AllLatestCandles() returns (out: map<string, Candle>)
      requires Valid()
      ensures AreLatest(rows, out)
    {
      out := map[];
      var tokens := rows.Keys;
      while tokens != {}
        invariant tokens <= rows.Keys && out.Keys <= rows.Keys - tokens
        invariant forall t | t in rows && t !in tokens ::
                    if rows[t] == map[] then t !in out else t in out && IsLatest(rows[t], out[t])
        decreases |tokens|
      {
        var t :| t in tokens;
        tokens := tokens - {t};
        var latest := LatestOf(rows[t]);
        if latest.Some? {
          out := out[t := latest.value];
        }
      }
    }
  }
}
