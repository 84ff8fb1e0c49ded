/** The orders and positions tables (internal/storage/order_store.go). */
module Storage {
  import opened Orders
  import opened Ledger

  /** One durable write: SaveOrder, or the single transaction of SaveFillTransition. */
  datatype Write = OrderWrite(order: Order) | FillWrite(order: Order, position: Position)

  datatype Tables = Tables(orders: map<string, Order>, positions: map<string, Position>)

  /** What an actor is seeded with on boot. */
  datatype InitialState = InitialState(position: Position, orders: seq<Order>)

  /** INSERT ... ON CONFLICT (id) DO UPDATE SET status: an existing row keeps every other column. */
  function Upsert(rows: map<string, Order>, o: Order): map<string, Order> {
    if o.id in rows then rows[o.id := rows[o.id].(status := o.status)] else rows[o.id := o]
  }

  /** The tables after a sequence of committed writes by all actors. */
  function Durable(journal: seq<Write>): Tables {
    if journal == [] then Tables(map[], map[])
    else
      var t, w := Durable(journal[..|journal| - 1]), journal[|journal| - 1];
      match w
      case OrderWrite(o) => t.(orders := Upsert(t.orders, o))
      case FillWrite(o, p) => Tables(Upsert(t.orders, o), t.positions[p.token := p])
  }

  /** The writes made for one instrument. */
  function WritesFor(journal: seq<Write>, token: string): seq<Write> {
    if journal == [] then []
    else
      var past, w := WritesFor(journal[..|journal| - 1], token), journal[|journal| - 1];
      if w.order.token == token then past + [w] else past
  }

  function RowsFor(rows: map<string, Order>, token: string): map<string, Order> {
    map id | id in rows && rows[id].token == token :: rows[id]
  }

  /** Positions are written under the token of the order that moved them. */
  predicate Keyed(journal: seq<Write>) {
    forall i | 0 <= i < |journal| && journal[i].FillWrite? :: journal[i].position.token == journal[i].order.token
  }

  /** No order ID is used for two instruments. */
  predicate OwnedIDs(journal: seq<Write>) {
    forall i, j | 0 <= i < |journal| && 0 <= j < |journal| && journal[i].order.id == journal[j].order.id ::
      journal[i].order.token == journal[j].order.token
  }

  lemma GrowJournal(journal: seq<Write>, w: Write, token: string)
    ensures Durable(journal + [w]) ==
            match w
            case OrderWrite(o) => Durable(journal).(orders := Upsert(Durable(journal).orders, o))
            case FillWrite(o, p) => Tables(Upsert(Durable(journal).orders, o), Durable(journal).positions[p.token := p])
    ensures WritesFor(journal + [w], token) ==
            if w.order.token == token then WritesFor(journal, token) + [w] else WritesFor(journal, token)
  {
    assert (journal + [w])[..|journal|] == journal;
  }

  /** Every row still carries the ID and the token of a write. */
  lemma {:induction false} RowsComeFromWrites(journal: seq<Write>, id: string)
    requires id in Durable(journal).orders
    ensures Durable(journal).orders[id].id == id
    ensures exists i :: 0 <= i < |journal| && journal[i].order.id == id
                        && journal[i].order.token == Durable(journal).orders[id].token
  {
    var past := journal[..|journal| - 1];
    if id in Durable(past).orders {
      RowsComeFromWrites(past, id);
      var i :| 0 <= i < |past| && past[i].order.id == id && past[i].order.token == Durable(past).orders[id].token;
      assert journal[i] == past[i];
    } else {
      assert journal[|journal| - 1].order.id == id;
    }
  }

  lemma {:induction false} UnwrittenHasNoRow(journal: seq<Write>, id: string)
    requires id !in Durable(journal).orders
    ensures forall k | 0 <= k < |journal| :: journal[k].order.id != id
  {
    if journal != [] {
      UnwrittenHasNoRow(journal[..|journal| - 1], id);
    }
  }

  /** A row is as its first write made it, but for the status, which is that of the last write. */
  lemma {:induction false} RowIsFirstWrite(journal: seq<Write>, id: string) returns (i: nat, j: nat)
    requires id in Durable(journal).orders
    ensures i <= j < |journal| && journal[i].order.id == id && journal[j].order.id == id
    ensures forall k | 0 <= k < i || j < k < |journal| :: journal[k].order.id != id
    ensures Durable(journal).orders[id] == journal[i].order.(status := journal[j].order.status)
  {
    var n := |journal| - 1;
    var past := journal[..n];
    assert forall k | 0 <= k < n :: past[k] == journal[k];
    if id in Durable(past).orders {
      i, j := RowIsFirstWrite(past, id);
      if journal[n].order.id == id {
        j := n;
      }
    } else {
      UnwrittenHasNoRow(past, id);
      i, j := n, n;
    }
  }

  /** A position row is that of the last fill written for its instrument. */
  lemma {:induction false} PositionIsLastFill(journal: seq<Write>, token: string) returns (j: nat)
    requires token in Durable(journal).positions
    ensures j < |journal| && journal[j].FillWrite? && journal[j].position.token == token
    ensures forall k | j < k < |journal| && journal[k].FillWrite? :: journal[k].position.token != token
    ensures Durable(journal).positions[token] == journal[j].position
  {
    var n := |journal| - 1;
    var past := journal[..n];
    assert forall k | 0 <= k < n :: past[k] == journal[k];
    if journal[n].FillWrite? && journal[n].position.token == token {
      j := n;
    } else {
      j := PositionIsLastFill(past, token);
    }
  }

  lemma {:induction false} PositionsAreKeyed(journal: seq<Write>)
    ensures forall t | t in Durable(journal).positions :: Durable(journal).positions[t].token == t
  {
    if journal != [] {
      PositionsAreKeyed(journal[..|journal| - 1]);
    }
  }

  /** An upsert of an order on unchanged terms stores exactly that order. */
  lemma UpsertRow(rows: map<string, Order>, o: Order)
    requires o.id in rows ==> rows[o.id].(status := o.status) == o
    ensures Upsert(rows, o) == rows[o.id := o]
    ensures RowsFor(rows[o.id := o], o.token) == RowsFor(rows, o.token)[o.id := o]
  {
  }

  /** A map lookup gives the zero value for an absent key. */
  function EntryAt(out: map<string, InitialState>, token: string): InitialState {
    if token in out then out[token] else InitialState(FLAT, [])
  }

  lemma NothingListed()
    ensures Enumerates([], map[])
  {
  }

  lemma ListOneMore(listed: seq<Order>, rows: map<string, Order>, o: Order)
    requires Enumerates(listed, rows) && o.id !in rows
    ensures Enumerates(listed + [o], rows[o.id := o])
  {
  }

  /** Copies a map of orders into a list, in the arbitrary order of a range loop. */
  method ListOrders(b: map<string, Order>) returns (listed: seq<Order>)
    requires forall id | id in b :: b[id].id == id
    ensures Enumerates(listed, b)
  {
    hide Enumerates;
    listed := [];
    var ids := b.Keys;
    ghost var seen: map<string, Order> := map[];
    NothingListed();
    while ids != {}
      invariant ids <= b.Keys && seen.Keys == b.Keys - ids
      invariant forall id | id in seen :: seen[id] == b[id]
      invariant Enumerates(listed, seen)
      decreases |ids|
    {
      var id :| id in ids;
      ListOneMore(listed, seen, b[id]);
      ids := ids - {id};
      listed := listed + [b[id]];
      seen := seen[id := b[id]];
    }
    assert seen == b;
  }

  /** What the loader has gathered from all position rows and the order rows seen so far. */
  ghost predicate Gathered(out: map<string, InitialState>, positions: map<string, Position>, seen: map<string, Order>) {
    && (forall token :: EntryAt(out, token).position == if token in positions then positions[token] else FLAT)
    && (forall token :: Enumerates(EntryAt(out, token).orders, RowsFor(seen, token)))
    && (forall token | token in out :: token in positions || RowsFor(seen, token) != map[])
  }

  lemma NothingGathered(out: map<string, InitialState>, positions: map<string, Position>)
    requires out.Keys == positions.Keys
    requires forall token | token in out :: out[token] == InitialState(positions[token], [])
    ensures Gathered(out, positions, map[])
  {
  }

  lemma RowsForOneMore(seen: map<string, Order>, row: Order, token: string)
    requires row.id !in seen
    ensures RowsFor(seen[row.id := row], token) ==
            if row.token == token then RowsFor(seen, token)[row.id := row] else RowsFor(seen, token)
    ensures row.id !in RowsFor(seen, token)
  {
  }

  lemma GatherOneMore(out: map<string, InitialState>, positions: map<string, Position>,
                      seen: map<string, Order>, row: Order)
    requires Gathered(out, positions, seen) && row.id !in seen
    ensures var st := EntryAt(out, row.token);
            Gathered(out[row.token := st.(orders := st.orders + [row])], positions, seen[row.id := row])
  {
    hide Enumerates, RowsFor;
    var st := EntryAt(out, row.token);
    var out' := out[row.token := st.(orders := st.orders + [row])];
    var seen' := seen[row.id := row];
    forall token
      ensures EntryAt(out', token).position == (if token in positions then positions[token] else FLAT)
      ensures Enumerates(EntryAt(out', token).orders, RowsFor(seen', token))
      ensures token in out' ==> token in positions || RowsFor(seen', token) != map[]
    {
      RowsForOneMore(seen, row, token);
      if token == row.token {
        ListOneMore(st.orders, RowsFor(seen, token), row);
        assert row.id in RowsFor(seen', token);
      } else {
        assert EntryAt(out', token) == EntryAt(out, token);
      }
    }
  }

  /** The two tables.  A write commits whole or not at all; journal remembers the commits. */
  class OrderStore {
    var orders: map<string, Order>
    var positions: map<string, Position>
    ghost var journal: seq<Write>

    ghost predicate Valid()
      reads this
    {
      orders == Durable(journal).orders && positions == Durable(journal).positions && Keyed(journal)
    }

    constructor ()
      ensures Valid() && journal == [] && orders == map[] && positions == map[]
    {
      orders, positions, journal := map[], map[], [];
    }

    /** Used for new orders, activations and cancellations. */
    method SaveOrder(o: Order)
      requires Valid()
      modifies this
      ensures Valid() && journal == old(journal) + [OrderWrite(o)]
      ensures orders == Upsert(old(orders), o) && positions == old(positions)
      ensures orders == if o.id in old(orders) then old(orders)[o.id := old(orders)[o.id].(status := o.status)]
                        else old(orders)[o.id := o]
    {
      if o.id in orders {
        orders := orders[o.id := orders[o.id].(status := o.status)];
      } else {
        orders := orders[o.id := o];
      }
      GrowJournal(journal, OrderWrite(o), o.token);
      journal := journal + [OrderWrite(o)];
    }

    /** The filled order and the resulting position, in one transaction. */
    method SaveFillTransition(o: Order, pos: Position)
      requires Valid() && pos.token == o.token
      modifies this
      ensures Valid() && journal == old(journal) + [FillWrite(o, pos)]
      ensures orders == Upsert(old(orders), o) && positions == old(positions)[pos.token := pos]
      ensures orders == if o.id in old(orders) then old(orders)[o.id := old(orders)[o.id].(status := o.status)]
                        else old(orders)[o.id := o]
    {
      if o.id in orders {
        orders := orders[o.id := orders[o.id].(status := o.status)];
      } else {
        orders := orders[o.id := o];
      }
      positions := positions[pos.token := pos];
      GrowJournal(journal, FillWrite(o, pos), o.token);
      journal := journal + [FillWrite(o, pos)];
    }

    /** Groups the rows of both tables by instrument; rows come back in an arbitrary order. */
    method LoadAllInstrumentState() returns (out: map<string, InitialState>)
      requires Valid()
      ensures Gathered(out, positions, orders)
    {
      hide Durable, Gathered;
      PositionsAreKeyed(journal);
      forall id | id in orders
        ensures orders[id].id == id
      {
        RowsComeFromWrites(journal, id);
      }
      out := GatherPositions(positions);
      out := GatherOrders(out, positions, orders);
    }
  }

  /** The first half of the loader: one entry for each position row. */
  method GatherPositions(positions: map<string, Position>) returns (out: map<string, InitialState>)
    requires forall token | token in positions :: positions[token].token == token
    ensures Gathered(out, positions, map[])
  {
    out := map[];
    var rows := positions.Keys;
    while rows != {}
      invariant rows <= positions.Keys && out.Keys == positions.Keys - rows
      invariant forall token | token in out :: out[token] == InitialState(positions[token], [])
      decreases |rows|
    {
      var key :| key in rows;
      rows := rows - {key};
      var row := positions[key];
      var st := EntryAt(out, row.token);
      out := out[row.token := st.(position := row)];
    }
    NothingGathered(out, positions);
  }

  /** The second half: each order row is appended to its instrument's list. */
  method GatherOrders(start: map<string, InitialState>, ghost positions: map<string, Position>,
                      orders: map<string, Order>)
    returns (out: map<string, InitialState>)
    requires Gathered(start, positions, map[])
    requires forall id | id in orders :: orders[id].id == id
    ensures Gathered(out, positions, orders)
  {
    hide Enumerates, RowsFor, Gathered;
    out := start;
    var ids := orders.Keys;
    ghost var seen: map<string, Order> := map[];
    while ids != {}
      invariant ids <= orders.Keys && seen.Keys == orders.Keys - ids
      invariant forall id | id in seen :: seen[id] == orders[id]
      invariant Gathered(out, positions, seen)
      decreases |ids|
    {
      var id :| id in ids;
      ids := ids - {id};
      var row := orders[id];
      GatherOneMore(out, positions, seen, row);
      var st := EntryAt(out, row.token);
      out := out[row.token := st.(orders := st.orders + [row])];
      seen := seen[id := row];
    }
    assert seen == orders;
  }
}
