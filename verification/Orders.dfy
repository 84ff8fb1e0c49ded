/**
 * Orders, fills and the trigger rules (internal/order/order.go).
 *
 * Side, kind and status are strings in the program; each becomes a datatype
 * here, with an extra constructor for a string outside the known set wherever
 * a caller can supply one.  Prices are exact reals.
 */
module Orders {
  import opened Wrappers

  datatype Side = Buy | Sell | UnknownSide(text: string)

  datatype Kind = Market | Limit | Stop | UnknownKind(text: string)

  /** Unset is the empty status of an order that no actor has accepted yet. */
  datatype Status = Unset | Pending | Resting | Filled | Cancelled

  /** entryID and siblingID are non-empty only on the two legs of a bracket. */
  datatype Order = Order(
    id: string, token: string, side: Side, kind: Kind, qty: int,
    limitPrice: real, status: Status, entryID: string, siblingID: string)

  datatype Fill = Fill(orderID: string, token: string, side: Side, qty: int, price: real)

  datatype Reason =
    | MissingToken | InvalidSide | InvalidKind | NonPositiveQty | NonPositiveLimit
    | WrongToken | DuplicateID(id: string)
    | BadEntry(inner: Reason) | BadTarget(inner: Reason) | BadStop(inner: Reason)
    | EntryKind | TargetKind | StopKind | LegSidesDiffer | LegSideOfEntry | LegQty | SharedIDs

  /** The checks in the program's order; the first one that fails is reported. */
  function Validate(o: Order): (v: Outcome<Reason>)
    ensures v.Pass? <==>
            && o.token != "" && (o.side.Buy? || o.side.Sell?) && !o.kind.UnknownKind?
            && o.qty > 0 && (o.kind.Market? || o.limitPrice > 0.0)
  {
    if o.token == "" then Fail(MissingToken)
    else if o.side != Buy && o.side != Sell then Fail(InvalidSide)
    else if o.kind != Market && o.kind != Limit && o.kind != Stop then Fail(InvalidKind)
    else if o.qty <= 0 then Fail(NonPositiveQty)
    else if (o.kind == Limit || o.kind == Stop) && o.limitPrice <= 0.0 then Fail(NonPositiveLimit)
    else Pass
  }

  /** Is the order marketable at this last traded price? */
  predicate WouldFill(o: Order, ltp: real) {
    match o.kind
    case Market => true
    case Limit => if o.side == Buy then ltp <= o.limitPrice else ltp >= o.limitPrice
    case Stop => if o.side == Sell then ltp <= o.limitPrice else ltp >= o.limitPrice
    case UnknownKind(_) => false
  }

  lemma StatusIsNoTerm(o: Order, s: Status, ltp: real)
    ensures WouldFill(o.(status := s), ltp) == WouldFill(o, ltp)
  {
  }

  /** Orders execute at the observed price, never at their own limit. */
  function FillPrice(ltp: real): real {
    ltp
  }

  /** The execution of the whole order at a price. */
  function FillFor(o: Order, price: real): Fill {
    Fill(o.id, o.token, o.side, o.qty, FillPrice(price))
  }

  /** Still able to execute or to be cancelled. */
  predicate Live(o: Order) {
    o.status == Resting || o.status == Pending
  }

  /** The same order apart from its status. */
  predicate SameTerms(o: Order, p: Order) {
    o.(status := p.status) == p
  }

  /** Neither an entry's leg nor anyone's sibling. */
  predicate Standalone(o: Order) {
    o.entryID == "" && o.siblingID == ""
  }

  /** A listing of a keyed collection of orders, in some sequence, without repetition. */
  ghost predicate Enumerates(orders: seq<Order>, b: map<string, Order>) {
    && (forall i | 0 <= i < |orders| :: orders[i].id in b && b[orders[i].id] == orders[i])
    && (forall i, j | 0 <= i < j < |orders| :: orders[i].id != orders[j].id)
    && (forall id | id in b :: b[id] in orders)
  }
}
