/**
 * The message protocol of one instrument's actor: what each message may do and what is
 * replied (internal/instrument/messages.go, actor_state.go, bracket.go).  The methods of
 * Actor.ActorState are proved to take only these steps; here runs of steps are studied.
 */
module Protocol {
  import opened Wrappers
  import opened Orders
  import opened Ledger
  import opened Journal
  import opened Settlement

  /** price is None until the first tick of this process. */
  datatype State = State(token: string, log: seq<Event>, price: Option<real>)

  datatype Message =
    | PlaceOrder(order: Order)
    | PlaceBracket(entry: Order, target: Order, stop: Order)
    | CancelOrder(id: string)
    | Tick(ltp: real)
    | TakeSnapshot

  datatype PlaceOutcome = FilledNow | NowResting | Rejected

  datatype CancelOutcome = CancelledNow | AlreadyFilled | AlreadyCancelled | NotFound

  datatype Reply =
    | OrderReply(outcome: PlaceOutcome, order: Order, fill: Option<Fill>, error: Option<Reason>)
    | BracketReply(outcome: PlaceOutcome, entry: Order, target: Order, stop: Order,
                   fill: Option<Fill>, error: Option<Reason>)
    | CancelReply(cancelled: CancelOutcome, found: Option<Order>)
    | SnapshotReply(token: string, position: Position, lastLTP: real, orders: seq<Order>)
    | NoReply

  // ---------- checks on placement ----------

  /** The checks on a bracket in the program's order. */
  function ValidateBracket(entry: Order, target: Order, stop: Order): (v: Outcome<Reason>)
    ensures v.Pass? <==>
              && Validate(entry).Pass? && Validate(target).Pass? && Validate(stop).Pass?
              && target.kind == Limit && stop.kind == Stop && !entry.kind.Stop?
              && target.side == stop.side != entry.side && target.qty == stop.qty == entry.qty
              && entry.id != target.id && entry.id != stop.id && target.id != stop.id
  {
    if Validate(entry).Fail? then Fail(BadEntry(Validate(entry).error))
    else if Validate(target).Fail? then Fail(BadTarget(Validate(target).error))
    else if Validate(stop).Fail? then Fail(BadStop(Validate(stop).error))
    else if entry.kind != Market && entry.kind != Limit then Fail(EntryKind)
    else if target.kind != Limit then Fail(TargetKind)
    else if stop.kind != Stop then Fail(StopKind)
    else if target.side != stop.side then Fail(LegSidesDiffer)
    else if target.side == entry.side then Fail(LegSideOfEntry)
    else if target.qty != entry.qty || stop.qty != entry.qty then Fail(LegQty)
    else if entry.id == target.id || entry.id == stop.id || target.id == stop.id then Fail(SharedIDs)
    else Pass
  }

  function OrderVerdict(token: string, b: Book, o: Order): Outcome<Reason> {
    if Validate(o).Fail? then Validate(o)
    else if o.token != token then Fail(WrongToken)
    else if o.id in b then Fail(DuplicateID(o.id))
    else Pass
  }

  function BracketVerdict(token: string, b: Book, entry: Order, target: Order, stop: Order): Outcome<Reason> {
    if ValidateBracket(entry, target, stop).Fail? then ValidateBracket(entry, target, stop)
    else if entry.token != token || target.token != token || stop.token != token then Fail(WrongToken)
    else if entry.id in b then Fail(DuplicateID(entry.id))
    else if target.id in b then Fail(DuplicateID(target.id))
    else if stop.id in b then Fail(DuplicateID(stop.id))
    else Pass
  }

  /** What the HTTP handlers guarantee: non-empty IDs, and no linkage on standalone orders and entries. */
  predicate Admissible(m: Message) {
    match m
    case PlaceOrder(o) => o.id != "" && Standalone(o)
    case PlaceBracket(entry, target, stop) =>
      entry.id != "" && target.id != "" && stop.id != "" && Standalone(entry)
    case CancelOrder(_) => true
    case Tick(_) => true
    case TakeSnapshot => true
  }

  function LinkLeg(leg: Order, entry: Order, sibling: Order): Order {
    leg.(entryID := entry.id, siblingID := sibling.id, status := Pending)
  }

  predicate Marketable(price: Option<real>, o: Order) {
    price.Some? && WouldFill(o, price.value)
  }

  // ---------- one step ----------

  /** Between base and b', at price p, nothing became unfinished that was not so before. */
  ghost predicate Calmer(base: Book, b': Book, p: real) {
    && b'.Keys == base.Keys
    && Triggered(b', p) <= Triggered(base, p)
    && Pendings(b') <= Pendings(base)
    && Orphans(b') <= Orphans(base)
    && Rivals(b') <= Rivals(base)
  }

  lemma CalmKeys(b: Book, b': Book, p: real)
    requires Calmer(b, b', p)
    ensures b'.Keys == b.Keys
  {
  }

  /** Fills at p and their consequences, starting from a book base. */
  ghost predicate Cascade(base: Book, log: seq<Event>, log': seq<Event>, p: real) {
    && Reacts(Fills(BookOf(log)), log, log', p)
    && Calmer(base, BookOf(log'), p)
    && KeepsPairs(base, BookOf(log'))
  }

  /** The book in which order o rests. */
  function Rested(b: Book, o: Order): Book {
    b[o.id := o.(status := Resting)]
  }

  /** o is filled first, at the known price, and the cascade follows. */
  ghost predicate FillsNow(token: string, log: seq<Event>, price: Option<real>, o: Order, log': seq<Event>) {
    && Marketable(price, o)
    && log < log'
    && (var fill := FillFor(o, price.value);
        log'[|log|] == Executed(o.(status := Filled), fill, ApplyFill(LedgerOf(log), fill)))
    && Cascade(Rested(BookOf(log), o), log, log', price.value)
  }

  ghost predicate NextPlace(s: State, o: Order, s': State, r: Reply) {
    var v := OrderVerdict(s.token, BookOf(s.log), o);
    if v.Fail? then s' == s && r == OrderReply(Rejected, o, None, Some(v.error))
    else if Marketable(s.price, o) then
      && s'.price == s.price && FillsNow(s.token, s.log, s.price, o, s'.log)
      && r == OrderReply(FilledNow, o.(status := Filled), Some(FillFor(o, s.price.value)), None)
    else
      && s' == s.(log := s.log + [Accepted(o.(status := Resting))])
      && r == OrderReply(NowResting, o.(status := Resting), None, None)
  }

  /** The log once both legs are stored as pending. */
  function LegsStored(log: seq<Event>, entry: Order, target: Order, stop: Order): seq<Event> {
    log + [Accepted(LinkLeg(target, entry, stop)), Accepted(LinkLeg(stop, entry, target))]
  }

  ghost predicate NextBracket(s: State, entry: Order, target: Order, stop: Order, s': State, r: Reply) {
    var v := BracketVerdict(s.token, BookOf(s.log), entry, target, stop);
    var legs := LegsStored(s.log, entry, target, stop);
    if v.Fail? then s' == s && r == BracketReply(Rejected, entry, target, stop, None, Some(v.error))
    else if Marketable(s.price, entry) then
      && s'.price == s.price && FillsNow(s.token, legs, s.price, entry, s'.log)
      && target.id in BookOf(s'.log) && stop.id in BookOf(s'.log)
      && r == BracketReply(FilledNow, entry.(status := Filled), BookOf(s'.log)[target.id], BookOf(s'.log)[stop.id],
                           Some(FillFor(entry, s.price.value)), None)
    else
      && s' == s.(log := legs + [Accepted(entry.(status := Resting))])
      && r == BracketReply(NowResting, entry.(status := Resting), LinkLeg(target, entry, stop),
                           LinkLeg(stop, entry, target), None, None)
  }

  ghost predicate NextCancel(s: State, id: string, s': State, r: Reply) {
    var b := BookOf(s.log);
    if id !in b then s' == s && r == CancelReply(NotFound, None)
    else if Live(b[id]) then
      var gone := b[id].(status := Cancelled);
      && s' == s.(log := s.log + [Withdrawn(gone)]) && r == CancelReply(CancelledNow, Some(gone))
    else
      && s' == s
      && r == CancelReply(if b[id].status == Filled then AlreadyFilled else AlreadyCancelled, Some(b[id]))
  }

  ghost predicate NextTick(s: State, ltp: real, s': State, r: Reply) {
    && s'.price == Some(ltp) && r == NoReply
    && Cascade(BookOf(s.log), s.log, s'.log, ltp)
    && Triggered(BookOf(s'.log), ltp) == {}
  }

  ghost predicate NextSnapshot(s: State, s': State, r: Reply) {
    && s' == s && r.SnapshotReply? && r.token == s.token && r.position == LedgerOf(s.log)
    && r.lastLTP == (if s.price.Some? then s.price.value else 0.0)
    && Enumerates(r.orders, BookOf(s.log))
  }

  /** The actor in state s handles m, ends in s' and replies r. */
  ghost predicate Next(s: State, m: Message, s': State, r: Reply) {
    && s'.token == s.token && s.log <= s'.log && Lawful(s'.token, s'.log)
    && match m
       case PlaceOrder(o) => NextPlace(s, o, s', r)
       case PlaceBracket(entry, target, stop) => NextBracket(s, entry, target, stop, s', r)
       case CancelOrder(id) => NextCancel(s, id, s', r)
       case Tick(ltp) => NextTick(s, ltp, s', r)
       case TakeSnapshot => NextSnapshot(s, s', r)
  }
}
