/**
 * The process that ties candles and orders together: the boot sequence and the tick loop
 * (cmd/server/main.go:55-163).
 */
module Server {
  import opened Journal
  import opened Storage
  import opened Durability
  import opened Registries
  import opened Wrappers
  import P = Protocol
  import C = Candles
  import CandleStorage
  import Pipeline

  class Server {
    const candles: CandleStorage.CandleStore
    const agg: C.Aggregator
    const registry: Registry
    var inboxes: map<string, seq<P.Message>>

    /** The messages that an actor has not taken yet, oldest first. */
    ghost function InboxOf(token: string): seq<P.Message>
      reads this
    {
      if token in inboxes then inboxes[token] else []
    }

    /** Only messages that the handlers let through are in an inbox. */
    ghost predicate AllAdmissible()
      reads this
    {
      forall token | token in inboxes :: forall i | 0 <= i < |inboxes[token]| :: P.Admissible(inboxes[token][i])
    }

    ghost function Pipe(): Pipeline.Pipe
      reads candles, agg
    {
      Pipeline.Pipe(agg.states, candles.Tables())
    }

    constructor (candles: CandleStorage.CandleStore, orders: OrderStore, ghost logs: map<string, seq<Event>>)
      requires candles.Valid()
      requires orders.Valid() && AreHistories(orders.journal, logs) && OwnedIDs(orders.journal)
      ensures candles.Valid() && registry.Valid() && this.candles == candles && registry.store == orders
      ensures fresh(registry) && fresh(agg) && registry.Repr() == {orders}
      ensures Pipeline.Reseeded(candles.Tables(), Pipe().states) && inboxes == map[]
      ensures forall token :: registry.ViewOf(token) == P.State(token, if token in logs then logs[token] else [], None)
    {
      hide Lawful, AreHistories, OwnedIDs, Seeds, WritesFor, WritesOf, Pipeline.Reseeded;
      var reg := new Registry(orders, logs);
      assert reg.Repr() == {orders};
      var a := Pipeline.SeedAggregator(candles);
      this.candles, agg, registry, inboxes := candles, a, reg, map[];
      new;
      assert registry.Repr() == {orders};
    }

    /** The candle half of a tick: the aggregator, then the transaction with its result. */
    method Record(t: C.Tick) returns (duplicate: bool)
      requires candles.Valid() && registry.Valid()
      modifies candles, agg
      ensures candles.Valid() && Pipe() == Pipeline.Process(old(Pipe()), t)
      ensures duplicate == CandleStorage.Seen(old(Pipe()).disk, t.token, t.seqNo)
      ensures registry.Valid() && registry.Repr() == old(registry.Repr())
      ensures forall token :: registry.ViewOf(token) == old(registry.ViewOf(token))
    {
      hide C.Applied, C.ResultOf, CandleStorage.TickCommitted, CandleStorage.Seen, Lawful, Seeds, WritesFor, WritesOf;
      assert candles !in registry.Repr() && agg !in registry.Repr();
      var result := agg.Apply(t);
      duplicate := candles.ApplyTick(t.token, t.seqNo, result);
    }

    /** A message joins the inbox of an actor, which is created if need be; nothing is handled yet. */
    method Send(token: string, m: P.Message)
      requires registry.Valid() && AllAdmissible() && P.Admissible(m)
      modifies this`inboxes, registry`actors
      ensures registry.Valid() && AllAdmissible() && fresh(registry.Repr() - old(registry.Repr()))
      ensures InboxOf(token) == old(InboxOf(token)) + [m]
      ensures forall t | t != token :: InboxOf(t) == old(InboxOf(t))
      ensures forall t :: registry.ViewOf(t) == old(registry.ViewOf(t))
    {
      hide P.Admissible, Lawful, Seeds, WritesFor, WritesOf, Registry.Valid, Registry.ViewOf, Registry.Served;
      var _ := registry.ActorFor(token);
      inboxes := inboxes[token := (if token in inboxes then inboxes[token] else []) + [m]];
    }

    /**
     * The tick loop's body.  The candles skip a duplicate; the actor's inbox is given the tick regardless.  No order
     * has seen the price yet.
     */
    method OnTick(t: C.Tick) returns (duplicate: bool)
      requires candles.Valid() && registry.Valid() && AllAdmissible()
      modifies candles, agg, this`inboxes, registry`actors
      ensures candles.Valid() && registry.Valid() && AllAdmissible() && fresh(registry.Repr() - old(registry.Repr()))
      ensures Pipe() == Pipeline.Process(old(Pipe()), t)
      ensures duplicate == CandleStorage.Seen(old(Pipe()).disk, t.token, t.seqNo)
      ensures InboxOf(t.token) == old(InboxOf(t.token)) + [P.Tick(t.ltp)]
      ensures forall token | token != t.token :: InboxOf(token) == old(InboxOf(token))
      ensures forall token :: registry.ViewOf(token) == old(registry.ViewOf(token))
    {
      TicksAreAdmissible(t.ltp);
      hide Pipeline.Process, CandleStorage.Seen, P.Admissible, Lawful, Seeds, WritesFor, WritesOf;
      hide Registry.Valid, Registry.ViewOf, Registry.Served;
      duplicate := Record(t);
      Send(t.token, P.Tick(t.ltp));
    }

    /** One turn of an actor's loop: it takes the oldest message from its inbox and handles it to the end. */
    method Work(token: string) returns (r: P.Reply)
      requires registry.Valid() && AllAdmissible() && InboxOf(token) != []
      modifies this`inboxes, registry`actors, registry.Repr()
      ensures registry.Valid() && AllAdmissible() && fresh(registry.Repr() - old(registry.Repr()))
      ensures InboxOf(token) == old(InboxOf(token))[1..]
      ensures forall t | t != token :: InboxOf(t) == old(InboxOf(t))
      ensures P.Next(old(registry.ViewOf(token)), old(InboxOf(token)[0]), registry.ViewOf(token), r)
      ensures forall t | t != token :: registry.ViewOf(t) == old(registry.ViewOf(t))
    {
      hide P.Admissible, P.Next, Lawful, Seeds, WritesFor, WritesOf, Registry.Valid, Registry.ViewOf, Registry.Served;
      var m := inboxes[token][0];
      inboxes := inboxes[token := inboxes[token][1..]];
      r := registry.Deliver(token, m);
    }
  }

  lemma TicksAreAdmissible(ltp: real)
    ensures P.Admissible(P.Tick(ltp))
  {
  }

  lemma TicksAreNotAnswered(s: P.State, ltp: real, s': P.State, r: P.Reply)
    requires P.Next(s, P.Tick(ltp), s', r)
    ensures r == P.NoReply
  {
  }
}
