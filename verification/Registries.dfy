/**
 * The registry of actors over one shared pair of order tables, and what a restart of the process
 * brings back (cmd/server/main.go:55-63; internal/instrument/registry.go:42-113).
 */
module Registries {
  import opened Wrappers
  import opened Journal
  import opened Storage
  import opened Durability
  import opened Histories
  import opened Actor
  import P = Protocol

  /** Where every instrument stands. */
  type Views = v: imap<string, P.State> | forall token :: token in v
    ghost witness imap token: string :: P.State("", [], None)

  class Registry {
    const store: OrderStore
    const seeds: map<string, InitialState>
    var actors: map<string, ActorState>
    ghost const histories: map<string, seq<Event>>

    /** What was durable for an instrument when this process booted. */
    ghost function HistoryOf(token: string): seq<Event> {
      if token in histories then histories[token] else []
    }

    ghost function Repr(): set<object>
      reads this
    {
      {store} + set token | token in actors :: actors[token]
    }

    /** No actor yet, and nothing written since boot: the seed is still up to date. */
    ghost predicate Dormant(token: string)
      reads store
    {
      && Lawful(token, HistoryOf(token)) && Seeds(EntryAt(seeds, token), HistoryOf(token))
      && WritesFor(store.journal, token) == WritesOf(HistoryOf(token))
    }

    /** An instrument is served by its own actor, or waits for one. */
    ghost predicate Served(token: string)
      reads this, Repr()
    {
      if token in actors then actors[token].token == token && actors[token].store == store && actors[token].Valid()
      else Dormant(token)
    }

    ghost predicate Valid()
      reads this, Repr()
    {
      store.Valid() && forall token :: Served(token)
    }

    /** An instrument whose actor does not exist yet is where its seed will put it. */
    ghost function ViewOf(token: string): P.State
      reads this, Repr()
    {
      if token in actors then actors[token].View() else P.State(token, HistoryOf(token), None)
    }

    ghost function Overview(): (v: Views)
      reads this, Repr()
      ensures forall token :: v[token] == ViewOf(token)
    {
      imap token: string :: ViewOf(token)
    }

    /** Loads everything once; each actor takes its seed when it is first needed. */
    constructor (store: OrderStore, ghost logs: map<string, seq<Event>>)
      requires store.Valid() && AreHistories(store.journal, logs) && OwnedIDs(store.journal)
      ensures Valid() && this.store == store && actors == map[]
      ensures forall token :: ViewOf(token) == P.State(token, if token in logs then logs[token] else [], None)
    {
      hide Lawful, Gathered, Durable;
      var loaded := store.LoadAllInstrumentState();
      this.store, seeds, actors, histories := store, loaded, map[], logs;
      new;
      forall token
        ensures Served(token)
      {
        SeedIsUpToDate(store.journal, logs, token);
        ReloadIsExact(store.journal, token, HistoryOf(token));
        ReloadedSeeds(loaded, Durable(store.journal), token, HistoryOf(token));
      }
    }

    /** The actor of an instrument, created from its seed the first time. */
    method ActorFor(token: string) returns (actor: ActorState)
      requires Valid()
      modifies this`actors
      ensures Valid() && token in actors && actors[token] == actor
      ensures old(actors.Keys) <= actors.Keys && forall t | t in old(actors) :: actors[t] == old(actors)[t]
      ensures fresh(Repr() - old(Repr()))
      ensures forall t :: ViewOf(t) == old(ViewOf(t))
    {
      hide Lawful, Seeds, Durable, WritesFor, WritesOf;
      assert Served(token);
      if token in actors {
        return actors[token];
      }
      actor := new ActorState(token, store);
      actor.Restore(EntryAt(seeds, token), HistoryOf(token));
      actors := actors[token := actor];
      forall t
        ensures Served(t) && ViewOf(t) == old(ViewOf(t))
      {
        assert old(Served(t));
      }
    }

    /** One message to an actor that exists; no other instrument notices. */
    method Pass(token: string, m: P.Message) returns (r: P.Reply)
      requires Valid() && P.Admissible(m) && token in actors
      modifies Repr()
      ensures Valid() && Repr() == old(Repr()) && old(store.journal) <= store.journal
      ensures P.Next(old(ViewOf(token)), m, ViewOf(token), r)
      ensures forall t | t != token :: ViewOf(t) == old(ViewOf(t))
    {
      hide Lawful, Seeds, Durable, WritesFor, WritesOf, P.Next, P.Admissible;
      assert Served(token);
      r := actors[token].Handle(m);
      forall t
        ensures Served(t)
        ensures t != token ==> ViewOf(t) == old(ViewOf(t))
      {
        assert old(Served(t));
      }
    }

    /** One message to one instrument, whose actor is created if need be. */
    method Deliver(token: string, m: P.Message) returns (r: P.Reply)
      requires Valid() && P.Admissible(m)
      modifies this`actors, Repr()
      ensures Valid() && fresh(Repr() - old(Repr()))
      ensures P.Next(old(ViewOf(token)), m, ViewOf(token), r)
      ensures forall t | t != token :: ViewOf(t) == old(ViewOf(t))
      ensures old(store.journal) <= store.journal
    {
      assert store in Repr();
      hide Valid, Served, ViewOf, P.Next, P.Admissible;
      var _ := ActorFor(token);
      r := Pass(token, m);
    }

    /** The durable history of every instrument that ever had one. */
    ghost function Logs(): map<string, seq<Event>>
      reads this, Repr()
    {
      map token | token in histories.Keys + actors.Keys :: ViewOf(token).log
    }
  }

  lemma SeedIsUpToDate(journal: seq<Write>, logs: map<string, seq<Event>>, token: string)
    requires AreHistories(journal, logs)
    ensures var log := if token in logs then logs[token] else [];
            Lawful(token, log) && WritesFor(journal, token) == WritesOf(log)
  {
    if token !in logs {
      NoLogIsLawful(token);
      NeverWritten(journal, token);
    }
  }

  lemma {:induction false} NeverWritten(journal: seq<Write>, token: string)
    requires forall i | 0 <= i < |journal| :: journal[i].order.token != token
    ensures WritesFor(journal, token) == []
  {
    if journal != [] {
      NeverWritten(journal[..|journal| - 1], token);
    }
  }

  lemma {:induction false} WrittenIsListed(journal: seq<Write>, token: string)
    requires WritesFor(journal, token) == []
    ensures forall i | 0 <= i < |journal| :: journal[i].order.token != token
  {
    if journal != [] {
      WrittenIsListed(journal[..|journal| - 1], token);
    }
  }

  /** What the tables hold is the history of the instruments that have one. */
  lemma LogsAreHistories(registry: Registry)
    requires registry.Valid()
    ensures AreHistories(registry.store.journal, registry.Logs())
    ensures forall token :: registry.ViewOf(token).token == token
    ensures forall token | token !in registry.Logs() :: registry.ViewOf(token).log == []
  {
    hide Lawful, Seeds, Durable, WritesFor;
    var journal, logs := registry.store.journal, registry.Logs();
    forall token | token in logs
      ensures Lawful(token, logs[token]) && WritesFor(journal, token) == WritesOf(logs[token])
    {
      assert registry.Served(token);
    }
    forall token
      ensures registry.ViewOf(token).token == token
    {
      assert registry.Served(token);
    }
    forall i | 0 <= i < |journal|
      ensures journal[i].order.token in logs
    {
      var token := journal[i].order.token;
      if token !in logs {
        assert registry.Served(token);
        WrittenIsListed(journal, token);
      }
    }
  }

  /** If only one instrument has a history, no order ID can be shared. */
  lemma OneInstrumentOwnsIDs(registry: Registry, token: string)
    requires registry.Valid() && forall t | t != token :: registry.ViewOf(t).log == []
    ensures OwnedIDs(registry.store.journal)
  {
    hide Lawful, Seeds, Durable, WritesFor;
    var journal := registry.store.journal;
    forall i | 0 <= i < |journal|
      ensures journal[i].order.token == token
    {
      var t := journal[i].order.token;
      if t != token {
        assert registry.ViewOf(t).log == [];
        WritesAreLogs(registry, t);
        WrittenIsListed(journal, t);
      }
    }
  }

  /**
   * The process stops between messages and boots again: every instrument comes back with exactly
   * its orders, position and history, and only the last price is forgotten.
   */
  method Reboot(registry: Registry) returns (next: Registry)
    requires registry.Valid() && OwnedIDs(registry.store.journal)
    ensures fresh(next) && next.Valid() && next.store == registry.store
    ensures forall token :: next.ViewOf(token) == registry.ViewOf(token).(price := None)
  {
    hide Lawful, OwnedIDs, AreHistories;
    LogsAreHistories(registry);
    next := new Registry(registry.store, registry.Logs());
  }

  // ---------- a crash in the middle of a message ----------

  /** Everything written for an instrument is in its history, and the other way round. */
  lemma WritesAreLogs(registry: Registry, token: string)
    requires registry.Valid()
    ensures WritesFor(registry.store.journal, token) == WritesOf(registry.ViewOf(token).log)
    ensures registry.ViewOf(token).token == token
  {
    hide Lawful, Seeds, Durable, WritesFor, WritesOf;
    assert registry.Served(token);
  }

  datatype Occurrence =
    | Delivered(token: string, m: P.Message, r: P.Reply)   // one instrument handled a message
    | Died(inFlight: map<string, P.Message>)               // stopped or died with these messages in hand, and booted

  ghost predicate Occurs(v: Views, o: Occurrence, v': Views) {
    match o
    case Delivered(token, m, r) => Happens(v[token], Handled(m, r), v'[token]) && forall t | t != token :: v'[t] == v[t]
    case Died(inFlight) =>
      forall t :: Happens(v[t], if t in inFlight then CrashedIn(inFlight[t]) else Restarted, v'[t])
  }

  /**
   * Each actor is a goroutine of its own: any number of them may be in the middle of a message.  was is where each
   * instrument stood before its message, whole where the message would take it.
   */
  ghost predicate Underway(was: Views, inFlight: map<string, P.Message>, whole: Views) {
    forall t ::
      && was[t].token == t && Lawful(t, was[t].log)
      && if t in inFlight then P.Admissible(inFlight[t]) && exists r :: P.Next(was[t], inFlight[t], whole[t], r)
         else whole[t] == was[t]
  }

  /** What was written for an instrument covers one history and is covered by another. */
  ghost predicate Spans(journal: seq<Write>, token: string, was: seq<Event>, whole: seq<Event>) {
    WritesOf(was) <= WritesFor(journal, token) <= WritesOf(whole)
  }

  /** Some of the writes of each message were made, in whatever order across instruments. */
  ghost predicate CutShort(journal: seq<Write>, was: Views, whole: Views) {
    forall t :: Spans(journal, t, was[t].log, whole[t].log)
  }

  /** Every instrument stands where the writes leave it, and knows no price. */
  ghost predicate Booted(journal: seq<Write>, whole: Views, v: Views) {
    forall t :: v[t] == P.State(t, HistoryIn(journal, t, whole[t].log), None)
  }

  lemma UnderwayAt(was: Views, inFlight: map<string, P.Message>, whole: Views, t: string)
    requires Underway(was, inFlight, whole)
    ensures was[t].token == t && was[t].log <= whole[t].log && Lawful(t, whole[t].log)
    ensures t in inFlight ==> P.Admissible(inFlight[t]) && exists r :: P.Next(was[t], inFlight[t], whole[t], r)
    ensures t !in inFlight ==> whole[t] == was[t]
  {
    hide P.Admissible, P.NextPlace, P.NextBracket, P.NextCancel, P.NextTick, P.NextSnapshot, Lawful;
  }

  lemma CutShortAt(journal: seq<Write>, was: Views, whole: Views, t: string)
    requires CutShort(journal, was, whole)
    ensures Spans(journal, t, was[t].log, whole[t].log)
  {
    hide Spans;
  }

  /** What is durable of an instrument lies between where it stood and where its message would have taken it. */
  lemma CutLog(journal: seq<Write>, token: string, was: seq<Event>, whole: seq<Event>)
    requires was <= whole && Lawful(token, whole) && Spans(journal, token, was, whole)
    ensures var log := HistoryIn(journal, token, whole);
            Lawful(token, log) && WritesFor(journal, token) == WritesOf(log) && was <= log <= whole
  {
    hide Lawful, WritesFor, WritesOf;
    var m := |WritesFor(journal, token)|;
    WritesHaveSameLength(was);
    WritesHaveSameLength(whole);
    WritesOfPrefix(whole, m);
    PrefixIsLawful(token, whole, m);
  }

  lemma CutAt(journal: seq<Write>, was: Views, inFlight: map<string, P.Message>, whole: Views, t: string)
    requires Underway(was, inFlight, whole) && CutShort(journal, was, whole)
    ensures var log := HistoryIn(journal, t, whole[t].log);
            && Lawful(t, log) && WritesFor(journal, t) == WritesOf(log) && was[t].log <= log <= whole[t].log
  {
    hide *;
    UnderwayAt(was, inFlight, whole, t);
    CutShortAt(journal, was, whole, t);
    CutLog(journal, t, was[t].log, whole[t].log);
  }

  lemma DiesSo(was: P.State, m: P.Message, whole: P.State, v: P.State)
    requires P.Admissible(m) && exists r :: P.Next(was, m, whole, r)
    requires v.token == was.token && v.price.None? && was.log <= v.log <= whole.log
    ensures Happens(was, CrashedIn(m), v)
  {
    hide P.Next, P.Admissible;
  }

  lemma RestartsSo(was: P.State, v: P.State)
    requires v.token == was.token && v.price.None? && was.log <= v.log <= was.log
    ensures Happens(was, Restarted, v)
  {
    assert v.log == was.log;
  }

  lemma BootedAt(journal: seq<Write>, whole: Views, v: Views, t: string)
    requires Booted(journal, whole, v)
    ensures v[t].token == t && v[t].price.None? && v[t].log == HistoryIn(journal, t, whole[t].log)
  {
    hide HistoryIn;
  }

  lemma DiedOne(journal: seq<Write>, was: Views, inFlight: map<string, P.Message>, whole: Views, v: Views, t: string)
    requires Underway(was, inFlight, whole) && CutShort(journal, was, whole) && Booted(journal, whole, v)
    ensures Happens(was[t], if t in inFlight then CrashedIn(inFlight[t]) else Restarted, v[t])
  {
    hide *;
    UnderwayAt(was, inFlight, whole, t);
    CutAt(journal, was, inFlight, whole, t);
    BootedAt(journal, whole, v, t);
    if t in inFlight {
      DiesSo(was[t], inFlight[t], whole[t], v[t]);
    } else {
      RestartsSo(was[t], v[t]);
    }
  }

  lemma DiedOccurs(journal: seq<Write>, was: Views, inFlight: map<string, P.Message>, whole: Views, v: Views)
    requires Underway(was, inFlight, whole) && CutShort(journal, was, whole) && Booted(journal, whole, v)
    ensures Occurs(was, Died(inFlight), v)
  {
    hide Underway, CutShort, Booted, Happens;
    forall t
      ensures Happens(was[t], if t in inFlight then CrashedIn(inFlight[t]) else Restarted, v[t])
    {
      DiedOne(journal, was, inFlight, whole, v, t);
    }
  }

  /** The histories that the writes in a journal cover. */
  ghost function CutLogs(journal: seq<Write>, whole: Views): map<string, seq<Event>> {
    map t | t in (set i | 0 <= i < |journal| :: journal[i].order.token) :: HistoryIn(journal, t, whole[t].log)
  }

  lemma CutLogsAreHistories(journal: seq<Write>, was: Views, inFlight: map<string, P.Message>, whole: Views)
    requires Underway(was, inFlight, whole) && CutShort(journal, was, whole)
    ensures AreHistories(journal, CutLogs(journal, whole))
  {
    hide Underway, CutShort, Lawful, HistoryIn, WritesFor, WritesOf;
    var cut := CutLogs(journal, whole);
    forall t | t in cut
      ensures Lawful(t, cut[t]) && WritesFor(journal, t) == WritesOf(cut[t])
    {
      CutAt(journal, was, inFlight, whole, t);
    }
  }

  lemma Reboots(journal: seq<Write>, whole: Views, v: Views)
    requires var cut := CutLogs(journal, whole);
             forall t :: v[t] == P.State(t, if t in cut then cut[t] else [], None)
    ensures Booted(journal, whole, v)
  {
    hide WritesFor;
    forall t
      ensures v[t] == P.State(t, HistoryIn(journal, t, whole[t].log), None)
    {
      if t !in CutLogs(journal, whole) {
        NeverWritten(journal, t);
      }
    }
  }

  /**
   * The process dies, with any number of instruments in the middle of a message, and boots over the writes that
   * were made: each of those has lost the end of its message, and every other one has only been restarted.
   */
  method RebootAfterCrash(disk: OrderStore, ghost was: Views, ghost inFlight: map<string, P.Message>,
                          ghost whole: Views)
    returns (next: Registry)
    requires disk.Valid() && OwnedIDs(disk.journal)
    requires Underway(was, inFlight, whole) && CutShort(disk.journal, was, whole)
    ensures fresh(next) && next.Valid() && next.store == disk
    ensures Occurs(was, Died(inFlight), next.Overview())
  {
    hide *;
    ghost var journal := disk.journal;
    CutLogsAreHistories(journal, was, inFlight, whole);
    next := new Registry(disk, CutLogs(journal, whole));
    Reboots(journal, whole, next.Overview());
    DiedOccurs(journal, was, inFlight, whole, next.Overview());
  }

  /** A registry whose actors are all between messages is such a situation, with nothing in flight. */
  lemma NothingUnderway(registry: Registry)
    requires registry.Valid()
    ensures var v := registry.Overview(); Underway(v, map[], v) && CutShort(registry.store.journal, v, v)
  {
    hide Lawful, Seeds, Durable, WritesFor, WritesOf;
    forall t
      ensures registry.ViewOf(t).token == t && Lawful(t, registry.ViewOf(t).log)
      ensures Spans(registry.store.journal, t, registry.ViewOf(t).log, registry.ViewOf(t).log)
    {
      assert registry.Served(t);
    }
    hide *;
  }

  // ---------- any number of reboots and crashes ----------

  ghost predicate IsServerHistory(vs: seq<Views>, os: seq<Occurrence>) {
    && |vs| == |os| + 1 && (forall token :: vs[0][token] == P.State(token, [], None))
    && forall i | 0 <= i < |os| :: Occurs(vs[i], os[i], vs[i + 1])
  }

  /** What an occurrence is for one instrument, if it concerns it at all. */
  function Share(o: Occurrence, token: string): Option<Happening> {
    match o
    case Delivered(t, m, r) => if t == token then Some(Handled(m, r)) else None
    case Died(inFlight) => Some(if token in inFlight then CrashedIn(inFlight[token]) else Restarted)
  }

  function Shares(os: seq<Occurrence>, token: string): seq<Happening> {
    if os == [] then []
    else
      var past, last := Shares(os[..|os| - 1], token), Share(os[|os| - 1], token);
      if last.Some? then past + [last.value] else past
  }

  lemma ShareHappens(v: Views, o: Occurrence, v': Views, token: string)
    requires Occurs(v, o, v')
    ensures if Share(o, token).Some? then Happens(v[token], Share(o, token).value, v'[token]) else v'[token] == v[token]
  {
    hide Happens;
  }

  /** To each instrument a history of the server is a history of its own. */
  lemma {:induction false} EachHasItsHistory(vs: seq<Views>, os: seq<Occurrence>, j: nat, token: string)
    returns (states: seq<P.State>)
    requires IsServerHistory(vs, os) && j <= |os|
    ensures IsHistory(token, states, Shares(os[..j], token)) && states[|states| - 1] == vs[j][token]
  {
    hide Happens, Occurs;
    if j == 0 {
      assert os[..0] == [];
      states := [vs[0][token]];
    } else {
      var before := EachHasItsHistory(vs, os, j - 1, token);
      assert os[..j][..j - 1] == os[..j - 1];
      ShareHappens(vs[j - 1], os[j - 1], vs[j], token);
      states := if Share(os[j - 1], token).Some? then before + [vs[j][token]] else before;
    }
  }

  /**
   * The tables behind a registry, which every message, reboot and crash above keeps valid, hold for each instrument
   * the fold over exactly one fill per filled order.
   */
  lemma TablesAreExactlyOnce(registry: Registry, token: string)
    requires registry.Valid() && OwnedIDs(registry.store.journal)
    ensures var tables := Tables(registry.store.orders, registry.store.positions);
            LedgerMatchesRows(tables, token, registry.ViewOf(token).log)
  {
    hide Lawful, OwnedIDs, Keyed, LedgerMatchesRows, WritesFor, WritesOf, Durable, Seeds;
    assert registry.Served(token);
    WritesAreLogs(registry, token);
    var journal, log := registry.store.journal, registry.ViewOf(token).log;
    WritesHaveSameLength(log);
    assert journal[..|journal|] == journal && log[..|log|] == log;
    var m := StoredLedgerIsExactlyOnce(journal, |journal|, token, log);
  }
}
