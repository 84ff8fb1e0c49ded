/**
 * From the actors' histories to the tables and back: what a restart recovers
 * (internal/storage/order_store.go:64-109, 150-190; internal/instrument/actor_state.go:51-56).
 */
module Durability {
  import opened Orders
  import opened Ledger
  import opened Journal
  import opened Storage

  /** The one durable write each event makes. */
  function WriteOf(e: Event): Write {
    if e.Executed? then FillWrite(e.order, e.position) else OrderWrite(e.order)
  }

  function WritesOf(log: seq<Event>): seq<Write> {
    if log == [] then [] else WritesOf(log[..|log| - 1]) + [WriteOf(log[|log| - 1])]
  }

  lemma GrowWrites(log: seq<Event>, e: Event)
    ensures WritesOf(log + [e]) == WritesOf(log) + [WriteOf(e)]
  {
    assert (log + [e])[..|log|] == log;
  }

  /** The tables give back exactly this actor's orders and position. */
  ghost predicate Reloads(t: Tables, token: string, log: seq<Event>) {
    && RowsFor(t.orders, token) == BookOf(log)
    && LedgerOf(log) == if token in t.positions then t.positions[token] else FLAT
  }

  /** The seed holds exactly the orders and the position of a history. */
  ghost predicate Seeds(seed: InitialState, log: seq<Event>) {
    seed.position == LedgerOf(log) && Enumerates(seed.orders, BookOf(log))
  }

  lemma ReloadedSeeds(out: map<string, InitialState>, t: Tables, token: string, log: seq<Event>)
    requires Gathered(out, t.positions, t.orders) && Reloads(t, token, log)
    ensures Seeds(EntryAt(out, token), log)
  {
    hide Enumerates, RowsFor, BookOf, LedgerOf;
  }

  lemma ReloadOneMore(past: seq<Write>, token: string, earlier: seq<Event>, e: Event)
    requires Reloads(Durable(past), token, earlier)
    requires Admits(token, BookOf(earlier), LedgerOf(earlier), e)
    requires var rows := Durable(past).orders; e.order.id in rows ==> rows[e.order.id].token == token
    requires e.Executed? ==> e.position.token == token
    ensures Reloads(Durable(past + [WriteOf(e)]), token, earlier + [e])
  {
    hide ApplyFill, WouldFill, Validate, Durable, BookOf, LedgerOf, Upsert, Admits;
    GrowJournal(past, WriteOf(e), token);
    Grow(token, earlier, e);
    var rows, o := Durable(past).orders, e.order;
    EventIsSound(token, BookOf(earlier), LedgerOf(earlier), e);
    if o.id in rows {
      assert o.id in RowsFor(rows, token);
      EventAdvances(token, BookOf(earlier), LedgerOf(earlier), e);
    }
    hide RowsFor;
    UpsertRow(rows, o);
  }

  /**
   * Reload is exact: whatever the other actors wrote in between, the rows of an instrument are
   * the orders its actor had in memory, although an update writes only the status column.
   */
  lemma {:induction false} ReloadIsExact(journal: seq<Write>, token: string, log: seq<Event>)
    requires Lawful(token, log) && WritesFor(journal, token) == WritesOf(log)
    requires OwnedIDs(journal) && Keyed(journal)
    ensures Reloads(Durable(journal), token, log)
    decreases |journal|
  {
    hide Admits, Reloads;
    if journal == [] {
      assert log == [];
      EmptyReloads(token);
    } else {
      var n := |journal| - 1;
      var past, w := journal[..n], journal[n];
      assert journal == past + [w];
      GrowJournal(past, w, token);
      assert forall i | 0 <= i < |past| :: past[i] == journal[i];
      var rows := Durable(past).orders;
      if w.order.id in rows {
        RowsComeFromWrites(past, w.order.id);
      }
      if w.order.token == token {
        var earlier, e := log[..|log| - 1], log[|log| - 1];
        assert log == earlier + [e];
        var ws := WritesOf(log);
        assert ws == WritesFor(past, token) + [w] == WritesOf(earlier) + [WriteOf(e)];
        assert w == ws[|ws| - 1] == WriteOf(e);
        assert WritesFor(past, token) == ws[..|ws| - 1] == WritesOf(earlier);
        ReloadIsExact(past, token, earlier);
        ReloadOneMore(past, token, earlier, e);
      } else {
        ReloadIsExact(past, token, log);
        OtherWriteKeepsReload(past, w, token, log);
      }
    }
  }

  lemma EmptyReloads(token: string)
    ensures Reloads(Durable([]), token, [])
  {
  }

  lemma OtherWriteKeepsReload(past: seq<Write>, w: Write, token: string, log: seq<Event>)
    requires Reloads(Durable(past), token, log) && w.order.token != token
    requires var rows := Durable(past).orders; w.order.id in rows ==> rows[w.order.id].token != token
    requires w.FillWrite? ==> w.position.token != token
    ensures Reloads(Durable(past + [w]), token, log)
  {
    hide Durable, RowsFor, BookOf, LedgerOf;
    GrowJournal(past, w, token);
    OtherRowsStay(Durable(past).orders, w.order, token);
  }

  lemma OtherRowsStay(rows: map<string, Order>, o: Order, token: string)
    requires o.token != token && (o.id in rows ==> rows[o.id].token != token)
    ensures RowsFor(Upsert(rows, o), token) == RowsFor(rows, token)
  {
  }

  // ---------- exactly when reload is exact ----------

  lemma {:induction false} EventsAreInBook(log: seq<Event>, k: nat)
    requires k < |log|
    ensures |WritesOf(log)| == |log| && WritesOf(log)[k] == WriteOf(log[k])
    ensures log[k].order.id in BookOf(log)
  {
    var past := log[..|log| - 1];
    if k < |past| {
      EventsAreInBook(past, k);
    } else if past != [] {
      EventsAreInBook(past, 0);
    }
  }

  lemma {:induction false} WriteIsListed(journal: seq<Write>, i: nat)
    requires i < |journal|
    ensures journal[i] in WritesFor(journal, journal[i].order.token)
  {
    var past := journal[..|journal| - 1];
    if i < |past| {
      WriteIsListed(past, i);
    }
  }

  lemma WrittenOrderIsInBook(journal: seq<Write>, i: nat, log: seq<Event>)
    requires i < |journal| && WritesFor(journal, journal[i].order.token) == WritesOf(log)
    ensures journal[i].order.id in BookOf(log)
  {
  }

  lemma {:induction false} WritesHaveSameLength(log: seq<Event>)
    ensures |WritesOf(log)| == |log|
  {
    if log != [] {
      WritesHaveSameLength(log[..|log| - 1]);
    }
  }

  /** logs holds the lawful history of every actor that wrote to the journal. */
  ghost predicate AreHistories(journal: seq<Write>, logs: map<string, seq<Event>>) {
    && (forall token | token in logs ::
          Lawful(token, logs[token]) && WritesFor(journal, token) == WritesOf(logs[token]))
    && (forall i | 0 <= i < |journal| :: journal[i].order.token in logs)
  }

  /**
   * A restart recovers every actor exactly if and only if no order ID was used for two
   * instruments: id alone is the primary key, so a second instrument's order would only
   * overwrite the status of the first one's row.
   */
  lemma ReloadsAllIffIDsOwned(journal: seq<Write>, logs: map<string, seq<Event>>)
    requires AreHistories(journal, logs) && Keyed(journal)
    ensures (forall token | token in logs :: Reloads(Durable(journal), token, logs[token])) <==> OwnedIDs(journal)
  {
    hide Lawful;
    if OwnedIDs(journal) {
      forall token | token in logs
        ensures Reloads(Durable(journal), token, logs[token])
      {
        ReloadIsExact(journal, token, logs[token]);
      }
    } else {
      var i, j :| 0 <= i < |journal| && 0 <= j < |journal|
        && journal[i].order.id == journal[j].order.id && journal[i].order.token != journal[j].order.token;
      var a, b := journal[i].order.token, journal[j].order.token;
      WrittenOrderIsInBook(journal, i, logs[a]);
      WrittenOrderIsInBook(journal, j, logs[b]);
      assert !Reloads(Durable(journal), a, logs[a]) || !Reloads(Durable(journal), b, logs[b]);
    }
  }

  // ---------- every crash point ----------

  lemma {:induction false} WritesOfPrefix(log: seq<Event>, m: nat)
    requires m <= |log|
    ensures |WritesOf(log)| == |log| && WritesOf(log[..m]) == WritesOf(log)[..m]
  {
    WritesHaveSameLength(log);
    if m < |log| {
      var past := log[..|log| - 1];
      WritesOfPrefix(past, m);
      assert past[..m] == log[..m];
    } else {
      assert log[..m] == log;
    }
  }

  lemma {:induction false} WritesForPrefix(journal: seq<Write>, k: nat, token: string)
    requires k <= |journal|
    ensures WritesFor(journal[..k], token) <= WritesFor(journal, token)
  {
    if k < |journal| {
      var past := journal[..|journal| - 1];
      WritesForPrefix(past, k, token);
      assert past[..k] == journal[..k];
    } else {
      assert journal[..k] == journal;
    }
  }

  /** The stored position and orders of an instrument agree: one fill per Filled row, folded. */
  ghost predicate LedgerMatchesRows(t: Tables, token: string, durable: seq<Event>) {
    var pos := if token in t.positions then t.positions[token] else FLAT;
    && RowsFor(t.orders, token) == BookOf(durable)
    && pos == Fold(FillsOf(durable))
    && pos.qty == NetQty(RowsFor(t.orders, token))
    && forall id ::
         FillCount(durable, id) == if id in RowsFor(t.orders, token) && t.orders[id].status == Filled then 1 else 0
  }

  /**
   * The exactly-once ledger, in the tables: cut the interleaved writes of all actors at any
   * point, and each instrument's tables hold a prefix of its history with the ledger in step.
   */
  lemma StoredLedgerIsExactlyOnce(journal: seq<Write>, k: nat, token: string, log: seq<Event>) returns (m: nat)
    requires Lawful(token, log) && WritesFor(journal, token) == WritesOf(log)
    requires OwnedIDs(journal) && Keyed(journal) && k <= |journal|
    ensures m == |WritesFor(journal[..k], token)| <= |log| && Lawful(token, log[..m])
    ensures LedgerMatchesRows(Durable(journal[..k]), token, log[..m])
  {
    hide Lawful;
    var cut := journal[..k];
    m := |WritesFor(cut, token)|;
    WritesForPrefix(journal, k, token);
    WritesHaveSameLength(log);
    WritesOfPrefix(log, m);
    PrefixIsLawful(token, log, m);
    assert forall i | 0 <= i < k :: cut[i] == journal[i];
    ReloadIsExact(cut, token, log[..m]);
    ExactlyOnceLedger(token, log, m);
  }

  /** Cut the shared journal anywhere: what is left is made of prefixes of the instruments' histories. */
  lemma CutHistories(journal: seq<Write>, k: nat, logs: map<string, seq<Event>>) returns (cut: map<string, seq<Event>>)
    requires AreHistories(journal, logs) && k <= |journal|
    ensures AreHistories(journal[..k], cut) && cut.Keys == logs.Keys
    ensures forall token | token in cut :: cut[token] <= logs[token]
  {
    hide Lawful, WritesFor, WritesOf;
    var kept := journal[..k];
    cut := map token | token in logs :: HistoryIn(kept, token, logs[token]);
    forall token | token in logs
      ensures cut[token] <= logs[token]
      ensures Lawful(token, cut[token]) && WritesFor(kept, token) == WritesOf(cut[token])
    {
      WritesForPrefix(journal, k, token);
      WritesHaveSameLength(logs[token]);
      var m := |WritesFor(kept, token)|;
      WritesOfPrefix(logs[token], m);
      PrefixIsLawful(token, logs[token], m);
    }
    assert forall i | 0 <= i < k :: kept[i] == journal[i];
  }

  /** The part of a history that the writes in a journal cover. */
  function HistoryIn(journal: seq<Write>, token: string, log: seq<Event>): seq<Event> {
    var m := |WritesFor(journal, token)|;
    if m <= |log| then log[..m] else log
  }
}
