/** The audit log, the per-rail tracker and the batch matcher. */
module Settlement {
  import opened Wrappers
  import opened Rail
  import opened Store

  // ---------------------------------------------------------------- audit log

  datatype Event = Event(
    kind: string, paymentId: string, rail: string, operation: string, status: Status, amount: Money, occurredAt: Time)

  function Stamped(e: Event, now: Time): Event {
    if e.occurredAt == UNSET then e.(occurredAt := now) else e
  }

  class Recorder {
    var events: seq<Event>

    constructor ()
      ensures events == []
    {
      events := [];
    }

    method Emit(e: Event, now: Time)
      modifies this
      ensures events == old(events) + [Stamped(e, now)]
    {
      var stamped := e;
      if stamped.occurredAt == UNSET {
        stamped := stamped.(occurredAt := now);
      }
      events := events + [stamped];
    }
  }

  // ---------------------------------------------------------------- tracker

  function Total(totals: map<string, Money>, rail: string): Money {
    if rail in totals then totals[rail] else 0.0
  }

  function Added(totals: map<string, Money>, rail: string, amount: Money): map<string, Money> {
    totals[rail := Total(totals, rail) + amount]
  }

  class Tracker {
    var totals: map<string, Money>

    constructor ()
      ensures totals == map[]
    {
      totals := map[];
    }

    method RecordCapture(rail: string, amount: Money)
      modifies this
      ensures totals == Added(old(totals), rail, amount)
    {
      totals := totals[rail := (if rail in totals then totals[rail] else 0.0) + amount];
    }

    method RecordRefund(rail: string, amount: Money)
      modifies this
      ensures totals == Added(old(totals), rail, -amount)
    {
      totals := totals[rail := (if rail in totals then totals[rail] else 0.0) - amount];
    }

    method RecordSettle(e: SettleEntry, store: MemStore, now: Time, later: Time)
      requires store.Valid()
      modifies this, store, store.requests.Values
      ensures store.Valid() && store.View() == Settled(old(store.View()), e, now, later)
      ensures totals == Added(old(totals), e.rail, e.amount)
    {
      totals := totals[e.rail := (if e.rail in totals then totals[e.rail] else 0.0) + e.amount];
      store.AddSettle(e, now, later);
    }
  }

  // ---------------------------------------------------------------- matcher

  datatype Line = Line(paymentId: string, rail: string, amount: Money, currency: string, settledAt: Time, sourceRef: string)

  datatype MatchResult = MatchResult(entry: Line, matched: bool, error: Option<Error>)

  /** The clock readings one matched line takes. */
  datatype Tick = Tick(settled: Time, updated: Time, emitted: Time)

  /** The store and the audit log the matcher works on. */
  datatype Books = Books(store: MemState, log: seq<Event>)

  function Entry(e: Line): SettleEntry {
    SettleEntry("settle-" + e.paymentId, e.rail, e.paymentId, e.amount, e.currency, e.settledAt, e.sourceRef)
  }

  function BreakError(e: Line): Error {
    RailError(SETTLEMENT_BREAK, "no rail_requests row for payment_id " + e.paymentId)
  }

  function BreakEvent(e: Line): Event {
    Event("rail.settlement.break", e.paymentId, e.rail, "settle", FAILED, e.amount, UNSET)
  }

  function CompletedEvent(e: Line): Event {
    Event("rail.settlement.completed", e.paymentId, e.rail, "settle", SETTLED, e.amount, UNSET)
  }

  function MatchOne(b: Books, e: Line, t: Tick): (Books, MatchResult) {
    if e.paymentId !in b.store.requests then
      (b.(log := b.log + [Stamped(BreakEvent(e), t.emitted)]), MatchResult(e, false, Some(BreakError(e))))
    else
      (Books(Settled(b.store, Entry(e), t.settled, t.updated), b.log + [Stamped(CompletedEvent(e), t.emitted)]),
       MatchResult(e, true, None))
  }

  function MatchAll(b: Books, entries: seq<Line>, ticks: seq<Tick>): (Books, seq<MatchResult>)
    requires |entries| == |ticks|
  {
    if entries == [] then (b, [])
    else
      var n := |entries| - 1;
      var (b', results) := MatchAll(b, entries[..n], ticks[..n]);
      var (b'', result) := MatchOne(b', entries[n], ticks[n]);
      (b'', results + [result])
  }

  method MatchEntries(store: MemStore, log: Recorder, entries: seq<Line>, ticks: seq<Tick>) returns (results: seq<MatchResult>)
    requires store.Valid() && |entries| == |ticks|
    modifies store, store.requests.Values, log
    ensures store.Valid() && store.requests == old(store.requests)
    ensures var r := MatchAll(Books(old(store.View()), old(log.events)), entries, ticks);
            Books(store.View(), log.events) == r.0 && results == r.1
  {
    results := [];
    ghost var start := Books(store.View(), log.events);
    ghost var r := (start, []);
    var i := 0;
    while i < |entries|
      invariant 0 <= i <= |entries| && store.Valid() && store.requests == old(store.requests)
      invariant r == MatchAll(start, entries[..i], ticks[..i])
      invariant store.View() == r.0.store && log.events == r.0.log
      invariant results == r.1
    {
      MatchAllStep(start, entries, ticks, i);
      ghost var one := MatchOne(r.0, entries[i], ticks[i]);
      var result := MatchLine(store, log, entries[i], ticks[i]);
      results := results + [result];
      r := (one.0, r.1 + [one.1]);
      i := i + 1;
    }
    assert entries[..i] == entries && ticks[..i] == ticks;
  }

  method MatchLine(store: MemStore, log: Recorder, e: Line, t: Tick) returns (result: MatchResult)
    requires store.Valid()
    modifies store, store.requests.Values, log
    ensures store.Valid() && store.requests == old(store.requests)
    ensures var r := MatchOne(Books(old(store.View()), old(log.events)), e, t);
            Books(store.View(), log.events) == r.0 && result == r.1
  {
    ghost var b := Books(store.View(), log.events);
    var rec := store.Get(e.paymentId);
    if rec.None? {
      assert e.paymentId !in b.store.requests;
      log.Emit(BreakEvent(e), t.emitted);
      return MatchResult(e, false, Some(BreakError(e)));
    }
    assert e.paymentId in b.store.requests;
    store.AddSettle(Entry(e), t.settled, t.updated);
    assert store.View() == Settled(b.store, Entry(e), t.settled, t.updated);
    log.Emit(CompletedEvent(e), t.emitted);
    return MatchResult(e, true, None);
  }

  lemma MatchAllStep(b: Books, entries: seq<Line>, ticks: seq<Tick>, i: nat)
    requires |entries| == |ticks| && i < |entries|
    ensures var before := MatchAll(b, entries[..i], ticks[..i]);
            var one := MatchOne(before.0, entries[i], ticks[i]);
            MatchAll(b, entries[..i + 1], ticks[..i + 1]) == (one.0, before.1 + [one.1])
  {
    assert entries[..i + 1][..i] == entries[..i] && ticks[..i + 1][..i] == ticks[..i];
  }
}
