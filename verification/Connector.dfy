/** The in-process rail connector: authorize, capture and refund over the store, the tracker and
the audit log. */
module Connector {
  import opened Wrappers
  import opened Rail
  import opened Store
  import opened Settlement

  datatype Input = Input(paymentId: string, amount: Money, currency: string, payerRef: string, idempotencyKey: string)

  datatype Response = Response(status: Status, railRef: string, errorCode: string, errorMessage: string)

  /** Everything the payment operations read and change. */
  datatype World = World(store: MemState, totals: map<string, Money>, log: seq<Event>, fail: bool)

  function Failure(code: string, message: string): Response {
    Response(FAILED, "", code, message)
  }

  function Quoted(s: string): string {
    "\"" + s + "\""
  }

  function EventOf(rail: string, p: string, op: string, status: Status, amount: Money): Event {
    Event("rail." + op, p, rail, op, status, amount, UNSET)
  }

  function Emitted(w: World, e: Event, now: Time): World {
    w.(log := w.log + [Stamped(e, now)])
  }

  function NewRecord(rail: string, input: Input, ref: string): Record {
    Record(input.paymentId, rail, "authorize", input.amount, input.currency, AUTHORIZED, input.idempotencyKey, ref, "", "",
           UNSET, UNSET)
  }

  /** `ref` is the reference the rail generates. */
  function Authorized(rail: string, w: World, input: Input, ref: string, t: Tick): (World, Response) {
    var p := input.paymentId;
    if p == "" then (w, Failure(INVALID_REQUEST, "missing payment_id"))
    else if w.fail then
      (Emitted(w, EventOf(rail, p, "authorize", FAILED, input.amount), t.emitted),
       Failure(RAIL_UNAVAILABLE, "dummy rail forced failure"))
    else
      (Emitted(w.(store := Upserted(w.store, NewRecord(rail, input, ref), t.updated)),
               EventOf(rail, p, "authorize", AUTHORIZED, input.amount), t.emitted),
       Response(AUTHORIZED, ref, "", ""))
  }

  /** Capture and refund have the same shape: they differ in the statuses they start from, the
      one they leave, and the sign of the amount the tracker gets. */
  datatype Movement = Capture | Refund

  function OpOf(m: Movement): string {
    if m.Capture? then "capture" else "refund"
  }

  function TargetOf(m: Movement): Status {
    if m.Capture? then CAPTURED else REFUNDED
  }

  predicate MayStart(m: Movement, status: Status) {
    if m.Capture? then status == AUTHORIZED else status == CAPTURED || status == SETTLED
  }

  function Signed(m: Movement, amount: Money): Money {
    if m.Capture? then amount else -amount
  }

  function Moved(rail: string, w: World, m: Movement, p: string, amount: Money, t: Tick): (World, Response) {
    if p == "" then (w, Failure(INVALID_REQUEST, "missing payment_id"))
    else if w.fail then
      (Emitted(w, EventOf(rail, p, OpOf(m), FAILED, amount), t.emitted),
       Failure(RAIL_UNAVAILABLE, "dummy rail forced failure"))
    else if p !in w.store.requests then (w, Failure(INVALID_REQUEST, "unknown payment_id"))
    else
      var rec := w.store.requests[p];
      if !MayStart(m, rec.status) then
        (w, Failure(INVALID_REQUEST, Refusal(m, rec.status)))
      else
        (Committed(rail, w, m, p, amount, t), Response(TargetOf(m), rec.railRef, "", ""))
  }

  function Refusal(m: Movement, status: Status): string {
    (if m.Capture? then "cannot capture from status " else "cannot refund from status ") + Quoted(status)
  }

  /** The three effects of a movement that goes through: status, tracker, audit event. */
  function Committed(rail: string, w: World, m: Movement, p: string, amount: Money, t: Tick): World {
    Emitted(w.(store := WithStatus(w.store, p, TargetOf(m), "", "", t.updated),
               totals := Added(w.totals, rail, Signed(m, amount))),
            EventOf(rail, p, OpOf(m), TargetOf(m), amount), t.emitted)
  }

  class Connector {
    const rail: string
    const store: MemStore
    const tracker: Tracker
    const audit: Recorder
    var failFlag: bool

    constructor (rail: string, store: MemStore, tracker: Tracker, audit: Recorder, fail: bool)
      requires store.Valid()
      ensures this.store == store && this.tracker == tracker && this.audit == audit && failFlag == fail
      ensures this.rail == if rail == "" then "dummy" else rail
    {
      this.rail := if rail == "" then "dummy" else rail;
      this.store, this.tracker, this.audit, failFlag := store, tracker, audit, fail;
    }

    function View(): World
      reads this, store, store.requests.Values, tracker, audit
    {
      World(store.View(), tracker.totals, audit.events, failFlag)
    }

    method SetFail(b: bool)
      modifies this
      ensures View() == old(View()).(fail := b)
    {
      failFlag := b;
    }

    method Authorize(input: Input, ref: string, t: Tick) returns (r: Response)
      requires store.Valid()
      modifies store, audit
      ensures store.Valid() && fresh(store.requests.Values - old(store.requests.Values))
      ensures (View(), r) == Authorized(rail, old(View()), input, ref, t)
    {
      if input.paymentId == "" {
        return Failure(INVALID_REQUEST, "missing payment_id");
      }
      if failFlag {
        audit.Emit(EventOf(rail, input.paymentId, "authorize", FAILED, input.amount), t.emitted);
        return Failure(RAIL_UNAVAILABLE, "dummy rail forced failure");
      }
      store.Upsert(NewRecord(rail, input, ref), t.updated);
      audit.Emit(EventOf(rail, input.paymentId, "authorize", AUTHORIZED, input.amount), t.emitted);
      return Response(AUTHORIZED, ref, "", "");
    }

    method Commit(m: Movement, p: string, amount: Money, t: Tick)
      requires store.Valid()
      modifies store.requests.Values, tracker, audit
      ensures store.Valid() && View() == Committed(rail, old(View()), m, p, amount, t)
    {
      var _ := store.SetStatus(p, TargetOf(m), "", "", t.updated);
      Book(m, p, amount, t.emitted);
    }

    /** The tracker and the log take the movement; the store is left alone. */
    method Book(m: Movement, p: string, amount: Money, now: Time)
      requires store.Valid()
      modifies tracker, audit
      ensures store.Valid() && store.View() == old(store.View())
      ensures tracker.totals == Added(old(tracker.totals), rail, Signed(m, amount))
      ensures audit.events == old(audit.events) + [Stamped(EventOf(rail, p, OpOf(m), TargetOf(m), amount), now)]
    {
      if m.Capture? {
        tracker.RecordCapture(rail, amount);
      } else {
        tracker.RecordRefund(rail, amount);
      }
      audit.Emit(EventOf(rail, p, OpOf(m), TargetOf(m), amount), now);
    }

    method DoCapture(p: string, amount: Money, t: Tick) returns (r: Response)
      requires store.Valid()
      modifies store.requests.Values, tracker, audit
      ensures store.Valid() && (View(), r) == Moved(rail, old(View()), Capture, p, amount, t)
    {
      if p == "" {
        return Failure(INVALID_REQUEST, "missing payment_id");
      }
      if failFlag {
        audit.Emit(EventOf(rail, p, "capture", FAILED, amount), t.emitted);
        return Failure(RAIL_UNAVAILABLE, "dummy rail forced failure");
      }
      var rec := store.Get(p);
      if rec.None? {
        return Failure(INVALID_REQUEST, "unknown payment_id");
      }
      if rec.value.status != AUTHORIZED {
        return Failure(INVALID_REQUEST, Refusal(Capture, rec.value.status));
      }
      Commit(Capture, p, amount, t);
      return Response(CAPTURED, rec.value.railRef, "", "");
    }

    method DoRefund(p: string, amount: Money, t: Tick) returns (r: Response)
      requires store.Valid()
      modifies store.requests.Values, tracker, audit
      ensures store.Valid() && (View(), r) == Moved(rail, old(View()), Refund, p, amount, t)
    {
      if p == "" {
        return Failure(INVALID_REQUEST, "missing payment_id");
      }
      if failFlag {
        audit.Emit(EventOf(rail, p, "refund", FAILED, amount), t.emitted);
        return Failure(RAIL_UNAVAILABLE, "dummy rail forced failure");
      }
      var rec := store.Get(p);
      if rec.None? {
        return Failure(INVALID_REQUEST, "unknown payment_id");
      }
      if rec.value.status != CAPTURED && rec.value.status != SETTLED {
        return Failure(INVALID_REQUEST, Refusal(Refund, rec.value.status));
      }
      Commit(Refund, p, amount, t);
      return Response(REFUNDED, rec.value.railRef, "", "");
    }

    method GetStatus(p: string) returns (r: Result<Status, Error>)
      requires store.Valid()
      ensures p == "" ==> r == Err(RailError(INVALID_REQUEST, "missing payment_id"))
      ensures p != "" && p !in View().store.requests ==> r == Err(RailError(INVALID_REQUEST, "unknown payment_id"))
      ensures p != "" && p in View().store.requests ==> r == Ok(View().store.requests[p].status)
    {
      if p == "" {
        return Err(RailError(INVALID_REQUEST, "missing payment_id"));
      }
      var rec := store.Get(p);
      if rec.None? {
        return Err(RailError(INVALID_REQUEST, "unknown payment_id"));
      }
      return Ok(rec.value.status);
    }
  }

  // ---------------------------------------------------------------- what the operations amount to

  /** When a capture or refund goes through. */
  predicate GoesThrough(w: World, m: Movement, p: string) {
    p != "" && !w.fail && p in w.store.requests && MayStart(m, w.store.requests[p].status)
  }

  /** The answer names the target status exactly when the movement goes through; otherwise it is
      a failure with a code, and neither store nor tracker has changed. */
  lemma MoveAnswer(rail: string, w: World, m: Movement, p: string, amount: Money, t: Tick)
    ensures var (w', r) := Moved(rail, w, m, p, amount, t);
            && (r.status == TargetOf(m) <==> GoesThrough(w, m, p))
            && (!GoesThrough(w, m, p) ==>
                  r.status == FAILED && r.errorCode != "" && w'.store == w.store && w'.totals == w.totals)
  {
  }

  /** A movement that went through moves one row and one total, and cannot be repeated at once. */
  lemma MoveOnce(rail: string, w: World, m: Movement, p: string, amount: Money, t: Tick, again: Money, t': Tick)
    requires GoesThrough(w, m, p)
    ensures var w' := Moved(rail, w, m, p, amount, t).0;
            && w'.store.requests.Keys == w.store.requests.Keys && w'.store.requests[p].status == TargetOf(m)
            && (forall q :: q in w.store.requests && q != p ==> w'.store.requests[q] == w.store.requests[q])
            && (forall r :: Total(w'.totals, r) == Total(w.totals, r) + if r == rail then Signed(m, amount) else 0.0)
            && !GoesThrough(w', m, p) && Moved(rail, w', m, p, again, t').0 == w'
  {
  }

  /** Authorize, capture and refund of the same amount all go through and leave every total where
      it was. */
  lemma RefundUndoesCapture(rail: string, w: World, input: Input, ref: string, amount: Money, t: Tick, t': Tick, t'': Tick)
    requires input.paymentId != "" && !w.fail
    ensures var p := input.paymentId;
            var (w1, r1) := Authorized(rail, w, input, ref, t);
            var (w2, r2) := Moved(rail, w1, Capture, p, amount, t');
            var (w3, r3) := Moved(rail, w2, Refund, p, amount, t'');
            && r1.status == AUTHORIZED && r2.status == CAPTURED && r3.status == REFUNDED
            && r2.railRef == r3.railRef == ref
            && forall r :: Total(w3.totals, r) == Total(w.totals, r)
  {
    var p := input.paymentId;
    var w1 := Authorized(rail, w, input, ref, t).0;
    MoveOnce(rail, w1, Capture, p, amount, t', amount, t'');
    var w2 := Moved(rail, w1, Capture, p, amount, t').0;
    MoveOnce(rail, w2, Refund, p, amount, t'', amount, t'');
  }
}
