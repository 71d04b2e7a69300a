/** The audit log is enough to rebuild the books. */
module Replay {
  import opened Wrappers
  import opened Rail
  import opened Store
  import opened Settlement
  import opened Matcher
  import opened Connector
  import opened Server

  // ---------------------------------------------------------------- reading the log

  /** The status an event gives its payment, and whether it does so to payments not seen before. */
  function Replayed(statuses: map<string, Status>, e: Event): map<string, Status> {
    if e.kind == "rail.webhook" then
      if e.paymentId in statuses then statuses[e.paymentId := e.status] else statuses
    else if e.kind == "rail.settlement.break" || e.status == FAILED then statuses
    else statuses[e.paymentId := e.status]
  }

  function Statuses(log: seq<Event>): map<string, Status> {
    if log == [] then map[] else Replayed(Statuses(log[..|log| - 1]), log[|log| - 1])
  }

  function LogSettled(log: seq<Event>, p: string): Money {
    if log == [] then 0.0
    else
      var e := log[|log| - 1];
      LogSettled(log[..|log| - 1], p) + if e.kind == "rail.settlement.completed" && e.paymentId == p then e.amount else 0.0
  }

  predicate IsCapture(e: Event) {
    e.kind == "rail.capture" && e.status == CAPTURED
  }

  predicate IsRefund(e: Event) {
    e.kind == "rail.refund" && e.status == REFUNDED
  }

  predicate IsAuthorize(e: Event) {
    e.kind == "rail.authorize" && e.status == AUTHORIZED
  }

  /** What an event moves on the tracker of a rail. */
  function Moves(e: Event, rail: string): Money {
    if e.rail != rail then 0.0 else if IsCapture(e) then e.amount else if IsRefund(e) then -e.amount else 0.0
  }

  function LogTotal(log: seq<Event>, rail: string): Money {
    if log == [] then 0.0 else LogTotal(log[..|log| - 1], rail) + Moves(log[|log| - 1], rail)
  }

  function StatusMap(requests: map<string, Record>): map<string, Status> {
    map p | p in requests :: requests[p].status
  }

  function At(statuses: map<string, Status>, p: string): Option<Status> {
    if p in statuses then Some(statuses[p]) else None
  }

  // ---------------------------------------------------------------- the discipline of the log

  /** Only authorizations, captures, settlements and webhooks write these statuses. */
  predicate KnownKind(e: Event) {
    && (e.status == AUTHORIZED ==> e.kind == "rail.authorize" || e.kind == "rail.webhook")
    && (e.status == CAPTURED ==> e.kind == "rail.capture" || e.kind == "rail.webhook")
    && (e.status == SETTLED ==> e.kind == "rail.settlement.completed" || e.kind == "rail.webhook")
  }

  /** Captures and refunds appear in the log only where the log itself allows them. */
  predicate EventAllowed(statuses: map<string, Status>, e: Event) {
    && KnownKind(e)
    && (IsCapture(e) ==> e.paymentId in statuses && statuses[e.paymentId] == AUTHORIZED)
    && (IsRefund(e) ==> e.paymentId in statuses && (statuses[e.paymentId] == CAPTURED || statuses[e.paymentId] == SETTLED))
  }

  predicate Disciplined(log: seq<Event>) {
    forall i :: 0 <= i < |log| ==> EventAllowed(Statuses(log[..i]), log[i])
  }

  lemma LogSnoc(log: seq<Event>, e: Event)
    ensures Statuses(log + [e]) == Replayed(Statuses(log), e)
    ensures forall p :: LogSettled(log + [e], p) ==
              LogSettled(log, p) + if e.kind == "rail.settlement.completed" && e.paymentId == p then e.amount else 0.0
    ensures forall r :: LogTotal(log + [e], r) == LogTotal(log, r) + Moves(e, r)
    ensures Disciplined(log) && EventAllowed(Statuses(log), e) ==> Disciplined(log + [e])
  {
    var all := log + [e];
    assert all[..|log|] == log;
    if Disciplined(log) && EventAllowed(Statuses(log), e) {
      forall i | 0 <= i < |all| ensures EventAllowed(Statuses(all[..i]), all[i]) {
        if i < |log| {
          assert all[..i] == log[..i];
        }
      }
    }
  }

  lemma DisciplinedInit(log: seq<Event>, e: Event)
    requires Disciplined(log + [e])
    ensures Disciplined(log) && EventAllowed(Statuses(log), e)
  {
    var all := log + [e];
    assert all[..|log|] == log && all[|log|] == e;
    forall i | 0 <= i < |log| ensures EventAllowed(Statuses(log[..i]), log[i]) {
      assert all[..i] == log[..i] && all[i] == log[i];
    }
  }

  // ---------------------------------------------------------------- the invariant of every run

  /** The log rebuilds the statuses, the settled totals and the tracker; only known statuses are
      stored; captures and refunds happened where they were allowed. */
  ghost predicate Faithful(w: World) {
    && Statuses(w.log) == StatusMap(w.store.requests)
    && (forall p :: LogSettled(w.log, p) == SettledTotal(w.store.settles, p))
    && (forall r :: LogTotal(w.log, r) == Total(w.totals, r))
    && (forall p :: p in w.store.requests ==> ValidStatus(w.store.requests[p].status))
    && Disciplined(w.log)
  }

  lemma StatusMapUpdate(requests: map<string, Record>, p: string, r: Record)
    ensures StatusMap(requests[p := r]) == StatusMap(requests)[p := r.status]
  {
  }

  /** An operation that logs one event keeps the books faithful when it changes statuses, settled
      totals and tracker as that event says. */
  lemma FaithfulEvent(w: World, w': World, e: Event)
    requires Faithful(w) && w'.log == w.log + [e]
    requires StatusMap(w'.store.requests) == Replayed(StatusMap(w.store.requests), e)
    requires forall p :: SettledTotal(w'.store.settles, p) == SettledTotal(w.store.settles, p)
                         + if e.kind == "rail.settlement.completed" && e.paymentId == p then e.amount else 0.0
    requires forall r :: Total(w'.totals, r) == Total(w.totals, r) + Moves(e, r)
    requires forall p :: p in w'.store.requests ==> ValidStatus(w'.store.requests[p].status)
    requires EventAllowed(StatusMap(w.store.requests), e)
    ensures Faithful(w')
  {
    LogSnoc(w.log, e);
  }

  lemma KindOfAuthorize(rail: string, p: string, status: Status, amount: Money)
    requires status == AUTHORIZED || status == FAILED
    ensures var e := EventOf(rail, p, "authorize", status, amount);
            && e.kind == "rail.authorize" && (IsAuthorize(e) <==> status == AUTHORIZED)
            && !IsCapture(e) && !IsRefund(e) && KnownKind(e)
            && e.kind != "rail.webhook" && e.kind != "rail.settlement.break" && e.kind != "rail.settlement.completed"
  {
  }

  lemma FaithfulAuthorize(rail: string, w: World, input: Input, ref: string, t: Tick)
    requires Faithful(w)
    ensures Faithful(Authorized(rail, w, input, ref, t).0)
  {
    var w' := Authorized(rail, w, input, ref, t).0;
    if input.paymentId != "" {
      if w.fail {
        KindOfAuthorize(rail, input.paymentId, FAILED, input.amount);
        FaithfulEvent(w, w', Stamped(EventOf(rail, input.paymentId, "authorize", FAILED, input.amount), t.emitted));
      } else {
        FaithfulNew(rail, w, input, ref, t);
      }
    }
  }

  lemma FaithfulNew(rail: string, w: World, input: Input, ref: string, t: Tick)
    requires Faithful(w) && input.paymentId != "" && !w.fail
    ensures Faithful(Authorized(rail, w, input, ref, t).0)
  {
    var w' := Authorized(rail, w, input, ref, t).0;
    KindOfAuthorize(rail, input.paymentId, AUTHORIZED, input.amount);
    StatusMapUpdate(w.store.requests, input.paymentId, w'.store.requests[input.paymentId]);
    FaithfulEvent(w, w', Stamped(EventOf(rail, input.paymentId, "authorize", AUTHORIZED, input.amount), t.emitted));
  }

  lemma FaithfulMove(rail: string, w: World, m: Movement, p: string, amount: Money, t: Tick)
    requires Faithful(w)
    ensures Faithful(Moved(rail, w, m, p, amount, t).0)
  {
    var w' := Moved(rail, w, m, p, amount, t).0;
    if p != "" && w.fail {
      KindOfMove(rail, p, m, FAILED, amount);
      FaithfulEvent(w, w', Stamped(EventOf(rail, p, OpOf(m), FAILED, amount), t.emitted));
    } else if p != "" && p in w.store.requests && MayStart(m, w.store.requests[p].status) {
      FaithfulCommit(rail, w, m, p, amount, t);
    }
  }

  lemma FaithfulCommit(rail: string, w: World, m: Movement, p: string, amount: Money, t: Tick)
    requires Faithful(w) && p in w.store.requests && MayStart(m, w.store.requests[p].status)
    ensures Faithful(Committed(rail, w, m, p, amount, t))
  {
    var w' := Committed(rail, w, m, p, amount, t);
    var e := Stamped(EventOf(rail, p, OpOf(m), TargetOf(m), amount), t.emitted);
    StatusMapUpdate(w.store.requests, p, w'.store.requests[p]);
    KindOfMove(rail, p, m, TargetOf(m), amount);
    FaithfulEvent(w, w', e);
  }

  lemma KindOfMove(rail: string, p: string, m: Movement, status: Status, amount: Money)
    ensures var e := EventOf(rail, p, OpOf(m), status, amount);
            && e.kind == (if m.Capture? then "rail.capture" else "rail.refund")
            && (IsCapture(e) <==> m.Capture? && status == CAPTURED) && (IsRefund(e) <==> m.Refund? && status == REFUNDED)
            && e.kind != "rail.webhook" && e.kind != "rail.settlement.break" && e.kind != "rail.settlement.completed"
  {
  }

  lemma FaithfulWebhook(w: World, rail: string, p: string, status: Status, t: Tick)
    requires Faithful(w)
    ensures Faithful(Webhooked(w, rail, p, status, t).0)
  {
    var w' := Webhooked(w, rail, p, status, t).0;
    if w' != w {
      if p in w.store.requests {
        StatusMapUpdate(w.store.requests, p, w'.store.requests[p]);
      }
      FaithfulEvent(w, w', Stamped(WebhookEvent(rail, p, status), t.emitted));
    }
  }

  lemma FaithfulLine(w: World, e: Line, t: Tick)
    requires Faithful(w)
    ensures var b := MatchOne(Books(w.store, w.log), e, t).0;
            Faithful(w.(store := b.store, log := b.log))
  {
    var b := MatchOne(Books(w.store, w.log), e, t).0;
    var w' := w.(store := b.store, log := b.log);
    if e.paymentId in w.store.requests {
      SettledSnoc(w.store.settles, Entry(e).(settledAt := t.settled));
      StatusMapUpdate(w.store.requests, e.paymentId, w'.store.requests[e.paymentId]);
      FaithfulEvent(w, w', Stamped(CompletedEvent(e), t.emitted));
    } else {
      FaithfulEvent(w, w', Stamped(BreakEvent(e), t.emitted));
    }
  }

  lemma {:induction false} FaithfulMatch(w: World, entries: seq<Line>, ticks: seq<Tick>)
    requires Faithful(w) && |entries| == |ticks|
    ensures var b := MatchAll(Books(w.store, w.log), entries, ticks).0;
            Faithful(w.(store := b.store, log := b.log))
  {
    if entries != [] {
      var n := |entries| - 1;
      FaithfulMatch(w, entries[..n], ticks[..n]);
      var b := MatchAll(Books(w.store, w.log), entries[..n], ticks[..n]).0;
      FaithfulLine(w.(store := b.store, log := b.log), entries[n], ticks[n]);
    }
  }

  /** The failure switch is no part of the books. */
  lemma FaithfulSwitch(w: World, fail: bool)
    requires Faithful(w)
    ensures Faithful(w.(fail := fail))
  {
  }

  lemma FaithfulStep(rail: string, w: World, op: Op)
    requires Faithful(w) && OpOk(op)
    ensures Faithful(Step(rail, w, op))
  {
    match op
    case DoAuthorize(input, fail, ref, t) =>
      FaithfulSwitch(w, w.fail || fail);
      FaithfulAuthorize(rail, w.(fail := w.fail || fail), input, ref, t);
    case DoMove(m, p, amount, t) =>
      FaithfulMove(rail, w, m, p, amount, t);
    case DoWebhook(webhookRail, p, status, t) =>
      FaithfulWebhook(w, webhookRail, p, status, t);
    case DoMatch(entries, ticks) =>
      FaithfulMatch(w, entries, ticks);
    case DoSetFail(fail) =>
      FaithfulSwitch(w, fail);
  }

  /** After every run of requests, webhooks and settlement batches, the log alone rebuilds the
      status of every payment, every settled total and the tracker. */
  lemma {:induction false} LogIsFaithful(rail: string, ops: seq<Op>)
    requires OpsOk(ops)
    ensures Faithful(Run(rail, ops))
  {
    if ops != [] {
      LogIsFaithful(rail, ops[..|ops| - 1]);
      FaithfulStep(rail, Run(rail, ops[..|ops| - 1]), ops[|ops| - 1]);
    }
  }

  // ---------------------------------------------------------------- counting

  function Count(log: seq<Event>, p: string, op: string, status: Status): nat {
    if log == [] then 0
    else
      var e := log[|log| - 1];
      Count(log[..|log| - 1], p, op, status) + if e.paymentId == p && e.kind == op && e.status == status then 1 else 0
  }

  function Authorizations(log: seq<Event>, p: string): nat { Count(log, p, "rail.authorize", AUTHORIZED) }

  function Captures(log: seq<Event>, p: string): nat { Count(log, p, "rail.capture", CAPTURED) }

  function Refunds(log: seq<Event>, p: string): nat { Count(log, p, "rail.refund", REFUNDED) }

  /** How often the log moved the payment this way. */
  function Used(log: seq<Event>, p: string, m: Movement): nat {
    if m.Capture? then Captures(log, p) else Refunds(log, p)
  }

  /** How often the step before it in the life of a payment was taken: an authorization before a
      capture, a capture before a refund. */
  function Granted(log: seq<Event>, p: string, m: Movement): nat {
    if m.Capture? then Authorizations(log, p) else Captures(log, p)
  }

  /** How often something else put the payment into a status the movement starts from: webhooks
      before a capture, webhooks and settlements before a refund. */
  function Reopenings(log: seq<Event>, p: string, m: Movement): nat {
    if m.Capture? then Count(log, p, "rail.webhook", AUTHORIZED)
    else Count(log, p, "rail.webhook", CAPTURED) + Count(log, p, "rail.webhook", SETTLED)
         + Count(log, p, "rail.settlement.completed", SETTLED)
  }

  predicate Uses(e: Event, m: Movement) {
    if m.Capture? then IsCapture(e) else IsRefund(e)
  }

  predicate Grants(e: Event, m: Movement) {
    if m.Capture? then IsAuthorize(e) else IsCapture(e)
  }

  predicate Reopens(e: Event, m: Movement) {
    MayStart(m, e.status) && (e.kind == "rail.webhook" || (m.Refund? && e.kind == "rail.settlement.completed" && e.status == SETTLED))
  }

  lemma TallySnoc(log: seq<Event>, e: Event, p: string, m: Movement)
    ensures Used(log + [e], p, m) == Used(log, p, m) + if e.paymentId == p && Uses(e, m) then 1 else 0
    ensures Granted(log + [e], p, m) == Granted(log, p, m) + if e.paymentId == p && Grants(e, m) then 1 else 0
    ensures Reopenings(log + [e], p, m) == Reopenings(log, p, m) + if e.paymentId == p && Reopens(e, m) then 1 else 0
  {
    assert (log + [e])[..|log|] == log;
  }

  /** By the log, the movement could start now. */
  predicate Open(log: seq<Event>, p: string, m: Movement) {
    p in Statuses(log) && MayStart(m, Statuses(log)[p])
  }

  lemma OpenSnoc(log: seq<Event>, e: Event, p: string, m: Movement)
    requires EventAllowed(Statuses(log), e)
    ensures e.paymentId == p && Uses(e, m) ==> Open(log, p, m) && !Open(log + [e], p, m) && !Grants(e, m) && !Reopens(e, m)
    ensures Open(log + [e], p, m) && !Open(log, p, m) ==> e.paymentId == p && (Grants(e, m) || Reopens(e, m))
  {
    LogSnoc(log, e);
  }

  predicate Bounded(log: seq<Event>, p: string, m: Movement) {
    Used(log, p, m) + (if Open(log, p, m) then 1 else 0) <= Granted(log, p, m) + Reopenings(log, p, m)
  }

  lemma BoundedSnoc(log: seq<Event>, e: Event, p: string, m: Movement)
    requires Bounded(log, p, m) && EventAllowed(Statuses(log), e)
    ensures Bounded(log + [e], p, m)
  {
    TallySnoc(log, e, p, m);
    OpenSnoc(log, e, p, m);
  }

  /** Every capture uses up an authorization or a webhook that set the payment back to
      authorized; every refund a capture, or a webhook or settlement that made the payment
      captured or settled. While the movement may still start, one of them is left over. */
  lemma {:induction false} MovesBounded(log: seq<Event>, p: string, m: Movement)
    requires Disciplined(log)
    ensures Bounded(log, p, m)
  {
    if log != [] {
      var init, e := log[..|log| - 1], log[|log| - 1];
      assert log == init + [e];
      DisciplinedInit(init, e);
      MovesBounded(init, p, m);
      BoundedSnoc(init, e, p, m);
    }
  }

  /** In every run, with any webhooks and settlement batches. */
  lemma CountsFollow(rail: string, ops: seq<Op>, p: string, m: Movement)
    requires OpsOk(ops)
    ensures var w := Run(rail, ops);
            var owed := p in w.store.requests && MayStart(m, w.store.requests[p].status);
            Used(w.log, p, m) + (if owed then 1 else 0) <= Granted(w.log, p, m) + Reopenings(w.log, p, m)
  {
    LogIsFaithful(rail, ops);
    MovesBounded(Run(rail, ops).log, p, m);
  }

  // ---------------------------------------------------------------- operations that reopen nothing

  /** The operation may put the payment into a status the movement starts from. */
  predicate MayReopen(op: Op, p: string, m: Movement) {
    match op
    case DoWebhook(_, q, status, _) => q == p && MayStart(m, status)
    case DoMatch(entries, _) => m.Refund? && Mentions(entries, p)
    case _ => false
  }

  predicate NothingReopens(log: seq<Event>, p: string, m: Movement) {
    forall i :: 0 <= i < |log| && log[i].paymentId == p ==> !Reopens(log[i], m)
  }

  lemma {:induction false} NothingCounted(log: seq<Event>, p: string, m: Movement)
    requires NothingReopens(log, p, m)
    ensures Reopenings(log, p, m) == 0
  {
    if log != [] {
      var init, e := log[..|log| - 1], log[|log| - 1];
      assert log == init + [e];
      assert NothingReopens(init, p, m) by {
        assert forall i :: 0 <= i < |init| ==> init[i] == log[i];
      }
      NothingCounted(init, p, m);
      TallySnoc(init, e, p, m);
    }
  }

  lemma NothingSnoc(log: seq<Event>, e: Event, p: string, m: Movement)
    requires NothingReopens(log, p, m) && (e.paymentId == p ==> !Reopens(e, m))
    ensures NothingReopens(log + [e], p, m)
  {
  }

  lemma NothingMatched(w: World, entries: seq<Line>, ticks: seq<Tick>, p: string, m: Movement)
    requires |entries| == |ticks| && NothingReopens(w.log, p, m) && !(m.Refund? && Mentions(entries, p))
    ensures NothingReopens(MatchAll(Books(w.store, w.log), entries, ticks).0.log, p, m)
  {
    MatchAnswers(Books(w.store, w.log), entries, ticks);
    var log := MatchAll(Books(w.store, w.log), entries, ticks).0.log;
    forall i | 0 <= i < |log| && log[i].paymentId == p ensures !Reopens(log[i], m) {
      if i < |w.log| {
        assert log[i] == w.log[i];
      } else {
        assert log[i].paymentId == entries[i - |w.log|].paymentId;
        assert log[i].status == SETTLED || log[i].status == FAILED;
        assert log[i].kind != "rail.webhook";
      }
    }
  }

  lemma NothingMoved(rail: string, w: World, mv: Movement, q: string, amount: Money, t: Tick, p: string, m: Movement)
    requires NothingReopens(w.log, p, m)
    ensures NothingReopens(Handled(rail, w, mv, q, amount, t).0.log, p, m)
  {
    KindOfMove(rail, q, mv, FAILED, amount);
    KindOfMove(rail, q, mv, TargetOf(mv), amount);
    NothingSnoc(w.log, Stamped(EventOf(rail, q, OpOf(mv), FAILED, amount), t.emitted), p, m);
    NothingSnoc(w.log, Stamped(EventOf(rail, q, OpOf(mv), TargetOf(mv), amount), t.emitted), p, m);
  }

  lemma {:induction false} NothingReopened(rail: string, ops: seq<Op>, p: string, m: Movement)
    requires OpsOk(ops) && forall i :: 0 <= i < |ops| ==> !MayReopen(ops[i], p, m)
    ensures NothingReopens(Run(rail, ops).log, p, m)
  {
    if ops != [] {
      var init := ops[..|ops| - 1];
      NothingReopened(rail, init, p, m);
      var w := Run(rail, init);
      match ops[|ops| - 1]
      case DoAuthorize(input, fail, ref, t) =>
        NothingSnoc(w.log, Stamped(EventOf(rail, input.paymentId, "authorize", FAILED, input.amount), t.emitted), p, m);
        NothingSnoc(w.log, Stamped(EventOf(rail, input.paymentId, "authorize", AUTHORIZED, input.amount), t.emitted), p, m);
      case DoMove(mv, q, amount, t) =>
        NothingMoved(rail, w, mv, q, amount, t, p, m);
      case DoWebhook(webhookRail, q, status, t) =>
        NothingSnoc(w.log, Stamped(WebhookEvent(webhookRail, q, status), t.emitted), p, m);
      case DoMatch(entries, ticks) =>
        NothingMatched(w, entries, ticks, p, m);
      case DoSetFail(fail) =>
    }
  }

  /** A payment no webhook sets to authorized is captured at most as often as authorized,
      whatever is settled; one that no webhook sets to captured or settled and no settlement line
      names is refunded at most as often as captured. */
  lemma RefundsCapturesAuthorizations(rail: string, ops: seq<Op>, p: string)
    requires OpsOk(ops)
    ensures var log := Run(rail, ops).log;
            && ((forall i :: 0 <= i < |ops| ==> !MayReopen(ops[i], p, Capture)) ==> Captures(log, p) <= Authorizations(log, p))
            && ((forall i :: 0 <= i < |ops| ==> !MayReopen(ops[i], p, Refund)) ==> Refunds(log, p) <= Captures(log, p))
  {
    forall m: Movement | forall i :: 0 <= i < |ops| ==> !MayReopen(ops[i], p, m)
      ensures Used(Run(rail, ops).log, p, m) <= Granted(Run(rail, ops).log, p, m)
    {
      CountsFollow(rail, ops, p, m);
      NothingReopened(rail, ops, p, m);
      NothingCounted(Run(rail, ops).log, p, m);
    }
    assert Used(Run(rail, ops).log, p, Capture) == Captures(Run(rail, ops).log, p);
    assert Used(Run(rail, ops).log, p, Refund) == Refunds(Run(rail, ops).log, p);
  }

  // ---------------------------------------------------------------- the bound is reached

  lemma RunSnoc(rail: string, ops: seq<Op>, op: Op)
    requires OpsOk(ops) && OpOk(op)
    ensures OpsOk(ops + [op]) && Run(rail, ops + [op]) == Step(rail, Run(rail, ops), op)
  {
    assert (ops + [op])[..|ops|] == ops;
  }

  /** One operation that certainly reopens a known payment: a webhook, or before a refund also a
      settlement line. */
  predicate Reopener(op: Op, p: string, m: Movement) {
    match op
    case DoWebhook(rail, q, status, _) => rail != "" && q == p && MayStart(m, status)
    case DoMatch(entries, ticks) => m.Refund? && |entries| == 1 && |ticks| == 1 && entries[0].paymentId == p
    case _ => false
  }

  /** A known payment with these counts, on a connector that is not switched to fail. */
  predicate Stands(w: World, p: string, m: Movement, used: nat, granted: nat, reopened: nat) {
    && !w.fail && p in w.store.requests
    && Used(w.log, p, m) == used && Granted(w.log, p, m) == granted && Reopenings(w.log, p, m) == reopened
  }

  lemma WebhookStep(w: World, rail: string, p: string, status: Status, t: Tick, m: Movement, used: nat, granted: nat,
                    reopened: nat)
    requires p != "" && rail != "" && MayStart(m, status) && Stands(w, p, m, used, granted, reopened)
    ensures var w' := Webhooked(w, rail, p, status, t).0;
            Stands(w', p, m, used, granted, reopened + 1) && w'.store.requests[p].status == status
  {
    TallySnoc(w.log, Stamped(WebhookEvent(rail, p, status), t.emitted), p, m);
  }

  lemma SettledStep(w: World, e: Line, t: Tick, used: nat, granted: nat, reopened: nat)
    requires Stands(w, e.paymentId, Refund, used, granted, reopened)
    ensures var b := MatchOne(Books(w.store, w.log), e, t).0;
            && Stands(w.(store := b.store, log := b.log), e.paymentId, Refund, used, granted, reopened + 1)
            && b.store.requests[e.paymentId].status == SETTLED
  {
    TallySnoc(w.log, Stamped(CompletedEvent(e), t.emitted), e.paymentId, Refund);
  }

  lemma ReopenStep(rail: string, w: World, op: Op, p: string, m: Movement, used: nat, granted: nat, reopened: nat)
    requires p != "" && Reopener(op, p, m) && Stands(w, p, m, used, granted, reopened)
    ensures Stands(Step(rail, w, op), p, m, used, granted, reopened + 1)
    ensures MayStart(m, Step(rail, w, op).store.requests[p].status)
  {
    match op
    case DoWebhook(webhookRail, q, status, t) =>
      WebhookStep(w, webhookRail, p, status, t, m, used, granted, reopened);
    case DoMatch(entries, ticks) =>
      MatchSingle(Books(w.store, w.log), entries, ticks);
      SettledStep(w, entries[0], ticks[0], used, granted, reopened);
  }

  lemma MatchSingle(b: Books, entries: seq<Line>, ticks: seq<Tick>)
    requires |entries| == 1 && |ticks| == 1
    ensures MatchAll(b, entries, ticks).0 == MatchOne(b, entries[0], ticks[0]).0
  {
    assert entries[..0] == [] && ticks[..0] == [];
  }

  lemma MoveStep(rail: string, w: World, p: string, m: Movement, amount: Money, t: Tick, used: nat, granted: nat, reopened: nat)
    requires p != "" && Stands(w, p, m, used, granted, reopened) && MayStart(m, w.store.requests[p].status)
    ensures Stands(Step(rail, w, DoMove(m, p, amount, t)), p, m, used + 1, granted, reopened)
  {
    KindOfMove(rail, p, m, TargetOf(m), amount);
    TallySnoc(w.log, Stamped(EventOf(rail, p, OpOf(m), TargetOf(m), amount), t.emitted), p, m);
  }

  /** Up to the first movement of a payment. */
  function FirstOps(p: string, m: Movement, amount: Money, t: Tick): seq<Op> {
    var authorize := [DoAuthorize(Input(p, amount, "", "", ""), false, "", t)];
    if m.Capture? then authorize + [DoMove(Capture, p, amount, t)]
    else authorize + [DoMove(Capture, p, amount, t)] + [DoMove(Refund, p, amount, t)]
  }

  /** Then `k` reopenings, the first `d` of them each followed by the movement again. */
  function MoreOps(p: string, m: Movement, amount: Money, t: Tick, reopen: Op, d: nat, k: nat): seq<Op>
    requires d <= k
  {
    if k == 0 then FirstOps(p, m, amount, t)
    else if d < k then MoreOps(p, m, amount, t, reopen, d, k - 1) + [reopen]
    else MoreOps(p, m, amount, t, reopen, d - 1, k - 1) + [reopen] + [DoMove(m, p, amount, t)]
  }

  lemma AuthorizeTally(log: seq<Event>, rail: string, p: string, amount: Money, now: Time, m: Movement)
    ensures var log' := log + [Stamped(EventOf(rail, p, "authorize", AUTHORIZED, amount), now)];
            && Used(log', p, m) == Used(log, p, m) && Reopenings(log', p, m) == Reopenings(log, p, m)
            && Granted(log', p, m) == Granted(log, p, m) + if m.Capture? then 1 else 0
  {
    KindOfAuthorize(rail, p, AUTHORIZED, amount);
    TallySnoc(log, Stamped(EventOf(rail, p, "authorize", AUTHORIZED, amount), now), p, m);
  }

  lemma EmptyTally(p: string, m: Movement)
    ensures Used([], p, m) == 0 && Granted([], p, m) == 0 && Reopenings([], p, m) == 0
  {
  }

  lemma FirstAuthorized(rail: string, p: string, m: Movement, amount: Money, t: Tick)
    requires p != ""
    ensures var w := Authorized(rail, NOTHING, Input(p, amount, "", "", ""), "", t).0;
            Stands(w, p, m, 0, if m.Capture? then 1 else 0, 0) && w.store.requests[p].status == AUTHORIZED
  {
    AuthorizeTally([], rail, p, amount, t.emitted, m);
    EmptyTally(p, m);
  }

  lemma FirstCaptured(rail: string, w: World, p: string, amount: Money, t: Tick)
    requires p != "" && Stands(w, p, Refund, 0, 0, 0) && w.store.requests[p].status == AUTHORIZED
    ensures var w' := Step(rail, w, DoMove(Capture, p, amount, t));
            Stands(w', p, Refund, 0, 1, 0) && w'.store.requests[p].status == CAPTURED
  {
    KindOfMove(rail, p, Capture, CAPTURED, amount);
    TallySnoc(w.log, Stamped(EventOf(rail, p, "capture", CAPTURED, amount), t.emitted), p, Refund);
  }

  lemma AuthorizedRun(rail: string, p: string, m: Movement, amount: Money, t: Tick) returns (ops: seq<Op>)
    requires p != ""
    ensures ops == [DoAuthorize(Input(p, amount, "", "", ""), false, "", t)] && OpsOk(ops)
    ensures Stands(Run(rail, ops), p, m, 0, if m.Capture? then 1 else 0, 0)
    ensures Run(rail, ops).store.requests[p].status == AUTHORIZED
  {
    var authorize := DoAuthorize(Input(p, amount, "", "", ""), false, "", t);
    ops := [authorize];
    assert [] + [authorize] == ops;
    RunSnoc(rail, [], authorize);
    FirstAuthorized(rail, p, m, amount, t);
  }

  lemma FirstReached(rail: string, p: string, m: Movement, amount: Money, t: Tick)
    requires p != ""
    ensures OpsOk(FirstOps(p, m, amount, t)) && Stands(Run(rail, FirstOps(p, m, amount, t)), p, m, 1, 1, 0)
  {
    var capture := DoMove(Capture, p, amount, t);
    var ops := AuthorizedRun(rail, p, m, amount, t);
    RunSnoc(rail, ops, capture);
    if m.Capture? {
      MoveStep(rail, Run(rail, ops), p, Capture, amount, t, 0, 1, 0);
    } else {
      FirstCaptured(rail, Run(rail, ops), p, amount, t);
      MovedAgain(rail, ops + [capture], p, Refund, amount, t, 0, 0);
    }
  }

  lemma Reopened(rail: string, ops: seq<Op>, reopen: Op, p: string, m: Movement, used: nat, k: nat)
    requires p != "" && Reopener(reopen, p, m) && OpsOk(ops) && Stands(Run(rail, ops), p, m, used, 1, k)
    ensures OpsOk(ops + [reopen]) && Stands(Run(rail, ops + [reopen]), p, m, used, 1, k + 1)
    ensures MayStart(m, Run(rail, ops + [reopen]).store.requests[p].status)
  {
    RunSnoc(rail, ops, reopen);
    ReopenStep(rail, Run(rail, ops), reopen, p, m, used, 1, k);
  }

  lemma MovedAgain(rail: string, ops: seq<Op>, p: string, m: Movement, amount: Money, t: Tick, used: nat, k: nat)
    requires p != "" && OpsOk(ops) && Stands(Run(rail, ops), p, m, used, 1, k)
    requires MayStart(m, Run(rail, ops).store.requests[p].status)
    ensures var more := ops + [DoMove(m, p, amount, t)];
            OpsOk(more) && Stands(Run(rail, more), p, m, used + 1, 1, k)
  {
    RunSnoc(rail, ops, DoMove(m, p, amount, t));
    MoveStep(rail, Run(rail, ops), p, m, amount, t, used, 1, k);
  }

  lemma {:induction false} MoreReached(rail: string, p: string, m: Movement, amount: Money, t: Tick, reopen: Op, d: nat, k: nat)
    requires p != "" && Reopener(reopen, p, m) && d <= k
    ensures OpsOk(MoreOps(p, m, amount, t, reopen, d, k))
    ensures Stands(Run(rail, MoreOps(p, m, amount, t, reopen, d, k)), p, m, 1 + d, 1, k)
    decreases k
  {
    if k == 0 {
      FirstReached(rail, p, m, amount, t);
    } else if d < k {
      MoreReached(rail, p, m, amount, t, reopen, d, k - 1);
      Reopened(rail, MoreOps(p, m, amount, t, reopen, d, k - 1), reopen, p, m, 1 + d, k - 1);
    } else {
      MoreReached(rail, p, m, amount, t, reopen, d - 1, k - 1);
      var ops := MoreOps(p, m, amount, t, reopen, d - 1, k - 1);
      Reopened(rail, ops, reopen, p, m, d, k - 1);
      MovedAgain(rail, ops + [reopen], p, m, amount, t, d, k);
    }
  }

  /** A run that reopens the payment `k` times and moves it `d` times more than it was granted. */
  ghost predicate Exceeds(rail: string, ops: seq<Op>, p: string, m: Movement, d: nat, k: nat) {
    OpsOk(ops) && var log := Run(rail, ops).log;
    Reopenings(log, p, m) == k && Used(log, p, m) == Granted(log, p, m) + d
  }

  /** How far captures can exceed authorizations, and refunds captures: exactly by up to the number
      of reopenings. Nothing but them breaks the order, and each of them can. */
  lemma MovesExactly(rail: string, p: string, m: Movement, d: nat, k: nat)
    requires p != ""
    ensures d <= k <==> exists ops :: Exceeds(rail, ops, p, m, d, k)
  {
    if d <= k {
      WebhookAllowsMore(rail, p, m, 0.0, Tick(0, 0, 0), DoWebhook("dummy", p, SourceOf(m), Tick(0, 0, 0)), d, k);
    }
    forall ops | Exceeds(rail, ops, p, m, d, k) ensures d <= k {
      CountsFollow(rail, ops, p, m);
    }
  }

  function SourceOf(m: Movement): Status {
    if m.Capture? then AUTHORIZED else CAPTURED
  }

  /** Each webhook to authorized lets one more capture through, each webhook to captured or settled
      and each settlement line one more refund. */
  lemma WebhookAllowsMore(rail: string, p: string, m: Movement, amount: Money, t: Tick, reopen: Op, d: nat, k: nat)
    requires p != "" && Reopener(reopen, p, m) && d <= k
    ensures Exceeds(rail, MoreOps(p, m, amount, t, reopen, d, k), p, m, d, k)
    ensures Granted(Run(rail, MoreOps(p, m, amount, t, reopen, d, k)).log, p, m) == 1
  {
    MoreReached(rail, p, m, amount, t, reopen, d, k);
  }
}
