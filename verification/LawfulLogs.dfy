/** Exactly the audit logs that runs of atomic requests write. */
module LawfulLogs {
  import opened Wrappers
  import opened Rail
  import opened Store
  import opened Settlement
  import opened Matcher
  import opened Connector
  import opened Server
  import opened Replay

  // ---------------------------------------------------------------- what an operation may write

  function LineOf(e: Event): Line {
    Line(e.paymentId, e.rail, e.amount, "", UNSET, "")
  }

  predicate WrittenAuthorize(rail: string, e: Event) {
    && e == EventOf(rail, e.paymentId, "authorize", e.status, e.amount).(occurredAt := e.occurredAt)
    && e.paymentId != "" && (e.status == AUTHORIZED || e.status == FAILED)
  }

  predicate WrittenMove(rail: string, statuses: map<string, Status>, m: Movement, e: Event) {
    && e == EventOf(rail, e.paymentId, OpOf(m), e.status, e.amount).(occurredAt := e.occurredAt)
    && e.paymentId != "" && e.paymentId in statuses
    && (e.status == FAILED || (e.status == TargetOf(m) && MayStart(m, statuses[e.paymentId])))
  }

  predicate WrittenWebhook(e: Event) {
    && e == WebhookEvent(e.rail, e.paymentId, e.status).(occurredAt := e.occurredAt)
    && e.rail != "" && e.paymentId != "" && ValidStatus(e.status)
  }

  predicate WrittenSettle(statuses: map<string, Status>, e: Event) {
    e == (if e.paymentId in statuses then CompletedEvent(LineOf(e)) else BreakEvent(LineOf(e))).(occurredAt := e.occurredAt)
  }

  /** Some request, webhook or settlement line, handled when these are the statuses, logs `e`. */
  predicate Written(rail: string, statuses: map<string, Status>, e: Event) {
    || WrittenAuthorize(rail, e)
    || WrittenMove(rail, statuses, Capture, e)
    || WrittenMove(rail, statuses, Refund, e)
    || WrittenWebhook(e)
    || WrittenSettle(statuses, e)
  }

  /** Every event is one that could be written when the log so far tells the statuses. */
  predicate Lawful(rail: string, log: seq<Event>) {
    log == [] ||
    (Lawful(rail, log[..|log| - 1]) && Written(rail, Statuses(log[..|log| - 1]), log[|log| - 1]))
  }

  lemma LawfulSnoc(rail: string, log: seq<Event>, e: Event)
    ensures Lawful(rail, log + [e]) <==> Lawful(rail, log) && Written(rail, Statuses(log), e)
  {
    assert (log + [e])[..|log|] == log;
  }

  /** Only the status of the payment itself matters. */
  lemma WrittenLocal(rail: string, a: map<string, Status>, b: map<string, Status>, e: Event)
    requires Written(rail, a, e) && At(a, e.paymentId) == At(b, e.paymentId)
    ensures Written(rail, b, e)
  {
    assert e.paymentId in a <==> e.paymentId in b;
  }

  // ---------------------------------------------------------------- runs write lawful logs

  lemma LawfulMove(rail: string, w: World, m: Movement, p: string, amount: Money, t: Tick)
    requires Faithful(w) && Lawful(rail, w.log)
    ensures Lawful(rail, Handled(rail, w, m, p, amount, t).0.log)
  {
    LawfulSnoc(rail, w.log, Stamped(EventOf(rail, p, OpOf(m), FAILED, amount), t.emitted));
    LawfulSnoc(rail, w.log, Stamped(EventOf(rail, p, OpOf(m), TargetOf(m), amount), t.emitted));
  }

  lemma LawfulLine(rail: string, w: World, e: Line, t: Tick)
    requires Faithful(w) && Lawful(rail, w.log)
    ensures Lawful(rail, MatchOne(Books(w.store, w.log), e, t).0.log)
  {
    LawfulSnoc(rail, w.log, Stamped(if e.paymentId in w.store.requests then CompletedEvent(e) else BreakEvent(e), t.emitted));
  }

  lemma {:induction false} LawfulMatch(rail: string, w: World, entries: seq<Line>, ticks: seq<Tick>)
    requires Faithful(w) && Lawful(rail, w.log) && |entries| == |ticks|
    ensures Lawful(rail, MatchAll(Books(w.store, w.log), entries, ticks).0.log)
  {
    if entries != [] {
      var n := |entries| - 1;
      LawfulMatch(rail, w, entries[..n], ticks[..n]);
      FaithfulMatch(w, entries[..n], ticks[..n]);
      var b := MatchAll(Books(w.store, w.log), entries[..n], ticks[..n]).0;
      LawfulLine(rail, w.(store := b.store, log := b.log), entries[n], ticks[n]);
    }
  }

  lemma LawfulAuthorize(rail: string, w: World, input: Input, ref: string, t: Tick)
    requires Lawful(rail, w.log)
    ensures Lawful(rail, Authorized(rail, w, input, ref, t).0.log)
  {
    var status := if w.fail then FAILED else AUTHORIZED;
    var e := Stamped(EventOf(rail, input.paymentId, "authorize", status, input.amount), t.emitted);
    LawfulSnoc(rail, w.log, e);
    assert input.paymentId != "" ==> WrittenAuthorize(rail, e);
  }

  lemma LawfulWebhook(rail: string, w: World, webhookRail: string, p: string, status: Status, t: Tick)
    requires Lawful(rail, w.log)
    ensures Lawful(rail, Webhooked(w, webhookRail, p, status, t).0.log)
  {
    LawfulSnoc(rail, w.log, Stamped(WebhookEvent(webhookRail, p, status), t.emitted));
  }

  lemma LawfulStep(rail: string, w: World, op: Op)
    requires Faithful(w) && Lawful(rail, w.log) && OpOk(op)
    ensures Lawful(rail, Step(rail, w, op).log)
  {
    match op
    case DoAuthorize(input, fail, ref, t) =>
      LawfulAuthorize(rail, w.(fail := w.fail || fail), input, ref, t);
    case DoMove(m, p, amount, t) =>
      LawfulMove(rail, w, m, p, amount, t);
    case DoWebhook(webhookRail, p, status, t) =>
      LawfulWebhook(rail, w, webhookRail, p, status, t);
    case DoMatch(entries, ticks) =>
      LawfulMatch(rail, w, entries, ticks);
    case DoSetFail(fail) =>
  }

  lemma {:induction false} RunIsLawful(rail: string, ops: seq<Op>)
    requires OpsOk(ops)
    ensures Lawful(rail, Run(rail, ops).log)
  {
    if ops != [] {
      var init := ops[..|ops| - 1];
      RunIsLawful(rail, init);
      LogIsFaithful(rail, init);
      LawfulStep(rail, Run(rail, init), ops[|ops| - 1]);
    }
  }

  // ---------------------------------------------------------------- lawful logs have runs

  /** The same operation with the connector switched to fail for its duration. */
  function Failing(op: Op): seq<Op> {
    [DoSetFail(true), op, DoSetFail(false)]
  }

  /** The operations that log `e`. */
  function OpsFor(rail: string, statuses: map<string, Status>, e: Event): seq<Op> {
    var t := Tick(UNSET, UNSET, e.occurredAt);
    if WrittenAuthorize(rail, e) then
      var op := DoAuthorize(Input(e.paymentId, e.amount, "", "", ""), false, "", t);
      if e.status == FAILED then Failing(op) else [op]
    else if WrittenMove(rail, statuses, Capture, e) then
      var op := DoMove(Capture, e.paymentId, e.amount, t);
      if e.status == FAILED then Failing(op) else [op]
    else if WrittenMove(rail, statuses, Refund, e) then
      var op := DoMove(Refund, e.paymentId, e.amount, t);
      if e.status == FAILED then Failing(op) else [op]
    else if WrittenWebhook(e) then [DoWebhook(e.rail, e.paymentId, e.status, t)]
    else [DoMatch([LineOf(e)], [t])]
  }

  lemma RunSingle(rail: string, w: World, op: Op)
    requires OpOk(op)
    ensures OpsOk([op]) && RunFrom(rail, w, [op]) == Step(rail, w, op)
  {
    assert [op][..0] == [];
  }

  lemma RunFailing(rail: string, w: World, op: Op)
    requires OpOk(op)
    ensures OpsOk(Failing(op))
    ensures RunFrom(rail, w, Failing(op)) == Step(rail, w.(fail := true), op).(fail := false)
  {
    var ops := Failing(op);
    assert ops[..2] == [DoSetFail(true), op] && ops[..2][..1] == [DoSetFail(true)] && ops[..1][..0] == [];
    assert RunFrom(rail, w, []) == w;
    assert RunFrom(rail, w, [DoSetFail(true)]) == w.(fail := true);
    assert RunFrom(rail, w, [DoSetFail(true), op]) == Step(rail, w.(fail := true), op);
  }

  lemma {:induction false} RunConcat(rail: string, w: World, a: seq<Op>, b: seq<Op>)
    requires OpsOk(a) && OpsOk(b)
    ensures OpsOk(a + b) && RunFrom(rail, w, a + b) == RunFrom(rail, RunFrom(rail, w, a), b)
  {
    if b == [] {
      assert a + b == a;
    } else {
      assert (a + b)[..|a + b| - 1] == a + b[..|b| - 1];
      RunConcat(rail, w, a, b[..|b| - 1]);
    }
  }

  lemma StampAgain(e: Event, now: Time)
    requires e.occurredAt == UNSET
    ensures Stamped(e, now) == e.(occurredAt := now)
  {
  }

  lemma AuthorizeLogs(rail: string, w: World, e: Event)
    requires !w.fail && WrittenAuthorize(rail, e)
    ensures var ops := OpsFor(rail, Statuses(w.log), e);
            OpsOk(ops) && RunFrom(rail, w, ops).log == w.log + [e] && !RunFrom(rail, w, ops).fail
  {
    var op := DoAuthorize(Input(e.paymentId, e.amount, "", "", ""), false, "", Tick(UNSET, UNSET, e.occurredAt));
    StampAgain(EventOf(rail, e.paymentId, "authorize", e.status, e.amount), e.occurredAt);
    RunSingle(rail, w, op);
    RunFailing(rail, w, op);
  }

  lemma MoveLogs(rail: string, w: World, m: Movement, e: Event)
    requires Faithful(w) && !w.fail && WrittenMove(rail, Statuses(w.log), m, e)
    ensures var op := DoMove(m, e.paymentId, e.amount, Tick(UNSET, UNSET, e.occurredAt));
            var ops := if e.status == FAILED then Failing(op) else [op];
            OpsOk(ops) && RunFrom(rail, w, ops).log == w.log + [e] && !RunFrom(rail, w, ops).fail
  {
    var op := DoMove(m, e.paymentId, e.amount, Tick(UNSET, UNSET, e.occurredAt));
    StampAgain(EventOf(rail, e.paymentId, OpOf(m), e.status, e.amount), e.occurredAt);
    RunSingle(rail, w, op);
    RunFailing(rail, w, op);
  }

  lemma WebhookLogs(rail: string, w: World, e: Event)
    requires !w.fail && WrittenWebhook(e)
    ensures var ops := [DoWebhook(e.rail, e.paymentId, e.status, Tick(UNSET, UNSET, e.occurredAt))];
            OpsOk(ops) && RunFrom(rail, w, ops).log == w.log + [e] && !RunFrom(rail, w, ops).fail
  {
    StampAgain(WebhookEvent(e.rail, e.paymentId, e.status), e.occurredAt);
    RunSingle(rail, w, DoWebhook(e.rail, e.paymentId, e.status, Tick(UNSET, UNSET, e.occurredAt)));
  }

  lemma SettleLogs(rail: string, w: World, e: Event)
    requires Faithful(w) && !w.fail && WrittenSettle(Statuses(w.log), e)
    ensures var ops := [DoMatch([LineOf(e)], [Tick(UNSET, UNSET, e.occurredAt)])];
            OpsOk(ops) && RunFrom(rail, w, ops).log == w.log + [e] && !RunFrom(rail, w, ops).fail
  {
    var t := Tick(UNSET, UNSET, e.occurredAt);
    StampAgain(CompletedEvent(LineOf(e)), e.occurredAt);
    StampAgain(BreakEvent(LineOf(e)), e.occurredAt);
    RunSingle(rail, w, DoMatch([LineOf(e)], [t]));
    MatchSingle(Books(w.store, w.log), [LineOf(e)], [t]);
  }

  lemma EventHasOps(rail: string, w: World, e: Event)
    requires Faithful(w) && !w.fail && Written(rail, Statuses(w.log), e)
    ensures var ops := OpsFor(rail, Statuses(w.log), e);
            OpsOk(ops) && RunFrom(rail, w, ops).log == w.log + [e] && !RunFrom(rail, w, ops).fail
  {
    if WrittenAuthorize(rail, e) {
      AuthorizeLogs(rail, w, e);
    } else if WrittenMove(rail, Statuses(w.log), Capture, e) {
      MoveLogs(rail, w, Capture, e);
    } else if WrittenMove(rail, Statuses(w.log), Refund, e) {
      MoveLogs(rail, w, Refund, e);
    } else if WrittenWebhook(e) {
      WebhookLogs(rail, w, e);
    } else {
      SettleLogs(rail, w, e);
    }
  }

  lemma RunExtended(rail: string, before: seq<Op>, e: Event) returns (ops: seq<Op>)
    requires OpsOk(before) && !Run(rail, before).fail && Written(rail, Statuses(Run(rail, before).log), e)
    ensures OpsOk(ops) && Run(rail, ops).log == Run(rail, before).log + [e] && !Run(rail, ops).fail
  {
    var w := Run(rail, before);
    var more := OpsFor(rail, Statuses(w.log), e);
    LogIsFaithful(rail, before);
    EventHasOps(rail, w, e);
    RunConcat(rail, NOTHING, before, more);
    ops := before + more;
  }

  lemma {:induction false} LogHasRun(rail: string, log: seq<Event>) returns (ops: seq<Op>)
    requires Lawful(rail, log)
    ensures OpsOk(ops) && Run(rail, ops).log == log && !Run(rail, ops).fail
  {
    ops := [];
    if log != [] {
      var before := LogHasRun(rail, log[..|log| - 1]);
      ops := RunExtended(rail, before, log[|log| - 1]);
      assert log == log[..|log| - 1] + [log[|log| - 1]];
    }
  }

  /** Some run of atomic requests, webhooks and settlement batches writes this log. */
  ghost predicate IsLogOfRun(rail: string, log: seq<Event>) {
    exists ops :: OpsOk(ops) && Run(rail, ops).log == log
  }

  /** The logs of atomic runs are exactly the lawful ones. */
  lemma LogsExactly(rail: string, log: seq<Event>)
    ensures IsLogOfRun(rail, log) <==> Lawful(rail, log)
  {
    if Lawful(rail, log) {
      var ops := LogHasRun(rail, log);
    }
    forall ops | OpsOk(ops) && Run(rail, ops).log == log ensures Lawful(rail, log) {
      RunIsLawful(rail, ops);
    }
  }

  lemma WrittenAllowed(rail: string, statuses: map<string, Status>, e: Event)
    requires Written(rail, statuses, e)
    ensures EventAllowed(statuses, e)
  {
  }
}
