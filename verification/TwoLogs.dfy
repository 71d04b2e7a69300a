/** The default configuration: without an audit sink the service records its webhooks in a log of
its own, apart from the log of its connector. Settlement batches are taken to write to the
connector's. */
module TwoLogs {
  import opened Wrappers
  import opened Rail
  import opened Store
  import opened Settlement
  import opened Matcher
  import opened Connector
  import opened Server
  import opened Replay

  predicate IsWebhook(e: Event) {
    e.kind == "rail.webhook"
  }

  /** What the connector's recorder holds. */
  function OwnLog(log: seq<Event>): seq<Event> {
    if log == [] then []
    else OwnLog(log[..|log| - 1]) + if IsWebhook(log[|log| - 1]) then [] else [log[|log| - 1]]
  }

  /** What the service's recorder holds. */
  function HookLog(log: seq<Event>): seq<Event> {
    if log == [] then []
    else HookLog(log[..|log| - 1]) + if IsWebhook(log[|log| - 1]) then [log[|log| - 1]] else []
  }

  lemma SplitSnoc(log: seq<Event>, e: Event)
    ensures OwnLog(log + [e]) == if IsWebhook(e) then OwnLog(log) else OwnLog(log) + [e]
    ensures HookLog(log + [e]) == if IsWebhook(e) then HookLog(log) + [e] else HookLog(log)
  {
    assert (log + [e])[..|log|] == log;
    assert OwnLog(log) + [] == OwnLog(log) && HookLog(log) + [] == HookLog(log);
  }

  /** Webhooks alone introduce no payment, so their log tells no status. */
  lemma {:induction false} HooksTellNothing(log: seq<Event>)
    ensures Statuses(HookLog(log)) == map[]
  {
    if log != [] {
      var init, e := log[..|log| - 1], log[|log| - 1];
      assert log == init + [e];
      HooksTellNothing(init);
      SplitSnoc(init, e);
      LogSnoc(HookLog(init), e);
    }
  }

  lemma HookMovesNothing(e: Event, r: string)
    requires IsWebhook(e)
    ensures Moves(e, r) == 0.0 && e.kind != "rail.settlement.completed"
  {
  }

  predicate SameTotals(a: seq<Event>, b: seq<Event>, p: string, r: string) {
    LogTotal(a, r) == LogTotal(b, r) && LogSettled(a, p) == LogSettled(b, p)
  }

  lemma SameTotalsSnoc(log: seq<Event>, e: Event, p: string, r: string)
    requires SameTotals(OwnLog(log), log, p, r)
    ensures SameTotals(OwnLog(log + [e]), log + [e], p, r)
  {
    SplitSnoc(log, e);
    LogSnoc(log, e);
    if IsWebhook(e) {
      HookMovesNothing(e, r);
    } else {
      LogSnoc(OwnLog(log), e);
    }
  }

  /** Webhooks move no money. */
  lemma {:induction false} OwnTotals(log: seq<Event>, p: string, r: string)
    ensures SameTotals(OwnLog(log), log, p, r)
  {
    if log != [] {
      OwnTotals(log[..|log| - 1], p, r);
      SameTotalsSnoc(log[..|log| - 1], log[|log| - 1], p, r);
      assert log == log[..|log| - 1] + [log[|log| - 1]];
    }
  }

  /** The status the last webhook gave the payment, if none of the connector's events has set it
      since. */
  function Drift(log: seq<Event>, p: string): Option<Status> {
    if log == [] then None
    else
      var init, e := log[..|log| - 1], log[|log| - 1];
      if e.paymentId != p then Drift(init, p)
      else if IsWebhook(e) then Some(e.status)
      else if e.kind == "rail.settlement.break" || e.status == FAILED then Drift(init, p)
      else None
  }

  lemma DriftSnoc(log: seq<Event>, e: Event, p: string)
    ensures Drift(log + [e], p) ==
            if e.paymentId != p then Drift(log, p)
            else if IsWebhook(e) then Some(e.status)
            else if e.kind == "rail.settlement.break" || e.status == FAILED then Drift(log, p)
            else None
  {
    assert (log + [e])[..|log|] == log;
  }

  /** The whole log against the connector's part: the same payments, with the status that part
      gives unless a webhook came after. */
  predicate Differs(log: seq<Event>, p: string) {
    At(Statuses(log), p) ==
      match At(Statuses(OwnLog(log)), p)
      case None => None
      case Some(own) => Some(if Drift(log, p).Some? then Drift(log, p).value else own)
  }

  lemma DiffersSnoc(log: seq<Event>, e: Event, p: string)
    requires Differs(log, p)
    ensures Differs(log + [e], p)
  {
    SplitSnoc(log, e);
    DriftSnoc(log, e, p);
    LogSnoc(log, e);
    LogSnoc(OwnLog(log), e);
  }

  lemma {:induction false} OwnStatuses(log: seq<Event>, p: string)
    ensures Differs(log, p)
  {
    if log != [] {
      var init, e := log[..|log| - 1], log[|log| - 1];
      assert log == init + [e];
      OwnStatuses(init, p);
      DiffersSnoc(init, e, p);
    }
  }

  /** The connector's log tells the status of the payment. */
  predicate Tells(w: World, p: string) {
    At(Statuses(OwnLog(w.log)), p) == At(StatusMap(w.store.requests), p)
  }

  /** In the default configuration, after every run: the connector's log still rebuilds tracker and
      settled totals and knows the same payments; it tells the status of a payment exactly when no
      webhook has moved it, since the connector's last event on it, to another status than that
      event did; and the service's log tells the status of none. */
  lemma DefaultLogs(rail: string, ops: seq<Op>, p: string, r: string)
    requires OpsOk(ops)
    ensures var w := Run(rail, ops);
            var own := Statuses(OwnLog(w.log));
            && LogTotal(OwnLog(w.log), r) == Total(w.totals, r)
            && LogSettled(OwnLog(w.log), p) == SettledTotal(w.store.settles, p)
            && (p in own <==> p in w.store.requests)
            && (Tells(w, p) <==> (p in w.store.requests && Drift(w.log, p).Some? ==> Drift(w.log, p).value == own[p]))
            && Statuses(HookLog(w.log)) == map[]
  {
    LogIsFaithful(rail, ops);
    OwnTotals(Run(rail, ops).log, p, r);
    OwnStatuses(Run(rail, ops).log, p);
    HooksTellNothing(Run(rail, ops).log);
  }

  lemma WebhookStores(w: World, rail: string, p: string, status: Status, t: Tick)
    ensures var w' := Webhooked(w, rail, p, status, t).0;
            && OwnLog(w'.log) == OwnLog(w.log)
            && StatusMap(w'.store.requests) ==
               if rail != "" && p != "" && p in w.store.requests && ValidStatus(status)
               then StatusMap(w.store.requests)[p := status] else StatusMap(w.store.requests)
  {
    SplitSnoc(w.log, Stamped(WebhookEvent(rail, p, status), t.emitted));
  }

  /** The step that goes unrecorded: a webhook that reaches a payment the connector's log tells
      leaves it told exactly when it does not change its status. */
  lemma WebhookUntold(w: World, rail: string, p: string, status: Status, t: Tick)
    requires Tells(w, p)
    ensures var w' := Webhooked(w, rail, p, status, t).0;
            && (forall q :: q != p ==> (Tells(w', q) <==> Tells(w, q)))
            && (Tells(w', p) <==> !(rail != "" && p != "" && p in w.store.requests && ValidStatus(status)
                                    && status != w.store.requests[p].status))
  {
    WebhookStores(w, rail, p, status, t);
  }

  function DriftOps(p: string, t: Tick): seq<Op> {
    [DoAuthorize(Input(p, 0.0, "", "", ""), false, "", t), DoWebhook("dummy", p, SETTLED, t)]
  }

  lemma OwnAuthorize(log: seq<Event>, rail: string, p: string, now: Time)
    ensures At(Statuses(OwnLog(log + [Stamped(EventOf(rail, p, "authorize", AUTHORIZED, 0.0), now)])), p) == Some(AUTHORIZED)
  {
    var e := Stamped(EventOf(rail, p, "authorize", AUTHORIZED, 0.0), now);
    KindOfAuthorize(rail, p, AUTHORIZED, 0.0);
    SplitSnoc(log, e);
    LogSnoc(OwnLog(log), e);
  }

  /** One authorization and one webhook: the store says settled, the connector's log authorized, the
      service's log nothing. */
  lemma NeitherTells(rail: string, p: string, t: Tick)
    requires p != ""
    ensures OpsOk(DriftOps(p, t))
    ensures var w := Run(rail, DriftOps(p, t));
            && At(StatusMap(w.store.requests), p) == Some(SETTLED)
            && At(Statuses(OwnLog(w.log)), p) == Some(AUTHORIZED)
            && At(Statuses(HookLog(w.log)), p) == None
  {
    var authorize, webhook := DriftOps(p, t)[0], DriftOps(p, t)[1];
    assert [] + [authorize] == [authorize] && [authorize] + [webhook] == DriftOps(p, t);
    RunSnoc(rail, [], authorize);
    RunSnoc(rail, [authorize], webhook);
    OwnAuthorize([], rail, p, t.emitted);
    WebhookStores(Run(rail, [authorize]), "dummy", p, SETTLED, t);
    HooksTellNothing(Run(rail, DriftOps(p, t)).log);
  }
}
