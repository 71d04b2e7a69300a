/** The state effects of the HTTP handlers, and runs of them. */
module Server {
  import opened Wrappers
  import opened Rail
  import opened Store
  import opened Settlement
  import opened Connector

  const OK := 200
  const BAD_REQUEST := 400
  const NOT_FOUND := 404
  const UNPROCESSABLE := 422

  function CodeOf(r: Response): int {
    if r.status == FAILED && r.errorCode != "" then UNPROCESSABLE else OK
  }

  function WebhookEvent(rail: string, p: string, status: Status): Event {
    Event("rail.webhook", p, rail, "webhook", status, 0.0, UNSET)
  }

  /** A webhook whose signature and body have been read. The event is logged even when the
      payment is unknown and no row changes. */
  function Webhooked(w: World, rail: string, p: string, status: Status, t: Tick): (World, int) {
    if rail == "" then (w, NOT_FOUND)
    else if p == "" || status == "" then (w, OK)
    else if !ValidStatus(status) then (w, BAD_REQUEST)
    else
      (Emitted(w.(store := WithStatus(w.store, p, status, "", "", t.updated)), WebhookEvent(rail, p, status), t.emitted), OK)
  }

  /** A capture or refund request with a readable body. */
  function Handled(rail: string, w: World, m: Movement, p: string, amount: Money, t: Tick): (World, int) {
    if p == "" then (w, BAD_REQUEST)
    else if p !in w.store.requests then (w, NOT_FOUND)
    else var (w', r) := Moved(rail, w, m, p, amount, t); (w', CodeOf(r))
  }

  class Service {
    const conn: Connector

    constructor (conn: Connector)
      ensures this.conn == conn
    {
      this.conn := conn;
    }

    /** `fail` is the debugging switch of the request: once set the connector keeps failing. */
    method HandleAuthorize(input: Input, fail: bool, ref: string, t: Tick) returns (code: int)
      requires conn.store.Valid()
      modifies conn, conn.store, conn.audit
      ensures conn.store.Valid()
      ensures var w := old(conn.View());
              var (w', r) := Authorized(conn.rail, w.(fail := w.fail || fail), input, ref, t);
              conn.View() == w' && code == CodeOf(r)
    {
      if fail {
        conn.SetFail(true);
      }
      var r := conn.Authorize(input, ref, t);
      return if r.status == FAILED && r.errorCode != "" then UNPROCESSABLE else OK;
    }

    method HandleMovement(m: Movement, p: string, amount: Money, t: Tick) returns (code: int)
      requires conn.store.Valid()
      modifies conn.store.requests.Values, conn.tracker, conn.audit
      ensures conn.store.Valid() && (conn.View(), code) == Handled(conn.rail, old(conn.View()), m, p, amount, t)
    {
      if p == "" {
        return BAD_REQUEST;
      }
      var rec := conn.store.Get(p);
      if rec.None? {
        return NOT_FOUND;
      }
      var r;
      if m.Capture? {
        r := conn.DoCapture(p, amount, t);
      } else {
        r := conn.DoRefund(p, amount, t);
      }
      return if r.status == FAILED && r.errorCode != "" then UNPROCESSABLE else OK;
    }

    method Webhook(rail: string, p: string, status: Status, t: Tick) returns (code: int)
      requires conn.store.Valid()
      modifies conn.store.requests.Values, conn.audit
      ensures conn.store.Valid() && (conn.View(), code) == Webhooked(old(conn.View()), rail, p, status, t)
    {
      if rail == "" {
        return NOT_FOUND;
      }
      if p != "" && status != "" {
        if !ValidStatus(status) {
          return BAD_REQUEST;
        }
        var _ := conn.store.SetStatus(p, status, "", "", t.updated);
        conn.audit.Emit(WebhookEvent(rail, p, status), t.emitted);
      }
      return OK;
    }
  }

  // ---------------------------------------------------------------- runs

  /** One request, batch or switch, executed atomically over one shared audit log. */
  datatype Op =
    | DoAuthorize(input: Input, fail: bool, ref: string, t: Tick)
    | DoMove(m: Movement, p: string, amount: Money, t: Tick)
    | DoWebhook(webhookRail: string, p: string, status: Status, t: Tick)
    | DoMatch(entries: seq<Line>, ticks: seq<Tick>)
    | DoSetFail(fail: bool)

  predicate OpOk(op: Op) {
    op.DoMatch? ==> |op.entries| == |op.ticks|
  }

  function Step(rail: string, w: World, op: Op): World
    requires OpOk(op)
  {
    match op
    case DoAuthorize(input, fail, ref, t) => Authorized(rail, w.(fail := w.fail || fail), input, ref, t).0
    case DoMove(m, p, amount, t) => Handled(rail, w, m, p, amount, t).0
    case DoWebhook(webhookRail, p, status, t) => Webhooked(w, webhookRail, p, status, t).0
    case DoMatch(entries, ticks) =>
      var b := MatchAll(Books(w.store, w.log), entries, ticks).0;
      w.(store := b.store, log := b.log)
    case DoSetFail(fail) => w.(fail := fail)
  }

  const NOTHING := World(EMPTY, map[], [], false)

  predicate OpsOk(ops: seq<Op>) {
    forall i :: 0 <= i < |ops| ==> OpOk(ops[i])
  }

  function RunFrom(rail: string, w: World, ops: seq<Op>): World
    requires OpsOk(ops)
  {
    if ops == [] then w else Step(rail, RunFrom(rail, w, ops[..|ops| - 1]), ops[|ops| - 1])
  }

  function Run(rail: string, ops: seq<Op>): World
    requires OpsOk(ops)
  {
    RunFrom(rail, NOTHING, ops)
  }

  // ---------------------------------------------------------------- what the handlers answer

  /** A capture or refund request is answered OK exactly when it goes through, NOT_FOUND exactly for
      a payment the store does not have; with any other answer store and tracker are as before. */
  lemma HandledAnswer(rail: string, w: World, m: Movement, p: string, amount: Money, t: Tick)
    ensures var (w', code) := Handled(rail, w, m, p, amount, t);
            && (code == OK <==> GoesThrough(w, m, p))
            && (code == NOT_FOUND <==> p != "" && p !in w.store.requests)
            && (code != OK ==> w'.store == w.store && w'.totals == w.totals)
            && (code != OK && !w.fail ==> w'.log == w.log)
  {
    MoveAnswer(rail, w, m, p, amount, t);
  }

  /** A webhook can change nothing but the row of the payment it names, and the log. */
  lemma WebhookReach(w: World, rail: string, p: string, status: Status, t: Tick)
    ensures var (w', code) := Webhooked(w, rail, p, status, t);
            && w'.totals == w.totals && w'.store.settles == w.store.settles
            && w'.store.requests.Keys == w.store.requests.Keys
            && (forall q :: q in w.store.requests && q != p ==> w'.store.requests[q] == w.store.requests[q])
            && (w'.log != w.log <==> rail != "" && p != "" && ValidStatus(status))
            && (w'.log != w.log && p in w.store.requests ==> w'.store.requests[p].status == status)
  {
    var e := Stamped(WebhookEvent(rail, p, status), t.emitted);
    assert |w.log + [e]| == |w.log| + 1;
  }

  predicate NoSwitch(ops: seq<Op>) {
    forall i :: 0 <= i < |ops| ==> !ops[i].DoSetFail?
  }

  /** One request with the debugging switch and the connector fails for good: until something
      resets the switch, whatever requests follow, no tracker total moves again. */
  lemma {:induction false} FailureSticks(rail: string, w: World, ops: seq<Op>)
    requires OpsOk(ops) && NoSwitch(ops) && w.fail
    ensures RunFrom(rail, w, ops).fail && RunFrom(rail, w, ops).totals == w.totals
  {
    if ops != [] {
      FailureSticks(rail, w, ops[..|ops| - 1]);
      var before, op := RunFrom(rail, w, ops[..|ops| - 1]), ops[|ops| - 1];
      if op.DoMove? {
        HandledAnswer(rail, before, op.m, op.p, op.amount, op.t);
      }
    }
  }
}
