/** Field by field, what each operation writes, logs and answers. */
module Effects {
  import opened Text
  import opened Wrappers
  import opened Rail
  import opened Store
  import opened Settlement
  import opened Matcher
  import opened Connector
  import opened Server
  import opened SqlStore

  // ---------------------------------------------------------------- rows

  /** Every row but that of `p` is as before, and no other row has come or gone. */
  ghost predicate OthersKept(before: map<string, Record>, after: map<string, Record>, p: string) {
    && (forall q :: q != p ==> (q in before <==> q in after))
    && (forall q :: q != p && q in before ==> after[q] == before[q])
  }

  /** The row is the given record up to its times: the creation time of the row it replaces, else its
      own, else now; the update time now. */
  lemma UpsertWrites(s: MemState, r: Record, now: Time)
    ensures var s' := Upserted(s, r, now);
            var p := r.paymentId;
            && p in s'.requests && OthersKept(s.requests, s'.requests, p)
            && s'.settles == s.settles && s'.chargebacks == s.chargebacks
            && s'.requests[p] == r.(createdAt := s'.requests[p].createdAt, updatedAt := now)
            && (p in s.requests ==> s'.requests[p].createdAt == s.requests[p].createdAt)
            && (p !in s.requests && r.createdAt != UNSET ==> s'.requests[p].createdAt == r.createdAt)
            && (p !in s.requests && r.createdAt == UNSET ==> s'.requests[p].createdAt == now)
  {
  }

  lemma StatusWrites(s: MemState, p: string, status: Status, code: string, msg: string, now: Time)
    ensures var s' := WithStatus(s, p, status, code, msg, now);
            && OthersKept(s.requests, s'.requests, p) && s'.settles == s.settles && s'.chargebacks == s.chargebacks
            && (p in s.requests <==> p in s'.requests)
            && (p in s.requests ==>
                  s'.requests[p] == s.requests[p].(status := status, errorCode := code, errorMessage := msg, updatedAt := now))
  {
  }

  /** The status goes to the row of the payment, if there is one, and nothing else in it changes but
      the update time. */
  ghost predicate OnlyMarked(before: map<string, Record>, after: map<string, Record>, p: string, status: Status, now: Time) {
    && OthersKept(before, after, p) && (p in before <==> p in after)
    && (p in before ==> after[p] == before[p].(status := status, updatedAt := now))
  }

  /** A settlement is appended with all its fields, the clock for its time and an id of its payment where
      it has none. */
  lemma SettleWrites(s: MemState, e: SettleEntry, now: Time, later: Time)
    ensures var s' := Settled(s, e, now, later);
            && OnlyMarked(s.requests, s'.requests, e.paymentId, "settled", later) && s'.chargebacks == s.chargebacks
            && |s'.settles| == |s.settles| + 1 && s'.settles[..|s.settles|] == s.settles
            && var last := s'.settles[|s.settles|];
               && last == e.(settleId := last.settleId, settledAt := now)
               && last.settleId == if e.settleId != "" then e.settleId else "settle-" + e.paymentId
  {
  }

  /** A chargeback likewise, with the clock, an id and a status where it has none. */
  lemma ChargebackWrites(s: MemState, e: ChargebackEntry, now: Time, later: Time)
    ensures var s' := ChargedBack(s, e, now, later);
            && OnlyMarked(s.requests, s'.requests, e.paymentId, "chargeback", later) && s'.settles == s.settles
            && |s'.chargebacks| == |s.chargebacks| + 1 && s'.chargebacks[..|s.chargebacks|] == s.chargebacks
            && var last := s'.chargebacks[|s.chargebacks|];
               && last == Completed(e, now)
               && last == e.(chargebackId := last.chargebackId, receivedAt := last.receivedAt, status := last.status)
               && last.chargebackId == (if e.chargebackId != "" then e.chargebackId else "cbk-" + e.paymentId)
               && last.receivedAt == (if e.receivedAt != UNSET then e.receivedAt else now)
               && last.status == (if e.status != "" then e.status else "chargeback")
  {
  }

  /** The chargebacks of a payment: the sublist of those that name it, in order. */
  lemma {:induction false} ChargebacksSublist(s: seq<ChargebackEntry>, p: string)
    ensures forall c: ChargebackEntry :: c in ChargebacksOf(s, p) <==> c in s && c.paymentId == p
    ensures forall c: ChargebackEntry :: c.paymentId == p ==> multiset(ChargebacksOf(s, p))[c] == multiset(s)[c]
    ensures forall t: seq<ChargebackEntry> :: ChargebacksOf(s + t, p) == ChargebacksOf(s, p) + ChargebacksOf(t, p)
  {
    if s != [] {
      var init, last := s[..|s| - 1], s[|s| - 1];
      ChargebacksSublist(init, p);
      assert s == init + [last];
    }
    forall t: seq<ChargebackEntry> ensures ChargebacksOf(s + t, p) == ChargebacksOf(s, p) + ChargebacksOf(t, p) {
      ChargebacksConcat(s, t, p);
    }
  }

  lemma {:induction false} ChargebacksConcat(s: seq<ChargebackEntry>, t: seq<ChargebackEntry>, p: string)
    ensures ChargebacksOf(s + t, p) == ChargebacksOf(s, p) + ChargebacksOf(t, p)
  {
    if t == [] {
      assert s + t == s;
    } else {
      assert (s + t)[..|s + t| - 1] == s + t[..|t| - 1];
      ChargebacksConcat(s, t[..|t| - 1], p);
    }
  }

  // ---------------------------------------------------------------- the same in SQL

  lemma SqlUpsertWrites(t: Tables, r: Record, now: Time)
    ensures var t' := SqlUpserted(t, r, now);
            var p := r.paymentId;
            && p in t'.requests && OthersKept(t.requests, t'.requests, p)
            && t'.settlements == t.settlements && t'.chargebacks == t.chargebacks
            && t'.requests[p] == r.(createdAt := t'.requests[p].createdAt, updatedAt := now)
            && (p in t.requests ==> t'.requests[p].createdAt == t.requests[p].createdAt)
            && (p !in t.requests && r.createdAt != UNSET ==> t'.requests[p].createdAt == r.createdAt)
            && (p !in t.requests && r.createdAt == UNSET ==> t'.requests[p].createdAt == now)
  {
  }

  lemma SqlStatusWrites(t: Tables, p: string, status: Status, code: string, msg: string, now: Time)
    ensures var t' := SqlWithStatus(t, p, status, code, msg, now);
            && OthersKept(t.requests, t'.requests, p) && t'.settlements == t.settlements && t'.chargebacks == t.chargebacks
            && (p in t.requests <==> p in t'.requests)
            && (p in t.requests ==>
                  t'.requests[p] == t.requests[p].(status := status, errorCode := code, errorMessage := msg, updatedAt := now))
  {
  }

  /** A settlement whose id is taken leaves the table alone; any other is appended, its own time kept if
      it has one. The payment is marked in either case. */
  lemma SqlSettleWrites(t: Tables, e: SettleEntry, now: Time, later: Time)
    ensures var t' := SqlSettled(t, e, now, later);
            var id := if e.settleId != "" then e.settleId else "settle-" + e.paymentId;
            && OnlyMarked(t.requests, t'.requests, e.paymentId, "settled", later) && t'.chargebacks == t.chargebacks
            && t'.settlements ==
               if exists i :: 0 <= i < |t.settlements| && t.settlements[i].settleId == id then t.settlements
               else t.settlements + [e.(settleId := id, settledAt := if e.settledAt != UNSET then e.settledAt else now)]
  {
    var row := e.(settledAt := if e.settledAt == UNSET then now else e.settledAt, settleId := SettleIdOf(e));
    assert HasKey(t.settlements, SettleKey(), SettleKey()(row)) <==>
           exists i :: 0 <= i < |t.settlements| && t.settlements[i].settleId == SettleIdOf(e);
  }

  lemma SqlChargebackWrites(t: Tables, e: ChargebackEntry, now: Time, later: Time)
    ensures var t' := SqlChargedBack(t, e, now, later);
            var row := Completed(e, now);
            && OnlyMarked(t.requests, t'.requests, e.paymentId, "chargeback", later) && t'.settlements == t.settlements
            && t'.chargebacks ==
               if exists i :: 0 <= i < |t.chargebacks| && t.chargebacks[i].chargebackId == row.chargebackId then t.chargebacks
               else t.chargebacks + [row]
  {
    var row := Completed(e, now);
    assert HasKey(t.chargebacks, ChargebackKey(), ChargebackKey()(row)) <==>
           exists i :: 0 <= i < |t.chargebacks| && t.chargebacks[i].chargebackId == row.chargebackId;
  }

  // ---------------------------------------------------------------- authorize

  /** An event keeps the time it came with. */
  lemma StampKept(e: Event, now: Time)
    requires e.occurredAt != UNSET
    ensures Stamped(e, now) == e
  {
  }

  lemma AuthorizeEventReads(rail: string, p: string, status: Status, amount: Money, now: Time)
    ensures Stamped(EventOf(rail, p, "authorize", status, amount), now)
         == Event("rail.authorize", p, rail, "authorize", status, amount, now)
  {
    assert "rail." + "authorize" == "rail.authorize";
  }

  lemma MoveEventReads(rail: string, p: string, m: Movement, status: Status, amount: Money, now: Time)
    ensures Stamped(EventOf(rail, p, OpOf(m), status, amount), now) == Event(TypeOf(m), p, rail, NameOf(m), status, amount, now)
  {
    assert "rail." + "capture" == "rail.capture";
    assert "rail." + "refund" == "rail.refund";
  }

  /** An authorization that goes through: the row it stores field by field, its event, its answer. */
  lemma AuthorizeWrites(rail: string, w: World, input: Input, ref: string, t: Tick)
    requires input.paymentId != "" && !w.fail
    ensures var (w', r) := Authorized(rail, w, input, ref, t);
            var p := input.paymentId;
            && p in w'.store.requests && OthersKept(w.store.requests, w'.store.requests, p)
            && w'.store.settles == w.store.settles && w'.store.chargebacks == w.store.chargebacks
            && w'.totals == w.totals && w'.fail == w.fail
            && w'.store.requests[p] ==
               Record(p, rail, "authorize", input.amount, input.currency, "authorized", input.idempotencyKey, ref, "", "",
                      if p in w.store.requests then w.store.requests[p].createdAt else t.updated, t.updated)
            && w'.log == w.log + [Event("rail.authorize", p, rail, "authorize", "authorized", input.amount, t.emitted)]
            && r == Response("authorized", ref, "", "")
  {
    UpsertWrites(w.store, NewRecord(rail, input, ref), t.updated);
    AuthorizeEventReads(rail, input.paymentId, AUTHORIZED, input.amount, t.emitted);
  }

  /** One that does not: nothing is stored; without a payment id nothing is logged either. */
  lemma AuthorizeDeclines(rail: string, w: World, input: Input, ref: string, t: Tick)
    requires input.paymentId == "" || w.fail
    ensures var (w', r) := Authorized(rail, w, input, ref, t);
            && w'.store == w.store && w'.totals == w.totals && w'.fail == w.fail && r.status == "failed" && r.railRef == ""
            && r.errorCode == (if input.paymentId == "" then "INVALID_REQUEST" else "RAIL_UNAVAILABLE")
            && r.errorMessage == (if input.paymentId == "" then "missing payment_id" else "dummy rail forced failure")
            && w'.log == (if input.paymentId == "" then w.log
                          else w.log + [Event("rail.authorize", input.paymentId, rail, "authorize", "failed", input.amount, t.emitted)])
  {
    AuthorizeEventReads(rail, input.paymentId, FAILED, input.amount, t.emitted);
  }

  // ---------------------------------------------------------------- capture and refund

  function TypeOf(m: Movement): string {
    if m.Capture? then "rail.capture" else "rail.refund"
  }

  function NameOf(m: Movement): string {
    if m.Capture? then "capture" else "refund"
  }

  function StatusAfter(m: Movement): string {
    if m.Capture? then "captured" else "refunded"
  }

  /** A capture or refund that goes through: only the status, the error fields and the update time of
      its row change, one total moves, one event is logged, and the answer carries the row's reference. */
  lemma MoveWrites(rail: string, w: World, m: Movement, p: string, amount: Money, t: Tick)
    requires GoesThrough(w, m, p)
    ensures var (w', r) := Moved(rail, w, m, p, amount, t);
            var row := w.store.requests[p];
            && p in w'.store.requests && OthersKept(w.store.requests, w'.store.requests, p)
            && w'.store.settles == w.store.settles && w'.store.chargebacks == w.store.chargebacks && w'.fail == w.fail
            && w'.store.requests[p] == row.(status := StatusAfter(m), errorCode := "", errorMessage := "", updatedAt := t.updated)
            && (forall q :: Total(w'.totals, q) ==
                  Total(w.totals, q) + if q != rail then 0.0 else if m.Capture? then amount else -amount)
            && w'.log == w.log + [Event(TypeOf(m), p, rail, NameOf(m), StatusAfter(m), amount, t.emitted)]
            && r == Response(StatusAfter(m), row.railRef, "", "")
  {
    StatusWrites(w.store, p, TargetOf(m), "", "", t.updated);
    MoveEventReads(rail, p, m, TargetOf(m), amount, t.emitted);
  }

  /** One that does not: which code and message it answers, in the order the checks are made; only the
      forced failure is logged. */
  lemma MoveDeclines(rail: string, w: World, m: Movement, p: string, amount: Money, t: Tick)
    requires !GoesThrough(w, m, p)
    ensures var (w', r) := Moved(rail, w, m, p, amount, t);
            && w'.store == w.store && w'.totals == w.totals && w'.fail == w.fail && r.status == "failed" && r.railRef == ""
            && r.errorCode == (if p != "" && w.fail then "RAIL_UNAVAILABLE" else "INVALID_REQUEST")
            && r.errorMessage == (if p == "" then "missing payment_id"
                                  else if w.fail then "dummy rail forced failure"
                                  else if p !in w.store.requests then "unknown payment_id"
                                  else "cannot " + NameOf(m) + " from status \"" + w.store.requests[p].status + "\"")
            && w'.log == (if p == "" || !w.fail then w.log
                          else w.log + [Event(TypeOf(m), p, rail, NameOf(m), "failed", amount, t.emitted)])
  {
    MoveEventReads(rail, p, m, FAILED, amount, t.emitted);
    if p != "" && !w.fail && p in w.store.requests {
      RefusalText(m, w.store.requests[p].status);
    }
  }

  lemma RefusalText(m: Movement, status: Status)
    ensures Refusal(m, status) == "cannot " + NameOf(m) + " from status \"" + status + "\""
  {
    var front := if m.Capture? then "cannot capture from status " else "cannot refund from status ";
    assert "cannot " + NameOf(m) + " from status \"" == front + "\"";
    assert front + ("\"" + status + "\"") == front + "\"" + status + "\"";
  }

  /** From which statuses the movements start. */
  lemma StartStatuses(status: Status)
    ensures MayStart(Capture, status) <==> status == "authorized"
    ensures MayStart(Refund, status) <==> status == "captured" || status == "settled"
  {
  }

  // ---------------------------------------------------------------- handlers

  /** The codes of capture and refund requests. */
  lemma MovementCodes(rail: string, w: World, m: Movement, p: string, amount: Money, t: Tick)
    ensures Handled(rail, w, m, p, amount, t).1 ==
            if p == "" then 400 else if p !in w.store.requests then 404 else if GoesThrough(w, m, p) then 200 else 422
  {
    MoveAnswer(rail, w, m, p, amount, t);
  }

  /** The code of an authorization. */
  lemma AuthorizeCode(rail: string, w: World, input: Input, ref: string, t: Tick)
    ensures CodeOf(Authorized(rail, w, input, ref, t).1) == if input.paymentId == "" || w.fail then 422 else 200
  {
  }

  /** The codes of a webhook, and what it logs. */
  lemma WebhookWrites(w: World, rail: string, p: string, status: Status, t: Tick)
    ensures var (w', code) := Webhooked(w, rail, p, status, t);
            var taken := rail != "" && p != "" && status != "" && ValidStatus(status);
            && code == (if rail == "" then 404 else if p == "" || status == "" || ValidStatus(status) then 200 else 400)
            && (!taken ==> w' == w)
            && (taken ==> w'.store == WithStatus(w.store, p, status, "", "", t.updated) && w'.totals == w.totals
                          && w'.log == w.log + [Event("rail.webhook", p, rail, "webhook", status, 0.0, t.emitted)])
  {
  }

  // ---------------------------------------------------------------- the matcher

  /** The settlements a batch stores: one for each line of a known payment, in order, every field taken
      from the line but the id, made from the payment, and the time, read from the clock. */
  function StoredFor(known: set<string>, entries: seq<Line>, ticks: seq<Tick>): seq<SettleEntry>
    requires |entries| == |ticks|
  {
    if entries == [] then []
    else
      var n := |entries| - 1;
      var e := entries[n];
      StoredFor(known, entries[..n], ticks[..n])
      + if e.paymentId in known
        then [SettleEntry("settle-" + e.paymentId, e.rail, e.paymentId, e.amount, e.currency, ticks[n].settled, e.sourceRef)]
        else []
  }

  lemma StoredOne(b: Books, e: Line, t: Tick)
    requires e.paymentId in b.store.requests
    ensures MatchOne(b, e, t).0.store.settles ==
            b.store.settles
            + [SettleEntry("settle-" + e.paymentId, e.rail, e.paymentId, e.amount, e.currency, t.settled, e.sourceRef)]
  {
    SettleWrites(b.store, Entry(e), t.settled, t.updated);
  }

  lemma {:induction false} MatchStores(b: Books, entries: seq<Line>, ticks: seq<Tick>)
    requires |entries| == |ticks|
    ensures MatchAll(b, entries, ticks).0.store.settles == b.store.settles + StoredFor(b.store.requests.Keys, entries, ticks)
  {
    if entries != [] {
      var n := |entries| - 1;
      MatchStores(b, entries[..n], ticks[..n]);
      MatchKeeps(b, entries[..n], ticks[..n]);
      if entries[n].paymentId in b.store.requests {
        StoredOne(MatchAll(b, entries[..n], ticks[..n]).0, entries[n], ticks[n]);
      }
    }
  }

  /** What one line is answered and logged as. */
  lemma LineWrites(known: set<string>, e: Line, t: Tick)
    ensures EventFor(known, e, t) ==
            if e.paymentId in known
            then Event("rail.settlement.completed", e.paymentId, e.rail, "settle", "settled", e.amount, t.emitted)
            else Event("rail.settlement.break", e.paymentId, e.rail, "settle", "failed", e.amount, t.emitted)
    ensures BreakError(e) == RailError("SETTLEMENT_BREAK", "no rail_requests row for payment_id " + e.paymentId)
  {
  }

  // ---------------------------------------------------------------- statuses, errors, keys

  /** The valid statuses; unknown and the empty status are not among them. */
  lemma ValidStatuses(s: Status)
    ensures ValidStatus(s) <==>
            s in {"pending", "authorized", "captured", "settled", "refunded", "failed", "chargeback"}
  {
  }

  lemma ContainsMeans(s: string, sub: string)
    ensures Contains(s, sub) <==> exists front, back :: s == front + sub + back
  {
    if Contains(s, sub) {
      var i :| 0 <= i <= |s| - |sub| && sub <= s[i..];
      assert s == s[..i] + sub + s[i + |sub|..];
    }
    forall front, back | s == front + sub + back ensures Contains(s, sub) {
      var i := |front|;
      assert s[i..] == sub + back;
      assert 0 <= i <= |s| - |sub| && sub <= s[i..];
    }
  }

  /** Which errors are retried: a rail error by its code alone; any other, even one that wraps a rail
      error, by four words in its own text. */
  lemma RetryableExactly(e: Error)
    ensures IsRetryable(e) <==>
            match e
            case RailError(code, _) => code == "RAIL_UNAVAILABLE"
            case _ => exists word, front, back :: word in {"connection refused", "timeout", "no such host", "dial"}
                                                  && e.message == front + word + back
  {
    if !e.RailError? {
      ContainsMeans(e.message, "connection refused");
      ContainsMeans(e.message, "timeout");
      ContainsMeans(e.message, "no such host");
      ContainsMeans(e.message, "dial");
    }
  }

  /** A key reads as its parts: payment, colon, operation, colon, and the attempt in decimal. */
  lemma KeyReads(p: string, op: string, n: int)
    requires n >= 0
    ensures var key := IdempotencyKey(p, op, n);
            var i, j := |p|, |p| + 1 + |op|;
            && |key| > j && key[..i] == p && key[i] == ':' && key[i + 1..j] == op && key[j] == ':'
            && AllDigits(key[j + 1..]) && DecValue(key[j + 1..]) == n
  {
    var key := IdempotencyKey(p, op, n);
    var front := p + ":" + op + ":";
    assert front[..|p|] == p && front[|p|] == ':' && front[|p| + 1..|p| + 1 + |op|] == op && front[|p| + 1 + |op|] == ':';
    assert key == front + FormatInt(n);
    assert key[|front|..] == FormatInt(n);
    DecRoundTrip(n);
  }
}
