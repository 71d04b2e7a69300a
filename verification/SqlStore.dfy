/** The SQL store, each statement read as a step on tables, against the in-memory store. */
module SqlStore {
  import opened Wrappers
  import opened Rail
  import opened Store

  // ---------------------------------------------------------------- tables with a primary key

  predicate HasKey<T>(rows: seq<T>, key: T -> string, id: string) {
    exists i :: 0 <= i < |rows| && key(rows[i]) == id
  }

  /** INSERT ... ON CONFLICT DO NOTHING. */
  function InsertAbsent<T>(rows: seq<T>, key: T -> string, row: T): seq<T> {
    if HasKey(rows, key, key(row)) then rows else rows + [row]
  }

  function SettleKey(): SettleEntry -> string {
    (e: SettleEntry) => e.settleId
  }

  function ChargebackKey(): ChargebackEntry -> string {
    (e: ChargebackEntry) => e.chargebackId
  }

  datatype Tables = Tables(requests: map<string, Record>, settlements: seq<SettleEntry>, chargebacks: seq<ChargebackEntry>)

  const NO_ROWS := Tables(map[], [], [])

  /** INSERT ... ON CONFLICT (payment_id) DO UPDATE of every column but `created_at`. */
  function SqlUpserted(t: Tables, r: Record, now: Time): Tables {
    var row := r.(createdAt := if r.createdAt == UNSET then now else r.createdAt, updatedAt := now);
    var p := r.paymentId;
    t.(requests := t.requests[p := if p in t.requests then row.(createdAt := t.requests[p].createdAt) else row])
  }

  function SqlWithStatus(t: Tables, p: string, status: Status, code: string, msg: string, now: Time): Tables {
    if p !in t.requests then t
    else t.(requests := t.requests[p := t.requests[p].(status := status, errorCode := code, errorMessage := msg, updatedAt := now)])
  }

  /** One transaction: insert the settlement unless its id is taken, then mark the payment. */
  function SqlSettled(t: Tables, e: SettleEntry, now: Time, later: Time): Tables {
    var row := e.(settledAt := if e.settledAt == UNSET then now else e.settledAt, settleId := SettleIdOf(e));
    Tables(Marked(t.requests, e.paymentId, SETTLED, later), InsertAbsent(t.settlements, SettleKey(), row), t.chargebacks)
  }

  function SqlChargedBack(t: Tables, e: ChargebackEntry, now: Time, later: Time): Tables {
    Tables(Marked(t.requests, e.paymentId, CHARGEBACK, later), t.settlements,
           InsertAbsent(t.chargebacks, ChargebackKey(), Completed(e, now)))
  }

  class Db {
    var requests: map<string, Record>
    var settlements: seq<SettleEntry>
    var chargebacks: seq<ChargebackEntry>

    constructor ()
      ensures View() == NO_ROWS
    {
      requests, settlements, chargebacks := map[], [], [];
    }

    function View(): Tables
      reads this
    {
      Tables(requests, settlements, chargebacks)
    }

    method Upsert(record: Record, now: Time)
      modifies this
      ensures View() == SqlUpserted(old(View()), record, now)
    {
      var r := record;
      if r.createdAt == UNSET {
        r := r.(createdAt := now);
      }
      r := r.(updatedAt := now);
      if r.paymentId in requests {
        r := r.(createdAt := requests[r.paymentId].createdAt);
      }
      requests := requests[r.paymentId := r];
    }

    method Get(p: string) returns (r: Option<Record>)
      ensures r == if p in View().requests then Some(View().requests[p]) else None
    {
      if p !in requests {
        return None;
      }
      return Some(requests[p]);
    }

    method SetStatus(p: string, status: Status, code: string, msg: string, now: Time) returns (ok: bool)
      modifies this
      ensures ok == (p in old(View()).requests) && View() == SqlWithStatus(old(View()), p, status, code, msg, now)
    {
      var affected := 0;
      if p in requests {
        requests := requests[p := requests[p].(status := status, errorCode := code, errorMessage := msg, updatedAt := now)];
        affected := 1;
      }
      return affected > 0;
    }

    method AddSettle(entry: SettleEntry, now: Time, later: Time)
      modifies this
      ensures View() == SqlSettled(old(View()), entry, now, later)
    {
      var e := entry;
      if e.settledAt == UNSET {
        e := e.(settledAt := now);
      }
      if e.settleId == "" {
        e := e.(settleId := "settle-" + e.paymentId);
      }
      if !HasKey(settlements, SettleKey(), e.settleId) {
        settlements := settlements + [e];
      }
      requests := Marked(requests, e.paymentId, SETTLED, later);
    }

    /** SELECT COALESCE(SUM(amount), 0) ... WHERE payment_id = p. */
    method SettledAmount(p: string) returns (sum: Money)
      ensures sum == SettledTotal(View().settlements, p)
    {
      sum := 0.0;
      var i := 0;
      while i < |settlements|
        invariant 0 <= i <= |settlements| && sum == SettledTotal(settlements[..i], p)
      {
        assert settlements[..i + 1][..i] == settlements[..i];
        if settlements[i].paymentId == p {
          sum := sum + settlements[i].amount;
        }
        i := i + 1;
      }
      assert settlements[..i] == settlements;
    }

    method AddChargeback(entry: ChargebackEntry, now: Time, later: Time) returns (e: ChargebackEntry)
      modifies this
      ensures View() == SqlChargedBack(old(View()), entry, now, later) && e == Completed(entry, now)
    {
      e := Completed(entry, now);
      if !HasKey(chargebacks, ChargebackKey(), e.chargebackId) {
        chargebacks := chargebacks + [e];
      }
      requests := Marked(requests, e.paymentId, CHARGEBACK, later);
    }
  }

  // ---------------------------------------------------------------- first rows and repeated rows

  /** The rows whose key no earlier row has. */
  function FirstBy<T>(rows: seq<T>, key: T -> string): seq<T> {
    if rows == [] then [] else InsertAbsent(FirstBy(rows[..|rows| - 1], key), key, rows[|rows| - 1])
  }

  /** The others. */
  function RepeatsBy<T>(rows: seq<T>, key: T -> string): seq<T> {
    if rows == [] then []
    else
      var init, last := rows[..|rows| - 1], rows[|rows| - 1];
      RepeatsBy(init, key) + if HasKey(init, key, key(last)) then [last] else []
  }

  lemma HasKeySnoc<T>(rows: seq<T>, row: T, key: T -> string, id: string)
    ensures HasKey(rows + [row], key, id) <==> HasKey(rows, key, id) || key(row) == id
  {
    var all := rows + [row];
    if HasKey(rows, key, id) {
      var i :| 0 <= i < |rows| && key(rows[i]) == id;
      assert all[i] == rows[i];
    }
    if key(row) == id {
      assert all[|rows|] == row;
    }
    if HasKey(all, key, id) && key(row) != id {
      var i :| 0 <= i < |all| && key(all[i]) == id;
      assert all[i] == rows[i];
    }
  }

  lemma {:induction false} FirstByKeys<T>(rows: seq<T>, key: T -> string, id: string)
    ensures HasKey(FirstBy(rows, key), key, id) <==> HasKey(rows, key, id)
  {
    if rows != [] {
      var init, last := rows[..|rows| - 1], rows[|rows| - 1];
      assert rows == init + [last];
      FirstByKeys(init, key, id);
      HasKeySnoc(init, last, key, id);
      HasKeySnoc(FirstBy(init, key), last, key, id);
    }
  }

  predicate Distinct<T>(rows: seq<T>, key: T -> string) {
    forall i, j :: 0 <= i < j < |rows| ==> key(rows[i]) != key(rows[j])
  }

  lemma {:induction false} FirstOfDistinct<T>(rows: seq<T>, key: T -> string)
    requires Distinct(rows, key)
    ensures FirstBy(rows, key) == rows
  {
    if rows != [] {
      FirstOfDistinct(rows[..|rows| - 1], key);
    }
  }

  // ---------------------------------------------------------------- both stores side by side

  /** Clock readings of one operation on each store. */
  datatype Clocks = Clocks(memNow: Time, memLater: Time, sqlNow: Time, sqlLater: Time)

  datatype StoreOp =
    | Upsert(r: Record, t: Clocks)
    | SetStatus(p: string, status: Status, code: string, msg: string, t: Clocks)
    | AddSettle(e: SettleEntry, t: Clocks)
    | AddChargeback(c: ChargebackEntry, t: Clocks)

  function MemStep(s: MemState, op: StoreOp): MemState {
    match op
    case Upsert(r, t) => Upserted(s, r, t.memNow)
    case SetStatus(p, status, code, msg, t) => WithStatus(s, p, status, code, msg, t.memNow)
    case AddSettle(e, t) => Settled(s, e, t.memNow, t.memLater)
    case AddChargeback(c, t) => ChargedBack(s, c, t.memNow, t.memLater)
  }

  function SqlStep(t: Tables, op: StoreOp): Tables {
    match op
    case Upsert(r, c) => SqlUpserted(t, r, c.sqlNow)
    case SetStatus(p, status, code, msg, c) => SqlWithStatus(t, p, status, code, msg, c.sqlNow)
    case AddSettle(e, c) => SqlSettled(t, e, c.sqlNow, c.sqlLater)
    case AddChargeback(e, c) => SqlChargedBack(t, e, c.sqlNow, c.sqlLater)
  }

  function MemRun(ops: seq<StoreOp>): MemState {
    if ops == [] then EMPTY else MemStep(MemRun(ops[..|ops| - 1]), ops[|ops| - 1])
  }

  function SqlRun(ops: seq<StoreOp>): Tables {
    if ops == [] then NO_ROWS else SqlStep(SqlRun(ops[..|ops| - 1]), ops[|ops| - 1])
  }

  /** Everything but the timestamps. */
  function Timeless(r: Record): Record {
    r.(createdAt := UNSET, updatedAt := UNSET)
  }

  function TimelessRows(m: map<string, Record>): map<string, Record> {
    map p | p in m :: Timeless(m[p])
  }

  function TimelessSettles(s: seq<SettleEntry>): seq<SettleEntry> {
    seq(|s|, i requires 0 <= i < |s| => s[i].(settledAt := UNSET))
  }

  function TimelessChargebacks(s: seq<ChargebackEntry>): seq<ChargebackEntry> {
    seq(|s|, i requires 0 <= i < |s| => s[i].(receivedAt := UNSET))
  }

  /** The relation every run keeps: the same payment rows, and the SQL tables hold the first
      settlement and chargeback of every id that the memory lists hold all of. */
  predicate Simulates(s: MemState, t: Tables) {
    && TimelessRows(s.requests) == TimelessRows(t.requests)
    && TimelessSettles(t.settlements) == FirstBy(TimelessSettles(s.settles), SettleKey())
    && TimelessChargebacks(t.chargebacks) == FirstBy(TimelessChargebacks(s.chargebacks), ChargebackKey())
  }

  lemma TimelessUpdate(m: map<string, Record>, p: string, r: Record)
    ensures TimelessRows(m[p := r]) == TimelessRows(m)[p := Timeless(r)]
  {
  }

  lemma TimelessMarked(m: map<string, Record>, n: map<string, Record>, p: string, status: Status, a: Time, b: Time)
    requires TimelessRows(m) == TimelessRows(n)
    ensures TimelessRows(Marked(m, p, status, a)) == TimelessRows(Marked(n, p, status, b))
  {
    assert p in TimelessRows(m) <==> p in m;
    assert p in TimelessRows(n) <==> p in n;
    if p in m {
      assert TimelessRows(m)[p] == TimelessRows(n)[p];
      TimelessUpdate(m, p, m[p].(status := status, updatedAt := a));
      TimelessUpdate(n, p, n[p].(status := status, updatedAt := b));
    }
  }

  lemma SettleInserted(mem: seq<SettleEntry>, sql: seq<SettleEntry>, a: SettleEntry, b: SettleEntry)
    requires TimelessSettles(sql) == FirstBy(TimelessSettles(mem), SettleKey())
    requires a.(settledAt := UNSET) == b.(settledAt := UNSET)
    ensures TimelessSettles(InsertAbsent(sql, SettleKey(), b)) == FirstBy(TimelessSettles(mem + [a]), SettleKey())
  {
    var key := SettleKey();
    var bare := b.(settledAt := UNSET);
    assert TimelessSettles(mem + [a]) == TimelessSettles(mem) + [bare];
    assert (TimelessSettles(mem) + [bare])[..|mem|] == TimelessSettles(mem);
    assert HasKey(sql, key, b.settleId) <==> HasKey(TimelessSettles(sql), key, b.settleId) by {
      if HasKey(sql, key, b.settleId) {
        var i :| 0 <= i < |sql| && key(sql[i]) == b.settleId;
        assert key(TimelessSettles(sql)[i]) == b.settleId;
      }
      if HasKey(TimelessSettles(sql), key, b.settleId) {
        var i :| 0 <= i < |sql| && key(TimelessSettles(sql)[i]) == b.settleId;
        assert key(sql[i]) == b.settleId;
      }
    }
    assert TimelessSettles(sql + [b]) == TimelessSettles(sql) + [bare];
  }

  lemma ChargebackInserted(mem: seq<ChargebackEntry>, sql: seq<ChargebackEntry>, a: ChargebackEntry, b: ChargebackEntry)
    requires TimelessChargebacks(sql) == FirstBy(TimelessChargebacks(mem), ChargebackKey())
    requires a.(receivedAt := UNSET) == b.(receivedAt := UNSET)
    ensures TimelessChargebacks(InsertAbsent(sql, ChargebackKey(), b)) == FirstBy(TimelessChargebacks(mem + [a]), ChargebackKey())
  {
    var key := ChargebackKey();
    var bare := b.(receivedAt := UNSET);
    assert TimelessChargebacks(mem + [a]) == TimelessChargebacks(mem) + [bare];
    assert (TimelessChargebacks(mem) + [bare])[..|mem|] == TimelessChargebacks(mem);
    assert HasKey(sql, key, b.chargebackId) <==> HasKey(TimelessChargebacks(sql), key, b.chargebackId) by {
      if HasKey(sql, key, b.chargebackId) {
        var i :| 0 <= i < |sql| && key(sql[i]) == b.chargebackId;
        assert key(TimelessChargebacks(sql)[i]) == b.chargebackId;
      }
      if HasKey(TimelessChargebacks(sql), key, b.chargebackId) {
        var i :| 0 <= i < |sql| && key(TimelessChargebacks(sql)[i]) == b.chargebackId;
        assert key(sql[i]) == b.chargebackId;
      }
    }
    assert TimelessChargebacks(sql + [b]) == TimelessChargebacks(sql) + [bare];
  }

  /** On every run, with whatever clocks: the two stores agree on all payment rows, and differ in
      the lists exactly by the rows ON CONFLICT DO NOTHING drops. */
  lemma {:induction false} StoresSimulate(ops: seq<StoreOp>)
    ensures Simulates(MemRun(ops), SqlRun(ops))
  {
    if ops != [] {
      StoresSimulate(ops[..|ops| - 1]);
      SimulateStep(MemRun(ops[..|ops| - 1]), SqlRun(ops[..|ops| - 1]), ops[|ops| - 1]);
    }
  }

  lemma SimulateStep(s: MemState, t: Tables, op: StoreOp)
    requires Simulates(s, t)
    ensures Simulates(MemStep(s, op), SqlStep(t, op))
  {
    match op
    case Upsert(r, c) =>
      TimelessUpdate(s.requests, r.paymentId, MemStep(s, op).requests[r.paymentId]);
      TimelessUpdate(t.requests, r.paymentId, SqlStep(t, op).requests[r.paymentId]);
    case SetStatus(p, status, code, msg, c) =>
      assert p in TimelessRows(s.requests) <==> p in s.requests;
      assert p in TimelessRows(t.requests) <==> p in t.requests;
      if p in s.requests {
        assert TimelessRows(s.requests)[p] == TimelessRows(t.requests)[p];
        TimelessUpdate(s.requests, p, MemStep(s, op).requests[p]);
        TimelessUpdate(t.requests, p, SqlStep(t, op).requests[p]);
      }
    case AddSettle(e, c) =>
      TimelessMarked(s.requests, t.requests, e.paymentId, SETTLED, c.memLater, c.sqlLater);
      var a := e.(settledAt := c.memNow, settleId := SettleIdOf(e));
      var b := e.(settledAt := if e.settledAt == UNSET then c.sqlNow else e.settledAt, settleId := SettleIdOf(e));
      SettleInserted(s.settles, t.settlements, a, b);
    case AddChargeback(e, c) =>
      TimelessMarked(s.requests, t.requests, e.paymentId, CHARGEBACK, c.memLater, c.sqlLater);
      ChargebackInserted(s.chargebacks, t.chargebacks, Completed(e, c.memNow), Completed(e, c.sqlNow));
  }

  // ---------------------------------------------------------------- settled amounts

  lemma {:induction false} TimelessTotal(s: seq<SettleEntry>, p: string)
    ensures SettledTotal(TimelessSettles(s), p) == SettledTotal(s, p)
  {
    if s != [] {
      var n := |s| - 1;
      TimelessTotal(s[..n], p);
      assert TimelessSettles(s)[..n] == TimelessSettles(s[..n]);
    }
  }

  lemma {:induction false} SplitTotal(s: seq<SettleEntry>, p: string)
    ensures SettledTotal(s, p) == SettledTotal(FirstBy(s, SettleKey()), p) + SettledTotal(RepeatsBy(s, SettleKey()), p)
  {
    if s != [] {
      var init, last := s[..|s| - 1], s[|s| - 1];
      SplitTotal(init, p);
      FirstByKeys(init, SettleKey(), last.settleId);
      SettledSnoc(FirstBy(init, SettleKey()), last);
      SettledSnoc(RepeatsBy(init, SettleKey()), last);
      assert RepeatsBy(init, SettleKey()) + [] == RepeatsBy(init, SettleKey());
    }
  }

  /** On every run the in-memory settled amount of a payment is the SQL one plus exactly the
      amounts of its settlements whose id an earlier settlement already had. */
  lemma SettledDifference(ops: seq<StoreOp>, p: string)
    ensures SettledTotal(MemRun(ops).settles, p) ==
            SettledTotal(SqlRun(ops).settlements, p)
            + SettledTotal(RepeatsBy(TimelessSettles(MemRun(ops).settles), SettleKey()), p)
  {
    StoresSimulate(ops);
    var all := TimelessSettles(MemRun(ops).settles);
    SplitTotal(all, p);
    TimelessTotal(MemRun(ops).settles, p);
    TimelessTotal(SqlRun(ops).settlements, p);
  }

  lemma TimelessDistinct(s: seq<SettleEntry>)
    requires Distinct(s, SettleKey())
    ensures Distinct(TimelessSettles(s), SettleKey())
  {
    forall i, j | 0 <= i < j < |s| ensures SettleKey()(TimelessSettles(s)[i]) != SettleKey()(TimelessSettles(s)[j]) {
      assert SettleKey()(s[i]) != SettleKey()(s[j]);
    }
  }

  lemma TimelessDistinctChargebacks(s: seq<ChargebackEntry>)
    requires Distinct(s, ChargebackKey())
    ensures Distinct(TimelessChargebacks(s), ChargebackKey())
  {
    forall i, j | 0 <= i < j < |s| ensures ChargebackKey()(TimelessChargebacks(s)[i]) != ChargebackKey()(TimelessChargebacks(s)[j]) {
      assert ChargebackKey()(s[i]) != ChargebackKey()(s[j]);
    }
  }

  /** With distinct settlement ids the two stores hold the same settlements, in the same order,
      and with distinct chargeback ids the same chargebacks. */
  lemma DistinctIdsAgree(ops: seq<StoreOp>)
    ensures Distinct(MemRun(ops).settles, SettleKey()) ==>
              TimelessSettles(MemRun(ops).settles) == TimelessSettles(SqlRun(ops).settlements)
              && forall p :: SettledTotal(MemRun(ops).settles, p) == SettledTotal(SqlRun(ops).settlements, p)
    ensures Distinct(MemRun(ops).chargebacks, ChargebackKey()) ==>
              TimelessChargebacks(MemRun(ops).chargebacks) == TimelessChargebacks(SqlRun(ops).chargebacks)
  {
    StoresSimulate(ops);
    if Distinct(MemRun(ops).chargebacks, ChargebackKey()) {
      TimelessDistinctChargebacks(MemRun(ops).chargebacks);
      FirstOfDistinct(TimelessChargebacks(MemRun(ops).chargebacks), ChargebackKey());
    }
    if Distinct(MemRun(ops).settles, SettleKey()) {
      SettlesAgree(MemRun(ops).settles, SqlRun(ops).settlements);
    }
  }

  lemma SettlesAgree(mem: seq<SettleEntry>, sql: seq<SettleEntry>)
    requires Distinct(mem, SettleKey()) && TimelessSettles(sql) == FirstBy(TimelessSettles(mem), SettleKey())
    ensures TimelessSettles(mem) == TimelessSettles(sql)
    ensures forall p :: SettledTotal(mem, p) == SettledTotal(sql, p)
  {
    TimelessDistinct(mem);
    FirstOfDistinct(TimelessSettles(mem), SettleKey());
    forall p ensures SettledTotal(mem, p) == SettledTotal(sql, p) {
      TimelessTotal(mem, p);
      TimelessTotal(sql, p);
    }
  }

  // ---------------------------------------------------------------- matcher ids

  /** The ids the matcher gives, and the default ids: one per payment. */
  predicate IdPerPayment(s: seq<SettleEntry>) {
    forall i :: 0 <= i < |s| ==> s[i].settleId == "settle-" + s[i].paymentId
  }

  function FirstAmount(s: seq<SettleEntry>, p: string): Money {
    if s == [] then 0.0 else if s[0].paymentId == p then s[0].amount else FirstAmount(s[1..], p)
  }

  predicate Names(s: seq<SettleEntry>, p: string) {
    exists i :: 0 <= i < |s| && s[i].paymentId == p
  }

  lemma {:induction false} FirstAmountSnoc(s: seq<SettleEntry>, e: SettleEntry, p: string)
    ensures FirstAmount(s + [e], p) == if Names(s, p) then FirstAmount(s, p) else if e.paymentId == p then e.amount else 0.0
  {
    if s == [] {
      assert (s + [e])[1..] == [];
    } else {
      assert (s + [e])[1..] == s[1..] + [e];
      FirstAmountSnoc(s[1..], e, p);
      if Names(s[1..], p) {
        var i :| 0 <= i < |s[1..]| && s[1..][i].paymentId == p;
        assert s[i + 1].paymentId == p;
      }
      if Names(s, p) && s[0].paymentId != p {
        var i :| 0 <= i < |s| && s[i].paymentId == p;
        assert s[1..][i - 1].paymentId == p;
      }
    }
  }

  lemma KeyNamesPayment(s: seq<SettleEntry>, p: string)
    requires IdPerPayment(s)
    ensures HasKey(s, SettleKey(), "settle-" + p) <==> Names(s, p)
  {
    if HasKey(s, SettleKey(), "settle-" + p) {
      var i :| 0 <= i < |s| && SettleKey()(s[i]) == "settle-" + p;
      assert ("settle-" + s[i].paymentId)[7..] == s[i].paymentId && ("settle-" + p)[7..] == p;
    }
    if Names(s, p) {
      var i :| 0 <= i < |s| && s[i].paymentId == p;
      assert SettleKey()(s[i]) == "settle-" + p;
    }
  }

  lemma {:induction false} FirstByPayment(s: seq<SettleEntry>, p: string)
    requires IdPerPayment(s)
    ensures SettledTotal(FirstBy(s, SettleKey()), p) == FirstAmount(s, p)
    ensures !Names(s, p) ==> FirstAmount(s, p) == 0.0
  {
    if s != [] {
      var init, last := s[..|s| - 1], s[|s| - 1];
      assert s == init + [last];
      FirstByPayment(init, p);
      FirstAmountSnoc(init, last, p);
      KeyNamesPayment(init, last.paymentId);
      FirstByKeys(init, SettleKey(), last.settleId);
      SettledSnoc(FirstBy(init, SettleKey()), last);
      if Names(init, p) {
        var i :| 0 <= i < |init| && init[i].paymentId == p;
        assert s[i].paymentId == p;
      }
      if last.paymentId == p {
        assert s[|s| - 1].paymentId == p;
      }
    }
  }

  /** When every settlement carries the id the matcher gives it, the SQL store keeps for each
      payment the amount of its first settlement only, while the in-memory store adds them all:
      a payment settled in parts is under-reported by SQL. */
  lemma SqlKeepsFirstPart(ops: seq<StoreOp>, p: string)
    requires IdPerPayment(MemRun(ops).settles)
    ensures SettledTotal(SqlRun(ops).settlements, p) == FirstAmount(TimelessSettles(MemRun(ops).settles), p)
  {
    StoresSimulate(ops);
    FirstByPayment(TimelessSettles(MemRun(ops).settles), p);
    TimelessTotal(SqlRun(ops).settlements, p);
  }

  // ---------------------------------------------------------------- creation times

  /** No operation moves the creation time of a payment that exists, in either store, nor removes
      the payment. */
  lemma {:induction false} CreatedAtFixed(ops: seq<StoreOp>, k: nat, p: string)
    requires k <= |ops|
    ensures p in MemRun(ops[..k]).requests ==>
              p in MemRun(ops).requests && MemRun(ops).requests[p].createdAt == MemRun(ops[..k]).requests[p].createdAt
    ensures p in SqlRun(ops[..k]).requests ==>
              p in SqlRun(ops).requests && SqlRun(ops).requests[p].createdAt == SqlRun(ops[..k]).requests[p].createdAt
    decreases |ops|
  {
    if k < |ops| {
      var init := ops[..|ops| - 1];
      assert init[..k] == ops[..k];
      CreatedAtFixed(init, k, p);
    } else {
      assert ops[..k] == ops;
    }
  }
}
