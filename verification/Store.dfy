/** The in-memory rail store: payment rows changed through pointers, settlements and chargebacks
appended to lists, and a cached settled total per payment. */
module Store {
  import opened Wrappers
  import opened Rail

  /** Exact decimal amounts. */
  type Money = real

  /** Clock readings; the zero time is the unset one. */
  type Time = int

  const UNSET: Time := 0

  datatype Record = Record(
    paymentId: string, rail: string, operation: string, amount: Money, currency: string, status: Status,
    idempotencyKey: string, railRef: string, errorCode: string, errorMessage: string, createdAt: Time, updatedAt: Time)

  datatype SettleEntry = SettleEntry(
    settleId: string, rail: string, paymentId: string, amount: Money, currency: string, settledAt: Time, sourceRef: string)

  datatype ChargebackEntry = ChargebackEntry(
    chargebackId: string, rail: string, paymentId: string, amount: Money, reasonCode: string, receivedAt: Time, status: Status)

  // ---------------------------------------------------------------- the store as a value

  datatype MemState = MemState(
    requests: map<string, Record>, settles: seq<SettleEntry>, chargebacks: seq<ChargebackEntry>)

  const EMPTY := MemState(map[], [], [])

  function Upserted(s: MemState, r: Record, now: Time): MemState {
    var created := if r.paymentId in s.requests then s.requests[r.paymentId].createdAt
                   else if r.createdAt == UNSET then now else r.createdAt;
    s.(requests := s.requests[r.paymentId := r.(createdAt := created, updatedAt := now)])
  }

  function WithStatus(s: MemState, p: string, status: Status, code: string, msg: string, now: Time): MemState {
    if p !in s.requests then s
    else s.(requests := s.requests[p := s.requests[p].(status := status, errorCode := code, errorMessage := msg, updatedAt := now)])
  }

  /** The status change settlements and chargebacks make: error fields stay. */
  function Marked(requests: map<string, Record>, p: string, status: Status, now: Time): map<string, Record> {
    if p !in requests then requests else requests[p := requests[p].(status := status, updatedAt := now)]
  }

  function SettleIdOf(e: SettleEntry): string {
    if e.settleId == "" then "settle-" + e.paymentId else e.settleId
  }

  function Settled(s: MemState, e: SettleEntry, now: Time, later: Time): MemState {
    MemState(Marked(s.requests, e.paymentId, SETTLED, later),
             s.settles + [e.(settledAt := now, settleId := SettleIdOf(e))], s.chargebacks)
  }

  function Completed(e: ChargebackEntry, now: Time): ChargebackEntry {
    e.(receivedAt := if e.receivedAt == UNSET then now else e.receivedAt,
       chargebackId := if e.chargebackId == "" then "cbk-" + e.paymentId else e.chargebackId,
       status := if e.status == "" then CHARGEBACK else e.status)
  }

  function ChargedBack(s: MemState, e: ChargebackEntry, now: Time, later: Time): MemState {
    MemState(Marked(s.requests, e.paymentId, CHARGEBACK, later), s.settles, s.chargebacks + [Completed(e, now)])
  }

  /** The sum of all settlements of one payment. */
  function SettledTotal(settles: seq<SettleEntry>, p: string): Money {
    if settles == [] then 0.0
    else SettledTotal(settles[..|settles| - 1], p)
         + if settles[|settles| - 1].paymentId == p then settles[|settles| - 1].amount else 0.0
  }

  function ChargebacksOf(chargebacks: seq<ChargebackEntry>, p: string): seq<ChargebackEntry> {
    if chargebacks == [] then []
    else
      var init, last := chargebacks[..|chargebacks| - 1], chargebacks[|chargebacks| - 1];
      ChargebacksOf(init, p) + if last.paymentId == p then [last] else []
  }

  // ---------------------------------------------------------------- the store as an object

  /** One row of the requests table, reached through a pointer. */
  class Row {
    var value: Record

    constructor (value: Record)
      ensures this.value == value
    {
      this.value := value;
    }
  }

  class MemStore {
    var requests: map<string, Row>
    var settles: seq<SettleEntry>
    var settleAmt: map<string, Money>
    var chargebacks: seq<ChargebackEntry>

    /** Rows are keyed by their own payment and never shared; the cached totals agree with the
        list they summarise. */
    ghost predicate Valid()
      reads this, requests.Values
    {
      RowsValid() && CacheValid()
    }

    ghost predicate RowsValid()
      reads this`requests, requests.Values
    {
      && (forall p :: p in requests ==> requests[p].value.paymentId == p)
      && (forall p, q :: p in requests && q in requests && p != q ==> requests[p] != requests[q])
    }

    ghost predicate CacheValid()
      reads this`settles, this`settleAmt
    {
      forall p :: Cached(p) == SettledTotal(settles, p)
    }

    function Rows(): map<string, Record>
      reads this`requests, requests.Values
    {
      map p | p in requests :: requests[p].value
    }

    function Cached(p: string): Money
      reads this`settleAmt
    {
      if p in settleAmt then settleAmt[p] else 0.0
    }

    function View(): MemState
      reads this, requests.Values
    {
      MemState(Rows(), settles, chargebacks)
    }

    constructor ()
      ensures Valid() && View() == EMPTY && requests == map[]
    {
      requests, settles, settleAmt, chargebacks := map[], [], map[], [];
    }

    method Upsert(record: Record, now: Time)
      requires Valid()
      modifies this
      ensures Valid() && View() == Upserted(old(View()), record, now)
      ensures fresh(requests.Values - old(requests.Values))
    {
      var r := record;
      if r.paymentId in requests {
        r := r.(createdAt := requests[r.paymentId].value.createdAt, updatedAt := now);
        Put(r);
        return;
      }
      if r.createdAt == UNSET {
        r := r.(createdAt := now);
      }
      r := r.(updatedAt := now);
      Put(r);
    }

    /** Point the payment at a new row. */
    method Put(r: Record)
      requires RowsValid()
      modifies this`requests
      ensures RowsValid() && Rows() == old(Rows())[r.paymentId := r]
      ensures fresh(requests.Values - old(requests.Values))
    {
      var row := new Row(r);
      requests := requests[r.paymentId := row];
    }

    /** Change the status of a payment, if there is one, through its row. */
    method Mark(p: string, status: Status, now: Time)
      requires RowsValid()
      modifies requests.Values
      ensures RowsValid() && Rows() == Marked(old(Rows()), p, status, now)
    {
      if p in requests {
        var row := requests[p];
        row.value := row.value.(status := status, updatedAt := now);
      }
    }

    method Get(p: string) returns (r: Option<Record>)
      requires Valid()
      ensures r == if p in View().requests then Some(View().requests[p]) else None
    {
      if p !in requests {
        return None;
      }
      r := Some(requests[p].value);
    }

    method SetStatus(p: string, status: Status, code: string, msg: string, now: Time) returns (ok: bool)
      requires Valid()
      modifies requests.Values
      ensures Valid() && ok == (p in old(View()).requests)
      ensures View() == WithStatus(old(View()), p, status, code, msg, now)
    {
      if p !in requests {
        return false;
      }
      var row := requests[p];
      row.value := row.value.(status := status, errorCode := code, errorMessage := msg, updatedAt := now);
      return true;
    }

    method AddSettle(entry: SettleEntry, now: Time, later: Time)
      requires Valid()
      modifies this, requests.Values
      ensures Valid() && View() == Settled(old(View()), entry, now, later)
      ensures requests == old(requests)
    {
      var e := entry.(settledAt := now);
      if e.settleId == "" {
        e := e.(settleId := "settle-" + e.paymentId);
      }
      Append(e);
      Mark(e.paymentId, SETTLED, later);
    }

    method Append(e: SettleEntry)
      requires CacheValid()
      modifies this`settles, this`settleAmt
      ensures CacheValid() && settles == old(settles) + [e]
    {
      SettledSnoc(settles, e);
      settles := settles + [e];
      settleAmt := settleAmt[e.paymentId := Cached(e.paymentId) + e.amount];
    }

    method SettledAmount(p: string) returns (amount: Money)
      requires Valid()
      ensures amount == SettledTotal(View().settles, p)
    {
      if p in settleAmt {
        return settleAmt[p];
      }
      assert Cached(p) == 0.0;
      amount := 0.0;
    }

    method AddChargeback(entry: ChargebackEntry, now: Time, later: Time) returns (e: ChargebackEntry)
      requires Valid()
      modifies this, requests.Values
      ensures Valid() && View() == ChargedBack(old(View()), entry, now, later)
      ensures e == Completed(entry, now) && requests == old(requests)
    {
      e := entry;
      if e.receivedAt == UNSET {
        e := e.(receivedAt := now);
      }
      if e.chargebackId == "" {
        e := e.(chargebackId := "cbk-" + e.paymentId);
      }
      if e.status == "" {
        e := e.(status := CHARGEBACK);
      }
      chargebacks := chargebacks + [e];
      Mark(e.paymentId, CHARGEBACK, later);
    }

    method ChargebacksFor(p: string) returns (out: seq<ChargebackEntry>)
      requires Valid()
      ensures out == ChargebacksOf(View().chargebacks, p)
    {
      out := [];
      var i := 0;
      while i < |chargebacks|
        invariant 0 <= i <= |chargebacks| && out == ChargebacksOf(chargebacks[..i], p)
      {
        assert chargebacks[..i + 1][..i] == chargebacks[..i];
        if chargebacks[i].paymentId == p {
          out := out + [chargebacks[i]];
        }
        i := i + 1;
      }
      assert chargebacks[..i] == chargebacks;
    }
  }

  lemma SettledSnoc(settles: seq<SettleEntry>, e: SettleEntry)
    ensures forall p :: SettledTotal(settles + [e], p) == SettledTotal(settles, p) + if e.paymentId == p then e.amount else 0.0
  {
    assert (settles + [e])[..|settles|] == settles;
  }
}
