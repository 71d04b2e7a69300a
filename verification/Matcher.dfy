/** What a settlement batch does to the books. */
module Matcher {
  import opened Wrappers
  import opened Rail
  import opened Store
  import opened Settlement
  import opened Permutation

  /** The amounts a batch carries for one payment. */
  function LineSum(entries: seq<Line>, p: string): Money {
    if entries == [] then 0.0
    else LineSum(entries[..|entries| - 1], p)
         + if entries[|entries| - 1].paymentId == p then entries[|entries| - 1].amount else 0.0
  }

  predicate Mentions(entries: seq<Line>, p: string) {
    exists i :: 0 <= i < |entries| && entries[i].paymentId == p
  }

  /** The answer and the audit event a line gets depend only on whether its payment was known
      when the batch started. */
  predicate AnsweredFrom(known: set<string>, entries: seq<Line>, results: seq<MatchResult>) {
    && |results| == |entries|
    && forall i :: 0 <= i < |entries| ==>
         results[i] == if entries[i].paymentId in known then MatchResult(entries[i], true, None)
                       else MatchResult(entries[i], false, Some(BreakError(entries[i])))
  }

  function EventFor(known: set<string>, e: Line, t: Tick): Event {
    Stamped(if e.paymentId in known then CompletedEvent(e) else BreakEvent(e), t.emitted)
  }

  /** The events of a batch. */
  function EventsFor(known: set<string>, entries: seq<Line>, ticks: seq<Tick>): seq<Event>
    requires |entries| == |ticks|
  {
    seq(|entries|, i requires 0 <= i < |entries| => EventFor(known, entries[i], ticks[i]))
  }

  lemma {:induction false} MatchKeeps(b: Books, entries: seq<Line>, ticks: seq<Tick>)
    requires |entries| == |ticks|
    ensures var s := MatchAll(b, entries, ticks).0.store;
            s.requests.Keys == b.store.requests.Keys && s.chargebacks == b.store.chargebacks
  {
    if entries != [] {
      var n := |entries| - 1;
      MatchKeeps(b, entries[..n], ticks[..n]);
    }
  }

  lemma {:induction false} MatchAnswers(b: Books, entries: seq<Line>, ticks: seq<Tick>)
    requires |entries| == |ticks|
    ensures var r := MatchAll(b, entries, ticks);
            && AnsweredFrom(b.store.requests.Keys, entries, r.1)
            && r.0.store.requests.Keys == b.store.requests.Keys
            && r.0.store.chargebacks == b.store.chargebacks
            && r.0.log == b.log + EventsFor(b.store.requests.Keys, entries, ticks)
  {
    MatchKeeps(b, entries, ticks);
    if entries != [] {
      var n := |entries| - 1;
      MatchKeeps(b, entries[..n], ticks[..n]);
      MatchAnswers(b, entries[..n], ticks[..n]);
      assert EventsFor(b.store.requests.Keys, entries, ticks)
          == EventsFor(b.store.requests.Keys, entries[..n], ticks[..n]) + [EventFor(b.store.requests.Keys, entries[n], ticks[n])];
    }
  }

  /** The batch adds to each known payment exactly the amounts its lines carry, to unknown ones
      nothing. */
  lemma {:induction false} MatchTotals(b: Books, entries: seq<Line>, ticks: seq<Tick>, p: string)
    requires |entries| == |ticks|
    ensures SettledTotal(MatchAll(b, entries, ticks).0.store.settles, p) ==
            SettledTotal(b.store.settles, p) + if p in b.store.requests then LineSum(entries, p) else 0.0
  {
    if entries != [] {
      var n := |entries| - 1;
      MatchTotals(b, entries[..n], ticks[..n], p);
      MatchKeeps(b, entries[..n], ticks[..n]);
      OneTotal(MatchAll(b, entries[..n], ticks[..n]).0, entries[n], ticks[n], p);
    }
  }

  lemma OneTotal(b: Books, e: Line, t: Tick, p: string)
    ensures SettledTotal(MatchOne(b, e, t).0.store.settles, p) ==
            SettledTotal(b.store.settles, p) + if p in b.store.requests && e.paymentId == p then e.amount else 0.0
  {
    if e.paymentId in b.store.requests {
      SettledSnoc(b.store.settles, Entry(e).(settledAt := t.settled));
    }
  }

  /** A known payment the batch mentions ends up settled, keeping everything but its status and
      update time; one it does not mention keeps its row. */
  lemma {:induction false} MatchRows(b: Books, entries: seq<Line>, ticks: seq<Tick>, p: string)
    requires |entries| == |ticks| && p in b.store.requests
    ensures p in MatchAll(b, entries, ticks).0.store.requests
    ensures var row := MatchAll(b, entries, ticks).0.store.requests[p];
            if Mentions(entries, p) then row == b.store.requests[p].(status := SETTLED, updatedAt := row.updatedAt)
            else row == b.store.requests[p]
  {
    if entries != [] {
      var n := |entries| - 1;
      MatchRows(b, entries[..n], ticks[..n], p);
      if Mentions(entries[..n], p) {
        var i :| 0 <= i < n && entries[..n][i].paymentId == p;
        assert entries[i].paymentId == p;
      }
      if Mentions(entries, p) && entries[n].paymentId != p {
        var i :| 0 <= i < |entries| && entries[i].paymentId == p;
        assert entries[..n][i].paymentId == p;
      }
    }
  }

  /** Matching two batches one after the other is matching them as one. */
  lemma {:induction false} MatchCompose(b: Books, a: seq<Line>, s: seq<Tick>, c: seq<Line>, t: seq<Tick>)
    requires |a| == |s| && |c| == |t|
    ensures var first := MatchAll(b, a, s);
            var second := MatchAll(first.0, c, t);
            MatchAll(b, a + c, s + t) == (second.0, first.1 + second.1)
  {
    if c == [] {
      assert a + c == a && s + t == s;
      assert MatchAll(b, a, s).1 + [] == MatchAll(b, a, s).1;
    } else {
      var n := |c| - 1;
      MatchCompose(b, a, s, c[..n], t[..n]);
      assert (a + c)[..|a + c| - 1] == a + c[..n] && (s + t)[..|s + t| - 1] == s + t[..n];
      assert (a + c)[|a + c| - 1] == c[n] && (s + t)[|s + t| - 1] == t[n];
      var first := MatchAll(b, a, s);
      var part := MatchAll(first.0, c[..n], t[..n]);
      var one := MatchOne(part.0, c[n], t[n]);
      assert first.1 + part.1 + [one.1] == first.1 + (part.1 + [one.1]);
    }
  }

  lemma {:induction false} LineSumConcat(a: seq<Line>, c: seq<Line>, p: string)
    ensures LineSum(a + c, p) == LineSum(a, p) + LineSum(c, p)
  {
    if c == [] {
      assert a + c == a;
    } else {
      assert (a + c)[..|a + c| - 1] == a + c[..|c| - 1];
      LineSumConcat(a, c[..|c| - 1], p);
    }
  }

  lemma {:induction false} LineSumOrder(a: seq<Line>, c: seq<Line>, p: string)
    requires multiset(a) == multiset(c)
    ensures LineSum(a, p) == LineSum(c, p)
    decreases |a|
  {
    assert |multiset(c)| == |c| && |multiset(a)| == |a|;
    if a != [] {
      var init, x := a[..|a| - 1], a[|a| - 1];
      assert a == init + [x];
      var j := PositionOf(init, x, c);
      var left, right := c[..j], c[j + 1..];
      LineSumOrder(init, left + right, p);
      LineSumConcat(init, [x], p);
      LineSumConcat(left, right, p);
      LineSumConcat(left, [x], p);
      LineSumConcat(left + [x], right, p);
    }
  }

  lemma MentionsOrder(a: seq<Line>, c: seq<Line>, p: string)
    requires multiset(a) == multiset(c) && Mentions(a, p)
    ensures Mentions(c, p)
  {
    var i :| 0 <= i < |a| && a[i].paymentId == p;
    assert a[i] in multiset(c);
    var j :| 0 <= j < |c| && c[j] == a[i];
  }

  /** The order of the lines changes neither the settled totals nor any status. */
  lemma MatchOrder(b: Books, a: seq<Line>, s: seq<Tick>, c: seq<Line>, t: seq<Tick>, p: string)
    requires |a| == |s| && |c| == |t| && multiset(a) == multiset(c)
    ensures var x, y := MatchAll(b, a, s).0.store, MatchAll(b, c, t).0.store;
            && SettledTotal(x.settles, p) == SettledTotal(y.settles, p)
            && x.requests.Keys == y.requests.Keys
            && (p in x.requests ==> x.requests[p].status == y.requests[p].status)
  {
    MatchTotals(b, a, s, p);
    MatchTotals(b, c, t, p);
    LineSumOrder(a, c, p);
    MatchAnswers(b, a, s);
    MatchAnswers(b, c, t);
    if p in b.store.requests {
      MatchRows(b, a, s, p);
      MatchRows(b, c, t, p);
      if Mentions(a, p) {
        MentionsOrder(a, c, p);
      } else if Mentions(c, p) {
        MentionsOrder(c, a, p);
      }
    }
  }
}
