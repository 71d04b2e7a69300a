/** What the middleware does when the downstream is failing. */
module Outage {
  import opened Wrappers
  import opened Rail
  import opened Circuit
  import opened Retry
  import opened Middleware
  import opened RateBound

  // ---------------------------------------------------------------- one call in an outage

  predicate Unavailable(e: Option<Error>) {
    e.Some? && e.value.RailError? && e.value.code == RAIL_UNAVAILABLE
  }

  /** Every invocation answers RAIL_UNAVAILABLE, the context never ends, and the cool-down never
      elapses between two attempts. */
  predicate IsOutage(c: Config, last: nat, w: Weather) {
    && (forall k :: 1 <= k <= last ==>
          Unavailable(w.reply(k).error) && w.ctx(k).before.None? && w.ctx(k).during.None?)
    && (forall j, k :: 1 <= j < k <= last ==> w.reply(k).askedAt < w.reply(j).recordedAt + c.coolDown)
  }

  /** Once open, the remaining attempts are refused without running the function. */
  lemma {:induction false} RefusedFrom(c: Config, scope: string, p: string, op: string, last: nat, w: Weather, attempt: nat,
                                       t: Traced)
    requires 1 <= attempt <= last && IsOutage(c, last, w) && t.breaker.mode.Open?
    requires forall k :: attempt <= k <= last ==> w.reply(k).askedAt < t.breaker.openedAt + c.coolDown
    ensures var done := Attempts(c, scope, p, op, last, w, attempt, t);
            && done.state.breaker == t.breaker && done.state.calls == t.calls && done.state.openings == t.openings
            && Unavailable(done.error)
    decreases last - attempt
  {
    if attempt < last {
      RefusedFrom(c, scope, p, op, last, w, attempt + 1, Guarded(c, scope, w, t, attempt).0);
    }
  }

  /** How many more failures a closed breaker takes until it opens. */
  function Room(c: Config, b: BreakerState): int {
    Max(1, c.maxFailures - b.failures)
  }

  lemma {:induction false} OutageFrom(c: Config, scope: string, p: string, op: string, last: nat, w: Weather, attempt: nat,
                                      t: Traced)
    requires 1 <= attempt <= last && IsOutage(c, last, w) && t.breaker.mode.Closed?
    ensures var done := Attempts(c, scope, p, op, last, w, attempt, t);
            var room := Room(c, t.breaker);
            var n := Min(last - attempt + 1, room);
            && done.state.calls == t.calls + n && done.state.breaker.failures == t.breaker.failures + n
            && (done.state.breaker.mode.Open? <==> room <= last - attempt + 1)
            && done.state.openings == t.openings + (if room <= last - attempt + 1 then 1 else 0)
            && Unavailable(done.error)
    decreases last - attempt
  {
    var t' := Guarded(c, scope, w, t, attempt).0;
    if attempt < last {
      if t'.breaker.mode.Open? {
        RefusedFrom(c, scope, p, op, last, w, attempt + 1, t');
      } else {
        OutageFrom(c, scope, p, op, last, w, attempt + 1, t');
      }
    }
  }

  /** A half-open breaker lets one attempt through, which reopens it. */
  lemma ProbeFails(c: Config, scope: string, p: string, op: string, last: nat, w: Weather, t: Traced)
    requires last >= 1 && IsOutage(c, last, w) && t.breaker.mode.HalfOpen?
    ensures var done := Attempts(c, scope, p, op, last, w, 1, t);
            && done.state.calls == t.calls + 1 && done.state.breaker.failures == t.breaker.failures + 1
            && done.state.breaker.mode.Open? && done.state.openings == t.openings + 1
            && Unavailable(done.error)
  {
    if last > 1 {
      RefusedFrom(c, scope, p, op, last, w, 2, Guarded(c, scope, w, t, 1).0);
    }
  }

  /** How often a call in an outage runs the function: not at all while the breaker is open and
      cooling down, once to probe it afterwards, and from closed as often as attempts and remaining
      failures allow. */
  function OutageCalls(c: Config, b: BreakerState, startAt: int, last: nat): int {
    if !Allows(c, b, startAt) then 0
    else if b.mode.Closed? then Min(last, Room(c, b))
    else 1
  }

  /** Does the call open the breaker, or open it again? */
  predicate OutageOpens(c: Config, b: BreakerState, startAt: int, last: nat) {
    Allows(c, b, startAt) && (b.mode.Closed? ==> Room(c, b) <= last)
  }

  /** A call in an outage, whatever state the breaker is in: how often it runs the function, whether
      it opens the breaker, and that it answers RAIL_UNAVAILABLE in any case. */
  lemma CallInOutage(c: Config, scope: string, p: string, op: string, maxAttempts: int, w: Weather, t: Traced)
    requires IsOutage(c, MaxOf(maxAttempts), w)
    ensures var last := MaxOf(maxAttempts);
            var r := CallOn(c, scope, p, op, last, w, t);
            var n := OutageCalls(c, t.breaker, w.startAt, last);
            var opens := OutageOpens(c, t.breaker, w.startAt, last);
            && r.0.calls == t.calls + n && r.0.breaker.failures == t.breaker.failures + n
            && r.0.openings == t.openings + (if opens then 1 else 0)
            && (r.0.breaker.mode.Open? <==> opens || !Allows(c, t.breaker, w.startAt))
            && Unavailable(r.1)
  {
    var asked := t.(breaker := AfterAllow(c, t.breaker, w.startAt), steps := t.steps + [Probe(w.startAt)]);
    if asked.breaker.mode.Closed? {
      OutageFrom(c, scope, p, op, MaxOf(maxAttempts), w, 1, asked);
    } else if asked.breaker.mode.HalfOpen? {
      ProbeFails(c, scope, p, op, MaxOf(maxAttempts), w, asked);
    }
  }

  /** The first `k - 1` attempts fail retryably without opening the breaker, the `k`-th with an
      error that is not retried. */
  predicate EndsUnretried(c: Config, w: Weather, k: nat, attempt: nat, t: Traced) {
    && 1 <= attempt <= k && t.breaker.mode.Closed? && t.breaker.failures + (k - attempt) < c.maxFailures
    && (forall j :: attempt <= j < k ==> Unavailable(w.reply(j).error) && w.ctx(j).before.None? && w.ctx(j).during.None?)
    && w.ctx(k).before.None? && w.reply(k).error.Some? && !IsRetryable(w.reply(k).error.value)
  }

  lemma {:induction false} UnretriedFrom(c: Config, scope: string, p: string, op: string, last: nat, w: Weather, k: nat,
                                         attempt: nat, t: Traced)
    requires k <= last && EndsUnretried(c, w, k, attempt, t)
    ensures var done := Attempts(c, scope, p, op, last, w, attempt, t);
            && done.state.calls == t.calls + (k - attempt) + 1 && done.state.openings == t.openings
            && done.state.breaker == t.breaker.(failures := t.breaker.failures + (k - attempt))
            && done.error == w.reply(k).error
    decreases k - attempt
  {
    if attempt < k {
      UnretriedFrom(c, scope, p, op, last, w, k, attempt + 1, Guarded(c, scope, w, t, attempt).0);
    }
  }

  /** The comment on `Call` says that non-retryable errors count as failures; they do not. When the
      `k`-th attempt of a call fails with one, the function has run k times, the breaker has counted
      the k - 1 failures before it, and the error comes back normalized: as RAIL_UNAVAILABLE when
      it wraps such an error, although then it was neither retried nor counted. */
  lemma WrappedUnavailable(c: Config, scope: string, p: string, op: string, maxAttempts: int, w: Weather, k: nat, t: Traced)
    requires k <= MaxOf(maxAttempts) && EndsUnretried(c, w, k, 1, t)
    ensures var r := CallOn(c, scope, p, op, MaxOf(maxAttempts), w, t);
            var e := w.reply(k).error.value;
            && r.0.calls == t.calls + k && r.0.openings == t.openings
            && r.0.breaker == t.breaker.(failures := t.breaker.failures + k - 1)
            && r.1 == Some(AsError(e))
            && (Unavailable(FindRailError(e)) ==> Unavailable(r.1))
  {
    UnretriedFrom(c, scope, p, op, MaxOf(maxAttempts), w, k, 1, t.(steps := t.steps + [Probe(w.startAt)]));
  }

  // ---------------------------------------------------------------- many calls, one after another

  /** The trace so far, replayed step by step, leads to this breaker with nobody inside. */
  predicate Replays(c: Config, t: Traced) {
    Legal(c, 1, t.steps) && Exec(c, t.steps) == World(t.breaker, {}, t.calls)
  }

  predicate Ordered(steps: seq<Step>) {
    forall i, j :: 0 <= i < j < |steps| ==> steps[i].at <= steps[j].at
  }

  lemma LegalSnoc(c: Config, steps: seq<Step>, step: Step)
    requires Legal(c, 1, steps) && Enabled(1, Exec(c, steps), step)
    requires forall i :: 0 <= i < |steps| ==> steps[i].at <= step.at
    ensures Legal(c, 1, steps + [step]) && Exec(c, steps + [step]) == Apply(c, Exec(c, steps), step)
  {
    assert (steps + [step])[..|steps|] == steps;
  }

  lemma OrderedPrefix(a: seq<Step>, b: seq<Step>)
    requires Ordered(b) && a <= b
    ensures Ordered(a)
  {
    assert forall i :: 0 <= i < |a| ==> a[i] == b[i];
  }

  lemma OrderedLast(steps: seq<Step>, step: Step)
    requires Ordered(steps + [step])
    ensures forall i :: 0 <= i < |steps| ==> steps[i].at <= step.at
  {
    var all := steps + [step];
    assert all[|steps|] == step;
    assert forall i :: 0 <= i < |steps| ==> all[i] == steps[i];
  }

  lemma EnterReplays(c: Config, t: Traced, at: int)
    requires Replays(c, t) && Ordered(t.steps + [Enter(0, at)])
    ensures Legal(c, 1, t.steps + [Enter(0, at)])
    ensures Exec(c, t.steps + [Enter(0, at)]) ==
            if Allows(c, t.breaker, at) then World(AfterAllow(c, t.breaker, at), {0}, t.calls + 1)
            else World(t.breaker, {}, t.calls)
  {
    OrderedLast(t.steps, Enter(0, at));
    LegalSnoc(c, t.steps, Enter(0, at));
    assert {} + {0} == {0};
  }

  lemma OutReplays(c: Config, steps: seq<Step>, b: BreakerState, calls: nat, out: Step)
    requires Legal(c, 1, steps) && Exec(c, steps) == World(b, {0}, calls) && Ordered(steps + [out])
    requires !out.Probe? && !out.Enter? && out.caller == 0
    ensures Legal(c, 1, steps + [out])
    ensures Exec(c, steps + [out]) ==
            World(Recorded(c, b, out), {}, calls)
  {
    OrderedLast(steps, out);
    LegalSnoc(c, steps, out);
    assert {0} - {0} == {};
  }

  lemma GuardedReplays(c: Config, scope: string, w: Weather, t: Traced, attempt: int)
    requires Replays(c, t) && Ordered(Guarded(c, scope, w, t, attempt).0.steps)
    ensures Replays(c, Guarded(c, scope, w, t, attempt).0) && t.steps <= Guarded(c, scope, w, t, attempt).0.steps
  {
    var t' := Guarded(c, scope, w, t, attempt).0;
    var at := w.reply(attempt).askedAt;
    var asked := t.steps + [Enter(0, at)];
    OrderedPrefix(asked, t'.steps);
    EnterReplays(c, t, at);
    if Allows(c, t.breaker, at) {
      OutReplays(c, asked, AfterAllow(c, t.breaker, at), t.calls + 1, Ending(w.reply(attempt)));
    }
  }

  lemma {:induction false} DoReplays(c: Config, scope: string, p: string, op: string, last: nat, w: Weather, attempt: nat,
                                     t: Traced)
    requires 1 <= attempt <= last && Replays(c, t)
    requires Ordered(Attempts(c, scope, p, op, last, w, attempt, t).state.steps)
    ensures var done := Attempts(c, scope, p, op, last, w, attempt, t).state;
            Replays(c, done) && t.steps <= done.steps
    decreases last - attempt
  {
    if w.ctx(attempt).before.None? {
      var (t', error) := Guarded(c, scope, w, t, attempt);
      DoGrows(c, scope, p, op, last, w, attempt, t);
      OrderedPrefix(t'.steps, Attempts(c, scope, p, op, last, w, attempt, t).state.steps);
      GuardedReplays(c, scope, w, t, attempt);
      if error.Some? && IsRetryable(error.value) && attempt < last && w.ctx(attempt).during.None? {
        DoReplays(c, scope, p, op, last, w, attempt + 1, t');
      }
    }
  }

  /** Steps are only ever appended. */
  lemma {:induction false} DoGrows(c: Config, scope: string, p: string, op: string, last: nat, w: Weather, attempt: nat,
                                   t: Traced)
    requires 1 <= attempt <= last
    ensures t.steps <= Attempts(c, scope, p, op, last, w, attempt, t).state.steps
    ensures w.ctx(attempt).before.None? ==>
              Guarded(c, scope, w, t, attempt).0.steps <= Attempts(c, scope, p, op, last, w, attempt, t).state.steps
    decreases last - attempt
  {
    if w.ctx(attempt).before.None? {
      var (t', error) := Guarded(c, scope, w, t, attempt);
      assert t.steps <= t'.steps;
      if error.Some? && IsRetryable(error.value) && attempt < last && w.ctx(attempt).during.None? {
        DoGrows(c, scope, p, op, last, w, attempt + 1, t');
      }
    }
  }

  /** One call of a sequence on the same scope. */
  datatype Request = Request(paymentId: string, operation: string, maxAttempts: int, weather: Weather)

  function AfterCall(c: Config, scope: string, q: Request, t: Traced): Traced {
    CallOn(c, scope, q.paymentId, q.operation, MaxOf(q.maxAttempts), q.weather, t).0
  }

  function RunCalls(c: Config, scope: string, requests: seq<Request>): Traced {
    if requests == [] then Traced(FRESH, 0, 0, [])
    else
      var q := requests[|requests| - 1];
      AfterCall(c, scope, q, RunCalls(c, scope, requests[..|requests| - 1]))
  }

  /** What a call leaves of its first check. */
  function Asked(c: Config, t: Traced, at: int): Traced {
    t.(breaker := AfterAllow(c, t.breaker, at), steps := t.steps + [Probe(at)])
  }

  lemma AskedReplays(c: Config, t: Traced, at: int)
    requires Replays(c, t) && Ordered(t.steps + [Probe(at)])
    ensures Replays(c, Asked(c, t, at))
  {
    OrderedLast(t.steps, Probe(at));
    LegalSnoc(c, t.steps, Probe(at));
  }

  lemma CallGrows(c: Config, scope: string, q: Request, t: Traced)
    ensures t.steps <= Asked(c, t, q.weather.startAt).steps <= AfterCall(c, scope, q, t).steps
  {
    DoGrows(c, scope, q.paymentId, q.operation, MaxOf(q.maxAttempts), q.weather, 1, Asked(c, t, q.weather.startAt));
  }

  /** Calls made one after another are a run of a single caller. */
  lemma {:induction false} CallsReplay(c: Config, scope: string, requests: seq<Request>)
    requires Ordered(RunCalls(c, scope, requests).steps)
    ensures Replays(c, RunCalls(c, scope, requests))
  {
    if requests != [] {
      var init, q := requests[..|requests| - 1], requests[|requests| - 1];
      var t, w := RunCalls(c, scope, init), q.weather;
      var asked := Asked(c, t, w.startAt);
      CallGrows(c, scope, q, t);
      OrderedPrefix(asked.steps, RunCalls(c, scope, requests).steps);
      OrderedPrefix(t.steps, asked.steps);
      CallsReplay(c, scope, init);
      AskedReplays(c, t, w.startAt);
      if Allows(c, t.breaker, w.startAt) {
        DoReplays(c, scope, q.paymentId, q.operation, MaxOf(q.maxAttempts), w, 1, asked);
      }
    }
  }

  /** The clock never goes back, every invocation fails retryably, and all of it happens by `until`. */
  predicate FailingRun(steps: seq<Step>, until: int) {
    Ordered(steps) && AllFail(steps) && forall i :: 0 <= i < |steps| ==> steps[i].at <= until
  }

  predicate WithinRate(c: Config, t: Traced, until: int)
    requires c.coolDown > 0
  {
    match FirstOpening(c, t.steps)
    case Never => t.calls < c.maxFailures
    case At(first) => t.calls <= c.maxFailures + (until - first) / c.coolDown
  }

  lemma ReplayRate(c: Config, t: Traced, until: int)
    requires c.maxFailures >= 1 && c.coolDown > 0 && Replays(c, t) && FailingRun(t.steps, until)
    ensures WithinRate(c, t, until)
  {
    SingleCallerBound(c, t.steps, until);
  }

  /** Calls one after another on a fresh scope, every invocation failing retryably: whatever the
      number of calls, attempts and ended contexts, the function has run fewer than `maxFailures`
      times before the breaker first opens, and at most `maxFailures` times plus once per whole
      cool-down since then. */
  lemma SequentialRate(c: Config, scope: string, requests: seq<Request>, until: int)
    requires c.maxFailures >= 1 && c.coolDown > 0 && FailingRun(RunCalls(c, scope, requests).steps, until)
    ensures WithinRate(c, RunCalls(c, scope, requests), until)
  {
    CallsReplay(c, scope, requests);
    ReplayRate(c, RunCalls(c, scope, requests), until);
  }
}
