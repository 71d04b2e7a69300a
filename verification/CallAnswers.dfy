/** What a call through the middleware answers, attempt by attempt, without the recursion of the loop. */
module CallAnswers {
  import opened Wrappers
  import opened Rail
  import opened Circuit
  import opened Retry
  import opened Middleware
  import RateBound

  // ---------------------------------------------------------------- the attempts in a row

  /** What attempt `k` does to a breaker it finds in state `b`: nothing if it is refused; otherwise a
      success closes it, a retryable failure is recorded, any other error is not. */
  function AfterAttempt(c: Config, w: Weather, b: BreakerState, k: int): BreakerState {
    if !Allows(c, b, w.reply(k).askedAt) then b
    else
      var admitted := AfterAllow(c, b, w.reply(k).askedAt);
      match w.reply(k).error
      case None => AfterSuccess(admitted)
      case Some(e) => if IsRetryable(e) then AfterFailure(c, admitted, w.reply(k).recordedAt) else admitted
  }

  /** The breaker as attempt `k` finds it, when the first found it in state `b`. */
  function Before(c: Config, w: Weather, b: BreakerState, k: nat): BreakerState {
    if k <= 1 then b else AfterAttempt(c, w, Before(c, w, b, k - 1), k - 1)
  }

  predicate Admitted(c: Config, w: Weather, b: BreakerState, k: nat) {
    Allows(c, Before(c, w, b, k), w.reply(k).askedAt)
  }

  /** How many of the first `k` attempts run the downstream function. */
  function Invoked(c: Config, w: Weather, b: BreakerState, k: nat): (n: nat)
    ensures n <= k
  {
    if k == 0 then 0 else Invoked(c, w, b, k - 1) + if Admitted(c, w, b, k) then 1 else 0
  }

  /** Attempt `k` is followed by another one, if there is one left: the context has not ended, and the
      attempt was refused or failed retryably. */
  predicate GoesOn(c: Config, w: Weather, b: BreakerState, k: nat) {
    && w.ctx(k).before.None? && w.ctx(k).during.None?
    && (Admitted(c, w, b, k) ==> w.reply(k).error.Some? && IsRetryable(w.reply(k).error.value))
  }

  /** The call gets as far as attempt `k`. */
  predicate Begun(c: Config, w: Weather, b: BreakerState, last: nat, k: nat) {
    1 <= k <= last && forall j :: 1 <= j < k ==> GoesOn(c, w, b, j)
  }

  /** Attempt `k` runs the function and the function returns no error. */
  predicate SucceedsAt(c: Config, w: Weather, b: BreakerState, k: nat) {
    w.ctx(k).before.None? && Admitted(c, w, b, k) && w.reply(k).error.None?
  }

  /** The attempts up to `k` leave the loop as it would start at `k`. */
  ghost predicate SameEnd(a: Done<Traced>, b: Done<Traced>) {
    a.state == b.state && a.error == b.error
  }

  lemma GuardedMeans(c: Config, scope: string, w: Weather, t: Traced, k: int)
    ensures var (t', error) := Guarded(c, scope, w, t, k);
            && t'.breaker == AfterAttempt(c, w, t.breaker, k)
            && t'.calls == t.calls + (if Allows(c, t.breaker, w.reply(k).askedAt) then 1 else 0)
            && error == if Allows(c, t.breaker, w.reply(k).askedAt) then w.reply(k).error else Some(CircuitOpen(scope))
  {
  }

  lemma {:induction false} ReachAttempt(c: Config, scope: string, p: string, op: string, last: nat, w: Weather, t0: Traced, k: nat)
    returns (t: Traced)
    requires Begun(c, w, t0.breaker, last, k)
    ensures t.breaker == Before(c, w, t0.breaker, k) && t.calls == t0.calls + Invoked(c, w, t0.breaker, k - 1)
    ensures SameEnd(Attempts(c, scope, p, op, last, w, 1, t0), Attempts(c, scope, p, op, last, w, k, t))
  {
    t := t0;
    if k > 1 {
      var before := ReachAttempt(c, scope, p, op, last, w, t0, k - 1);
      assert GoesOn(c, w, t0.breaker, k - 1);
      GuardedMeans(c, scope, w, before, k - 1);
      t := Guarded(c, scope, w, before, k - 1).0;
    }
  }

  // ---------------------------------------------------------------- the answer

  /** The state a breaker is in when a call starts its attempts. */
  function Started(c: Config, w: Weather, b: BreakerState): BreakerState {
    AfterAllow(c, b, w.startAt)
  }

  /** How the attempts end when attempt `k` is the last one begun: the context's error before it; none
      when the function returned none; the function's own error when it is not retried or no attempt is
      left; the refusal when no attempt is left; the context's error during the wait. */
  function EndOf(c: Config, scope: string, w: Weather, b: BreakerState, last: nat, k: nat): Option<Error> {
    if w.ctx(k).before.Some? then w.ctx(k).before
    else if Admitted(c, w, b, k) then
      if w.reply(k).error.None? || !IsRetryable(w.reply(k).error.value) || k == last then w.reply(k).error else w.ctx(k).during
    else if k == last then Some(CircuitOpen(scope))
    else w.ctx(k).during
  }

  function Normalized(e: Option<Error>): Option<Error> {
    if e.Some? then Some(AsError(e.value)) else None
  }

  lemma AttemptEnds(c: Config, scope: string, p: string, op: string, last: nat, w: Weather, t: Traced, k: nat, b: BreakerState)
    requires 1 <= k <= last && t.breaker == Before(c, w, b, k) && (k == last || !GoesOn(c, w, b, k))
    ensures var done := Attempts(c, scope, p, op, last, w, k, t);
            && done.error == EndOf(c, scope, w, b, last, k)
            && (if w.ctx(k).before.Some? then done.state == t
                else done.state.breaker == AfterAttempt(c, w, t.breaker, k)
                     && done.state.calls == t.calls + if Admitted(c, w, b, k) then 1 else 0)
  {
    if w.ctx(k).before.None? {
      GuardedMeans(c, scope, w, t, k);
      CircuitOpenRetried(scope);
    }
  }

  /** A refusal is itself retryable. */
  lemma CircuitOpenRetried(scope: string)
    ensures IsRetryable(CircuitOpen(scope)) && CircuitOpen(scope) == RailError("RAIL_UNAVAILABLE", "circuit open for " + scope)
  {
  }

  /** The answer of every call, with the attempt it ends at: refused at once when the breaker does not
      allow it; otherwise as that attempt ends, normalized. */
  lemma CallEnds(c: Config, scope: string, p: string, op: string, maxAttempts: int, w: Weather, t: Traced, k: nat)
    requires Begun(c, w, Started(c, w, t.breaker), MaxOf(maxAttempts), k)
    requires k == MaxOf(maxAttempts) || !GoesOn(c, w, Started(c, w, t.breaker), k)
    ensures var last := MaxOf(maxAttempts);
            var b := Started(c, w, t.breaker);
            var r := CallOn(c, scope, p, op, last, w, t);
            if !Allows(c, t.breaker, w.startAt) then
              r.1 == Some(CircuitOpen(scope)) && r.0.calls == t.calls && r.0.breaker == t.breaker
            else
              && r.1 == Normalized(EndOf(c, scope, w, b, last, k))
              && r.0.calls == t.calls + Invoked(c, w, b, if w.ctx(k).before.Some? then k - 1 else k)
              && r.0.breaker == Before(c, w, b, if w.ctx(k).before.Some? then k else k + 1)
  {
    if Allows(c, t.breaker, w.startAt) {
      var asked := t.(breaker := Started(c, w, t.breaker), steps := t.steps + [RateBound.Probe(w.startAt)]);
      var before := ReachAttempt(c, scope, p, op, MaxOf(maxAttempts), w, asked, k);
      AttemptEnds(c, scope, p, op, MaxOf(maxAttempts), w, before, k, asked.breaker);
    }
  }

  /** Every call ends at some attempt. */
  lemma {:induction false} SomeEnd(c: Config, w: Weather, b: BreakerState, last: nat, k: nat) returns (end: nat)
    requires Begun(c, w, b, last, k)
    ensures Begun(c, w, b, last, end) && (end == last || !GoesOn(c, w, b, end))
    decreases last - k
  {
    end := k;
    if k < last && GoesOn(c, w, b, k) {
      end := SomeEnd(c, w, b, last, k + 1);
    }
  }

  /** The call reaches an attempt whose invocation returns no error. */
  ghost predicate Succeeds(c: Config, w: Weather, b: BreakerState, last: nat) {
    exists k :: Begun(c, w, b, last, k) && SucceedsAt(c, w, b, k)
  }

  /** A call answers without an error exactly when it is let in and some attempt of it succeeds: the
      last invocation made. */
  lemma CallSucceedsExactly(c: Config, scope: string, p: string, op: string, maxAttempts: int, w: Weather, t: Traced)
    ensures CallOn(c, scope, p, op, MaxOf(maxAttempts), w, t).1.None? <==>
            Allows(c, t.breaker, w.startAt) && Succeeds(c, w, Started(c, w, t.breaker), MaxOf(maxAttempts))
  {
    var b, last := Started(c, w, t.breaker), MaxOf(maxAttempts);
    var end := SomeEnd(c, w, b, last, 1);
    CallEnds(c, scope, p, op, maxAttempts, w, t, end);
    if Succeeds(c, w, b, last) {
      var k :| Begun(c, w, b, last, k) && SucceedsAt(c, w, b, k);
      assert !GoesOn(c, w, b, k);
      CallEnds(c, scope, p, op, maxAttempts, w, t, k);
    }
  }

  /** After attempts that were admitted and failed retryably, a success at attempt `k` answers without
      an error; the function has run k times, and the breaker is closed with no failures. */
  lemma CallSucceeds(c: Config, scope: string, p: string, op: string, maxAttempts: int, w: Weather, t: Traced, k: nat)
    requires Allows(c, t.breaker, w.startAt)
    requires Begun(c, w, Started(c, w, t.breaker), MaxOf(maxAttempts), k) && SucceedsAt(c, w, Started(c, w, t.breaker), k)
    requires forall j :: 1 <= j < k ==> Admitted(c, w, Started(c, w, t.breaker), j)
    ensures var r := CallOn(c, scope, p, op, MaxOf(maxAttempts), w, t);
            r.1 == None && r.0.calls == t.calls + k && r.0.breaker.mode.Closed? && r.0.breaker.failures == 0
  {
    CallEnds(c, scope, p, op, maxAttempts, w, t, k);
    AllInvoked(c, w, Started(c, w, t.breaker), k);
  }

  lemma {:induction false} AllInvoked(c: Config, w: Weather, b: BreakerState, k: nat)
    requires forall j :: 1 <= j <= k ==> Admitted(c, w, b, j)
    ensures Invoked(c, w, b, k) == k
  {
    if k > 0 {
      AllInvoked(c, w, b, k - 1);
    }
  }
}
