/** The middleware: every outbound call goes through the breaker of its scope and the retry loop. */
module Middleware {
  import opened Text
  import opened Wrappers
  import opened Rail
  import opened Circuit
  import opened Retry
  import RateBound

  type Step = RateBound.Step

  /** What happens around one attempt: the clock when the breaker is asked and when a failure is
      recorded, and the answer of the downstream function. */
  datatype Reply = Reply(askedAt: int, recordedAt: int, error: Option<Error>)

  /** Everything one `Call` meets: the clock at its first check, the downstream and the context
      at each attempt, the random draws of the waits. */
  datatype Weather = Weather(startAt: int, reply: int -> Reply, ctx: int -> Context, draw: int -> nat)

  /** A breaker, how often it opened, how often the downstream function ran, and the steps. */
  datatype Traced = Traced(breaker: BreakerState, openings: nat, calls: nat, steps: seq<Step>)

  function CircuitOpen(scope: string): Error {
    RailError(RAIL_UNAVAILABLE, "circuit open for " + scope)
  }

  // ---------------------------------------------------------------- one attempt

  /** How an invocation ends for the breaker: only retryable errors are recorded as failures. */
  function Ending(r: Reply): Step {
    if r.error.None? then RateBound.Succeed(0, r.recordedAt)
    else if IsRetryable(r.error.value) then RateBound.Fail(0, r.recordedAt)
    else RateBound.Leave(0, r.recordedAt)
  }

  function Recorded(c: Config, b: BreakerState, ending: Step): BreakerState {
    match ending
    case Succeed(_, _) => AfterSuccess(b)
    case Fail(_, at) => AfterFailure(c, b, at)
    case _ => b
  }

  /** The closure `Call` hands to `Do`: ask the breaker, run the function, record the outcome. */
  function Guarded(c: Config, scope: string, w: Weather, t: Traced, attempt: int): (Traced, Option<Error>) {
    var r := w.reply(attempt);
    var asked := t.steps + [RateBound.Enter(0, r.askedAt)];
    if !Allows(c, t.breaker, r.askedAt) then (t.(steps := asked), Some(CircuitOpen(scope)))
    else
      var b := AfterAllow(c, t.breaker, r.askedAt);
      var ending := Ending(r);
      (Traced(Recorded(c, b, ending), t.openings + if ending.Fail? && Opens(c, b) then 1 else 0, t.calls + 1, asked + [ending]),
       r.error)
  }

  function Closure(c: Config, scope: string, w: Weather): (Traced, string, int) -> (Traced, Option<Error>) {
    (t: Traced, key: string, attempt: int) => Guarded(c, scope, w, t, attempt)
  }

  /** The attempts of one call from `attempt` on, with the default base and cap. */
  function Attempts(c: Config, scope: string, paymentId: string, operation: string, last: nat, w: Weather, attempt: nat,
                    t: Traced): Done<Traced>
    requires 1 <= attempt <= last
  {
    DoFrom(paymentId, operation, Plan(last, BASE, CAP, w.draw), Closure(c, scope, w), w.ctx, attempt, t)
  }

  /** The whole of `Call` on the breaker of its scope. */
  function CallOn(c: Config, scope: string, paymentId: string, operation: string, last: nat, w: Weather, t: Traced)
    : (r: (Traced, Option<Error>))
    requires last >= 1
    ensures r.1.Some? ==> r.1.value.RailError?
  {
    var asked := t.(breaker := AfterAllow(c, t.breaker, w.startAt), steps := t.steps + [RateBound.Probe(w.startAt)]);
    if !Allows(c, t.breaker, w.startAt) then (asked, Some(CircuitOpen(scope)))
    else
      var done := Attempts(c, scope, paymentId, operation, last, w, 1, asked);
      (done.state, if done.error.Some? then Some(AsError(done.error.value)) else None)
  }

  /** What is left to do, after the waits so far, completes the whole. */
  predicate Continues(full: Done<Traced>, rest: Done<Traced>, waits: seq<int>) {
    full.state == rest.state && full.error == rest.error && full.waits == waits + rest.waits
  }

  lemma ContinuesOn(full: Done<Traced>, rest: Done<Traced>, next: Done<Traced>, waits: seq<int>, wait: seq<int>)
    requires Continues(full, rest, waits) && Continues(rest, next, wait)
    ensures Continues(full, next, waits + wait)
    ensures next.waits == [] ==> full.waits == waits + wait
  {
  }

  // ---------------------------------------------------------------- the object

  class Middleware {
    var breakers: map<string, Breaker>
    const maxFail: int
    const coolDown: int
    const counter: Counter

    ghost predicate Valid()
      reads this, breakers.Values
    {
      && (forall s :: s in breakers ==>
            breakers[s].Settings() == Config(maxFail, coolDown) && breakers[s].openCounter == counter)
      && (forall s, r :: s in breakers && r in breakers && s != r ==> breakers[s] != breakers[r])
    }

    function View(): map<string, BreakerState>
      reads this, breakers.Values
    {
      map s | s in breakers :: breakers[s].State()
    }

    function StateOf(scope: string): BreakerState
      reads this, breakers.Values
    {
      if scope in breakers then breakers[scope].State() else FRESH
    }

    constructor (maxFail: int, coolDown: int, counter: Counter)
      ensures Valid() && View() == map[] && Config(this.maxFail, this.coolDown) == Config(maxFail, coolDown)
      ensures this.counter == counter
    {
      breakers := map[];
      this.maxFail, this.coolDown, this.counter := maxFail, coolDown, counter;
    }

    /** The breaker of a scope, created when the scope is first used. */
    method BreakerFor(scope: string) returns (b: Breaker)
      requires Valid()
      modifies this
      ensures Valid() && scope in breakers && b == breakers[scope]
      ensures breakers == old(breakers)[scope := b] && b.State() == old(StateOf(scope))
      ensures forall s :: s in old(breakers) ==> breakers[s].State() == old(View())[s]
      ensures b in old(breakers.Values) || fresh(b)
      ensures counter.value == old(counter.value)
    {
      if scope in breakers {
        return breakers[scope];
      }
      b := new Breaker(scope, maxFail, coolDown, counter);
      breakers := breakers[scope := b];
    }

    /** `Call` answers and leaves the breaker of its scope as the specification says, leaves every
        other scope alone, and raises the shared counter by its own openings. */
    method Call(scope: string, paymentId: string, operation: string, maxAttempts: int, w: Weather)
      returns (err: Option<Error>)
      requires Valid()
      modifies this, breakers.Values, counter
      ensures Valid()
      ensures var r := CallOn(Config(maxFail, coolDown), scope, paymentId, operation, MaxOf(maxAttempts), w,
                              Traced(old(StateOf(scope)), 0, 0, []));
              && err == r.1
              && View() == old(View())[scope := r.0.breaker]
              && counter.value == old(counter.value) + r.0.openings
    {
      ghost var views := View();
      var b := BreakerFor(scope);
      label Held:
      err := CallThrough(b, scope, paymentId, operation, maxAttempts, w);
      assert forall s :: s in breakers && s != scope ==> breakers[s].State() == old@Held(breakers[s].State());
      OnlyThatScope(views, scope, b.State());
    }

    /** The body of `Call`, once it holds its breaker. */
    method CallThrough(b: Breaker, scope: string, paymentId: string, operation: string, maxAttempts: int, w: Weather)
      returns (err: Option<Error>)
      requires b.openCounter == counter
      modifies b, counter
      ensures var r := CallOn(b.Settings(), scope, paymentId, operation, MaxOf(maxAttempts), w,
                              Traced(old(b.State()), 0, 0, []));
              err == r.1 && b.State() == r.0.breaker && counter.value == old(counter.value) + r.0.openings
    {
      ghost var c := b.Settings();
      ghost var t := Traced(b.State(), 0, 0, []);
      var ok := b.Allow(w.startAt);
      if !ok {
        return Some(CircuitOpen(scope));
      }
      ghost var asked := t.(breaker := b.State(), steps := t.steps + [RateBound.Probe(w.startAt)]);
      var waits;
      err, waits := Do(b, scope, paymentId, operation, Options(maxAttempts, BASE, CAP), w, c, asked);
      if err.Some? {
        err := Some(AsError(err.value));
      }
    }

    /** Only the breaker of one scope changed since `before`. */
    lemma OnlyThatScope(before: map<string, BreakerState>, scope: string, state: BreakerState)
      requires scope in breakers && breakers[scope].State() == state
      requires breakers.Keys == before.Keys + {scope}
      requires forall s :: s in breakers && s != scope ==> breakers[s].State() == before[s]
      ensures View() == before[scope := state]
    {
    }

    /** The attempt loop of `retry.Do` around the closure; `waits` are its sleeps. */
    method Do(b: Breaker, scope: string, paymentId: string, operation: string, o: Options, w: Weather, ghost c: Config,
              ghost start: Traced)
      returns (err: Option<Error>, waits: seq<int>)
      requires o.base < TWO_63 && c == b.Settings() && b.State() == start.breaker && b.openCounter == counter
      modifies b, counter
      ensures var done := DoFrom(paymentId, operation, PlanOf(o, w.draw), Closure(c, scope, w), w.ctx, 1, start);
              && err == done.error && waits == done.waits && b.State() == done.state.breaker
              && counter.value == old(counter.value) + done.state.openings - start.openings
    {
      var last := if o.maxAttempts < 1 then 1 else o.maxAttempts;
      var base := if o.base <= 0 then BASE else o.base;
      var cap := if o.cap <= 0 then CAP else o.cap;
      err, waits := Loop(b, scope, paymentId, operation, Plan(last, base, cap, w.draw), w, c, start);
    }

    method Loop(b: Breaker, scope: string, paymentId: string, operation: string, plan: Plan, w: Weather, ghost c: Config,
                ghost start: Traced)
      returns (err: Option<Error>, waits: seq<int>)
      requires plan.last >= 1 && 0 < plan.base < TWO_63 && plan.draw == w.draw
      requires c == b.Settings() && b.State() == start.breaker && b.openCounter == counter
      modifies b, counter
      ensures var done := DoFrom(paymentId, operation, plan, Closure(c, scope, w), w.ctx, 1, start);
              && err == done.error && waits == done.waits && b.State() == done.state.breaker
              && counter.value == old(counter.value) + done.state.openings - start.openings
    {
      ghost var t := start;
      ghost var full := DoFrom(paymentId, operation, plan, Closure(c, scope, w), w.ctx, 1, start);
      ghost var rest := full;
      waits := [];
      var attempt := 1;
      while true
        invariant 1 <= attempt <= plan.last
        invariant b.State() == t.breaker && counter.value == old(counter.value) + t.openings - start.openings
        invariant rest == DoFrom(paymentId, operation, plan, Closure(c, scope, w), w.ctx, attempt, t)
        invariant Continues(full, rest, waits)
        decreases plan.last - attempt
      {
        var wait, ended;
        ghost var left := rest;
        err, wait, ended, t, rest := Round(b, scope, paymentId, operation, plan, attempt, w, c, t, left);
        ContinuesOn(full, left, rest, waits, wait);
        waits := waits + wait;
        if ended {
          return;
        }
        attempt := attempt + 1;
      }
    }

    /** One attempt and the wait after it; `rest` is what the loop still has to do. */
    method Round(b: Breaker, scope: string, paymentId: string, operation: string, plan: Plan, attempt: nat, w: Weather,
                 ghost c: Config, ghost t: Traced, ghost rest: Done<Traced>)
      returns (err: Option<Error>, wait: seq<int>, ended: bool, ghost t': Traced, ghost rest': Done<Traced>)
      requires 1 <= attempt <= plan.last && 0 < plan.base < TWO_63 && plan.draw == w.draw
      requires c == b.Settings() && b.State() == t.breaker && b.openCounter == counter
      requires rest == DoFrom(paymentId, operation, plan, Closure(c, scope, w), w.ctx, attempt, t)
      modifies b, counter
      ensures Continues(rest, rest', wait)
      ensures ended ==> rest' == Done(t', err, [], [], rest'.stopped)
      ensures !ended ==> attempt < plan.last
                         && rest' == DoFrom(paymentId, operation, plan, Closure(c, scope, w), w.ctx, attempt + 1, t')
      ensures b.State() == t'.breaker && counter.value == old(counter.value) + t'.openings - t.openings
    {
      OneAttempt(c, scope, paymentId, operation, plan, w, attempt, t);
      t', wait := t, [];
      if w.ctx(attempt).before.Some? {
        rest' := Done(t, w.ctx(attempt).before, [], [], true);
        return w.ctx(attempt).before, [], true, t', rest';
      }
      t' := Guarded(c, scope, w, t, attempt).0;
      err := Attempt(b, scope, w.reply(attempt), c, w, t, attempt);
      if err.None? || !IsRetryable(err.value) || attempt == plan.last {
        rest' := Done(t', err, [], [], false);
        return err, [], true, t', rest';
      }
      var drawn := Backoff(plan.base, plan.cap, attempt, plan.draw(attempt));
      if w.ctx(attempt).during.Some? {
        rest' := Done(t', w.ctx(attempt).during, [], [], true);
        return w.ctx(attempt).during, [drawn], true, t', rest';
      }
      rest' := DoFrom(paymentId, operation, plan, Closure(c, scope, w), w.ctx, attempt + 1, t');
      return err, [drawn], false, t', rest';
    }

    /** What one attempt leaves of the loop. */
    lemma OneAttempt(c: Config, scope: string, paymentId: string, operation: string, plan: Plan, w: Weather, attempt: nat,
                     t: Traced)
      requires 1 <= attempt <= plan.last && plan.base > 0
      ensures var done := DoFrom(paymentId, operation, plan, Closure(c, scope, w), w.ctx, attempt, t);
              var (t', error) := Guarded(c, scope, w, t, attempt);
              if w.ctx(attempt).before.Some? then Continues(done, Done(t, w.ctx(attempt).before, [], [], true), [])
              else if error.None? || !IsRetryable(error.value) || attempt == plan.last then
                Continues(done, Done(t', error, [], [], false), [])
              else if w.ctx(attempt).during.Some? then
                Continues(done, Done(t', w.ctx(attempt).during, [], [], true), [Wait(plan, attempt)])
              else
                Continues(done, DoFrom(paymentId, operation, plan, Closure(c, scope, w), w.ctx, attempt + 1, t'),
                          [Wait(plan, attempt)])
    {
    }

    /** The closure, run on the breaker object. */
    method Attempt(b: Breaker, scope: string, reply: Reply, ghost c: Config, ghost w: Weather, ghost t: Traced,
                   ghost attempt: int)
      returns (err: Option<Error>)
      requires c == b.Settings() && reply == w.reply(attempt) && b.State() == t.breaker
      requires b.openCounter == counter
      modifies b, counter
      ensures var r := Guarded(c, scope, w, t, attempt);
              err == r.1 && b.State() == r.0.breaker && counter.value == old(counter.value) + r.0.openings - t.openings
    {
      var ok := b.Allow(reply.askedAt);
      if !ok {
        return Some(CircuitOpen(scope));
      }
      if reply.error.None? {
        b.RecordSuccess();
        return None;
      }
      if IsRetryable(reply.error.value) {
        var _ := b.RecordFailure(reply.recordedAt);
      }
      return reply.error;
    }
  }
}
