/** What a breaker answers, in terms of its history alone.

The three-state machine refines two facts about the past: how many failures were recorded since
the last success, and when the last failure was. Every breaker method runs under its lock, so any
number of callers produce some sequence of the steps below. */
module CircuitHistory {
  import opened Circuit

  datatype Call = Allow | Success | Failure

  /** One locked call on the breaker of `scope`; `at` is the clock reading it takes. */
  datatype Step = Step(scope: string, call: Call, at: int)

  /** All breakers, created on first use, and the shared counter of openings. */
  datatype System = System(breakers: map<string, BreakerState>, openings: nat)

  function StateOf(s: System, scope: string): BreakerState {
    if scope in s.breakers then s.breakers[scope] else FRESH
  }

  function Apply(c: Config, s: System, step: Step): System {
    var b := StateOf(s, step.scope);
    match step.call
    case Allow => s.(breakers := s.breakers[step.scope := AfterAllow(c, b, step.at)])
    case Success => s.(breakers := s.breakers[step.scope := AfterSuccess(b)])
    case Failure =>
      System(s.breakers[step.scope := AfterFailure(c, b, step.at)], s.openings + if Opens(c, b) then 1 else 0)
  }

  function Run(c: Config, steps: seq<Step>): System {
    if steps == [] then System(map[], 0) else Apply(c, Run(c, steps[..|steps| - 1]), steps[|steps| - 1])
  }

  predicate Monotone(steps: seq<Step>) {
    forall i, j :: 0 <= i < j < |steps| ==> steps[i].at <= steps[j].at
  }

  // ---------------------------------------------------------------- the history

  /** Failures recorded on `scope` since its last success. */
  function FailuresSince(steps: seq<Step>, scope: string): nat {
    if steps == [] then 0
    else
      var init, last := steps[..|steps| - 1], steps[|steps| - 1];
      if last.scope != scope then FailuresSince(init, scope)
      else match last.call
           case Allow => FailuresSince(init, scope)
           case Success => 0
           case Failure => FailuresSince(init, scope) + 1
  }

  /** When the last failure on `scope` was recorded. */
  function LastFailureAt(steps: seq<Step>, scope: string): int
    requires HasFailure(steps, scope)
  {
    var last := steps[|steps| - 1];
    if last.scope == scope && last.call.Failure? then last.at
    else
      var init := steps[..|steps| - 1];
      assert HasFailure(init, scope) by {
        var i :| 0 <= i < |steps| && steps[i].scope == scope && steps[i].call.Failure?;
        assert init[i] == steps[i];
      }
      LastFailureAt(init, scope)
  }

  predicate HasFailure(steps: seq<Step>, scope: string) {
    exists i :: 0 <= i < |steps| && steps[i].scope == scope && steps[i].call.Failure?
  }

  /** How many recorded failures brought some scope to its limit or found it there. */
  function Openings(c: Config, steps: seq<Step>): nat {
    if steps == [] then 0
    else
      var last := steps[|steps| - 1];
      Openings(c, steps[..|steps| - 1])
      + if last.call.Failure? && FailuresSince(steps, last.scope) >= c.maxFailures then 1 else 0
  }

  lemma {:induction false} FailuresAreThere(steps: seq<Step>, scope: string)
    requires FailuresSince(steps, scope) > 0
    ensures HasFailure(steps, scope)
  {
    var init, last := steps[..|steps| - 1], steps[|steps| - 1];
    if !(last.scope == scope && last.call.Failure?) {
      FailuresAreThere(init, scope);
      var i :| 0 <= i < |init| && init[i].scope == scope && init[i].call.Failure?;
      assert steps[i] == init[i];
    }
  }

  // ---------------------------------------------------------------- the state in terms of the history

  /** What one breaker's state says about the past of its scope. */
  predicate Reflects(c: Config, b: BreakerState, steps: seq<Step>, scope: string) {
    && b.failures == FailuresSince(steps, scope)
    && (b.mode.Closed? <==> b.failures < c.maxFailures)
    && (!b.mode.Closed? ==> HasFailure(steps, scope) && b.openedAt == LastFailureAt(steps, scope))
    && (b.mode.HalfOpen? ==> steps != [] && steps[|steps| - 1].at - b.openedAt >= c.coolDown)
  }

  lemma LastFailureKept(steps: seq<Step>, scope: string)
    requires steps != [] && HasFailure(steps[..|steps| - 1], scope)
    requires !(steps[|steps| - 1].scope == scope && steps[|steps| - 1].call.Failure?)
    ensures HasFailure(steps, scope) && LastFailureAt(steps, scope) == LastFailureAt(steps[..|steps| - 1], scope)
  {
    var init := steps[..|steps| - 1];
    var i :| 0 <= i < |init| && init[i].scope == scope && init[i].call.Failure?;
    assert steps[i] == init[i];
  }

  lemma MonotoneInit(steps: seq<Step>)
    requires steps != [] && Monotone(steps)
    ensures Monotone(steps[..|steps| - 1])
    ensures |steps| > 1 ==> steps[|steps| - 2].at <= steps[|steps| - 1].at
  {
  }

  /** In every interleaving of calls on any number of breakers: a breaker is closed exactly while
      fewer than `maxFailures` failures were recorded since its last success, it opened last
      when its last failure was recorded, and it is half open only after the cool-down. */
  lemma {:induction false} StateReflects(c: Config, steps: seq<Step>, scope: string)
    requires c.maxFailures >= 1 && Monotone(steps)
    ensures Reflects(c, StateOf(Run(c, steps), scope), steps, scope)
  {
    if steps != [] {
      var init, last := steps[..|steps| - 1], steps[|steps| - 1];
      MonotoneInit(steps);
      StateReflects(c, init, scope);
      var before := StateOf(Run(c, init), scope);
      if !before.mode.Closed? && !(last.scope == scope && last.call.Failure?) {
        LastFailureKept(steps, scope);
      }
      if last.scope == scope && last.call.Failure? {
        assert steps[|steps| - 1].scope == scope;
      }
    }
  }

  /** `Allow` answers yes exactly when fewer than `maxFailures` failures were recorded since the
      last success, or the cool-down has passed since the last failure: open and half open look
      the same from outside. */
  lemma AllowMeaning(c: Config, steps: seq<Step>, scope: string, now: int)
    requires c.maxFailures >= 1 && Monotone(steps) && (steps != [] ==> steps[|steps| - 1].at <= now)
    ensures FailuresSince(steps, scope) >= c.maxFailures ==> HasFailure(steps, scope)
    ensures Allows(c, StateOf(Run(c, steps), scope), now) <==>
            (FailuresSince(steps, scope) < c.maxFailures || now - LastFailureAt(steps, scope) >= c.coolDown)
  {
    StateReflects(c, steps, scope);
    if FailuresSince(steps, scope) >= c.maxFailures {
      FailuresAreThere(steps, scope);
    }
  }

  /** The shared counter is the number of failures that met a full count, over all scopes: each
      such failure opens its breaker whatever state it was in. */
  lemma {:induction false} CounterMeaning(c: Config, steps: seq<Step>)
    requires c.maxFailures >= 1 && Monotone(steps)
    ensures Run(c, steps).openings == Openings(c, steps)
  {
    if steps != [] {
      var init, last := steps[..|steps| - 1], steps[|steps| - 1];
      MonotoneInit(steps);
      CounterMeaning(c, init);
      StateReflects(c, init, last.scope);
    }
  }

  // ---------------------------------------------------------------- the quiet window

  predicate NoSuccess(steps: seq<Step>, scope: string, from: nat) {
    forall i :: from <= i < |steps| ==> !(steps[i].scope == scope && steps[i].call.Success?)
  }

  lemma {:induction false} CountStaysFull(steps: seq<Step>, scope: string, n: nat, k: nat)
    requires k <= |steps| && NoSuccess(steps, scope, k) && FailuresSince(steps[..k], scope) >= n
    ensures FailuresSince(steps, scope) >= n
    decreases |steps|
  {
    if k < |steps| {
      var init := steps[..|steps| - 1];
      assert init[..k] == steps[..k];
      CountStaysFull(init, scope, n, k);
    } else {
      assert steps[..k] == steps;
    }
  }

  lemma {:induction false} LastFailureNotBefore(steps: seq<Step>, scope: string, i: nat)
    requires i < |steps| && steps[i].scope == scope && steps[i].call.Failure? && Monotone(steps)
    ensures LastFailureAt(steps, scope) >= steps[i].at
    decreases |steps|
  {
    var init, last := steps[..|steps| - 1], steps[|steps| - 1];
    if !(last.scope == scope && last.call.Failure?) {
      assert init[i] == steps[i];
      MonotoneInit(steps);
      LastFailureNotBefore(init, scope, i);
    }
  }

  /** Once a recorded failure leaves a breaker open, every `Allow` on it answers no until the
      cool-down has passed or a success is recorded, however many callers there are and whatever
      they do on this or any other breaker. */
  lemma QuietWindow(c: Config, steps: seq<Step>, scope: string, i: nat, now: int)
    requires c.maxFailures >= 1 && Monotone(steps) && (steps != [] ==> steps[|steps| - 1].at <= now)
    requires i < |steps| && steps[i].scope == scope && steps[i].call.Failure?
    requires StateOf(Run(c, steps[..i + 1]), scope).mode.Open?
    requires NoSuccess(steps, scope, i + 1) && now < steps[i].at + c.coolDown
    ensures !Allows(c, StateOf(Run(c, steps), scope), now)
  {
    StateReflects(c, steps[..i + 1], scope);
    CountStaysFull(steps, scope, c.maxFailures, i + 1);
    LastFailureNotBefore(steps, scope, i);
    AllowMeaning(c, steps, scope, now);
  }
}
