/** The bound on invocations is sharp: a run that reaches it for any number of callers and any
number of cool-downs. */
module RateReached {
  import opened Circuit
  import opened RateBound
  import Text

  function EnterAll(n: nat, at: int): seq<Step> {
    seq(n, k requires 0 <= k < n => Enter(k, at))
  }

  function FailAll(n: nat, at: int): seq<Step> {
    seq(n, k requires 0 <= k < n => Fail(k, at))
  }

  /** All callers enter together and fail together. */
  function Round(callers: nat, at: int): seq<Step> {
    EnterAll(callers, at) + FailAll(callers, at)
  }

  /** One caller fails `n` times. */
  function Warmup(n: nat): seq<Step> {
    if n == 0 then [] else Warmup(n - 1) + Round(1, 0)
  }

  /** One failure short of opening, then a round of everybody at once, then one at the end of
      every cool-down. */
  function Storm(c: Config, callers: nat, rounds: nat): seq<Step>
    requires c.maxFailures >= 1
  {
    if rounds == 0 then Warmup(c.maxFailures - 1) + Round(callers, 0)
    else Storm(c, callers, rounds - 1) + Round(callers, rounds * c.coolDown)
  }

  /** A legal failing run that has just reached this world, all of it by time `now`. */
  predicate Reaches(c: Config, callers: nat, steps: seq<Step>, w: World, now: int) {
    Legal(c, callers, steps) && AllFail(steps) && Exec(c, steps) == w && (steps != [] ==> steps[|steps| - 1].at <= now)
  }

  lemma ReachSnoc(c: Config, callers: nat, steps: seq<Step>, w: World, now: int, step: Step)
    requires Reaches(c, callers, steps, w, now) && Enabled(callers, w, step) && step.at >= now
    requires !step.Succeed? && !step.Leave?
    ensures Reaches(c, callers, steps + [step], Apply(c, w, step), step.at)
  {
    var all := steps + [step];
    assert all[..|all| - 1] == steps && all[|all| - 1] == step;
    AllFailSnoc(steps, step);
  }

  lemma AllFailSnoc(steps: seq<Step>, step: Step)
    requires AllFail(steps) && !step.Succeed? && !step.Leave?
    ensures AllFail(steps + [step])
  {
  }

  lemma EnterAllSnoc(steps: seq<Step>, n: nat, at: int)
    requires n >= 1
    ensures steps + EnterAll(n, at) == steps + EnterAll(n - 1, at) + [Enter(n - 1, at)]
    ensures steps + EnterAll(0, at) == steps
  {
  }

  lemma FailAllSnoc(steps: seq<Step>, n: nat, at: int)
    requires n >= 1
    ensures steps + FailAll(n, at) == steps + FailAll(n - 1, at) + [Fail(n - 1, at)]
  {
  }

  lemma NobodyFailed(steps: seq<Step>, at: int)
    ensures steps + FailAll(0, at) == steps
  {
  }

  lemma EnterOne(c: Config, callers: nat, steps: seq<Step>, b: BreakerState, n: nat, calls: nat, now: int, at: int)
    requires Reaches(c, callers, steps, World(b, Callers(n), calls), now) && at >= now && Allows(c, b, at) && n < callers
    ensures Reaches(c, callers, steps + [Enter(n, at)], World(AfterAllow(c, b, at), Callers(n + 1), calls + 1), at)
  {
    ReachSnoc(c, callers, steps, World(b, Callers(n), calls), now, Enter(n, at));
    assert Callers(n + 1) == Callers(n) + {n};
  }

  lemma AllowTwice(c: Config, b: BreakerState, at: int)
    requires Allows(c, b, at)
    ensures Allows(c, AfterAllow(c, b, at), at) && AfterAllow(c, AfterAllow(c, b, at), at) == AfterAllow(c, b, at)
  {
  }

  lemma {:induction false} Entered(c: Config, callers: nat, steps: seq<Step>, b: BreakerState, calls: nat, now: int, n: nat, at: int)
    requires Reaches(c, callers, steps, World(b, {}, calls), now) && at >= now && Allows(c, b, at) && 1 <= n <= callers
    ensures Reaches(c, callers, steps + EnterAll(n, at), World(AfterAllow(c, b, at), Callers(n), calls + n), at)
  {
    AllowTwice(c, b, at);
    EnterAllSnoc(steps, n, at);
    if n == 1 {
      EnterOne(c, callers, steps, b, 0, calls, now, at);
    } else {
      Entered(c, callers, steps, b, calls, now, n - 1, at);
      EnterOne(c, callers, steps + EnterAll(n - 1, at), AfterAllow(c, b, at), n - 1, calls + n - 1, at, at);
    }
  }

  /** What `n` recorded failures at one instant leave of a breaker. */
  function Failed(c: Config, b: BreakerState, n: nat, at: int): BreakerState {
    if n == 0 then b else AfterFailure(c, Failed(c, b, n - 1, at), at)
  }

  lemma FailOne(c: Config, callers: nat, steps: seq<Step>, b: BreakerState, inside: set<nat>, calls: nat, at: int, k: nat)
    requires Reaches(c, callers, steps, World(b, inside, calls), at) && k in inside
    ensures Reaches(c, callers, steps + [Fail(k, at)], World(AfterFailure(c, b, at), inside - {k}, calls), at)
  {
    ReachSnoc(c, callers, steps, World(b, inside, calls), at, Fail(k, at));
  }

  /** The callers still inside after the first `n` of `all` have failed. */
  function StillInside(all: nat, n: nat): (inside: set<nat>)
    ensures forall k: nat :: k in inside <==> n <= k < all
  {
    Callers(all) - Callers(n)
  }

  lemma OneFewer(all: nat, n: nat)
    requires 1 <= n <= all
    ensures StillInside(all, n - 1) - {n - 1} == StillInside(all, n)
  {
  }

  lemma {:induction false} AllFailed(c: Config, callers: nat, steps: seq<Step>, b: BreakerState, all: nat, calls: nat, at: int, n: nat)
    requires Reaches(c, callers, steps, World(b, StillInside(all, 0), calls), at) && n <= all <= callers
    ensures Reaches(c, callers, steps + FailAll(n, at), World(Failed(c, b, n, at), StillInside(all, n), calls), at)
  {
    if n == 0 {
      NobodyFailed(steps, at);
    } else {
      AllFailed(c, callers, steps, b, all, calls, at, n - 1);
      FailNext(c, callers, steps, b, all, calls, at, n);
    }
  }

  lemma FailNext(c: Config, callers: nat, steps: seq<Step>, b: BreakerState, all: nat, calls: nat, at: int, n: nat)
    requires 1 <= n <= all <= callers
    requires Reaches(c, callers, steps + FailAll(n - 1, at), World(Failed(c, b, n - 1, at), StillInside(all, n - 1), calls), at)
    ensures Reaches(c, callers, steps + FailAll(n, at), World(Failed(c, b, n, at), StillInside(all, n), calls), at)
  {
    OneFewer(all, n);
    FailAllSnoc(steps, n, at);
    FailOne(c, callers, steps + FailAll(n - 1, at), Failed(c, b, n - 1, at), StillInside(all, n - 1), calls, at, n - 1);
  }

  lemma RoundJoin(steps: seq<Step>, n: nat, at: int)
    ensures steps + Round(n, at) == steps + EnterAll(n, at) + FailAll(n, at)
  {
  }

  lemma RoundDone(c: Config, callers: nat, steps: seq<Step>, b: BreakerState, calls: nat, now: int, n: nat, at: int)
    requires Reaches(c, callers, steps, World(b, {}, calls), now) && at >= now && Allows(c, b, at) && 1 <= n <= callers
    ensures Reaches(c, callers, steps + Round(n, at), World(Failed(c, AfterAllow(c, b, at), n, at), {}, calls + n), at)
  {
    assert StillInside(n, 0) == Callers(n) && StillInside(n, n) == {};
    Entered(c, callers, steps, b, calls, now, n, at);
    AllFailed(c, callers, steps + EnterAll(n, at), AfterAllow(c, b, at), n, calls + n, at, n);
    RoundJoin(steps, n, at);
  }

  /** Failures at the limit keep the breaker open since their instant. */
  lemma {:induction false} FailedOpen(c: Config, b: BreakerState, n: nat, at: int)
    requires n >= 1 && (b.mode.HalfOpen? || b.failures + 1 >= c.maxFailures) && b.failures + 1 >= c.maxFailures
    ensures Failed(c, b, n, at) == BreakerState(Open, b.failures + n, at)
  {
    if n > 1 {
      FailedOpen(c, b, n - 1, at);
    }
  }

  lemma {:induction false} WarmedUp(c: Config, callers: nat, n: nat)
    requires callers >= 1 && n < c.maxFailures
    ensures Reaches(c, callers, Warmup(n), World(BreakerState(Closed, n, 0), {}, n), 0)
  {
    if n > 0 {
      WarmedUp(c, callers, n - 1);
      RoundDone(c, callers, Warmup(n - 1), BreakerState(Closed, n - 1, 0), n - 1, 0, 1, 0);
      assert Failed(c, BreakerState(Closed, n - 1, 0), 1, 0) == BreakerState(Closed, n, 0);
    }
  }

  lemma {:induction false} StormReaches(c: Config, callers: nat, rounds: nat)
    requires c.maxFailures >= 1 && c.coolDown > 0 && callers >= 1
    ensures exists f: nat :: f >= c.maxFailures &&
              Reaches(c, callers, Storm(c, callers, rounds),
                      World(BreakerState(Open, f, rounds * c.coolDown), {}, c.maxFailures - 1 + callers + callers * rounds),
                      rounds * c.coolDown)
  {
    if rounds == 0 {
      var n := c.maxFailures - 1;
      WarmedUp(c, callers, n);
      RoundDone(c, callers, Warmup(n), BreakerState(Closed, n, 0), n, 0, callers, 0);
      FailedOpen(c, BreakerState(Closed, n, 0), callers, 0);
      assert n + callers >= c.maxFailures;
    } else {
      StormReaches(c, callers, rounds - 1);
      var calls := c.maxFailures - 1 + callers + callers * (rounds - 1);
      var last, at := (rounds - 1) * c.coolDown, rounds * c.coolDown;
      var f: nat :| f >= c.maxFailures &&
        Reaches(c, callers, Storm(c, callers, rounds - 1), World(BreakerState(Open, f, last), {}, calls), last);
      NextRound(callers, rounds, c.coolDown);
      RoundDone(c, callers, Storm(c, callers, rounds - 1), BreakerState(Open, f, last), calls, last, callers, at);
      FailedOpen(c, BreakerState(HalfOpen, f, last), callers, at);
      assert f + callers >= c.maxFailures;
    }
  }

  lemma NextRound(callers: nat, rounds: nat, coolDown: int)
    requires rounds >= 1
    ensures rounds * coolDown - (rounds - 1) * coolDown == coolDown
    ensures callers * rounds == callers * (rounds - 1) + callers
  {
  }

  // ---------------------------------------------------------------- when the storm first opens the breaker

  lemma {:induction false} OpeningKept(c: Config, steps: seq<Step>, more: seq<Step>)
    requires FirstOpening(c, steps).At?
    ensures FirstOpening(c, steps + more) == FirstOpening(c, steps)
  {
    if more == [] {
      assert steps + more == steps;
    } else {
      OpeningKept(c, steps, more[..|more| - 1]);
      assert (steps + more)[..|steps + more| - 1] == steps + more[..|more| - 1];
    }
  }

  lemma {:induction false} OpeningAtZero(c: Config, steps: seq<Step>)
    requires forall i :: 0 <= i < |steps| ==> steps[i].at == 0
    ensures FirstOpening(c, steps) == Never || FirstOpening(c, steps) == At(0)
  {
    if steps != [] {
      OpeningAtZero(c, steps[..|steps| - 1]);
    }
  }

  lemma {:induction false} WarmupAtZero(n: nat)
    ensures forall i :: 0 <= i < |Warmup(n)| ==> Warmup(n)[i].at == 0
  {
    if n > 0 {
      WarmupAtZero(n - 1);
    }
  }

  lemma {:induction false} StormOpensAtZero(c: Config, callers: nat, rounds: nat)
    requires c.maxFailures >= 1 && c.coolDown > 0 && callers >= 1
    ensures FirstOpening(c, Storm(c, callers, rounds)) == At(0)
  {
    if rounds == 0 {
      var steps := Storm(c, callers, 0);
      WarmupAtZero(c.maxFailures - 1);
      assert forall i :: 0 <= i < |steps| ==> steps[i].at == 0;
      OpeningAtZero(c, steps);
      StormReaches(c, callers, 0);
      AlwaysPaced(c, callers, steps);
    } else {
      StormOpensAtZero(c, callers, rounds - 1);
      OpeningKept(c, Storm(c, callers, rounds - 1), Round(callers, rounds * c.coolDown));
    }
  }

  /** For every number of callers and of cool-downs there is a run that makes exactly as many
      invocations as `InvocationBound` allows. */
  lemma BoundReached(c: Config, callers: nat, rounds: nat)
    requires c.maxFailures >= 1 && c.coolDown > 0 && callers >= 1
    ensures var steps, until := Storm(c, callers, rounds), rounds * c.coolDown;
            && Legal(c, callers, steps) && AllFail(steps) && steps != [] && steps[|steps| - 1].at <= until
            && FirstOpening(c, steps) == At(0)
            && Exec(c, steps).invocations == c.maxFailures + callers - 1 + callers * ((until - 0) / c.coolDown)
  {
    StormReaches(c, callers, rounds);
    StormOpensAtZero(c, callers, rounds);
    WholeCoolDowns(rounds, c.coolDown);
  }

  lemma WholeCoolDowns(rounds: nat, coolDown: int)
    requires coolDown > 0
    ensures (rounds * coolDown - 0) / coolDown == rounds
  {
    MulLe(0, rounds, coolDown);
    Text.QuotientUnique(rounds * coolDown, coolDown, rounds, 0);
  }
}
