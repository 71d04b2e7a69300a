/** How often a failing downstream can be called through one breaker, whatever the interleaving
of a fixed number of callers. */
module RateBound {
  import opened Circuit

  /** What callers do with one breaker. `Probe` is the check `Middleware.Call` makes before it
      starts retrying, `Enter` the check before each invocation of the downstream function: a
      caller that gets a yes is inside that function until it fails in a retryable way
      (`Fail`), succeeds, or leaves with an error the breaker does not record. */
  datatype Step =
    | Probe(at: int)
    | Enter(caller: nat, at: int)
    | Fail(caller: nat, at: int)
    | Succeed(caller: nat, at: int)
    | Leave(caller: nat, at: int)

  datatype World = World(breaker: BreakerState, inside: set<nat>, invocations: nat)

  const START := World(FRESH, {}, 0)

  function Apply(c: Config, w: World, step: Step): World {
    match step
    case Probe(at) => w.(breaker := AfterAllow(c, w.breaker, at))
    case Enter(caller, at) =>
      if Allows(c, w.breaker, at) then World(AfterAllow(c, w.breaker, at), w.inside + {caller}, w.invocations + 1) else w
    case Fail(caller, at) => w.(breaker := AfterFailure(c, w.breaker, at), inside := w.inside - {caller})
    case Succeed(caller, _) => w.(breaker := AfterSuccess(w.breaker), inside := w.inside - {caller})
    case Leave(caller, _) => w.(inside := w.inside - {caller})
  }

  predicate Enabled(callers: nat, w: World, step: Step) {
    match step
    case Probe(_) => true
    case Enter(caller, _) => caller < callers && caller !in w.inside
    case _ => step.caller in w.inside
  }

  function Exec(c: Config, steps: seq<Step>): World {
    if steps == [] then START else Apply(c, Exec(c, steps[..|steps| - 1]), steps[|steps| - 1])
  }

  /** A run of `callers` callers over a clock that never goes back. */
  predicate Legal(c: Config, callers: nat, steps: seq<Step>) {
    steps == [] ||
    var init, last := steps[..|steps| - 1], steps[|steps| - 1];
    Legal(c, callers, init) && Enabled(callers, Exec(c, init), last) && (init != [] ==> init[|init| - 1].at <= last.at)
  }

  /** Every invocation that returned failed retryably. */
  predicate AllFail(steps: seq<Step>) {
    forall i :: 0 <= i < |steps| ==> !steps[i].Succeed? && !steps[i].Leave?
  }

  /** When the breaker first opened, if it did. */
  datatype Opening = Never | At(time: int)

  function FirstOpening(c: Config, steps: seq<Step>): Opening {
    if steps == [] then Never
    else
      var init, last := steps[..|steps| - 1], steps[|steps| - 1];
      if FirstOpening(c, init).At? then FirstOpening(c, init)
      else if last.Fail? && Opens(c, Exec(c, init).breaker) then At(last.at)
      else Never
  }

  /** How often the breaker went from open to half open. */
  function Reopenings(c: Config, steps: seq<Step>): nat {
    if steps == [] then 0
    else
      var init := steps[..|steps| - 1];
      Reopenings(c, init) + if Exec(c, init).breaker.mode.Open? && Exec(c, steps).breaker.mode.HalfOpen? then 1 else 0
  }

  // ---------------------------------------------------------------- callers inside the function

  function Callers(n: nat): (s: set<nat>)
    ensures forall k: nat :: k in s <==> k < n
    ensures |s| == n
  {
    if n == 0 then {} else Callers(n - 1) + {n - 1}
  }

  lemma SubsetCount(a: set<nat>, b: set<nat>)
    requires a <= b
    ensures |a| <= |b|
  {
    assert b == a + (b - a);
    assert |b| == |a| + |b - a|;
  }

  lemma {:induction false} InsideBound(c: Config, callers: nat, steps: seq<Step>)
    requires Legal(c, callers, steps)
    ensures Exec(c, steps).inside <= Callers(callers) && |Exec(c, steps).inside| <= callers
  {
    if steps != [] {
      InsideBound(c, callers, steps[..|steps| - 1]);
    }
    SubsetCount(Exec(c, steps).inside, Callers(callers));
  }

  // ---------------------------------------------------------------- the bound

  /** The invariant of a failing run: before the first opening every invocation is a recorded
      failure or still inside; afterwards each half-open phase admits at most one more round of
      callers and begins a whole cool-down after the opening it ends. */
  predicate Paced(c: Config, callers: nat, w: World, opening: Opening, phases: nat, now: int) {
    match opening
    case Never =>
      phases == 0 && w.breaker.mode.Closed? && w.breaker.failures < c.maxFailures && w.invocations == w.breaker.failures + |w.inside|
    case At(t) =>
      && w.breaker.failures >= c.maxFailures
      && now >= t + phases * c.coolDown
      && match w.breaker.mode
         case Closed => false
         case Open =>
           w.invocations <= c.maxFailures + callers - 1 + callers * phases && w.breaker.openedAt >= t + phases * c.coolDown
         case HalfOpen =>
           phases >= 1 && w.invocations <= c.maxFailures - 1 + callers * phases + |w.inside|
  }

  lemma Distribute(callers: nat, phases: nat, coolDown: int)
    ensures callers * (phases + 1) == callers * phases + callers
    ensures (phases + 1) * coolDown == phases * coolDown + coolDown
  {
  }

  function Now(steps: seq<Step>): int {
    if steps == [] then 0 else steps[|steps| - 1].at
  }

  lemma LastStep(c: Config, init: seq<Step>, last: Step)
    ensures var steps := init + [last];
            && Exec(c, steps) == Apply(c, Exec(c, init), last) && Now(steps) == last.at
            && FirstOpening(c, steps) == (if FirstOpening(c, init).At? then FirstOpening(c, init)
                                          else if last.Fail? && Opens(c, Exec(c, init).breaker) then At(last.at) else Never)
            && Reopenings(c, steps) == Reopenings(c, init)
               + if Exec(c, init).breaker.mode.Open? && Exec(c, steps).breaker.mode.HalfOpen? then 1 else 0
  {
    assert (init + [last])[..|init|] == init;
  }

  ghost predicate PacedRun(c: Config, callers: nat, steps: seq<Step>) {
    Paced(c, callers, Exec(c, steps), FirstOpening(c, steps), Reopenings(c, steps), Now(steps))
  }

  lemma PacedSnoc(c: Config, callers: nat, init: seq<Step>, last: Step)
    requires c.maxFailures >= 1 && c.coolDown > 0 && PacedRun(c, callers, init)
    requires Enabled(callers, Exec(c, init), last) && !last.Succeed? && !last.Leave? && (init != [] ==> Now(init) <= last.at)
    requires |Exec(c, init).inside| <= callers && |Exec(c, init + [last]).inside| <= callers
    ensures PacedRun(c, callers, init + [last])
  {
    LastStep(c, init, last);
    PacedStep(c, callers, Exec(c, init), last, FirstOpening(c, init), Reopenings(c, init), Now(init));
  }

  lemma {:induction false} AlwaysPaced(c: Config, callers: nat, steps: seq<Step>)
    requires c.maxFailures >= 1 && c.coolDown > 0 && Legal(c, callers, steps) && AllFail(steps)
    ensures PacedRun(c, callers, steps)
  {
    if steps != [] {
      var init, last := steps[..|steps| - 1], steps[|steps| - 1];
      assert steps == init + [last];
      AlwaysPaced(c, callers, init);
      InsideBound(c, callers, init);
      InsideBound(c, callers, steps);
      PacedSnoc(c, callers, init, last);
    }
  }

  lemma InsideStep(c: Config, callers: nat, w: World, step: Step)
    requires Enabled(callers, w, step)
    ensures step.Probe? ==> Apply(c, w, step).inside == w.inside
    ensures step.Enter? && Allows(c, w.breaker, step.at) ==> |Apply(c, w, step).inside| == |w.inside| + 1
    ensures step.Fail? ==> |Apply(c, w, step).inside| == |w.inside| - 1
  {
  }

  lemma PacedStep(c: Config, callers: nat, w: World, step: Step, opening: Opening, phases: nat, now: int)
    requires c.maxFailures >= 1 && c.coolDown > 0
    requires Enabled(callers, w, step) && !step.Succeed? && !step.Leave? && (opening.At? ==> now <= step.at)
    requires Paced(c, callers, w, opening, phases, now)
    requires |w.inside| <= callers && |Apply(c, w, step).inside| <= callers
    ensures var w' := Apply(c, w, step);
            var opening' := if opening.At? then opening else if step.Fail? && Opens(c, w.breaker) then At(step.at) else Never;
            var phases' := phases + if w.breaker.mode.Open? && w'.breaker.mode.HalfOpen? then 1 else 0;
            Paced(c, callers, w', opening', phases', step.at)
  {
    Distribute(callers, phases, c.coolDown);
    InsideStep(c, callers, w, step);
  }

  lemma PhasesBound(phases: nat, elapsed: int, coolDown: int)
    requires coolDown > 0 && phases * coolDown <= elapsed
    ensures phases <= elapsed / coolDown
  {
    if phases > elapsed / coolDown {
      MulLe(elapsed / coolDown + 1, phases, coolDown);
    }
  }

  lemma MulLe(x: int, y: int, m: int)
    requires x <= y && m >= 0
    ensures x * m <= y * m && m * x <= m * y
  {
  }

  /** Up to time `until` at most `maxFailures + callers - 1` invocations happen, plus one round of
      `callers` for every whole cool-down since the breaker first opened. */
  lemma InvocationBound(c: Config, callers: nat, steps: seq<Step>, until: int)
    requires c.maxFailures >= 1 && c.coolDown > 0 && Legal(c, callers, steps) && AllFail(steps)
    requires steps != [] ==> steps[|steps| - 1].at <= until
    ensures match FirstOpening(c, steps)
            case Never => Exec(c, steps).invocations <= c.maxFailures - 1 + |Exec(c, steps).inside| <= c.maxFailures - 1 + callers
            case At(t) => Exec(c, steps).invocations <= c.maxFailures + callers - 1 + callers * ((until - t) / c.coolDown)
  {
    AlwaysPaced(c, callers, steps);
    InsideBound(c, callers, steps);
    match FirstOpening(c, steps)
    case Never =>
    case At(t) =>
      var phases := Reopenings(c, steps);
      PhasesBound(phases, until - t, c.coolDown);
      MulLe(phases, (until - t) / c.coolDown, callers);
  }

  /** One caller: `maxFailures` invocations, plus one for every whole cool-down. */
  lemma SingleCallerBound(c: Config, steps: seq<Step>, until: int)
    requires c.maxFailures >= 1 && c.coolDown > 0 && Legal(c, 1, steps) && AllFail(steps)
    requires steps != [] ==> steps[|steps| - 1].at <= until
    ensures match FirstOpening(c, steps)
            case Never => Exec(c, steps).invocations <= c.maxFailures - 1 + |Exec(c, steps).inside|
            case At(t) => Exec(c, steps).invocations <= c.maxFailures + (until - t) / c.coolDown
  {
    InvocationBound(c, 1, steps, until);
    match FirstOpening(c, steps)
    case Never =>
    case At(t) =>
      var rounds := (until - t) / c.coolDown;
      assert 1 * rounds == rounds;
  }
}
