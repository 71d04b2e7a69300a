/** Retry with exponential backoff: the waiting times, and the attempt loop of `Do`. */
module Retry {
  import opened Text
  import opened Wrappers
  import opened Rail

  const BASE := 100_000_000      // nanoseconds
  const CAP := 2_000_000_000
  const TWO_62 := 0x4000_0000_0000_0000

  // ---------------------------------------------------------------- backoff

  /** `n` rounds of the doubling loop; it leaves early once the cap is passed. */
  function Doubled(d: int, cap: int, n: nat): int
    decreases n
  {
    if n == 0 then d
    else
      var twice := Wrap64(d * 2);
      if twice > cap then cap else Doubled(twice, cap, n - 1)
  }

  /** The exclusive upper end of the random waiting time before the attempt after `attempt`. */
  function Window(base: int, cap: int, attempt: nat): (w: int)
    ensures base > 0 ==> w > 0
  {
    var d := Doubled(base, cap, if attempt <= 1 then 0 else attempt - 1);
    if d <= 0 then base else d
  }

  /** `random` stands for the random draw, any non-negative number. */
  method Backoff(base: int, cap: int, attempt: nat, random: nat) returns (jitter: int)
    requires 0 < base < TWO_63
    ensures Window(base, cap, attempt) > 0
    ensures jitter == random % Window(base, cap, attempt)
  {
    var d := base;
    var i := 1;
    while i < attempt
      invariant 1 <= i && (i <= attempt || attempt == 0)
      invariant Doubled(base, cap, if attempt <= 1 then 0 else attempt - 1) == Doubled(d, cap, if attempt <= i then 0 else attempt - i)
    {
      d := Wrap64(d * 2);
      if d > cap {
        d := cap;
        break;
      }
      i := i + 1;
    }
    assert d == Doubled(base, cap, if attempt <= 1 then 0 else attempt - 1);
    if d <= 0 {
      d := base;
    }
    jitter := random % d;
  }

  function Pow2(n: nat): (p: nat)
    ensures p >= 1
  {
    if n == 0 then 1 else 2 * Pow2(n - 1)
  }

  function Min(x: int, y: int): int {
    if x <= y then x else y
  }

  function Max(x: int, y: int): int {
    if x <= y then y else x
  }

  lemma Grows(x: int, m: nat)
    requires x > 0 && m >= 1
    ensures x * m >= x
  {
  }

  lemma Halved(x: int, n: nat)
    requires n >= 1
    ensures x * Pow2(n) == (2 * x) * Pow2(n - 1)
  {
  }

  // ---------------------------------------------------------------- the doubling rule

  /** The rule the comment on `backoff` gives, from the second attempt on. */
  ghost predicate Doubling(base: int, cap: int) {
    forall attempt: nat :: attempt >= 2 ==> Window(base, cap, attempt) == Min(base * Pow2(attempt - 1), cap)
  }

  /** Some doubling of the base passes the cap while it still fits a signed 64-bit number. */
  ghost predicate PassesInRange(base: int, cap: int) {
    exists j: nat :: j >= 1 && cap < base * Pow2(j) < TWO_63
  }

  /** 2^63 lies between u (p - 1) and u p. */
  predicate Straddles(u: int, p: int) {
    u * (p - 1) < TWO_63 <= u * p
  }

  /** 2^63 divided by the distance of the cap from 2^63, rounded up, is a power of two. */
  ghost predicate NearPower(cap: int) {
    exists i: nat :: i >= 1 && Straddles(TWO_63 - cap, Pow2(i))
  }

  /** As long as the cap is passed in range, nothing overflows. */
  lemma {:induction false} DoubledPasses(d: int, cap: int, j: nat, n: nat)
    requires 0 < d && 0 < cap && j >= 1 && cap < d * Pow2(j) < TWO_63 && n >= 1
    ensures Doubled(d, cap, n) == Min(d * Pow2(n), cap)
    decreases n
  {
    Halved(d, j);
    Halved(d, n);
    Grows(2 * d, Pow2(j - 1));
    Grows(2 * d, Pow2(n - 1));
    if 2 * d <= cap && n > 1 {
      DoubledPasses(2 * d, cap, j - 1, n - 1);
    }
  }

  /** Otherwise the doubling ends below zero, on the far side of 2^63. */
  lemma {:induction false} DoubledFalls(d: int, cap: int) returns (n: nat)
    requires 0 < d < TWO_63 && 0 < cap < TWO_63 && !PassesInRange(d, cap)
    ensures n >= 1 && Doubled(d, cap, n) <= 0 && d * Pow2(n) >= TWO_63
    decreases TWO_63 - d
  {
    assert Pow2(1) == 2;
    if 2 * d >= TWO_63 {
      n := 1;
      assert Wrap64(2 * d) == 2 * d - TWO_64;
      assert Doubled(2 * d - TWO_64, cap, 0) == 2 * d - TWO_64;
    } else {
      assert d * Pow2(1) == 2 * d;
      assert !PassesInRange(2 * d, cap) by {
        if PassesInRange(2 * d, cap) {
          var j: nat :| j >= 1 && cap < (2 * d) * Pow2(j) < TWO_63;
          Halved(d, j + 1);
        }
      }
      n := DoubledFalls(2 * d, cap);
      n := n + 1;
      Halved(d, n);
    }
  }

  lemma {:induction false} DoubledZero(cap: int, n: nat)
    requires cap > 0
    ensures Doubled(0, cap, n) == 0
  {
    if n > 0 {
      DoubledZero(cap, n - 1);
    }
  }

  lemma {:induction false} Pow2Mono(m: nat, n: nat)
    requires m <= n
    ensures Pow2(m) <= Pow2(n)
    decreases n - m
  {
    if m < n {
      Pow2Mono(m + 1, n);
    }
  }

  lemma Scale(u: int, p: int, q: int)
    requires u > 0 && p <= q
    ensures u * p <= u * q
  {
  }

  /** One round of the doubling loop below zero. */
  lemma SinkOnce(v: int, cap: int, n: nat)
    requires 0 < v <= TWO_63 && 0 < cap < TWO_63 && n > 0
    ensures 2 * v <= TWO_63 ==> Doubled(-v, cap, n) == Doubled(-(2 * v), cap, n - 1)
    ensures v == TWO_63 ==> Doubled(-v, cap, n) == 0
    ensures TWO_63 < 2 * v && v < TWO_63 ==>
              Doubled(-v, cap, n) == if TWO_64 - 2 * v > cap then cap else Doubled(TWO_64 - 2 * v, cap, n - 1)
  {
    DoubledZero(cap, n - 1);
  }

  /** After the first overflow the variable holds -u 2^m until that, too, leaves the range; then
      it comes back above the cap, or at zero. */
  lemma {:induction false} ComesBackAbove(u: int, v: int, m: nat, i: nat, n: nat, cap: int)
    requires 0 < u <= TWO_62 && cap == TWO_63 - u && v == u * Pow2(m) && 0 < v <= TWO_63
    requires Straddles(u, Pow2(i))
    ensures Doubled(-v, cap, n) <= 0 || Doubled(-v, cap, n) == cap
    decreases n
  {
    if n > 0 {
      SinkOnce(v, cap, n);
      NextPower(u, v, m);
      if 2 * v <= TWO_63 {
        ComesBackAbove(u, 2 * v, m + 1, i, n - 1, cap);
      } else if v < TWO_63 {
        OneMore(u, m, i);
        Spread(u, Pow2(m + 1));
      }
    }
  }

  lemma NextPower(u: int, v: int, m: nat)
    requires v == u * Pow2(m)
    ensures u * Pow2(m + 1) == 2 * v
  {
  }

  lemma Spread(u: int, p: int)
    ensures u * (p - 1) == u * p - u
  {
  }

  lemma OneMore(u: int, m: nat, i: nat)
    requires 0 < u && u * Pow2(m) < TWO_63 < u * Pow2(m + 1)
    requires Straddles(u, Pow2(i))
    ensures i == m + 1
  {
    if i <= m {
      Pow2Mono(i, m);
      Scale(u, Pow2(i), Pow2(m));
    } else if i > m + 1 {
      Pow2Mono(m + 2, i);
      Scale(u, Pow2(m + 1), Pow2(i) - 1);
    }
  }

  /** Only powers of two divide a power of two. */
  lemma {:induction false} OddDivisor(u: nat, q: nat, n: nat)
    requires u * q == Pow2(n) && q % 2 == 1
    ensures q == 1
  {
    if n == 0 {
      if q > 1 && u > 0 {
        Scale(u, 2, q);
      }
    } else {
      var h := u / 2;
      if u % 2 == 1 {
        OddProduct(u, q);
      } else {
        assert u == 2 * h;
        assert 2 * (h * q) == u * q;
        OddDivisor(h, q, n - 1);
      }
    }
  }

  lemma OddProduct(x: nat, y: nat)
    requires x % 2 == 1 && y % 2 == 1
    ensures (x * y) % 2 == 1
  {
    var a, b := x / 2, y / 2;
    assert x * y == 2 * (2 * (a * b) + a + b) + 1 by {
      assert x == 2 * a + 1 && y == 2 * b + 1;
      assert (2 * a + 1) * (2 * b + 1) == 2 * (2 * (a * b) + a + b) + 1;
    }
  }

  /** Without such a power of two it comes back below the cap. */
  lemma {:induction false} ComesBackBelow(u: int, v: int, m: nat, cap: int) returns (n: nat)
    requires 0 < u <= TWO_62 && cap == TWO_63 - u && m >= 1 && v == u * Pow2(m) && 0 < v <= TWO_63 && !NearPower(cap)
    ensures 0 < Doubled(-v, cap, n) < cap
    decreases TWO_63 - v
  {
    NextPower(u, v, m);
    if 2 * v <= TWO_63 {
      n := ComesBackBelow(u, 2 * v, m + 1, cap);
      n := n + 1;
    } else {
      n := 1;
      NotNear(u, v, m, cap);
    }
    SinkOnce(v, cap, n);
  }

  lemma NotNear(u: int, v: int, m: nat, cap: int)
    requires 0 < u && cap == TWO_63 - u && m >= 1 && v == u * Pow2(m) && v <= TWO_63 < 2 * v && !NearPower(cap)
    ensures v < TWO_63 && TWO_63 < 2 * v - u
  {
    NextPower(u, v, m);
    assert !Straddles(u, Pow2(m)) && !Straddles(u, Pow2(m + 1));
    Spread(u, Pow2(m));
    Spread(u, Pow2(m + 1));
    NeverExactly(u, m);
  }

  lemma NeverExactly(u: int, m: nat)
    requires u > 0 && m >= 1
    ensures u * (Pow2(m + 1) - 1) != TWO_63
  {
    if u * (Pow2(m + 1) - 1) == TWO_63 {
      Pow2SixtyTwo();
      OddDivisor(u, Pow2(m + 1) - 1, 63);
    }
  }

  /** Exactly the pairs for which the doubling rule holds at every attempt, overflow and all: some
      doubling passes the cap in range, or base and cap are equal and the cap is near 2^63 in the
      sense above. */
  lemma DoublingExact(base: int, cap: int)
    requires 0 < base < TWO_63 && 0 < cap < TWO_63
    ensures Doubling(base, cap) <==> PassesInRange(base, cap) || (base == cap && NearPower(cap))
  {
    if PassesInRange(base, cap) {
      var j: nat :| j >= 1 && cap < base * Pow2(j) < TWO_63;
      forall attempt: nat | attempt >= 2 ensures Window(base, cap, attempt) == Min(base * Pow2(attempt - 1), cap) {
        DoubledPasses(base, cap, j, attempt - 1);
        Grows(base, Pow2(attempt - 1));
      }
    } else if base != cap {
      var n := DoubledFalls(base, cap);
      assert Window(base, cap, n + 1) == base;
    } else {
      DoublingOfCap(cap);
    }
  }

  lemma FirstOverflow(cap: int, n: nat)
    requires TWO_62 <= cap < TWO_63
    ensures Doubled(cap, cap, n + 1) == Doubled(-(2 * (TWO_63 - cap)), cap, n)
  {
    assert Wrap64(cap * 2) == cap * 2 - TWO_64;
  }

  /** Base and cap equal and too large to be doubled. */
  lemma DoublingOfCap(cap: int)
    requires 0 < cap < TWO_63 && !PassesInRange(cap, cap)
    ensures Doubling(cap, cap) <==> NearPower(cap)
  {
    var u := TWO_63 - cap;
    assert Pow2(1) == 2;
    assert 2 * cap >= TWO_63 by {
      assert cap * Pow2(1) == 2 * cap;
    }
    if NearPower(cap) {
      var i: nat :| i >= 1 && Straddles(u, Pow2(i));
      forall attempt: nat | attempt >= 2 ensures Window(cap, cap, attempt) == Min(cap * Pow2(attempt - 1), cap) {
        ComesBackAbove(u, 2 * u, 1, i, attempt - 2, cap);
        FirstOverflow(cap, attempt - 2);
        Grows(cap, Pow2(attempt - 1));
      }
    } else {
      var n := ComesBackBelow(u, 2 * u, 1, cap);
      FirstOverflow(cap, n);
      assert Window(cap, cap, n + 2) < cap;
      Grows(cap, Pow2(n + 1));
    }
  }

  /** A base that overflows at once, and a cap that is never passed. */
  lemma DoublingFails()
    ensures Window(TWO_62, 1, 2) == TWO_62 && !Doubling(TWO_62, 1) && !Doubling(1, TWO_62)
  {
    assert Wrap64(TWO_62 * 2) == -TWO_63;
    assert Doubled(-TWO_63, 1, 0) == -TWO_63;
    assert Window(TWO_62, 1, 2) == TWO_62 && Min(TWO_62 * Pow2(2 - 1), 1) == 1;
    OutOfRange(TWO_62);
    DoublingExact(1, TWO_62);
  }

  /** No power of two lies between such a cap and 2^63. */
  lemma OutOfRange(cap: int)
    requires cap >= TWO_62
    ensures !PassesInRange(1, cap)
  {
    if PassesInRange(1, cap) {
      var j: nat :| j >= 1 && cap < 1 * Pow2(j) < TWO_63;
      Pow2SixtyTwo();
      if j <= 62 {
        Pow2Mono(j, 62);
      } else {
        Pow2Mono(63, j);
      }
    }
  }

  lemma {:induction false} JumpOver(d: int, cap: int) returns (j: nat)
    requires 0 < d < TWO_62 && 0 < cap < TWO_62
    ensures j >= 1 && cap < d * Pow2(j) < TWO_63
    decreases TWO_62 - d
  {
    if 2 * d > cap {
      j := 1;
      assert Pow2(1) == 2;
    } else {
      j := JumpOver(2 * d, cap);
      j := j + 1;
      Halved(d, j);
    }
  }

  /** With base and cap below 2^62 nanoseconds (146 years) nothing overflows: the first wait is
      drawn below the base, the k-th below the base doubled k - 1 times or the cap. */
  lemma WindowClosed(base: int, cap: int, attempt: nat)
    requires 0 < base < TWO_62 && 0 < cap < TWO_62 && attempt >= 1
    ensures Window(base, cap, attempt) == if attempt == 1 then base else Min(base * Pow2(attempt - 1), cap)
  {
    if attempt > 1 {
      var j := JumpOver(base, cap);
      DoublingExact(base, cap);
    }
  }

  lemma {:induction false} Pow2Add(m: nat, n: nat)
    ensures Pow2(m + n) == Pow2(m) * Pow2(n)
  {
    if m > 0 {
      Pow2Add(m - 1, n);
      assert Pow2(m + n) == 2 * Pow2(m - 1 + n);
      assert 2 * (Pow2(m - 1) * Pow2(n)) == (2 * Pow2(m - 1)) * Pow2(n);
    }
  }

  lemma Pow2Sixteen()
    ensures Pow2(16) == 0x1_0000
  {
    assert Pow2(8) == 0x100;
    Pow2Add(8, 8);
  }

  lemma Pow2SixtyTwo()
    ensures Pow2(62) == TWO_62 && Pow2(63) == TWO_63
  {
    Pow2Sixteen();
    Pow2Add(16, 16);
    Pow2Add(32, 32);
    assert Pow2(64) == 2 * Pow2(63) && Pow2(63) == 2 * Pow2(62);
  }

  /** Exactly the caps below 2^62 keep the doubling rule for every base below 2^62. */
  lemma WindowClosedExactly(cap: int)
    requires 0 < cap < TWO_63
    ensures cap < TWO_62 <==> forall base :: 0 < base < TWO_62 ==> Doubling(base, cap)
  {
    if cap < TWO_62 {
      forall base | 0 < base < TWO_62 ensures Doubling(base, cap) {
        var j := JumpOver(base, cap);
        DoublingExact(base, cap);
      }
    } else {
      OutOfRange(cap);
      DoublingExact(1, cap);
    }
  }

  // ---------------------------------------------------------------- total waiting time

  lemma {:induction false} WrapBelow(x: int)
    requires x >= -TWO_63
    ensures Wrap64(x) <= x
    decreases x
  {
    if x >= TWO_63 {
      WrapBelow(x - TWO_64);
    }
  }

  lemma WrapDouble(x: int)
    requires x > 0
    ensures Wrap64(x) <= x && Wrap64(Wrap64(x) * 2) == Wrap64(2 * x) <= 2 * x
  {
    WrapBelow(x);
    WrapBelow(2 * x);
    WrapAdd(x, x);
  }

  lemma {:induction false} DoubledBelow(x: int, cap: int, n: nat)
    requires x > 0
    ensures Doubled(Wrap64(x), cap, n) <= x * Pow2(n)
    ensures Doubled(Wrap64(x), cap, n) <= Max(Wrap64(x), cap)
    decreases n
  {
    WrapDouble(x);
    if n > 0 {
      Halved(x, n);
      Grows(2 * x, Pow2(n - 1));
      DoubledBelow(2 * x, cap, n - 1);
    }
  }

  /** Overflow or not, a window never exceeds the doubled base, nor both base and cap. */
  lemma WindowBelow(base: int, cap: int, attempt: nat)
    requires 0 < base < TWO_63 && attempt >= 1
    ensures 0 < Window(base, cap, attempt) <= base * Pow2(attempt - 1)
    ensures Window(base, cap, attempt) <= Max(base, cap)
  {
    DoubledBelow(base, cap, attempt - 1);
    Grows(base, Pow2(attempt - 1));
  }

  function Sum(waits: seq<int>): int {
    if waits == [] then 0 else Sum(waits[..|waits| - 1]) + waits[|waits| - 1]
  }

  /** The k-th wait was drawn below the k-th window. */
  predicate Drawn(base: int, cap: int, waits: seq<int>) {
    forall i :: 0 <= i < |waits| ==> 0 <= waits[i] < Window(base, cap, i + 1)
  }

  lemma {:induction false} TotalDrawn(base: int, cap: int, waits: seq<int>)
    requires 0 < base < TWO_63 && Drawn(base, cap, waits)
    ensures 0 <= Sum(waits) <= base * (Pow2(|waits|) - 1)
    ensures waits != [] ==> Sum(waits) < base * (Pow2(|waits|) - 1)
    ensures Sum(waits) <= |waits| * Max(base, cap)
  {
    if waits != [] {
      var init, last := waits[..|waits| - 1], waits[|waits| - 1];
      TotalDrawn(base, cap, init);
      WindowBelow(base, cap, |waits|);
      Telescope(base, Pow2(|init|));
      AddOne(|init|, Max(base, cap));
    }
  }

  lemma Telescope(base: int, p: int)
    ensures base * (p - 1) + base * p == base * (2 * p - 1)
  {
  }

  lemma AddOne(n: int, m: int)
    ensures (n + 1) * m == n * m + m
  {
  }

  // ---------------------------------------------------------------- Do

  /** What the context says at one attempt: before it, and during the wait after it. */
  datatype Context = Context(before: Option<Error>, during: Option<Error>)

  /** How a `Do` went: the keys it handed out, the waits it drew, and whether the context ended it
      rather than an attempt; then the last wait may have been cut short. */
  datatype Done<S> = Done(state: S, error: Option<Error>, keys: seq<string>, waits: seq<int>, stopped: bool)

  datatype Options = Options(maxAttempts: int, base: int, cap: int)

  /** Options with their defaults filled in, and the random draws. */
  datatype Plan = Plan(last: nat, base: int, cap: int, draw: int -> nat)

  function MaxOf(maxAttempts: int): (n: nat)
    ensures n >= 1
  {
    if maxAttempts < 1 then 1 else maxAttempts
  }

  function PlanOf(o: Options, draw: int -> nat): Plan {
    Plan(MaxOf(o.maxAttempts), if o.base <= 0 then BASE else o.base, if o.cap <= 0 then CAP else o.cap, draw)
  }

  /** The wait drawn after an attempt. */
  function Wait(plan: Plan, attempt: nat): (wait: nat)
    requires plan.base > 0
    ensures wait < Window(plan.base, plan.cap, attempt)
  {
    plan.draw(attempt) % Window(plan.base, plan.cap, attempt)
  }

  /** `Do` from attempt `attempt` on. The called function is a state transformer. */
  function DoFrom<S>(paymentId: string, operation: string, plan: Plan, fn: (S, string, int) -> (S, Option<Error>),
                     ctx: int -> Context, attempt: nat, s: S): Done<S>
    requires 1 <= attempt <= plan.last && plan.base > 0
    decreases plan.last - attempt
  {
    if ctx(attempt).before.Some? then Done(s, ctx(attempt).before, [], [], true)
    else
      var key := IdempotencyKey(paymentId, operation, attempt);
      var (s', error) := fn(s, key, attempt);
      if error.None? || !IsRetryable(error.value) || attempt == plan.last then Done(s', error, [key], [], false)
      else
        var wait := Wait(plan, attempt);
        if ctx(attempt).during.Some? then Done(s', ctx(attempt).during, [key], [wait], true)
        else
          var rest := DoFrom(paymentId, operation, plan, fn, ctx, attempt + 1, s');
          rest.(keys := [key] + rest.keys, waits := [wait] + rest.waits)
  }

  /** The error the context had before the attempt `next`, or during the wait before it. */
  predicate FromContext(ctx: int -> Context, next: nat, error: Option<Error>) {
    error.Some? && (error == ctx(next).before || error == ctx(next - 1).during)
  }

  /** One wait after every attempt but the last, drawn for that attempt; when the context ends
      the run, also one after the last attempt. */
  ghost predicate WaitsFollow<S>(plan: Plan, ctx: int -> Context, attempt: nat, d: Done<S>)
    requires plan.base > 0
  {
    && |d.waits| <= plan.last - attempt
    && |d.waits| == |d.keys| - (if d.stopped then 0 else 1)
    && (forall i :: 0 <= i < |d.waits| ==> d.waits[i] == Wait(plan, attempt + i))
    && (d.stopped ==> FromContext(ctx, attempt + |d.keys|, d.error))
  }

  lemma WaitsStep<S>(plan: Plan, ctx: int -> Context, attempt: nat, key: string, rest: Done<S>)
    requires attempt < plan.last && plan.base > 0 && WaitsFollow(plan, ctx, attempt + 1, rest)
    ensures WaitsFollow(plan, ctx, attempt, rest.(keys := [key] + rest.keys, waits := [Wait(plan, attempt)] + rest.waits))
  {
    var waits := [Wait(plan, attempt)] + rest.waits;
    forall i | 0 <= i < |waits| ensures waits[i] == Wait(plan, attempt + i) {
      if i > 0 {
        assert waits[i] == rest.waits[i - 1];
      }
    }
  }

  lemma {:induction false} WaitsInOrder<S>(paymentId: string, operation: string, plan: Plan,
                                           fn: (S, string, int) -> (S, Option<Error>), ctx: int -> Context, attempt: nat, s: S)
    requires 1 <= attempt <= plan.last && plan.base > 0
    ensures WaitsFollow(plan, ctx, attempt, DoFrom(paymentId, operation, plan, fn, ctx, attempt, s))
    decreases plan.last - attempt
  {
    if ctx(attempt).before.None? {
      var key := IdempotencyKey(paymentId, operation, attempt);
      var (s', error) := fn(s, key, attempt);
      if error.Some? && IsRetryable(error.value) && attempt < plan.last && ctx(attempt).during.None? {
        WaitsInOrder(paymentId, operation, plan, fn, ctx, attempt + 1, s');
        WaitsStep(plan, ctx, attempt, key, DoFrom(paymentId, operation, plan, fn, ctx, attempt + 1, s'));
      }
    }
  }

  /** Options are taken as they are; one attempt at least, and a hundred milliseconds and two seconds for
      a base and a cap that are not positive. With these the waits are drawn below 100, 200, 400, 800 and
      1600 milliseconds and from then on below two seconds. */
  lemma Defaults(o: Options, draw: int -> nat, attempt: nat)
    ensures var plan := PlanOf(o, draw);
            && plan.draw == draw && plan.last == (if o.maxAttempts >= 1 then o.maxAttempts else 1)
            && plan.base == (if o.base > 0 then o.base else 100_000_000)
            && plan.cap == (if o.cap > 0 then o.cap else 2_000_000_000)
    ensures attempt >= 1 ==>
              Window(BASE, CAP, attempt) == if attempt <= 5 then 100_000_000 * Pow2(attempt - 1) else 2_000_000_000
  {
    if attempt >= 1 {
      WindowClosed(BASE, CAP, attempt);
      assert Pow2(4) == 16 && Pow2(5) == 32;
      if attempt <= 5 {
        Pow2Mono(attempt - 1, 4);
      } else {
        Pow2Mono(5, attempt - 1);
      }
    }
  }

  /** Whatever the options, the draws, the called function and the context: a `Do` draws its k-th
      wait below the k-th window, never waits after the last attempt the options allow, and waits
      between attempts only; over n waits that is in total less than base * (2^n - 1) and at most
      n times the larger of base and cap. */
  lemma TotalWait<S>(paymentId: string, operation: string, o: Options, draw: int -> nat,
                     fn: (S, string, int) -> (S, Option<Error>), ctx: int -> Context, s: S)
    requires o.base < TWO_63 && o.cap < TWO_63
    ensures var plan := PlanOf(o, draw);
            var d := DoFrom(paymentId, operation, plan, fn, ctx, 1, s);
            var n := |d.waits|;
            && n == |d.keys| - (if d.stopped then 0 else 1) && n < plan.last
            && Drawn(plan.base, plan.cap, d.waits)
            && (n > 0 ==> Sum(d.waits) < plan.base * (Pow2(n) - 1))
            && 0 <= Sum(d.waits) <= n * Max(plan.base, plan.cap)
  {
    var plan := PlanOf(o, draw);
    var d := DoFrom(paymentId, operation, plan, fn, ctx, 1, s);
    WaitsInOrder(paymentId, operation, plan, fn, ctx, 1, s);
    TotalDrawn(plan.base, plan.cap, d.waits);
  }

  function KeysFrom(paymentId: string, operation: string, first: nat, n: nat): seq<string> {
    seq(n, i requires 0 <= i < n => IdempotencyKey(paymentId, operation, first + i))
  }

  lemma KeysStep(paymentId: string, operation: string, attempt: nat, n: nat)
    ensures [IdempotencyKey(paymentId, operation, attempt)] + KeysFrom(paymentId, operation, attempt + 1, n)
         == KeysFrom(paymentId, operation, attempt, n + 1)
  {
  }

  lemma {:induction false} KeysInOrder<S>(paymentId: string, operation: string, plan: Plan,
                                          fn: (S, string, int) -> (S, Option<Error>), ctx: int -> Context, attempt: nat, s: S)
    requires 1 <= attempt <= plan.last && plan.base > 0
    ensures var keys := DoFrom(paymentId, operation, plan, fn, ctx, attempt, s).keys;
            |keys| <= plan.last - attempt + 1 && keys == KeysFrom(paymentId, operation, attempt, |keys|)
    decreases plan.last - attempt
  {
    KeysStep(paymentId, operation, attempt, 0);
    if ctx(attempt).before.None? {
      var key := IdempotencyKey(paymentId, operation, attempt);
      var (s', error) := fn(s, key, attempt);
      if error.Some? && IsRetryable(error.value) && attempt < plan.last && ctx(attempt).during.None? {
        KeysInOrder(paymentId, operation, plan, fn, ctx, attempt + 1, s');
        KeysStep(paymentId, operation, attempt, |DoFrom(paymentId, operation, plan, fn, ctx, attempt + 1, s').keys|);
      }
    }
  }

  /** In one `Do` the called function sees the keys of attempts 1, 2, ..., n in order, n at most
      the maximum, no key twice, and none that any other payment or operation ever uses. */
  lemma KeysOfDo<S>(paymentId: string, operation: string, o: Options, draw: int -> nat,
                    fn: (S, string, int) -> (S, Option<Error>), ctx: int -> Context, s: S)
    requires ColonFree(operation)
    ensures var keys := DoFrom(paymentId, operation, PlanOf(o, draw), fn, ctx, 1, s).keys;
            && |keys| <= MaxOf(o.maxAttempts)
            && keys == KeysFrom(paymentId, operation, 1, |keys|)
            && (forall i, j :: 0 <= i < j < |keys| ==> keys[i] != keys[j])
            && (forall i, p, op, n :: 0 <= i < |keys| && ColonFree(op) && keys[i] == IdempotencyKey(p, op, n) ==>
                  p == paymentId && op == operation && n == i + 1)
  {
    KeysInOrder(paymentId, operation, PlanOf(o, draw), fn, ctx, 1, s);
    var keys := DoFrom(paymentId, operation, PlanOf(o, draw), fn, ctx, 1, s).keys;
    forall i, j | 0 <= i < j < |keys| ensures keys[i] != keys[j] {
      KeyInjective(paymentId, operation, 1 + i, paymentId, operation, 1 + j);
    }
    forall i, p, op, n | 0 <= i < |keys| && ColonFree(op) && keys[i] == IdempotencyKey(p, op, n)
      ensures p == paymentId && op == operation && n == i + 1
    {
      KeyInjective(paymentId, operation, 1 + i, p, op, n);
    }
  }
}
