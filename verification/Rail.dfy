/** Statuses, errors and idempotency keys shared by all rails. */
module Rail {
  import opened Text
  import opened Wrappers

  // ---------------------------------------------------------------- errors

  const RAIL_UNAVAILABLE := "RAIL_UNAVAILABLE"
  const INVALID_REQUEST := "INVALID_REQUEST"
  const SETTLEMENT_BREAK := "SETTLEMENT_BREAK"

  /** A Go error: a normalized rail error, any other error, or one that wraps another. */
  datatype Error =
    | RailError(code: string, reason: string)
    | Plain(message: string)
    | Wrapping(message: string, inner: Error)

  function Message(e: Error): string {
    match e
    case RailError(code, reason) => if reason == "" then code else code + ": " + reason
    case Plain(message) => message
    case Wrapping(message, _) => message
  }

  /** `errors.As`: the first rail error along the chain of wrapped errors. */
  function FindRailError(e: Error): Option<Error> {
    match e
    case RailError(_, _) => Some(e)
    case Plain(_) => None
    case Wrapping(_, inner) => FindRailError(inner)
  }

  function AsError(e: Error): (r: Error)
    ensures r.RailError?
    decreases e
  {
    match FindRailError(e)
    case Some(r) => FoundIsRail(e); r
    case None => RailError(INVALID_REQUEST, Message(e))
  }

  /** The error and everything it wraps, outermost first. */
  function Chain(e: Error): (chain: seq<Error>)
    ensures chain != [] && chain[0] == e
  {
    if e.Wrapping? then [e] + Chain(e.inner) else [e]
  }

  predicate IsFirstRail(chain: seq<Error>, i: nat) {
    i < |chain| && chain[i].RailError? && forall j :: 0 <= j < i ==> !chain[j].RailError?
  }

  lemma {:induction false} FoundInChain(e: Error) returns (i: nat)
    ensures match FindRailError(e)
            case Some(r) => IsFirstRail(Chain(e), i) && r == Chain(e)[i]
            case None => forall j :: 0 <= j < |Chain(e)| ==> !Chain(e)[j].RailError?
    decreases e
  {
    i := 0;
    if e.Wrapping? {
      i := FoundInChain(e.inner);
      i := i + 1;
      assert forall j :: 0 < j < |Chain(e)| ==> Chain(e)[j] == Chain(e.inner)[j - 1];
    }
  }

  /** Normalizing answers with the first rail error of the chain, or else with INVALID_REQUEST
      and the outermost message. */
  lemma AsErrorMeaning(e: Error)
    ensures if exists j :: 0 <= j < |Chain(e)| && Chain(e)[j].RailError? then
              exists i: nat :: IsFirstRail(Chain(e), i) && AsError(e) == Chain(e)[i]
            else AsError(e) == RailError(INVALID_REQUEST, Message(e))
  {
    var i := FoundInChain(e);
  }

  lemma FoundIsRail(e: Error)
    ensures FindRailError(e).Some? ==> FindRailError(e).value.RailError?
  {
  }

  /** Both `retry.Default().IsRetryable` and the middleware's own test: the two source functions
      have the same body. Only an unwrapped rail error is judged by its code. */
  predicate IsRetryable(e: Error) {
    match e
    case RailError(code, _) => code == RAIL_UNAVAILABLE
    case _ =>
      var s := Message(e);
      Contains(s, "connection refused") || Contains(s, "timeout") || Contains(s, "no such host") || Contains(s, "dial")
  }

  // ---------------------------------------------------------------- statuses

  type Status = string

  const PENDING: Status := "pending"
  const AUTHORIZED: Status := "authorized"
  const CAPTURED: Status := "captured"
  const SETTLED: Status := "settled"
  const REFUNDED: Status := "refunded"
  const FAILED: Status := "failed"
  const CHARGEBACK: Status := "chargeback"

  predicate ValidStatus(s: Status) {
    s == PENDING || s == AUTHORIZED || s == CAPTURED || s == SETTLED || s == REFUNDED || s == FAILED || s == CHARGEBACK
  }

  // ---------------------------------------------------------------- idempotency keys

  function IdempotencyKey(paymentId: string, operation: string, attempt: int): string {
    paymentId + ":" + operation + ":" + FormatInt(attempt)
  }

  predicate ColonFree(s: string) {
    forall i :: 0 <= i < |s| ==> s[i] != ':'
  }

  lemma ColonMoved(a: string, x: string, b: string, y: string)
    requires ColonFree(x) && |a| < |b|
    ensures a + ":" + x != b + ":" + y
  {
    var s, t := a + ":" + x, b + ":" + y;
    assert t[|b|] == ':';
    if |b| < |s| {
      assert s[|b|] == x[|b| - |a| - 1];
    }
  }

  /** The last colon of a text determines both sides of it. */
  lemma LastColon(a: string, x: string, b: string, y: string)
    requires ColonFree(x) && ColonFree(y)
    ensures a + ":" + x == b + ":" + y <==> a == b && x == y
  {
    if |a| < |b| {
      ColonMoved(a, x, b, y);
    } else if |b| < |a| {
      ColonMoved(b, y, a, x);
    } else {
      var s, t := a + ":" + x, b + ":" + y;
      assert s[..|a|] == a && t[..|b|] == b && s[|a| + 1..] == x && t[|b| + 1..] == y;
    }
  }

  lemma FormatIntInjective(m: int, n: int)
    ensures ColonFree(FormatInt(m))
    ensures FormatInt(m) == FormatInt(n) <==> m == n
  {
    FormatIntRead(m);
    FormatIntRead(n);
  }

  /** `%d` can be read back: a sign exactly when negative, then the digits of the magnitude. */
  lemma FormatIntRead(n: int)
    ensures ColonFree(FormatInt(n))
    ensures FormatInt(n)[0] == '-' <==> n < 0
    ensures n < 0 ==> AllDigits(FormatInt(n)[1..]) && DecValue(FormatInt(n)[1..]) == -n
    ensures n >= 0 ==> AllDigits(FormatInt(n)) && DecValue(FormatInt(n)) == n
  {
    if n < 0 {
      DecRoundTrip(-n);
      assert FormatInt(n)[1..] == Dec(-n);
    } else {
      DecRoundTrip(n);
    }
  }

  /** Exactly when two keys collide, for all payments, operations and attempts, colons and
      negative attempts included. */
  lemma KeyCollision(p1: string, op1: string, n1: int, p2: string, op2: string, n2: int)
    ensures IdempotencyKey(p1, op1, n1) == IdempotencyKey(p2, op2, n2)
       <==> n1 == n2 && p1 + ":" + op1 == p2 + ":" + op2
  {
    FormatIntInjective(n1, n2);
    FormatIntInjective(n2, n1);
    LastColon(p1 + ":" + op1, FormatInt(n1), p2 + ":" + op2, FormatInt(n2));
  }

  /** With operations free of colons a key names its payment, operation and attempt, even when
      payment ids contain colons. */
  lemma KeyInjective(p1: string, op1: string, n1: int, p2: string, op2: string, n2: int)
    requires ColonFree(op1) && ColonFree(op2)
    ensures IdempotencyKey(p1, op1, n1) == IdempotencyKey(p2, op2, n2) <==> p1 == p2 && op1 == op2 && n1 == n2
  {
    KeyCollision(p1, op1, n1, p2, op2, n2);
    LastColon(p1, op1, p2, op2);
  }

  /** Whatever precedes a colon in the operation may as well stand at the end of the payment. */
  lemma ColonCollides(p: string, x: string, op: string, attempt: int)
    ensures IdempotencyKey(p, x + ":" + op, attempt) == IdempotencyKey(p + ":" + x, op, attempt)
  {
    assert p + ":" + (x + ":" + op) == p + ":" + x + ":" + op;
  }

  /** The operation `long` ends in a colon followed by `short`. */
  ghost predicate EndsInOperation(long: string, short: string) {
    exists x: string :: long == x + ":" + short
  }

  /** Two different calls of these operations share a key. */
  ghost predicate CallsCollide(op1: string, op2: string) {
    exists p1, n1, p2, n2 :: (p1, op1, n1) != (p2, op2, n2) && IdempotencyKey(p1, op1, n1) == IdempotencyKey(p2, op2, n2)
  }

  /** Exactly the pairs of operations between which some payments and attempts collide: one of
      the two, after some colon in it, is the other. */
  lemma OperationsCollide(op1: string, op2: string)
    ensures CallsCollide(op1, op2) <==> EndsInOperation(op1, op2) || EndsInOperation(op2, op1)
  {
    if CallsCollide(op1, op2) {
      var p1, n1, p2, n2 :| (p1, op1, n1) != (p2, op2, n2) && IdempotencyKey(p1, op1, n1) == IdempotencyKey(p2, op2, n2);
      KeyCollision(p1, op1, n1, p2, op2, n2);
      if |p1| <= |p2| {
        Overlap(p1, op1, p2, op2);
      } else {
        Overlap(p2, op2, p1, op1);
      }
    }
    if EndsInOperation(op1, op2) {
      var x: string :| op1 == x + ":" + op2;
      ColonCollides("", x, op2, 1);
      assert ("", op1, 1) != ("" + ":" + x, op2, 1);
    }
    if EndsInOperation(op2, op1) {
      var x: string :| op2 == x + ":" + op1;
      ColonCollides("", x, op1, 1);
      assert ("" + ":" + x, op1, 1) != ("", op2, 1);
    }
  }

  lemma Overlap(a: string, x: string, b: string, y: string)
    requires a + ":" + x == b + ":" + y && |a| <= |b|
    ensures (a == b && x == y) || EndsInOperation(x, y)
  {
    var s, t := a + ":" + x, b + ":" + y;
    assert s[..|a|] == a && t[..|b|] == b && s[|a| + 1..] == x && t[|b| + 1..] == y;
    if |a| < |b| {
      var mid := b[|a| + 1..];
      assert x == mid + ":" + y by {
        assert x == t[|a| + 1..];
      }
    }
  }
}
