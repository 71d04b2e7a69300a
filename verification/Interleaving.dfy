/** Captures and refunds at the granularity of the locks they take.

A capture or refund reads the row, writes the status, updates the tracker and appends to the log
under four separate locks; any number of callers interleave between them. */
module Interleaving {
  import opened Wrappers
  import opened Rail
  import opened Store
  import opened Settlement
  import opened Connector
  import opened Replay

  /** Where one caller stands. */
  datatype Caller =
    | Idle
    | Checked(m: Movement, rail: string, p: string, amount: Money)    // the status allowed it
    | Marked(m: Movement, rail: string, p: string, amount: Money)     // status written
    | Recorded(m: Movement, rail: string, p: string, amount: Money)   // tracker updated
    | Pending(e: Event)                                               // another operation, event not yet logged

  datatype Shared = Shared(statuses: map<string, Status>, totals: map<string, Money>, log: seq<Event>, callers: seq<Caller>)

  /** One locked step. `Write` stands for everything else that may happen to the statuses:
      authorizations, webhooks, settlements, failures. */
  datatype Move =
    | Begin(i: nat, m: Movement, rail: string, p: string, amount: Money)
    | Write(i: nat, statuses: map<string, Status>, e: Event)
    | Advance(i: nat)

  predicate Enabled(s: Shared, move: Move) {
    match move
    case Begin(i, _, _, _, _) => i < |s.callers| && s.callers[i].Idle?
    case Write(i, _, e) => i < |s.callers| && s.callers[i].Idle? && !IsCapture(e) && !IsRefund(e)
    case Advance(i) => i < |s.callers| && !s.callers[i].Idle?
  }

  function MoveEvent(c: Caller): Event
    requires !c.Idle? && !c.Pending?
  {
    EventOf(c.rail, c.p, OpOf(c.m), TargetOf(c.m), c.amount)
  }

  function Apply(s: Shared, move: Move): Shared
    requires Enabled(s, move)
  {
    match move
    case Begin(i, m, rail, p, amount) =>
      if Starts(s, m, p) then s.(callers := s.callers[i := Checked(m, rail, p, amount)]) else s
    case Write(i, statuses, e) => s.(statuses := statuses, callers := s.callers[i := Pending(e)])
    case Advance(i) =>
      match s.callers[i]
      case Checked(m, rail, p, amount) =>
        Shared(if p in s.statuses then s.statuses[p := TargetOf(m)] else s.statuses, s.totals, s.log,
               s.callers[i := Marked(m, rail, p, amount)])
      case Marked(m, rail, p, amount) =>
        s.(totals := Added(s.totals, rail, Signed(m, amount)), callers := s.callers[i := Recorded(m, rail, p, amount)])
      case Recorded(_, _, _, _) => s.(log := s.log + [MoveEvent(s.callers[i])], callers := s.callers[i := Idle])
      case Pending(e) => s.(log := s.log + [e], callers := s.callers[i := Idle])
  }

  predicate Legal(s: Shared, moves: seq<Move>)
    decreases |moves|
  {
    moves == [] || (Enabled(s, moves[0]) && Legal(Apply(s, moves[0]), moves[1..]))
  }

  function Exec(s: Shared, moves: seq<Move>): Shared
    requires Legal(s, moves)
    decreases |moves|
  {
    if moves == [] then s else Exec(Apply(s, moves[0]), moves[1..])
  }

  function Start(n: nat): Shared {
    Shared(map[], map[], [], seq(n, _ => Idle))
  }

  // ---------------------------------------------------------------- money in flight

  /** What a caller has put on the tracker but not yet into the log. */
  function Weight(c: Caller, rail: string): Money {
    if c.Recorded? && c.rail == rail then Signed(c.m, c.amount) else 0.0
  }

  function InFlight(callers: seq<Caller>, rail: string): Money {
    if callers == [] then 0.0 else InFlight(callers[..|callers| - 1], rail) + Weight(callers[|callers| - 1], rail)
  }

  lemma {:induction false} InFlightUpdate(callers: seq<Caller>, i: nat, c: Caller, rail: string)
    requires i < |callers|
    ensures InFlight(callers[i := c], rail) == InFlight(callers, rail) - Weight(callers[i], rail) + Weight(c, rail)
    decreases |callers|
  {
    var n := |callers| - 1;
    var updated := callers[i := c];
    if i < n {
      InFlightUpdate(callers[..n], i, c, rail);
      assert updated[..n] == callers[..n][i := c];
    } else {
      assert updated[..n] == callers[..n];
    }
  }

  lemma {:induction false} IdleWeighsNothing(callers: seq<Caller>, rail: string)
    requires forall i :: 0 <= i < |callers| ==> !callers[i].Recorded?
    ensures InFlight(callers, rail) == 0.0
  {
    if callers != [] {
      IdleWeighsNothing(callers[..|callers| - 1], rail);
    }
  }

  /** The tracker holds what the log says plus what is in flight. */
  predicate Conserved(s: Shared, rail: string) {
    Total(s.totals, rail) == LogTotal(s.log, rail) + InFlight(s.callers, rail)
  }

  /** No pending event is a capture or a refund: those are logged by their own calls. */
  predicate PendingPlain(s: Shared) {
    forall i :: 0 <= i < |s.callers| && s.callers[i].Pending? ==> !IsCapture(s.callers[i].e) && !IsRefund(s.callers[i].e)
  }

  /** The event a caller logs last moves in the log what the caller had in flight. */
  lemma LoggedWeight(c: Caller, rail: string)
    requires c.Recorded? || (c.Pending? && !IsCapture(c.e) && !IsRefund(c.e))
    ensures Moves(if c.Recorded? then MoveEvent(c) else c.e, rail) == Weight(c, rail)
  {
    if c.Recorded? {
      KindOfMove(c.rail, c.p, c.m, TargetOf(c.m), c.amount);
    }
  }

  lemma PendingPlainStep(s: Shared, move: Move)
    requires Enabled(s, move) && PendingPlain(s)
    ensures PendingPlain(Apply(s, move))
  {
  }

  /** Logging what was in flight keeps the balance. */
  lemma ConservedLogged(s: Shared, i: nat, e: Event, rail: string)
    requires i < |s.callers| && Conserved(s, rail) && Moves(e, rail) == Weight(s.callers[i], rail)
    ensures Conserved(s.(log := s.log + [e], callers := s.callers[i := Idle]), rail)
  {
    InFlightUpdate(s.callers, i, Idle, rail);
    LogSnoc(s.log, e);
  }

  /** Updating the tracker puts the amount in flight. */
  lemma ConservedRecorded(s: Shared, i: nat, c: Caller, rail: string)
    requires i < |s.callers| && Conserved(s, rail) && !s.callers[i].Recorded? && c.Recorded?
    ensures Conserved(s.(totals := Added(s.totals, c.rail, Signed(c.m, c.amount)), callers := s.callers[i := c]), rail)
  {
    InFlightUpdate(s.callers, i, c, rail);
  }

  lemma ConservedAdvance(s: Shared, i: nat, rail: string)
    requires Enabled(s, Advance(i)) && Conserved(s, rail) && PendingPlain(s)
    ensures Conserved(Apply(s, Advance(i)), rail)
  {
    match s.callers[i]
    case Checked(m, r, p, amount) =>
      InFlightUpdate(s.callers, i, Marked(m, r, p, amount), rail);
    case Marked(m, r, p, amount) =>
      ConservedRecorded(s, i, Recorded(m, r, p, amount), rail);
    case Recorded(_, _, _, _) =>
      LoggedWeight(s.callers[i], rail);
      ConservedLogged(s, i, MoveEvent(s.callers[i]), rail);
    case Pending(e) =>
      LoggedWeight(s.callers[i], rail);
      ConservedLogged(s, i, e, rail);
  }

  lemma ConservedStep(s: Shared, move: Move, rail: string)
    requires Enabled(s, move) && Conserved(s, rail) && PendingPlain(s)
    ensures Conserved(Apply(s, move), rail)
  {
    if move.Advance? {
      ConservedAdvance(s, move.i, rail);
    } else {
      InFlightUpdate(s.callers, move.i, Apply(s, move).callers[move.i], rail);
    }
  }

  /** Whatever the callers and their interleaving, the tracker total of every rail equals logged
      captures minus logged refunds plus what callers have recorded and not yet logged. */
  lemma {:induction false} AlwaysConserved(s: Shared, moves: seq<Move>, rail: string)
    requires Legal(s, moves) && Conserved(s, rail) && PendingPlain(s)
    ensures Conserved(Exec(s, moves), rail) && PendingPlain(Exec(s, moves))
    decreases |moves|
  {
    if moves != [] {
      ConservedStep(s, moves[0], rail);
      PendingPlainStep(s, moves[0]);
      AlwaysConserved(Apply(s, moves[0]), moves[1..], rail);
    }
  }

  /** So tracker and log agree exactly whenever nobody stands between the two. */
  lemma QuiescentAgreement(n: nat, moves: seq<Move>, rail: string)
    requires Legal(Start(n), moves)
    requires forall i :: 0 <= i < |Exec(Start(n), moves).callers| ==> !Exec(Start(n), moves).callers[i].Recorded?
    ensures Total(Exec(Start(n), moves).totals, rail) == LogTotal(Exec(Start(n), moves).log, rail)
  {
    IdleWeighsNothing(Start(n).callers, rail);
    AlwaysConserved(Start(n), moves, rail);
    IdleWeighsNothing(Exec(Start(n), moves).callers, rail);
  }

  // ---------------------------------------------------------------- one caller per payment

  predicate Touches(c: Caller, p: string) {
    match c
    case Idle => false
    case Pending(e) => e.paymentId == p
    case _ => c.p == p
  }

  predicate Free(s: Shared, p: string) {
    forall i :: 0 <= i < |s.callers| ==> !Touches(s.callers[i], p)
  }

  /** The status check of a movement succeeds. */
  predicate Starts(s: Shared, m: Movement, p: string) {
    p in s.statuses && MayStart(m, s.statuses[p])
  }

  /** What is not a capture or refund writes the status its own event will tell. */
  predicate Honest(s: Shared, move: Move) {
    move.Write? ==> KnownKind(move.e) && move.statuses == Replayed(s.statuses, move.e)
  }

  /** No operation gets past its check on a payment another caller is still working on. */
  predicate Alone(s: Shared, move: Move) {
    && Honest(s, move)
    && match move
       case Begin(_, m, _, p, _) => Starts(s, m, p) ==> Free(s, p)
       case Write(_, _, e) => Free(s, e.paymentId)
       case Advance(_) => true
  }

  predicate AllAlone(s: Shared, moves: seq<Move>)
    requires Legal(s, moves)
    decreases |moves|
  {
    moves == [] || (Alone(s, moves[0]) && AllAlone(Apply(s, moves[0]), moves[1..]))
  }

  /** What the log and the store say of the payment a caller is working on. */
  predicate CallerAgrees(c: Caller, logged: map<string, Status>, stored: map<string, Status>)
    requires !c.Idle?
  {
    match c
    case Checked(m, _, p, _) => p in stored && At(logged, p) == At(stored, p) && MayStart(m, stored[p])
    case Marked(m, _, p, _) => p in logged && MayStart(m, logged[p]) && At(stored, p) == Some(TargetOf(m))
    case Recorded(m, _, p, _) => p in logged && MayStart(m, logged[p]) && At(stored, p) == Some(TargetOf(m))
    case Pending(e) => EventAllowed(logged, e) && At(stored, e.paymentId) == At(Replayed(logged, e), e.paymentId)
  }

  /** Each payment is worked on by one caller at most; the store agrees with the log except for
      what that caller has written and not yet logged. */
  ghost predicate InStep(s: Shared) {
    && Disciplined(s.log)
    && (forall i, j, p :: 0 <= i < j < |s.callers| ==> !(Touches(s.callers[i], p) && Touches(s.callers[j], p)))
    && (forall p :: Free(s, p) ==> At(Statuses(s.log), p) == At(s.statuses, p))
    && (forall i :: 0 <= i < |s.callers| && !s.callers[i].Idle? ==> CallerAgrees(s.callers[i], Statuses(s.log), s.statuses))
  }

  function PaymentOf(c: Caller): string
    requires !c.Idle?
  {
    if c.Pending? then c.e.paymentId else c.p
  }

  /** Two pairs of maps that agree on the payment of a caller. */
  lemma CallerUnmoved(c: Caller, l: map<string, Status>, st: map<string, Status>, l': map<string, Status>, st': map<string, Status>)
    requires !c.Idle? && CallerAgrees(c, l, st)
    requires At(l, PaymentOf(c)) == At(l', PaymentOf(c)) && At(st, PaymentOf(c)) == At(st', PaymentOf(c))
    ensures CallerAgrees(c, l', st')
  {
    var p := PaymentOf(c);
    assert p in l <==> p in l';
    assert p in st <==> p in st';
  }

  lemma ReplayedElsewhere(statuses: map<string, Status>, e: Event, q: string)
    requires q != e.paymentId
    ensures At(Replayed(statuses, e), q) == At(statuses, q)
  {
  }

  /** A caller's step that changes log and store on its own payment only keeps the rest in step. */
  lemma StepKeeps(s: Shared, s': Shared, i: nat, p: string)
    requires InStep(s) && i < |s.callers| && |s'.callers| == |s.callers|
    requires forall j :: 0 <= j < |s.callers| && j != i ==> s'.callers[j] == s.callers[j] && !Touches(s.callers[j], p)
    requires forall q :: q != p ==> !Touches(s.callers[i], q) && !Touches(s'.callers[i], q)
    requires forall q :: q != p ==> At(Statuses(s'.log), q) == At(Statuses(s.log), q) && At(s'.statuses, q) == At(s.statuses, q)
    requires Disciplined(s'.log)
    requires if s'.callers[i].Idle? then At(Statuses(s'.log), p) == At(s'.statuses, p)
             else Touches(s'.callers[i], p) && CallerAgrees(s'.callers[i], Statuses(s'.log), s'.statuses)
    ensures InStep(s')
  {
    forall j | 0 <= j < |s'.callers| && !s'.callers[j].Idle?
      ensures CallerAgrees(s'.callers[j], Statuses(s'.log), s'.statuses)
    {
      if j != i {
        assert Touches(s.callers[j], PaymentOf(s.callers[j]));
        CallerUnmoved(s.callers[j], Statuses(s.log), s.statuses, Statuses(s'.log), s'.statuses);
      }
    }
    forall q | Free(s', q) ensures At(Statuses(s'.log), q) == At(s'.statuses, q) {
      if q != p {
        assert Free(s, q) by {
          forall j | 0 <= j < |s.callers| ensures !Touches(s.callers[j], q) {
            assert !Touches(s'.callers[j], q);
          }
        }
      }
    }
    forall j, k, q | 0 <= j < k < |s'.callers| ensures !(Touches(s'.callers[j], q) && Touches(s'.callers[k], q)) {
      assert !(Touches(s.callers[j], q) && Touches(s.callers[k], q));
    }
  }

  lemma OthersApart(s: Shared, i: nat)
    requires InStep(s) && i < |s.callers| && !s.callers[i].Idle?
    ensures forall j :: 0 <= j < |s.callers| && j != i ==> !Touches(s.callers[j], PaymentOf(s.callers[i]))
  {
    assert Touches(s.callers[i], PaymentOf(s.callers[i]));
  }

  /** A caller logs its event. */
  lemma LogKeeps(s: Shared, i: nat, e: Event)
    requires InStep(s) && i < |s.callers| && !s.callers[i].Idle? && e.paymentId == PaymentOf(s.callers[i])
    requires EventAllowed(Statuses(s.log), e)
    requires At(s.statuses, e.paymentId) == At(Replayed(Statuses(s.log), e), e.paymentId)
    ensures InStep(s.(log := s.log + [e], callers := s.callers[i := Idle]))
  {
    var s' := s.(log := s.log + [e], callers := s.callers[i := Idle]);
    LogSnoc(s.log, e);
    OthersApart(s, i);
    forall q | q != e.paymentId ensures At(Statuses(s'.log), q) == At(Statuses(s.log), q) {
      ReplayedElsewhere(Statuses(s.log), e, q);
    }
    StepKeeps(s, s', i, e.paymentId);
  }

  lemma MoveLogged(c: Caller, logged: map<string, Status>, stored: map<string, Status>)
    requires c.Recorded? && CallerAgrees(c, logged, stored)
    ensures var e := MoveEvent(c);
            && e.paymentId == c.p && EventAllowed(logged, e)
            && At(stored, c.p) == At(Replayed(logged, e), c.p)
  {
    KindOfMove(c.rail, c.p, c.m, TargetOf(c.m), c.amount);
  }

  lemma AdvanceKeeps(s: Shared, i: nat)
    requires InStep(s) && Enabled(s, Advance(i))
    ensures InStep(Apply(s, Advance(i)))
  {
    var c, s' := s.callers[i], Apply(s, Advance(i));
    OthersApart(s, i);
    match c
    case Checked(m, rail, p, amount) =>
      StepKeeps(s, s', i, p);
    case Marked(m, rail, p, amount) =>
      StepKeeps(s, s', i, p);
    case Recorded(m, rail, p, amount) =>
      MoveLogged(c, Statuses(s.log), s.statuses);
      LogKeeps(s, i, MoveEvent(c));
    case Pending(e) =>
      LogKeeps(s, i, e);
  }

  lemma InStepKept(s: Shared, move: Move)
    requires InStep(s) && Enabled(s, move) && Alone(s, move)
    ensures InStep(Apply(s, move))
  {
    match move
    case Begin(i, m, rail, p, amount) =>
      if Starts(s, m, p) {
        StepKeeps(s, Apply(s, move), i, p);
      }
    case Write(i, statuses, e) =>
      forall q | q != e.paymentId ensures At(statuses, q) == At(s.statuses, q) {
        ReplayedElsewhere(s.statuses, e, q);
      }
      assert At(Statuses(s.log), e.paymentId) == At(s.statuses, e.paymentId);
      StepKeeps(s, Apply(s, move), i, e.paymentId);
    case Advance(i) =>
      AdvanceKeeps(s, i);
  }

  lemma {:induction false} AlwaysInStep(s: Shared, moves: seq<Move>)
    requires Legal(s, moves) && AllAlone(s, moves) && InStep(s)
    ensures InStep(Exec(s, moves))
    decreases |moves|
  {
    if moves != [] {
      InStepKept(s, moves[0]);
      AlwaysInStep(Apply(s, moves[0]), moves[1..]);
    }
  }

  /** Locking each payment for the length of an operation is enough: under any interleaving in
      which no operation gets past its check on a payment another caller is still working on,
      however many work on different payments, every capture and refund in the log was allowed by
      the log before it, so both keep their bounds, and the log tells the status of every payment
      nobody works on. */
  lemma OneCallerPerPayment(n: nat, moves: seq<Move>, p: string, m: Movement)
    requires Legal(Start(n), moves) && AllAlone(Start(n), moves)
    ensures var s := Exec(Start(n), moves);
            && Disciplined(s.log)
            && Used(s.log, p, m) <= Granted(s.log, p, m) + Reopenings(s.log, p, m)
            && (Free(s, p) ==> At(Statuses(s.log), p) == At(s.statuses, p))
  {
    AlwaysInStep(Start(n), moves);
    MovesBounded(Exec(Start(n), moves).log, p, m);
  }

  // ---------------------------------------------------------------- one caller alone

  lemma LegalCons(s: Shared, move: Move, rest: seq<Move>)
    requires Enabled(s, move) && Legal(Apply(s, move), rest)
    ensures Legal(s, [move] + rest) && Exec(s, [move] + rest) == Exec(Apply(s, move), rest)
  {
    assert ([move] + rest)[1..] == rest;
  }

  /** The three locked steps after the check: status, tracker, log. */
  function Finish(i: nat): seq<Move> {
    [Advance(i), Advance(i), Advance(i)]
  }

  lemma FinishMove(s: Shared, i: nat, c: Caller)
    requires i < |s.callers| && s.callers[i] == c && c.Checked? && c.p in s.statuses
    ensures Legal(s, Finish(i))
    ensures Exec(s, Finish(i)) == Shared(s.statuses[c.p := TargetOf(c.m)], Added(s.totals, c.rail, Signed(c.m, c.amount)),
                                         s.log + [MoveEvent(c)], s.callers[i := Idle])
  {
    var s1 := Apply(s, Advance(i));
    var s2 := Apply(s1, Advance(i));
    var s3 := Apply(s2, Advance(i));
    assert s3.callers == s.callers[i := Idle];
    LegalCons(s2, Advance(i), []);
    LegalCons(s1, Advance(i), [Advance(i)] + []);
    LegalCons(s, Advance(i), [Advance(i)] + ([Advance(i)] + []));
    assert [Advance(i)] + ([Advance(i)] + ([Advance(i)] + [])) == Finish(i);
  }

  /** What the step machine shares of the world of the atomic operations. */
  function SharedOf(w: World, callers: seq<Caller>): Shared {
    Shared(StatusMap(w.store.requests), w.totals, w.log, callers)
  }

  /** A caller that nobody interrupts does what the atomic operation does; the step machine leaves
      event times unset. */
  lemma SoloMove(rail: string, w: World, callers: seq<Caller>, i: nat, m: Movement, p: string, amount: Money, t: Tick)
    requires i < |callers| && callers[i].Idle? && p != "" && !w.fail && t.emitted == UNSET
    ensures var begin := Begin(i, m, rail, p, amount);
            var moves := if GoesThrough(w, m, p) then [begin] + Finish(i) else [begin];
            && Legal(SharedOf(w, callers), moves)
            && Exec(SharedOf(w, callers), moves) == SharedOf(Moved(rail, w, m, p, amount, t).0, callers)
  {
    var s, begin := SharedOf(w, callers), Begin(i, m, rail, p, amount);
    if GoesThrough(w, m, p) {
      var c := Checked(m, rail, p, amount);
      FinishMove(Apply(s, begin), i, c);
      LegalCons(s, begin, Finish(i));
      var w' := Moved(rail, w, m, p, amount, t).0;
      StatusMapUpdate(w.store.requests, p, w'.store.requests[p]);
      assert callers[i := c][i := Idle] == callers;
    } else {
      LegalCons(s, begin, []);
      assert [begin] + [] == [begin];
    }
  }
}
