/** How far captures and refunds can get out of hand when callers interleave between their locks,
and when they cannot. */
module Races {
  import opened Wrappers
  import opened Rail
  import opened Store
  import opened Settlement
  import opened Connector
  import opened Server
  import opened Replay
  import opened LawfulLogs
  import opened Interleaving

  // ---------------------------------------------------------------- counting callers

  /** What a caller is to one movement of one payment: on the way to making it, still between check
      and status write, or about to log something that allows it. */
  datatype Role = Working | Standing | Granting

  predicate Plays(c: Caller, p: string, m: Movement, role: Role) {
    match c
    case Idle => false
    case Pending(e) => role.Granting? && e.paymentId == p && (Grants(e, m) || Reopens(e, m))
    case Checked(m', _, q, _) => !role.Granting? && q == p && m' == m
    case Marked(m', _, q, _) => q == p && PlaysLate(m', m, role)
    case Recorded(m', _, q, _) => q == p && PlaysLate(m', m, role)
  }

  predicate PlaysLate(mine: Movement, m: Movement, role: Role) {
    match role
    case Working => mine == m
    case Standing => false
    case Granting => mine.Capture? && m.Refund?
  }

  function Tally(callers: seq<Caller>, p: string, m: Movement, role: Role): (n: nat)
    ensures n <= |callers|
  {
    if callers == [] then 0
    else Tally(callers[..|callers| - 1], p, m, role) + if Plays(callers[|callers| - 1], p, m, role) then 1 else 0
  }

  lemma {:induction false} TallyUpdate(callers: seq<Caller>, i: nat, c: Caller, p: string, m: Movement, role: Role)
    requires i < |callers|
    ensures Tally(callers[i := c], p, m, role) ==
            Tally(callers, p, m, role) - (if Plays(callers[i], p, m, role) then 1 else 0) + if Plays(c, p, m, role) then 1 else 0
    decreases |callers|
  {
    var n := |callers| - 1;
    var updated := callers[i := c];
    if i < n {
      TallyUpdate(callers[..n], i, c, p, m, role);
      assert updated[..n] == callers[..n][i := c];
    } else {
      assert updated[..n] == callers[..n];
    }
  }

  predicate AllIdle(callers: seq<Caller>) {
    forall i :: 0 <= i < |callers| ==> callers[i].Idle?
  }

  lemma {:induction false} IdleTally(callers: seq<Caller>, p: string, m: Movement, role: Role)
    requires AllIdle(callers)
    ensures Tally(callers, p, m, role) == 0
  {
    if callers != [] {
      IdleTally(callers[..|callers| - 1], p, m, role);
    }
  }

  // ---------------------------------------------------------------- the bound

  /** Movements made or being made. */
  function Taken(s: Shared, p: string, m: Movement): nat {
    Used(s.log, p, m) + Tally(s.callers, p, m, Working)
  }

  /** Events that allow one, logged or about to be. */
  function Supply(s: Shared, p: string, m: Movement): nat {
    Granted(s.log, p, m) + Reopenings(s.log, p, m) + Tally(s.callers, p, m, Granting)
  }

  /** While the movement may start, one round of callers is still to come, and those standing
      between check and write belong to it. */
  predicate Balanced(open: bool, n: nat, taken: nat, supply: nat, standing: nat) {
    if open then taken + n <= n * supply + standing else taken <= n * supply
  }

  lemma SupplyRises(open: bool, n: nat, taken: nat, supply: nat, standing: nat, open': bool, standing': nat)
    requires Balanced(open, n, taken, supply, standing) && standing <= n
    ensures Balanced(open', n, taken, supply + 1, standing')
  {
    assert n * (supply + 1) == n * supply + n;
  }

  lemma Closes(open: bool, n: nat, taken: nat, supply: nat, standing: nat, standing': nat)
    requires Balanced(open, n, taken, supply, standing) && standing <= n
    ensures Balanced(false, n, taken, supply, standing')
  {
  }

  predicate Raced(s: Shared, p: string, m: Movement) {
    PendingPlain(s)
    && Balanced(Starts(s, m, p), |s.callers|, Taken(s, p, m), Supply(s, p, m), Tally(s.callers, p, m, Standing))
  }

  lemma AllTallies(callers: seq<Caller>, i: nat, c: Caller, p: string, m: Movement)
    requires i < |callers|
    ensures forall role :: Tally(callers[i := c], p, m, role) ==
              Tally(callers, p, m, role) - (if Plays(callers[i], p, m, role) then 1 else 0) + if Plays(c, p, m, role) then 1 else 0
  {
    forall role: Role
      ensures Tally(callers[i := c], p, m, role) ==
              Tally(callers, p, m, role) - (if Plays(callers[i], p, m, role) then 1 else 0) + if Plays(c, p, m, role) then 1 else 0
    {
      TallyUpdate(callers, i, c, p, m, role);
    }
  }

  /** An event that starts to allow the movement is counted as soon as it is pending. */
  lemma OpensOnlyGranting(statuses: map<string, Status>, e: Event, p: string, m: Movement)
    requires KnownKind(e) && !IsCapture(e) && !IsRefund(e)
    requires At(Replayed(statuses, e), p) != At(statuses, p)
    requires p in Replayed(statuses, e) && MayStart(m, Replayed(statuses, e)[p])
    ensures e.paymentId == p && (Grants(e, m) || Reopens(e, m))
  {
  }

  lemma RacedWrite(s: Shared, i: nat, statuses: map<string, Status>, e: Event, p: string, m: Movement)
    requires Enabled(s, Write(i, statuses, e)) && Honest(s, Write(i, statuses, e)) && Raced(s, p, m)
    ensures Raced(Apply(s, Write(i, statuses, e)), p, m)
  {
    var s' := Apply(s, Write(i, statuses, e));
    AllTallies(s.callers, i, Pending(e), p, m);
    PendingPlainStep(s, Write(i, statuses, e));
    var n, taken, supply, standing := |s.callers|, Taken(s, p, m), Supply(s, p, m), Tally(s.callers, p, m, Standing);
    if Plays(Pending(e), p, m, Granting) {
      SupplyRises(Starts(s, m, p), n, taken, supply, standing, Starts(s', m, p), Tally(s'.callers, p, m, Standing));
    } else if At(statuses, p) != At(s.statuses, p) {
      if Starts(s', m, p) {
        OpensOnlyGranting(s.statuses, e, p, m);
      }
      Closes(Starts(s, m, p), n, taken, supply, standing, Tally(s'.callers, p, m, Standing));
    } else {
      assert Starts(s', m, p) == Starts(s, m, p);
    }
  }

  lemma RacedBegin(s: Shared, i: nat, m': Movement, rail: string, q: string, amount: Money, p: string, m: Movement)
    requires Enabled(s, Begin(i, m', rail, q, amount)) && Raced(s, p, m)
    ensures Raced(Apply(s, Begin(i, m', rail, q, amount)), p, m)
  {
    if Starts(s, m', q) {
      AllTallies(s.callers, i, Checked(m', rail, q, amount), p, m);
      PendingPlainStep(s, Begin(i, m', rail, q, amount));
    }
  }

  lemma RacedMark(s: Shared, i: nat, p: string, m: Movement)
    requires Enabled(s, Advance(i)) && s.callers[i].Checked? && Raced(s, p, m)
    ensures Raced(Apply(s, Advance(i)), p, m)
  {
    var c, s' := s.callers[i], Apply(s, Advance(i));
    AllTallies(s.callers, i, s'.callers[i], p, m);
    PendingPlainStep(s, Advance(i));
    var n, taken, supply, standing := |s.callers|, Taken(s, p, m), Supply(s, p, m), Tally(s.callers, p, m, Standing);
    if c.p != p || p !in s.statuses {
      assert Starts(s', m, p) == Starts(s, m, p);
    }
    if c.p == p {
      if c.m.Capture? && m.Refund? {
        SupplyRises(Starts(s, m, p), n, taken, supply, standing, Starts(s', m, p), standing);
      } else {
        Closes(Starts(s, m, p), n, taken, supply, standing, Tally(s'.callers, p, m, Standing));
      }
    }
  }

  /** What a caller logs was counted as work or as pending supply before. */
  lemma LoggedTally(c: Caller, e: Event, log: seq<Event>, p: string, m: Movement)
    requires (c.Recorded? && e == MoveEvent(c)) || (c.Pending? && e == c.e && !IsCapture(e) && !IsRefund(e))
    ensures Used(log + [e], p, m) == Used(log, p, m) + if Plays(c, p, m, Working) then 1 else 0
    ensures Granted(log + [e], p, m) + Reopenings(log + [e], p, m) ==
            Granted(log, p, m) + Reopenings(log, p, m) + if Plays(c, p, m, Granting) then 1 else 0
    ensures !Plays(c, p, m, Standing)
  {
    TallySnoc(log, e, p, m);
    if c.Recorded? {
      KindOfMove(c.rail, c.p, c.m, TargetOf(c.m), c.amount);
    }
  }

  lemma RacedLog(s: Shared, i: nat, e: Event, p: string, m: Movement)
    requires i < |s.callers| && Raced(s, p, m)
    requires var c := s.callers[i];
             (c.Recorded? && e == MoveEvent(c)) || (c.Pending? && e == c.e && !IsCapture(e) && !IsRefund(e))
    ensures Raced(s.(log := s.log + [e], callers := s.callers[i := Idle]), p, m)
  {
    AllTallies(s.callers, i, Idle, p, m);
    LoggedTally(s.callers[i], e, s.log, p, m);
  }

  lemma RacedRecord(s: Shared, i: nat, p: string, m: Movement)
    requires Enabled(s, Advance(i)) && s.callers[i].Marked? && Raced(s, p, m)
    ensures Raced(Apply(s, Advance(i)), p, m)
  {
    AllTallies(s.callers, i, Apply(s, Advance(i)).callers[i], p, m);
  }

  lemma RacedLater(s: Shared, i: nat, p: string, m: Movement)
    requires Enabled(s, Advance(i)) && !s.callers[i].Checked? && Raced(s, p, m)
    ensures Raced(Apply(s, Advance(i)), p, m)
  {
    match s.callers[i]
    case Marked(_, _, _, _) => RacedRecord(s, i, p, m);
    case Recorded(_, _, _, _) => RacedLog(s, i, MoveEvent(s.callers[i]), p, m);
    case Pending(e) => RacedLog(s, i, e, p, m);
  }

  lemma RacedStep(s: Shared, move: Move, p: string, m: Movement)
    requires Enabled(s, move) && Honest(s, move) && Raced(s, p, m)
    ensures Raced(Apply(s, move), p, m)
  {
    match move
    case Begin(i, m', rail, q, amount) => RacedBegin(s, i, m', rail, q, amount, p, m);
    case Write(i, statuses, e) => RacedWrite(s, i, statuses, e, p, m);
    case Advance(i) =>
      if s.callers[i].Checked? {
        RacedMark(s, i, p, m);
      } else {
        RacedLater(s, i, p, m);
      }
  }

  predicate AllHonest(s: Shared, moves: seq<Move>)
    requires Legal(s, moves)
    decreases |moves|
  {
    moves == [] || (Honest(s, moves[0]) && AllHonest(Apply(s, moves[0]), moves[1..]))
  }

  lemma {:induction false} AlwaysRaced(s: Shared, moves: seq<Move>, p: string, m: Movement)
    requires Legal(s, moves) && AllHonest(s, moves) && Raced(s, p, m)
    ensures Raced(Exec(s, moves), p, m) && |Exec(s, moves).callers| == |s.callers|
    decreases |moves|
  {
    if moves != [] {
      RacedStep(s, moves[0], p, m);
      AlwaysRaced(Apply(s, moves[0]), moves[1..], p, m);
    }
  }

  /** Whatever n callers do between their locks: captures made or under way are at most n times the
      authorizations and webhooks to authorized, refunds at most n times the captures, settlements
      and webhooks that allow them, logged or about to be; so when all are done the log alone keeps
      to that factor. */
  lemma RaceBound(n: nat, moves: seq<Move>, p: string, m: Movement)
    requires Legal(Start(n), moves) && AllHonest(Start(n), moves)
    ensures var s := Exec(Start(n), moves);
            && Taken(s, p, m) <= n * Supply(s, p, m)
            && (AllIdle(s.callers) ==> Used(s.log, p, m) <= n * (Granted(s.log, p, m) + Reopenings(s.log, p, m)))
  {
    forall role: Role ensures Tally(Start(n).callers, p, m, role) == 0 {
      IdleTally(Start(n).callers, p, m, role);
    }
    AlwaysRaced(Start(n), moves, p, m);
    var s := Exec(Start(n), moves);
    Closes(Starts(s, m, p), n, Taken(s, p, m), Supply(s, p, m), Tally(s.callers, p, m, Standing), 0);
    if AllIdle(s.callers) {
      IdleTally(s.callers, p, m, Working);
      IdleTally(s.callers, p, m, Granting);
    }
  }

  // ---------------------------------------------------------------- operations of one service

  /** A step of an operation of the service whose connector is named `rail`. */
  predicate Genuine(rail: string, s: Shared, move: Move) {
    match move
    case Begin(_, _, r, p, _) => r == rail && p != ""
    case Write(_, statuses, e) => Written(rail, s.statuses, e) && statuses == Replayed(s.statuses, e)
    case Advance(_) => true
  }

  predicate AllGenuine(rail: string, s: Shared, moves: seq<Move>)
    requires Legal(s, moves)
    decreases |moves|
  {
    moves == [] || (Genuine(rail, s, moves[0]) && AllGenuine(rail, Apply(s, moves[0]), moves[1..]))
  }

  lemma {:induction false} GenuineHonest(rail: string, s: Shared, moves: seq<Move>)
    requires Legal(s, moves) && AllGenuine(rail, s, moves)
    ensures AllHonest(s, moves)
    decreases |moves|
  {
    if moves != [] {
      if moves[0].Write? {
        WrittenAllowed(rail, s.statuses, moves[0].e);
      }
      GenuineHonest(rail, Apply(s, moves[0]), moves[1..]);
    }
  }

  // ---------------------------------------------------------------- the bound is reached

  /** Genuine moves lead from one state to another. */
  predicate Leads(rail: string, s: Shared, moves: seq<Move>, s': Shared) {
    Legal(s, moves) && AllGenuine(rail, s, moves) && Exec(s, moves) == s'
  }

  lemma {:induction false} LeadsOn(rail: string, s: Shared, a: seq<Move>, s': Shared, b: seq<Move>, s'': Shared)
    requires Leads(rail, s, a, s') && Leads(rail, s', b, s'')
    ensures Leads(rail, s, a + b, s'')
    decreases |a|
  {
    if a == [] {
      assert a + b == b;
    } else {
      LeadsOn(rail, Apply(s, a[0]), a[1..], s', b, s'');
      assert (a + b)[0] == a[0] && (a + b)[1..] == a[1..] + b;
    }
  }

  lemma LeadsOne(rail: string, s: Shared, move: Move)
    requires Enabled(s, move) && Genuine(rail, s, move)
    ensures Leads(rail, s, [move], Apply(s, move))
  {
    assert [move][1..] == [];
  }

  /** Nobody is working, and the log holds these counts. */
  predicate Rests(s: Shared, n: nat, p: string, m: Movement, used: nat, supply: nat) {
    && |s.callers| == n && AllIdle(s.callers)
    && Used(s.log, p, m) == used && Granted(s.log, p, m) + Reopenings(s.log, p, m) == supply
  }

  /** The first caller writes and logs an event that is neither capture nor refund. */
  lemma WriteAndLog(rail: string, s: Shared, e: Event) returns (moves: seq<Move>, s': Shared)
    requires |s.callers| > 0 && AllIdle(s.callers) && Written(rail, s.statuses, e) && !IsCapture(e) && !IsRefund(e)
    ensures Leads(rail, s, moves, s')
    ensures s' == s.(statuses := Replayed(s.statuses, e), log := s.log + [e])
  {
    var write := Write(0, Replayed(s.statuses, e), e);
    var s1 := Apply(s, write);
    s' := Apply(s1, Advance(0));
    LeadsOne(rail, s, write);
    LeadsOne(rail, s1, Advance(0));
    LeadsOn(rail, s, [write], s1, [Advance(0)], s');
    moves := [write] + [Advance(0)];
    assert s'.callers == s.callers;
  }

  /** The first `k` callers stand between check and write, all others are idle. */
  predicate Lined(s: Shared, k: nat, c: Caller) {
    k <= |s.callers| && forall i :: 0 <= i < |s.callers| ==> s.callers[i] == if i < k then c else Idle
  }

  lemma {:induction false} AllBegin(rail: string, s: Shared, k: nat, m: Movement, p: string, amount: Money)
    returns (moves: seq<Move>, s': Shared)
    requires AllIdle(s.callers) && k <= |s.callers| && Starts(s, m, p) && p != ""
    ensures Leads(rail, s, moves, s') && Lined(s', k, Checked(m, rail, p, amount))
    ensures s' == s.(callers := s'.callers) && |s'.callers| == |s.callers|
  {
    moves, s' := [], s;
    if k > 0 {
      var before, mid := AllBegin(rail, s, k - 1, m, p, amount);
      var begin := Begin(k - 1, m, rail, p, amount);
      s' := Apply(mid, begin);
      LeadsOne(rail, mid, begin);
      LeadsOn(rail, s, before, mid, [begin], s');
      moves := before + [begin];
    }
  }

  /** What a caller leaves that was standing between check and write. */
  function Finished(s: Shared, i: nat, c: Caller): Shared
    requires i < |s.callers| && c.Checked?
  {
    Shared(s.statuses[c.p := TargetOf(c.m)], Added(s.totals, c.rail, Signed(c.m, c.amount)), s.log + [MoveEvent(c)],
           s.callers[i := Idle])
  }

  lemma FinishLeads(rail: string, s: Shared, i: nat, c: Caller)
    requires i < |s.callers| && s.callers[i] == c && c.Checked? && c.p in s.statuses
    ensures Leads(rail, s, Finish(i), Finished(s, i, c))
  {
    FinishMove(s, i, c);
    AdvancesGenuine(rail, s, Finish(i));
  }

  lemma {:induction false} AdvancesGenuine(rail: string, s: Shared, moves: seq<Move>)
    requires Legal(s, moves) && forall k :: 0 <= k < |moves| ==> moves[k].Advance?
    ensures AllGenuine(rail, s, moves)
    decreases |moves|
  {
    if moves != [] {
      AdvancesGenuine(rail, Apply(s, moves[0]), moves[1..]);
    }
  }

  lemma MoveTally(log: seq<Event>, c: Caller)
    requires c.Checked?
    ensures var log' := log + [MoveEvent(c)];
            && Used(log', c.p, c.m) == Used(log, c.p, c.m) + 1
            && Granted(log', c.p, c.m) == Granted(log, c.p, c.m) && Reopenings(log', c.p, c.m) == Reopenings(log, c.p, c.m)
  {
    KindOfMove(c.rail, c.p, c.m, TargetOf(c.m), c.amount);
    TallySnoc(log, MoveEvent(c), c.p, c.m);
  }

  /** Then each of them finishes, last one first. */
  lemma {:induction false} AllFinish(s: Shared, k: nat, c: Caller) returns (moves: seq<Move>, s': Shared)
    requires c.Checked? && Lined(s, k, c) && c.p in s.statuses
    ensures Leads(c.rail, s, moves, s') && AllIdle(s'.callers) && |s'.callers| == |s.callers| && c.p in s'.statuses
    ensures Used(s'.log, c.p, c.m) == Used(s.log, c.p, c.m) + k
    ensures Granted(s'.log, c.p, c.m) == Granted(s.log, c.p, c.m) && Reopenings(s'.log, c.p, c.m) == Reopenings(s.log, c.p, c.m)
    decreases k
  {
    moves, s' := [], s;
    if k > 0 {
      var mid := Finished(s, k - 1, c);
      FinishLeads(c.rail, s, k - 1, c);
      MoveTally(s.log, c);
      var rest;
      rest, s' := AllFinish(mid, k - 1, c);
      LeadsOn(c.rail, s, Finish(k - 1), mid, rest, s');
      moves := Finish(k - 1) + rest;
    }
  }

  /** An event that makes the movement possible. */
  function Opener(rail: string, p: string, m: Movement): Event {
    if m.Capture? then EventOf(rail, p, "authorize", AUTHORIZED, 0.0)
    else CompletedEvent(Line(p, rail, 0.0, "", UNSET, ""))
  }

  lemma OpenerOpens(rail: string, statuses: map<string, Status>, log: seq<Event>, p: string, m: Movement)
    requires p != "" && (m.Refund? ==> p in statuses)
    ensures var e := Opener(rail, p, m);
            && Written(rail, statuses, e) && !IsCapture(e) && !IsRefund(e)
            && p in Replayed(statuses, e) && MayStart(m, Replayed(statuses, e)[p])
            && Used(log + [e], p, m) == Used(log, p, m)
            && Granted(log + [e], p, m) + Reopenings(log + [e], p, m) == Granted(log, p, m) + Reopenings(log, p, m) + 1
  {
    var e := Opener(rail, p, m);
    TallySnoc(log, e, p, m);
    if m.Capture? {
      KindOfAuthorize(rail, p, AUTHORIZED, 0.0);
      assert WrittenAuthorize(rail, e);
    } else {
      assert WrittenSettle(statuses, e);
    }
  }

  /** One event allows the movement, and `k` callers make use of it. */
  lemma Round(rail: string, s: Shared, n: nat, k: nat, p: string, m: Movement, used: nat, supply: nat)
    returns (moves: seq<Move>, s': Shared)
    requires Rests(s, n, p, m, used, supply) && k <= n && n > 0 && p != "" && (m.Refund? ==> p in s.statuses)
    ensures Leads(rail, s, moves, s') && Rests(s', n, p, m, used + k, supply + 1) && p in s'.statuses
  {
    OpenerOpens(rail, s.statuses, s.log, p, m);
    var open, s1 := WriteAndLog(rail, s, Opener(rail, p, m));
    var begin, s2 := AllBegin(rail, s1, k, m, p, 0.0);
    var finish;
    finish, s' := AllFinish(s2, k, Checked(m, rail, p, 0.0));
    LeadsOn(rail, s, open, s1, begin, s2);
    LeadsOn(rail, s, open + begin, s2, finish, s');
    moves := open + begin + finish;
  }

  /** A known payment to begin with. */
  lemma FirstRests(rail: string, n: nat, p: string, m: Movement) returns (moves: seq<Move>, s: Shared)
    requires n > 0 && p != ""
    ensures Leads(rail, Start(n), moves, s) && Rests(s, n, p, m, 0, 0) && (m.Refund? ==> p in s.statuses)
  {
    EmptyTally(p, m);
    if m.Capture? {
      moves, s := [], Start(n);
    } else {
      var e := EventOf(rail, p, "authorize", AUTHORIZED, 0.0);
      KindOfAuthorize(rail, p, AUTHORIZED, 0.0);
      assert WrittenAuthorize(rail, e);
      moves, s := WriteAndLog(rail, Start(n), e);
      TallySnoc([], e, p, m);
    }
  }

  /** A full round of everybody as long as that many movements are still wanted. */
  lemma {:induction false} Rounds(rail: string, n: nat, p: string, m: Movement, used: nat, supply: nat)
    returns (moves: seq<Move>, s: Shared)
    requires n > 0 && p != "" && used <= n * supply
    ensures Leads(rail, Start(n), moves, s) && Rests(s, n, p, m, used, supply) && (m.Refund? ==> p in s.statuses)
    decreases supply
  {
    if supply == 0 {
      moves, s := FirstRests(rail, n, p, m);
    } else {
      var k := if used <= n then used else n;
      assert n * supply == n * (supply - 1) + n;
      OneRoundLess(n, supply, used);
      var before, mid := Rounds(rail, n, p, m, used - k, supply - 1);
      var round;
      round, s := Round(rail, mid, n, k, p, m, used - k, supply - 1);
      LeadsOn(rail, Start(n), before, mid, round, s);
      moves := before + round;
    }
  }

  lemma OneRoundLess(n: nat, supply: nat, used: nat)
    requires supply > 0 && used <= n * supply
    ensures used <= n ==> 0 <= n * (supply - 1)
    ensures used > n ==> used - n <= n * (supply - 1)
  {
  }

  // ---------------------------------------------------------------- the smallest race

  /** Both callers stand between check and write. */
  lemma BothChecked(rail: string, p: string, amount: Money) returns (moves: seq<Move>, s: Shared)
    requires p != ""
    ensures Leads(rail, Start(2), moves, s) && Lined(s, 2, Checked(Capture, rail, p, amount)) && |s.callers| == 2
    ensures s.totals == map[] && p in s.statuses
    ensures Used(s.log, p, Capture) == 0 && Granted(s.log, p, Capture) == 1 && Reopenings(s.log, p, Capture) == 0
  {
    var e := EventOf(rail, p, "authorize", AUTHORIZED, amount);
    KindOfAuthorize(rail, p, AUTHORIZED, amount);
    assert WrittenAuthorize(rail, e);
    var open, s1 := WriteAndLog(rail, Start(2), e);
    EmptyTally(p, Capture);
    TallySnoc([], e, p, Capture);
    var begin;
    begin, s := AllBegin(rail, s1, 2, Capture, p, amount);
    LeadsOn(rail, Start(2), open, s1, begin, s);
    moves := open + begin;
  }

  /** The ordering that atomic requests enjoy fails here: both callers read the status before either
      writes it, one authorization is captured twice and the money counted twice. */
  lemma CapturedTwice(rail: string, p: string, amount: Money) returns (moves: seq<Move>, s: Shared)
    requires p != ""
    ensures Leads(rail, Start(2), moves, s) && AllIdle(s.callers)
    ensures Authorizations(s.log, p) == 1 && Captures(s.log, p) == 2 && !Disciplined(s.log)
    ensures Total(s.totals, rail) == amount + amount
  {
    var c := Checked(Capture, rail, p, amount);
    var before, s2 := BothChecked(rail, p, amount);
    var s3 := Finished(s2, 0, c);
    s := Finished(s3, 1, c);
    FinishLeads(rail, s2, 0, c);
    FinishLeads(rail, s3, 1, c);
    MoveTally(s2.log, c);
    MoveTally(s3.log, c);
    LeadsOn(rail, Start(2), before, s2, Finish(0), s3);
    LeadsOn(rail, Start(2), before + Finish(0), s3, Finish(1), s);
    moves := before + Finish(0) + Finish(1);
    if Disciplined(s.log) {
      MovesBounded(s.log, p, Capture);
    }
  }

  // ---------------------------------------------------------------- exactly how far

  /** Some interleaving of `n` callers, all done at the end, logs `used` movements on `supply`
      events that allow one. */
  ghost predicate Attained(rail: string, n: nat, p: string, m: Movement, used: nat, supply: nat) {
    exists moves, s :: Leads(rail, Start(n), moves, s) && Rests(s, n, p, m, used, supply)
  }

  /** Exactly what `n` callers can do: up to n movements for every event that allows one. */
  lemma RaceExactly(rail: string, n: nat, p: string, m: Movement, used: nat, supply: nat)
    requires n > 0 && p != ""
    ensures Attained(rail, n, p, m, used, supply) <==> used <= n * supply
  {
    if used <= n * supply {
      var moves, s := Rounds(rail, n, p, m, used, supply);
    }
    forall moves, s | Leads(rail, Start(n), moves, s) && Rests(s, n, p, m, used, supply) ensures used <= n * supply {
      GenuineHonest(rail, Start(n), moves);
      RaceBound(n, moves, p, m);
    }
  }

  /** No interleaving of `n` callers makes more movements than were allowed. */
  ghost predicate KeepsOrder(rail: string, n: nat, p: string, m: Movement) {
    forall moves, s, used, supply :: Leads(rail, Start(n), moves, s) && Rests(s, n, p, m, used, supply) ==> used <= supply
  }

  /** The order of the atomic operations survives exactly one caller at a time. */
  lemma OrderNeedsOneCaller(rail: string, n: nat, p: string, m: Movement)
    requires p != ""
    ensures KeepsOrder(rail, n, p, m) <==> n <= 1
  {
    if n >= 2 {
      RaceExactly(rail, n, p, m, n, 1);
      var moves, s :| Leads(rail, Start(n), moves, s) && Rests(s, n, p, m, n, 1);
    } else {
      forall moves, s, used, supply | Leads(rail, Start(n), moves, s) && Rests(s, n, p, m, used, supply)
        ensures used <= supply
      {
        GenuineHonest(rail, Start(n), moves);
        RaceBound(n, moves, p, m);
      }
    }
  }

  // ---------------------------------------------------------------- one caller per payment is atomic

  /** What callers are about to log is what the service could write by the log so far. */
  ghost predicate InLaw(rail: string, s: Shared) {
    && InStep(s) && Lawful(rail, s.log)
    && forall i :: 0 <= i < |s.callers| ==> CallerInLaw(rail, Statuses(s.log), s.callers[i])
  }

  predicate CallerInLaw(rail: string, statuses: map<string, Status>, c: Caller) {
    match c
    case Idle => true
    case Pending(e) => Written(rail, statuses, e)
    case _ => c.rail == rail && c.p != ""
  }

  lemma StaysInLaw(rail: string, c: Caller, a: map<string, Status>, b: map<string, Status>)
    requires CallerInLaw(rail, a, c) && (c.Idle? || At(a, PaymentOf(c)) == At(b, PaymentOf(c)))
    ensures CallerInLaw(rail, b, c)
  {
    if c.Pending? {
      WrittenLocal(rail, a, b, c.e);
    }
  }

  /** The event a caller logs next. */
  function NextEvent(c: Caller): Event
    requires c.Recorded? || c.Pending?
  {
    if c.Recorded? then MoveEvent(c) else c.e
  }

  lemma NextWritten(rail: string, s: Shared, i: nat)
    requires InLaw(rail, s) && i < |s.callers| && (s.callers[i].Recorded? || s.callers[i].Pending?)
    ensures Written(rail, Statuses(s.log), NextEvent(s.callers[i])) && NextEvent(s.callers[i]).paymentId == PaymentOf(s.callers[i])
  {
    var c := s.callers[i];
    assert CallerInLaw(rail, Statuses(s.log), c);
    if c.Recorded? {
      assert CallerAgrees(c, Statuses(s.log), s.statuses);
      assert WrittenMove(rail, Statuses(s.log), c.m, MoveEvent(c));
    }
  }

  lemma OthersInLaw(rail: string, s: Shared, i: nat, e: Event)
    requires InLaw(rail, s) && i < |s.callers| && !s.callers[i].Idle? && e.paymentId == PaymentOf(s.callers[i])
    ensures forall j :: 0 <= j < |s.callers| && j != i ==> CallerInLaw(rail, Statuses(s.log + [e]), s.callers[j])
  {
    LogSnoc(s.log, e);
    OthersApart(s, i);
    forall j | 0 <= j < |s.callers| && j != i ensures CallerInLaw(rail, Statuses(s.log + [e]), s.callers[j]) {
      if !s.callers[j].Idle? {
        assert Touches(s.callers[j], PaymentOf(s.callers[j]));
        ReplayedElsewhere(Statuses(s.log), e, PaymentOf(s.callers[j]));
      }
      StaysInLaw(rail, s.callers[j], Statuses(s.log), Statuses(s.log + [e]));
    }
  }

  lemma LogInLaw(rail: string, s: Shared, i: nat)
    requires InLaw(rail, s) && i < |s.callers| && (s.callers[i].Recorded? || s.callers[i].Pending?)
    requires InStep(Apply(s, Advance(i)))
    ensures InLaw(rail, Apply(s, Advance(i)))
  {
    NextWritten(rail, s, i);
    LawfulSnoc(rail, s.log, NextEvent(s.callers[i]));
    OthersInLaw(rail, s, i, NextEvent(s.callers[i]));
  }

  lemma WriteInLaw(rail: string, s: Shared, i: nat, statuses: map<string, Status>, e: Event)
    requires InLaw(rail, s) && Enabled(s, Write(i, statuses, e)) && Free(s, e.paymentId) && Written(rail, s.statuses, e)
    requires InStep(Apply(s, Write(i, statuses, e)))
    ensures InLaw(rail, Apply(s, Write(i, statuses, e)))
  {
    assert At(Statuses(s.log), e.paymentId) == At(s.statuses, e.paymentId);
    WrittenLocal(rail, s.statuses, Statuses(s.log), e);
  }

  /** A step that changes one caller but not the log. */
  lemma QuietInLaw(rail: string, s: Shared, s': Shared, i: nat)
    requires InLaw(rail, s) && InStep(s') && s'.log == s.log && i < |s.callers| == |s'.callers|
    requires s'.callers == s.callers || (s'.callers == s.callers[i := s'.callers[i]] && CallerInLaw(rail, Statuses(s.log), s'.callers[i]))
    ensures InLaw(rail, s')
  {
  }

  lemma InLawKept(rail: string, s: Shared, move: Move)
    requires InLaw(rail, s) && Enabled(s, move) && Alone(s, move) && Genuine(rail, s, move)
    ensures InLaw(rail, Apply(s, move))
  {
    InStepKept(s, move);
    if move.Write? {
      WriteInLaw(rail, s, move.i, move.statuses, move.e);
    } else if move.Advance? && (s.callers[move.i].Recorded? || s.callers[move.i].Pending?) {
      LogInLaw(rail, s, move.i);
    } else {
      assert move.Advance? ==> CallerInLaw(rail, Statuses(s.log), s.callers[move.i]);
      QuietInLaw(rail, s, Apply(s, move), move.i);
    }
  }

  lemma {:induction false} AlwaysInLaw(rail: string, s: Shared, moves: seq<Move>)
    requires Legal(s, moves) && AllAlone(s, moves) && AllGenuine(rail, s, moves) && InLaw(rail, s)
    ensures InLaw(rail, Exec(s, moves))
    decreases |moves|
  {
    if moves != [] {
      InLawKept(rail, s, moves[0]);
      AlwaysInLaw(rail, Apply(s, moves[0]), moves[1..]);
    }
  }

  lemma SameStatuses(s: Shared)
    requires InStep(s) && AllIdle(s.callers)
    ensures Statuses(s.log) == s.statuses
  {
    forall p ensures At(Statuses(s.log), p) == At(s.statuses, p) {
      assert Free(s, p);
    }
    SameMap(Statuses(s.log), s.statuses);
  }

  lemma SameMap(a: map<string, Status>, b: map<string, Status>)
    requires forall p :: At(a, p) == At(b, p)
    ensures a == b
  {
    forall p ensures p in a <==> p in b {
      assert At(a, p) == At(b, p);
    }
    forall p | p in a ensures a[p] == b[p] {
      assert At(a, p) == At(b, p);
    }
  }

  /** Callers that keep off each other's payments are serializable: some run of atomic requests,
      webhooks and settlement lines writes the same log, and once all callers are done leaves the
      same statuses and tracker totals. */
  lemma OneCallerIsAtomic(rail: string, n: nat, moves: seq<Move>) returns (ops: seq<Op>)
    requires Legal(Start(n), moves) && AllAlone(Start(n), moves) && AllGenuine(rail, Start(n), moves)
    ensures OpsOk(ops)
    ensures var s := Exec(Start(n), moves);
            && Run(rail, ops).log == s.log
            && (AllIdle(s.callers) ==>
                  StatusMap(Run(rail, ops).store.requests) == s.statuses
                  && forall r :: Total(Run(rail, ops).totals, r) == Total(s.totals, r))
  {
    AlwaysInLaw(rail, Start(n), moves);
    var s := Exec(Start(n), moves);
    ops := LogHasRun(rail, s.log);
    LogIsFaithful(rail, ops);
    if AllIdle(s.callers) {
      SameStatuses(s);
      forall r ensures Total(Run(rail, ops).totals, r) == Total(s.totals, r) {
        QuiescentAgreement(n, moves, r);
      }
    }
  }
}
