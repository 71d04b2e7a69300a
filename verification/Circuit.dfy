/** The circuit breaker: one timed state machine per scope. */
module Circuit {
  datatype Mode = Closed | Open | HalfOpen

  datatype Config = Config(maxFailures: int, coolDown: int)

  datatype BreakerState = BreakerState(mode: Mode, failures: nat, openedAt: int)

  const FRESH := BreakerState(Closed, 0, 0)

  // ---------------------------------------------------------------- one locked call each

  function AfterAllow(c: Config, b: BreakerState, now: int): BreakerState {
    if b.mode.Open? && now - b.openedAt >= c.coolDown then b.(mode := HalfOpen) else b
  }

  predicate Allows(c: Config, b: BreakerState, now: int) {
    match b.mode
    case Closed => true
    case Open => now - b.openedAt >= c.coolDown
    case HalfOpen => true
  }

  function AfterSuccess(b: BreakerState): BreakerState {
    b.(failures := 0, mode := Closed)
  }

  /** Does this failure open (or reopen) the breaker? */
  predicate Opens(c: Config, b: BreakerState) {
    b.mode.HalfOpen? || b.failures + 1 >= c.maxFailures
  }

  function AfterFailure(c: Config, b: BreakerState, now: int): BreakerState {
    if Opens(c, b) then BreakerState(Open, b.failures + 1, now) else b.(failures := b.failures + 1)
  }

  /** The `rail_circuit_open` counter: all breakers of a process share one. */
  class Counter {
    var value: nat

    constructor ()
      ensures value == 0
    {
      value := 0;
    }

    method Inc()
      modifies this
      ensures value == old(value) + 1
    {
      value := value + 1;
    }
  }

  class Breaker {
    const name: string
    const maxFailures: int
    const coolDown: int
    const openCounter: Counter?

    var mode: Mode
    var failures: nat
    var openedAt: int

    constructor (name: string, maxFailures: int, coolDown: int, openCounter: Counter?)
      ensures State() == FRESH
      ensures this.name == name && Settings() == Config(maxFailures, coolDown) && this.openCounter == openCounter
    {
      this.name, this.maxFailures, this.coolDown, this.openCounter := name, maxFailures, coolDown, openCounter;
      mode, failures, openedAt := Closed, 0, 0;
    }

    function Settings(): Config {
      Config(maxFailures, coolDown)
    }

    function State(): BreakerState
      reads this
    {
      BreakerState(mode, failures, openedAt)
    }

    method Allow(now: int) returns (ok: bool)
      modifies this
      ensures ok == Allows(Settings(), old(State()), now)
      ensures State() == AfterAllow(Settings(), old(State()), now)
    {
      match mode
      case Closed =>
        return true;
      case Open =>
        if now - openedAt >= coolDown {
          mode := HalfOpen;
          return true;
        }
        return false;
      case HalfOpen =>
        return true;
    }

    method RecordSuccess()
      modifies this
      ensures State() == AfterSuccess(old(State()))
    {
      failures := 0;
      mode := Closed;
    }

    method RecordFailure(now: int) returns (m: Mode)
      modifies this, openCounter
      ensures State() == AfterFailure(Settings(), old(State()), now) && m == mode
      ensures openCounter != null ==>
                openCounter.value == old(openCounter.value) + if Opens(Settings(), old(State())) then 1 else 0
    {
      failures := failures + 1;
      if mode == HalfOpen {
        OpenNow(now);
        return mode;
      }
      if failures >= maxFailures {
        OpenNow(now);
      }
      return mode;
    }

    method OpenNow(now: int)
      modifies this, openCounter
      ensures mode == Open && openedAt == now && failures == old(failures)
      ensures openCounter != null ==> openCounter.value == old(openCounter.value) + 1
    {
      mode := Open;
      openedAt := now;
      if openCounter != null {
        openCounter.Inc();
      }
    }
  }
}
