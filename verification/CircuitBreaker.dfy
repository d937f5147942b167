/**
 The circuit breaker: a three-state machine with two counters and a clock.
 Times are milliseconds since the epoch in a u64; each public operation is one step.
 */
module CircuitBreaking {
  import opened Types

  newtype u32 = x: int | 0 <= x < TWO_TO_32
  newtype u64 = x: int | 0 <= x < TWO_TO_64

  /** `failure_threshold`, `success_threshold` (both at least 1) and `reset_timeout` in milliseconds. */
  datatype Config = Config(failureThreshold: u32, successThreshold: u32, resetTimeout: u64) {
    ghost predicate Valid() {
      failureThreshold >= 1 && successThreshold >= 1
    }
  }

  datatype Circuit = Closed | Open | HalfOpen

  datatype Breaker = Breaker(circuit: Circuit, failures: u32, successes: u32, lastFailure: u64)

  const FRESH := Breaker(Closed, 0, 0, 0)

  /** `u64` subtraction as the release build computes it. */
  function WrappingSub(a: u64, b: u64): u64 {
    ((a as int - b as int) % TWO_TO_64) as u64
  }

  // The three transitions, each a no-op when already there (half-open: when not open).

  function ToClosed(b: Breaker): Breaker {
    if b.circuit != Closed then b.(circuit := Closed, failures := 0, successes := 0) else b
  }

  function ToOpen(b: Breaker): Breaker {
    if b.circuit != Open then b.(circuit := Open, successes := 0) else b
  }

  function ToHalfOpen(b: Breaker): Breaker {
    if b.circuit == Open then b.(circuit := HalfOpen, failures := 0, successes := 0) else b
  }

  // The operations, on values.

  predicate Admits(cfg: Config, b: Breaker, now: u64) {
    b.circuit != Open || WrappingSub(now, b.lastFailure) > cfg.resetTimeout
  }

  /** The subtraction says that more than the timeout has passed: it has, or the clock is behind the failure. */
  ghost predicate SeemsElapsed(cfg: Config, lastFailure: u64, now: u64) {
    var since := now as int - lastFailure as int;
    since > cfg.resetTimeout as int || -(TWO_TO_64 - cfg.resetTimeout as int) < since < 0
  }

  function Check(cfg: Config, b: Breaker, now: u64): Breaker {
    if Admits(cfg, b, now) then ToHalfOpen(b) else b
  }

  ghost predicate CountersBelowThreshold(cfg: Config, b: Breaker) {
    match b.circuit
    case Closed => b.failures < cfg.failureThreshold && b.successes == 0
    case HalfOpen => b.failures == 0 && b.successes < cfg.successThreshold
    case Open => b.successes == 0
  }

  function OnSuccess(cfg: Config, b: Breaker): Breaker
    requires CountersBelowThreshold(cfg, b)
  {
    match b.circuit
    case HalfOpen =>
      var counted := b.(successes := b.successes + 1);
      if counted.successes >= cfg.successThreshold then ToClosed(counted) else counted
    case Closed => b.(failures := 0)
    case Open => b
  }

  function OnFailure(cfg: Config, b: Breaker, now: u64): Breaker
    requires CountersBelowThreshold(cfg, b)
  {
    var stamped := b.(lastFailure := now);
    match b.circuit
    case Closed =>
      var counted := stamped.(failures := b.failures + 1);
      if counted.failures >= cfg.failureThreshold then ToOpen(counted) else counted
    case HalfOpen => ToOpen(stamped)
    case Open => stamped
  }

  function Forced(cfg: Config, b: Breaker): Breaker {
    ToOpen(b.(failures := cfg.failureThreshold))
  }

  datatype CallOutcome = Succeeded | Failed | TimedOut

  /** The breaker object. Metrics and log lines are left out. */
  class CircuitBreaker {
    const config: Config
    var state: Circuit
    var failureCount: u32
    var successCount: u32
    var lastFailureTime: u64

    ghost function View(): Breaker
      reads this
    {
      Breaker(state, failureCount, successCount, lastFailureTime)
    }

    ghost predicate Valid()
      reads this
    {
      config.Valid() && CountersBelowThreshold(config, View())
    }

    constructor (config: Config)
      requires config.Valid()
      ensures Valid() && this.config == config && View() == FRESH
    {
      this.config := config;
      state, failureCount, successCount, lastFailureTime := Closed, 0, 0, 0;
    }

    method IsAvailable(now: u64) returns (available: bool)
      requires Valid()
      modifies this
      ensures Valid()
      ensures available <==> Admits(config, old(View()), now)
      ensures View() == Check(config, old(View()), now)
      ensures available <==> old(state) != Open || SeemsElapsed(config, old(lastFailureTime), now)
      ensures state == if old(state) == Open && available then HalfOpen else old(state)
      ensures old(state) == Open && available ==> failureCount == 0 && successCount == 0
      ensures !(old(state) == Open && available) ==> View() == old(View())
      ensures lastFailureTime == old(lastFailureTime)
    {
      match state {
        case Closed => available := true;
        case HalfOpen => available := true;
        case Open =>
          if WrappingSub(now, lastFailureTime) > config.resetTimeout {
            TransitionToHalfOpen();
            available := true;
          } else {
            available := false;
          }
      }
    }

    method RecordSuccess()
      requires Valid()
      modifies this
      ensures Valid() && View() == OnSuccess(config, old(View()))
      ensures state == if old(state) == HalfOpen && old(successCount) as int + 1 >= config.successThreshold as int
                       then Closed else old(state)
      ensures state == HalfOpen ==> successCount as int == old(successCount) as int + 1
      ensures state == Closed ==> failureCount == 0 && successCount == 0
      ensures state == Open ==> View() == old(View())
      ensures lastFailureTime == old(lastFailureTime)
    {
      match state {
        case HalfOpen =>
          successCount := successCount + 1;
          if successCount >= config.successThreshold {
            TransitionToClosed();
          }
        case Closed => failureCount := 0;
        case Open =>
      }
    }

    method RecordFailure(now: u64)
      requires Valid()
      modifies this
      ensures Valid() && View() == OnFailure(config, old(View()), now)
      ensures state == if old(state) == Closed && old(failureCount) as int + 1 < config.failureThreshold as int
                       then Closed else Open
      ensures old(state) == Closed ==> failureCount as int == old(failureCount) as int + 1
      ensures lastFailureTime == now && (state == Open ==> successCount == 0)
    {
      lastFailureTime := now;
      match state {
        case Closed =>
          failureCount := failureCount + 1;
          if failureCount >= config.failureThreshold {
            TransitionToOpen();
          }
        case HalfOpen => TransitionToOpen();
        case Open =>
      }
    }

    /** The end of an admitted `call`; any number of other operations may have run since it was admitted. */
    method FinishCall(outcome: CallOutcome, now: u64)
      requires Valid()
      modifies this
      ensures Valid()
      ensures View() == if outcome == Succeeded then OnSuccess(config, old(View()))
                        else OnFailure(config, old(View()), now)
      ensures outcome != Succeeded ==>
        state == if old(state) == Closed && old(failureCount) as int + 1 < config.failureThreshold as int
                 then Closed else Open
      ensures outcome == Succeeded ==>
        state == if old(state) == HalfOpen && old(successCount) as int + 1 >= config.successThreshold as int
                 then Closed else old(state)
      ensures lastFailureTime == if outcome == Succeeded then old(lastFailureTime) else now
    {
      match outcome {
        case Succeeded => RecordSuccess();
        case Failed => RecordFailure(now);
        case TimedOut => RecordFailure(now);
      }
    }

    method Reset()
      requires Valid()
      modifies this
      ensures Valid() && View() == ToClosed(old(View()))
      ensures state == Closed && lastFailureTime == old(lastFailureTime)
      ensures if old(state) == Closed then View() == old(View()) else failureCount == 0 && successCount == 0
    {
      TransitionToClosed();
    }

    method ForceOpen()
      requires Valid()
      modifies this
      ensures Valid() && View() == Forced(config, old(View()))
      ensures state == Open && failureCount == config.failureThreshold && lastFailureTime == old(lastFailureTime)
    {
      failureCount := config.failureThreshold;
      TransitionToOpen();
    }

    method TransitionToClosed()
      modifies this
      ensures View() == ToClosed(old(View()))
    {
      if state != Closed {
        state, failureCount, successCount := Closed, 0, 0;
      }
    }

    method TransitionToOpen()
      modifies this
      ensures View() == ToOpen(old(View()))
    {
      if state != Open {
        state, successCount := Open, 0;
      }
    }

    method TransitionToHalfOpen()
      modifies this
      ensures View() == ToHalfOpen(old(View()))
    {
      if state == Open {
        state, successCount, failureCount := HalfOpen, 0, 0;
      }
    }
  }
}

/**
 Whole runs. A run is any sequence of operations: calls may overlap freely, so an outcome
 may be recorded at any time, whatever has happened since the call was admitted.
 */
module CircuitBreakerRuns {
  import opened Types
  import opened CircuitBreaking

  datatype Op =
    | CheckAt(now: u64)
    | Success
    | FailureAt(now: u64)
    | Reset
    | ForceOpen

  function Apply(cfg: Config, b: Breaker, op: Op): (b': Breaker)
    requires cfg.Valid() && CountersBelowThreshold(cfg, b)
    ensures CountersBelowThreshold(cfg, b')
  {
    match op
    case CheckAt(now) => Check(cfg, b, now)
    case Success => OnSuccess(cfg, b)
    case FailureAt(now) => OnFailure(cfg, b, now)
    case Reset => ToClosed(b)
    case ForceOpen => Forced(cfg, b)
  }

  function Init<T>(s: seq<T>): seq<T>
    requires s != []
  {
    s[..|s| - 1]
  }

  function Last<T>(s: seq<T>): T
    requires s != []
  {
    s[|s| - 1]
  }

  function Run(cfg: Config, ops: seq<Op>): (b: Breaker)
    requires cfg.Valid()
    ensures CountersBelowThreshold(cfg, b)
  {
    if ops == [] then FRESH else Apply(cfg, Run(cfg, Init(ops)), Last(ops))
  }

  // What the counters should say, read off the history.

  /** Failures recorded while closed since the last success or the last closing. */
  function FailureStreak(cfg: Config, ops: seq<Op>): nat
    requires cfg.Valid()
  {
    if ops == [] then 0
    else if Run(cfg, ops).circuit.Closed? && !Run(cfg, Init(ops)).circuit.Closed? then 0
    else match Last(ops)
      case Success => 0
      case FailureAt(_) => FailureStreak(cfg, Init(ops)) + 1
      case _ => FailureStreak(cfg, Init(ops))
  }

  /** Successes recorded since the circuit last became half-open. */
  function ProbeSuccesses(cfg: Config, ops: seq<Op>): nat
    requires cfg.Valid()
  {
    if ops == [] then 0
    else if !Run(cfg, Init(ops)).circuit.HalfOpen? then 0
    else if Last(ops).Success? then ProbeSuccesses(cfg, Init(ops)) + 1
    else ProbeSuccesses(cfg, Init(ops))
  }

  /** The time of the last recorded failure, 0 before the first. */
  function LastFailureTime(ops: seq<Op>): u64 {
    if ops == [] then 0 as u64
    else match Last(ops)
      case FailureAt(now) => now
      case _ => LastFailureTime(Init(ops))
  }

  lemma {:induction false} CountersEqualHistory(cfg: Config, ops: seq<Op>)
    requires cfg.Valid()
    ensures
      var b := Run(cfg, ops);
      && b.lastFailure == LastFailureTime(ops)
      && match b.circuit
         case Closed => b.failures as int == FailureStreak(cfg, ops) < cfg.failureThreshold as int
         case HalfOpen => b.failures == 0
           && b.successes as int == ProbeSuccesses(cfg, ops) < cfg.successThreshold as int
         case Open => b.successes == 0
  {
    if ops != [] {
      CountersEqualHistory(cfg, Init(ops));
    }
  }

  /** What the last operation has made of the circuit, read off the history before it. */
  ghost predicate CircuitFollows(cfg: Config, before: seq<Op>, op: Op, circuit: Circuit)
    requires cfg.Valid()
  {
    var was := Run(cfg, before).circuit;
    match op
    case CheckAt(now) =>
      circuit == if was == Open && SeemsElapsed(cfg, LastFailureTime(before), now) then HalfOpen else was
    case Success =>
      circuit == if was == HalfOpen && ProbeSuccesses(cfg, before) + 1 >= cfg.successThreshold as int then Closed
        else was
    case FailureAt(_) =>
      circuit == if was == Closed && FailureStreak(cfg, before) + 1 < cfg.failureThreshold as int then Closed else Open
    case Reset => circuit == Closed
    case ForceOpen => circuit == Open
  }

  /**
   In every run the circuit is what history says: a failure opens it unless it is closed and the streak is
   still short; a success closes it only as the last missing probe; a check half-opens it only when it is open
   and the timeout seems to have passed; reset closes it and force_open opens it.
   */
  lemma CircuitEqualsHistory(cfg: Config, ops: seq<Op>, op: Op)
    requires cfg.Valid()
    ensures CircuitFollows(cfg, ops, op, Run(cfg, ops + [op]).circuit)
  {
    CountersEqualHistory(cfg, ops);
    assert Init(ops + [op]) == ops && Last(ops + [op]) == op;
  }

  /** Operations that stamp the clock, in order, never run backwards. */
  function Latest(ops: seq<Op>): u64 {
    if ops == [] then 0 as u64
    else match Last(ops)
      case CheckAt(now) => now
      case FailureAt(now) => now
      case _ => Latest(Init(ops))
  }

  ghost predicate ClockNeverGoesBack(ops: seq<Op>) {
    ops != [] ==>
      && ClockNeverGoesBack(Init(ops))
      && Latest(Init(ops)) <= Latest(ops)
  }

  /** No manual intervention. */
  ghost predicate Automatic(ops: seq<Op>) {
    forall i :: 0 <= i < |ops| ==> !ops[i].Reset? && !ops[i].ForceOpen?
  }

  /** The times at which the circuit opened. */
  function Trips(cfg: Config, ops: seq<Op>): seq<u64>
    requires cfg.Valid()
  {
    if ops == [] then []
    else
      var tripped := Run(cfg, ops).circuit.Open? && !Run(cfg, Init(ops)).circuit.Open?;
      Trips(cfg, Init(ops)) + if tripped then [Latest(ops)] else []
  }

  /** Consecutive trips are more than a reset timeout apart. */
  ghost predicate Spaced(cfg: Config, trips: seq<u64>) {
    forall i :: 0 < i < |trips| ==> trips[i] as int >= trips[i - 1] as int + cfg.resetTimeout as int + 1
  }

  /**
   An open circuit has waited since its last trip for no longer than the last failure; any other waited out
   the timeout.
   */
  ghost predicate TripInvariant(cfg: Config, b: Breaker, trips: seq<u64>, latest: u64) {
    && b.lastFailure <= latest
    && (b.circuit.Open? ==> trips != [] && Last(trips) <= b.lastFailure)
    && (!b.circuit.Open? && trips != [] ==> Last(trips) as int + cfg.resetTimeout as int + 1 <= latest as int)
  }

  lemma SubtractionIsExact(a: u64, b: u64)
    requires b <= a
    ensures WrappingSub(a, b) == a - b
  {
  }

  lemma StepKeepsTripInvariant(cfg: Config, b: Breaker, op: Op, trips: seq<u64>, latest: u64, latest': u64)
    requires cfg.Valid() && CountersBelowThreshold(cfg, b) && !op.Reset? && !op.ForceOpen?
    requires TripInvariant(cfg, b, trips, latest) && latest <= latest'
    requires op.CheckAt? || op.FailureAt? ==> op.now == latest'
    ensures
      var b' := Apply(cfg, b, op);
      if b'.circuit.Open? && !b.circuit.Open?
      then b'.lastFailure == latest'
        && (trips != [] ==> latest' as int >= Last(trips) as int + cfg.resetTimeout as int + 1)
      else TripInvariant(cfg, b', trips, latest')
  {
    if op.CheckAt? {
      SubtractionIsExact(op.now, b.lastFailure);
    }
  }

  lemma {:induction false} TripsAreSpaced(cfg: Config, ops: seq<Op>)
    requires cfg.Valid() && ClockNeverGoesBack(ops) && Automatic(ops)
    ensures Spaced(cfg, Trips(cfg, ops))
    ensures TripInvariant(cfg, Run(cfg, ops), Trips(cfg, ops), Latest(ops))
  {
    if ops != [] {
      var before := Init(ops);
      assert forall i :: 0 <= i < |before| ==> before[i] == ops[i];
      TripsAreSpaced(cfg, before);
      StepKeepsTripInvariant(cfg, Run(cfg, before), Last(ops), Trips(cfg, before), Latest(before), Latest(ops));
    }
  }

  lemma {:induction false} SpacingAdds(cfg: Config, trips: seq<u64>, i: nat, j: nat)
    requires Spaced(cfg, trips) && i <= j < |trips|
    ensures trips[j] as int >= trips[i] as int + (j - i) * (cfg.resetTimeout as int + 1)
  {
    if i < j {
      SpacingAdds(cfg, trips, i, j - 1);
      assert (j - i) * (cfg.resetTimeout as int + 1)
        == (j - 1 - i) * (cfg.resetTimeout as int + 1) + (cfg.resetTimeout as int + 1);
    }
  }

  /** The trip-rate bound: trip `j` comes at least `(j - i) * (reset_timeout + 1 ms)` after trip `i`. */
  lemma TripRateBound(cfg: Config, ops: seq<Op>, i: nat, j: nat)
    requires cfg.Valid() && ClockNeverGoesBack(ops) && Automatic(ops)
    requires i <= j < |Trips(cfg, ops)|
    ensures Trips(cfg, ops)[j] as int >= Trips(cfg, ops)[i] as int + (j - i) * (cfg.resetTimeout as int + 1)
  {
    TripsAreSpaced(cfg, ops);
    SpacingAdds(cfg, Trips(cfg, ops), i, j);
  }

  /**
   When an open breaker admits a call: exactly when more than `reset_timeout` has passed since the
   last recorded failure, or when the clock has stepped back behind that failure, for the
   subtraction then wraps (by any step short of 2^64 - reset_timeout).
   */
  lemma OpenAdmitsExactlyWhen(cfg: Config, ops: seq<Op>, now: u64)
    requires cfg.Valid() && Run(cfg, ops).circuit.Open?
    ensures
      var since := now as int - LastFailureTime(ops) as int;
      Admits(cfg, Run(cfg, ops), now) <==>
        since > cfg.resetTimeout as int || -(TWO_TO_64 - cfg.resetTimeout as int) < since < 0
  {
    CountersEqualHistory(cfg, ops);
  }

  /** With a clock that does not go back, no call is admitted until more than `reset_timeout` after the last failure. */
  lemma OpenHoldsForTheTimeout(cfg: Config, ops: seq<Op>, now: u64)
    requires cfg.Valid() && ClockNeverGoesBack(ops) && Automatic(ops)
    requires Run(cfg, ops).circuit.Open? && now >= Latest(ops)
    ensures Admits(cfg, Run(cfg, ops), now) <==> now as int > LastFailureTime(ops) as int + cfg.resetTimeout as int
    ensures Trips(cfg, ops) != []
    ensures Admits(cfg, Run(cfg, ops), now) ==> now as int > Last(Trips(cfg, ops)) as int + cfg.resetTimeout as int
  {
    TripsAreSpaced(cfg, ops);
    CountersEqualHistory(cfg, ops);
  }

  lemma {:induction false} LatestGrows(ops: seq<Op>, more: seq<Op>)
    requires ClockNeverGoesBack(ops + more)
    ensures ClockNeverGoesBack(ops) && Latest(ops) <= Latest(ops + more)
  {
    if more == [] {
      assert ops + more == ops;
    } else {
      assert Init(ops + more) == ops + Init(more);
      LatestGrows(ops, Init(more));
    }
  }

  /** An open circuit that last failed at `failed` or later stays open until the timeout has passed since. */
  lemma {:induction false} StaysOpen(cfg: Config, ops: seq<Op>, more: seq<Op>, failed: u64)
    requires cfg.Valid() && ClockNeverGoesBack(ops + more) && Automatic(more)
    requires Run(cfg, ops).circuit.Open? && failed <= Run(cfg, ops).lastFailure <= Latest(ops)
    requires Latest(ops + more) as int <= failed as int + cfg.resetTimeout as int
    ensures Run(cfg, ops + more).circuit.Open? && failed <= Run(cfg, ops + more).lastFailure <= Latest(ops + more)
  {
    if more == [] {
      assert ops + more == ops;
    } else {
      var init := ops + Init(more);
      assert Init(ops + more) == init && Last(ops + more) == Last(more);
      assert forall i :: 0 <= i < |Init(more)| ==> Init(more)[i] == more[i];
      assert more[|more| - 1] == Last(more);
      StaysOpen(cfg, ops, Init(more), failed);
      StaysOpenOneMore(cfg, Run(cfg, init), Last(more), failed, Latest(init), Latest(ops + more));
    }
  }

  lemma StaysOpenOneMore(cfg: Config, b: Breaker, op: Op, failed: u64, latest: u64, latest': u64)
    requires cfg.Valid() && CountersBelowThreshold(cfg, b) && !op.Reset? && !op.ForceOpen?
    requires b.circuit.Open? && failed <= b.lastFailure <= latest <= latest'
    requires latest' as int <= failed as int + cfg.resetTimeout as int
    requires if op.CheckAt? || op.FailureAt? then op.now == latest' else latest' == latest
    ensures Apply(cfg, b, op).circuit.Open? && failed <= Apply(cfg, b, op).lastFailure <= latest'
  {
    if op.CheckAt? {
      SubtractionIsExact(op.now, b.lastFailure);
    }
  }

  /**
   A failed probe is a trip: the circuit opens again, and whatever follows, no call is admitted until more than
   `reset_timeout` after it.
   */
  lemma FailedProbeTrips(cfg: Config, ops: seq<Op>, failed: u64, more: seq<Op>, now: u64)
    requires cfg.Valid() && Run(cfg, ops).circuit.HalfOpen?
    requires ClockNeverGoesBack(ops + [FailureAt(failed)] + more) && Automatic(more)
    requires Latest(ops + [FailureAt(failed)] + more) <= now
    ensures Trips(cfg, ops + [FailureAt(failed)]) == Trips(cfg, ops) + [failed]
    ensures now as int <= failed as int + cfg.resetTimeout as int ==>
      !Admits(cfg, Run(cfg, ops + [FailureAt(failed)] + more), now)
  {
    var tripped := ops + [FailureAt(failed)];
    assert Init(tripped) == ops && Last(tripped) == FailureAt(failed);
    CircuitEqualsHistory(cfg, ops, FailureAt(failed));
    CountersEqualHistory(cfg, tripped);
    if now as int <= failed as int + cfg.resetTimeout as int {
      StaysOpen(cfg, tripped, more, failed);
      SubtractionIsExact(now, Run(cfg, tripped + more).lastFailure);
    }
  }

  /** One millisecond backwards is enough: an open breaker that has just tripped admits the next call. */
  lemma SteppingBackAdmits(cfg: Config, now: u64)
    requires cfg.Valid() && now >= 1 && cfg.failureThreshold == 1 && cfg.resetTimeout as int < TWO_TO_64 - 1
    ensures Run(cfg, [FailureAt(now)]).circuit.Open?
    ensures Admits(cfg, Run(cfg, [FailureAt(now)]), now - 1)
    ensures !Admits(cfg, Run(cfg, [FailureAt(now)]), now)
  {
    assert Init([FailureAt(now)]) == [];
  }
}
