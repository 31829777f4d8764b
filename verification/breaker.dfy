/**
 * The per-provider circuit breaker: a failure counter, the time of the last
 * failure and the time until which the circuit stays open.  It is a pure time
 * gate: there is no half-open probe, and a success only zeroes the counter.
 *
 * The clock (`Date.now()`) is an explicit `now` argument.  The transitions are
 * first given on values (`BreakerState`), so that runs of several calls can be
 * reasoned about; the class `CircuitBreaker` performs them in place.
 */
module Breaker {

  const DefaultMaxFailures: int := 3
  const DefaultCoolDownMs: int := 30000

  datatype BreakerState = BreakerState(failures: nat, lastFailureAt: int, openUntil: int)

  /** The state of a breaker that has never failed. */
  const Initial: BreakerState := BreakerState(0, 0, 0)

  /** `canPass`: traffic is let through once the clock is past `openUntil`. */
  predicate Passes(s: BreakerState, now: int) {
    now > s.openUntil
  }

  /**
   * `recordSuccess`: zero the counter, leave both timestamps alone.  A success
   * therefore does not close a circuit that is cooling down.
   */
  function AfterSuccess(s: BreakerState): (r: BreakerState)
    ensures r.failures == 0
    ensures r.openUntil == s.openUntil && r.lastFailureAt == s.lastFailureAt
    ensures forall now :: Passes(r, now) <==> Passes(s, now)
  {
    s.(failures := 0)
  }

  /**
   * `recordFailure` at time `now`: a failure counts exactly once and stamps its
   * time; below the threshold it leaves `openUntil` alone, at or above it (also
   * when the circuit is already open, since opening does not reset the
   * counter) it moves `openUntil` to `now + coolDownMs`, so that nothing passes
   * up to and including that time.
   */
  function AfterFailure(s: BreakerState, now: int, maxFailures: int, coolDownMs: int): (r: BreakerState)
    ensures r.failures == s.failures + 1 && r.lastFailureAt == now
    ensures s.failures + 1 < maxFailures ==> r.openUntil == s.openUntil
    ensures s.failures + 1 >= maxFailures ==> r.openUntil == now + coolDownMs
    ensures s.failures + 1 >= maxFailures ==> forall t :: t <= now + coolDownMs ==> !Passes(r, t)
  {
    var failures := s.failures + 1;
    BreakerState(failures, now, if failures >= maxFailures then now + coolDownMs else s.openUntil)
  }

  /** One recorded outcome, as the router reports it to a breaker. */
  datatype Event = Success | Failure(at: int)

  function Step(s: BreakerState, e: Event, maxFailures: int, coolDownMs: int): BreakerState {
    match e
    case Success => AfterSuccess(s)
    case Failure(at) => AfterFailure(s, at, maxFailures, coolDownMs)
  }

  /** The state after recording `events` in order, starting from `s`. */
  function Run(s: BreakerState, events: seq<Event>, maxFailures: int, coolDownMs: int): BreakerState
    decreases |events|
  {
    if events == [] then s
    else Step(Run(s, events[..|events| - 1], maxFailures, coolDownMs), events[|events| - 1], maxFailures, coolDownMs)
  }

  ghost predicate AllFailures(events: seq<Event>) {
    forall i :: 0 <= i < |events| ==> events[i].Failure?
  }

  /** Failures only: the counter grows by exactly the number of events. */
  lemma {:induction false} FailuresCount(s: BreakerState, events: seq<Event>, maxFailures: int, coolDownMs: int)
    requires AllFailures(events)
    ensures Run(s, events, maxFailures, coolDownMs).failures == s.failures + |events|
    decreases |events|
  {
    if events != [] {
      FailuresCount(s, events[..|events| - 1], maxFailures, coolDownMs);
    }
  }

  /**
   * After consecutive failures that bring the counter to the threshold, the
   * last at time `t`, the circuit is open until `t + coolDownMs`: no traffic
   * passes at any time up to and including `t + coolDownMs`.
   */
  lemma ConsecutiveFailuresOpen(s: BreakerState, events: seq<Event>, maxFailures: int, coolDownMs: int)
    requires events != [] && AllFailures(events)
    requires s.failures + |events| >= maxFailures
    ensures Run(s, events, maxFailures, coolDownMs).openUntil == events[|events| - 1].at + coolDownMs
    ensures forall now :: now <= events[|events| - 1].at + coolDownMs ==> !Passes(Run(s, events, maxFailures, coolDownMs), now)
  {
    FailuresCount(s, events[..|events| - 1], maxFailures, coolDownMs);
  }

  /** `openUntil` is never further than one cooldown past the last failure. */
  ghost predicate Consistent(s: BreakerState, coolDownMs: int) {
    s.openUntil <= s.lastFailureAt + coolDownMs
  }

  /** Every failure in `events` happens at `t0` or later, and failures come in clock order. */
  ghost predicate ClockFrom(t0: int, events: seq<Event>) {
    && (forall i :: 0 <= i < |events| && events[i].Failure? ==> t0 <= events[i].at)
    && (forall i, j :: 0 <= i < j < |events| && events[i].Failure? && events[j].Failure? ==> events[i].at <= events[j].at)
  }

  /**
   * Under a clock that does not run backwards, `openUntil` never decreases:
   * neither a success nor a further failure can bring the end of a cooldown forward.
   */
  lemma {:induction false} OpenUntilNeverDecreases(s: BreakerState, events: seq<Event>, maxFailures: int, coolDownMs: int)
    requires coolDownMs >= 0 && Consistent(s, coolDownMs)
    requires ClockFrom(s.lastFailureAt, events)
    ensures Run(s, events, maxFailures, coolDownMs).openUntil >= s.openUntil
    ensures Consistent(Run(s, events, maxFailures, coolDownMs), coolDownMs)
    ensures var last := Run(s, events, maxFailures, coolDownMs).lastFailureAt;
      last == s.lastFailureAt || exists i :: 0 <= i < |events| && events[i].Failure? && events[i].at == last
    decreases |events|
  {
    if events != [] {
      var n := |events| - 1;
      var prefix := events[..n];
      assert forall i :: 0 <= i < |prefix| ==> prefix[i] == events[i];
      OpenUntilNeverDecreases(s, prefix, maxFailures, coolDownMs);
      var mid := Run(s, prefix, maxFailures, coolDownMs);
      if events[n].Failure? {
        if mid.lastFailureAt != s.lastFailureAt {
          var i :| 0 <= i < |prefix| && prefix[i].Failure? && prefix[i].at == mid.lastFailureAt;
          assert events[i].at <= events[n].at;
        }
        assert mid.lastFailureAt <= events[n].at;
      }
    }
  }

  /**
   * A breaker object, as each provider of the router has one.  Its fields are
   * updated in place by `RecordSuccess` and `RecordFailure`.
   */
  class CircuitBreaker {
    var failures: nat
    var lastFailureAt: int
    var openUntil: int
    const maxFailures: int
    const coolDownMs: int

    /** The abstract value of the breaker. */
    function State(): BreakerState
      reads this
    {
      BreakerState(failures, lastFailureAt, openUntil)
    }

    constructor (maxFailures: int := DefaultMaxFailures, coolDownMs: int := DefaultCoolDownMs)
      ensures State() == Initial
      ensures this.maxFailures == maxFailures && this.coolDownMs == coolDownMs
      ensures forall now :: now > 0 ==> CanPass(now)
    {
      this.maxFailures := maxFailures;
      this.coolDownMs := coolDownMs;
      failures, lastFailureAt, openUntil := 0, 0, 0;
    }

    /** `canPass`: the object answers as the value model does for its current state. */
    predicate CanPass(now: int)
      reads this
      ensures CanPass(now) <==> Passes(State(), now)
    {
      now > openUntil
    }

    method RecordSuccess()
      modifies this
      ensures failures == 0
      ensures lastFailureAt == old(lastFailureAt) && openUntil == old(openUntil)
      ensures State() == AfterSuccess(old(State()))
    {
      failures := 0;
    }

    method RecordFailure(now: int)
      modifies this
      ensures failures == old(failures) + 1 && lastFailureAt == now
      ensures openUntil == if failures >= maxFailures then now + coolDownMs else old(openUntil)
      ensures State() == AfterFailure(old(State()), now, maxFailures, coolDownMs)
    {
      failures := failures + 1;
      lastFailureAt := now;
      if failures >= maxFailures {
        openUntil := now + coolDownMs;
      }
    }
  }
}
