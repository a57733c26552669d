/** The circuit breaker object (src/scrapy_extension/backends/circuit_breaker.py, class
    `CircuitBreaker`), each locked body tied to the step function of Breaker. */
module BreakerObject {
  import opened Options
  import B = Breaker

  class CircuitBreaker {
    const config: B.Config
    var state: B.State
    var failureCount: nat
    var lastFailureTime: Option<real>
    var epoch: nat
    var probeInFlight: bool
    var probeStartedAt: Option<real>
    var pendingStateChanges: seq<B.State>

    ghost function View(): B.Fields
      reads this
    {
      B.Fields(state, failureCount, lastFailureTime, epoch, probeInFlight, probeStartedAt, pendingStateChanges)
    }

    constructor (config: B.Config)
      requires B.ValidConfig(config)
      ensures this.config == config && View() == B.Initial
    {
      this.config := config;
      state, failureCount, lastFailureTime, epoch := B.Closed, 0, None, 0;
      probeInFlight, probeStartedAt, pendingStateChanges := false, None, [];
    }

    method AllowCall(now: real, later: real) returns (a: B.Admission)
      modifies this
      ensures (View(), a) == B.AllowCall(config, old(View()), now, later)
    {
      if state == B.Open {
        if lastFailureTime != None && now - lastFailureTime.value >= config.timeout {
          state := B.HalfOpen;
          epoch := epoch + 1;
          probeInFlight := true;
          probeStartedAt := Some(now);
          pendingStateChanges := pendingStateChanges + [B.HalfOpen];
        } else {
          return B.Admission(B.Open, epoch);
        }
      } else if state == B.HalfOpen {
        if probeInFlight {
          if config.timeout > 0.0 && probeStartedAt != None && now - probeStartedAt.value >= config.timeout {
            state := B.Open;
            epoch := epoch + 1;
            failureCount := 0;
            lastFailureTime := Some(later);
            probeInFlight := false;
            probeStartedAt := None;
            pendingStateChanges := pendingStateChanges + [B.Open];
          }
          return B.Admission(B.Open, epoch);
        }
        probeInFlight := true;
        probeStartedAt := Some(now);
      }
      return B.Admission(state, epoch);
    }

    method RecordSuccess(a: B.Admission)
      modifies this
      ensures View() == B.RecordSuccess(old(View()), a)
    {
      if a.epoch != epoch || a.state != state { return; }
      failureCount := 0;
      lastFailureTime := None;
      if a.state == B.HalfOpen {
        state := B.Closed;
        epoch := epoch + 1;
        probeInFlight := false;
        probeStartedAt := None;
        pendingStateChanges := pendingStateChanges + [B.Closed];
      }
    }

    method RecordFailure(a: B.Admission, now: real)
      modifies this
      ensures View() == B.RecordFailure(config, old(View()), a, now)
    {
      if a.epoch != epoch || a.state != state { return; }
      lastFailureTime := Some(now);
      if a.state == B.HalfOpen {
        state := B.Open;
        epoch := epoch + 1;
        failureCount := 0;
        probeInFlight := false;
        probeStartedAt := None;
        pendingStateChanges := pendingStateChanges + [B.Open];
        return;
      }
      failureCount := failureCount + 1;
      if failureCount >= config.threshold {
        state := B.Open;
        epoch := epoch + 1;
        pendingStateChanges := pendingStateChanges + [B.Open];
      }
    }

    method ReleaseProbe(a: B.Admission)
      modifies this`probeInFlight
      ensures View() == B.ReleaseProbe(old(View()), a)
    {
      if a.state == B.HalfOpen && a.epoch == epoch && state == B.HalfOpen {
        probeInFlight := false;
      }
    }

    method Reset()
      modifies this
      ensures View() == B.Reset(old(View()))
    {
      if state != B.Closed {
        pendingStateChanges := pendingStateChanges + [B.Closed];
      }
      state := B.Closed;
      epoch := epoch + 1;
      failureCount := 0;
      lastFailureTime := None;
      probeInFlight := false;
      probeStartedAt := None;
    }

    /** `_notify_pending`: the batch is handed to the observer outside the lock. */
    method NotifyPending() returns (batch: seq<B.State>)
      modifies this`pendingStateChanges
      ensures batch == old(pendingStateChanges) && pendingStateChanges == []
    {
      batch := pendingStateChanges;
      pendingStateChanges := [];
    }

    /** The end of `call`: what happens under the lock once the protected call is over. */
    method FinishCall(a: B.Admission, outcome: B.Outcome, now: real)
      modifies this
      ensures View() == B.Settle(config, old(View()), a, outcome, now)
    {
      match outcome
      case Success => RecordSuccess(a);
      case Failure => RecordFailure(a, now);
      case NotCounted => if a.state == B.HalfOpen { ReleaseProbe(a); }
    }
  }
}
