/** Soft-pressure memory of the active lease (`proactive_switch.rs`). */
module ProactiveSwitch {
  import opened Basics
  import opened Quota

  datatype Observation = Observation(leaseAcquiredAt: Instant, observedAt: Instant, minSwitchInterval: int) {

    /** Pressure seen once the lease is old enough to be given up. */
    predicate PastInterval() {
      minSwitchInterval >= 0 && observedAt >= leaseAcquiredAt && observedAt >= leaseAcquiredAt + minSwitchInterval
    }

    predicate TooEarly() {
      minSwitchInterval >= 0 && leaseAcquiredAt <= observedAt < leaseAcquiredAt + minSwitchInterval
    }
  }

  datatype Outcome = NoAction | Suppressed(allowedAt: Instant) | RotateOnNextTurn

  datatype SwitchSnapshot = SwitchSnapshot(pending: bool, suppressed: bool, allowedAt: Option<Instant>)

  class ProactiveSwitchState {
    var pendingAllowedAt: Option<Instant>

    constructor ()
      ensures pendingAllowedAt == None
    {
      pendingAllowedAt := None;
    }

    method Reset()
      modifies this
      ensures pendingAllowedAt == None
    {
      pendingAllowedAt := None;
    }

    /** Exactly one of three outcomes, decided by the age of the lease when the pressure was seen. */
    method ObserveSoftPressure(observation: Observation) returns (outcome: Outcome)
      modifies this
      ensures outcome.RotateOnNextTurn? <==> observation.PastInterval()
      ensures outcome.Suppressed? <==> observation.TooEarly()
      ensures outcome.RotateOnNextTurn? ==> pendingAllowedAt == None
      ensures outcome.Suppressed? ==>
        outcome.allowedAt == observation.leaseAcquiredAt + observation.minSwitchInterval
        && pendingAllowedAt == Some(outcome.allowedAt)
      ensures outcome.NoAction? ==> pendingAllowedAt == old(pendingAllowedAt)
    {
      if observation.minSwitchInterval < 0 {
        return NoAction;
      }
      if observation.observedAt < observation.leaseAcquiredAt {
        return NoAction;
      }
      var allowedAt := observation.leaseAcquiredAt + observation.minSwitchInterval;
      if observation.observedAt >= allowedAt {
        pendingAllowedAt := None;
        return RotateOnNextTurn;
      }
      pendingAllowedAt := Some(allowedAt);
      outcome := Suppressed(allowedAt);
    }

    /** Stale pressure expires when its window opens; it never forces a rotation by itself. */
    method RevalidateBeforeTurn(now: Instant)
      modifies this
      ensures pendingAllowedAt ==
        if old(pendingAllowedAt).Some? && old(pendingAllowedAt).value <= now then None else old(pendingAllowedAt)
    {
      if pendingAllowedAt.Some? && pendingAllowedAt.value <= now {
        pendingAllowedAt := None;
      }
    }

    method TakeSnapshot(now: Instant) returns (snapshot: SwitchSnapshot)
      modifies this
      ensures pendingAllowedAt ==
        if old(pendingAllowedAt).Some? && old(pendingAllowedAt).value <= now then None else old(pendingAllowedAt)
      ensures snapshot == SwitchSnapshot(pendingAllowedAt.Some?, pendingAllowedAt.Some?, pendingAllowedAt)
    {
      if pendingAllowedAt.None? {
        return SwitchSnapshot(false, false, None);
      }
      if now >= pendingAllowedAt.value {
        pendingAllowedAt := None;
        return SwitchSnapshot(false, false, None);
      }
      snapshot := SwitchSnapshot(true, true, pendingAllowedAt);
    }
  }
}
