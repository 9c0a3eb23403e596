/**
 The selection loops as relations between backend states
 (`acquire_selected_rotation_lease` and `acquire_selected_lease`), and what it
 means that they end.
 */
module RotationTurns {
  import opened Basics
  import opened Quota
  import opened Selection
  import opened LeaseStore
  import opened PlanMeaning
  import Backend

  const PROBE_RESERVATION: int := 30 * NANOS_PER_SECOND

  /** What stays fixed during a rotation. */
  datatype Rotation = Rotation(request: Request, lease: Lease, holder: string, probeHolder: string, now: Instant)

  /** Where a rotation stands between two plans. */
  datatype Stage = Stage(store: Store, released: bool, exhausted: bool)

  /** The request of a rotation, after the current account was tried again in vain or not. */
  function RotationRequest(request: Request, exhausted: bool): Request {
    if exhausted then request.(current := None) else request
  }

  /** The family, and with it the quota row of every candidate, does not depend on the current account. */
  predicate OneFamily(s: Store, request: Request) {
    FamilyFor(s, request) == FamilyFor(s, request.(current := None))
  }

  /** A refresh under a verification lease that is then given back. */
  ghost predicate Verified(s: Store, s': Store, family: string, reservation: Reservation, probe: Lease) {
    exists refreshed: Store, known: bool ::
      && RefreshRel(s, refreshed, probe.AccountId(), family, reservation, Ok(()))
      && ReleaseRel(refreshed, s', probe.key, Ok(known))
  }

  /** What follows a reservation: the verification lease is refused, or it is granted and given back. */
  ghost predicate Reserved(
    s: Store, s': Store, a: string, family: string, reservation: Reservation, probeHolder: string)
  {
    || AcquireProbeRel(s, s', a, probeHolder, Err(NoEligibleAccount))
    || (exists granted: Store, probe: Lease ::
          AcquireProbeRel(s, granted, a, probeHolder, Ok(probe)) && Verified(granted, s', family, reservation, probe))
  }

  /** A probe after which the loop plans again. */
  ghost predicate ProbeRound(
    s: Store, s': Store, a: string, family: string, planned: Instant, now: Instant, probeHolder: string)
  {
    || ReserveRel(s, s', a, family, planned, now, PROBE_RESERVATION, Ok(None))
    || (exists reserved: Store, reservation: Reservation ::
          && ReserveRel(s, reserved, a, family, planned, now, PROBE_RESERVATION, Ok(Some(reservation)))
          && Reserved(reserved, s', a, family, reservation, probeHolder))
  }

  /** The current lease is given back if it is still held. */
  ghost predicate GivenBack(s: Store, free: Store, released: bool, key: LeaseKey) {
    if released then free == s else exists known: bool :: ReleaseRel(s, free, key, Ok(known))
  }

  /** A selected account that was refused, after the current lease was given back. */
  ghost predicate Refused(rot: Rotation, s: Store, s': Store, released: bool, a: string, family: string) {
    exists free: Store ::
      && GivenBack(s, free, released, rot.lease.key)
      && AcquireRel(free, s', rot.lease.poolId, a, family, rot.holder, Err(NoEligibleAccount))
  }

  /** What is planned on `s`. */
  function Planned(s: Store, request: Request, now: Instant, pool: string, holder: string): Action {
    Evaluate(PlanRequest(s, request), now, Snapshot(s, pool, holder)).action
  }

  /** A turn that does not end the rotation. */
  ghost predicate Turn(rot: Rotation, x: Stage, y: Stage) {
    var request := RotationRequest(rot.request, x.exhausted);
    var family := FamilyFor(x.store, request);
    var planned := Backend.Logged(x.store, PlanCall);
    match Planned(x.store, request, rot.now, rot.lease.poolId, rot.holder)
    case Select(a) =>
      y.released && y.exhausted == x.exhausted && Refused(rot, planned, y.store, x.released, a, family)
    case Probe(a) =>
      && y.released == x.released && y.exhausted == x.exhausted
      && ProbeRound(planned, y.store, a, family, rot.now, rot.now, rot.probeHolder)
    case _ =>
      && rot.request.intent.SoftRotation? && x.released && !x.exhausted && y.released && y.exhausted
      && AcquireRel(planned, y.store, rot.lease.poolId, rot.lease.AccountId(), family, rot.holder,
                    Err(NoEligibleAccount))
  }

  /** The plan of the last stage is the last turn. */
  ghost predicate Run(rot: Rotation, stages: seq<Stage>) {
    stages != [] && forall i :: 0 <= i < |stages| - 1 ==> Turn(rot, stages[i], stages[i + 1])
  }

  /** A turn that ends the rotation, when no backend call fails. */
  ghost predicate LastTurn(rot: Rotation, x: Stage, s': Store, r: Result<Lease, LeaseError>) {
    var request := RotationRequest(rot.request, x.exhausted);
    var family := FamilyFor(x.store, request);
    var planned := Backend.Logged(x.store, PlanCall);
    match Planned(x.store, request, rot.now, rot.lease.poolId, rot.holder)
    case Select(a) =>
      && r.Ok? && r.value.AccountId() == a
      && exists free: Store ::
           && GivenBack(planned, free, x.released, rot.lease.key)
           && AcquireRel(free, s', rot.lease.poolId, a, family, rot.holder, r)
    case Probe(_) => false
    case _ => WithoutCandidate(rot, x.released, x.exhausted, family, planned, s', r)
  }

  /** Without a candidate a soft rotation stays, returns once or gives up, and a hard one gives the lease up. */
  ghost predicate WithoutCandidate(
    rot: Rotation, released: bool, exhausted: bool, family: string, planned: Store, s': Store,
    r: Result<Lease, LeaseError>)
  {
    if rot.request.intent == SoftRotation then
      if !released then r == Ok(rot.lease) && s' == planned
      else if exhausted then r == Err(NoEligibleAccount) && s' == planned
      else
        && r.Ok? && r.value.AccountId() == rot.lease.AccountId()
        && AcquireRel(planned, s', rot.lease.poolId, rot.lease.AccountId(), family, rot.holder, r)
    else r == Err(NoEligibleAccount) && GivenBack(planned, s', released, rot.lease.key)
  }

  /**
   Why a rotation may end as it does, told by the candidates that its last plan
   saw: it moves to the chosen account; it stays or returns only when there is
   nothing to try; and it gives up only then, too.
   */
  ghost predicate Justifies(rot: Rotation, x: Stage, r: Result<Lease, LeaseError>) {
    var request := PlanRequest(x.store, RotationRequest(rot.request, x.exhausted));
    var rows := Snapshot(x.store, rot.lease.poolId, rot.holder);
    match r
    case Ok(next) =>
      || Chosen(request, rot.now, rows, request.Family(), next.AccountId())
      || (&& rot.request.intent == SoftRotation && NothingToTry(request, rot.now, rows) && (x.released ==> !x.exhausted)
          && next.AccountId() == rot.lease.AccountId() && (!x.released ==> next == rot.lease))
    case Err(_) =>
      NothingToTry(request, rot.now, rows) && (rot.request.intent == SoftRotation ==> x.released && x.exhausted)
  }

  lemma {:induction false} LastTurnJustifies(rot: Rotation, x: Stage, s': Store, r: Result<Lease, LeaseError>)
    requires LastTurn(rot, x, s', r)
    ensures Justifies(rot, x, r)
  {
    hide Evaluate, Chosen, NothingToTry, AcquireRel, GivenBack, ChosenToProbe, Snapshot;
    var request := PlanRequest(x.store, RotationRequest(rot.request, x.exhausted));
    var rows := Snapshot(x.store, rot.lease.poolId, rot.holder);
    ActionMeans(request, rot.now, rows, request.Family());
    match Evaluate(request, rot.now, rows).action {
      case Select(a) => assert Chosen(request, rot.now, rows, request.Family(), a);
      case Probe(_) =>
      case _ => assert NothingToTry(request, rot.now, rows);
    }
  }

  function ActionAt(rot: Rotation, x: Stage): Action {
    Planned(x.store, RotationRequest(rot.request, x.exhausted), rot.now, rot.lease.poolId, rot.holder)
  }

  function FamilyAt(rot: Rotation, x: Stage): string {
    FamilyFor(x.store, RotationRequest(rot.request, x.exhausted))
  }

  lemma {:induction false} SelectedTurn(
    rot: Rotation, x: Stage, free: Store, s': Store, a: string, r: Result<Lease, LeaseError>)
    requires ActionAt(rot, x) == Select(a)
    requires GivenBack(Backend.Logged(x.store, PlanCall), free, x.released, rot.lease.key)
    requires AcquireRel(free, s', rot.lease.poolId, a, FamilyAt(rot, x), rot.holder, r)
    ensures r.Ok? && r.value.AccountId() == a ==> LastTurn(rot, x, s', r)
    ensures r == Err(NoEligibleAccount) ==> Turn(rot, x, Stage(s', true, x.exhausted))
  {
    hide Planned, GivenBack, AcquireRel;
  }

  lemma {:induction false} ProbedTurn(rot: Rotation, x: Stage, s': Store, a: string)
    requires ActionAt(rot, x) == Probe(a)
    requires ProbeRound(Backend.Logged(x.store, PlanCall), s', a, FamilyAt(rot, x), rot.now, rot.now, rot.probeHolder)
    ensures Turn(rot, x, Stage(s', x.released, x.exhausted))
  {
    hide Planned, ProbeRound;
  }

  lemma {:induction false} NothingLeftTurn(rot: Rotation, x: Stage, s': Store, r: Result<Lease, LeaseError>)
    requires !ActionAt(rot, x).Select? && !ActionAt(rot, x).Probe?
    requires WithoutCandidate(rot, x.released, x.exhausted, FamilyAt(rot, x), Backend.Logged(x.store, PlanCall), s', r)
    ensures LastTurn(rot, x, s', r)
  {
    hide Planned, WithoutCandidate;
  }

  lemma {:induction false} ReturnRefusedTurn(rot: Rotation, x: Stage, s': Store)
    requires !ActionAt(rot, x).Select? && !ActionAt(rot, x).Probe?
    requires rot.request.intent.SoftRotation? && x.released && !x.exhausted
    requires AcquireRel(Backend.Logged(x.store, PlanCall), s', rot.lease.poolId, rot.lease.AccountId(),
                        FamilyAt(rot, x), rot.holder, Err(NoEligibleAccount))
    ensures Turn(rot, x, Stage(s', true, true))
  {
    hide Planned, AcquireRel;
  }

  /** A rotation that begins on `s` and ends on `s'` with `r`, plan by plan. */
  ghost predicate Rotates(rot: Rotation, stages: seq<Stage>, s: Store, s': Store, r: Result<Lease, LeaseError>) {
    && Run(rot, stages) && stages[0] == Stage(s, false, false)
    && LastTurn(rot, stages[|stages| - 1], s', r)
    && Justifies(rot, stages[|stages| - 1], r)
  }

  /** The rotation has come as far as `x`, which is planned on next. */
  ghost predicate RotatesSoFar(rot: Rotation, stages: seq<Stage>, s: Store, x: Stage) {
    if stages == [] then x == Stage(s, false, false)
    else Run(rot, stages) && stages[0] == Stage(s, false, false) && Turn(rot, stages[|stages| - 1], x)
  }

  lemma {:induction false} RotatesOn(rot: Rotation, stages: seq<Stage>, s: Store, x: Stage)
    requires RotatesSoFar(rot, stages, s, x)
    ensures Run(rot, stages + [x]) && (stages + [x])[0] == Stage(s, false, false)
  {
    hide Turn;
  }

  lemma {:induction false} RotatesFurther(rot: Rotation, stages: seq<Stage>, s: Store, x: Stage, y: Stage)
    requires Run(rot, stages + [x]) && (stages + [x])[0] == Stage(s, false, false) && Turn(rot, x, y)
    ensures RotatesSoFar(rot, stages + [x], s, y)
  {
    hide Run, Turn;
  }

  lemma {:induction false} RotationDone(
    rot: Rotation, stages: seq<Stage>, s: Store, x: Stage, s': Store, r: Result<Lease, LeaseError>)
    requires Run(rot, stages + [x]) && (stages + [x])[0] == Stage(s, false, false) && LastTurn(rot, x, s', r)
    ensures Rotates(rot, stages + [x], s, s', r)
  {
    LastTurnJustifies(rot, x, s', r);
    hide Run, LastTurn, Justifies;
  }

  ghost predicate Rotated(rot: Rotation, s: Store, s': Store, r: Result<Lease, LeaseError>) {
    exists stages :: Rotates(rot, stages, s, s', r)
  }

  // ---------- a fresh selection ----------

  /** What stays fixed during a selection. */
  datatype Selecting = Selecting(request: Request, pool: string, holder: string, probeHolder: string)

  /** A turn that does not end the selection; it is planned at `t` and probes, if it does, at `p`. */
  ghost predicate FreshTurn(sel: Selecting, t: Instant, p: Instant, s: Store, s': Store) {
    var family := FamilyFor(s, sel.request);
    var planned := Backend.Logged(s, PlanCall);
    match Planned(s, sel.request, t, sel.pool, sel.holder)
    case Select(a) => AcquireRel(planned, s', sel.pool, a, family, sel.holder, Err(NoEligibleAccount))
    case Probe(a) => t <= p && ProbeRound(planned, s', a, family, t, p, sel.probeHolder)
    case _ => false
  }

  /** Such a turn, with the next plan at `t'`. */
  ghost predicate FreshStep(sel: Selecting, t: Instant, t': Instant, s: Store, s': Store) {
    t <= t' && exists p :: p <= t' && FreshTurn(sel, t, p, s, s')
  }

  ghost predicate FreshRun(sel: Selecting, stores: seq<Store>, times: seq<Instant>) {
    && stores != [] && |times| == |stores|
    && forall i :: 0 <= i < |stores| - 1 ==> FreshStep(sel, times[i], times[i + 1], stores[i], stores[i + 1])
  }

  /** A turn that ends the selection, when no backend call fails. */
  ghost predicate FreshEnd(sel: Selecting, t: Instant, s: Store, s': Store, r: Result<Lease, LeaseError>) {
    var planned := Backend.Logged(s, PlanCall);
    match Planned(s, sel.request, t, sel.pool, sel.holder)
    case Select(a) =>
      && r.Ok? && (s.HoldsNothing(sel.holder) ==> r.value.AccountId() == a)
      && AcquireRel(planned, s', sel.pool, a, FamilyFor(s, sel.request), sel.holder, r)
    case Probe(_) => false
    case _ => r == Err(NoEligibleAccount) && s' == planned
  }

  /** A selection leases the chosen account, and gives up only when there is nothing to try. */
  ghost predicate FreshJustifies(sel: Selecting, t: Instant, s: Store, s': Store, r: Result<Lease, LeaseError>) {
    var request := PlanRequest(s, sel.request);
    match r
    case Ok(next) =>
      s.HoldsNothing(sel.holder) ==>
        Chosen(request, t, Snapshot(s, sel.pool, sel.holder), request.Family(), next.AccountId())
    case Err(_) =>
      && NothingToTry(request, t, Snapshot(s, sel.pool, sel.holder))
      && NothingToTry(PlanRequest(s', sel.request), t, Snapshot(s', sel.pool, sel.holder))
  }

  lemma {:induction false} FreshEndJustifies(
    sel: Selecting, t: Instant, s: Store, s': Store, r: Result<Lease, LeaseError>)
    requires FreshEnd(sel, t, s, s', r)
    ensures FreshJustifies(sel, t, s, s', r)
  {
    hide Evaluate, Chosen, NothingToTry, AcquireRel, ChosenToProbe, Snapshot;
    var request := PlanRequest(s, sel.request);
    ActionMeans(request, t, Snapshot(s, sel.pool, sel.holder), request.Family());
    Backend.LoggedSnapshots(s, PlanCall, sel.holder);
  }

  /** A selection that begins on `s` at `now` and ends on `s'` before `until` with `r`, plan by plan. */
  ghost predicate Selects(
    sel: Selecting, stores: seq<Store>, times: seq<Instant>, now: Instant, until: Instant, s: Store, s': Store,
    r: Result<Lease, LeaseError>)
  {
    && FreshRun(sel, stores, times) && stores[0] == s && now <= times[0] && times[|times| - 1] < until
    && FreshEnd(sel, times[|times| - 1], stores[|stores| - 1], s', r)
    && FreshJustifies(sel, times[|times| - 1], stores[|stores| - 1], s', r)
  }

  /** The selection has come as far as `current`, which is planned on at `time` or later. */
  ghost predicate FreshSoFar(
    sel: Selecting, stores: seq<Store>, times: seq<Instant>, now: Instant, s: Store, current: Store, time: Instant)
  {
    if stores == [] then times == [] && current == s && now <= time
    else
      && FreshRun(sel, stores, times) && stores[0] == s && now <= times[0]
      && FreshStep(sel, times[|times| - 1], time, stores[|stores| - 1], current)
  }

  lemma {:induction false} FreshExtends(
    sel: Selecting, stores: seq<Store>, times: seq<Instant>, now: Instant, s: Store, current: Store, earlier: Instant,
    time: Instant)
    requires FreshSoFar(sel, stores, times, now, s, current, earlier) && earlier <= time
    ensures FreshRun(sel, stores + [current], times + [time])
    ensures (stores + [current])[0] == s && now <= (times + [time])[0]
  {
    if stores != [] {
      var t, x := times[|times| - 1], stores[|stores| - 1];
      assert FreshStep(sel, t, time, x, current) by {
        var p :| p <= earlier && FreshTurn(sel, t, p, x, current);
        assert p <= time;
      }
      hide FreshStep;
      var more, instants := stores + [current], times + [time];
      forall i | 0 <= i < |more| - 1 ensures FreshStep(sel, instants[i], instants[i + 1], more[i], more[i + 1]) {
        assert i < |stores| - 1 ==> FreshStep(sel, times[i], times[i + 1], stores[i], stores[i + 1]);
      }
    }
  }

  /** The account that was planned for is refused, and the selection goes on. */
  lemma {:induction false} FreshRefused(
    sel: Selecting, stores: seq<Store>, times: seq<Instant>, now: Instant, start: Store, s: Store, s': Store,
    t: Instant,
    a: string)
    requires FreshRun(sel, stores + [s], times + [t]) && (stores + [s])[0] == start && now <= (times + [t])[0]
    requires Planned(s, sel.request, t, sel.pool, sel.holder) == Select(a)
    requires AcquireRel(Backend.Logged(s, PlanCall), s', sel.pool, a, FamilyFor(s, sel.request), sel.holder,
                        Err(NoEligibleAccount))
    ensures FreshSoFar(sel, stores + [s], times + [t], now, start, s', t)
  {
    hide FreshRun, AcquireRel, Planned;
    assert FreshTurn(sel, t, t, s, s');
  }

  /** The account that was planned for is probed, and the selection goes on. */
  lemma {:induction false} FreshProbed(
    sel: Selecting, stores: seq<Store>, times: seq<Instant>, now: Instant, start: Store, s: Store, s': Store,
    t: Instant,
    p: Instant, a: string)
    requires FreshRun(sel, stores + [s], times + [t]) && (stores + [s])[0] == start && now <= (times + [t])[0]
    requires Planned(s, sel.request, t, sel.pool, sel.holder) == Probe(a) && t <= p
    requires ProbeRound(Backend.Logged(s, PlanCall), s', a, FamilyFor(s, sel.request), t, p, sel.probeHolder)
    ensures FreshSoFar(sel, stores + [s], times + [t], now, start, s', p)
  {
    hide FreshRun, ProbeRound, Planned;
    assert FreshTurn(sel, t, p, s, s');
  }

  /** The account that was planned for is leased. */
  lemma {:induction false} FreshLeased(
    sel: Selecting, stores: seq<Store>, times: seq<Instant>, now: Instant, until: Instant, start: Store, s: Store,
    s': Store, t: Instant, a: string, r: Result<Lease, LeaseError>)
    requires FreshRun(sel, stores + [s], times + [t]) && (stores + [s])[0] == start && now <= (times + [t])[0]
    requires Planned(s, sel.request, t, sel.pool, sel.holder) == Select(a) && t < until && r.Ok?
    requires s.HoldsNothing(sel.holder) ==> r.value.AccountId() == a
    requires AcquireRel(Backend.Logged(s, PlanCall), s', sel.pool, a, FamilyFor(s, sel.request), sel.holder, r)
    ensures Selects(sel, stores + [s], times + [t], now, until, start, s', r)
  {
    hide FreshRun, AcquireRel, Planned, FreshJustifies;
    assert FreshEnd(sel, t, s, s', r);
    FreshEndJustifies(sel, t, s, s', r);
  }

  /** There is nothing to plan for. */
  lemma {:induction false} FreshGivesUp(
    sel: Selecting, stores: seq<Store>, times: seq<Instant>, now: Instant, until: Instant, start: Store, s: Store,
    t: Instant)
    requires FreshRun(sel, stores + [s], times + [t]) && (stores + [s])[0] == start && now <= (times + [t])[0]
    requires t < until
    requires var action := Planned(s, sel.request, t, sel.pool, sel.holder); !action.Select? && !action.Probe?
    ensures Selects(sel, stores + [s], times + [t], now, until, start, Backend.Logged(s, PlanCall),
                    Err(NoEligibleAccount))
  {
    hide FreshRun, Planned, FreshJustifies;
    assert FreshEnd(sel, t, s, Backend.Logged(s, PlanCall), Err(NoEligibleAccount));
    FreshEndJustifies(sel, t, s, Backend.Logged(s, PlanCall), Err(NoEligibleAccount));
  }

  ghost predicate Selected(
    sel: Selecting, now: Instant, until: Instant, s: Store, s': Store, r: Result<Lease, LeaseError>)
  {
    exists stores, times :: Selects(sel, stores, times, now, until, s, s', r)
  }

  /** The most turns of a rotation over `n` listed accounts, the current one among them or not. */
  function TurnBound(n: nat, listed: bool): nat {
    if listed then 3 * n else 3 * n + 1
  }
}
