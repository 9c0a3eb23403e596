/** The account-pool lease manager (`manager.rs`). */
module Manager {
  import opened Basics
  import opened Quota
  import opened Selection
  import opened LeaseStore
  import opened CallLog
  import opened Progress
  import opened ManagerInvariant
  import opened ProactiveSwitch
  import opened Backend
  import opened RotationTurns

  datatype Config = Config(
    defaultPoolId: Option<string>,
    thresholdPercent: nat,
    leaseTtl: int,
    safetyMargin: int,
    minSwitchInterval: int)

  datatype Disposition = Applied | IgnoredAsStale

  lemma {:induction false} SameAccounts(s: Store, s': Store, holder: string, a: string, pool: string, current: string)
    requires ChangesOnly(s, s', holder, a)
    ensures |s'.Rows(pool)| == |s.Rows(pool)|
    ensures Reserve(s', pool, current) == Reserve(s, pool, current)
    ensures s'.families == s.families
  {
    var x, y := Snapshot(s, pool, holder), Snapshot(s', pool, holder);
    assert OnlyChanged(x, y, a);
    assert forall i :: 0 <= i < |x| ==> s.Rows(pool)[i].accountId == x[i].accountId;
    assert forall i :: 0 <= i < |y| ==> s'.Rows(pool)[i].accountId == y[i].accountId;
  }

  lemma {:induction false} SamePlanRequest(s: Store, s': Store, request: Request)
    requires s'.families == s.families
    ensures PlanRequest(s', request) == PlanRequest(s, request) && FamilyFor(s', request) == FamilyFor(s, request)
  {}

  /** What a manager and its backend hold at one moment. */
  datatype View = View(
    store: Store,
    failures: nat,
    active: Option<Lease>,
    nextSequence: int,
    pending: Option<PendingRotation>,
    lastReplaced: Option<string>,
    pressure: Option<Instant>)
  {
    /** The lease is active, with the stored health sequence and no memory of pressure. */
    predicate TakenUp(lease: Lease) {
      active == Some(lease) && nextSequence == store.Health(lease.AccountId()) && pressure.None?
    }

    /** The lease is gone: nothing about it is remembered. */
    predicate Forgotten() {
      active.None? && nextSequence == 0 && pending.None? && lastReplaced.None? && pressure.None?
    }

    /** The active lease is still the one it was, give or take a new expiry. */
    predicate Kept(before: View, lease: Lease) {
      before.active.Some? && SameLease(before.active.value, lease) && nextSequence == before.nextSequence
    }
  }

  class AccountPoolManager {
    const backend: PoolBackend
    const proactive: ProactiveSwitchState
    const config: Config
    const holder: string
    var active: Option<Lease>
    var nextSequence: int
    var pending: Option<PendingRotation>
    var lastReplaced: Option<string>
    /** Applied reports about the active lease since the pending rotation was last taken. */
    ghost var reports: seq<Report>
    ghost var moves: seq<Move>
    ghost var softReleases: seq<SoftRelease>
    ghost var latestObserved: Instant

    ghost function Current(): View
      reads this, backend`store, backend`failures, proactive
    {
      View(backend.store, backend.failures, active, nextSequence, pending, lastReplaced, proactive.pendingAllowedAt)
    }

    ghost predicate CoreOk()
      reads this, backend
    {
      Core(backend.store, holder, active, nextSequence, {}) && Apart()
    }

    /** This manager acts in its own names only, and has not disturbed the other managers at work. */
    ghost predicate Apart()
      reads this, backend
    {
      Undisturbed(backend.store, backend.watched) && holder !in backend.watched && ProbeHolder() !in backend.watched
    }

    /** The pending rotation is the closed form of the reports, and soft pressure is old enough. */
    ghost predicate PendingOk()
      reads this
    {
      && pending == PendingFor(reports)
      && (active.None? ==> reports == [])
      && (pending == Some(SoftProactive) ==>
            active.Some? && latestObserved >= active.value.acquiredAt + config.minSwitchInterval)
    }

    ghost predicate Valid()
      reads this, backend
    {
      && CoreOk()
      && PendingOk()
      && Settled(active, lastReplaced, moves)
      && Timely(softReleases, config.minSwitchInterval)
    }

    constructor (backend: PoolBackend, config: Config, holder: string)
      requires Core(backend.store, holder, None, 0, {}) && backend.watched == map[]
      ensures Valid() && fresh(proactive)
      ensures this.backend == backend && this.config == config && this.holder == holder
      ensures active.None? && pending.None? && lastReplaced.None? && nextSequence == 0
    {
      this.backend := backend;
      this.config := config;
      this.holder := holder;
      proactive := new ProactiveSwitchState();
      active, nextSequence, pending, lastReplaced := None, 0, None, None;
      reports, moves, softReleases, latestObserved := [], [], [], 0;
      new;
      assert forall i: nat :: !UnansweredPressure([], i);
    }

    // ---------- steps shared by the selection loops ----------

    function ProbeHolder(): (r: string)
      ensures r != holder
    {
      assert |holder + ":probe"| != |holder|;
      holder + ":probe"
    }

    /** The lease is active, with the stored health sequence and no memory of pressure. */
    ghost predicate TakenUp(lease: Lease)
      reads this, backend`store, proactive
    {
      && active == Some(lease) && nextSequence == backend.store.Health(lease.AccountId())
      && proactive.pendingAllowedAt.None?
    }

    /** Takes up a granted lease; a failed read leaves the manager without one. */
    method AdoptActiveGrant(grant: Lease) returns (r: Result<Lease, LeaseError>)
      requires CoreOk() && active.None?
      requires backend.store.Mine(holder, grant.AccountId()) && backend.store.leases[grant.AccountId()] == grant
      modifies this`active, this`nextSequence, backend`failures, proactive
      ensures CoreOk() && Blames(old(backend.failures), backend.failures, r.Err?)
      ensures r.Ok? ==> r.value == grant && TakenUp(grant)
      ensures r.Err? ==> r.error == Storage && active.None?
    {
      var sequence := backend.ReadHealthSequence(grant.AccountId());
      if sequence.Err? {
        return Err(Storage);
      }
      CoreDetach(backend.store, holder, active, nextSequence, 0);
      CoreAdopt(backend.store, holder, grant, sequence.value.UnwrapOr(0));
      nextSequence := sequence.value.UnwrapOr(0);
      active := Some(grant);
      proactive.Reset();
      r := Ok(grant);
    }

    method AcquireAndAdopt(pool: string, a: string, family: string) returns (r: Result<Lease, LeaseError>)
      requires CoreOk() && active.None?
      modifies this`active, this`nextSequence, backend`store, backend`failures, proactive
      ensures CoreOk() && Blames(old(backend.failures), backend.failures, r == Err(Storage))
      ensures r.Ok? ==> TakenUp(r.value) && AcquireRel(old(backend.store), backend.store, pool, a, family, holder, r)
      ensures r.Ok? && old(backend.store).HoldsNothing(holder) ==> r.value.AccountId() == a
      ensures r.Err? ==> active.None?
      ensures r == Err(NoEligibleAccount) ==>
        && AcquireRel(old(backend.store), backend.store, pool, a, family, holder, Err(NoEligibleAccount))
        && (old(backend.store).HoldsNothing(holder) ==> backend.store.HoldsNothing(holder))
    {
      var grant := backend.AcquirePreferredLease(pool, a, family, holder);
      CoreDetach(old(backend.store), holder, active, nextSequence, 0);
      CoreAcquire(old(backend.store), backend.store, pool, a, family, holder, grant);
      CoreDetach(backend.store, holder, None, 0, nextSequence);
      if grant.Err? {
        return Err(grant.error);
      }
      r := AdoptActiveGrant(grant.value);
    }

    /** Refreshes the quota under a verification lease and gives the lease back, whatever the refresh said. */
    method VerifyAndRelease(lease: Lease, reservation: Reservation, family: string, now: Instant)
      returns (r: Result<(), LeaseError>)
      requires Core(backend.store, holder, active, nextSequence, {lease.key}) && Apart()
      requires QuietBefore(backend.store, lease.AccountId(), family, Stored(reservation.reservedUntil))
      modifies backend`store, backend`failures
      ensures CoreOk() && Blames(old(backend.failures), backend.failures, r.Err?)
      ensures SameHoldings(old(backend.store), backend.store, holder)
      ensures r.Ok? ==>
        && ChangesOnly(old(backend.store), backend.store, holder, lease.AccountId())
        && QuietBefore(backend.store, lease.AccountId(), family, Stored(reservation.reservedUntil))
      ensures r.Ok? ==> Verified(old(backend.store), backend.store, family, reservation, lease)
      ensures r.Err? ==> r.error == Storage
    {
      ghost var s0 := backend.store;
      var refreshed := backend.RefreshQuotaProbe(lease, reservation, family);
      ghost var s1 := backend.store;
      CoreQuota(s0, s1, holder, active, nextSequence, {lease.key}, RefreshCall(lease.AccountId()));
      var released := backend.ReleaseLease(lease.key, now);
      ghost var s2 := backend.store;
      CoreProbeRelease(s1, s2, holder, active, nextSequence, lease.key, released);
      ProbeReleaseHoldings(s1, s2, holder, lease.key, released);
      HoldingsCompose(s0, s1, s2, holder);
      if refreshed.Err? || released.Err? {
        return Err(Storage);
      }
      ReleaseChangesOnly(s1, s2, holder, lease.key, released);
      QuietKeeps(s1, s2, lease.AccountId(), family, Stored(reservation.reservedUntil));
      ChangesCompose(s0, s1, s2, holder, lease.AccountId());
      assert refreshed.value == () && released == Ok(released.value);
      r := Ok(());
    }

    /** Reserves, leases, refreshes and releases a probe; `Ok` means that the loop plans again. */
    method RunProbe(pool: string, a: string, family: string, ghost planned: Instant, now: Instant)
      returns (r: Result<(), LeaseError>)
      requires CoreOk() && planned <= now
      modifies backend`store, backend`failures
      ensures CoreOk() && Blames(old(backend.failures), backend.failures, r.Err?)
      ensures SameHoldings(old(backend.store), backend.store, holder)
      ensures r.Ok? ==>
        && ChangesOnly(old(backend.store), backend.store, holder, a)
        && QuietBefore(backend.store, a, family, Stored(planned + PROBE_RESERVATION))
      ensures r.Ok? ==> ProbeRound(old(backend.store), backend.store, a, family, planned, now, ProbeHolder())
      ensures r.Err? ==> r.error == Storage
    {
      hide QuietBefore, Stored;
      ghost var s0 := backend.store;
      var reservation := backend.ReserveQuotaProbe(a, family, planned, now, PROBE_RESERVATION);
      ghost var s1 := backend.store;
      CoreQuota(s0, s1, holder, active, nextSequence, {},
        ReservationCall(a, reservation.Ok? && reservation.value.Some?));
      if reservation.Err? {
        return Err(Storage);
      }
      if reservation.value.None? {
        return Ok(());
      }
      var probeHolder := ProbeHolder();
      var lease := backend.AcquireProbeLease(pool, a, reservation.value.value, probeHolder);
      ghost var s2 := backend.store;
      CoreProbeGrant(s1, s2, holder, active, nextSequence, a, probeHolder, lease);
      HoldingsCompose(s0, s1, s2, holder);
      ChangesCompose(s0, s1, s2, holder, a);
      ghost var early, late := Stored(planned + PROBE_RESERVATION), Stored(now + PROBE_RESERVATION);
      QuietKeeps(s1, s2, a, family, early);
      QuietKeeps(s1, s2, a, family, late);
      if lease.Err? {
        if lease.error == NoEligibleAccount {
          return Ok(());
        }
        return Err(lease.error);
      }
      r := VerifyAndRelease(lease.value, reservation.value.value, family, now);
      HoldingsCompose(s0, s2, backend.store, holder);
      if r.Ok? {
        ChangesCompose(s0, s2, backend.store, holder, a);
        StoredLater(planned, now);
        QuietEarlier(backend.store, a, family, late, early);
      }
    }

    /** Gives the active lease back; when the backend reports an error the lease stays active. */
    method ReleaseActiveLeaseAt(now: Instant) returns (r: Result<(), LeaseError>)
      requires CoreOk()
      modifies this`active, this`nextSequence, backend`store, backend`failures, proactive
      ensures CoreOk() && Blames(old(backend.failures), backend.failures, r.Err?)
      ensures backend.store.families == old(backend.store.families)
      ensures forall pool :: Snapshot(backend.store, pool, holder) == old(Snapshot(backend.store, pool, holder))
      ensures r.Ok? ==> active.None? && nextSequence == 0 && proactive.pendingAllowedAt.None?
      ensures r.Ok? && old(active).Some? ==>
        backend.store.HoldsNothing(holder) && GivenBack(old(backend.store), backend.store, false, old(active).value.key)
      ensures old(active).None? ==> r.Ok? && backend.store == old(backend.store)
      ensures r.Err? ==> r.error == Storage && active == old(active) && nextSequence == old(nextSequence)
                         && proactive.pendingAllowedAt == old(proactive.pendingAllowedAt)
    {
      if active.Some? {
        var released := backend.ReleaseLease(active.value.key, now);
        CoreReleaseOwn(old(backend.store), backend.store, holder, active.value, nextSequence, released);
        ReleaseKeepsSnapshots(old(backend.store), backend.store, holder, active.value, released);
        if released.Err? {
          return Err(Storage);
        }
      }
      CoreDetach(backend.store, holder, active, nextSequence, 0);
      active := None;
      nextSequence := 0;
      proactive.Reset();
      r := Ok(());
    }

    // ---------- the selection loops ----------

    /** The potential of a request on the current store. */
    ghost function Left(request: Request, pool: string, now: Instant): nat
      reads this, backend
    {
      Potential(PlanRequest(backend.store, request), now, Snapshot(backend.store, pool, holder))
    }

    /** One plan; the state of the pool is as before, and the action is justified by it. */
    method PlanTurn(request: Request, pool: string, now: Instant) returns (r: Result<(string, Action), LeaseError>)
      requires CoreOk()
      modifies backend`store, backend`failures
      ensures CoreOk() && Blames(old(backend.failures), backend.failures, r.Err?)
      ensures backend.store == Logged(old(backend.store), PlanCall)
      ensures Left(request, pool, now) == old(Left(request, pool, now))
      ensures Snapshot(backend.store, pool, holder) == old(Snapshot(backend.store, pool, holder))
      ensures r.Ok? ==>
        && r.value.0 == FamilyFor(backend.store, request)
        && r.value.1 == Evaluate(PlanRequest(backend.store, request), now, Snapshot(backend.store, pool, holder)).action
        && r.value.1 == Planned(old(backend.store), request, now, pool, holder)
        && Justified(PlanRequest(backend.store, request), now, Snapshot(backend.store, pool, holder), r.value.1)
    {
      hide Core, Undisturbed;
      CoreIsValid(backend.store, holder, active, nextSequence);
      var planned := backend.PlanRuntimeSelection(request, pool, now, holder);
      CorePlan(old(backend.store), holder, active, nextSequence);
      if planned.Err? {
        return Err(Storage);
      }
      ActionWeighs(PlanRequest(backend.store, request), now, Snapshot(backend.store, pool, holder));
      r := Ok((planned.value.0, planned.value.1.action));
    }

    method SelectTurn(
      request: Request, pool: string, ghost now: Instant, a: string)
      returns (r: Result<Lease, LeaseError>)
      requires CoreOk() && active.None?
      requires Weighs(PlanRequest(backend.store, request), now, Snapshot(backend.store, pool, holder), a, 1)
      modifies this`active, this`nextSequence, backend`store, backend`failures, proactive
      ensures CoreOk() && Blames(old(backend.failures), backend.failures, r == Err(Storage))
      ensures r.Ok? ==>
        && TakenUp(r.value)
        && AcquireRel(old(backend.store), backend.store, pool, a, FamilyFor(old(backend.store), request), holder, r)
      ensures r.Ok? && old(backend.store).HoldsNothing(holder) ==> r.value.AccountId() == a
      ensures r.Err? ==> active.None?
      ensures r == Err(NoEligibleAccount) ==>
        && Left(request, pool, now) < old(Left(request, pool, now))
        && (old(backend.store).HoldsNothing(holder) ==> backend.store.HoldsNothing(holder))
        && ChangesOnly(old(backend.store), backend.store, holder, a)
        && OutForGood(backend.store, pool, holder, a)
        && AcquireRel(old(backend.store), backend.store, pool, a, FamilyFor(old(backend.store), request), holder,
                      Err(NoEligibleAccount))
    {
      var family := FamilyFor(backend.store, request);
      r := AcquireAndAdopt(pool, a, family);
      if r == Err(NoEligibleAccount) {
        RefusalUsesUp(old(backend.store), backend.store, pool, holder, PlanRequest(backend.store, request), now, a,
          family);
        RefusedIsOut(old(backend.store), backend.store, pool, holder, PlanRequest(backend.store, request), now, a,
          family);
      }
    }

    /** A probe at `now` that was planned at `planned`; the account is not due again up to `horizon`. */
    method ProbeTurn(
      request: Request, pool: string, ghost planned: Instant, now: Instant, ghost horizon: Instant, a: string)
      returns (r: Result<(), LeaseError>)
      requires CoreOk() && planned <= now && horizon < Stored(planned + PROBE_RESERVATION)
      requires Weighs(PlanRequest(backend.store, request), horizon, Snapshot(backend.store, pool, holder), a, 2)
      modifies backend`store, backend`failures
      ensures CoreOk() && Blames(old(backend.failures), backend.failures, r.Err?)
      ensures old(backend.store).HoldsNothing(holder) ==> backend.store.HoldsNothing(holder)
      ensures r.Err? ==> r.error == Storage
      ensures r.Ok? ==>
        && Left(request, pool, horizon) < old(Left(request, pool, horizon))
        && ChangesOnly(old(backend.store), backend.store, holder, a)
        && NotDue(backend.store, a, FamilyFor(old(backend.store), request), horizon)
      ensures r.Ok? ==>
        ProbeRound(old(backend.store), backend.store, a, FamilyFor(old(backend.store), request), planned, now,
                   ProbeHolder())
    {
      var family := FamilyFor(backend.store, request);
      r := RunProbe(pool, a, family, planned, now);
      HoldingsShrink(old(backend.store), backend.store, holder);
      if r.Ok? {
        ProbeUsesUp(old(backend.store), backend.store, pool, holder, PlanRequest(backend.store, request), horizon, a,
          family);
      }
    }

    /** A reading of the clock not before `after`; the operation has read its last one before `until`. */
    method ReadClock(after: Instant, until: Instant) returns (t: Instant)
      requires after < until
      ensures after <= t < until
    {
      t := *;
      if !(after <= t < until) {
        t := after;
      }
    }

    /**
     Selects, probes and retries until a lease is adopted or nothing is left, in
     at most `2n + 1` turns, for all readings of the clock within the time that
     a probe is reserved for. With a single reading `until` is `now + 1`.
     */
    method AcquireSelectedLease(request: Request, now: Instant, until: Instant)
      returns (r: Result<Lease, LeaseError>, ghost stores: seq<Store>, ghost times: seq<Instant>)
      requires CoreOk() && active.None? && now < until <= Stored(now + PROBE_RESERVATION)
      modifies this`active, this`nextSequence, backend`store, backend`failures, proactive
      ensures CoreOk()
      ensures r.Ok? ==> TakenUp(r.value)
      ensures r.Err? ==> active.None?
      ensures request.poolId.None? ==> r == Err(Storage)
      ensures request.poolId.Some? ==>
        && Blames(old(backend.failures), backend.failures, r == Err(Storage))
        && |stores| <= 2 * old(|backend.store.Rows(request.poolId.value)|) + 1
        && (r != Err(Storage) ==>
              Selects(SelectingFor(request, request.poolId.value), stores, times, now, until, old(backend.store),
                      backend.store, r))
    {
      hide Core, Undisturbed, Potential, Snapshot, Evaluate, Weight, Weighs, Justified, AcquireRel;
      hide FreshRun, FreshEnd, FreshJustifies, ProbeRound, Selects, Planned;
      hide ChangesOnly, NotDue, OutForGood, Stored, FamilyFor;
      stores, times := [], [];
      if request.poolId.None? {
        return Err(Storage), stores, times;
      }
      var pool := request.poolId.value;
      ghost var sel := SelectingFor(request, pool);
      ghost var n := |backend.store.Rows(pool)|;
      ghost var horizon := until - 1;
      var time := now;
      PotentialBound(PlanRequest(backend.store, request), horizon, Snapshot(backend.store, pool, holder));
      while true
        invariant CoreOk() && active.None? && now <= time < until
        invariant |stores| + Left(request, pool, horizon) <= 2 * n
        invariant FreshSoFar(sel, stores, times, now, old(backend.store), backend.store, time)
        invariant backend.failures == old(backend.failures)
        decreases Left(request, pool, horizon)
      {
        ghost var s, earlier, before, past := backend.store, time, stores, times;
        time := ReadClock(time, until);
        SamePlanRequest(s, Logged(s, PlanCall), request);
        FreshExtends(sel, stores, times, now, old(backend.store), s, earlier, time);
        hide FreshSoFar;
        stores, times := stores + [s], times + [time];
        var planned := PlanTurn(request, pool, time);
        if planned.Err? {
          return Err(Storage), stores, times;
        }
        LaterJustified(PlanRequest(backend.store, request), time, horizon, Snapshot(backend.store, pool, holder),
          planned.value.1);
        match planned.value.1 {
          case Select(a) =>
            r := SelectTurn(request, pool, horizon, a);
            if r.Ok? {
              FreshLeased(sel, before, past, now, until, old(backend.store), s, backend.store, time, a, r);
              return r, stores, times;
            }
            if r.error == Storage {
              return r, stores, times;
            }
            FreshRefused(sel, before, past, now, old(backend.store), s, backend.store, time, a);
          case Probe(a) =>
            var probing := ReadClock(time, until);
            StoredLater(now, time);
            var probed := ProbeTurn(request, pool, time, probing, horizon, a);
            if probed.Err? {
              return Err(probed.error), stores, times;
            }
            FreshProbed(sel, before, past, now, old(backend.store), s, backend.store, time, probing, a);
            time := probing;
          case _ =>
            FreshGivesUp(sel, before, past, now, until, old(backend.store), s, time);
            return Err(NoEligibleAccount), stores, times;
        }
      }
    }

    /** A selection by this manager. */
    function SelectingFor(request: Request, pool: string): Selecting {
      Selecting(request, pool, holder, ProbeHolder())
    }

    ghost predicate SoftIsTimely(request: Request, now: Instant, lease: Lease)
      reads this
    {
      request.intent.SoftRotation? && now >= latestObserved ==> now - lease.acquiredAt >= config.minSwitchInterval
    }

    /** The first release of a rotation; a soft one is put on record. */
    method ReleaseForRotation(request: Request, now: Instant, lease: Lease) returns (r: Result<(), LeaseError>)
      requires CoreOk() && active == Some(lease)
      requires Timely(softReleases, config.minSwitchInterval) && SoftIsTimely(request, now, lease)
      modifies this`active, this`nextSequence, this`softReleases, backend`store, backend`failures, proactive
      ensures CoreOk() && Timely(softReleases, config.minSwitchInterval)
      ensures Blames(old(backend.failures), backend.failures, r.Err?)
      ensures backend.store.families == old(backend.store.families)
      ensures forall pool :: Snapshot(backend.store, pool, holder) == old(Snapshot(backend.store, pool, holder))
      ensures r.Ok? ==> active.None? && backend.store.HoldsNothing(holder)
      ensures r.Ok? ==> GivenBack(old(backend.store), backend.store, false, lease.key)
      ensures r.Err? ==> active == Some(lease) && r.error == Storage
      ensures softReleases == old(softReleases) +
        (if request.intent.SoftRotation? then [SoftRelease(lease.acquiredAt, now, now >= latestObserved)] else [])
    {
      hide Core, Undisturbed, Snapshot, GivenBack;
      if request.intent.SoftRotation? {
        softReleases := softReleases + [SoftRelease(lease.acquiredAt, now, now >= latestObserved)];
      }
      r := ReleaseActiveLeaseAt(now);
      if r.Err? {
        r := Err(Storage);
      }
    }

    /** What a rotation away from `lease` may end with. */
    ghost predicate RotationResult(request: Request, lease: Lease, r: Result<Lease, LeaseError>)
      reads this
    {
      match r
      case Ok(next) =>
        && active == Some(next)
        && (request.intent.HardFailover? ==> next.AccountId() != lease.AccountId())
        && (request.intent.SoftRotation? ==>
              next.AccountId() == lease.AccountId() || Some(next.AccountId()) != request.justReplaced)
      case Err(e) =>
        (active.None? || active == Some(lease)) && (e == NoEligibleAccount ==> active.None?)
    }

    /** Between two turns of a rotation: the lease is still active, or it is released and nothing replaced it. */
    ghost predicate Rotating(released: bool, lease: Lease)
      reads this, backend
    {
      && CoreOk() && Timely(softReleases, config.minSwitchInterval)
      && if released then active.None? && backend.store.HoldsNothing(holder) else active == Some(lease)
    }

    /** The rotation that a request and a lease stand for. */
    function RotationOf(request: Request, lease: Lease, now: Instant): Rotation {
      Rotation(request, lease, holder, ProbeHolder(), now)
    }

    /** What the rest of a rotation may still cost while it plans for the current account. */
    ghost function LoadOf(request: Request, released: bool, pool: string, now: Instant): nat
      reads this, backend
    {
      Load(released, PlanRequest(backend.store, request), PlanRequest(backend.store, RotationRequest(request, true)),
           now, Snapshot(backend.store, pool, holder))
    }

    /** The pool of the rotation lists as many accounts as in `s`, with the same families. */
    ghost predicate SamePool(s: Store, pool: string, current: string)
      reads backend
    {
      && backend.store.families == s.families
      && |backend.store.Rows(pool)| == |s.Rows(pool)|
      && Reserve(backend.store, pool, current) == Reserve(s, pool, current)
    }

    method RotationPlan(request: Request, exhausted: bool, now: Instant, lease: Lease, released: bool)
      returns (r: Result<(string, Action), LeaseError>)
      requires Rotating(released, lease)
      modifies backend`store, backend`failures
      ensures Rotating(released, lease) && Blames(old(backend.failures), backend.failures, r.Err?)
      ensures SamePool(old(backend.store), lease.poolId, lease.AccountId())
      ensures Left(RotationRequest(request, exhausted), lease.poolId, now)
              == old(Left(RotationRequest(request, exhausted), lease.poolId, now))
      ensures LoadOf(request, released, lease.poolId, now) == old(LoadOf(request, released, lease.poolId, now))
      ensures OneFamily(backend.store, request) == old(OneFamily(backend.store, request))
      ensures backend.store == Logged(old(backend.store), PlanCall)
      ensures r.Ok? ==>
        && r.value.0 == FamilyFor(backend.store, RotationRequest(request, exhausted))
        && r.value.1 == Planned(old(backend.store), RotationRequest(request, exhausted), now, lease.poolId, holder)
      ensures r.Ok? ==>
        Justified(PlanRequest(backend.store, RotationRequest(request, exhausted)), now,
                  Snapshot(backend.store, lease.poolId, holder), r.value.1)
    {
      hide Core, Undisturbed, Timely, Potential, Load, Lists, Weighs, Evaluate, Snapshot, Justified, Planned;
      r := PlanTurn(RotationRequest(request, exhausted), lease.poolId, now);
    }

    method RotationSelect(request: Request, exhausted: bool, now: Instant, lease: Lease, released: bool, a: string)
      returns (r: Result<Lease, LeaseError>)
      requires Rotating(released, lease) && SoftIsTimely(request, now, lease)
      requires request.intent.SoftRotation? || request.intent.HardFailover?
      requires request.current == Some(lease.AccountId()) && (exhausted ==> request.intent.SoftRotation?)
      requires Weighs(PlanRequest(backend.store, RotationRequest(request, exhausted)), now,
                      Snapshot(backend.store, lease.poolId, holder), a, 1)
      modifies this`active, this`nextSequence, this`softReleases, backend`store, backend`failures, proactive
      ensures Blames(old(backend.failures), backend.failures, r == Err(Storage))
      ensures r.Ok? ==> TakenUp(r.value) && r.value.AccountId() == a
      ensures r != Err(Storage) ==>
        exists free: Store ::
          && GivenBack(old(backend.store), free, released, lease.key)
          && AcquireRel(free, backend.store, lease.poolId, a,
                        FamilyFor(old(backend.store), RotationRequest(request, exhausted)), holder, r)
      ensures r != Err(NoEligibleAccount) ==>
        CoreOk() && Timely(softReleases, config.minSwitchInterval) && RotationResult(request, lease, r)
      ensures r == Err(NoEligibleAccount) ==>
        && Rotating(true, lease)
        && SamePool(old(backend.store), lease.poolId, lease.AccountId())
        && Left(RotationRequest(request, exhausted), lease.poolId, now)
           < old(Left(RotationRequest(request, exhausted), lease.poolId, now))
        && (!exhausted ==> LoadOf(request, true, lease.poolId, now) < old(LoadOf(request, released, lease.poolId, now)))
    {
      hide Core, Undisturbed, Timely, Potential, Snapshot, Evaluate, AcquireRel, ReleaseRel, Load, Weighs, Lists;
      ghost var req := RotationRequest(request, exhausted);
      OpenAvoids(PlanRequest(backend.store, req), now, Snapshot(backend.store, lease.poolId, holder), a);
      if !released {
        var given := ReleaseForRotation(request, now, lease);
        if given.Err? {
          return Err(Storage);
        }
      }
      ghost var s1 := backend.store;
      assert GivenBack(old(backend.store), s1, released, lease.key);
      CoreIsValid(s1, holder, active, nextSequence);
      SameSnapshot(old(backend.store), s1, holder, lease.poolId, lease.AccountId());
      r := SelectTurn(RotationRequest(request, exhausted), lease.poolId, now, a);
      if r.Err? {
        assert r.error.NoEligibleAccount? || r.error.Storage?;
      }
      if r == Err(NoEligibleAccount) {
        SameAccounts(s1, backend.store, holder, a, lease.poolId, lease.AccountId());
        if !exhausted {
          RefusalLowersLoad(s1, backend.store, lease.poolId, holder, PlanRequest(s1, request),
                            PlanRequest(s1, RotationRequest(request, true)), now, a, released);
        }
      }
    }

    method RotationProbe(request: Request, exhausted: bool, now: Instant, lease: Lease, released: bool, a: string)
      returns (r: Result<(), LeaseError>)
      requires Rotating(released, lease) && (request.intent.SoftRotation? || request.intent.HardFailover?)
      requires Weighs(PlanRequest(backend.store, RotationRequest(request, exhausted)), now,
                      Snapshot(backend.store, lease.poolId, holder), a, 2)
      modifies backend`store, backend`failures
      ensures Rotating(released, lease) && Blames(old(backend.failures), backend.failures, r.Err?)
      ensures r.Err? ==> r.error == Storage
      ensures r.Ok? ==>
        && SamePool(old(backend.store), lease.poolId, lease.AccountId())
        && Left(RotationRequest(request, exhausted), lease.poolId, now)
           < old(Left(RotationRequest(request, exhausted), lease.poolId, now))
        && (!exhausted ==>
              LoadOf(request, released, lease.poolId, now) < old(LoadOf(request, released, lease.poolId, now)))
        && ProbeRound(old(backend.store), backend.store, a,
                      FamilyFor(old(backend.store), RotationRequest(request, exhausted)), now, now, ProbeHolder())
    {
      CoreIsValid(backend.store, holder, active, nextSequence);
      hide Core, Undisturbed, Timely, Potential, Snapshot, Evaluate, Load, ProbeRound, Lists, NotDue, Weighs, Stored;
      hide FamilyFor, ChangesOnly, Reserve;
      ghost var s := backend.store;
      ghost var first, later := PlanRequest(s, request), PlanRequest(s, RotationRequest(request, true));
      r := ProbeTurn(RotationRequest(request, exhausted), lease.poolId, now, now, now, a);
      if r.Ok? {
        SameAccounts(s, backend.store, holder, a, lease.poolId, lease.AccountId());
        SamePlanRequest(s, backend.store, request);
        SamePlanRequest(s, backend.store, RotationRequest(request, true));
        if !exhausted {
          ProbeLowersLoad(s, backend.store, lease.poolId, holder, first, later, now, a, FamilyFor(s, request),
            released);
        }
      }
    }

    /** The one attempt of a soft rotation to return to the account it left. */
    method RotationReturn(
      request: Request, now: Instant, lease: Lease, family: string)
      returns (r: Result<Lease, LeaseError>)
      requires Rotating(true, lease) && request.intent.SoftRotation?
      requires request.current == Some(lease.AccountId())
      requires Left(request, lease.poolId, now) == 0
      modifies this`active, this`nextSequence, backend`store, backend`failures, proactive
      ensures Blames(old(backend.failures), backend.failures, r == Err(Storage))
      ensures r.Ok? ==>
        && TakenUp(r.value) && r.value.AccountId() == lease.AccountId()
        && AcquireRel(old(backend.store), backend.store, lease.poolId, lease.AccountId(), family, holder, r)
      ensures r != Err(NoEligibleAccount) ==>
        CoreOk() && Timely(softReleases, config.minSwitchInterval) && RotationResult(request, lease, r)
      ensures r == Err(NoEligibleAccount) ==>
        && Rotating(true, lease)
        && SamePool(old(backend.store), lease.poolId, lease.AccountId())
        && AcquireRel(old(backend.store), backend.store, lease.poolId, lease.AccountId(), family, holder,
                      Err(NoEligibleAccount))
        && Left(RotationRequest(request, true), lease.poolId, now) + 1
           <= old(LoadOf(request, true, lease.poolId, now)) + Reserve(backend.store, lease.poolId, lease.AccountId())
        && (old(OneFamily(backend.store, request)) ==>
              Left(RotationRequest(request, true), lease.poolId, now)
              <= Reserve(backend.store, lease.poolId, lease.AccountId()))
    {
      var current, pool := lease.AccountId(), lease.poolId;
      ghost var s, req := backend.store, RotationRequest(request, true);
      r := AcquireAndAdopt(pool, current, family);
      if r == Err(NoEligibleAccount) {
        SameAccounts(s, backend.store, holder, current, pool, current);
        ReturnKeepsLoad(s, backend.store, pool, holder, PlanRequest(s, request), PlanRequest(s, req), now, current);
        if OneFamily(s, request) {
          ReturnRefused(s, backend.store, pool, holder, PlanRequest(s, request), PlanRequest(s, req), now, current);
        }
      }
    }

    /** No candidate is left: stay, return once, or give up; `again` asks for another plan. */
    method RotationNoCandidate(
      request: Request, exhausted: bool, now: Instant, lease: Lease, released: bool, family: string)
      returns (r: Result<Lease, LeaseError>, again: bool)
      requires Rotating(released, lease)
      requires request.intent.SoftRotation? || request.intent.HardFailover?
      requires exhausted ==> released
      requires request.current == Some(lease.AccountId())
      requires !exhausted ==> Left(request, lease.poolId, now) == 0
      modifies this`active, this`nextSequence, backend`store, backend`failures, proactive
      ensures Blames(old(backend.failures), backend.failures, !again && r == Err(Storage))
      ensures !again && r != Err(Storage) ==>
        WithoutCandidate(RotationOf(request, lease, now), released, exhausted, family, old(backend.store),
                         backend.store, r)
      ensures !again && r.Ok? && released ==> TakenUp(r.value)
      ensures !again && r.Ok? && !released ==>
        nextSequence == old(nextSequence) && proactive.pendingAllowedAt == old(proactive.pendingAllowedAt)
      ensures !again ==> CoreOk() && Timely(softReleases, config.minSwitchInterval) && RotationResult(request, lease, r)
      ensures again ==>
        && released && !exhausted && request.intent.SoftRotation? && Rotating(true, lease)
        && AcquireRel(old(backend.store), backend.store, lease.poolId, lease.AccountId(), family, holder,
                      Err(NoEligibleAccount))
        && SamePool(old(backend.store), lease.poolId, lease.AccountId())
        && Left(RotationRequest(request, true), lease.poolId, now) + 1
           <= old(LoadOf(request, true, lease.poolId, now)) + Reserve(backend.store, lease.poolId, lease.AccountId())
        && (old(OneFamily(backend.store, request)) ==>
              Left(RotationRequest(request, true), lease.poolId, now)
              <= Reserve(backend.store, lease.poolId, lease.AccountId()))
    {
      if request.intent.SoftRotation? {
        if !released {
          return Ok(lease), false;
        }
        if exhausted {
          return Err(NoEligibleAccount), false;
        }
        r := RotationReturn(request, now, lease, family);
        return r, r == Err(NoEligibleAccount);
      }
      var given := ReleaseActiveLeaseAt(now);
      return Err(if given.Err? then Storage else NoEligibleAccount), false;
    }

    /** How one turn that did not finish the rotation has moved it forward, from `left` turns and a load before it. */
    ghost predicate Progressed(
      request: Request, exhausted: bool, exhausted': bool, released': bool, now: Instant, lease: Lease, left: nat,
      load: nat, oneFamily: bool)
      reads this, backend
    {
      var left' := Left(RotationRequest(request, exhausted'), lease.poolId, now);
      if exhausted' == exhausted
      then left' < left && (!exhausted ==> LoadOf(request, released', lease.poolId, now) < load)
      else
        && !exhausted && left' + 1 <= load + Reserve(backend.store, lease.poolId, lease.AccountId())
        && (oneFamily ==> left' <= Reserve(backend.store, lease.poolId, lease.AccountId()))
    }

    /** One turn: plan, then act on the plan. `r` is the result when the rotation is over. */
    method RotationTurn(request: Request, exhausted: bool, now: Instant, lease: Lease, released: bool)
      returns (r: Option<Result<Lease, LeaseError>>, released': bool, exhausted': bool)
      requires Rotating(released, lease) && SoftIsTimely(request, now, lease)
      requires request.intent.SoftRotation? || request.intent.HardFailover?
      requires exhausted ==> released && request.intent.SoftRotation?
      requires request.current == Some(lease.AccountId())
      modifies this`active, this`nextSequence, this`softReleases, backend`store, backend`failures, proactive
      ensures Blames(old(backend.failures), backend.failures, r == Some(Err(Storage)))
      ensures r.Some? && r.value != Err(Storage) ==>
        LastTurn(RotationOf(request, lease, now), old(Stage(backend.store, released, exhausted)), backend.store,
                 r.value)
      ensures r.Some? && r.value.Ok? ==>
        || TakenUp(r.value.value)
        || (!released && r.value.value == lease && nextSequence == old(nextSequence)
            && proactive.pendingAllowedAt == old(proactive.pendingAllowedAt))
      ensures released ==> released'
      ensures r.None? && !released' ==>
        nextSequence == old(nextSequence) && proactive.pendingAllowedAt == old(proactive.pendingAllowedAt)
      ensures r.Some? ==>
        CoreOk() && Timely(softReleases, config.minSwitchInterval) && RotationResult(request, lease, r.value)
      ensures r.None? ==>
        && Rotating(released', lease) && SamePool(old(backend.store), lease.poolId, lease.AccountId())
        && (exhausted' ==> released' && request.intent.SoftRotation?)
        && Progressed(request, exhausted, exhausted', released', now, lease,
                      old(Left(RotationRequest(request, exhausted), lease.poolId, now)),
                      old(LoadOf(request, released, lease.poolId, now)), old(OneFamily(backend.store, request)))
      ensures r.None? ==>
        Turn(RotationOf(request, lease, now), old(Stage(backend.store, released, exhausted)),
             Stage(backend.store, released', exhausted'))
    {
      hide Core, Undisturbed, Timely, Potential, Snapshot, Evaluate, ProbeRound, AcquireRel, Load, GivenBack;
      hide Turn, LastTurn, Planned, Weighs, ReleaseRel;
      released', exhausted' := released, exhausted;
      ghost var rot, x := RotationOf(request, lease, now), Stage(backend.store, released, exhausted);
      var planned := RotationPlan(request, exhausted, now, lease, released);
      if planned.Err? {
        return Some(Err(Storage)), released', exhausted';
      }
      match planned.value.1 {
        case Select(a) =>
          var selected := RotationSelect(request, exhausted, now, lease, released, a);
          r := if selected != Err(NoEligibleAccount) then Some(selected) else None;
          released' := true;
          if selected != Err(Storage) {
            ghost var free: Store :|
              && GivenBack(Logged(x.store, PlanCall), free, released, lease.key)
              && AcquireRel(free, backend.store, lease.poolId, a, FamilyAt(rot, x), holder, selected);
            SelectedTurn(rot, x, free, backend.store, a, selected);
          }
        case Probe(a) =>
          var probed := RotationProbe(request, exhausted, now, lease, released, a);
          r := if probed.Err? then Some(Err(probed.error)) else None;
          if probed.Ok? {
            ProbedTurn(rot, x, backend.store, a);
          }
        case _ =>
          var ended, again := RotationNoCandidate(request, exhausted, now, lease, released, planned.value.0);
          r := if again then None else Some(ended);
          if again {
            released', exhausted' := true, true;
            ReturnRefusedTurn(rot, x, backend.store);
          } else if ended != Err(Storage) {
            NothingLeftTurn(rot, x, backend.store, ended);
          }
      }
    }

    /**
     Moves off `lease`: probes and selects like a fresh acquisition, but gives
     the lease up only once a candidate was found, and a soft rotation that
     then finds nobody tries once to return to its own account.
     */
    method AcquireSelectedRotationLease(request: Request, now: Instant, lease: Lease)
      returns (r: Result<Lease, LeaseError>, ghost stages: seq<Stage>)
      requires CoreOk() && active == Some(lease)
      requires request.intent.SoftRotation? || request.intent.HardFailover?
      requires request.current == Some(lease.AccountId()) && request.poolId == Some(lease.poolId)
      requires Timely(softReleases, config.minSwitchInterval) && SoftIsTimely(request, now, lease)
      modifies this`active, this`nextSequence, this`softReleases, backend`store, backend`failures, proactive
      ensures CoreOk() && Timely(softReleases, config.minSwitchInterval)
      ensures RotationResult(request, lease, r) && Blames(old(backend.failures), backend.failures, r == Err(Storage))
      ensures r != Err(Storage) ==>
        Rotates(RotationOf(request, lease, now), stages, old(backend.store), backend.store, r)
      ensures r.Ok? ==>
        || TakenUp(r.value)
        || (r.value == lease && nextSequence == old(nextSequence)
            && proactive.pendingAllowedAt == old(proactive.pendingAllowedAt))
      ensures |stages| <= old(LoadOf(request, false, lease.poolId, now))
                       + old(Reserve(backend.store, lease.poolId, lease.AccountId())) + 1
      ensures |stages| <= TurnBound(old(|backend.store.Rows(lease.poolId)|),
                                 old(Lists(backend.store.Rows(lease.poolId), lease.AccountId())))
      ensures old(OneFamily(backend.store, request)) ==> |stages| <= 2 * old(|backend.store.Rows(lease.poolId)|) + 2
      ensures request.intent.HardFailover? ==> |stages| <= 2 * old(|backend.store.Rows(lease.poolId)|) + 1
    {
      hide Core, Undisturbed, Timely, Potential, Snapshot, Evaluate, Load, Lists, Turn, RotationTurns.Run, LastTurn,
        Rotates;
      stages := [];
      ghost var rot := RotationOf(request, lease, now);
      var released, exhausted := false, false;
      ghost var start := backend.store;
      ghost var n := |start.Rows(lease.poolId)|;
      ghost var budget := LoadOf(request, false, lease.poolId, now);
      CoreIsValid(start, holder, active, nextSequence);
      CurrentExcluded(start, lease.poolId, holder, PlanRequest(start, request), now, lease.AccountId());
      LoadStarts(start, lease.poolId, holder, PlanRequest(start, request),
                 PlanRequest(start, RotationRequest(request, true)), now, lease.AccountId());
      while true
        invariant Rotating(released, lease) && SamePool(start, lease.poolId, lease.AccountId())
        invariant exhausted ==> released && request.intent.SoftRotation?
        invariant RotatesSoFar(rot, stages, old(backend.store), Stage(backend.store, released, exhausted))
        invariant backend.failures == old(backend.failures)
        invariant !released ==>
          nextSequence == old(nextSequence) && proactive.pendingAllowedAt == old(proactive.pendingAllowedAt)
        invariant WithinBudget(|stages|, exhausted, OneFamily(start, request),
                               Left(RotationRequest(request, exhausted), lease.poolId, now),
                               LoadOf(request, released, lease.poolId, now),
                               Reserve(start, lease.poolId, lease.AccountId()), n, budget)
        decreases if exhausted then 0 else 1, Left(RotationRequest(request, exhausted), lease.poolId, now)
      {
        ghost var x := Stage(backend.store, released, exhausted);
        ghost var before := stages;
        RotatesOn(rot, stages, old(backend.store), x);
        hide RotatesSoFar;
        stages := stages + [x];
        var ended;
        ended, released, exhausted := RotationTurn(request, exhausted, now, lease, released);
        if ended.Some? {
          if ended.value != Err(Storage) {
            RotationDone(rot, before, old(backend.store), x, backend.store, ended.value);
          }
          return ended.value, stages;
        }
        RotatesFurther(rot, before, old(backend.store), x, Stage(backend.store, released, exhausted));
      }
    }

    // ---------- rotation before a turn ----------

    /**
     The rotation that a pending one asks for: off the active account, and soft ones not
     back to where they came from.
     */
    function RotationFor(
      kind: PendingRotation, lease: Lease, last: Option<string>, now: Instant): (rotation: Rotation)
      ensures rotation.request.family.None? && rotation.request.preferred.None?
      ensures rotation.request.reservedProbeTarget.None?
      ensures rotation.request.current == Some(lease.AccountId()) && rotation.request.justReplaced == last
      ensures rotation.request.poolId == Some(lease.poolId) && rotation.lease == lease && rotation.now == now
      ensures rotation.request.intent == HardFailover <==> kind == HardFailure
      ensures rotation.request.intent == SoftRotation <==> kind == SoftProactive
    {
      Rotation(
        Request(Some(lease.poolId), if kind == HardFailure then HardFailover else SoftRotation, None, None,
                Some(lease.AccountId()), last, None, config.thresholdPercent),
        lease, holder, ProbeHolder(), now)
    }

    /** Takes the pending rotation and acts on it; a failure loses it. */
    method TryRotateActiveLease(now: Instant) returns (r: Result<Option<Lease>, LeaseError>)
      requires Valid()
      modifies this`active, this`nextSequence, this`pending, this`lastReplaced, this`reports, this`moves
      modifies this`softReleases, backend`store, backend`failures, proactive
      ensures Valid() && pending.None? && (old(pending).Some? ==> old(active).Some?)
      ensures old(pending).None? ==>
        && r == Ok(None) && active == old(active) && nextSequence == old(nextSequence)
        && lastReplaced == old(lastReplaced) && reports == old(reports) && moves == old(moves)
        && softReleases == old(softReleases) && backend.store == old(backend.store)
        && proactive.pendingAllowedAt == old(proactive.pendingAllowedAt)
      ensures Blames(old(backend.failures), backend.failures, r.Err? && r.error == Storage)
      ensures old(pending).Some? && r.Ok? ==> r.value.Some? && active == r.value
      ensures old(pending).Some? && r != Err(Storage) ==>
        Rotated(RotationFor(old(pending).value, old(active).value, old(lastReplaced), now), old(backend.store),
                backend.store, if r.Ok? then Ok(r.value.value) else Err(r.error))
      ensures old(pending).Some? && r.Ok? ==>
        || TakenUp(r.value.value)
        || (r.value == old(active) && nextSequence == old(nextSequence)
            && proactive.pendingAllowedAt == old(proactive.pendingAllowedAt))
      ensures old(pending).Some? && r.Err? ==>
        lastReplaced == old(lastReplaced) && moves == old(moves) + [FailedRotation]
      ensures old(pending) == Some(HardFailure) && r.Ok? ==>
        && active.value.AccountId() != old(active).value.AccountId()
        && lastReplaced.None? && moves == old(moves) + [HardMove]
      ensures old(pending) == Some(SoftProactive) && r.Ok? ==>
        var from, to := old(active).value.AccountId(), active.value.AccountId();
        if to == from then lastReplaced == old(lastReplaced) && moves == old(moves)
        else && Some(to) != old(lastReplaced)
             && lastReplaced == Some(from) && moves == old(moves) + [SoftMove(from, to)]
    {
      hide Core, Timely, Undisturbed, Load, Lists, Potential, Snapshot, FamilyFor, Evaluate, Rotates, OneFamily,
        Reserve;
      if pending.None? {
        return Ok(None);
      }
      var kind := pending.value;
      assert forall i: nat :: !UnansweredPressure([], i);
      assert active.Some?;
      var lease := active.value;
      pending := None;
      reports := [];
      ghost var stages;
      var rotated;
      rotated, stages := AcquireSelectedRotationLease(RotationFor(kind, lease, lastReplaced, now).request, now, lease);
      if rotated.Err? {
        moves := moves + [FailedRotation];
        SettledOtherMove(active, lastReplaced, old(moves), FailedRotation);
        return Err(rotated.error);
      }
      var next := rotated.value;
      if kind == HardFailure {
        lastReplaced := None;
        moves := moves + [HardMove];
        SettledOtherMove(active, lastReplaced, old(moves), HardMove);
      }
      if kind == SoftProactive && next.AccountId() != lease.AccountId() {
        SettledSoftMove(lease, next, lastReplaced, moves);
        lastReplaced := Some(lease.AccountId());
        moves := moves + [SoftMove(lease.AccountId(), next.AccountId())];
      }
      r := Ok(Some(next));
    }

    // ---------- renewal, rehydration and the two entry points ----------

    /** The lease is gone: nothing about it is remembered. */
    ghost predicate Forgotten()
      reads this, proactive
    {
      active.None? && nextSequence == 0 && pending.None? && lastReplaced.None? && reports == []
      && proactive.pendingAllowedAt.None?
    }

    /** Renews a lease about to expire; `None` means that the lease turned out to be missing. */
    method TryRenewActiveLease(now: Instant) returns (r: Result<Option<Lease>, LeaseError>)
      requires Valid() && active.Some? && pending.None?
      modifies this`active, this`nextSequence, this`pending, this`lastReplaced, this`reports, this`moves
      modifies backend`store, backend`failures, proactive
      ensures Valid() && pending.None?
      ensures old(active).value.expiresAt - now > config.safetyMargin ==>
        r == Ok(old(active)) && active == old(active) && backend.store == old(backend.store)
      ensures old(active).value.expiresAt - now <= config.safetyMargin ==>
        Renews(now, old(active).value, old(backend.store), backend.store, r)
      ensures Blames(old(backend.failures), backend.failures, r.Err?)
      ensures r.Ok? && r.value.Some? ==>
        && active == r.value && SameLease(old(active).value, r.value.value)
        && nextSequence == old(nextSequence) && lastReplaced == old(lastReplaced) && moves == old(moves)
        && reports == old(reports) && proactive.pendingAllowedAt == old(proactive.pendingAllowedAt)
      ensures r == Ok(None) ==> Forgotten() && backend.store.HoldsNothing(holder) && moves == old(moves) + [Detached]
      ensures r.Err? ==> active == old(active) && nextSequence == old(nextSequence)
                         && lastReplaced == old(lastReplaced) && moves == old(moves) && reports == old(reports)
                         && proactive.pendingAllowedAt == old(proactive.pendingAllowedAt)
    {
      var lease := active.value;
      if lease.expiresAt - now > config.safetyMargin {
        return Ok(Some(lease));
      }
      r := RenewOrForget(now);
    }

    /** The outcome of renewing `lease`: it is prolonged, or it turned out to be missing. */
    ghost predicate Renews(now: Instant, lease: Lease, s: Store, s': Store, r: Result<Option<Lease>, LeaseError>) {
      match r
      case Ok(Some(renewed)) => RenewRel(s, s', lease.key, now + config.leaseTtl, Ok(Renewed(renewed)))
      case Ok(None) => RenewRel(s, s', lease.key, now + config.leaseTtl, Ok(Missing))
      case Err(e) => e == Storage
    }

    /** One renewal of the active lease, shared by the turn path and the heartbeat. */
    method RenewOrForget(now: Instant) returns (r: Result<Option<Lease>, LeaseError>)
      requires Valid() && active.Some?
      modifies this`active, this`nextSequence, this`pending, this`lastReplaced, this`reports, this`moves
      modifies backend`store, backend`failures, proactive
      ensures Valid() && Renews(now, old(active).value, old(backend.store), backend.store, r)
      ensures Blames(old(backend.failures), backend.failures, r.Err?)
      ensures r.Ok? && r.value.Some? ==>
        && active == r.value && SameLease(old(active).value, r.value.value)
        && nextSequence == old(nextSequence) && lastReplaced == old(lastReplaced) && moves == old(moves)
        && reports == old(reports) && pending == old(pending)
        && proactive.pendingAllowedAt == old(proactive.pendingAllowedAt)
      ensures r == Ok(None) ==> Forgotten() && backend.store.HoldsNothing(holder) && moves == old(moves) + [Detached]
      ensures r.Err? ==> active == old(active) && nextSequence == old(nextSequence) && pending == old(pending)
                         && lastReplaced == old(lastReplaced) && moves == old(moves) && reports == old(reports)
                         && proactive.pendingAllowedAt == old(proactive.pendingAllowedAt)
    {
      hide Core, Timely, Undisturbed, RenewRel, SameLease;
      var lease := active.value;
      CoreIsValid(backend.store, holder, active, nextSequence);
      var renewal := backend.RenewLease(lease.key, now, config.leaseTtl);
      CoreRenew(old(backend.store), backend.store, holder, lease, nextSequence, now + config.leaseTtl, renewal);
      match renewal {
        case Err(_) => r := Err(Storage);
        case Ok(Renewed(record)) =>
          active := Some(record);
          r := Ok(active);
        case Ok(Missing) =>
          CoreDetach(backend.store, holder, active, nextSequence, 0);
          active, nextSequence, pending, lastReplaced := None, 0, None, None;
          proactive.Reset();
          reports := [];
          moves := moves + [Detached];
          assert forall i: nat :: !UnansweredPressure([], i);
          SettledOtherMove(None, None, old(moves), Detached);
          r := Ok(None);
      }
    }

    /** Takes up a lease the holder still owns, when there is one. */
    method TryRehydrateHolderLease() returns (r: Result<Option<Lease>, LeaseError>)
      requires Valid() && active.None?
      modifies this`active, this`nextSequence, backend`store, backend`failures, proactive
      ensures Valid() && Blames(old(backend.failures), backend.failures, r.Err?)
      ensures r.Ok? && r.value.Some? ==> TakenUp(r.value.value)
      ensures r.Ok? && r.value.Some? ==>
        && active == r.value && backend.store == old(backend.store)
        && old(backend.store).Mine(holder, r.value.value.AccountId())
        && r.value.value == old(backend.store).leases[r.value.value.AccountId()]
      ensures r == Ok(None) ==>
        active.None? && backend.store == old(backend.store) && backend.store.HoldsNothing(holder)
      ensures r.Err? ==> r.error == Storage && active.None?
    {
      assert forall i: nat :: !UnansweredPressure([], i);
      var held := backend.ReadActiveHolderLease(holder);
      CoreDetach(old(backend.store), holder, active, nextSequence, 0);
      CoreReadHolder(old(backend.store), backend.store, holder, held);
      CoreDetach(backend.store, holder, None, 0, nextSequence);
      if held.Err? {
        return Err(Storage);
      }
      if held.value.None? {
        return Ok(None);
      }
      var adopted := AdoptActiveGrant(held.value.value);
      if adopted.Err? {
        return Err(adopted.error);
      }
      SettledAttach(adopted.value, lastReplaced, moves);
      r := Ok(Some(adopted.value));
    }

    method AcquireFresh(request: Request, now: Instant, until: Instant) returns (r: Result<Lease, LeaseError>)
      requires Valid() && active.None? && now < until <= Stored(now + PROBE_RESERVATION)
      modifies this`active, this`nextSequence, backend`store, backend`failures, proactive
      ensures Valid()
      ensures r.Ok? ==> TakenUp(r.value)
      ensures request.poolId.Some? ==>
        && Blames(old(backend.failures), backend.failures, r == Err(Storage))
        && (r != Err(Storage) ==>
              Selected(SelectingFor(request, request.poolId.value), now, until, old(backend.store), backend.store, r))
      ensures r.Err? ==> active.None?
    {
      assert forall i: nat :: !UnansweredPressure([], i);
      ghost var stores, times;
      r, stores, times := AcquireSelectedLease(request, now, until);
      if r.Ok? {
        SettledAttach(r.value, lastReplaced, moves);
      }
    }

    method ResolvePool(requested: Option<string>) returns (r: Result<string, LeaseError>)
      modifies backend`failures
      ensures backend.failures >= old(backend.failures)
      ensures requested.Some? ==> r == Ok(requested.value) && backend.failures == old(backend.failures)
      ensures requested.None? && config.defaultPoolId in backend.effectivePools ==>
        if backend.failures > old(backend.failures) then r == Err(Storage)
        else r == Ok(backend.effectivePools[config.defaultPoolId]) && backend.failures == old(backend.failures)
      ensures requested.None? && config.defaultPoolId !in backend.effectivePools ==> r == Err(Storage)
    {
      if requested.Some? {
        return Ok(requested.value);
      }
      var effective := backend.ReadEffectivePool(config.defaultPoolId);
      r := if effective.Ok? && effective.value.Some? then Ok(effective.value.value) else Err(Storage);
    }

    /** The pool of a request: the one it names, or the one that the configured default leads to. */
    function PoolFor(request: Request): Option<string> {
      if request.poolId.Some? then request.poolId
      else if config.defaultPoolId in backend.effectivePools then Some(backend.effectivePools[config.defaultPoolId])
      else None
    }

    /** The lease was missing, and another was selected in its pool at the same instant. */
    ghost predicate Replaced(
      request: Request, lease: Lease, now: Instant, s: Store, s': Store, r: Result<Lease, LeaseError>)
    {
      Selected(SelectingFor(request.(poolId := Some(lease.poolId)), lease.poolId), now, now + 1, Without(s, lease.key),
               s', r)
    }

    /** Soft pressure that is still waiting for its window. */
    function StillPending(allowedAt: Option<Instant>, now: Instant): Option<Instant> {
      if allowedAt.Some? && allowedAt.value <= now then None else allowedAt
    }

    /** What a call of `EnsureLease` amounts to, by what it found. */
    ghost predicate Ensured(v: View, w: View, request: Request, now: Instant, r: Result<Lease, LeaseError>) {
      && w.pending.None? && (r.Ok? ==> w.active == Some(r.value) && (w.TakenUp(r.value) || w.Kept(v, r.value)))
      && FailsFor(v, w, v.active.None? && PoolFor(request).None?, r)
      && (r != Err(Storage) ==>
            if v.pending.Some? && v.active.Some? then
              Rotated(RotationFor(v.pending.value, v.active.value, v.lastReplaced, now), v.store, w.store, r)
            else if v.active.Some? then KeptOrReplaced(v, w, request, now, v.active.value, r)
            else Found(v, w, request, now, r))
    }

    /** A storage error comes from a failed backend call, or from having no pool. */
    ghost predicate FailsFor(v: View, w: View, noPool: bool, r: Result<Lease, LeaseError>) {
      && v.failures <= w.failures
      && (v.failures < w.failures ==> r == Err(Storage))
      && (r == Err(Storage) ==> v.failures < w.failures || noPool)
    }

    /** Without a pending rotation an active lease is kept while it is fresh, and otherwise renewed or replaced. */
    ghost predicate KeptOrReplaced(
      v: View, w: View, request: Request, now: Instant, lease: Lease, r: Result<Lease, LeaseError>)
    {
      if lease.expiresAt - now > config.safetyMargin then
        r == Ok(lease) && w.store == v.store && w.pressure == StillPending(v.pressure, now)
      else
        || (r.Ok? && Renews(now, lease, v.store, w.store, Ok(Some(r.value))))
        || Replaced(request, lease, now, v.store, w.store, r)
    }

    /** Without an active lease one that the holder owns is found again, and otherwise one is selected. */
    ghost predicate Found(v: View, w: View, request: Request, now: Instant, r: Result<Lease, LeaseError>) {
      if v.store.HoldsNothing(holder) then
        && PoolFor(request).Some?
        && Selected(SelectingFor(request.(poolId := PoolFor(request)), PoolFor(request).value), now,
                    Stored(now + PROBE_RESERVATION), v.store, w.store, r)
      else
        && r.Ok? && w.store == v.store && v.store.Mine(holder, r.value.AccountId())
        && r.value == v.store.leases[r.value.AccountId()]
    }

    /**
     The common course of `ensure_active_lease` and `renew_active_lease_if_needed`:
     rotate, else renew, else rehydrate, else select.
     */
    method EnsureLease(request: Request, now: Instant) returns (r: Result<Lease, LeaseError>)
      requires Valid()
      modifies this`active, this`nextSequence, this`pending, this`lastReplaced, this`reports, this`moves
      modifies this`softReleases, backend`store, backend`failures, proactive
      ensures Valid() && pending.None? && Ensured(old(Current()), Current(), request, now, r)
    {
      hide Core, Timely, Undisturbed, Rotated, Selected, SameLease, Inherited, RenewRel, PendingFor, Settled;
      var rotated := TryRotateActiveLease(now);
      if rotated.Err? {
        return Err(rotated.error);
      }
      if rotated.value.Some? {
        SameItself(rotated.value.value);
        return Ok(rotated.value.value);
      }
      if active.Some? {
        SameItself(active.value);
        r := RenewOrReplace(request, now);
      } else {
        r := FindOrSelect(request, now);
      }
    }

    /** The active lease is kept while it is fresh, else renewed, else replaced by another one of its pool. */
    method RenewOrReplace(request: Request, now: Instant) returns (r: Result<Lease, LeaseError>)
      requires Valid() && active.Some? && pending.None?
      modifies this`active, this`nextSequence, this`pending, this`lastReplaced, this`reports, this`moves
      modifies backend`store, backend`failures, proactive
      ensures Valid() && pending.None? && FailsFor(old(Current()), Current(), false, r)
      ensures r.Ok? ==> active == Some(r.value) && (TakenUp(r.value) || Current().Kept(old(Current()), r.value))
      ensures r != Err(Storage) ==> KeptOrReplaced(old(Current()), Current(), request, now, old(active).value, r)
    {
      hide Core, Timely, Undisturbed, Selected, Inherited, PendingFor, Settled;
      ghost var s := backend.store;
      var lease := active.value;
      proactive.RevalidateBeforeTurn(now);
      assert Valid();
      var renewed := TryRenewActiveLease(now);
      if renewed.Err? {
        return Err(renewed.error);
      }
      if renewed.value.Some? {
        return Ok(renewed.value.value);
      }
      assert backend.store == Without(s, lease.key);
      r := AcquireFresh(request.(poolId := Some(lease.poolId)), now, now + 1);
    }

    /** A lease that the holder still owns is taken up again; otherwise one is selected. */
    method FindOrSelect(request: Request, now: Instant) returns (r: Result<Lease, LeaseError>)
      requires Valid() && active.None? && pending.None?
      modifies this`active, this`nextSequence, backend`store, backend`failures, proactive
      ensures Valid() && FailsFor(old(Current()), Current(), PoolFor(request).None?, r)
      ensures r.Ok? ==> TakenUp(r.value)
      ensures r != Err(Storage) ==> Found(old(Current()), Current(), request, now, r)
    {
      hide Core, Timely, Undisturbed, Selected, PendingFor, Settled;
      ghost var s := backend.store;
      var rehydrated := TryRehydrateHolderLease();
      if rehydrated.Err? {
        return Err(rehydrated.error);
      }
      if rehydrated.value.Some? {
        return Ok(rehydrated.value.value);
      }
      var resolved := ResolvePool(request.poolId);
      if resolved.Err? {
        return Err(resolved.error);
      }
      var until := ReadClock(now + 1, Stored(now + PROBE_RESERVATION) + 1);
      r := AcquireFresh(request.(poolId := Some(resolved.value)), now, until);
      if r != Err(Storage) {
        SelectedSooner(SelectingFor(request.(poolId := PoolFor(request)), PoolFor(request).value), now, until,
          Stored(now + PROBE_RESERVATION), s, backend.store, r);
      }
    }

    /** `renew_active_lease_if_needed`: the same course with the default request. */
    method RenewActiveLeaseIfNeeded(now: Instant) returns (r: Result<Lease, LeaseError>)
      requires Valid()
      modifies this`active, this`nextSequence, this`pending, this`lastReplaced, this`reports, this`moves
      modifies this`softReleases, backend`store, backend`failures, proactive
      ensures Valid() && pending.None? && Ensured(old(Current()), Current(), DefaultRequest(), now, r)
    {
      r := EnsureLease(DefaultRequest(), now);
    }

    /** The request of a turn that asks for nothing in particular. */
    function DefaultRequest(): (request: Request)
      ensures request.intent == Startup && request.preferred.None? && request.current.None?
      ensures request.justReplaced.None? && request.family.None? && request.poolId == config.defaultPoolId
      ensures request.reservedProbeTarget.None?
    {
      Request(config.defaultPoolId, Startup, None, None, None, None, None, 85)
    }

    /** A heartbeat prolongs the active lease, or forgets it when it is missing. */
    ghost predicate Beaten(v: View, w: View, now: Instant, r: Result<(), LeaseError>) {
      && Blames(v.failures, w.failures, r.Err?)
      && (v.active.None? ==> r == Ok(()) && w == v)
      && (v.active.Some? ==>
            && Renews(now, v.active.value, v.store, w.store, if r.Ok? then Ok(w.active) else Err(r.error))
            && (w.active.Some? ==>
                  SameLease(v.active.value, w.active.value)
                  && w == v.(active := w.active, store := w.store, failures := w.failures))
            && (w.active.None? ==> r == Ok(()) && w.Forgotten() && w.store.HoldsNothing(holder)))
    }

    method HeartbeatActiveLease(now: Instant) returns (r: Result<(), LeaseError>)
      requires Valid()
      modifies this`active, this`nextSequence, this`pending, this`lastReplaced, this`reports, this`moves
      modifies backend`store, backend`failures, proactive
      ensures Valid() && Beaten(old(Current()), Current(), now, r)
      ensures old(active).None? ==> moves == old(moves)
      ensures old(active).Some? && active.Some? ==> reports == old(reports)
    {
      if active.None? {
        return Ok(());
      }
      var renewed := RenewOrForget(now);
      r := if renewed.Ok? then Ok(()) else Err(renewed.error);
    }

    /** A release gives the active lease back and forgets everything, or fails and changes nothing of the manager. */
    ghost predicate GaveUp(v: View, w: View, r: Result<(), LeaseError>) {
      && Blames(v.failures, w.failures, r.Err?)
      && (v.active.None? ==> r.Ok? && w.store == v.store)
      && (r.Ok? ==> w.Forgotten())
      && (r.Ok? && v.active.Some? ==>
            w.store.HoldsNothing(holder) && GivenBack(v.store, w.store, false, v.active.value.key))
      && (r.Err? ==> w == v.(store := w.store, failures := w.failures))
    }

    method ReleaseActiveLease(now: Instant) returns (r: Result<(), LeaseError>)
      requires Valid()
      modifies this`active, this`nextSequence, this`pending, this`lastReplaced, this`reports, this`moves
      modifies backend`store, backend`failures, proactive
      ensures Valid() && GaveUp(old(Current()), Current(), r)
      ensures r.Ok? ==> moves == old(moves) + [Detached]
      ensures r.Err? ==> reports == old(reports) && moves == old(moves)
    {
      hide Core, Timely, Undisturbed;
      r := ReleaseActiveLeaseAt(now);
      if r.Ok? {
        pending := None;
        lastReplaced := None;
        reports := [];
        moves := moves + [Detached];
        assert forall i: nat :: !UnansweredPressure([], i);
        SettledOtherMove(None, None, old(moves), Detached);
      }
    }

    // ---------- reports ----------

    predicate IsCurrentLease(key: LeaseKey)
      reads this
    {
      active.Some? && active.value.key == key
    }

    /**
     A report about another lease than the active one is ignored. Relief clears
     soft pressure; pressure counts once the lease is old enough, and is kept for
     later when it is too young.
     */
    ghost predicate Observed(
      v: View, w: View, key: LeaseKey, usedPercent: real, observedAt: Instant, r: Disposition)
    {
      && (r.Applied? <==> v.active.Some? && v.active.value.key == key)
      && w == v.(pending := w.pending, pressure := w.pressure)
      && if r.IgnoredAsStale? then w == v
         else
           var acquired, interval := v.active.value.acquiredAt, config.minSwitchInterval;
           if usedPercent < config.thresholdPercent as real then
             w.pressure.None? && w.pending == if v.pending == Some(HardFailure) then v.pending else None
           else if interval < 0 || observedAt < acquired then w == v
           else if observedAt < acquired + interval then
             w.pending == v.pending && w.pressure == Some(acquired + interval)
           else
             w.pressure.None? && w.pending == if v.pending == Some(HardFailure) then v.pending else Some(SoftProactive)
    }

    method ReportRateLimits(key: LeaseKey, usedPercent: real, observedAt: Instant) returns (r: Disposition)
      requires Valid()
      modifies this`pending, this`reports, this`latestObserved, proactive
      ensures Valid() && Observed(old(Current()), Current(), key, usedPercent, observedAt, r)
      ensures r.IgnoredAsStale? ==> reports == old(reports) && latestObserved == old(latestObserved)
      ensures r.Applied? ==>
        reports == old(reports) +
          [RateLimits(usedPercent < config.thresholdPercent as real,
                      Observation(active.value.acquiredAt, observedAt, config.minSwitchInterval).PastInterval())]
    {
      if !IsCurrentLease(key) {
        return IgnoredAsStale;
      }
      ghost var observation := Observation(active.value.acquiredAt, observedAt, config.minSwitchInterval);
      PendingForAppend(reports, RateLimits(usedPercent < config.thresholdPercent as real, observation.PastInterval()));
      reports := reports + [RateLimits(usedPercent < config.thresholdPercent as real, observation.PastInterval())];
      if usedPercent < config.thresholdPercent as real {
        proactive.Reset();
        if pending == Some(SoftProactive) {
          pending := None;
        }
        return Applied;
      }
      var outcome := proactive.ObserveSoftPressure(
        Observation(active.value.acquiredAt, observedAt, config.minSwitchInterval));
      if outcome.RotateOnNextTurn? {
        if observedAt > latestObserved {
          latestObserved := observedAt;
        }
        if pending != Some(HardFailure) {
          pending := Some(SoftProactive);
        }
      }
      r := Applied;
    }

    /** A failure of the active lease uses up a number, and once it is recorded a hard rotation is pending. */
    ghost predicate Failed(v: View, w: View, key: LeaseKey, r: Result<Disposition, LeaseError>) {
      && Blames(v.failures, w.failures, r == Err(Storage))
      && (r == Ok(IgnoredAsStale) <==> !(v.active.Some? && v.active.value.key == key))
      && (r == Ok(IgnoredAsStale) ==> w == v)
      && (r != Ok(IgnoredAsStale) ==>
            && w.nextSequence == v.nextSequence + 1 && w.active == v.active && w.lastReplaced == v.lastReplaced
            && RecordRel(v.store, w.store, holder, key.accountId, w.nextSequence,
                         if r.Ok? then Ok(()) else Err(r.error)))
      && (r == Ok(Applied) ==> w.pending == Some(HardFailure) && w.pressure.None?)
      && (r != Ok(Applied) ==> w.pending == v.pending && w.pressure == v.pressure)
    }

    /** `report_usage_limit_reached` and `report_unauthorized`: a numbered health event, then a hard rotation. */
    method ReportHardFailure(key: LeaseKey) returns (r: Result<Disposition, LeaseError>)
      requires Valid()
      modifies this`pending, this`reports, this`nextSequence, backend`store, backend`failures, proactive
      ensures Valid() && Failed(old(Current()), Current(), key, r)
      ensures r == Ok(Applied) ==> reports == old(reports) + [HardRecorded]
      ensures r != Ok(Applied) ==> reports == old(reports)
    {
      hide Core, Timely, Undisturbed;
      if !IsCurrentLease(key) {
        return Ok(IgnoredAsStale);
      }
      var sequence := nextSequence + 1;
      nextSequence := sequence;
      CoreIsValid(backend.store, holder, active, old(nextSequence));
      var recorded := backend.RecordHealthEvent(holder, active.value.AccountId(), sequence);
      CoreRecord(old(backend.store), backend.store, holder, active.value, old(nextSequence), recorded);
      if recorded.Err? {
        return Err(Storage);
      }
      proactive.Reset();
      pending := Some(HardFailure);
      PendingForAppend(reports, HardRecorded);
      reports := reports + [HardRecorded];
      r := Ok(Applied);
    }

    /** Other processes act between two operations. */
    method Interference()
      requires Valid()
      modifies backend`store
      ensures Valid() && InterfereRel(old(backend.store), backend.store, holder)
    {
      backend.Interfere(holder);
      CoreInterfere(old(backend.store), backend.store, holder, active, nextSequence, {});
    }
  }

  lemma {:induction false} SettledAttach(next: Lease, last: Option<string>, moves: seq<Move>)
    requires Settled(None, last, moves)
    ensures Settled(Some(next), last, moves)
  {}

  // ---------- whole runs ----------

  datatype Operation =
    | Ensure(request: Request, now: Instant)
    | Renew(now: Instant)
    | Heartbeat(now: Instant)
    | Release(now: Instant)
    | RateLimitReport(key: LeaseKey, usedPercent: real, observedAt: Instant)
    | HardReport(key: LeaseKey)
    | OthersAct

  datatype Reply =
    | LeaseReply(lease: Result<Lease, LeaseError>)
    | Done(done: Result<(), LeaseError>)
    | Noticed(disposition: Result<Disposition, LeaseError>)
    | Nothing

  /** What an operation does from one moment to another, with the reply to it. */
  ghost predicate Answers(manager: AccountPoolManager, operation: Operation, v: View, w: View, reply: Reply) {
    match operation
    case Ensure(request, now) => reply.LeaseReply? && manager.Ensured(v, w, request, now, reply.lease)
    case Renew(now) => reply.LeaseReply? && manager.Ensured(v, w, manager.DefaultRequest(), now, reply.lease)
    case Heartbeat(now) => reply.Done? && manager.Beaten(v, w, now, reply.done)
    case Release(_) => reply.Done? && manager.GaveUp(v, w, reply.done)
    case RateLimitReport(key, used, observedAt) =>
      reply.Noticed? && reply.disposition.Ok? && manager.Observed(v, w, key, used, observedAt, reply.disposition.value)
    case HardReport(key) => reply.Noticed? && manager.Failed(v, w, key, reply.disposition)
    case OthersAct =>
      && reply.Nothing? && w == v.(store := w.store, failures := w.failures)
      && InterfereRel(v.store, w.store, manager.holder)
  }

  /** One operation, whatever its outcome. */
  method Perform(manager: AccountPoolManager, operation: Operation) returns (reply: Reply)
    requires manager.Valid()
    modifies manager, manager.backend`store, manager.backend`failures, manager.proactive
    ensures manager.Valid() && Answers(manager, operation, old(manager.Current()), manager.Current(), reply)
  {
    hide Core, PendingFor, Settled, Timely, Undisturbed;
    match operation {
      case Ensure(request, now) =>
        var lease := manager.EnsureLease(request, now);
        reply := LeaseReply(lease);
      case Renew(now) =>
        var lease := manager.RenewActiveLeaseIfNeeded(now);
        reply := LeaseReply(lease);
      case Heartbeat(now) =>
        var done := manager.HeartbeatActiveLease(now);
        reply := Done(done);
      case Release(now) =>
        var done := manager.ReleaseActiveLease(now);
        reply := Done(done);
      case RateLimitReport(key, used, observedAt) =>
        var disposition := manager.ReportRateLimits(key, used, observedAt);
        reply := Noticed(Ok(disposition));
      case HardReport(key) =>
        var disposition := manager.ReportHardFailure(key);
        reply := Noticed(disposition);
      case OthersAct =>
        manager.Interference();
        reply := Nothing;
    }
  }

  /** Managers with holders of their own on one backend. */
  ghost predicate Sharing(managers: seq<AccountPoolManager>, backend: PoolBackend)
    reads managers, backend
  {
    && backend.watched == map[]
    && (forall i :: 0 <= i < |managers| ==> managers[i].backend == backend)
    && (forall i, j :: 0 <= i < j < |managers| ==>
          managers[i] != managers[j] && managers[i].proactive != managers[j].proactive)
    && (forall i, j :: 0 <= i < |managers| && 0 <= j < |managers| && i != j ==>
          managers[i].holder != managers[j].holder && managers[i].holder != managers[j].ProbeHolder())
  }

  ghost predicate AllValid(managers: seq<AccountPoolManager>)
    reads managers, set i | 0 <= i < |managers| :: managers[i].backend
  {
    forall i :: 0 <= i < |managers| ==> managers[i].Valid()
  }

  /** What the managers other than number `k` remember. */
  function Remembered(managers: seq<AccountPoolManager>, k: nat): map<string, Watch>
    reads managers
    requires forall i, j :: 0 <= i < j < |managers| ==> managers[i].holder != managers[j].holder
  {
    map i | 0 <= i < |managers| && i != k :: managers[i].holder := Watch(managers[i].active, managers[i].nextSequence)
  }

  lemma {:induction false} OthersUndisturbed(managers: seq<AccountPoolManager>, backend: PoolBackend, k: nat)
    requires Sharing(managers, backend) && AllValid(managers) && k < |managers|
    ensures Undisturbed(backend.store, Remembered(managers, k))
    ensures managers[k].holder !in Remembered(managers, k) && managers[k].ProbeHolder() !in Remembered(managers, k)
  {
    hide Core, Bystander, PendingFor, Settled, Timely;
    forall i | 0 <= i < |managers| && i != k
      ensures Bystander(backend.store, managers[i].holder, Watch(managers[i].active, managers[i].nextSequence))
    {
      assert managers[i].Valid();
      CoreWatches(backend.store, managers[i].holder, managers[i].active, managers[i].nextSequence);
    }
  }

  ghost function World(managers: seq<AccountPoolManager>): (world: seq<View>)
    reads managers, set m | m in managers :: m.backend, set m | m in managers :: m.proactive
    ensures |world| == |managers| && forall i :: 0 <= i < |managers| ==> world[i] == managers[i].Current()
  {
    if managers == [] then []
    else World(managers[..|managers| - 1]) + [managers[|managers| - 1].Current()]
  }

  /** Manager number `k` acts, and the others only see what it does to the backend. */
  ghost predicate Step(
    managers: seq<AccountPoolManager>, k: nat, operation: Operation, v: seq<View>, w: seq<View>, reply: Reply)
  {
    && |v| == |w| == |managers| && k < |managers| && Answers(managers[k], operation, v[k], w[k], reply)
    && forall i :: 0 <= i < |managers| && i != k ==> w[i] == v[i].(store := w[k].store, failures := w[k].failures)
  }

  /** One manager acts, and all of them keep their invariants. */
  method PerformOne(managers: seq<AccountPoolManager>, backend: PoolBackend, k: nat, operation: Operation)
    returns (reply: Reply)
    requires Sharing(managers, backend) && AllValid(managers) && k < |managers|
    modifies managers, backend, set m | m in managers :: m.proactive
    ensures Sharing(managers, backend) && AllValid(managers)
    ensures Step(managers, k, operation, old(World(managers)), World(managers), reply)
  {
    hide Core, Bystander, PendingFor, Settled, Timely, Answers;
    var manager := managers[k];
    OthersUndisturbed(managers, backend, k);
    assert manager.Valid();
    // Bookkeeping for the proof: nobody but a manager acts in the name of its holder.
    backend.watched := Remembered(managers, k);
    reply := Perform(manager, operation);
    forall i | 0 <= i < |managers| && i != k
      ensures Core(backend.store, managers[i].holder, managers[i].active, managers[i].nextSequence, {})
    {
      var w := Watch(managers[i].active, managers[i].nextSequence);
      assert managers[i].holder in backend.watched && backend.watched[managers[i].holder] == w;
      CoreOfOther(backend.store, manager.holder, manager.active, manager.nextSequence, managers[i].holder, w);
    }
    backend.watched := map[];
    forall i | 0 <= i < |managers| ensures managers[i].Valid() {
      assert old(managers[i].Valid());
    }
  }

  /** One manager for each holder, on a backend whose log begins. */
  method Launch(backend: PoolBackend, config: Config, holders: seq<string>) returns (managers: seq<AccountPoolManager>)
    requires backend.store.Valid() && backend.store.calls == [] && backend.watched == map[]
    requires forall i, j :: 0 <= i < |holders| && 0 <= j < |holders| && i != j ==>
               holders[i] != holders[j] && holders[i] != holders[j] + ":probe"
    ensures Sharing(managers, backend) && AllValid(managers) && |managers| == |holders|
    ensures forall i :: 0 <= i < |holders| ==> managers[i].holder == holders[i] && fresh(managers[i])
  {
    hide Core, PendingFor, Settled, Timely;
    managers := [];
    for i := 0 to |holders|
      invariant |managers| == i && Sharing(managers, backend) && AllValid(managers)
      invariant forall k :: 0 <= k < i ==> managers[k].holder == holders[k] && fresh(managers[k])
    {
      CoreOfFresh(backend.store, holders[i]);
      var manager := new AccountPoolManager(backend, config, holders[i]);
      managers := managers + [manager];
    }
  }

  /** What a manager can rely on between any two of its operations. */
  ghost predicate InOrder(manager: AccountPoolManager)
    reads manager, manager.backend
  {
    var s, h := manager.backend.store, manager.holder;
    && (forall a, b :: s.Mine(h, a) && s.Mine(h, b) ==> a == b)
    && (forall a :: s.Mine(h, a) ==> manager.active.None? || SameLease(s.leases[a], manager.active.value))
    && Timely(manager.softReleases, manager.config.minSwitchInterval) && NoBounce(manager.moves)
    && (FailedRotation !in manager.moves && manager.active.Some? ==>
          manager.lastReplaced != Some(manager.active.value.AccountId()))
    && manager.pending == PendingFor(manager.reports) && (manager.pending.Some? ==> manager.active.Some?)
  }

  /**
   Any number of managers share a backend, and any sequence of operations of
   any of them is interleaved with what other processes do and with failures in
   any backend call. Each holder owns at most one live lease, which is the
   active one if there is one; its soft rotations respect the interval and
   never bounce; and its pending rotation is the closed form of the reports.
   Over all managers together, every probe lease was released exactly once,
   before the next plan, and the numbers that leaseholders record for an
   account increase, also where the lease went from one manager to another.
   */
  method Run(managers: seq<AccountPoolManager>, backend: PoolBackend, operations: seq<(nat, Operation)>)
    returns (replies: seq<Reply>, ghost worlds: seq<seq<View>>)
    requires Sharing(managers, backend) && AllValid(managers) && managers != []
    requires forall i :: 0 <= i < |operations| ==> operations[i].0 < |managers|
    modifies managers, backend, set m | m in managers :: m.proactive
    ensures AllValid(managers) && |replies| == |operations| && |worlds| == |operations| + 1
    ensures worlds[0] == old(World(managers)) && worlds[|operations|] == World(managers)
    ensures forall i :: 0 <= i < |operations| ==>
      Step(managers, operations[i].0, operations[i].1, worlds[i], worlds[i + 1], replies[i])
    ensures forall m :: m in managers ==> InOrder(m)
    ensures var calls := backend.store.calls;
            forall i :: 0 <= i < |calls| && calls[i].ProbeGranted? ==>
              exists j :: i < j && OnlyRelease(calls, j, calls[i].key) && NoPlanBetween(calls, i, j)
    ensures SequencesIncrease(backend.store.calls)
  {
    hide Step, AccountPoolManager.Valid, InOrder, SequencesIncrease, OnlyRelease, NoPlanBetween;
    replies, worlds := [], [World(managers)];
    for i := 0 to |operations|
      invariant Sharing(managers, backend) && AllValid(managers) && |replies| == i && |worlds| == i + 1
      invariant worlds[0] == old(World(managers)) && worlds[i] == World(managers)
      invariant forall j :: 0 <= j < i ==>
        Step(managers, operations[j].0, operations[j].1, worlds[j], worlds[j + 1], replies[j])
    {
      var reply := PerformOne(managers, backend, operations[i].0, operations[i].1);
      replies, worlds := replies + [reply], worlds + [World(managers)];
    }
    forall m | m in managers ensures InOrder(m) {
      ValidInOrder(m);
    }
    LogIsInOrder(managers[0]);
  }

  lemma {:induction false} LogIsInOrder(manager: AccountPoolManager)
    requires manager.Valid()
    ensures var calls := manager.backend.store.calls;
            && SequencesIncrease(calls)
            && forall i :: 0 <= i < |calls| && calls[i].ProbeGranted? ==>
                 exists j :: i < j && OnlyRelease(calls, j, calls[i].key) && NoPlanBetween(calls, i, j)
  {
    EveryProbeReleasedOnce(manager.backend.store.calls);
  }

  lemma {:induction false} ValidInOrder(manager: AccountPoolManager)
    requires manager.Valid()
    ensures InOrder(manager)
  {
    assert forall i: nat :: !UnansweredPressure([], i);
  }

  lemma {:induction false} SameItself(lease: Lease)
    ensures SameLease(lease, lease)
  {}

  lemma {:induction false} SelectedSooner(
    sel: Selecting, now: Instant, until: Instant, later: Instant, s: Store, s': Store, r: Result<Lease, LeaseError>)
    requires Selected(sel, now, until, s, s', r) && until <= later
    ensures Selected(sel, now, later, s, s', r)
  {
    hide FreshRun, FreshEnd, FreshJustifies;
    var stores, times :| Selects(sel, stores, times, now, until, s, s', r);
    assert Selects(sel, stores, times, now, later, s, s', r);
  }

  lemma {:induction false} StoredLater(t: Instant, u: Instant)
    requires t <= u
    ensures Stored(t + PROBE_RESERVATION) <= Stored(u + PROBE_RESERVATION)
  {}

  /**
   How many turns a rotation over `n` candidates, with `budget` as its load at first,
   has taken and may still take.
   */
  ghost predicate WithinBudget(
    turns: nat, exhausted: bool, oneFamily: bool, left: nat, load: nat, reserve: nat, n: nat, budget: nat)
  {
    if exhausted then turns + left <= budget + reserve && (oneFamily ==> turns + left <= 2 * n + 1)
    else turns + left + reserve <= 2 * n && turns + load <= budget
  }

  /** An open candidate that was refused is out for every later plan. */
  lemma {:induction false} RefusedIsOut(
    s: Store, s': Store, pool: string, holder: string, request: Request, now: Instant, a: string, family: string)
    requires s.Valid() && AcquireRel(s, s', pool, a, family, holder, Err(NoEligibleAccount))
    requires request.family == Some(family) && Weighs(request, now, Snapshot(s, pool, holder), a, 1)
    ensures OutForGood(s', pool, holder, a)
  {
    var x, y := Snapshot(s, pool, holder), Snapshot(s', pool, holder);
    SnapshotDistinct(s, pool, holder);
    var k :| 0 <= k < |x| && x[k].accountId == a && Weight(request, now, x[k]) == 1;
    assert OnlyChanged(x, y, a) && Available(x[k], family);
    forall i | 0 <= i < |s'.Rows(pool)| && s'.Rows(pool)[i].accountId == a ensures HardBlocked(y[i]) {
      assert x[i].accountId == y[i].accountId == a;
      assert i == k;
    }
  }

  lemma {:induction false} SameSnapshot(s: Store, s': Store, holder: string, pool: string, current: string)
    requires Snapshot(s', pool, holder) == Snapshot(s, pool, holder)
    ensures |s'.Rows(pool)| == |s.Rows(pool)| && Reserve(s', pool, current) == Reserve(s, pool, current)
  {
    var x := Snapshot(s, pool, holder);
    assert |x| == |s'.Rows(pool)|;
    forall i | 0 <= i < |x| ensures s'.Rows(pool)[i].accountId == s.Rows(pool)[i].accountId {
      assert x[i].accountId == s.Rows(pool)[i].accountId;
    }
  }

  lemma {:induction false} HoldingsCompose(s: Store, t: Store, u: Store, h: string)
    requires SameHoldings(s, t, h) && SameHoldings(t, u, h)
    ensures SameHoldings(s, u, h)
  {
    forall a | u.Mine(h, a) ensures s.Mine(h, a) && u.leases[a] == s.leases[a] {
      assert t.Mine(h, a);
    }
    forall a | s.Mine(h, a) ensures u.Mine(h, a) {
      assert t.Mine(h, a);
    }
  }

  lemma {:induction false} QuietKeeps(s: Store, s': Store, a: string, family: string, limit: Instant)
    requires s'.pools == s.pools && QuietBefore(s, a, family, limit)
    ensures QuietBefore(s', a, family, limit)
  {
    forall t | t < limit ensures NotDue(s', a, family, t) {
      assert NotDue(s, a, family, t);
      forall pool: string ensures s'.Rows(pool) == s.Rows(pool) {}
    }
  }

  lemma {:induction false} QuietEarlier(s: Store, a: string, family: string, limit: Instant, earlier: Instant)
    requires QuietBefore(s, a, family, limit) && earlier <= limit
    ensures QuietBefore(s, a, family, earlier)
  {}
}
