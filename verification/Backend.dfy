/**
 The execution backend of the account pool (`AccountPoolExecutionBackend`). Any
 call may fail; the choices made with `*` stand for storage errors and for what
 other processes did first.
 */
module Backend {
  import opened Basics
  import opened Quota
  import opened Selection
  import opened SelectionTheorems
  import opened LeaseStore
  import opened ManagerInvariant

  function SetQuota(rows: seq<AccountRecord>, a: string, f: QuotaView -> QuotaView): (r: seq<AccountRecord>)
    ensures |r| == |rows|
    ensures forall i :: 0 <= i < |rows| ==>
      r[i] == if rows[i].accountId == a then rows[i].(quota := f(rows[i].quota)) else rows[i]
  {
    seq(|rows|, i requires 0 <= i < |rows| =>
      if rows[i].accountId == a then rows[i].(quota := f(rows[i].quota)) else rows[i])
  }

  function WithQuota(s: Store, a: string, f: QuotaView -> QuotaView): Store {
    s.(pools := map p | p in s.pools :: SetQuota(s.pools[p], a, f))
  }

  lemma {:induction false} WithQuotaChangesOnly(s: Store, a: string, f: QuotaView -> QuotaView)
    requires s.Valid()
    ensures WithQuota(s, a, f).Valid()
    ensures forall holder :: ChangesOnly(s, WithQuota(s, a, f), holder, a)
  {
    var s' := WithQuota(s, a, f);
    forall p | p in s'.pools ensures DistinctIds(s'.pools[p]) {
      assert DistinctIds(s.pools[p]);
    }
    forall holder, pool: string ensures OnlyChanged(Snapshot(s, pool, holder), Snapshot(s', pool, holder), a) {}
  }

  /** A view in which the effective row of `family` is not due before `until`. */
  predicate QuietUntil(view: QuotaView, family: string, until: Instant) {
    var row := view.Effective(family);
    || row.None?
    || !row.value.exhausted.IsExhausted()
    || (row.value.nextProbeAfter.Some? && row.value.nextProbeAfter.value >= until)
  }

  lemma {:induction false} QuietIsNotDue(s: Store, a: string, f: QuotaView -> QuotaView, family: string, until: Instant)
    requires forall v :: QuietUntil(f(v), family, until)
    ensures QuietBefore(WithQuota(s, a, f), a, family, until)
  {
    var s' := WithQuota(s, a, f);
    forall t, pool, i | t < until && 0 <= i < |s'.Rows(pool)| && s'.Rows(pool)[i].accountId == a
      ensures !Classify(s'.Rows(pool)[i], family, t).ProbeEligibleBlocked?
    {
      assert s'.Rows(pool)[i].quota == f(s.Rows(pool)[i].quota);
      assert QuietUntil(f(s.Rows(pool)[i].quota), family, until);
    }
  }

  /** Advances `next_probe_after` on the effective row, as the reservation update does. */
  function Postpone(view: QuotaView, family: string, until: Instant): (r: QuotaView)
    ensures QuietUntil(r, family, until)
  {
    if view.selection.Some? && view.selection.value.limitId == family then
      view.(selection := Some(view.selection.value.(nextProbeAfter := Some(until))))
    else if view.codexFallback.Some? then
      view.(codexFallback := Some(view.codexFallback.value.(nextProbeAfter := Some(until))))
    else view
  }

  /** Clears the exhaustion of the effective row, as a successful probe does. */
  function Recover(view: QuotaView, family: string): (r: QuotaView)
    ensures forall until :: QuietUntil(r, family, until)
  {
    if view.selection.Some? && view.selection.value.limitId == family then
      view.(selection := Some(view.selection.value.(exhausted := NoWindow, nextProbeAfter := None)))
    else if view.codexFallback.Some? then
      view.(codexFallback := Some(view.codexFallback.value.(exhausted := NoWindow, nextProbeAfter := None)))
    else view
  }

  class PoolBackend {
    var store: Store
    /** What the managers that are not acting remember; nobody else acts in their names. */
    var watched: map<string, Watch>

    /** The pool that a configured default leads to, where that pool is available. */
    const effectivePools: map<Option<string>, string>
    /** How many calls have failed. */
    ghost var failures: nat

    constructor (initial: Store, effectivePools: map<Option<string>, string>)
      requires initial.Valid()
      ensures store == initial && watched == map[] && this.effectivePools == effectivePools
    {
      store, watched, failures := initial, map[], 0;
      this.effectivePools := effectivePools;
    }

    /** The shared selector applied to a snapshot of the store. */
    method PlanRuntimeSelection(request: Request, pool: string, now: Instant, holder: string)
      returns (r: Result<(string, Plan), LeaseError>)
      requires store.Valid() && Undisturbed(store, watched)
      modifies this`store, this`failures
      ensures failures == old(failures) + if r == Err(Storage) then 1 else 0
      ensures r.Err? ==> r.error == Storage
      ensures store == Logged(old(store), PlanCall) && Undisturbed(store, watched)
      ensures r.Ok? ==>
        && r.value.0 == FamilyFor(old(store), request)
        && r.value.1 == Evaluate(PlanRequest(old(store), request), now, Snapshot(old(store), pool, holder))
    {
      if * {
        failures := failures + 1;
        r := Err(Storage);
      } else {
        r := Ok((FamilyFor(store, request), Evaluate(PlanRequest(store, request), now, Snapshot(store, pool, holder))));
      }
      store := Logged(store, PlanCall);
      EndingEvolves(old(store), store);
      UndisturbedKept(old(store), store, watched, PlanCall);
    }

    method AcquirePreferredLease(pool: string, a: string, family: string, holder: string)
      returns (r: Result<Lease, LeaseError>)
      requires store.Valid() && Undisturbed(store, watched) && holder !in watched
      modifies this`store, this`failures
      ensures failures == old(failures) + if r == Err(Storage) then 1 else 0
      ensures AcquireRel(old(store), store, pool, a, family, holder, r) && Undisturbed(store, watched)
    {
      if * {
        failures := failures + 1;
        return Err(Storage);
      }
      if !store.HoldsNothing(holder) {
        var b :| b in store.leases && store.leases[b].holder == holder;
        return Ok(store.leases[b]);
      }
      var snapshot := Snapshot(store, pool, holder);
      var eligible := exists i :: 0 <= i < |snapshot| && snapshot[i].accountId == a && Available(snapshot[i], family);
      if !eligible || a in store.leases {
        AcquireIneligible(store, pool, a, family, holder);
        return Err(NoEligibleAccount);
      }
      var acquiredAt: Instant, expiresAt: Instant, epoch: int := *, *, *;
      var key := LeaseKey(store.nextLeaseId, a, epoch);
      if * {
        // another holder wins the insert
        var other: string := *;
        if other != holder && other !in watched && store.HoldsNothing(other) {
          GrantUndisturbed(store, Lease(key, pool, other, acquiredAt, expiresAt), watched);
          AcquireLost(store, Lease(key, pool, other, acquiredAt, expiresAt), family, holder);
          store := Grant(store, Lease(key, pool, other, acquiredAt, expiresAt));
          return Err(NoEligibleAccount);
        }
      }
      var lease := Lease(key, pool, holder, acquiredAt, expiresAt);
      AcquireWon(store, lease, family);
      GrantUndisturbed(store, lease, watched);
      store := Grant(store, lease);
      if * {
        failures := failures + 1;
        return Err(Storage);
      }
      r := Ok(lease);
    }

    /** The verification lease is refused while another one of the probe holder is live. */
    method AcquireProbeLease(pool: string, a: string, reservation: Reservation, holder: string)
      returns (r: Result<Lease, LeaseError>)
      requires store.Valid() && Undisturbed(store, watched) && holder !in watched
      modifies this`store, this`failures
      ensures failures == old(failures) + if r == Err(Storage) then 1 else 0
      ensures AcquireProbeRel(old(store), store, a, holder, r) && Undisturbed(store, watched)
    {
      if * {
        failures := failures + 1;
        return Err(Storage);
      }
      var ineligible: bool := *;
      if a in store.leases || !store.HoldsNothing(holder) || ineligible {
        LoggedRelates(store, ProbeRefused(a), watched);
        store := Logged(store, ProbeRefused(a));
        return Err(NoEligibleAccount);
      }
      var acquiredAt: Instant, expiresAt: Instant, epoch: int := *, *, *;
      var lease := Lease(LeaseKey(store.nextLeaseId, a, epoch), pool, holder, acquiredAt, expiresAt);
      ProbeGrantRelates(store, lease);
      GrantUndisturbed(store, lease, watched);
      store := Grant(store, lease);
      if * {
        failures := failures + 1;
        return Err(Storage);
      }
      store := Logged(store, ProbeGranted(lease.key));
      r := Ok(lease);
    }

    /** A compare-and-set on `next_probe_after`, lost when the row changed in between. */
    method ReserveQuotaProbe(a: string, family: string, ghost planned: Instant, now: Instant, reservedFor: int)
      returns (r: Result<Option<Reservation>, LeaseError>)
      requires store.Valid() && Undisturbed(store, watched) && planned <= now
      modifies this`store, this`failures
      ensures failures == old(failures) + if r == Err(Storage) then 1 else 0
      ensures r.Err? ==> r.error == Storage
      ensures ReserveRel(old(store), store, a, family, planned, now, reservedFor, r) && Undisturbed(store, watched)
    {
      if * {
        failures := failures + 1;
        return Err(Storage);
      }
      var until := Stored(now + reservedFor);
      var lost: bool := *;
      var f := (v: QuotaView) => Postpone(v, family, until);
      QuotaCall(store, a, f, family, until, ReservationCall(a, !lost), watched);
      QuietSooner(Logged(WithQuota(store, a, f), ReservationCall(a, !lost)), a, family, until,
        Stored(planned + reservedFor));
      hide WithQuota, QuietUntil, QuietBefore, ChangesOnly, Undisturbed;
      store := Logged(WithQuota(store, a, f), ReservationCall(a, !lost));
      r := Ok(if lost then None else Some(Reservation(family, now + reservedFor)));
    }

    /** Records what the probe saw: recovered, or still blocked until some later time. */
    method RefreshQuotaProbe(lease: Lease, reservation: Reservation, family: string) returns (r: Result<(), LeaseError>)
      requires store.Valid() && Undisturbed(store, watched)
      modifies this`store, this`failures
      ensures failures == old(failures) + if r == Err(Storage) then 1 else 0
      ensures r.Err? ==> r.error == Storage
      ensures RefreshRel(old(store), store, lease.AccountId(), family, reservation, r) && Undisturbed(store, watched)
    {
      if * {
        failures := failures + 1;
        return Err(Storage);
      }
      var success: bool := *;
      var until := Stored(reservation.reservedUntil);
      var f := (v: QuotaView) => if success then Recover(v, family) else Postpone(v, family, until);
      QuotaCall(store, lease.AccountId(), f, family, until, RefreshCall(lease.AccountId()), watched);
      hide WithQuota, QuietUntil, QuietBefore, ChangesOnly, Undisturbed;
      store := Logged(WithQuota(store, lease.AccountId(), f), RefreshCall(lease.AccountId()));
      r := Ok(());
    }

    method RenewLease(key: LeaseKey, now: Instant, ttl: int) returns (r: Result<Renewal, LeaseError>)
      requires store.Valid() && Undisturbed(store, watched)
      modifies this`store, this`failures
      ensures failures == old(failures) + if r == Err(Storage) then 1 else 0
      ensures r.Err? ==> r.error == Storage
      ensures RenewRel(old(store), store, key, now + ttl, r) && Undisturbed(store, watched)
    {
      if * {
        failures := failures + 1;
        return Err(Storage);
      }
      if !Matches(store, key) {
        return Ok(Missing);
      }
      if store.leases[key.accountId].expiresAt <= now {
        store := Without(store, key);
        EndingUndisturbed(old(store), store, watched, PlanCall);
        return Ok(Missing);
      }
      var renewed := store.leases[key.accountId].(expiresAt := now + ttl);
      store := store.(leases := store.leases[key.accountId := renewed]);
      EndingUndisturbed(old(store), store, watched, PlanCall);
      if * {
        failures := failures + 1;
        return Err(Storage);
      }
      r := Ok(Renewed(renewed));
    }

    method ReleaseLease(key: LeaseKey, now: Instant) returns (r: Result<bool, LeaseError>)
      requires store.Valid() && Undisturbed(store, watched)
      modifies this`store, this`failures
      ensures failures == old(failures) + if r == Err(Storage) then 1 else 0
      ensures r.Err? ==> r.error == Storage
      ensures ReleaseRel(old(store), store, key, r) && Undisturbed(store, watched)
    {
      EndingUndisturbed(store, Logged(store, ReleaseCall(key)), watched, ReleaseCall(key));
      EndingUndisturbed(store, Without(Logged(store, ReleaseCall(key)), key), watched, ReleaseCall(key));
      store := Logged(store, ReleaseCall(key));
      if * {
        failures := failures + 1;
        return Err(Storage);
      }
      var released := Matches(store, key);
      store := Without(store, key);
      if * {
        failures := failures + 1;
        return Err(Storage);
      }
      r := Ok(released);
    }

    method RecordHealthEvent(holder: string, a: string, sequence: int) returns (r: Result<(), LeaseError>)
      requires store.Valid() && Undisturbed(store, watched) && holder !in watched
      modifies this`store, this`failures
      ensures failures == old(failures) + if r == Err(Storage) then 1 else 0
      ensures r.Err? ==> r.error == Storage
      ensures RecordRel(old(store), store, holder, a, sequence, r) && Undisturbed(store, watched)
    {
      if * {
        failures := failures + 1;
        return Err(Storage);
      }
      store := Noted(store, a, sequence, store.Mine(holder, a));
      EndingUndisturbed(old(store), store, watched, Recorded(a, sequence, old(store).Mine(holder, a)));
      if * {
        failures := failures + 1;
        return Err(Storage);
      }
      r := Ok(());
    }

    method ReadHealthSequence(a: string) returns (r: Result<Option<int>, LeaseError>)
      modifies this`failures
      ensures failures == old(failures) + if r == Err(Storage) then 1 else 0
      ensures r.Err? ==> r.error == Storage
      ensures r.Ok? ==> r.value == if a in store.health then Some(store.health[a]) else None
    {
      if * {
        failures := failures + 1;
        return Err(Storage);
      }
      r := Ok(if a in store.health then Some(store.health[a]) else None);
    }

    method ReadActiveHolderLease(holder: string) returns (r: Result<Option<Lease>, LeaseError>)
      requires store.Valid() && Undisturbed(store, watched)
      modifies this`store, this`failures
      ensures failures == old(failures) + if r == Err(Storage) then 1 else 0
      ensures r.Err? ==> r.error == Storage
      ensures ReadHolderRel(old(store), store, holder, r) && Undisturbed(store, watched)
    {
      if store.HoldsNothing(holder) {
        if * {
          assert store == store.(leases := store.leases - {});
          failures := failures + 1;
          return Err(Storage);
        }
        return Ok(None);
      }
      var b :| b in store.leases && store.leases[b].holder == holder;
      if * {
        store := store.(leases := store.leases - {b});
        EndingUndisturbed(old(store), store, watched, PlanCall);
        failures := failures + 1;
        return Err(Storage);
      }
      r := Ok(Some(store.leases[b]));
    }

    /** The pool for a request that names none. */
    method ReadEffectivePool(default: Option<string>) returns (r: Result<Option<string>, LeaseError>)
      modifies this`failures
      ensures failures == old(failures) + if r == Err(Storage) then 1 else 0
      ensures r.Err? ==> r.error == Storage
      ensures r.Ok? ==> r.value == if default in effectivePools then Some(effectivePools[default]) else None
    {
      if * {
        failures := failures + 1;
        return Err(Storage);
      }
      r := Ok(if default in effectivePools then Some(effectivePools[default]) else None);
    }

    /** Other holders and the passing of time act on the store. */
    method Interfere(holder: string)
      requires store.Valid() && Undisturbed(store, watched)
      modifies this`store
      ensures InterfereRel(old(store), store, holder) && Undisturbed(store, watched)
    {
      var a: string, other: string, sequence: int := *, *, *;
      if a !in store.leases {
        if other != holder && other !in watched && store.HoldsNothing(other) {
          var pool: string, acquiredAt: Instant, expiresAt: Instant, epoch: int := *, *, *, *;
          var lease := Lease(LeaseKey(store.nextLeaseId, a, epoch), pool, other, acquiredAt, expiresAt);
          GrantEvolves(store, lease);
          GrantKeepsHoldings(store, lease, holder);
          GrantUndisturbed(store, lease, watched);
          store := Grant(store, lease);
        }
      } else if * {
        store := store.(leases := store.leases - {a});
        EndingEvolves(old(store), store);
        EndingUndisturbed(old(store), store, watched, PlanCall);
      } else {
        var owner := store.leases[a].holder;
        var byHolder := owner != holder && owner !in watched && RecordedBelow(store.calls, a, sequence);
        store := Noted(store, a, sequence, byHolder);
        EndingEvolves(old(store), store);
        EndingUndisturbed(old(store), store, watched, Recorded(a, sequence, byHolder));
      }
    }
  }

  /** A neutral entry in the log changes nothing else. */
  lemma {:induction false} LoggedRelates(s: Store, call: Call, watched: map<string, Watch>)
    requires s.Valid() && Neutral(call) && Undisturbed(s, watched)
    ensures Evolves(s, Logged(s, call)) && Undisturbed(Logged(s, call), watched)
    ensures forall holder :: SameHoldings(s, Logged(s, call), holder)
    ensures forall holder, a :: ChangesOnly(s, Logged(s, call), holder, a)
  {
    var s' := Logged(s, call);
    EndingUndisturbed(s, s', watched, call);
    forall k | ProbeGranted(k) in s'.calls ensures ProbeGranted(k) in s.calls {}
    EndingEvolves(s, s');
    forall holder, a, pool: string ensures OnlyChanged(Snapshot(s, pool, holder), Snapshot(s', pool, holder), a) {
      LoggedSnapshots(s, call, holder);
    }
  }

  lemma {:induction false} QuietSooner(s: Store, a: string, family: string, until: Instant, sooner: Instant)
    requires QuietBefore(s, a, family, until) && sooner <= until
    ensures QuietBefore(s, a, family, sooner)
  {}

  lemma {:induction false} LoggedChanges(s: Store, t: Store, a: string, call: Call, holder: string)
    requires ChangesOnly(s, t, holder, a)
    ensures ChangesOnly(s, Logged(t, call), holder, a)
  {
    var u := Logged(t, call);
    LoggedSnapshots(t, call, holder);
    forall pool: string ensures OnlyChanged(Snapshot(s, pool, holder), Snapshot(u, pool, holder), a) {
      assert OnlyChanged(Snapshot(s, pool, holder), Snapshot(t, pool, holder), a);
    }
  }

  lemma {:induction false} LoggedQuiet(t: Store, a: string, call: Call, family: string, limit: Instant)
    requires QuietBefore(t, a, family, limit)
    ensures QuietBefore(Logged(t, call), a, family, limit)
  {
    forall time | time < limit ensures NotDue(Logged(t, call), a, family, time) {
      assert NotDue(t, a, family, time);
      forall pool: string ensures Logged(t, call).Rows(pool) == t.Rows(pool) {}
    }
  }

  /** What a change of the quota of one account amounts to, with its entry in the log. */
  lemma {:induction false} QuotaCall(
    s: Store, a: string, f: QuotaView -> QuotaView, family: string, until: Instant, call: Call,
    watched: map<string, Watch>)
    requires s.Valid() && Undisturbed(s, watched) && Neutral(call) && forall v :: QuietUntil(f(v), family, until)
    ensures
      var u := Logged(WithQuota(s, a, f), call);
      && u.Valid() && Undisturbed(u, watched) && QuietBefore(u, a, family, until)
      && forall holder :: ChangesOnly(s, u, holder, a)
  {
    hide WithQuota, QuietUntil, ChangesOnly, QuietBefore, Undisturbed;
    var t := WithQuota(s, a, f);
    WithQuotaChangesOnly(s, a, f);
    QuotaUndisturbed(s, a, f, watched);
    QuietIsNotDue(s, a, f, family, until);
    LoggedRelates(t, call, watched);
    LoggedQuiet(t, a, call, family, until);
    forall holder ensures ChangesOnly(s, Logged(t, call), holder, a) {
      LoggedChanges(s, t, a, call, holder);
    }
  }

  /** Only ends and renewals of leases: nobody is disturbed. */
  lemma {:induction false} EndingUndisturbed(s: Store, s': Store, watched: map<string, Watch>, call: Call)
    requires s.Valid() && s'.nextLeaseId == s.nextLeaseId && s'.pools == s.pools && Undisturbed(s, watched)
    requires forall a :: a in s'.leases ==> Inherited(s, a, s'.leases[a])
    requires s'.calls == s.calls || s'.calls == s.calls + [call]
    requires !call.ProbeGranted?
    requires call.Recorded? && call.byHolder ==>
               call.accountId in s.leases && s.leases[call.accountId].holder !in watched
    ensures Undisturbed(s', watched)
  {
    forall k | ProbeGranted(k) in s'.calls ensures ProbeGranted(k) in s.calls {}
    EndingEvolves(s, s');
    UndisturbedKept(s, s', watched, call);
  }

  lemma {:induction false} QuotaUndisturbed(s: Store, a: string, f: QuotaView -> QuotaView, watched: map<string, Watch>)
    requires s.Valid() && Undisturbed(s, watched)
    ensures Undisturbed(WithQuota(s, a, f), watched)
  {
    WithQuotaChangesOnly(s, a, f);
    UndisturbedKept(s, WithQuota(s, a, f), watched, PlanCall);
  }

  lemma {:induction false} GrantUndisturbed(s: Store, lease: Lease, watched: map<string, Watch>)
    requires Grantable(s, lease) && Undisturbed(s, watched) && lease.holder !in watched
    ensures Undisturbed(Grant(s, lease), watched)
    ensures Undisturbed(Logged(Grant(s, lease), ProbeGranted(lease.key)), watched)
  {
    var s1 := Grant(s, lease);
    var s2 := Logged(s1, ProbeGranted(lease.key));
    GrantEvolves(s, lease);
    forall h | h in watched ensures GainsNothing(s, s1, h) {
      GrantKeepsHoldings(s, lease, h);
    }
    UndisturbedKept(s, s1, watched, PlanCall);
    ProbeGrantRelates(s, lease);
    UndisturbedKept(s, s2, watched, ProbeGranted(lease.key));
  }

  /** The failures counted meanwhile are what made an operation fail. */
  predicate Blames(before: nat, after: nat, failed: bool) {
    if failed then before < after else before == after
  }

  function Grant(s: Store, lease: Lease): Store {
    s.(leases := s.leases[lease.AccountId() := lease], nextLeaseId := s.nextLeaseId + 1)
  }

  /** `lease` may be inserted: fresh id, free account, and a holder without a lease. */
  ghost predicate Grantable(s: Store, lease: Lease) {
    s.Valid() && lease.key.leaseId == s.nextLeaseId && lease.AccountId() !in s.leases && s.HoldsNothing(lease.holder)
  }

  lemma {:induction false} GrantEvolves(s: Store, lease: Lease)
    requires Grantable(s, lease)
    ensures Evolves(s, Grant(s, lease))
  {
    var s' := Grant(s, lease);
    assert s'.Valid() by {
      forall a, b | a in s'.leases && b in s'.leases && s'.leases[a].holder == s'.leases[b].holder ensures a == b {}
    }
  }

  lemma {:induction false} GrantKeepsHoldings(s: Store, lease: Lease, other: string)
    requires Grantable(s, lease) && other != lease.holder
    ensures SameHoldings(s, Grant(s, lease), other)
  {}

  lemma {:induction false} GrantChangesOnly(s: Store, lease: Lease, other: string)
    requires Grantable(s, lease)
    ensures ChangesOnly(s, Grant(s, lease), other, lease.AccountId())
  {
    var s' := Grant(s, lease);
    forall pool: string ensures OnlyChanged(Snapshot(s, pool, other), Snapshot(s', pool, other), lease.AccountId()) {}
  }

  lemma {:induction false} AcquireIneligible(s: Store, pool: string, a: string, family: string, holder: string)
    requires s.Valid() && s.HoldsNothing(holder)
    requires
      || a in s.leases
      || forall i :: 0 <= i < |Snapshot(s, pool, holder)| && Snapshot(s, pool, holder)[i].accountId == a
           ==> !Available(Snapshot(s, pool, holder)[i], family)
    ensures AcquireRel(s, s, pool, a, family, holder, Err(NoEligibleAccount))
  {}

  lemma {:induction false} AcquireLost(s: Store, lease: Lease, family: string, holder: string)
    requires Grantable(s, lease) && lease.holder != holder
    requires exists i :: 0 <= i < |Snapshot(s, lease.poolId, holder)|
               && Snapshot(s, lease.poolId, holder)[i].accountId == lease.AccountId()
               && Available(Snapshot(s, lease.poolId, holder)[i], family)
    ensures AcquireRel(s, Grant(s, lease), lease.poolId, lease.AccountId(), family, holder, Err(NoEligibleAccount))
  {
    var x, y := Snapshot(s, lease.poolId, holder), Snapshot(Grant(s, lease), lease.poolId, holder);
    var k :| 0 <= k < |x| && x[k].accountId == lease.AccountId() && Available(x[k], family);
    forall i | 0 <= i < |x| && x[i].accountId == lease.AccountId()
      ensures Available(x[i], family) && HardBlocked(y[i])
    {
      assert DistinctIds(s.Rows(lease.poolId));
      assert i == k;
    }
    GrantEvolves(s, lease);
    GrantKeepsHoldings(s, lease, holder);
    GrantChangesOnly(s, lease, holder);
  }

  lemma {:induction false} AcquireWon(s: Store, lease: Lease, family: string)
    requires Grantable(s, lease)
    ensures AcquireRel(s, Grant(s, lease), lease.poolId, lease.AccountId(), family, lease.holder, Ok(lease))
    ensures AcquireRel(s, Grant(s, lease), lease.poolId, lease.AccountId(), family, lease.holder, Err(Storage))
  {
    GrantEvolves(s, lease);
  }

  lemma {:induction false} ProbeGrantRelates(s: Store, lease: Lease)
    requires Grantable(s, lease)
    ensures AcquireProbeRel(s, Grant(s, lease), lease.AccountId(), lease.holder, Err(Storage))
    ensures AcquireProbeRel(s, Logged(Grant(s, lease), ProbeGranted(lease.key)), lease.AccountId(), lease.holder,
            Ok(lease))
  {
    var s' := Grant(s, lease);
    var t := Logged(s', ProbeGranted(lease.key));
    GrantEvolves(s, lease);
    forall other | other != lease.holder
      ensures SameHoldings(s, s', other) && SameHoldings(s, t, other)
      ensures ChangesOnly(s, s', other, lease.AccountId()) && ChangesOnly(s, t, other, lease.AccountId())
    {
      GrantKeepsHoldings(s, lease, other);
      GrantChangesOnly(s, lease, other);
      LoggedSnapshots(s', ProbeGranted(lease.key), other);
    }
    assert t.Valid() by {
      forall k | ProbeGranted(k) in t.calls ensures k.leaseId < t.nextLeaseId {
        assert k == lease.key || ProbeGranted(k) in s'.calls;
      }
    }
  }

  function Logged(s: Store, call: Call): Store {
    s.(calls := s.calls + [call])
  }

  lemma {:induction false} LoggedSnapshots(s: Store, call: Call, holder: string)
    ensures forall pool :: Snapshot(Logged(s, call), pool, holder) == Snapshot(s, pool, holder)
  {}
}
