/**
 The manager at the grain of single backend calls: other processes may act
 between any two of them, also in the middle of an operation.
 */
module CallSteps {
  import opened Basics
  import opened Quota
  import opened LeaseStore
  import opened CallLog
  import opened ManagerInvariant

  /** What a manager holds between two backend calls; `probes` are the verification leases it has yet to give back. */
  datatype Client = Client(store: Store, active: Option<Lease>, nextSequence: int, probes: set<LeaseKey>) {
    ghost predicate Safe(h: string) {
      Core(store, h, active, nextSequence, probes)
    }
  }

  /** A call that leaves alone what the manager remembers. */
  ghost predicate Unchanged(x: Client, y: Client) {
    y == x.(store := y.store)
  }

  ghost predicate Plans(x: Client, y: Client) {
    x.probes == {} && Unchanged(x, y) && y.store == x.store.(calls := x.store.calls + [PlanCall])
  }

  /** A lease is taken up as soon as it is granted; its health sequence is read afterwards. */
  ghost predicate Acquires(h: string, x: Client, y: Client) {
    && x.active.None? && x.probes == {} && y.probes == {}
    && exists pool, a, family, r ::
         && AcquireRel(x.store, y.store, pool, a, family, h, r)
         && y.active == (if r.Ok? then Some(r.value) else None)
         && (r.Ok? ==> y.nextSequence == x.store.Health(r.value.AccountId()))
  }

  /** A lease that the holder owns is found again, or the read fails. */
  ghost predicate Rehydrates(h: string, x: Client, y: Client) {
    && x.active.None? && x.probes == {} && y.probes == {}
    && exists r ::
         && ReadHolderRel(x.store, y.store, h, r)
         && y.active == (if r.Ok? then r.value else None)
         && (y.active.Some? ==> y.nextSequence == x.store.Health(y.active.value.AccountId()))
  }

  ghost predicate ReadsSequence(x: Client, y: Client) {
    && x.active.Some?
    && y == x.(nextSequence := x.store.Health(x.active.value.AccountId()))
  }

  /** The manager forgets its lease, whether it still owns it or not. */
  ghost predicate Forgets(x: Client, y: Client) {
    x.probes == {} && y == x.(active := None, nextSequence := y.nextSequence)
  }

  ghost predicate Reserves(x: Client, y: Client, a: string) {
    exists family, planned, now, reservedFor, r ::
      ReserveRel(x.store, y.store, a, family, planned, now, reservedFor, r)
  }

  ghost predicate Refreshes(x: Client, y: Client, a: string) {
    exists family, reservation, r :: RefreshRel(x.store, y.store, a, family, reservation, r)
  }

  ghost predicate UpdatesQuota(x: Client, y: Client) {
    Unchanged(x, y) && exists a :: Reserves(x, y, a) || Refreshes(x, y, a)
  }

  ghost predicate StartsProbe(h: string, x: Client, y: Client) {
    && x.probes == {}
    && exists a, probeHolder, r ::
         && probeHolder != h && AcquireProbeRel(x.store, y.store, a, probeHolder, r)
         && y == x.(store := y.store, probes := if r.Ok? then {r.value.key} else {})
  }

  ghost predicate EndsProbe(x: Client, y: Client) {
    exists key, r ::
      x.probes == {key} && ReleaseRel(x.store, y.store, key, r) && y == x.(store := y.store, probes := {})
  }

  ghost predicate RenewsAs(x: Client, y: Client, r: Result<Renewal, LeaseError>) {
    && x.active.Some?
    && (exists expiry :: RenewRel(x.store, y.store, x.active.value.key, expiry, r))
    && y == x.(store := y.store, active := if r.Ok? && r.value.Renewed? then Some(r.value.record) else x.active)
  }

  ghost predicate RecordsAs(h: string, x: Client, y: Client, r: Result<(), LeaseError>) {
    && x.active.Some? && RecordRel(x.store, y.store, h, x.active.value.AccountId(), x.nextSequence + 1, r)
    && y == x.(store := y.store, nextSequence := x.nextSequence + 1)
  }

  /** A release, a renewal or a health event for the active lease. */
  ghost predicate UsesLease(h: string, x: Client, y: Client) {
    && x.active.Some? && x.probes == {}
    && (|| (Unchanged(x, y) && exists r :: ReleaseRel(x.store, y.store, x.active.value.key, r))
        || (exists r :: RenewsAs(x, y, r))
        || (exists r :: RecordsAs(h, x, y, r)))
  }

  ghost predicate OthersAct(h: string, x: Client, y: Client) {
    Unchanged(x, y) && InterfereRel(x.store, y.store, h)
  }

  ghost predicate Step(h: string, x: Client, y: Client) {
    || Plans(x, y) || Acquires(h, x, y) || Rehydrates(h, x, y) || ReadsSequence(x, y) || Forgets(x, y)
    || UpdatesQuota(x, y) || StartsProbe(h, x, y) || EndsProbe(x, y) || UsesLease(h, x, y) || OthersAct(h, x, y)
  }

  lemma {:induction false} AcquiresSafely(h: string, x: Client, y: Client)
    requires x.Safe(h) && Acquires(h, x, y)
    ensures y.Safe(h)
  {
    var pool, a, family, r :|
      && AcquireRel(x.store, y.store, pool, a, family, h, r)
      && y.active == (if r.Ok? then Some(r.value) else None)
      && (r.Ok? ==> y.nextSequence == x.store.Health(r.value.AccountId()));
    CoreDetach(x.store, h, x.active, x.nextSequence, 0);
    CoreAcquire(x.store, y.store, pool, a, family, h, r);
    if r.Ok? {
      assert y.store.Health(r.value.AccountId()) == x.store.Health(r.value.AccountId());
      CoreAdopt(y.store, h, r.value, y.nextSequence);
    } else {
      CoreDetach(y.store, h, None, 0, y.nextSequence);
    }
  }

  lemma {:induction false} RehydratesSafely(h: string, x: Client, y: Client)
    requires x.Safe(h) && Rehydrates(h, x, y)
    ensures y.Safe(h)
  {
    var r :|
      && ReadHolderRel(x.store, y.store, h, r)
      && y.active == (if r.Ok? then r.value else None)
      && (y.active.Some? ==> y.nextSequence == x.store.Health(y.active.value.AccountId()));
    CoreDetach(x.store, h, x.active, x.nextSequence, 0);
    CoreReadHolder(x.store, y.store, h, r);
    if y.active.Some? {
      CoreAdopt(y.store, h, y.active.value, y.nextSequence);
    } else {
      CoreDetach(y.store, h, None, 0, y.nextSequence);
    }
  }

  lemma {:induction false} ReadsSafely(h: string, x: Client, y: Client)
    requires x.Safe(h) && ReadsSequence(x, y)
    ensures y.Safe(h)
  {
    CoveredBelow(x.store, x.active.value.AccountId());
    forall a | x.store.Mine(h, a) ensures a == x.active.value.AccountId() {
      assert SameLease(x.store.leases[a], x.active.value);
    }
  }

  lemma {:induction false} ProbesSafely(h: string, x: Client, y: Client)
    requires x.Safe(h) && (StartsProbe(h, x, y) || EndsProbe(x, y))
    ensures y.Safe(h)
  {
    if StartsProbe(h, x, y) {
      var a, probeHolder, r :|
        && probeHolder != h && AcquireProbeRel(x.store, y.store, a, probeHolder, r)
        && y == x.(store := y.store, probes := if r.Ok? then {r.value.key} else {});
      CoreProbeGrant(x.store, y.store, h, x.active, x.nextSequence, a, probeHolder, r);
    } else {
      var key, r :|
        x.probes == {key} && ReleaseRel(x.store, y.store, key, r) && y == x.(store := y.store, probes := {});
      CoreProbeRelease(x.store, y.store, h, x.active, x.nextSequence, key, r);
    }
  }

  lemma {:induction false} UsesSafely(h: string, x: Client, y: Client)
    requires x.Safe(h) && UsesLease(h, x, y)
    ensures y.Safe(h)
  {
    var lease := x.active.value;
    if r :| Unchanged(x, y) && ReleaseRel(x.store, y.store, lease.key, r) {
      CoreReleaseOwn(x.store, y.store, h, lease, x.nextSequence, r);
    } else if r :| RenewsAs(x, y, r) {
      var expiry :| RenewRel(x.store, y.store, lease.key, expiry, r);
      CoreRenew(x.store, y.store, h, lease, x.nextSequence, expiry, r);
    } else {
      var r :| RecordsAs(h, x, y, r);
      CoreRecord(x.store, y.store, h, lease, x.nextSequence, r);
    }
  }

  lemma {:induction false} QuotaSafely(h: string, x: Client, y: Client)
    requires x.Safe(h) && UpdatesQuota(x, y)
    ensures y.Safe(h)
  {
    var a :| Reserves(x, y, a) || Refreshes(x, y, a);
    if Reserves(x, y, a) {
      var family, planned, now, reservedFor, r :|
        ReserveRel(x.store, y.store, a, family, planned, now, reservedFor, r);
      CoreQuota(x.store, y.store, h, x.active, x.nextSequence, x.probes, ReservationCall(a, r.Ok? && r.value.Some?));
    } else {
      CoreQuota(x.store, y.store, h, x.active, x.nextSequence, x.probes, RefreshCall(a));
    }
  }

  /** Every step keeps the invariant. */
  lemma {:induction false} StepIsSafe(h: string, x: Client, y: Client)
    requires x.Safe(h) && Step(h, x, y)
    ensures y.Safe(h)
  {
    hide Core, Acquires, Rehydrates, ReadsSequence, UpdatesQuota, StartsProbe, EndsProbe, UsesLease;
    if Acquires(h, x, y) {
      AcquiresSafely(h, x, y);
    } else if Rehydrates(h, x, y) {
      RehydratesSafely(h, x, y);
    } else if ReadsSequence(x, y) {
      ReadsSafely(h, x, y);
    } else if StartsProbe(h, x, y) || EndsProbe(x, y) {
      ProbesSafely(h, x, y);
    } else if UsesLease(h, x, y) {
      UsesSafely(h, x, y);
    } else if OthersAct(h, x, y) {
      CoreInterfere(x.store, y.store, h, x.active, x.nextSequence, x.probes);
    } else if Plans(x, y) {
      CorePlan(x.store, h, x.active, x.nextSequence);
    } else if Forgets(x, y) {
      CoreDetach(x.store, h, x.active, x.nextSequence, y.nextSequence);
    } else {
      QuotaSafely(h, x, y);
    }
  }

  ghost predicate Steps(h: string, run: seq<Client>) {
    run != [] && forall i :: 0 <= i < |run| - 1 ==> Step(h, run[i], run[i + 1])
  }

  /**
   In every state of every run, with other processes acting between any two
   backend calls: the holder owns at most one lease, which is the active one if
   there is one; the numbers recorded by leaseholders increase; and every probe
   lease was given back once, before the next plan, or is the one under way.
   */
  lemma {:induction false} EveryRunIsSafe(h: string, run: seq<Client>)
    requires Steps(h, run) && run[0].Safe(h)
    ensures
      var z := run[|run| - 1];
      && z.Safe(h) && SequencesIncrease(z.store.calls)
      && (forall a, b :: z.store.Mine(h, a) && z.store.Mine(h, b) ==> a == b)
      && (forall a :: z.store.Mine(h, a) ==> z.active.None? || SameLease(z.store.leases[a], z.active.value))
    ensures
      var calls, probes := run[|run| - 1].store.calls, run[|run| - 1].probes;
      forall i :: 0 <= i < |calls| && calls[i].ProbeGranted? ==>
        || (calls[i].key in probes && NoPlanBetween(calls, i, |calls|))
        || (exists j :: i < j && OnlyRelease(calls, j, calls[i].key) && NoPlanBetween(calls, i, j))
  {
    var n := |run| - 1;
    if n > 0 {
      EveryRunIsSafe(h, run[..n]);
      StepIsSafe(h, run[n - 1], run[n]);
    }
    var calls := run[n].store.calls;
    forall i | 0 <= i < |calls| && calls[i].ProbeGranted?
      ensures calls[i].key !in run[n].probes ==>
                exists j :: i < j && OnlyRelease(calls, j, calls[i].key) && NoPlanBetween(calls, i, j)
      ensures calls[i].key in run[n].probes ==> NoPlanBetween(calls, i, |calls|)
    {
      SettledAt(calls, i);
    }
  }
}
