/**
 The invariant that ties an account-pool manager to its backend, stated on
 values, with one lemma for each backend call.
 */
module ManagerInvariant {
  import opened Basics
  import opened Quota
  import opened Selection
  import opened LeaseStore
  import opened CallLog

  // ---------- ownership, probe discipline and health sequences ----------

  predicate SameLease(l: Lease, m: Lease) {
    l.(expiresAt := m.expiresAt) == m
  }

  /** Whatever `h` owns is the active lease, unless there is none. */
  ghost predicate OwnsOnlyActive(s: Store, h: string, active: Option<Lease>) {
    forall a :: s.Mine(h, a) ==> active.None? || SameLease(s.leases[a], active.value)
  }

  /** The active lease is one that was granted to `h` itself. */
  ghost predicate ActiveIsOwn(s: Store, h: string, active: Option<Lease>) {
    active.Some? ==>
      && active.value.holder == h
      && active.value.key.leaseId < s.nextLeaseId
      && ProbeGranted(active.value.key) !in s.calls
      && (forall a :: a in s.leases && s.leases[a].key == active.value.key ==> SameLease(s.leases[a], active.value))
  }

  ghost predicate OwnIsNoProbe(s: Store, h: string) {
    forall a :: s.Mine(h, a) ==> ProbeGranted(s.leases[a].key) !in s.calls
  }

  ghost predicate CleanLog(s: Store, h: string, outstanding: set<LeaseKey>) {
    && Disciplined(s.calls)
    && Outstanding(s.calls) == outstanding
    && OwnIsNoProbe(s, h)
    && (forall k :: ReleaseCall(k) in s.calls ==> k.leaseId < s.nextLeaseId)
  }

  /** The next number for the account that `h` holds is above all that its holders recorded. */
  ghost predicate NumbersAhead(s: Store, h: string, active: Option<Lease>, nextSequence: int) {
    active.Some? ==> forall a :: s.Mine(h, a) ==> RecordedBelow(s.calls, a, nextSequence + 1)
  }

  ghost predicate Sequenced(s: Store, h: string, active: Option<Lease>, nextSequence: int) {
    Covers(s) && SequencesIncrease(s.calls) && NumbersAhead(s, h, active, nextSequence)
  }

  ghost predicate Core(s: Store, h: string, active: Option<Lease>, nextSequence: int, outstanding: set<LeaseKey>) {
    && s.Valid()
    && OwnsOnlyActive(s, h, active)
    && ActiveIsOwn(s, h, active)
    && CleanLog(s, h, outstanding)
    && Sequenced(s, h, active, nextSequence)
  }

  lemma {:induction false} CoreIsValid(s: Store, h: string, active: Option<Lease>, n: int)
    requires Core(s, h, active, n, {})
    ensures s.Valid()
  {}

  /** At the start of the log any holder may begin, whatever it already owns. */
  lemma {:induction false} CoreOfFresh(s: Store, h: string)
    requires s.Valid() && s.calls == []
    ensures Core(s, h, None, 0, {})
  {}

  /** The holder has in `s'` at most leases it had in `s`. */
  ghost predicate Shrinks(s: Store, s': Store, h: string) {
    forall a :: s'.Mine(h, a) ==> s.Mine(h, a) && SameLease(s.leases[a], s'.leases[a])
  }

  lemma {:induction false} ShrinksKeepsOwnership(s: Store, s': Store, h: string, active: Option<Lease>)
    requires OwnsOnlyActive(s, h, active) && Shrinks(s, s', h)
    ensures OwnsOnlyActive(s', h, active)
  {
    forall a | s'.Mine(h, a) ensures active.None? || SameLease(s'.leases[a], active.value) {
      assert s.Mine(h, a);
    }
  }

  lemma {:induction false} ShrinksKeepsSequence(
    s: Store, s': Store, h: string, active: Option<Lease>, n: int, call: Call)
    requires Sequenced(s, h, active, n) && Shrinks(s, s', h) && s'.health == s.health
    requires !call.Recorded? && (s'.calls == s.calls + [call] || s'.calls == s.calls)
    ensures Sequenced(s', h, active, n)
  {
    AppendRecord(s.calls, call);
    forall c | c in s'.calls && c.Recorded? ensures c in s.calls {}
    forall a | s'.Mine(h, a) ensures s.Mine(h, a) {}
  }

  lemma {:induction false} ShrinksKeepsLog(s: Store, s': Store, h: string, outstanding: set<LeaseKey>)
    requires CleanLog(s, h, outstanding) && Shrinks(s, s', h) && s'.calls == s.calls && s'.nextLeaseId >= s.nextLeaseId
    ensures CleanLog(s', h, outstanding)
  {
    forall a | s'.Mine(h, a) ensures ProbeGranted(s'.leases[a].key) !in s'.calls {
      assert s.Mine(h, a);
    }
  }

  lemma {:induction false} CorePlan(s: Store, h: string, active: Option<Lease>, n: int)
    requires Core(s, h, active, n, {})
    ensures Core(s.(calls := s.calls + [PlanCall]), h, active, n, {})
    ensures forall pool :: Snapshot(s.(calls := s.calls + [PlanCall]), pool, h) == Snapshot(s, pool, h)
  {
    var s' := s.(calls := s.calls + [PlanCall]);
    Append(s.calls, PlanCall);
    ShrinksKeepsSequence(s, s', h, active, n, PlanCall);
    forall k | ProbeGranted(k) in s'.calls ensures ProbeGranted(k) in s.calls {}
    forall k | ReleaseCall(k) in s'.calls ensures ReleaseCall(k) in s.calls {}
    forall a | s'.Mine(h, a) ensures s.Mine(h, a) {}
  }

  lemma {:induction false} CoreAcquire(s: Store, s': Store, pool: string, a: string, family: string, h: string,
                                       r: Result<Lease, LeaseError>)
    requires Core(s, h, None, 0, {}) && AcquireRel(s, s', pool, a, family, h, r)
    ensures Core(s', h, None, 0, {})
    ensures r == Err(NoEligibleAccount) && s.HoldsNothing(h) ==> s'.HoldsNothing(h)
  {
    forall b | s'.Mine(h, b) ensures ProbeGranted(s'.leases[b].key) !in s'.calls {
      assert Inherited(s, b, s'.leases[b]) || s'.leases[b].key.leaseId >= s.nextLeaseId;
    }
    if r == Err(NoEligibleAccount) && s.HoldsNothing(h) {
      forall b | b in s'.leases ensures s'.leases[b].holder != h {
        assert !s.Mine(h, b);
      }
    }
  }

  /** Taking up a lease the holder owns. */
  lemma {:induction false} CoreAdopt(s: Store, h: string, g: Lease, n: int)
    requires Core(s, h, None, 0, {})
    requires s.Mine(h, g.AccountId()) && s.leases[g.AccountId()] == g && s.Health(g.AccountId()) == n
    ensures Core(s, h, Some(g), n, {})
  {
    CoveredBelow(s, g.AccountId());
  }

  lemma {:induction false} CoreDetach(s: Store, h: string, active: Option<Lease>, n: int, m: int)
    requires Core(s, h, active, n, {}) 
    ensures Core(s, h, None, m, {})
  {}

  lemma {:induction false} WithoutShrinks(s: Store, key: LeaseKey, h: string)
    requires s.Valid()
    ensures Without(s, key).Valid()
    ensures Shrinks(s, Without(s, key), h)
  {}

  /** Logging the release of a lease that is not a probe lease. */
  lemma {:induction false} LogOwnRelease(s: Store, h: string, active: Lease, n: int)
    requires Core(s, h, Some(active), n, {})
    ensures Core(s.(calls := s.calls + [ReleaseCall(active.key)]), h, Some(active), n, {})
  {
    var s' := s.(calls := s.calls + [ReleaseCall(active.key)]);
    Append(s.calls, ReleaseCall(active.key));
    ShrinksKeepsSequence(s, s', h, Some(active), n, ReleaseCall(active.key));
    forall k | ProbeGranted(k) in s'.calls ensures ProbeGranted(k) in s.calls {}
    forall k | ReleaseCall(k) in s'.calls ensures k.leaseId < s'.nextLeaseId {
      assert ReleaseCall(k) in s.calls || k == active.key;
    }
    forall a | s'.Mine(h, a) ensures s.Mine(h, a) {}
  }

  /** Dropping leases keeps the invariant. */
  lemma {:induction false} CoreWithout(
    s: Store, h: string, active: Option<Lease>, n: int, key: LeaseKey, out: set<LeaseKey>)
    requires Core(s, h, active, n, out)
    ensures Core(Without(s, key), h, active, n, out)
  {
    var s' := Without(s, key);
    WithoutShrinks(s, key, h);
    ShrinksKeepsOwnership(s, s', h, active);
    ShrinksKeepsLog(s, s', h, out);
    ShrinksKeepsSequence(s, s', h, active, n, PlanCall);
  }

  lemma {:induction false} WithoutOwn(s: Store, h: string, active: Lease)
    requires s.Valid() && OwnsOnlyActive(s, h, Some(active))
    ensures Without(s, active.key).HoldsNothing(h)
    ensures forall pool :: Snapshot(Without(s, active.key), pool, h) == Snapshot(s, pool, h) || Matches(s, active.key)
    ensures ActiveIsOwn(s, h, Some(active)) ==>
      forall pool :: Snapshot(Without(s, active.key), pool, h) == Snapshot(s, pool, h)
  {
    var s' := Without(s, active.key);
    forall a | a in s'.leases ensures s'.leases[a].holder != h {
      assert s.leases[a].holder != h || SameLease(s.leases[a], active);
    }
  }

  lemma {:induction false} ReleaseKeepsSnapshots(
    s: Store, s': Store, h: string, active: Lease, r: Result<bool, LeaseError>)
    requires s.Valid() && OwnsOnlyActive(s, h, Some(active)) && ActiveIsOwn(s, h, Some(active))
    requires ReleaseRel(s, s', active.key, r)
    ensures forall pool :: Snapshot(s', pool, h) == Snapshot(s, pool, h)
  {
    WithoutOwn(s, h, active);
    var s1 := Without(s, active.key);
    forall pool: string ensures Snapshot(s', pool, h) == Snapshot(s, pool, h) {
      assert s'.Rows(pool) == s.Rows(pool);
      if s'.leases == s.leases {
      } else {
        assert s'.leases == s1.leases;
        assert Snapshot(s', pool, h) == Snapshot(s1, pool, h);
      }
    }
  }

  lemma {:induction false} CoreReleaseOwn(
    s: Store, s': Store, h: string, active: Lease, n: int, r: Result<bool, LeaseError>)
    requires Core(s, h, Some(active), n, {}) && ReleaseRel(s, s', active.key, r)
    ensures Core(s', h, Some(active), n, {})
    ensures r.Ok? ==> s'.HoldsNothing(h)
  {
    LogOwnRelease(s, h, active, n);
    var t := s.(calls := s.calls + [ReleaseCall(active.key)]);
    if s' != t {
      assert s' == Without(t, active.key);
      CoreWithout(t, h, Some(active), n, active.key, {});
    }
    assert OwnsOnlyActive(t, h, Some(active));
    WithoutOwn(t, h, active);
  }

  /** A renewal moves the expiry of the active lease and nothing else. */
  lemma {:induction false} Prolonged(s: Store, h: string, active: Lease, n: int, record: Lease)
    requires Core(s, h, Some(active), n, {}) && Matches(s, active.key) && Inherited(s, active.AccountId(), record)
    ensures var s' := s.(leases := s.leases[active.AccountId() := record]);
            Core(s', h, Some(active), n, {}) && Core(s', h, Some(record), n, {}) && SameLease(active, record)
  {
    var s' := s.(leases := s.leases[active.AccountId() := record]);
    assert SameLease(s.leases[active.AccountId()], active);
    ShrinksKeepsOwnership(s, s', h, Some(active));
    ShrinksKeepsLog(s, s', h, {});
    ShrinksKeepsSequence(s, s', h, Some(active), n, PlanCall);
    ShrinksKeepsSequence(s, s', h, Some(record), n, PlanCall);
  }

  lemma {:induction false} CoreRenew(
    s: Store, s': Store, h: string, active: Lease, n: int, expiry: Instant, r: Result<Renewal, LeaseError>)
    requires Core(s, h, Some(active), n, {}) && RenewRel(s, s', active.key, expiry, r)
    ensures Core(s', h, Some(active), n, {})
    ensures r.Ok? && r.value.Renewed? ==> SameLease(active, r.value.record) && Core(s', h, Some(r.value.record), n, {})
    ensures r.Ok? && r.value.Missing? ==> s'.HoldsNothing(h)
  {
    match r {
      case Ok(Renewed(record)) => Prolonged(s, h, active, n, record);
      case Ok(Missing) =>
        CoreWithout(s, h, Some(active), n, active.key, {});
        WithoutOwn(s, h, active);
      case Err(_) =>
        if s' != s {
          var t :| s' == s.(leases := s.leases[active.AccountId() := s.leases[active.AccountId()].(expiresAt := t)]);
          Prolonged(s, h, active, n, s.leases[active.AccountId()].(expiresAt := t));
        }
    }
  }

  /** The next number of a holder that really holds the lease is above everything recorded for the account. */
  lemma {:induction false} RecordKeepsSequence(
    s: Store, s': Store, h: string, active: Lease, n: int, r: Result<(), LeaseError>)
    requires s.Valid() && ActiveIsOwn(s, h, Some(active)) && OwnsOnlyActive(s, h, Some(active))
    requires Sequenced(s, h, Some(active), n) && RecordRel(s, s', h, active.AccountId(), n + 1, r)
    ensures Sequenced(s', h, Some(active), n + 1)
  {
    if s' != s {
      var call := Recorded(active.AccountId(), n + 1, s.Mine(h, active.AccountId()));
      assert s'.calls == s.calls + [call];
      RecordCovers(s, s', call);
      AppendRecord(s.calls, call);
      forall a | s'.Mine(h, a) ensures RecordedBelow(s'.calls, a, n + 2) {
        assert s.Mine(h, a);
        AppendBelow(s.calls, call, a, n + 2);
      }
    }
  }

  lemma {:induction false} RecordKeepsLog(s: Store, s': Store, h: string, a: string, n: int, r: Result<(), LeaseError>)
    requires CleanLog(s, h, {}) && RecordRel(s, s', h, a, n, r)
    ensures CleanLog(s', h, {})
  {
    if s' != s {
      var call := Recorded(a, n, s.Mine(h, a));
      assert s'.calls == s.calls + [call];
      Append(s.calls, call);
      forall k | ProbeGranted(k) in s'.calls ensures ProbeGranted(k) in s.calls {}
      forall k | ReleaseCall(k) in s'.calls ensures ReleaseCall(k) in s.calls {}
      forall b | s'.Mine(h, b) ensures s.Mine(h, b) {}
    }
  }

  lemma {:induction false} RecordKeepsLeases(
    s: Store, s': Store, h: string, active: Lease, a: string, n: int, r: Result<(), LeaseError>)
    requires s.Valid() && OwnsOnlyActive(s, h, Some(active)) && ActiveIsOwn(s, h, Some(active))
    requires RecordRel(s, s', h, a, n, r)
    ensures s'.Valid() && OwnsOnlyActive(s', h, Some(active)) && ActiveIsOwn(s', h, Some(active))
  {
    forall b | s'.Mine(h, b) ensures s.Mine(h, b) {}
  }

  lemma {:induction false} CoreRecord(s: Store, s': Store, h: string, active: Lease, n: int, r: Result<(), LeaseError>)
    requires Core(s, h, Some(active), n, {}) && RecordRel(s, s', h, active.AccountId(), n + 1, r)
    ensures Core(s', h, Some(active), n + 1, {})
  {
    hide RecordRel, Sequenced, CleanLog, OwnsOnlyActive, ActiveIsOwn;
    RecordKeepsSequence(s, s', h, active, n, r);
    RecordKeepsLog(s, s', h, active.AccountId(), n + 1, r);
    RecordKeepsLeases(s, s', h, active, active.AccountId(), n + 1, r);
  }

  lemma {:induction false} RecordCovers(s: Store, s': Store, call: Call)
    requires Covers(s) && call.Recorded? && s'.calls == s.calls + [call]
    requires call.accountId in s'.health && s'.health[call.accountId] >= call.sequence
    requires forall a :: a in s.health ==> a in s'.health && s'.health[a] >= s.health[a]
    ensures Covers(s')
  {
    forall c | c in s'.calls && c.Recorded? ensures c.accountId in s'.health && c.sequence <= s'.health[c.accountId] {
      assert c in s.calls || c == call;
    }
  }

  lemma {:induction false} CoreReadHolder(s: Store, s': Store, h: string, r: Result<Option<Lease>, LeaseError>)
    requires Core(s, h, None, 0, {}) && ReadHolderRel(s, s', h, r)
    ensures Core(s', h, None, 0, {})
  {
    if r.Err? {
      var gone :| s' == s.(leases := s.leases - gone);
      ShrinksKeepsOwnership(s, s', h, None);
      ShrinksKeepsLog(s, s', h, {});
      ShrinksKeepsSequence(s, s', h, None, 0, PlanCall);
    }
  }

  lemma {:induction false} InterferenceShrinks(s: Store, s': Store, h: string, active: Option<Lease>)
    requires s.Valid() && ActiveIsOwn(s, h, active) && OwnsOnlyActive(s, h, active)
    requires InterfereRel(s, s', h)
    ensures Shrinks(s, s', h)
    ensures ActiveIsOwn(s', h, active)
  {
    forall a | s'.Mine(h, a) ensures s.Mine(h, a) && SameLease(s.leases[a], s'.leases[a]) {
      assert Inherited(s, a, s'.leases[a]);
    }
    if active.Some? {
      forall a | a in s'.leases && s'.leases[a].key == active.value.key ensures SameLease(s'.leases[a], active.value) {
        assert Inherited(s, a, s'.leases[a]);
      }
    }
  }

  /** Nothing that others do breaks the invariant, even while a probe is under way. */
  lemma {:induction false} CoreInterfere(
    s: Store, s': Store, h: string, active: Option<Lease>, n: int, out: set<LeaseKey>)
    requires Core(s, h, active, n, out) && InterfereRel(s, s', h)
    ensures Core(s', h, active, n, out)
  {
    InterferenceShrinks(s, s', h, active);
    ShrinksKeepsOwnership(s, s', h, active);
    if s'.calls == s.calls && s'.health == s.health {
      ShrinksKeepsLog(s, s', h, out);
      ShrinksKeepsSequence(s, s', h, active, n, PlanCall);
    } else {
      var a, sequence, byHolder :|
        && s' == Noted(s, a, sequence, byHolder)
        && (byHolder ==> a in s.leases && s.leases[a].holder != h && RecordedBelow(s.calls, a, sequence));
      InterferenceRecords(s, h, active, n, out, a, sequence, byHolder);
    }
  }

  lemma {:induction false} InterferenceRecords(
    s: Store, h: string, active: Option<Lease>, n: int, out: set<LeaseKey>, a: string, sequence: int, byHolder: bool)
    requires CleanLog(s, h, out) && Sequenced(s, h, active, n)
    requires byHolder ==> a in s.leases && s.leases[a].holder != h && RecordedBelow(s.calls, a, sequence)
    ensures CleanLog(Noted(s, a, sequence, byHolder), h, out)
    ensures Sequenced(Noted(s, a, sequence, byHolder), h, active, n)
  {
    var s' := Noted(s, a, sequence, byHolder);
    var call := Recorded(a, sequence, byHolder);
    Append(s.calls, call);
    forall k | ProbeGranted(k) in s'.calls ensures ProbeGranted(k) in s.calls {}
    forall k | ReleaseCall(k) in s'.calls ensures ReleaseCall(k) in s.calls {}
    forall b | s'.Mine(h, b) ensures s.Mine(h, b) && (byHolder ==> b != a) {}
    RecordCovers(s, s', call);
    AppendRecord(s.calls, call);
    if active.Some? {
      forall b | s'.Mine(h, b) ensures RecordedBelow(s'.calls, b, n + 1) {
        assert s.Mine(h, b);
        AppendBelow(s.calls, call, b, n + 1);
      }
    }
  }

  /** A call that neither plans, nor grants or releases a lease, nor records a number. */
  predicate Neutral(call: Call) {
    call.ReservationCall? || call.ProbeRefused? || call.RefreshCall?
  }

  ghost predicate LogsAtMost(s: Store, s': Store, call: Call) {
    Neutral(call) && (s'.calls == s.calls || s'.calls == s.calls + [call])
  }

  lemma {:induction false} NeutralKeepsLog(s: Store, s': Store, h: string, outstanding: set<LeaseKey>, call: Call)
    requires CleanLog(s, h, outstanding) && Shrinks(s, s', h) && s'.nextLeaseId >= s.nextLeaseId
    requires LogsAtMost(s, s', call)
    ensures CleanLog(s', h, outstanding)
  {
    Append(s.calls, call);
    forall k | ProbeGranted(k) in s'.calls ensures ProbeGranted(k) in s.calls {}
    forall k | ReleaseCall(k) in s'.calls ensures ReleaseCall(k) in s.calls {}
    forall a | s'.Mine(h, a) ensures ProbeGranted(s'.leases[a].key) !in s'.calls {
      assert s.Mine(h, a);
    }
  }

  /** Updates of quota rows do not touch leases or health. */
  lemma {:induction false} CoreQuota(
    s: Store, s': Store, h: string, active: Option<Lease>, n: int, out: set<LeaseKey>, call: Call)
    requires Core(s, h, active, n, out)
    requires s'.Valid() && s'.leases == s.leases && s'.nextLeaseId == s.nextLeaseId
    requires s'.health == s.health && LogsAtMost(s, s', call)
    ensures Core(s', h, active, n, out) && SameHoldings(s, s', h)
  {
    assert forall a :: s'.Mine(h, a) <==> s.Mine(h, a);
    forall k | ProbeGranted(k) in s'.calls ensures ProbeGranted(k) in s.calls {}
    NeutralKeepsLog(s, s', h, out, call);
    ShrinksKeepsSequence(s, s', h, active, n, call);
  }

  lemma {:induction false} HoldingsShrink(s: Store, s': Store, h: string)
    requires SameHoldings(s, s', h)
    ensures Shrinks(s, s', h)
    ensures s.HoldsNothing(h) ==> s'.HoldsNothing(h)
  {
    if s.HoldsNothing(h) {
      forall a | a in s'.leases ensures s'.leases[a].holder != h {
        assert !s.Mine(h, a);
      }
    }
  }

  lemma {:induction false} ProbeGrantLog(
    s: Store, s': Store, h: string, a: string, probeHolder: string, record: Lease)
    requires s.Valid() && CleanLog(s, h, {}) && Shrinks(s, s', h)
    requires AcquireProbeRel(s, s', a, probeHolder, Ok(record)) && probeHolder != h
    ensures CleanLog(s', h, {record.key})
  {
    var k := record.key;
    Append(s.calls, ProbeGranted(k));
    forall j | ProbeGranted(j) in s'.calls ensures ProbeGranted(j) in s.calls || j == k {}
    forall j | ReleaseCall(j) in s'.calls ensures ReleaseCall(j) in s.calls {}
    assert ProbeGranted(k) !in s.calls && ReleaseCall(k) !in s.calls;
    forall b | s'.Mine(h, b) ensures ProbeGranted(s'.leases[b].key) !in s'.calls {
      assert s.Mine(h, b);
    }
  }

  lemma {:induction false} CoreProbeGrant(s: Store, s': Store, h: string, active: Option<Lease>, n: int,
                                          a: string, probeHolder: string, r: Result<Lease, LeaseError>)
    requires Core(s, h, active, n, {}) && AcquireProbeRel(s, s', a, probeHolder, r) && probeHolder != h
    ensures Core(s', h, active, n, if r.Ok? then {r.value.key} else {})
    ensures SameHoldings(s, s', h) && ChangesOnly(s, s', h, a)
  {
    hide Sequenced, CleanLog;
    HoldingsShrink(s, s', h);
    ShrinksKeepsOwnership(s, s', h, active);
    if active.Some? {
      forall b | b in s'.leases && s'.leases[b].key == active.value.key ensures SameLease(s'.leases[b], active.value) {
        assert Inherited(s, b, s'.leases[b]);
      }
    }
    match r {
      case Ok(record) =>
        ProbeGrantLog(s, s', h, a, probeHolder, record);
        ShrinksKeepsSequence(s, s', h, active, n, ProbeGranted(record.key));
      case Err(_) =>
        forall k | ProbeGranted(k) in s'.calls ensures ProbeGranted(k) in s.calls {}
        NeutralKeepsLog(s, s', h, {}, ProbeRefused(a));
        ShrinksKeepsSequence(s, s', h, active, n, ProbeRefused(a));
    }
  }

  lemma {:induction false} CoreProbeRelease(s: Store, s': Store, h: string, active: Option<Lease>, n: int,
                                            key: LeaseKey, r: Result<bool, LeaseError>)
    requires Core(s, h, active, n, {key}) && ReleaseRel(s, s', key, r)
    ensures Core(s', h, active, n, {})
  {
    var t := s.(calls := s.calls + [ReleaseCall(key)]);
    LogProbeRelease(s, h, active, n, key);
    if s' != t {
      CoreWithout(t, h, active, n, key, {});
    }
  }

  lemma {:induction false} ProbeReleaseHoldings(
    s: Store, s': Store, h: string, key: LeaseKey, r: Result<bool, LeaseError>)
    requires s.Valid() && CleanLog(s, h, {key}) && ReleaseRel(s, s', key, r)
    ensures SameHoldings(s, s', h)
  {
    OutstandingGranted(s.calls, key);
    forall a | s.Mine(h, a) ensures s'.Mine(h, a) {
      assert s.leases[a].key != key;
    }
  }

  lemma {:induction false} ReleaseChangesOnly(
    s: Store, s': Store, h: string, key: LeaseKey, r: Result<bool, LeaseError>)
    requires s.Valid() && ReleaseRel(s, s', key, r)
    ensures ChangesOnly(s, s', h, key.accountId) && s'.pools == s.pools
  {
    forall pool: string ensures OnlyChanged(Snapshot(s, pool, h), Snapshot(s', pool, h), key.accountId) {
      assert s'.Rows(pool) == s.Rows(pool);
    }
  }

  lemma {:induction false} LogProbeRelease(s: Store, h: string, active: Option<Lease>, n: int, key: LeaseKey)
    requires Core(s, h, active, n, {key})
    ensures Core(s.(calls := s.calls + [ReleaseCall(key)]), h, active, n, {})
  {
    hide Sequenced;
    var t := s.(calls := s.calls + [ReleaseCall(key)]);
    OutstandingGranted(s.calls, key);
    Append(s.calls, ReleaseCall(key));
    ShrinksKeepsSequence(s, t, h, active, n, ReleaseCall(key));
    forall k | ProbeGranted(k) in t.calls ensures ProbeGranted(k) in s.calls {}
    forall k | ReleaseCall(k) in t.calls ensures k.leaseId < t.nextLeaseId {
      assert ReleaseCall(k) in s.calls || k == key;
    }
    forall a | t.Mine(h, a) ensures s.Mine(h, a) {}
  }

  // ---------- managers that share a backend ----------

  /** What another manager remembers while this one acts. */
  datatype Watch = Watch(active: Option<Lease>, nextSequence: int)

  /** The part of the invariant of `h` that others could break. */
  ghost predicate Bystander(s: Store, h: string, w: Watch) {
    && OwnsOnlyActive(s, h, w.active)
    && ActiveIsOwn(s, h, w.active)
    && OwnIsNoProbe(s, h)
    && NumbersAhead(s, h, w.active, w.nextSequence)
  }

  ghost predicate Undisturbed(s: Store, watched: map<string, Watch>) {
    forall h :: h in watched ==> Bystander(s, h, watched[h])
  }

  /** A call that gives `h` nothing, and records nothing for a lease of `h` as its holder, does not disturb `h`. */
  lemma {:induction false} BystanderKept(s: Store, s': Store, h: string, w: Watch, call: Call)
    requires s.Valid() && Evolves(s, s') && GainsNothing(s, s', h) && Bystander(s, h, w)
    requires s'.calls == s.calls || s'.calls == s.calls + [call]
    requires call.ProbeGranted? ==> call.key.leaseId >= s.nextLeaseId
    requires call.Recorded? && call.byHolder ==> !s.Mine(h, call.accountId)
    ensures Bystander(s', h, w)
  {
    assert Shrinks(s, s', h) by {
      forall a | s'.Mine(h, a) ensures s.Mine(h, a) && SameLease(s.leases[a], s'.leases[a]) {
        assert Inherited(s, a, s'.leases[a]);
      }
    }
    ShrinksKeepsOwnership(s, s', h, w.active);
    forall k | ProbeGranted(k) in s'.calls && k.leaseId < s.nextLeaseId ensures ProbeGranted(k) in s.calls {}
    forall a | s'.Mine(h, a) ensures ProbeGranted(s'.leases[a].key) !in s'.calls {
      assert s.Mine(h, a);
    }
    if w.active.Some? {
      forall a | a in s'.leases && s'.leases[a].key == w.active.value.key
        ensures SameLease(s'.leases[a], w.active.value)
      {
        assert Inherited(s, a, s'.leases[a]);
      }
      forall a | s'.Mine(h, a) ensures RecordedBelow(s'.calls, a, w.nextSequence + 1) {
        assert s.Mine(h, a);
        AppendBelow(s.calls, call, a, w.nextSequence + 1);
      }
    }
  }

  lemma {:induction false} UndisturbedKept(s: Store, s': Store, watched: map<string, Watch>, call: Call)
    requires s.Valid() && Evolves(s, s') && Undisturbed(s, watched)
    requires forall h :: h in watched ==> GainsNothing(s, s', h)
    requires s'.calls == s.calls || s'.calls == s.calls + [call]
    requires call.ProbeGranted? ==> call.key.leaseId >= s.nextLeaseId
    requires call.Recorded? && call.byHolder ==> forall h :: h in watched ==> !s.Mine(h, call.accountId)
    ensures Undisturbed(s', watched)
  {
    hide Bystander, Evolves, GainsNothing;
    forall h | h in watched ensures Bystander(s', h, watched[h]) {
      BystanderKept(s, s', h, watched[h], call);
    }
  }

  /** When leases only end or are prolonged, nobody gains anything. */
  lemma {:induction false} EndingEvolves(s: Store, s': Store)
    requires s.Valid() && s'.nextLeaseId == s.nextLeaseId && s'.pools == s.pools
    requires forall a :: a in s'.leases ==> Inherited(s, a, s'.leases[a])
    requires forall k :: ProbeGranted(k) in s'.calls ==> ProbeGranted(k) in s.calls
    ensures Evolves(s, s') && forall h :: GainsNothing(s, s', h)
  {
    forall a, b | a in s'.leases && b in s'.leases && s'.leases[a].holder == s'.leases[b].holder ensures a == b {
      assert Inherited(s, a, s'.leases[a]) && Inherited(s, b, s'.leases[b]);
    }
  }

  /** What one manager keeps, and what did not disturb another, make up the invariant of the other. */
  lemma {:induction false} CoreOfOther(s: Store, h: string, active: Option<Lease>, n: int, other: string, w: Watch)
    requires Core(s, h, active, n, {}) && Bystander(s, other, w)
    ensures Core(s, other, w.active, w.nextSequence, {})
  {}

  lemma {:induction false} CoreWatches(s: Store, h: string, active: Option<Lease>, n: int)
    requires Core(s, h, active, n, {})
    ensures Bystander(s, h, Watch(active, n))
  {}

  // ---------- the pending rotation as a function of the reports ----------

  datatype PendingRotation = HardFailure | SoftProactive

  /** A report about the current lease that was applied, and not yet acted upon. */
  datatype Report = HardRecorded | RateLimits(below: bool, pastInterval: bool)

  /** At-threshold pressure past the interval with no later below-threshold report. */
  ghost predicate UnansweredPressure(reports: seq<Report>, i: nat) {
    && i < |reports| && reports[i].RateLimits? && !reports[i].below && reports[i].pastInterval
    && forall j :: i < j < |reports| && reports[j].RateLimits? ==> !reports[j].below
  }

  ghost function PendingFor(reports: seq<Report>): Option<PendingRotation> {
    if HardRecorded in reports then Some(HardFailure)
    else if exists i: nat :: UnansweredPressure(reports, i) then Some(SoftProactive)
    else None
  }

  /** How one more report moves the pending rotation: hard stays, relief clears soft, fresh pressure sets it. */
  lemma {:induction false} PendingForAppend(reports: seq<Report>, r: Report)
    ensures PendingFor(reports + [r]) ==
      match r
      case HardRecorded => Some(HardFailure)
      case RateLimits(below, past) =>
        if PendingFor(reports) == Some(HardFailure) then Some(HardFailure)
        else if below then None
        else if past then Some(SoftProactive)
        else PendingFor(reports)
  {
    var all := reports + [r];
    assert all[|reports|] == r;
    assert HardRecorded in all <==> HardRecorded in reports || r == HardRecorded;
    forall i: nat | i < |reports| && !(r.RateLimits? && r.below)
      ensures UnansweredPressure(all, i) <==> UnansweredPressure(reports, i)
    {
      assert all[i] == reports[i];
      if UnansweredPressure(all, i) {
        forall j | i < j < |reports| && reports[j].RateLimits?
          ensures !reports[j].below
        {
          assert all[j] == reports[j];
        }
      }
    }
    if r.RateLimits? && r.below {
      forall i: nat ensures !UnansweredPressure(all, i) {}
    } else if r.RateLimits? && r.pastInterval {
      assert UnansweredPressure(all, |reports|);
    } else if r.RateLimits? {
      forall i: nat ensures UnansweredPressure(all, i) <==> UnansweredPressure(reports, i) {
        if i == |reports| {
          assert !UnansweredPressure(all, i);
        }
      }
    }
  }

  // ---------- rotations do not thrash ----------

  datatype Move =
    | SoftMove(from: string, to: string)
    | HardMove
    | FailedRotation
    | Detached

  /** A lease given up for a soft rotation; `clockOk` says that no report was ahead of the clock. */
  datatype SoftRelease = SoftRelease(acquiredAt: Instant, at: Instant, clockOk: bool)

  ghost predicate Timely(releases: seq<SoftRelease>, interval: int) {
    forall r :: r in releases && r.clockOk ==> r.at - r.acquiredAt >= interval
  }

  /** Two soft moves in a row never return to the account that the first one left. */
  ghost predicate NoBounce(moves: seq<Move>) {
    forall i :: 0 <= i < |moves| - 1 && moves[i].SoftMove? && moves[i + 1].SoftMove? ==>
      moves[i + 1].from == moves[i].to && moves[i + 1].to != moves[i].from
  }

  ghost predicate Settled(active: Option<Lease>, lastReplaced: Option<string>, moves: seq<Move>) {
    && (FailedRotation !in moves ==>
          if active.None? then lastReplaced.None? else lastReplaced != Some(active.value.AccountId()))
    && (moves != [] && moves[|moves| - 1].SoftMove? ==>
          && lastReplaced == Some(moves[|moves| - 1].from)
          && active.Some? && active.value.AccountId() == moves[|moves| - 1].to)
    && NoBounce(moves)
  }

  lemma {:induction false} SettledSoftMove(active: Lease, next: Lease, last: Option<string>, moves: seq<Move>)
    requires Settled(Some(active), last, moves)
    requires next.AccountId() != active.AccountId() && Some(next.AccountId()) != last
    ensures Settled(Some(next), Some(active.AccountId()), moves + [SoftMove(active.AccountId(), next.AccountId())])
  {}

  lemma {:induction false} SettledOtherMove(active: Option<Lease>, last: Option<string>, moves: seq<Move>, m: Move)
    requires NoBounce(moves) && !m.SoftMove?
    requires FailedRotation !in moves + [m] ==>
      if active.None? then last.None? else last != Some(active.value.AccountId())
    ensures Settled(active, last, moves + [m])
  {}
}
