/**
 The state behind the execution backend of the account pool, and the contract
 of every backend call as a relation between the state before and after it.
 */
module LeaseStore {
  import opened Basics
  import opened Quota
  import opened Selection
  import opened SelectionTheorems

  datatype LeaseKey = LeaseKey(leaseId: nat, accountId: string, epoch: int)

  datatype Lease = Lease(key: LeaseKey, poolId: string, holder: string, acquiredAt: Instant, expiresAt: Instant) {
    function AccountId(): string { key.accountId }
  }

  datatype LeaseError = NoEligibleAccount | Storage

  datatype Renewal = Renewed(record: Lease) | Missing

  datatype Reservation = Reservation(limitId: string, reservedUntil: Instant)

  /** The backend calls whose order matters to the protocol. */
  datatype Call =
    | PlanCall
    | ProbeGranted(key: LeaseKey)
    | ReleaseCall(key: LeaseKey)
    | Recorded(accountId: string, sequence: int, byHolder: bool)
    | ReservationCall(accountId: string, won: bool)
    | ProbeRefused(accountId: string)
    | RefreshCall(accountId: string)

  /** `leases` holds the live lease of each account, so an account has at most one. */
  datatype Store = Store(
    pools: map<string, seq<AccountRecord>>,
    families: map<string, string>,
    leases: map<string, Lease>,
    nextLeaseId: nat,
    health: map<string, int>,
    calls: seq<Call>)
  {
    function Rows(pool: string): seq<AccountRecord> {
      if pool in pools then pools[pool] else []
    }

    function Health(accountId: string): int {
      if accountId in health then health[accountId] else 0
    }

    predicate Mine(holder: string, accountId: string) {
      accountId in leases && leases[accountId].holder == holder
    }

    predicate HoldsNothing(holder: string) {
      forall a :: a in leases ==> leases[a].holder != holder
    }

    /** No holder has two live leases, and lease ids are never reused. */
    ghost predicate Valid() {
      && (forall a :: a in leases ==> leases[a].AccountId() == a && leases[a].key.leaseId < nextLeaseId)
      && (forall a, b :: a in leases && b in leases && leases[a].holder == leases[b].holder ==> a == b)
      && (forall p :: p in pools ==> DistinctIds(pools[p]))
      && (forall k :: ProbeGranted(k) in calls ==> k.leaseId < nextLeaseId)
    }
  }

  /** What `holder` sees of an account row: its lease column is resolved against the live leases. */
  function Resolve(s: Store, holder: string, row: AccountRecord): AccountRecord {
    row.(leasedToOther := row.accountId in s.leases && s.leases[row.accountId].holder != holder)
  }

  function Snapshot(s: Store, pool: string, holder: string): (r: seq<AccountRecord>)
    ensures |r| == |s.Rows(pool)|
    ensures forall i :: 0 <= i < |r| ==> r[i] == Resolve(s, holder, s.Rows(pool)[i])
  {
    var rows := s.Rows(pool);
    seq(|rows|, i requires 0 <= i < |rows| => Resolve(s, holder, rows[i]))
  }

  function FamilyFor(s: Store, request: Request): string {
    if request.family.Some? then request.family.value
    else if request.intent.Startup? then "codex"
    else if request.current.Some? && request.current.value in s.families then s.families[request.current.value]
    else "codex"
  }

  function PlanRequest(s: Store, request: Request): Request {
    request.(family := Some(FamilyFor(s, request)))
  }

  /** The request's own family comes first, then the one its current account is known for; startup asks for none. */
  lemma {:induction false} FamilyMeans(s: Store, request: Request, family: string)
    ensures FamilyFor(s, request) == family <==>
      || request.family == Some(family)
      || (&& request.family == None && request.intent != Startup
          && exists a :: request.current == Some(a) && a in s.families && s.families[a] == family)
      || (&& request.family == None && family == "codex"
          && (request.intent == Startup || forall a :: request.current == Some(a) ==> a !in s.families))
  {
    if request.current.Some? {
      assert request.current == Some(request.current.value);
    }
  }

  /**
   A plan sees the rows of the pool in their order; an account is leased to another
   exactly while somebody else's lease lives.
   */
  lemma {:induction false} SnapshotMeans(s: Store, pool: string, holder: string, i: nat)
    requires s.Valid() && i < |s.Rows(pool)|
    ensures var row, seen := s.Rows(pool)[i], Snapshot(s, pool, holder)[i];
            && seen.(leasedToOther := row.leasedToOther) == row
            && (seen.leasedToOther <==>
                  exists l :: l in s.leases.Values && l.AccountId() == row.accountId && l.holder != holder)
  {
    var a := s.Rows(pool)[i].accountId;
    if a in s.leases {
      assert s.leases[a] in s.leases.Values;
    }
  }

  // ---------- how a call may change the state ----------

  /** Lease `l` of account `a` was there before, give or take a new expiry. */
  predicate Inherited(s: Store, a: string, l: Lease) {
    a in s.leases && s.leases[a].(expiresAt := l.expiresAt) == l
  }

  /** Leases end, are prolonged, or are new under a fresh id. */
  ghost predicate Evolves(s: Store, s': Store) {
    && s'.Valid()
    && s.nextLeaseId <= s'.nextLeaseId
    && (forall a :: a in s'.leases ==> Inherited(s, a, s'.leases[a]) || s'.leases[a].key.leaseId >= s.nextLeaseId)
  }

  /** `holder` has no lease it did not have before. */
  ghost predicate GainsNothing(s: Store, s': Store, holder: string) {
    forall a :: a in s'.leases && s'.leases[a].holder == holder ==> Inherited(s, a, s'.leases[a])
  }

  /** `holder` keeps exactly the leases it had. */
  ghost predicate SameHoldings(s: Store, s': Store, holder: string) {
    && (forall a :: s'.Mine(holder, a) ==> s.Mine(holder, a) && s'.leases[a] == s.leases[a])
    && (forall a :: s.Mine(holder, a) ==> s'.Mine(holder, a))
  }

  /** Two snapshots list the same accounts and agree on all of them but `a`. */
  ghost predicate OnlyChanged(x: seq<AccountRecord>, y: seq<AccountRecord>, a: string) {
    && |x| == |y|
    && (forall i :: 0 <= i < |x| ==> x[i].accountId == y[i].accountId)
    && (forall i :: 0 <= i < |x| && x[i].accountId != a ==> x[i] == y[i])
  }

  ghost predicate ChangesOnly(s: Store, s': Store, holder: string, a: string) {
    && s'.families == s.families
    && forall pool :: OnlyChanged(Snapshot(s, pool, holder), Snapshot(s', pool, holder), a)
  }

  predicate Available(row: AccountRecord, family: string) {
    row.enabled && row.authEligible && !row.leasedToOther
    && (row.quota.Effective(family).Some? ==> !row.quota.Effective(family).value.exhausted.IsExhausted())
  }

  predicate HardBlocked(row: AccountRecord) {
    !row.enabled || !row.authEligible || row.leasedToOther
  }

  /** No row of account `a` is due for a probe at `t`. */
  ghost predicate NotDue(s: Store, a: string, family: string, t: Instant) {
    forall pool, i :: 0 <= i < |s.Rows(pool)| && s.Rows(pool)[i].accountId == a
      ==> !Classify(s.Rows(pool)[i], family, t).ProbeEligibleBlocked?
  }

  ghost predicate QuietBefore(s: Store, a: string, family: string, limit: Instant) {
    forall t :: t < limit ==> NotDue(s, a, family, t)
  }

  /**
   A lease for `a`. A holder with a live lease gets that one back. A refused
   account that looked available has been taken by someone else. A storage
   error may still leave a lease behind.
   */
  ghost predicate AcquireRel(s: Store, s': Store, pool: string, a: string, family: string, holder: string,
                             r: Result<Lease, LeaseError>)
  {
    && Evolves(s, s') && s'.calls == s.calls && s'.health == s.health
    && (r.Ok? ==>
          && s'.Mine(holder, r.value.AccountId()) && s'.leases[r.value.AccountId()] == r.value
          && (s.HoldsNothing(holder) ==>
                r.value.AccountId() == a && r.value.poolId == pool && r.value.key.leaseId >= s.nextLeaseId)
          && (!s.HoldsNothing(holder) ==> s' == s))
    && (r == Err(NoEligibleAccount) ==>
          && SameHoldings(s, s', holder) && ChangesOnly(s, s', holder, a)
          && (var x, y := Snapshot(s, pool, holder), Snapshot(s', pool, holder);
              forall i :: 0 <= i < |x| && x[i].accountId == a ==>
                if Available(x[i], family) then HardBlocked(y[i]) else y[i] == x[i]))
  }

  /** A verification lease for `a`, given to a holder of its own. */
  ghost predicate AcquireProbeRel(s: Store, s': Store, a: string, holder: string, r: Result<Lease, LeaseError>) {
    && Evolves(s, s') && s'.health == s.health
    && (forall other :: other != holder ==> SameHoldings(s, s', other))
    && (forall other :: other != holder ==> ChangesOnly(s, s', other, a))
    && s'.pools == s.pools
    && s'.calls == s.calls + (match r
                              case Ok(lease) => [ProbeGranted(lease.key)]
                              case Err(NoEligibleAccount) => [ProbeRefused(a)]
                              case Err(Storage) => [])
    && (r.Ok? ==>
          && r.value.AccountId() == a && s'.Mine(holder, a) && s'.leases[a] == r.value
          && r.value.key.leaseId >= s.nextLeaseId && r.value.key.leaseId < s'.nextLeaseId)
  }

  /** An instant as the tables keep it, in whole seconds. */
  function Stored(t: Instant): Instant { t - t % NANOS_PER_SECOND }

  /**
   A reservation for `reservedFor`, won or lost; in either case the account is
   not due any more. Who else won it did so after the plan, for as long.
   */
  ghost predicate ReserveRel(s: Store, s': Store, a: string, family: string, planned: Instant, now: Instant,
                             reservedFor: int, r: Result<Option<Reservation>, LeaseError>)
  {
    && s'.Valid() && s'.leases == s.leases && s'.nextLeaseId == s.nextLeaseId
    && s'.health == s.health
    && s'.calls == s.calls + (if r.Ok? then [ReservationCall(a, r.value.Some?)] else [])
    && (forall holder :: ChangesOnly(s, s', holder, a))
    && (r.Ok? ==> QuietBefore(s', a, family, Stored(planned + reservedFor)))
    && (r.Ok? && r.value.Some? ==>
          && r.value.value.reservedUntil == now + reservedFor
          && QuietBefore(s', a, family, Stored(now + reservedFor)))
  }

  /** A probe updates the quota row it reserved, and never makes it due again before the reservation ends. */
  ghost predicate RefreshRel(s: Store, s': Store, a: string, family: string, reservation: Reservation,
                             r: Result<(), LeaseError>)
  {
    && s'.Valid() && s'.leases == s.leases && s'.nextLeaseId == s.nextLeaseId
    && s'.health == s.health && s'.calls == s.calls + (if r.Ok? then [RefreshCall(a)] else [])
    && (forall holder :: ChangesOnly(s, s', holder, a))
    && (r.Ok? && QuietBefore(s, a, family, Stored(reservation.reservedUntil)) ==>
          QuietBefore(s', a, family, Stored(reservation.reservedUntil)))
  }

  predicate Matches(s: Store, key: LeaseKey) {
    key.accountId in s.leases && s.leases[key.accountId].key == key
  }

  function Without(s: Store, key: LeaseKey): Store {
    if Matches(s, key) then s.(leases := s.leases - {key.accountId}) else s
  }

  /** A release that reports an error may or may not have happened. */
  ghost predicate ReleaseRel(s: Store, s': Store, key: LeaseKey, r: Result<bool, LeaseError>) {
    var logged := s.(calls := s.calls + [ReleaseCall(key)]);
    && (r.Ok? ==> r.value == Matches(s, key) && s' == Without(logged, key))
    && (r.Err? ==> s' == logged || s' == Without(logged, key))
  }

  /** A renewal keeps everything about the lease but its expiry, which it sets; a missing lease is gone. */
  ghost predicate RenewRel(s: Store, s': Store, key: LeaseKey, expiry: Instant, r: Result<Renewal, LeaseError>) {
    match r
    case Ok(Renewed(record)) =>
      && Matches(s, key) && Inherited(s, key.accountId, record) && record.expiresAt == expiry
      && s' == s.(leases := s.leases[key.accountId := record])
    case Ok(Missing) => s' == Without(s, key)
    case Err(_) =>
      || s' == s
      || (Matches(s, key) && exists t ::
            s' == s.(leases := s.leases[key.accountId := s.leases[key.accountId].(expiresAt := t)]))
  }

  /** Storage keeps the highest sequence it has seen for an account. */
  function Noted(s: Store, a: string, sequence: int, byHolder: bool): Store {
    s.(health := s.health[a := if a in s.health && s.health[a] > sequence then s.health[a] else sequence],
       calls := s.calls + [Recorded(a, sequence, byHolder)])
  }

  /** Every number that a leaseholder recorded for account `a` is below `n`. */
  predicate RecordedBelow(calls: seq<Call>, a: string, n: int) {
    forall c :: c in calls && c.Recorded? && c.byHolder && c.accountId == a ==> c.sequence < n
  }

  /** An event reaches storage or not; whether the recorder holds the lease makes no difference. */
  ghost predicate RecordRel(s: Store, s': Store, holder: string, a: string, sequence: int, r: Result<(), LeaseError>) {
    s' == Noted(s, a, sequence, s.Mine(holder, a)) || (r.Err? && s' == s)
  }

  /** Reading the lease of a holder may fail, and a failed read may give the lease up. */
  ghost predicate ReadHolderRel(s: Store, s': Store, holder: string, r: Result<Option<Lease>, LeaseError>) {
    match r
    case Ok(None) => s' == s && s.HoldsNothing(holder)
    case Ok(Some(l)) => s' == s && s.Mine(holder, l.AccountId()) && s.leases[l.AccountId()] == l
    case Err(_) => exists gone :: s' == s.(leases := s.leases - gone)
  }

  /**
   What happens between two operations of `holder`: leases end, other holders
   acquire, release and record, rows change. Nobody acts in the name of
   `holder`. Others number what they record for a lease they hold; what they
   record for a lease they have lost may carry any number.
   */
  ghost predicate InterfereRel(s: Store, s': Store, holder: string) {
    && Evolves(s, s') && GainsNothing(s, s', holder)
    && (|| (s'.calls == s.calls && s'.health == s.health)
        || (exists a, sequence, byHolder ::
              && s' == Noted(s, a, sequence, byHolder)
              && (byHolder ==> a in s.leases && s.leases[a].holder != holder && RecordedBelow(s.calls, a, sequence))))
  }
}
