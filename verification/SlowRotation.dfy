/** Rotations that take as many turns as any can (`acquire_selected_rotation_lease`). */
module SlowRotation {
  import opened Basics
  import opened Quota
  import opened Selection
  import opened SelectionTheorems
  import opened LeaseStore
  import opened Backend
  import opened Progress
  import opened RotationTurns
  import Sorting

  // ---------- the setting ----------

  const OTHER_FAMILY := "other"
  const HOLDER := "h"
  const POOL := "pool"
  /** The account that the rotation leaves. */
  const CURRENT := ""
  const NOW: Instant := 0

  const LEASE := Lease(LeaseKey(0, CURRENT, 0), POOL, HOLDER, 0, 0)

  const REQUEST := Request(Some(POOL), SoftRotation, None, None, Some(CURRENT), None, None, 85)

  const ROTATION := Rotation(REQUEST, LEASE, HOLDER, HOLDER + ":probe", NOW)

  const UNTIL: Instant := NOW + PROBE_RESERVATION

  /** A row that is exhausted in a family; `None` as the time of the next probe means at once. */
  function Exhausted(family: string, nextProbe: Option<Instant>): QuotaRow {
    QuotaRow(family, None, None, None, None, Primary, None, nextProbe)
  }

  /** Exhausted in both families, and due in the fallback family. */
  function TwoRows(nextProbe: Option<Instant>): QuotaView {
    QuotaView(Some(Exhausted(OTHER_FAMILY, nextProbe)), Some(Exhausted("codex", None)))
  }

  function Name(i: nat): (a: string)
    ensures |a| == i + 1 && a[0] == 'a'
  {
    seq(i + 1, _ => 'a')
  }

  function Row(a: string, position: nat): AccountRecord {
    AccountRecord(a, true, true, position, false, TwoRows(None))
  }

  /** `n` accounts that are due in both families, the current one last if it is listed. */
  function StartRows(n: nat, listed: bool): (r: seq<AccountRecord>)
    ensures |r| == n && forall i :: 0 <= i < n ==> r[i] == StartRow(n, listed, i)
  {
    seq(n, i requires 0 <= i < n => StartRow(n, listed, i))
  }

  function StartRow(n: nat, listed: bool, i: nat): AccountRecord {
    Row(if listed && i + 1 == n then CURRENT else Name(i), i + 1)
  }

  function StartStore(n: nat, listed: bool): Store {
    Store(map[POOL := StartRows(n, listed)], map[CURRENT := OTHER_FAMILY], map[CURRENT := LEASE], 1, map[], [])
  }

  function Rival(a: string): string {
    "r" + a
  }

  /** The two requests of the rotation as they are planned. */
  const FIRST := REQUEST.(family := Some(OTHER_FAMILY))
  const LATER := REQUEST.(current := None, family := Some("codex"))

  /** Live leases are the current one while it is held, and those of rivals. */
  ghost predicate Calm(x: Stage) {
    var s := x.store;
    && s.Valid() && s.families == map[CURRENT := OTHER_FAMILY] && s.nextLeaseId > 0
    && (forall a :: a in s.leases ==>
          if a == CURRENT && !x.released then s.leases[a] == LEASE else s.leases[a].holder == Rival(a))
    && (!x.released ==> CURRENT in s.leases)
    && (forall i :: 0 <= i < |s.Rows(POOL)| ==>
          var c := s.Rows(POOL)[i];
          c.enabled && c.authEligible && c.poolPosition > 0)
  }

  function View(x: Stage): seq<AccountRecord> {
    Snapshot(x.store, POOL, HOLDER)
  }

  lemma {:induction false} Requests(x: Stage)
    requires Calm(x)
    ensures PlanRequest(x.store, RotationRequest(REQUEST, false)) == FIRST
    ensures PlanRequest(x.store, RotationRequest(REQUEST, true)) == LATER
    ensures FamilyFor(x.store, RotationRequest(REQUEST, false)) == OTHER_FAMILY
    ensures FamilyFor(x.store, RotationRequest(REQUEST, true)) == "codex"
  {}

  // ---------- single steps ----------

  lemma {:induction false} RivalIsFree(x: Stage, a: string)
    requires Calm(x) && a !in x.store.leases
    ensures x.store.HoldsNothing(Rival(a)) && Rival(a) != HOLDER
    ensures x.store.HoldsNothing(HOLDER + ":probe")
  {
    assert Rival(a)[0] == 'r' && HOLDER[0] == 'h' && (HOLDER + ":probe")[0] == 'h';
    assert |HOLDER + ":probe"| != |HOLDER|;
    forall b | b in x.store.leases
      ensures x.store.leases[b].holder != Rival(a) && x.store.leases[b].holder != HOLDER + ":probe"
    {
      assert Rival(b)[0] == 'r' && Rival(b)[1..] == b && Rival(a)[1..] == a;
    }
  }

  /** A candidate that is not leased to a rival is not leased, apart from the current lease. */
  lemma {:induction false} NotLeased(x: Stage, k: nat)
    requires Calm(x) && k < |View(x)| && !View(x)[k].leasedToOther
    ensures View(x)[k].accountId in x.store.leases ==> View(x)[k].accountId == CURRENT && !x.released
  {
    var a := View(x)[k].accountId;
    assert x.store.Rows(POOL)[k].accountId == a;
    assert Rival(a)[0] == 'r';
  }

  /** The state after the plan, with the current lease given back. */
  function Freed(x: Stage): Store {
    var planned := Logged(x.store, PlanCall);
    if x.released then planned else Without(Logged(planned, ReleaseCall(LEASE.key)), LEASE.key)
  }

  lemma {:induction false} FreedIsCalm(x: Stage)
    requires Calm(x)
    ensures Calm(Stage(Freed(x), true, x.exhausted)) && View(Stage(Freed(x), true, x.exhausted)) == View(x)
    ensures !x.released ==> ReleaseRel(Logged(x.store, PlanCall), Freed(x), LEASE.key, Ok(true))
  {
    var s, t := x.store, Freed(x);
    assert t.pools == s.pools && t.Rows(POOL) == s.Rows(POOL);
    assert Rival(CURRENT)[0] == 'r';
    forall i | 0 <= i < |View(x)| ensures Resolve(t, HOLDER, s.Rows(POOL)[i]) == Resolve(s, HOLDER, s.Rows(POOL)[i]) {}
    forall c | ProbeGranted(c) in t.calls ensures ProbeGranted(c) in s.calls {}
  }

  function RivalLease(s: Store, a: string): Lease {
    Lease(LeaseKey(s.nextLeaseId, a, 0), POOL, Rival(a), 0, 0)
  }

  /** The selected account is taken by a rival first. */
  function Taken(x: Stage, a: string): Stage {
    Stage(Grant(Freed(x), RivalLease(Freed(x), a)), true, x.exhausted)
  }

  /** Two stages that list the same candidates except at position `k`, where it is `c`. */
  ghost predicate ChangesAt(x: Stage, y: Stage, k: nat, c: AccountRecord) {
    && k < |View(x)| && |View(y)| == |View(x)| && View(y)[k] == c && c.accountId == View(x)[k].accountId
    && forall i :: 0 <= i < |View(x)| && i != k ==> View(y)[i] == View(x)[i]
  }

  lemma {:induction false} TakenIsCalm(x: Stage, k: nat)
    requires Calm(x) && k < |View(x)| && !View(x)[k].leasedToOther
    requires View(x)[k].accountId == CURRENT ==> x.released
    ensures
      var y := Taken(x, View(x)[k].accountId);
      && Grantable(Freed(x), RivalLease(Freed(x), View(x)[k].accountId))
      && ChangesAt(x, y, k, View(x)[k].(leasedToOther := true))
    ensures Calm(Taken(x, View(x)[k].accountId))
  {
    var a := View(x)[k].accountId;
    FreedIsCalm(x);
    var free := Stage(Freed(x), true, x.exhausted);
    NotLeased(free, k);
    RivalIsFree(free, a);
    var lease := RivalLease(Freed(x), a);
    GrantEvolves(Freed(x), lease);
    var y := Taken(x, a);
    forall i | 0 <= i < |View(x)| && i != k ensures View(y)[i] == View(x)[i] {
      SnapshotDistinct(x.store, POOL, HOLDER);
      assert View(x)[i].accountId != a;
      assert Resolve(y.store, HOLDER, x.store.Rows(POOL)[i]) == Resolve(Freed(x), HOLDER, x.store.Rows(POOL)[i]);
    }
  }

  function Planned(x: Stage): Request {
    if x.exhausted then LATER else FIRST
  }

  function Action(x: Stage): Action {
    Evaluate(Planned(x), NOW, View(x)).action
  }

  lemma {:induction false} LosesTo(free: Stage, k: nat, family: string)
    requires Calm(free) && free.released && k < |View(free)| && Available(View(free)[k], family)
    requires var a := View(free)[k].accountId; Grantable(free.store, RivalLease(free.store, a))
    ensures
      var a := View(free)[k].accountId;
      AcquireRel(free.store, Grant(free.store, RivalLease(free.store, a)), POOL, a, family, HOLDER,
                 Err(NoEligibleAccount))
  {
    var a := View(free)[k].accountId;
    assert Rival(a)[0] == 'r';
    AcquireLost(free.store, RivalLease(free.store, a), family, HOLDER);
  }

  lemma {:induction false} SelectTurn(x: Stage, k: nat)
    requires Calm(x) && k < |View(x)| && Weight(Planned(x), NOW, View(x)[k]) == 1
    requires Action(x) == Select(View(x)[k].accountId) && (x.exhausted ==> x.released)
    ensures var y := Taken(x, View(x)[k].accountId); Turn(ROTATION, x, y) && Calm(y)
    ensures ChangesAt(x, Taken(x, View(x)[k].accountId), k, View(x)[k].(leasedToOther := true))
  {
    var a, family := View(x)[k].accountId, Planned(x).family.value;
    Requests(x);
    FreedIsCalm(x);
    TakenIsCalm(x, k);
    LosesTo(Stage(Freed(x), true, x.exhausted), k, family);
    assert GivenBack(Logged(x.store, PlanCall), Freed(x), x.released, LEASE.key);
    hide AcquireRel, ReleaseRel, Freed, Grant, GivenBack;
    assert Refused(ROTATION, Logged(x.store, PlanCall), Taken(x, a).store, x.released, a, family);
  }

  // ---------- probes ----------

  /** What a probe leaves behind: the reservation is postponed, and then the row recovers or is postponed again. */
  function Seen(family: string, recovered: bool): QuotaView -> QuotaView {
    v => if recovered then Recover(v, family) else Postpone(v, family, UNTIL)
  }

  function Postponed(family: string): QuotaView -> QuotaView {
    v => Postpone(v, family, UNTIL)
  }

  function ProbeLease(s: Store, a: string): Lease {
    Lease(LeaseKey(s.nextLeaseId, a, 0), POOL, HOLDER + ":probe", 0, 0)
  }

  function Reserving(x: Stage, a: string, family: string): Store {
    Logged(WithQuota(Logged(x.store, PlanCall), a, Postponed(family)), ReservationCall(a, true))
  }

  function Granting(s: Store, a: string): Store {
    Logged(Grant(s, ProbeLease(s, a)), ProbeGranted(ProbeLease(s, a).key))
  }

  function Refreshing(s: Store, a: string, family: string, recovered: bool): Store {
    Logged(WithQuota(s, a, Seen(family, recovered)), RefreshCall(a))
  }

  function Probed(x: Stage, a: string, family: string, recovered: bool): Stage {
    var s1 := Reserving(x, a, family);
    var s3 := Refreshing(Granting(s1, a), a, family, recovered);
    var key := ProbeLease(s1, a).key;
    x.(store := Without(Logged(s3, ReleaseCall(key)), key))
  }

  lemma {:induction false} LoggedIsValid(s: Store, call: Call)
    requires s.Valid() && !call.ProbeGranted?
    ensures Logged(s, call).Valid()
  {
    forall k | ProbeGranted(k) in Logged(s, call).calls ensures ProbeGranted(k) in s.calls {}
  }

  lemma {:induction false} ReservesProbe(x: Stage, a: string, family: string)
    requires Calm(x)
    ensures
      var s1 := Reserving(x, a, family);
      && ReserveRel(Logged(x.store, PlanCall), s1, a, family, NOW, NOW, PROBE_RESERVATION,
                    Ok(Some(Reservation(family, UNTIL))))
      && s1.Valid() && s1.leases == x.store.leases
      && QuietBefore(s1, a, family, UNTIL)
  {
    LoggedIsValid(x.store, PlanCall);
    QuotaCall(Logged(x.store, PlanCall), a, Postponed(family), family, UNTIL, ReservationCall(a, true), map[]);
  }

  lemma {:induction false} GrantsProbe(s: Store, a: string)
    requires s.Valid() && a !in s.leases && s.HoldsNothing(HOLDER + ":probe")
    ensures AcquireProbeRel(s, Granting(s, a), a, HOLDER + ":probe", Ok(ProbeLease(s, a)))
    ensures Granting(s, a).Valid()
  {
    ProbeGrantRelates(s, ProbeLease(s, a));
  }

  lemma {:induction false} RefreshesProbe(s: Store, a: string, family: string, recovered: bool)
    requires s.Valid()
    ensures RefreshRel(s, Refreshing(s, a, family, recovered), a, family, Reservation(family, UNTIL), Ok(()))
    ensures Refreshing(s, a, family, recovered).Valid()
  {
    QuotaCall(s, a, Seen(family, recovered), family, UNTIL, RefreshCall(a), map[]);
  }

  lemma {:induction false} ReleasesProbe(s: Store, key: LeaseKey)
    requires s.Valid()
    ensures ReleaseRel(s, Without(Logged(s, ReleaseCall(key)), key), key, Ok(Matches(s, key)))
    ensures Without(Logged(s, ReleaseCall(key)), key).Valid()
  {
    LoggedIsValid(s, ReleaseCall(key));
  }

  lemma {:induction false} ProbeRounds(x: Stage, a: string, family: string, recovered: bool)
    requires Calm(x) && a !in x.store.leases
    ensures ProbeRound(Logged(x.store, PlanCall), Probed(x, a, family, recovered).store, a, family, NOW, NOW,
                       HOLDER + ":probe")
    ensures Probed(x, a, family, recovered).store.Valid()
  {
    hide ReserveRel, AcquireProbeRel, RefreshRel, ReleaseRel, WithQuota, Grant;
    var s1 := Reserving(x, a, family);
    var s2, probe := Granting(s1, a), ProbeLease(s1, a);
    var s3 := Refreshing(s2, a, family, recovered);
    var y := Probed(x, a, family, recovered).store;
    var reservation := Reservation(family, UNTIL);
    ReservesProbe(x, a, family);
    RivalIsFree(x, a);
    GrantsProbe(s1, a);
    RefreshesProbe(s2, a, family, recovered);
    ReleasesProbe(s3, probe.key);
    assert Verified(s2, y, family, reservation, probe);
    assert Reserved(s1, y, a, family, reservation, HOLDER + ":probe");
  }

  /** The view after a probe. */
  function SeenTwice(view: QuotaView, family: string, recovered: bool): QuotaView {
    Seen(family, recovered)(Postponed(family)(view))
  }

  lemma {:induction false} ProbedIsCalm(x: Stage, k: nat, family: string, recovered: bool)
    requires Calm(x) && k < |View(x)| && !View(x)[k].leasedToOther && View(x)[k].accountId !in x.store.leases
    ensures
      var y := Probed(x, View(x)[k].accountId, family, recovered);
      && Calm(y)
      && ChangesAt(x, y, k, View(x)[k].(quota := SeenTwice(View(x)[k].quota, family, recovered)))
  {
    hide SeenTwice, Reserving, Granting, WithQuota, Without, Logged, ProbeRound;
    var a := View(x)[k].accountId;
    var y := Probed(x, a, family, recovered);
    ProbeRounds(x, a, family, recovered);
    ProbedStore(x, a, family, recovered);
    SnapshotDistinct(x.store, POOL, HOLDER);
    forall i | 0 <= i < |View(x)|
      ensures View(y)[i] ==
        if i == k then View(x)[k].(quota := SeenTwice(View(x)[k].quota, family, recovered)) else View(x)[i]
    {
      assert i != k ==> View(x)[i].accountId != a;
    }
  }

  lemma {:induction false} ProbedStore(x: Stage, a: string, family: string, recovered: bool)
    requires Calm(x) && a !in x.store.leases
    ensures
      var y := Probed(x, a, family, recovered).store;
      && y.leases == x.store.leases && y.families == x.store.families && y.nextLeaseId > 0
      && |y.Rows(POOL)| == |x.store.Rows(POOL)|
      && forall i :: 0 <= i < |y.Rows(POOL)| ==>
           var c := x.store.Rows(POOL)[i];
           y.Rows(POOL)[i] == if c.accountId == a then c.(quota := SeenTwice(c.quota, family, recovered)) else c
  {
    var s1 := Reserving(x, a, family);
    var s3 := Refreshing(Granting(s1, a), a, family, recovered);
    assert Matches(s3, ProbeLease(s1, a).key);
    assert Probed(x, a, family, recovered).store.leases == x.store.leases;
  }

  lemma {:induction false} ProbeTurn(x: Stage, k: nat, recovered: bool)
    requires Calm(x) && k < |View(x)| && Weight(Planned(x), NOW, View(x)[k]) == 2
    requires Action(x) == Probe(View(x)[k].accountId) && View(x)[k].accountId !in x.store.leases
    ensures
      var family := Planned(x).family.value;
      var y := Probed(x, View(x)[k].accountId, family, recovered);
      && Turn(ROTATION, x, y) && Calm(y)
      && ChangesAt(x, y, k, View(x)[k].(quota := SeenTwice(View(x)[k].quota, family, recovered)))
  {
    Requests(x);
    ProbeRounds(x, View(x)[k].accountId, Planned(x).family.value, recovered);
    ProbedIsCalm(x, k, Planned(x).family.value, recovered);
  }

  // ---------- the later plans ----------

  /** How a change at one position changes the weight of all candidates. */
  lemma {:induction false} WeightChanges(x: Stage, y: Stage, request: Request, k: nat, c: AccountRecord)
    requires Calm(x) && ChangesAt(x, y, k, c)
    ensures
      Potential(request, NOW, View(y)) + Weight(request, NOW, View(x)[k])
      == Potential(request, NOW, View(x)) + Weight(request, NOW, c)
  {
    hide Total;
    var w := WeightOf(request, NOW);
    SnapshotDistinct(x.store, POOL, HOLDER);
    assert DifferAt(w, View(x), w, View(y), View(x)[k].accountId) by {
      forall i | 0 <= i < |View(x)| && View(x)[i].accountId != View(x)[k].accountId
        ensures w(View(x)[i]) == w(View(y)[i])
      {
        assert i != k;
      }
    }
    TotalDelta(w, View(x), w, View(y), View(x)[k].accountId, k);
  }

  /** `LATER` plans take one turn for each unit of weight: a due candidate recovers and is then lost to a rival. */
  lemma {:induction false} LaterTurn(x: Stage) returns (y: Stage)
    requires Calm(x) && x.exhausted && x.released && Potential(LATER, NOW, View(x)) > 0
    ensures Turn(ROTATION, x, y) && Calm(y) && y.exhausted && y.released && |View(y)| == |View(x)|
    ensures Potential(LATER, NOW, View(y)) == Potential(LATER, NOW, View(x)) - 1
  {
    ActionWeighs(LATER, NOW, View(x));
    hide Turn, Evaluate, Potential, Snapshot, Calm, Grant, WithQuota, Freed, SeenTwice, HardReject, Classify;
    match Action(x) {
      case Select(a) =>
        var k :| 0 <= k < |View(x)| && View(x)[k].accountId == a && Weight(LATER, NOW, View(x)[k]) == 1;
        SelectTurn(x, k);
        y := Taken(x, a);
        LeasedWeighsNothing(LATER, View(x)[k]);
        WeightChanges(x, y, LATER, k, View(x)[k].(leasedToOther := true));
      case Probe(a) =>
        var k :| 0 <= k < |View(x)| && View(x)[k].accountId == a && Weight(LATER, NOW, View(x)[k]) == 2;
        WeighsUnleased(LATER, View(x)[k]);
        NotLeased(x, k);
        ProbeTurn(x, k, true);
        y := Probed(x, a, "codex", true);
        RecoveredIsOpen(View(x)[k]);
        WeightChanges(x, y, LATER, k, View(x)[k].(quota := SeenTwice(View(x)[k].quota, "codex", true)));
      case _ =>
    }
  }

  lemma {:induction false} LeasedWeighsNothing(request: Request, c: AccountRecord)
    ensures Weight(request, NOW, c.(leasedToOther := true)) == 0
  {}

  lemma {:induction false} WeighsUnleased(request: Request, c: AccountRecord)
    requires Weight(request, NOW, c) > 0
    ensures !c.leasedToOther
  {}

  lemma {:induction false} RecoveredIsOpen(c: AccountRecord)
    requires Weight(LATER, NOW, c) == 2
    ensures Weight(LATER, NOW, c.(quota := SeenTwice(c.quota, "codex", true))) == 1
  {}

  lemma {:induction false} Prepend(x: Stage, stages: seq<Stage>)
    requires Run(ROTATION, stages) && Turn(ROTATION, x, stages[0])
    ensures Run(ROTATION, [x] + stages)
  {
    hide Turn;
    var all := [x] + stages;
    forall i | 0 <= i < |all| - 1 ensures Turn(ROTATION, all[i], all[i + 1]) {
      assert i > 0 ==> all[i] == stages[i - 1] && all[i + 1] == stages[i];
    }
  }

  /** The last plan of a run finds nobody. */
  ghost predicate Over(stages: seq<Stage>) {
    && stages != []
    && var last := stages[|stages| - 1];
    && last.exhausted && Potential(LATER, NOW, View(last)) == 0
  }

  lemma {:induction false} LaterRun(x: Stage) returns (stages: seq<Stage>)
    requires Calm(x) && x.exhausted && x.released
    ensures Run(ROTATION, stages) && stages[0] == x && |stages| == Potential(LATER, NOW, View(x)) + 1 && Over(stages)
    decreases Potential(LATER, NOW, View(x))
  {
    hide Turn, Potential, Calm, Snapshot;
    if Potential(LATER, NOW, View(x)) == 0 {
      stages := [x];
    } else {
      var y := LaterTurn(x);
      var rest := LaterRun(y);
      stages := [x] + rest;
      Prepend(x, rest);
    }
  }

  // ---------- the plans for the current account ----------

  /** A listed account is leased to a rival, due in both families, or probed in vain and due in the fallback family. */
  ghost predicate Tame(x: Stage) {
    forall i :: 0 <= i < |View(x)| ==>
      var c := View(x)[i];
      && c.enabled && c.authEligible
      && (c.leasedToOther || c.quota == TwoRows(None) || c.quota == TwoRows(Some(UNTIL)))
      && (c.accountId == CURRENT ==> !c.leasedToOther && c.quota == TwoRows(None))
  }

  lemma {:induction false} TameWeights(x: Stage)
    requires Tame(x)
    ensures forall i :: 0 <= i < |View(x)| ==>
      && Weight(FIRST, NOW, View(x)[i]) != 1
      && (Weight(FIRST, NOW, View(x)[i]) == 2 ==> View(x)[i].quota == TwoRows(None) && View(x)[i].accountId != CURRENT)
      && (Weight(FIRST, NOW, View(x)[i]) == 2 ==> Weight(LATER, NOW, View(x)[i]) == 2)
  {}

  lemma {:induction false} ProbedInVain(c: AccountRecord)
    requires c.enabled && c.authEligible && !c.leasedToOther && c.accountId != CURRENT && c.quota == TwoRows(None)
    ensures
      var d := c.(quota := SeenTwice(c.quota, OTHER_FAMILY, false));
      && d.quota == TwoRows(Some(UNTIL)) && Weight(FIRST, NOW, d) == 0 && Weight(LATER, NOW, d) == 2
    ensures
      var d := c.(quota := SeenTwice(c.quota, OTHER_FAMILY, true));
      Weight(FIRST, NOW, d) == 1 && Weight(LATER, NOW, d) == 2
  {}

  lemma {:induction false} TameAfter(x: Stage, y: Stage, k: nat, c: AccountRecord)
    requires Tame(x) && ChangesAt(x, y, k, c) && c.enabled && c.authEligible && c.accountId != CURRENT
    requires c.leasedToOther || c.quota == TwoRows(Some(UNTIL))
    ensures Tame(y)
  {
    forall i | 0 <= i < |View(y)| ensures i != k ==> View(y)[i] == View(x)[i] {}
  }

  /** Once the lease is given up, every due candidate is probed in vain. */
  lemma {:induction false} FirstTurn(x: Stage) returns (y: Stage)
    requires Calm(x) && Tame(x) && x.released && !x.exhausted && Potential(FIRST, NOW, View(x)) > 0
    ensures Turn(ROTATION, x, y) && Calm(y) && Tame(y) && y.released && !y.exhausted
    ensures Potential(FIRST, NOW, View(y)) == Potential(FIRST, NOW, View(x)) - 2
    ensures Potential(LATER, NOW, View(y)) == Potential(LATER, NOW, View(x))
  {
    ActionWeighs(FIRST, NOW, View(x));
    TameWeights(x);
    hide Turn, Evaluate, Potential, Snapshot, Calm, Grant, WithQuota, SeenTwice, HardReject, Classify;
    match Action(x) {
      case Probe(a) =>
        var k :| 0 <= k < |View(x)| && View(x)[k].accountId == a && Weight(FIRST, NOW, View(x)[k]) == 2;
        var c := View(x)[k];
        WeighsUnleased(FIRST, c);
        NotLeased(x, k);
        ProbeTurn(x, k, false);
        y := Probed(x, a, OTHER_FAMILY, false);
        ProbedInVain(c);
        var d := c.(quota := SeenTwice(c.quota, OTHER_FAMILY, false));
        WeightChanges(x, y, FIRST, k, d);
        WeightChanges(x, y, LATER, k, d);
        TameAfter(x, y, k, d);
      case _ =>
    }
  }

  /** With no candidate left the return to the exhausted current account is refused, and its exclusion ends. */
  lemma {:induction false} ReturnTurn(x: Stage) returns (y: Stage)
    requires Calm(x) && Tame(x) && x.released && !x.exhausted && Potential(FIRST, NOW, View(x)) == 0
    ensures Turn(ROTATION, x, y) && Calm(y) && y.released && y.exhausted && View(y) == View(x)
  {
    Requests(x);
    NothingLeft(x);
    var planned := Logged(x.store, PlanCall);
    y := Stage(planned, true, true);
    LoggedIsValid(x.store, PlanCall);
    LoggedSnapshots(x.store, PlanCall, HOLDER);
    forall a | a in x.store.leases ensures x.store.leases[a].holder != HOLDER {
      assert Rival(a)[0] == 'r';
    }
    AcquireIneligible(planned, POOL, CURRENT, OTHER_FAMILY, HOLDER);
    hide AcquireRel;
  }

  lemma {:induction false} NothingLeft(x: Stage)
    requires !x.exhausted && Potential(FIRST, NOW, View(x)) == 0
    ensures !Action(x).Select? && !Action(x).Probe?
  {
    ActionWeighs(FIRST, NOW, View(x));
    hide Evaluate;
    forall i | 0 <= i < |View(x)| ensures Weight(FIRST, NOW, View(x)[i]) == 0 {
      ZeroTotal(WeightOf(FIRST, NOW), View(x), i);
    }
  }

  lemma {:induction false} FirstRun(x: Stage, due: nat) returns (stages: seq<Stage>)
    requires Calm(x) && Tame(x) && x.released && !x.exhausted && Potential(FIRST, NOW, View(x)) == 2 * due
    ensures Run(ROTATION, stages) && stages[0] == x && Over(stages)
    ensures |stages| == due + Potential(LATER, NOW, View(x)) + 2
    decreases due
  {
    hide Turn, Potential, Calm, Snapshot, Tame, Over;
    var y: Stage;
    var rest: seq<Stage>;
    if due == 0 {
      y := ReturnTurn(x);
      rest := LaterRun(y);
    } else {
      y := FirstTurn(x);
      rest := FirstRun(y, due - 1);
    }
    stages := [x] + rest;
    Prepend(x, rest);
    OverLater(x, rest);
  }

  lemma {:induction false} OverLater(x: Stage, stages: seq<Stage>)
    requires Over(stages)
    ensures Over([x] + stages)
  {
    assert ([x] + stages)[|stages|] == stages[|stages| - 1];
  }

  /** An open candidate is selected. */
  lemma {:induction false} OpenIsSelected(request: Request, s: seq<AccountRecord>, k: nat)
    requires !request.intent.ProbeRecovery? && k < |s| && Weight(request, NOW, s[k]) == 1
    ensures Evaluate(request, NOW, s).action.Select?
  {
    CandidatesAreAdmitted(request, NOW, s);
    var open := Unblocked(Admit(request, NOW, s).admitted);
    Sorting.SortPermutes(RankedBefore(request), open);
    assert |multiset(open)| == |open|;
  }

  /** Before the lease is given up: every account is due in both families. */
  ghost predicate AllDue(x: Stage) {
    forall i :: 0 <= i < |View(x)| ==>
      var c := View(x)[i];
      c.enabled && c.authEligible && !c.leasedToOther && c.quota == TwoRows(None)
  }

  lemma {:induction false} AllDueWeights(x: Stage)
    requires AllDue(x)
    ensures Tame(x)
    ensures forall i :: 0 <= i < |View(x)| ==>
      var c := View(x)[i];
      && c.enabled && c.authEligible && !c.leasedToOther && c.quota == TwoRows(None)
      && Weight(FIRST, NOW, c) != 1
      && (Weight(FIRST, NOW, c) == 2 ==> c.accountId != CURRENT && Weight(LATER, NOW, c) == 2)
  {
    hide Snapshot, Weight;
    TameWeights(x);
  }

  /** The first probed candidate recovers, so the lease is given up for it, and it is lost to a rival. */
  lemma {:induction false} Opening(x: Stage) returns (y: Stage, z: Stage)
    requires Calm(x) && AllDue(x) && !x.released && !x.exhausted && Potential(FIRST, NOW, View(x)) > 0
    ensures Turn(ROTATION, x, y) && Turn(ROTATION, y, z) && Calm(z) && Tame(z) && z.released && !z.exhausted
    ensures Potential(FIRST, NOW, View(z)) == Potential(FIRST, NOW, View(x)) - 2
    ensures Potential(LATER, NOW, View(z)) == Potential(LATER, NOW, View(x)) - 2
  {
    hide Turn, Evaluate, Potential, Snapshot, Calm, Grant, WithQuota, SeenTwice, Weight, Probed, Tame, AllDue;
    ActionWeighs(FIRST, NOW, View(x));
    AllDueWeights(x);
    match Action(x) {
      case Probe(a) =>
        var k :| 0 <= k < |View(x)| && View(x)[k].accountId == a && Weight(FIRST, NOW, View(x)[k]) == 2;
        var c := View(x)[k];
        NotLeased(x, k);
        ProbeTurn(x, k, true);
        y := Probed(x, a, OTHER_FAMILY, true);
        ProbedInVain(c);
        var d := c.(quota := SeenTwice(c.quota, OTHER_FAMILY, true));
        WeightChanges(x, y, FIRST, k, d);
        WeightChanges(x, y, LATER, k, d);
        z := OpenedIsLost(y, k);
        ChangedTwice(x, y, z, k, d);
      case _ =>
    }
  }

  lemma {:induction false} OpenedIsLost(y: Stage, k: nat) returns (z: Stage)
    requires Calm(y) && !y.exhausted && k < |View(y)|
    requires forall i :: 0 <= i < |View(y)| ==> (Weight(FIRST, NOW, View(y)[i]) == 1 <==> i == k)
    requires Weight(LATER, NOW, View(y)[k]) == 2
    ensures Turn(ROTATION, y, z) && Calm(z) && z.released && !z.exhausted
    ensures ChangesAt(y, z, k, View(y)[k].(leasedToOther := true))
    ensures Potential(FIRST, NOW, View(z)) == Potential(FIRST, NOW, View(y)) - 1
    ensures Potential(LATER, NOW, View(z)) == Potential(LATER, NOW, View(y)) - 2
  {
    ActionWeighs(FIRST, NOW, View(y));
    OpenIsSelected(FIRST, View(y), k);
    hide Turn, Evaluate, Potential, Snapshot, Calm, Grant, WithQuota, HardReject, Classify;
    SelectTurn(y, k);
    z := Taken(y, View(y)[k].accountId);
    LeasedWeighsNothing(FIRST, View(y)[k]);
    LeasedWeighsNothing(LATER, View(y)[k]);
    WeightChanges(y, z, FIRST, k, View(y)[k].(leasedToOther := true));
    WeightChanges(y, z, LATER, k, View(y)[k].(leasedToOther := true));
  }

  lemma {:induction false} ChangedTwice(x: Stage, y: Stage, z: Stage, k: nat, d: AccountRecord)
    requires Tame(x) && ChangesAt(x, y, k, d) && ChangesAt(y, z, k, d.(leasedToOther := true))
    requires d.enabled && d.authEligible && d.accountId != CURRENT
    ensures Tame(z)
  {
    forall i | 0 <= i < |View(z)| ensures i != k ==> View(z)[i] == View(x)[i] {
      assert i != k ==> View(y)[i] == View(x)[i];
    }
  }

  // ---------- the slowest rotation ----------

  function Start(n: nat, listed: bool): Stage {
    Stage(StartStore(n, listed), false, false)
  }

  lemma {:induction false} StartIds(n: nat, listed: bool)
    requires n >= 1
    ensures DistinctIds(StartRows(n, listed)) && !Lists(StartRows(n, listed), "b")
    ensures Lists(StartRows(n, listed), CURRENT) == listed
  {
    hide StartRows, Name;
    var rows := StartRows(n, listed);
    forall i, j | 0 <= i < j < n ensures rows[i].accountId != rows[j].accountId {
      assert rows[i] == StartRow(n, listed, i) && rows[j] == StartRow(n, listed, j);
      assert |rows[i].accountId| == i + 1;
    }
    forall i | 0 <= i < n ensures rows[i].accountId != "b" {
      assert rows[i] == StartRow(n, listed, i);
    }
    assert rows[n - 1] == StartRow(n, listed, n - 1);
    forall i | 0 <= i < n && !listed ensures rows[i].accountId != CURRENT {
      assert rows[i] == StartRow(n, listed, i);
    }
  }

  lemma {:induction false} StartIsCalm(n: nat, listed: bool)
    requires n >= 1
    ensures Calm(Start(n, listed)) && AllDue(Start(n, listed)) && View(Start(n, listed)) == StartRows(n, listed)
  {
    hide StartRows;
    StartIds(n, listed);
    var x, rows := Start(n, listed), StartRows(n, listed);
    assert x.store.Rows(POOL) == rows;
    forall i | 0 <= i < n ensures View(x)[i] == rows[i] == StartRow(n, listed, i) {
      assert rows[i] == StartRow(n, listed, i);
      assert x.store.Rows(POOL)[i] == rows[i];
    }
    assert View(x) == rows;
  }

  lemma {:induction false} DueWeights(c: AccountRecord)
    requires c.enabled && c.authEligible && !c.leasedToOther && c.quota == TwoRows(None)
    ensures Weight(FIRST, NOW, c) == if c.accountId == CURRENT then 0 else 2
    ensures Weight(LATER, NOW, c) == 2
  {}

  lemma {:induction false} StartWeights(n: nat, listed: bool)
    requires n >= 1
    ensures Potential(FIRST, NOW, StartRows(n, listed)) == if listed then 2 * (n - 1) else 2 * n
    ensures Potential(LATER, NOW, StartRows(n, listed)) == 2 * n
  {
    var rows := StartRows(n, listed);
    StartIds(n, listed);
    hide StartRows, Weight, Total;
    forall i | 0 <= i < n
      ensures Weight(FIRST, NOW, rows[i]) == Others(CURRENT, 2)(rows[i])
      ensures Weight(LATER, NOW, rows[i]) == Others("b", 2)(rows[i])
    {
      assert rows[i] == StartRow(n, listed, i);
      DueWeights(rows[i]);
      assert rows[i].accountId != "b";
    }
    TotalOthers(CURRENT, 2, rows);
    TotalOthers("b", 2, rows);
    TotalMonotone(WeightOf(FIRST, NOW), Others(CURRENT, 2), rows);
    TotalMonotone(Others(CURRENT, 2), WeightOf(FIRST, NOW), rows);
    TotalMonotone(WeightOf(LATER, NOW), Others("b", 2), rows);
    TotalMonotone(Others("b", 2), WeightOf(LATER, NOW), rows);
  }

  lemma {:induction false} FromStart(n: nat, listed: bool) returns (stages: seq<Stage>)
    requires n >= 1 && (listed ==> n >= 2)
    ensures Run(ROTATION, stages) && Over(stages) && stages[0] == Start(n, listed) && |stages| == TurnBound(n, listed)
  {
    var x := Start(n, listed);
    StartIsCalm(n, listed);
    StartWeights(n, listed);
    assert !x.released && !x.exhausted;
    hide Turn, Potential, View, Tame, AllDue, Calm, Start, Over;
    var y, z := Opening(x);
    var rest := FirstRun(z, if listed then n - 2 else n - 1);
    Prepend(y, rest);
    Prepend(x, [y] + rest);
    OverLater(y, rest);
    OverLater(x, [y] + rest);
    stages := [x] + ([y] + rest);
  }

  /**
   The bound on the turns of a rotation is reached: for every number of accounts there is a valid backend state and a
   run of the loop, with a family that depends on the current account, that makes exactly `TurnBound` plans. More than
   `2n + 2` plans are made from three accounts on, and from two on when the current account is no longer listed.
   */
  lemma {:induction false} SlowestRotation(n: nat, listed: bool) returns (stages: seq<Stage>)
    requires n >= 1 && (listed ==> n >= 2)
    ensures Run(ROTATION, stages) && Over(stages) && stages[0] == Stage(StartStore(n, listed), false, false)
    ensures
      var s := StartStore(n, listed);
      && s.Valid() && |s.Rows(POOL)| == n && Lists(s.Rows(POOL), CURRENT) == listed
      && s.Mine(HOLDER, CURRENT) && s.leases[CURRENT] == LEASE && !OneFamily(s, REQUEST)
    ensures |stages| == TurnBound(n, listed)
    ensures |stages| > 2 * n + 2 <==> n >= 3 || (n == 2 && !listed)
  {
    StartIsCalm(n, listed);
    StartIds(n, listed);
    stages := FromStart(n, listed);
    hide Run, Over, StartRows;
    assert StartStore(n, listed).Rows(POOL) == StartRows(n, listed);
  }
}
