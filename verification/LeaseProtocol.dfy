/** Call-order properties of a run, stated on the log of backend calls. */
module CallLog {
  import opened LeaseStore

  /** Probe leases granted and not yet given back. */
  ghost function Outstanding(calls: seq<Call>): set<LeaseKey> {
    if calls == [] then {}
    else
      var before := Outstanding(calls[..|calls| - 1]);
      match calls[|calls| - 1]
      case ProbeGranted(k) => before + {k}
      case ReleaseCall(k) => before - {k}
      case _ => before
  }

  /** Plans are made with no probe lease outstanding, and only an outstanding probe lease is released. */
  ghost predicate Disciplined(calls: seq<Call>) {
    calls == [] ||
    var before := calls[..|calls| - 1];
    && Disciplined(before)
    && match calls[|calls| - 1]
       case PlanCall => Outstanding(before) == {}
       case ProbeGranted(k) => ProbeGranted(k) !in before && ReleaseCall(k) !in before
       case ReleaseCall(k) => ProbeGranted(k) in before ==> k in Outstanding(before)
       case _ => true
  }

  lemma {:induction false} Append(calls: seq<Call>, call: Call)
    ensures Outstanding(calls + [call]) ==
            match call
            case ProbeGranted(k) => Outstanding(calls) + {k}
            case ReleaseCall(k) => Outstanding(calls) - {k}
            case _ => Outstanding(calls)
    ensures Disciplined(calls + [call]) <==>
            Disciplined(calls) &&
            match call
            case PlanCall => Outstanding(calls) == {}
            case ProbeGranted(k) => ProbeGranted(k) !in calls && ReleaseCall(k) !in calls
            case ReleaseCall(k) => ProbeGranted(k) in calls ==> k in Outstanding(calls)
            case _ => true
  {
    assert (calls + [call])[..|calls + [call]| - 1] == calls;
  }

  lemma {:induction false} OutstandingGranted(calls: seq<Call>, k: LeaseKey)
    requires k in Outstanding(calls)
    ensures ProbeGranted(k) in calls
  {
    var n := |calls| - 1;
    if calls[n] != ProbeGranted(k) {
      OutstandingGranted(calls[..n], k);
    }
  }

  /** The release of key `k` at `j` is the only one in the log. */
  ghost predicate OnlyRelease(calls: seq<Call>, j: nat, k: LeaseKey) {
    j < |calls| && calls[j] == ReleaseCall(k) && forall m :: 0 <= m < |calls| && calls[m] == ReleaseCall(k) ==> m == j
  }

  /** No plan is made between positions `i` and `j`. */
  ghost predicate NoPlanBetween(calls: seq<Call>, i: nat, j: nat) {
    forall m :: i < m < j && m < |calls| ==> calls[m] != PlanCall
  }

  /** A probe lease granted at `i` and not outstanding any more has exactly one release, before any plan. */
  lemma {:induction false} SettledAt(calls: seq<Call>, i: nat)
    requires Disciplined(calls) && i < |calls| && calls[i].ProbeGranted?
    ensures calls[i].key in Outstanding(calls) ==>
              NoPlanBetween(calls, i, |calls|) && ReleaseCall(calls[i].key) !in calls
    ensures calls[i].key !in Outstanding(calls) ==>
              exists j :: i < j && OnlyRelease(calls, j, calls[i].key) && NoPlanBetween(calls, i, j)
  {
    var n := |calls| - 1;
    var k := calls[i].key;
    if i == n {
      assert k in Outstanding(calls);
    } else {
      var before := calls[..n];
      assert before[i] == calls[i];
      SettledAt(before, i);
      if k in Outstanding(before) {
        if calls[n] == ReleaseCall(k) {
          assert OnlyRelease(calls, n, k);
        } else {
          assert k in Outstanding(calls);
        }
      } else {
        var j :| i < j && OnlyRelease(before, j, k) && NoPlanBetween(before, i, j);
        assert calls[n] != ReleaseCall(k) by {
          assert ProbeGranted(k) in before;
        }
        assert OnlyRelease(calls, j, k) && NoPlanBetween(calls, i, j);
      }
    }
  }

  /**
   In a disciplined log with nothing outstanding, every probe lease that was
   granted has exactly one release call, which comes before the next plan.
   */
  lemma {:induction false} EveryProbeReleasedOnce(calls: seq<Call>)
    requires Disciplined(calls) && Outstanding(calls) == {}
    ensures forall i :: 0 <= i < |calls| && calls[i].ProbeGranted? ==>
              exists j :: i < j && OnlyRelease(calls, j, calls[i].key) && NoPlanBetween(calls, i, j)
  {
    forall i | 0 <= i < |calls| && calls[i].ProbeGranted?
      ensures exists j :: i < j && OnlyRelease(calls, j, calls[i].key) && NoPlanBetween(calls, i, j)
    {
      SettledAt(calls, i);
    }
  }

  // ---------- health events ----------

  predicate SameAccountRecords(c: Call, d: Call) {
    c.Recorded? && d.Recorded? && c.byHolder && d.byHolder && c.accountId == d.accountId
  }

  /** The numbers recorded for an account by whoever held its lease strictly increase. */
  ghost predicate SequencesIncrease(calls: seq<Call>) {
    forall i, j :: 0 <= i < j < |calls| && SameAccountRecords(calls[i], calls[j]) ==>
      calls[i].sequence < calls[j].sequence
  }

  /** Storage has seen every recorded number. */
  ghost predicate Covers(s: Store) {
    forall c :: c in s.calls && c.Recorded? ==> c.accountId in s.health && c.sequence <= s.health[c.accountId]
  }

  lemma {:induction false} CoveredBelow(s: Store, a: string)
    requires Covers(s)
    ensures RecordedBelow(s.calls, a, s.Health(a) + 1)
  {}

  /** One more record keeps the order, unless a leaseholder repeats or undercuts a number. */
  lemma {:induction false} AppendRecord(calls: seq<Call>, call: Call)
    requires SequencesIncrease(calls)
    ensures SequencesIncrease(calls + [call]) <==>
            (call.Recorded? && call.byHolder ==> RecordedBelow(calls, call.accountId, call.sequence))
  {
    var all := calls + [call];
    var n := |calls|;
    forall i, j | 0 <= i < j < n && SameAccountRecords(all[i], all[j]) ensures all[i].sequence < all[j].sequence {
      assert SameAccountRecords(calls[i], calls[j]);
    }
    if call.Recorded? && call.byHolder && SequencesIncrease(all) {
      forall c | c in calls && c.Recorded? && c.byHolder && c.accountId == call.accountId
        ensures c.sequence < call.sequence
      {
        var i :| 0 <= i < n && calls[i] == c;
        assert SameAccountRecords(all[i], all[n]);
      }
    }
  }

  lemma {:induction false} AppendBelow(calls: seq<Call>, call: Call, a: string, n: int)
    requires RecordedBelow(calls, a, n)
    requires call.Recorded? && call.byHolder && call.accountId == a ==> call.sequence < n
    ensures RecordedBelow(calls + [call], a, n)
  {}
}

/** The quantity that every turn of a selection loop uses up. */
module Progress {
  import Sorting
  import opened Basics
  import opened Quota
  import opened Selection
  import opened SelectionTheorems
  import opened LeaseStore

  // ---------- sums over candidates ----------

  ghost function Total(w: AccountRecord -> nat, s: seq<AccountRecord>): nat {
    if s == [] then 0 else w(s[0]) + Total(w, s[1..])
  }

  lemma {:induction false} TotalZero(w: AccountRecord -> nat, s: seq<AccountRecord>)
    requires forall i :: 0 <= i < |s| ==> w(s[i]) == 0
    ensures Total(w, s) == 0
  {
    if s != [] {
      TotalZero(w, s[1..]);
    }
  }

  /** A smaller weight everywhere, strictly smaller at some candidate if there is one. */
  lemma {:induction false} TotalMonotone(w: AccountRecord -> nat, w': AccountRecord -> nat, s: seq<AccountRecord>)
    requires forall i :: 0 <= i < |s| ==> w(s[i]) <= w'(s[i])
    ensures Total(w, s) <= Total(w', s)
    ensures (exists i :: 0 <= i < |s| && w(s[i]) < w'(s[i])) ==> Total(w, s) < Total(w', s)
  {
    if s != [] {
      TotalMonotone(w, w', s[1..]);
      forall i | 0 < i < |s| ensures s[i] == s[1..][i - 1] {}
    }
  }

  /** `unit` for every candidate but account `a`. */
  ghost function Others(a: string, unit: nat): AccountRecord -> nat {
    (c: AccountRecord) => if c.accountId == a then 0 else unit
  }

  ghost predicate Lists(s: seq<AccountRecord>, a: string) {
    exists i :: 0 <= i < |s| && s[i].accountId == a
  }

  lemma {:induction false} TotalOthers(a: string, unit: nat, s: seq<AccountRecord>)
    requires DistinctIds(s)
    ensures Total(Others(a, unit), s) == if Lists(s, a) then unit * (|s| - 1) else unit * |s|
  {
    if s != [] {
      TotalOthers(a, unit, s[1..]);
      forall i | 0 < i < |s| ensures s[i] == s[1..][i - 1] {}
      assert Lists(s, a) <==> s[0].accountId == a || Lists(s[1..], a);
    }
  }

  /** Weights that agree except on account `a`. */
  ghost predicate DifferAt(
    w: AccountRecord -> nat, x: seq<AccountRecord>, w': AccountRecord -> nat, y: seq<AccountRecord>, a: string)
  {
    && |x| == |y|
    && (forall i :: 0 <= i < |x| ==> x[i].accountId == y[i].accountId)
    && (forall i :: 0 <= i < |x| && x[i].accountId != a ==> w(x[i]) == w'(y[i]))
  }

  lemma {:induction false} TotalSame(
    w: AccountRecord -> nat, x: seq<AccountRecord>, w': AccountRecord -> nat, y: seq<AccountRecord>, a: string)
    requires DifferAt(w, x, w', y, a)
    requires forall i :: 0 <= i < |x| ==> x[i].accountId != a
    ensures Total(w, x) == Total(w', y)
  {
    if x != [] {
      TotalSame(w, x[1..], w', y[1..], a);
    }
  }

  lemma {:induction false} TotalDelta(
    w: AccountRecord -> nat, x: seq<AccountRecord>, w': AccountRecord -> nat, y: seq<AccountRecord>, a: string, k: nat)
    requires DifferAt(w, x, w', y, a) && DistinctIds(x)
    requires k < |x| && x[k].accountId == a
    ensures Total(w', y) + w(x[k]) == Total(w, x) + w'(y[k])
  {
    if k == 0 {
      forall i | 0 <= i < |x[1..]| ensures x[1..][i].accountId != a {
        assert x[0].accountId != x[i + 1].accountId;
      }
      TotalSame(w, x[1..], w', y[1..], a);
    } else {
      assert x[0].accountId != x[k].accountId;
      TotalDelta(w, x[1..], w', y[1..], a, k - 1);
    }
  }

  // ---------- the weight of a candidate in one family ----------

  /** A candidate due for a probe can cost two turns, an open one a single turn. */
  ghost function Weight(request: Request, now: Instant, c: AccountRecord): nat {
    if ProbeReady(request, now, c) then 2 else if Open(request, now, c) then 1 else 0
  }

  ghost function WeightOf(request: Request, now: Instant): AccountRecord -> nat {
    c => Weight(request, now, c)
  }

  ghost function Potential(request: Request, now: Instant, s: seq<AccountRecord>): nat {
    Total(WeightOf(request, now), s)
  }

  lemma {:induction false} PotentialBound(request: Request, now: Instant, s: seq<AccountRecord>)
    ensures Potential(request, now, s) <= 2 * |s|
  {
    TwoEach(WeightOf(request, now), s);
  }

  lemma {:induction false} TwoEach(w: AccountRecord -> nat, s: seq<AccountRecord>)
    requires forall i :: 0 <= i < |s| ==> w(s[i]) <= 2
    ensures Total(w, s) <= 2 * |s|
  {
    if s != [] {
      TwoEach(w, s[1..]);
    }
  }

  // ---------- what the plan's action says about the candidates ----------

  lemma {:induction false} AdmittedAreCandidates(request: Request, now: Instant, s: seq<AccountRecord>)
    ensures var adm := Admit(request, now, s);
            && (forall c :: c in Unblocked(adm.admitted) ==>
                  exists k :: 0 <= k < |s| && s[k].accountId == c.accountId && Open(request, now, s[k]))
            && (forall c :: c in ProbeEligible(adm.admitted) ==>
                  exists k :: 0 <= k < |s| && s[k].accountId == c.accountId && ProbeReady(request, now, s[k]))
  {
    if s != [] {
      var n := |s| - 1;
      AdmittedAreCandidates(request, now, s[..n]);
      var before, after := Admit(request, now, s[..n]), Admit(request, now, s);
      if after.admitted != before.admitted {
        var c := after.admitted[|before.admitted|];
        assert after.admitted == before.admitted + [c];
        UnblockedAppend(before.admitted, c);
        assert s[n].accountId == c.record.accountId;
        assert c.blockClass.NotBlocked? ==> Open(request, now, s[n]);
        assert c.blockClass.ProbeEligibleBlocked? ==> ProbeReady(request, now, s[n]);
      }
      forall c | c in Unblocked(after.admitted) && c in Unblocked(before.admitted)
        ensures exists k :: 0 <= k < |s| && s[k].accountId == c.accountId && Open(request, now, s[k])
      {
        var k :| 0 <= k < n && s[..n][k].accountId == c.accountId && Open(request, now, s[..n][k]);
        assert s[k] == s[..n][k];
      }
      forall c | c in ProbeEligible(after.admitted) && c in ProbeEligible(before.admitted)
        ensures exists k :: 0 <= k < |s| && s[k].accountId == c.accountId && ProbeReady(request, now, s[k])
      {
        var k :| 0 <= k < n && s[..n][k].accountId == c.accountId && ProbeReady(request, now, s[..n][k]);
        assert s[k] == s[..n][k];
      }
    }
  }

  lemma {:induction false} CandidatesAreAdmitted(request: Request, now: Instant, s: seq<AccountRecord>)
    ensures var adm := Admit(request, now, s);
            forall k :: 0 <= k < |s| ==>
              && (Open(request, now, s[k]) ==> Unblocked(adm.admitted) != [])
              && (ProbeReady(request, now, s[k]) ==> ProbeEligible(adm.admitted) != [])
  {
    if s != [] {
      var n := |s| - 1;
      CandidatesAreAdmitted(request, now, s[..n]);
      var before, after := Admit(request, now, s[..n]), Admit(request, now, s);
      if after.admitted != before.admitted {
        UnblockedAppend(before.admitted, after.admitted[|before.admitted|]);
        assert after.admitted == before.admitted + [after.admitted[|before.admitted|]];
      }
      forall k | 0 <= k < |s|
        ensures Open(request, now, s[k]) ==> Unblocked(after.admitted) != []
        ensures ProbeReady(request, now, s[k]) ==> ProbeEligible(after.admitted) != []
      {
        if k < n {
          assert s[k] == s[..n][k];
        }
      }
    }
  }

  /** Account `a` stands in `s` with the given weight. */
  ghost predicate Weighs(request: Request, now: Instant, s: seq<AccountRecord>, a: string, weight: nat) {
    exists k :: 0 <= k < |s| && s[k].accountId == a && Weight(request, now, s[k]) == weight
  }

  ghost predicate Justified(request: Request, now: Instant, s: seq<AccountRecord>, action: Action) {
    match action
    case Select(a) => !request.intent.ProbeRecovery? && Weighs(request, now, s, a, 1)
    case Probe(a) => Weighs(request, now, s, a, 2)
    case _ => !request.intent.ProbeRecovery? ==> Potential(request, now, s) == 0
  }

  /** What is open or due at some instant is so later on, as long as the rows stay the same. */
  lemma {:induction false} LaterJustified(
    request: Request, now: Instant, later: Instant, s: seq<AccountRecord>, action: Action)
    requires Justified(request, now, s, action) && now <= later
    ensures action.Select? ==> Weighs(request, later, s, action.accountId, 1)
    ensures action.Probe? ==> Weighs(request, later, s, action.accountId, 2)
  {
    if action.Select? {
      var k :| 0 <= k < |s| && s[k].accountId == action.accountId && Weight(request, now, s[k]) == 1;
      assert Weight(request, later, s[k]) == 1;
    } else if action.Probe? {
      var k :| 0 <= k < |s| && s[k].accountId == action.accountId && Weight(request, now, s[k]) == 2;
      assert Weight(request, later, s[k]) == 2;
    }
  }

  lemma {:induction false} OpenAvoids(request: Request, now: Instant, s: seq<AccountRecord>, a: string)
    requires !request.intent.ProbeRecovery? && Weighs(request, now, s, a, 1)
    ensures request.current != Some(a)
    ensures !request.intent.HardFailover? ==> request.justReplaced != Some(a)
  {}

  /** `Select` names an open candidate, `Probe` one that is due, and anything else means that none is left. */
  lemma {:induction false} ActionWeighs(request: Request, now: Instant, s: seq<AccountRecord>)
    ensures Justified(request, now, s, Evaluate(request, now, s).action)
  {
    AdmittedAreCandidates(request, now, s);
    CandidatesAreAdmitted(request, now, s);
    var adm := Admit(request, now, s);
    var action := Evaluate(request, now, s).action;
    var sorted := Sorting.Sort(RankedBefore(request), Unblocked(adm.admitted));
    Sorting.SortPermutes(RankedBefore(request), Unblocked(adm.admitted));
    match action {
      case Select(a) =>
        var c :| c in sorted && c.accountId == a;
        Sorting.SameMembers(sorted, Unblocked(adm.admitted), c);
        var k :| 0 <= k < |s| && s[k].accountId == c.accountId && Open(request, now, s[k]);
        assert Weight(request, now, s[k]) == 1;
      case Probe(a) =>
        var c :| c in ProbeEligible(adm.admitted) && c.accountId == a;
        var k :| 0 <= k < |s| && s[k].accountId == c.accountId && ProbeReady(request, now, s[k]);
        assert Weight(request, now, s[k]) == 2;
      case _ =>
        if !request.intent.ProbeRecovery? {
          forall i | 0 <= i < |s| ensures Weight(request, now, s[i]) == 0 {}
          TotalZero(WeightOf(request, now), s);
        }
    }
  }

  // ---------- what one turn of a loop uses up ----------

  lemma {:induction false} SnapshotDistinct(s: Store, pool: string, holder: string)
    requires s.Valid()
    ensures DistinctIds(Snapshot(s, pool, holder))
  {
    if pool in s.pools {
      assert DistinctIds(s.pools[pool]);
    }
  }

  lemma {:induction false} ChangesCompose(s: Store, t: Store, u: Store, holder: string, a: string)
    requires ChangesOnly(s, t, holder, a) && ChangesOnly(t, u, holder, a)
    ensures ChangesOnly(s, u, holder, a)
  {
    forall pool: string ensures OnlyChanged(Snapshot(s, pool, holder), Snapshot(u, pool, holder), a) {
      assert OnlyChanged(Snapshot(s, pool, holder), Snapshot(t, pool, holder), a);
      assert OnlyChanged(Snapshot(t, pool, holder), Snapshot(u, pool, holder), a);
    }
  }

  /** The position of a candidate that weighs something, in snapshots that differ only there. */
  lemma {:induction false} Position(
    s: Store, s': Store, pool: string, holder: string, request: Request, now: Instant, a: string, weight: nat)
    returns (k: nat)
    requires s.Valid() && ChangesOnly(s, s', holder, a) && Weighs(request, now, Snapshot(s, pool, holder), a, weight)
    ensures
      var x, y := Snapshot(s, pool, holder), Snapshot(s', pool, holder);
      && DistinctIds(x) && OnlyChanged(x, y, a)
      && k < |x| && x[k].accountId == a && y[k].accountId == a && Weight(request, now, x[k]) == weight
      && s'.Rows(pool)[k].accountId == a && y[k] == Resolve(s', holder, s'.Rows(pool)[k])
  {
    var x, y := Snapshot(s, pool, holder), Snapshot(s', pool, holder);
    SnapshotDistinct(s, pool, holder);
    k :| 0 <= k < |x| && x[k].accountId == a && Weight(request, now, x[k]) == weight;
    assert OnlyChanged(x, y, a);
  }

  /** A probe that ran its course costs at least one unit. */
  lemma {:induction false} ProbeUsesUp(
    s: Store, s': Store, pool: string, holder: string, request: Request, now: Instant, a: string, family: string)
    requires s.Valid() && ChangesOnly(s, s', holder, a) && NotDue(s', a, family, now)
    requires request.family == Some(family) && Weighs(request, now, Snapshot(s, pool, holder), a, 2)
    ensures Potential(request, now, Snapshot(s', pool, holder)) < Potential(request, now, Snapshot(s, pool, holder))
  {
    var k := Position(s, s', pool, holder, request, now, a, 2);
    hide Total, ChangesOnly, Snapshot, Weighs;
    var x, y := Snapshot(s, pool, holder), Snapshot(s', pool, holder);
    TotalDelta(WeightOf(request, now), x, WeightOf(request, now), y, a, k);
    assert !Classify(s'.Rows(pool)[k], family, now).ProbeEligibleBlocked?;
    assert Classify(y[k], family, now) == Classify(s'.Rows(pool)[k], family, now);
  }

  /** An open account that was refused costs one unit. */
  lemma {:induction false} RefusalUsesUp(
    s: Store, s': Store, pool: string, holder: string, request: Request, now: Instant, a: string, family: string)
    requires s.Valid() && AcquireRel(s, s', pool, a, family, holder, Err(NoEligibleAccount))
    requires request.family == Some(family) && Weighs(request, now, Snapshot(s, pool, holder), a, 1)
    ensures Potential(request, now, Snapshot(s', pool, holder)) < Potential(request, now, Snapshot(s, pool, holder))
  {
    var k := Position(s, s', pool, holder, request, now, a, 1);
    var x, y := Snapshot(s, pool, holder), Snapshot(s', pool, holder);
    assert Available(x[k], family) && HardBlocked(y[k]);
    hide Total, AcquireRel, Snapshot, Weighs;
    TotalDelta(WeightOf(request, now), x, WeightOf(request, now), y, a, k);
  }

  /** What the account itself may cost once it is a candidate. */
  ghost function Reserve(s: Store, pool: string, a: string): nat {
    if Lists(s.Rows(pool), a) then 2 else 0
  }

  /** The current account adds nothing while it is excluded as current. */
  lemma {:induction false} CurrentExcluded(
    s: Store, pool: string, holder: string, request: Request, now: Instant, a: string)
    requires s.Valid() && request.current == Some(a) && !request.intent.ProbeRecovery?
    ensures Potential(request, now, Snapshot(s, pool, holder)) + Reserve(s, pool, a) <= 2 * |s.Rows(pool)|
  {
    var x := Snapshot(s, pool, holder);
    SnapshotDistinct(s, pool, holder);
    SnapshotLists(s, pool, holder, a);
    TotalOthers(a, 2, x);
    TotalMonotone(WeightOf(request, now), Others(a, 2), x);
  }

  lemma {:induction false} SnapshotLists(s: Store, pool: string, holder: string, a: string)
    ensures Lists(Snapshot(s, pool, holder), a) <==> Lists(s.Rows(pool), a)
  {
    var x := Snapshot(s, pool, holder);
    assert forall i :: 0 <= i < |x| ==> x[i].accountId == s.Rows(pool)[i].accountId;
  }

  lemma {:induction false} WeightWithoutCurrent(r: Request, now: Instant, c: AccountRecord)
    requires r.current != Some(c.accountId)
    ensures Weight(r.(current := None), now, c) == Weight(r, now, c)
  {}

  /** After a refused return to account `a`, only `a` itself can have become a candidate again. */
  lemma {:induction false} ReturnRefused(
    s: Store, s': Store, pool: string, holder: string, r: Request, r': Request, now: Instant, a: string)
    requires s.Valid() && ChangesOnly(s, s', holder, a)
    requires r.current == Some(a) && r' == r.(current := None) && !r.intent.ProbeRecovery?
    requires Potential(r, now, Snapshot(s, pool, holder)) == 0
    ensures Potential(r', now, Snapshot(s', pool, holder)) <= Reserve(s, pool, a)
  {
    var x, y := Snapshot(s, pool, holder), Snapshot(s', pool, holder);
    var w, w' := WeightOf(r, now), WeightOf(r', now);
    SnapshotDistinct(s, pool, holder);
    SnapshotLists(s, pool, holder, a);
    assert OnlyChanged(x, y, a);
    forall i | 0 <= i < |x| && x[i].accountId != a ensures w(x[i]) == w'(y[i]) {
      WeightWithoutCurrent(r, now, x[i]);
    }
    AtMostTwoMore(w, x, w', y, a);
  }

  lemma {:induction false} AtMostTwoMore(
    w: AccountRecord -> nat, x: seq<AccountRecord>, w': AccountRecord -> nat, y: seq<AccountRecord>, a: string)
    requires DifferAt(w, x, w', y, a) && DistinctIds(x)
    requires forall i :: 0 <= i < |y| ==> w'(y[i]) <= 2
    ensures Total(w', y) <= Total(w, x) + if Lists(x, a) then 2 else 0
  {
    if Lists(x, a) {
      var k :| 0 <= k < |x| && x[k].accountId == a;
      TotalDelta(w, x, w', y, a, k);
    } else {
      TotalSame(w, x, w', y, a);
    }
  }

  // ---------- the cost of a candidate over two families ----------

  /**
   What a candidate may still cost a rotation that plans with `r` and, after the refused return to the current
   account, with `later`, whose family may be another one. A candidate that is due may be probed in vain and then
   cost what it weighs later; an open one is taken or refused, and a refused one is out for good.
   */
  ghost function Cost(r: Request, later: Request, now: Instant): AccountRecord -> nat {
    (c: AccountRecord) => if r.current == Some(c.accountId) then 0
         else if Weight(r, now, c) == 2 then 3
         else if Weight(r, now, c) == 1 then 1
         else Weight(later, now, c)
  }

  ghost predicate AnyOpen(r: Request, now: Instant, s: seq<AccountRecord>) {
    exists i :: 0 <= i < |s| && Weight(r, now, s[i]) == 1
  }

  /**
   The cost of all candidates, and one more while a candidate is open or the current lease is given up: the return
   is only tried after some candidate was selected, and that candidate costs less than three.
   */
  ghost function Load(released: bool, r: Request, later: Request, now: Instant, s: seq<AccountRecord>): nat {
    Total(Cost(r, later, now), s) + if released || AnyOpen(r, now, s) then 1 else 0
  }

  /** Three turns for every candidate but the current account. */
  ghost function LoadCap(n: nat, reserve: nat): int {
    if reserve == 2 then 3 * n - 3 else 3 * n
  }

  lemma {:induction false} LoadStarts(
    s: Store, pool: string, holder: string, r: Request, later: Request, now: Instant, a: string)
    requires s.Valid() && r.current == Some(a) && !r.intent.ProbeRecovery?
    ensures Load(false, r, later, now, Snapshot(s, pool, holder)) <= LoadCap(|s.Rows(pool)|, Reserve(s, pool, a))
  {
    var x := Snapshot(s, pool, holder);
    var w, cap := Cost(r, later, now), Others(a, 3);
    SnapshotDistinct(s, pool, holder);
    SnapshotLists(s, pool, holder, a);
    TotalOthers(a, 3, x);
    TotalMonotone(w, cap, x);
    if AnyOpen(r, now, x) {
      var i :| 0 <= i < |x| && Weight(r, now, x[i]) == 1;
      assert w(x[i]) < cap(x[i]);
    }
  }

  /** A probe that ran its course lowers the load. */
  lemma {:induction false} ProbeLowersLoad(
    s: Store, s': Store, pool: string, holder: string, r: Request, later: Request, now: Instant, a: string,
    family: string, released: bool)
    requires s.Valid() && ChangesOnly(s, s', holder, a) && NotDue(s', a, family, now)
    requires r.family == Some(family) && Weighs(r, now, Snapshot(s, pool, holder), a, 2) && !r.intent.ProbeRecovery?
    ensures Load(released, r, later, now, Snapshot(s', pool, holder))
            < Load(released, r, later, now, Snapshot(s, pool, holder))
  {
    var k := Position(s, s', pool, holder, r, now, a, 2);
    hide Total, ChangesOnly, Snapshot, Weighs;
    var x, y := Snapshot(s, pool, holder), Snapshot(s', pool, holder);
    TotalDelta(Cost(r, later, now), x, Cost(r, later, now), y, a, k);
    assert !Classify(s'.Rows(pool)[k], family, now).ProbeEligibleBlocked?;
    assert Classify(y[k], family, now) == Classify(s'.Rows(pool)[k], family, now);
    assert Cost(r, later, now)(x[k]) == 3 && Weight(r, now, y[k]) != 2;
    OpenAfter(r, now, x, y, a, k);
  }

  /** A candidate that is open after a change to account `a` was open before, unless it is `a`. */
  lemma {:induction false} OpenAfter(
    r: Request, now: Instant, x: seq<AccountRecord>, y: seq<AccountRecord>, a: string, k: nat)
    requires OnlyChanged(x, y, a) && DistinctIds(x) && k < |x| && x[k].accountId == a
    ensures AnyOpen(r, now, y) ==> AnyOpen(r, now, x) || Weight(r, now, y[k]) == 1
  {
    if AnyOpen(r, now, y) {
      var i :| 0 <= i < |y| && Weight(r, now, y[i]) == 1;
      assert i != k ==> x[i].accountId != x[k].accountId && x[i] == y[i];
    }
  }

  /** The rows of account `a` are out for every request. */
  ghost predicate OutForGood(s: Store, pool: string, holder: string, a: string) {
    forall i :: 0 <= i < |s.Rows(pool)| && s.Rows(pool)[i].accountId == a ==> HardBlocked(Snapshot(s, pool, holder)[i])
  }

  /** A refused candidate lowers the load and is out for good. */
  lemma {:induction false} RefusalLowersLoad(
    s: Store, s': Store, pool: string, holder: string, r: Request, later: Request, now: Instant, a: string,
    released: bool)
    requires s.Valid() && ChangesOnly(s, s', holder, a) && OutForGood(s', pool, holder, a)
    requires Weighs(r, now, Snapshot(s, pool, holder), a, 1) && !r.intent.ProbeRecovery?
    ensures Load(true, r, later, now, Snapshot(s', pool, holder))
            < Load(released, r, later, now, Snapshot(s, pool, holder))
  {
    var k := Position(s, s', pool, holder, r, now, a, 1);
    var x, y := Snapshot(s, pool, holder), Snapshot(s', pool, holder);
    assert HardBlocked(y[k]);
    hide Total, ChangesOnly, Snapshot, Weighs, OutForGood;
    TotalDelta(Cost(r, later, now), x, Cost(r, later, now), y, a, k);
    assert AnyOpen(r, now, x);
  }

  /** After the refused return the later plans cost no more than what was left, and the current account. */
  lemma {:induction false} ReturnKeepsLoad(
    s: Store, s': Store, pool: string, holder: string, r: Request, later: Request, now: Instant, a: string)
    requires s.Valid() && ChangesOnly(s, s', holder, a) && r.current == Some(a)
    requires Potential(r, now, Snapshot(s, pool, holder)) == 0
    ensures Potential(later, now, Snapshot(s', pool, holder)) + 1
            <= Load(true, r, later, now, Snapshot(s, pool, holder)) + Reserve(s, pool, a)
  {
    var x, y := Snapshot(s, pool, holder), Snapshot(s', pool, holder);
    var w, w' := Cost(r, later, now), WeightOf(later, now);
    SnapshotDistinct(s, pool, holder);
    SnapshotLists(s, pool, holder, a);
    assert OnlyChanged(x, y, a);
    forall i | 0 <= i < |x| ensures WeightOf(r, now)(x[i]) == 0 {
      ZeroTotal(WeightOf(r, now), x, i);
    }
    AtMostTwoMore(w, x, w', y, a);
  }

  lemma {:induction false} ZeroTotal(w: AccountRecord -> nat, s: seq<AccountRecord>, i: nat)
    requires Total(w, s) == 0 && i < |s|
    ensures w(s[i]) == 0
  {
    if i > 0 {
      ZeroTotal(w, s[1..], i - 1);
    }
  }
}
