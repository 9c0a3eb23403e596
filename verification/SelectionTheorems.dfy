/** What the selector promises, proved about `Selection.Evaluate`. */
module SelectionTheorems {
  import opened Basics
  import opened Orders
  import opened Quota
  import opened Selection
  import Sorting

  // ---------- the ranking is a total order that ignores the threshold ----------

  /** The threshold tier and the margin order after it, for margins that may be rounded. */
  function TierThenMargin(margin: real -> real, left: real, right: real, threshold: nat): Ordering {
    CompareBool(left < threshold as real, right < threshold as real).Reverse()
    .Then(CompareReal(margin(right), margin(left)))
  }

  /** Less used never means less left. */
  ghost predicate Falls(margin: real -> real) {
    forall x: real, y: real :: x <= y ==> margin(y) <= margin(x)
  }

  /** The tier decides nothing that the margin does not exactly when equal margins lie on one side of the threshold. */
  lemma {:induction false} TierIsImpliedIff(margin: real -> real, left: real, right: real, threshold: nat)
    requires Falls(margin)
    ensures
      TierThenMargin(margin, left, right, threshold) == CompareReal(margin(right), margin(left)) <==>
      (margin(left) == margin(right) ==> (left < threshold as real <==> right < threshold as real))
  {
    assert margin(left) <= margin(right) || margin(right) <= margin(left);
    assert left <= right ==> margin(right) <= margin(left);
    assert right <= left ==> margin(left) <= margin(right);
  }

  /** A margin that is rounded to whole percents and a threshold between two percentages with the same margin. */
  lemma {:induction false} RoundedMarginsMatter()
    ensures
      var margin := (used: real) => (100.0 - used).Floor as real;
      TierThenMargin(margin, 9.5, 10.0, 10) == Less && CompareReal(margin(10.0), margin(9.5)) == Equal
  {
    assert (100.0 - 9.5).Floor == 90 && (100.0 - 10.0).Floor == 90;
  }

  /**
   Being below the threshold is implied by the primary margin that is compared next,
   which tells percentages apart.
   */
  lemma {:induction false} ThresholdTierIsImplied(left: AccountRecord, right: AccountRecord, request: Request)
    ensures CompareOrdinary(left, right, request) == CompareBelowTier(left, right, request.Family())
  {
    var family := request.Family();
    var l, r := PrimaryUsed(left.quota.Effective(family)), PrimaryUsed(right.quota.Effective(family));
    TierIsImpliedIff(used => 100.0 - used, l, r, request.thresholdPercent);
  }

  lemma {:induction false} CompareOrdinaryReverses(left: AccountRecord, right: AccountRecord, request: Request)
    ensures CompareOrdinary(left, right, request) == CompareOrdinary(right, left, request).Reverse()
    ensures CompareOrdinary(left, right, request) == Equal ==> left.accountId == right.accountId
  {
    CompareStringReverse(left.accountId, right.accountId);
  }

  lemma {:induction false} CompareQuotaTransitive(a: QuotaView, b: QuotaView, c: QuotaView, family: string)
    requires CompareQuota(a, b, family) != Greater && CompareQuota(b, c, family) != Greater
    ensures CompareQuota(a, c, family) != Greater
    ensures CompareQuota(a, c, family) == Equal <==>
            CompareQuota(a, b, family) == Equal && CompareQuota(b, c, family) == Equal
  {}

  lemma {:induction false} CompareQuotaReverses(a: QuotaView, b: QuotaView, family: string)
    ensures CompareQuota(a, b, family) == CompareQuota(b, a, family).Reverse()
  {}

  lemma {:induction false} CompareOrdinaryTransitive(
    a: AccountRecord, b: AccountRecord, c: AccountRecord, request: Request)
    requires CompareOrdinary(a, b, request) != Greater && CompareOrdinary(b, c, request) != Greater
    ensures CompareOrdinary(a, c, request) != Greater
    ensures CompareOrdinary(a, b, request) == Less || CompareOrdinary(b, c, request) == Less
            ==> CompareOrdinary(a, c, request) == Less
  {
    ThresholdTierIsImplied(a, b, request);
    ThresholdTierIsImplied(b, c, request);
    ThresholdTierIsImplied(a, c, request);
    CompareQuotaTransitive(a.quota, b.quota, c.quota, request.Family());
    hide CompareQuota, CompareOrdinary;
    if CompareString(a.accountId, b.accountId) != Greater && CompareString(b.accountId, c.accountId) != Greater {
      CompareStringTransitive(a.accountId, b.accountId, c.accountId);
    }
  }

  /** An account id names one record. */
  ghost predicate IdsIdentify(s: seq<AccountRecord>) {
    forall x, y :: x in s && y in s && x.accountId == y.accountId ==> x == y
  }

  ghost predicate DistinctIds(s: seq<AccountRecord>) {
    forall i, j :: 0 <= i < j < |s| ==> s[i].accountId != s[j].accountId
  }

  lemma {:induction false} RankingRanks(request: Request, s: seq<AccountRecord>)
    ensures Sorting.RanksOn(RankedBefore(request), s)
  {
    var le := RankedBefore(request);
    forall x, y | x in s && y in s ensures le(x, y) || le(y, x) {
      CompareOrdinaryReverses(x, y, request);
    }
    forall x, y, z | x in s && y in s && z in s && le(x, y) && le(y, z) ensures le(x, z) {
      CompareOrdinaryTransitive(x, y, z, request);
    }
  }

  lemma {:induction false} RankingIsTotalOrder(request: Request, s: seq<AccountRecord>)
    requires IdsIdentify(s)
    ensures Sorting.TotalOrderOn(RankedBefore(request), s)
  {
    var le := RankedBefore(request);
    RankingRanks(request, s);
    forall x, y | x in s && y in s && le(x, y) && le(y, x) ensures x == y {
      CompareOrdinaryReverses(x, y, request);
    }
  }

  /** The plan is the same for every proactive threshold. */
  lemma {:induction false} PlanIgnoresThreshold(
    request: Request, now: Instant, candidates: seq<AccountRecord>, threshold: nat)
    ensures Evaluate(request.(thresholdPercent := threshold), now, candidates) == Evaluate(request, now, candidates)
  {
    var other := request.(thresholdPercent := threshold);
    AdmitIgnoresThreshold(request, now, candidates, threshold);
    var le, le' := RankedBefore(request), RankedBefore(other);
    forall x, y ensures le(x, y) == le'(x, y) {
      ThresholdTierIsImplied(x, y, request);
      ThresholdTierIsImplied(x, y, other);
    }
    Sorting.SortAgrees(le, le', Unblocked(Admit(request, now, candidates).admitted));
  }

  lemma {:induction false} AdmitIgnoresThreshold(
    request: Request, now: Instant, candidates: seq<AccountRecord>, threshold: nat)
    ensures Admit(request.(thresholdPercent := threshold), now, candidates) == Admit(request, now, candidates)
  {
    hide Classify;
    if candidates != [] {
      AdmitIgnoresThreshold(request, now, candidates[..|candidates| - 1], threshold);
    }
  }

  // ---------- admission as a filter ----------

  /** Candidate `c` may be leased right away. */
  predicate Open(request: Request, now: Instant, c: AccountRecord) {
    HardReject(request, c).None? && Classify(c, request.Family(), now).NotBlocked?
  }

  /** Candidate `c` is exhausted and due for a probe. */
  predicate ProbeReady(request: Request, now: Instant, c: AccountRecord) {
    HardReject(request, c).None? && Classify(c, request.Family(), now).ProbeEligibleBlocked?
  }

  function Filter<T>(p: T -> bool, s: seq<T>): seq<T> {
    if s == [] then []
    else Filter(p, s[..|s| - 1]) + (if p(s[|s| - 1]) then [s[|s| - 1]] else [])
  }

  lemma {:induction false} FilterCounts<T(!new)>(p: T -> bool, s: seq<T>, x: T)
    ensures multiset(Filter(p, s))[x] == if p(x) then multiset(s)[x] else 0
  {
    if s != [] {
      FilterCounts(p, s[..|s| - 1], x);
      assert s == s[..|s| - 1] + [s[|s| - 1]];
    }
  }

  lemma {:induction false} FilterMembers<T(!new)>(p: T -> bool, s: seq<T>, x: T)
    ensures x in Filter(p, s) <==> x in s && p(x)
  {
    FilterCounts(p, s, x);
    assert x in Filter(p, s) <==> x in multiset(Filter(p, s));
    assert x in s <==> x in multiset(s);
  }

  lemma {:induction false} FilterOfPermutation<T(!new)>(p: T -> bool, a: seq<T>, b: seq<T>)
    requires multiset(a) == multiset(b)
    ensures multiset(Filter(p, a)) == multiset(Filter(p, b))
  {
    forall x ensures multiset(Filter(p, a))[x] == multiset(Filter(p, b))[x] {
      FilterCounts(p, a, x);
      FilterCounts(p, b, x);
    }
  }

  lemma {:induction false} UnblockedAppend(s: seq<Ranked>, c: Ranked)
    ensures Unblocked(s + [c]) == Unblocked(s) + (if c.blockClass.NotBlocked? then [c.record] else [])
    ensures ProbeEligible(s + [c]) == ProbeEligible(s) + (if c.blockClass.ProbeEligibleBlocked? then [c.record] else [])
  {
    if s != [] {
      UnblockedAppend(s[1..], c);
      assert (s + [c])[1..] == s[1..] + [c];
    }
  }

  function OpenFor(request: Request, now: Instant): AccountRecord -> bool { c => Open(request, now, c) }

  function ProbeReadyFor(request: Request, now: Instant): AccountRecord -> bool { c => ProbeReady(request, now, c) }

  /** Admission puts such a candidate on both lists. */
  function BlockedFor(request: Request, now: Instant): AccountRecord -> bool {
    c => HardReject(request, c).None? && !Classify(c, request.Family(), now).NotBlocked?
  }

  /** The position of a candidate that brings none along and follows those in `before`; blocked ones count twice. */
  function Place(request: Request, now: Instant, before: seq<AccountRecord>): nat {
    |before| + |Filter(BlockedFor(request, now), before)|
  }

  function At(c: AccountRecord, place: nat): AccountRecord {
    if c.poolPosition == 0 then c.(poolPosition := place) else c
  }

  /** The candidates with the positions under which they are ranked. */
  function Placed(request: Request, now: Instant, s: seq<AccountRecord>): (r: seq<AccountRecord>)
    ensures |r| == |s|
    ensures forall i :: 0 <= i < |s| ==> r[i] == At(s[i], Place(request, now, s[..i]))
  {
    seq(|s|, i requires 0 <= i < |s| => At(s[i], Place(request, now, s[..i])))
  }

  lemma {:induction false} PlacedAppend(request: Request, now: Instant, s: seq<AccountRecord>, c: AccountRecord)
    ensures Placed(request, now, s + [c]) == Placed(request, now, s) + [At(c, Place(request, now, s))]
  {
    hide Place, At;
    var all := s + [c];
    assert all[..|s|] == s;
    forall i | 0 <= i < |s| ensures Placed(request, now, all)[i] == Placed(request, now, s)[i] {
      assert all[..i] == s[..i];
    }
  }

  lemma {:induction false} AdmitCounts(request: Request, now: Instant, s: seq<AccountRecord>)
    ensures |Admit(request, now, s).admitted| + |Admit(request, now, s).rejected| == Place(request, now, s)
  {
    if s != [] {
      AdmitCounts(request, now, s[..|s| - 1]);
    }
  }

  /** The admission loop gives the candidates their places and filters them. */
  lemma {:induction false} AdmitFilters(request: Request, now: Instant, candidates: seq<AccountRecord>)
    ensures Unblocked(Admit(request, now, candidates).admitted)
            == Filter(OpenFor(request, now), Placed(request, now, candidates))
    ensures ProbeEligible(Admit(request, now, candidates).admitted)
            == Filter(ProbeReadyFor(request, now), Placed(request, now, candidates))
  {
    hide Placed, Place, HardReject, Classify;
    if candidates == [] {
      NothingPlaced(request, now);
    } else {
      var n := |candidates| - 1;
      AdmitFilters(request, now, candidates[..n]);
      AdmitCounts(request, now, candidates[..n]);
      var adm := Admit(request, now, candidates[..n]);
      var c := At(candidates[n], Place(request, now, candidates[..n]));
      UnblockedAppend(adm.admitted, Ranked(c, Classify(c, request.Family(), now)));
      PlacedAppend(request, now, candidates[..n], candidates[n]);
      assert candidates == candidates[..n] + [candidates[n]];
      assert Placed(request, now, candidates) == Placed(request, now, candidates[..n]) + [c];
      var placed := Placed(request, now, candidates);
      assert placed[..|placed| - 1] == Placed(request, now, candidates[..n]) && placed[|placed| - 1] == c;
    }
  }

  lemma {:induction false} NothingPlaced(request: Request, now: Instant)
    ensures Placed(request, now, []) == []
  {}

  // ---------- every candidate is accounted for once ----------

  function Ids(s: seq<AccountRecord>): (r: seq<string>)
    ensures |r| == |s| && forall i :: 0 <= i < |s| ==> r[i] == s[i].accountId
  {
    seq(|s|, i requires 0 <= i < |s| => s[i].accountId)
  }

  function RejectedIds(s: seq<Rejected>): (r: seq<string>)
    ensures |r| == |s| && forall i :: 0 <= i < |s| ==> r[i] == s[i].accountId
  {
    seq(|s|, i requires 0 <= i < |s| => s[i].accountId)
  }

  lemma {:induction false} IdsAppend(s: seq<AccountRecord>, c: AccountRecord)
    ensures Ids(s + [c]) == Ids(s) + [c.accountId]
  {}

  lemma {:induction false} RejectedIdsAppend(s: seq<Rejected>, r: Rejected)
    ensures RejectedIds(s + [r]) == RejectedIds(s) + [r.accountId]
  {}

  /** The account ids an admission state accounts for. */
  ghost function Accounted(adm: Admission): multiset<string> {
    multiset(Ids(Unblocked(adm.admitted))) + multiset(RejectedIds(adm.rejected))
  }

  lemma {:induction false} RejectAccounts(acc: Admission, r: Rejected)
    ensures Accounted(Admission(acc.admitted, acc.rejected + [r])) == Accounted(acc) + multiset{r.accountId}
  {
    RejectedIdsAppend(acc.rejected, r);
  }

  lemma {:induction false} AdmittedAccounts(acc: Admission, c: Ranked)
    ensures Accounted(Admission(acc.admitted + [c], acc.rejected))
            == Accounted(acc) + (if c.blockClass.NotBlocked? then multiset{c.record.accountId} else multiset{})
  {
    UnblockedAppend(acc.admitted, c);
    IdsAppend(Unblocked(acc.admitted), c.record);
    assert Unblocked(acc.admitted) + [] == Unblocked(acc.admitted);
  }

  lemma {:induction false} AdmitOneAccounts(request: Request, now: Instant, acc: Admission, candidate: AccountRecord)
    ensures Accounted(AdmitOne(request, now, acc, candidate)) == Accounted(acc) + multiset{candidate.accountId}
  {
    var c := if candidate.poolPosition == 0
             then candidate.(poolPosition := |acc.admitted| + |acc.rejected|) else candidate;
    var ranked := Ranked(c, Classify(c, request.Family(), now));
    var id := multiset{candidate.accountId};
    var after := AdmitOne(request, now, acc, candidate);
    if HardReject(request, c).Some? {
      var r := Rejected(c.accountId, HardReject(request, c).value);
      assert after == Admission(acc.admitted, acc.rejected + [r]);
      RejectAccounts(acc, r);
    } else if ranked.blockClass.NotBlocked? {
      assert after == Admission(acc.admitted + [ranked], acc.rejected);
      AdmittedAccounts(acc, ranked);
    } else {
      var mid := Admission(acc.admitted + [ranked], acc.rejected);
      var r := Rejected(c.accountId, QuotaBlocked);
      assert after == Admission(mid.admitted, mid.rejected + [r]);
      assert Accounted(mid) == Accounted(acc) by { AdmittedAccounts(acc, ranked); }
      RejectAccounts(mid, r);
    }
  }

  lemma {:induction false} AdmitAccounts(request: Request, now: Instant, candidates: seq<AccountRecord>)
    ensures Accounted(Admit(request, now, candidates)) == multiset(Ids(candidates))
  {
    if candidates != [] {
      var n := |candidates| - 1;
      AdmitAccounts(request, now, candidates[..n]);
      AdmitOneAccounts(request, now, Admit(request, now, candidates[..n]), candidates[n]);
      IdsAppend(candidates[..n], candidates[n]);
      assert candidates == candidates[..n] + [candidates[n]];
    }
  }

  lemma {:induction false} IdsPrepend(c: AccountRecord, s: seq<AccountRecord>)
    ensures multiset(Ids([c] + s)) == multiset(Ids(s)) + multiset{c.accountId}
  {
    assert Ids([c] + s) == [c.accountId] + Ids(s);
  }

  lemma {:induction false} InsertKeepsIds(
    le: (AccountRecord, AccountRecord) -> bool, x: AccountRecord, s: seq<AccountRecord>)
    ensures multiset(Ids(Sorting.Insert(le, x, s))) == multiset(Ids(s)) + multiset{x.accountId}
  {
    if s == [] || le(x, s[0]) {
      assert [x] + [] == [x];
      IdsPrepend(x, s);
    } else {
      InsertKeepsIds(le, x, s[1..]);
      IdsPrepend(s[0], Sorting.Insert(le, x, s[1..]));
      IdsPrepend(s[0], s[1..]);
      assert s == [s[0]] + s[1..];
    }
  }

  lemma {:induction false} SortKeepsIds(le: (AccountRecord, AccountRecord) -> bool, s: seq<AccountRecord>)
    ensures multiset(Ids(Sorting.Sort(le, s))) == multiset(Ids(s))
  {
    if s != [] {
      SortKeepsIds(le, s[1..]);
      InsertKeepsIds(le, s[0], Sorting.Sort(le, s[1..]));
      assert Ids(s) == [s[0].accountId] + Ids(s[1..]);
    }
  }

  lemma {:induction false} MoveToFront<T>(s: seq<T>, k: nat)
    requires k < |s|
    ensures multiset([s[k]] + s[..k] + s[k + 1..]) == multiset(s)
  {
    assert s == s[..k] + [s[k]] + s[k + 1..];
  }

  lemma {:induction false} IdsMoved(s: seq<AccountRecord>, k: nat)
    requires k < |s|
    ensures Ids([s[k]] + s[..k] + s[k + 1..]) == [Ids(s)[k]] + Ids(s)[..k] + Ids(s)[k + 1..]
  {}

  lemma {:induction false} EligibleIsUnblocked(request: Request, now: Instant, candidates: seq<AccountRecord>)
    requires !request.intent.ProbeRecovery?
    ensures multiset(Ids(Evaluate(request, now, candidates).eligible))
            == multiset(Ids(Unblocked(Admit(request, now, candidates).admitted)))
  {
    var u := Unblocked(Admit(request, now, candidates).admitted);
    var sorted := Sorting.Sort(RankedBefore(request), u);
    SortKeepsIds(RankedBefore(request), u);
    forall k | 0 <= k < |sorted|
      ensures multiset(Ids([sorted[k]] + sorted[..k] + sorted[k + 1..])) == multiset(Ids(sorted))
    {
      MoveToFront(Ids(sorted), k);
      IdsMoved(sorted, k);
    }
  }

  /** Outside probe recovery every candidate is listed exactly once, as eligible or as rejected. */
  lemma {:induction false} EveryCandidateListedOnce(request: Request, now: Instant, candidates: seq<AccountRecord>)
    requires !request.intent.ProbeRecovery?
    ensures var plan := Evaluate(request, now, candidates);
            multiset(Ids(plan.eligible)) + multiset(RejectedIds(plan.rejected)) == multiset(Ids(candidates))
  {
    AdmitAccounts(request, now, candidates);
    EligibleIsUnblocked(request, now, candidates);
  }

  // ---------- what is selected, and what is probed ----------

  /** No record of `s` precedes `best` in the ordinary ranking, and none of another account shares its rank. */
  ghost predicate Best(request: Request, s: seq<AccountRecord>, best: AccountRecord) {
    && best in s
    && (forall x :: x in s ==> CompareOrdinary(best, x, request) != Greater)
    && (forall x :: x in s && x.accountId != best.accountId ==> CompareOrdinary(best, x, request) == Less)
  }

  lemma {:induction false} HeadOfSortIsBest(request: Request, s: seq<AccountRecord>)
    requires s != []
    ensures Sorting.Sort(RankedBefore(request), s) != []
    ensures Best(request, s, Sorting.Sort(RankedBefore(request), s)[0])
  {
    var le := RankedBefore(request);
    var sorted := Sorting.Sort(le, s);
    Sorting.SortPermutes(le, s);
    RankingRanks(request, s);
    Sorting.SortSorts(le, s);
    Sorting.SameMembers(sorted, s, sorted[0]);
    forall x | x in s
      ensures CompareOrdinary(sorted[0], x, request) != Greater
      ensures x.accountId != sorted[0].accountId ==> CompareOrdinary(sorted[0], x, request) == Less
    {
      Sorting.SameMembers(sorted, s, x);
      var i :| 0 <= i < |sorted| && sorted[i] == x;
      assert i > 0 ==> le(sorted[0], sorted[i]);
      CompareOrdinaryReverses(sorted[0], x, request);
    }
  }

  /**
   For every list of candidates, with or without positions: an account is
   selected if and only if one is open. It is the preferred account when that
   one is open, and otherwise the best of the open ones at their places.
   */
  lemma {:induction false} SelectIsOptimal(request: Request, now: Instant, candidates: seq<AccountRecord>)
    requires !request.intent.ProbeRecovery?
    ensures var open := Filter(OpenFor(request, now), Placed(request, now, candidates));
            var action := Evaluate(request, now, candidates).action;
            && (action.Select? <==> open != [])
            && (action.Select? ==>
                  exists chosen :: chosen in open && chosen.accountId == action.accountId
                    && (if exists c :: c in open && Some(c.accountId) == request.preferred
                        then Some(chosen.accountId) == request.preferred
                        else Best(request, open, chosen)))
  {
    hide Placed, Best, Filter, Admit, Sorting.Sort, ProbeChoice;
    AdmitFilters(request, now, candidates);
    var open := Filter(OpenFor(request, now), Placed(request, now, candidates));
    var sorted := Sorting.Sort(RankedBefore(request), open);
    Sorting.SortPermutes(RankedBefore(request), open);
    if open != [] {
      HeadOfSortIsBest(request, open);
      forall x ensures x in sorted <==> x in open { Sorting.SameMembers(sorted, open, x); }
      if request.preferred.Some? && IndexOf(sorted, request.preferred.value).Some? {
        assert sorted[IndexOf(sorted, request.preferred.value).value] in open;
      } else {
        assert sorted[0] in open;
      }
    }
  }

  lemma {:induction false} CompareProbeReverses(a: AccountRecord, b: AccountRecord, family: string, now: Instant)
    requires a.quota.Effective(family).Some? && b.quota.Effective(family).Some?
    ensures CompareProbe(a, b, family, now) == CompareProbe(b, a, family, now).Reverse()
    ensures CompareProbe(a, b, family, now) == Equal ==> a.accountId == b.accountId
  {
    CompareStringReverse(a.accountId, b.accountId);
  }

  lemma {:induction false} CompareProbeTransitive(
    a: AccountRecord, b: AccountRecord, c: AccountRecord, family: string, now: Instant)
    requires a.quota.Effective(family).Some? && b.quota.Effective(family).Some? && c.quota.Effective(family).Some?
    requires CompareProbe(a, b, family, now) != Greater && CompareProbe(b, c, family, now) != Greater
    ensures CompareProbe(a, c, family, now) != Greater
  {
    if CompareString(c.accountId, b.accountId) != Greater && CompareString(b.accountId, a.accountId) != Greater {
      CompareStringTransitive(c.accountId, b.accountId, a.accountId);
    }
  }

  /** No record of `s` has a higher probe priority than `best`. */
  ghost predicate HighestPriority(s: seq<AccountRecord>, best: AccountRecord, family: string, now: Instant) {
    best in s && forall x :: x in s ==> CompareProbe(x, best, family, now) != Greater
  }

  ghost predicate AllQuoted(s: seq<AccountRecord>, family: string) {
    forall x :: x in s ==> x.quota.Effective(family).Some?
  }

  lemma {:induction false} MaxProbeIsHighest(s: seq<AccountRecord>, family: string, now: Instant)
    requires s != [] && AllQuoted(s, family)
    ensures HighestPriority(s, MaxProbe(s, family, now), family, now)
  {
    var n := |s| - 1;
    CompareProbeReverses(s[n], s[n], family, now);
    if n > 0 {
      MaxProbeIsHighest(s[..n], family, now);
      var best, r := MaxProbe(s[..n], family, now), MaxProbe(s, family, now);
      CompareProbeReverses(best, s[n], family, now);
      forall x | x in s ensures CompareProbe(x, r, family, now) != Greater {
        if x in s[..n] && r == s[n] && CompareProbe(best, s[n], family, now) != Greater {
          CompareProbeTransitive(x, best, r, family, now);
        }
      }
    }
  }

  lemma {:induction false} ProbeReadyQuoted(request: Request, now: Instant, candidates: seq<AccountRecord>)
    ensures AllQuoted(Filter(ProbeReadyFor(request, now), candidates), request.Family())
  {
    forall x ensures x in Filter(ProbeReadyFor(request, now), candidates) ==> ProbeReady(request, now, x) {
      FilterMembers(ProbeReadyFor(request, now), candidates, x);
    }
  }

  /**
   Outside recovery `Probe` appears only when nothing is open, and names the
   probe-ready candidate of highest priority; the remaining actions appear
   only when there is nothing to probe either.
   */
  lemma {:induction false} ProbeIsLastResort(request: Request, now: Instant, candidates: seq<AccountRecord>)
    requires !request.intent.ProbeRecovery?
    ensures var open := Filter(OpenFor(request, now), Placed(request, now, candidates));
            var ready := Filter(ProbeReadyFor(request, now), Placed(request, now, candidates));
            var action := Evaluate(request, now, candidates).action;
            && (action.Probe? <==> open == [] && ready != [])
            && (action.Probe? ==>
                  exists chosen: AccountRecord :: chosen.accountId == action.accountId
                    && HighestPriority(ready, chosen, request.Family(), now))
            && (open == [] && ready == [] ==>
                  action == if request.intent.SoftRotation? then StayOnCurrent else NoCandidate)
  {
    AdmitFilters(request, now, candidates);
    var open := Filter(OpenFor(request, now), Placed(request, now, candidates));
    var ready := Filter(ProbeReadyFor(request, now), Placed(request, now, candidates));
    Sorting.SortPermutes(RankedBefore(request), open);
    ProbeReadyQuoted(request, now, Placed(request, now, candidates));
    if ready != [] {
      MaxProbeIsHighest(ready, request.Family(), now);
    }
  }

  // ---------- probe recovery ----------

  /** Recovery admits at most the reserved target. */
  lemma {:induction false} RecoveryAdmitsTarget(request: Request, now: Instant, s: seq<AccountRecord>)
    requires request.intent.ProbeRecovery? && DistinctIds(s)
    ensures |Admit(request, now, s).admitted| <= 1
    ensures (forall i :: 0 <= i < |s| ==> request.reservedProbeTarget != Some(s[i].accountId))
            ==> Admit(request, now, s).admitted == []
  {
    if s != [] {
      RecoveryAdmitsTarget(request, now, s[..|s| - 1]);
    }
  }

  /** In recovery nothing is eligible and every candidate is rejected exactly once, the probe target included. */
  lemma {:induction false} RecoveryListsOnce(request: Request, now: Instant, candidates: seq<AccountRecord>)
    requires request.intent.ProbeRecovery? && DistinctIds(candidates)
    ensures var plan := Evaluate(request, now, candidates);
            plan.eligible == [] && multiset(RejectedIds(plan.rejected)) == multiset(Ids(candidates))
  {
    RecoveryAdmitsTarget(request, now, candidates);
    AdmitAccounts(request, now, candidates);
    var adm := Admit(request, now, candidates);
    BlockedAreRejected(request, now, candidates);
    RecoveryAccounts(adm, Ids(candidates));
  }

  /** Every admitted but blocked candidate is also on the rejection list. */
  ghost predicate BlockedListed(adm: Admission) {
    forall c :: c in adm.admitted && !c.blockClass.NotBlocked? ==> Listed(adm.rejected, c.record.accountId)
  }

  lemma {:induction false} BlockedAreRejected(request: Request, now: Instant, s: seq<AccountRecord>)
    ensures BlockedListed(Admit(request, now, s))
  {
    if s != [] {
      BlockedAreRejected(request, now, s[..|s| - 1]);
      var before, after := Admit(request, now, s[..|s| - 1]), Admit(request, now, s);
      assert before.rejected <= after.rejected;
      forall c | c in after.admitted && !c.blockClass.NotBlocked? ensures Listed(after.rejected, c.record.accountId) {
        if c in before.admitted {
          var j :| 0 <= j < |before.rejected| && before.rejected[j].accountId == c.record.accountId;
          assert after.rejected[j] == before.rejected[j];
        } else {
          assert after.rejected[|before.rejected|].accountId == c.record.accountId;
        }
      }
    }
  }

  lemma {:induction false} DistinctCount(s: seq<string>, id: string)
    requires forall i, j :: 0 <= i < j < |s| ==> s[i] != s[j]
    ensures multiset(s)[id] <= 1
  {
    if s != [] {
      DistinctCount(s[1..], id);
      assert s == [s[0]] + s[1..];
      if s[0] == id {
        assert id !in s[1..];
      }
    }
  }

  lemma {:induction false} RecoveryAccounts(adm: Admission, ids: seq<string>)
    requires |adm.admitted| <= 1 && Accounted(adm) == multiset(ids)
    requires forall i, j :: 0 <= i < j < |ids| ==> ids[i] != ids[j]
    requires BlockedListed(adm)
    ensures multiset(RejectedIds(RecoveryPlan(adm).rejected)) == multiset(ids)
  {
    if adm.admitted == [] {
      assert RecoveryPlan(adm).rejected == adm.rejected;
    } else {
      var c := adm.admitted[0];
      assert adm.admitted[..|adm.admitted| - 1] == [] && adm.admitted[1..] == [];
      assert RecoveryRejections([], adm.rejected) == adm.rejected;
      assert ProbeEligible(adm.admitted) == if c.blockClass.ProbeEligibleBlocked? then [c.record] else [];
      var id := c.record.accountId;
      if c.blockClass.NotBlocked? {
        assert Unblocked(adm.admitted) == [c.record];
        assert Ids([c.record]) == [id];
        DistinctCount(ids, id);
        assert multiset(RejectedIds(adm.rejected))[id] == 0;
        forall i | 0 <= i < |adm.rejected| ensures adm.rejected[i].accountId != id {
          assert RejectedIds(adm.rejected)[i] in multiset(RejectedIds(adm.rejected));
        }
        RejectedIdsAppend(adm.rejected, Rejected(id, ProbeTargetOnly));
      } else {
        assert Unblocked(adm.admitted) == [];
        assert RecoveryPlan(adm).rejected == adm.rejected;
      }
    }
  }
}
