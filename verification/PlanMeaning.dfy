/**
 What a plan of the selector means, told by the fields of requests, account
 records and quota rows.
 */
module PlanMeaning {
  import opened Basics
  import opened Orders
  import opened Quota
  import opened Selection
  import opened SelectionTheorems
  import opened CandidateOrder
  import Sorting

  // ---------- candidates ----------

  /** A view's own row counts when it is for the family, and otherwise the fallback does. */
  ghost predicate Governs(row: Option<QuotaRow>, view: QuotaView, family: string) {
    || (row.Some? && row == view.selection && row.value.limitId == family)
    || (row == view.codexFallback && (view.selection.Some? ==> view.selection.value.limitId != family))
  }

  lemma {:induction false} EffectiveGoverns(view: QuotaView, family: string, row: Option<QuotaRow>)
    ensures row == view.Effective(family) <==> Governs(row, view, family)
  {}

  /** The request asks for the account: recovery for its target only, others for anything but what they leave. */
  ghost predicate AskedFor(request: Request, a: string) {
    if request.intent == ProbeRecovery then request.reservedProbeTarget == Some(a)
    else request.current != Some(a) && (request.intent == HardFailover || request.justReplaced != Some(a))
  }

  ghost predicate Usable(request: Request, c: AccountRecord) {
    c.enabled && c.authEligible && !c.leasedToOther && AskedFor(request, c.accountId)
  }

  /** The family of a request without one is `codex`. */
  ghost predicate ForFamily(request: Request, family: string) {
    request.family == Some(family) || (request.family == None && family == "codex")
  }

  ghost predicate Exhausted(c: AccountRecord, family: string) {
    c.quota.Effective(family).Some? && c.quota.Effective(family).value.exhausted != NoWindow
  }

  ghost predicate Due(c: AccountRecord, family: string, now: Instant) {
    && Exhausted(c, family)
    && var next := c.quota.Effective(family).value.nextProbeAfter;
    next == None || next.value <= now
  }

  /** A candidate is open when it is usable and not exhausted, and probe-ready when it is exhausted and due. */
  lemma {:induction false} CandidateIs(request: Request, now: Instant, c: AccountRecord, family: string)
    requires ForFamily(request, family)
    ensures Open(request, now, c) <==> Usable(request, c) && !Exhausted(c, family)
    ensures ProbeReady(request, now, c) <==> Usable(request, c) && Due(c, family, now)
    ensures BlockedFor(request, now)(c) <==> Usable(request, c) && Exhausted(c, family)
  {}

  // ---------- preference among open candidates ----------

  /** Percent used, where what is not known counts as everything. */
  ghost function Use(known: Option<real>): real {
    match known case Some(percent) => percent case None => 100.0
  }

  ghost function PrimaryUse(c: AccountRecord, family: string): real {
    match c.quota.Effective(family) case Some(row) => Use(row.primaryUsed) case None => 100.0
  }

  ghost function SecondaryUse(c: AccountRecord, family: string): real {
    match c.quota.Effective(family) case Some(row) => Use(row.secondaryUsed) case None => 100.0
  }

  ghost function ResetAt(c: AccountRecord, family: string): Option<Instant> {
    match c.quota.Effective(family) case Some(row) => row.primaryResetsAt case None => None
  }

  /** A known reset comes before a later one and before an unknown one. */
  ghost predicate Sooner(a: Option<Instant>, b: Option<Instant>) {
    a.Some? && (b.None? || a.value < b.value)
  }

  ghost predicate Complete(c: AccountRecord, family: string) {
    && c.quota.Effective(family).Some?
    && var row := c.quota.Effective(family).value;
    row.primaryUsed.Some? && row.primaryResetsAt.Some? && row.secondaryUsed.Some? && row.secondaryResetsAt.Some?
  }

  /**
   Less primary use; then less secondary use; then the sooner primary reset;
   then complete data; then the lower position; then the smaller id.
   */
  ghost predicate Better(x: AccountRecord, y: AccountRecord, family: string) {
    || PrimaryUse(x, family) < PrimaryUse(y, family)
    || (PrimaryUse(x, family) == PrimaryUse(y, family) && BetterOnTies(x, y, family))
  }

  ghost predicate BetterOnTies(x: AccountRecord, y: AccountRecord, family: string) {
    || SecondaryUse(x, family) < SecondaryUse(y, family)
    || (&& SecondaryUse(x, family) == SecondaryUse(y, family)
        && (|| Sooner(ResetAt(x, family), ResetAt(y, family))
            || (ResetAt(x, family) == ResetAt(y, family) && BetterAtLast(x, y, family))))
  }

  ghost predicate BetterAtLast(x: AccountRecord, y: AccountRecord, family: string) {
    || (Complete(x, family) && !Complete(y, family))
    || (&& (Complete(x, family) <==> Complete(y, family))
        && (|| x.poolPosition < y.poolPosition
            || (x.poolPosition == y.poolPosition && Before(x.accountId, y.accountId))))
  }

  lemma {:induction false} OrdinaryIsBetter(x: AccountRecord, y: AccountRecord, request: Request, family: string)
    requires ForFamily(request, family)
    ensures CompareOrdinary(x, y, request) == Less <==> Better(x, y, family)
  {
    hide Before, CompareString, CompareOrdinary;
    CompareStringIsBefore(x.accountId, y.accountId);
    ThresholdTierIsImplied(x, y, request);
    assert request.Family() == family;
  }

  // ---------- urgency among candidates due for a probe ----------

  /** Exhausted in the primary window alone, in both, in the secondary one alone, or who knows in which. */
  ghost function Gravity(windows: ExhaustedWindows): nat {
    if windows == Primary then 3 else if windows == Both then 2 else if windows == Secondary then 1 else 0
  }

  /** Whole seconds since the probe was due; a candidate that was due from the start waits longest. */
  ghost predicate WaitsFor(row: QuotaRow, now: Instant, seconds: int) {
    match row.nextProbeAfter
    case None => seconds == 0x7FFF_FFFF_FFFF_FFFF
    case Some(t) =>
      if now < t then seconds == 0
      else seconds >= 0 && t + seconds * 1_000_000_000 <= now < t + (seconds + 1) * 1_000_000_000
  }

  /** Whole seconds until the predicted recovery, counted toward zero; negative ones have passed. */
  ghost predicate RecoversIn(until: Instant, now: Instant, seconds: int) {
    if until >= now then seconds >= 0 && seconds * 1_000_000_000 <= until - now < (seconds + 1) * 1_000_000_000
    else seconds <= 0 && -seconds * 1_000_000_000 <= now - until < (-seconds + 1) * 1_000_000_000
  }

  ghost predicate WaitsLonger(p: QuotaRow, q: QuotaRow, now: Instant) {
    exists a, b :: WaitsFor(p, now, a) && WaitsFor(q, now, b) && a > b
  }

  ghost predicate WaitsAsLong(p: QuotaRow, q: QuotaRow, now: Instant) {
    exists a :: WaitsFor(p, now, a) && WaitsFor(q, now, a)
  }

  /** The recovery of `p` is predicted sooner than that of `q`, or is the only one that is predicted. */
  ghost predicate RecoversSooner(p: QuotaRow, q: QuotaRow, now: Instant) {
    match (p.predictedBlockedUntil, q.predictedBlockedUntil)
    case (Some(s), Some(t)) => exists a, b :: RecoversIn(s, now, a) && RecoversIn(t, now, b) && a < b
    case (Some(_), None) => true
    case _ => false
  }

  ghost predicate RecoversTogether(p: QuotaRow, q: QuotaRow, now: Instant) {
    match (p.predictedBlockedUntil, q.predictedBlockedUntil)
    case (Some(s), Some(t)) => exists a :: RecoversIn(s, now, a) && RecoversIn(t, now, a)
    case (None, None) => true
    case _ => false
  }

  /** The graver exhaustion; then the longer wait; then the sooner recovery; then the lower position and smaller id. */
  ghost predicate MoreUrgent(x: AccountRecord, y: AccountRecord, family: string, now: Instant) {
    && x.quota.Effective(family).Some? && y.quota.Effective(family).Some?
    && var p, q := x.quota.Effective(family).value, y.quota.Effective(family).value;
    || Gravity(p.exhausted) > Gravity(q.exhausted)
    || (&& Gravity(p.exhausted) == Gravity(q.exhausted)
        && (|| WaitsLonger(p, q, now)
            || (WaitsAsLong(p, q, now) && MoreUrgentOnTies(x, y, p, q, now))))
  }

  ghost predicate MoreUrgentOnTies(x: AccountRecord, y: AccountRecord, p: QuotaRow, q: QuotaRow, now: Instant) {
    || RecoversSooner(p, q, now)
    || (&& RecoversTogether(p, q, now)
        && (|| x.poolPosition < y.poolPosition
            || (x.poolPosition == y.poolPosition && Before(x.accountId, y.accountId))))
  }

  /** The recovery is at most 2^62 seconds away, far beyond what a time stamp can express. */
  ghost predicate Representable(row: QuotaRow, now: Instant) {
    row.predictedBlockedUntil.Some? ==>
      -0x4000_0000_0000_0000 * 1_000_000_000 <= row.predictedBlockedUntil.value - now
      <= 0x4000_0000_0000_0000 * 1_000_000_000
  }

  ghost predicate Comparable(x: AccountRecord, family: string, now: Instant) {
    x.quota.Effective(family).Some? ==> Representable(x.quota.Effective(family).value, now)
  }

  lemma {:induction false} WaitIs(row: QuotaRow, now: Instant)
    ensures forall a :: WaitsFor(row, now, a) <==> a == Staleness(row, now)
    ensures WaitsFor(row, now, Staleness(row, now))
  {}

  lemma {:induction false} RecoveryIs(until: Instant, now: Instant)
    ensures forall a :: RecoversIn(until, now, a) <==> a == NumSeconds(until - now)
    ensures RecoversIn(until, now, NumSeconds(until - now))
  {}

  /** Whole seconds toward zero are no further away than the time itself. */
  lemma {:induction false} SecondsWithin(nanos: int)
    requires -0x4000_0000_0000_0000 * 1_000_000_000 <= nanos <= 0x4000_0000_0000_0000 * 1_000_000_000
    ensures -0x4000_0000_0000_0000 <= NumSeconds(nanos) <= 0x4000_0000_0000_0000
  {}

  lemma {:induction false} ComparesWait(p: QuotaRow, q: QuotaRow, now: Instant)
    ensures Staleness(p, now) > Staleness(q, now) <==> WaitsLonger(p, q, now)
    ensures Staleness(p, now) == Staleness(q, now) <==> WaitsAsLong(p, q, now)
  {
    WaitIs(p, now);
    WaitIs(q, now);
    hide WaitsFor, Staleness;
  }

  lemma {:induction false} ComparesRecovery(p: QuotaRow, q: QuotaRow, now: Instant)
    requires Representable(p, now) && Representable(q, now)
    ensures PredictedRecovery(p, now) > PredictedRecovery(q, now) <==> RecoversSooner(p, q, now)
    ensures PredictedRecovery(p, now) == PredictedRecovery(q, now) <==> RecoversTogether(p, q, now)
  {
    if p.predictedBlockedUntil.Some? {
      RecoveryIs(p.predictedBlockedUntil.value, now);
      SecondsWithin(p.predictedBlockedUntil.value - now);
    }
    if q.predictedBlockedUntil.Some? {
      RecoveryIs(q.predictedBlockedUntil.value, now);
      SecondsWithin(q.predictedBlockedUntil.value - now);
    }
    hide RecoversIn, NumSeconds;
  }

  lemma {:induction false} ProbeIsMoreUrgent(x: AccountRecord, y: AccountRecord, family: string, now: Instant)
    requires x.quota.Effective(family).Some? && y.quota.Effective(family).Some?
    requires Representable(x.quota.Effective(family).value, now) && Representable(y.quota.Effective(family).value, now)
    ensures CompareProbe(x, y, family, now) == Greater <==> MoreUrgent(x, y, family, now)
  {
    var p, q := x.quota.Effective(family).value, y.quota.Effective(family).value;
    hide WaitsLonger, WaitsAsLong, RecoversSooner, RecoversTogether, Staleness, PredictedRecovery, Before,
      CompareString;
    ComparesWait(p, q, now);
    ComparesRecovery(p, q, now);
    CompareStringIsBefore(y.accountId, x.accountId);
    assert CompareString(y.accountId, x.accountId) == Greater <==> Before(x.accountId, y.accountId);
  }

  // ---------- what the plan does ----------

  /** Nobody can be leased, and nobody is due for a probe. */
  ghost predicate NothingToTry(request: Request, now: Instant, s: seq<AccountRecord>) {
    forall i :: 0 <= i < |s| ==>
      !ProbeReady(request, now, s[i]) && (Open(request, now, s[i]) ==> request.intent == ProbeRecovery)
  }

  ghost predicate OpenAt(request: Request, now: Instant, s: seq<AccountRecord>, c: AccountRecord) {
    c in Placed(request, now, s) && Open(request, now, c)
  }

  ghost predicate DueAt(request: Request, now: Instant, s: seq<AccountRecord>, c: AccountRecord) {
    c in Placed(request, now, s) && ProbeReady(request, now, c)
  }

  /** `a` is the account to lease: the preferred one if it is open, and otherwise the best of the open ones. */
  ghost predicate Chosen(request: Request, now: Instant, s: seq<AccountRecord>, family: string, a: string) {
    exists c ::
      && OpenAt(request, now, s, c) && c.accountId == a
      && if exists d :: OpenAt(request, now, s, d) && Some(d.accountId) == request.preferred
         then Some(a) == request.preferred
         else forall x :: OpenAt(request, now, s, x) && x.accountId != a ==> Better(c, x, family)
  }

  /** `a` is the account to probe: nobody is open, and it is the most urgent one that is due. */
  ghost predicate ChosenToProbe(request: Request, now: Instant, s: seq<AccountRecord>, family: string, a: string) {
    && (forall x :: !OpenAt(request, now, s, x))
    && exists c ::
      && DueAt(request, now, s, c) && c.accountId == a
      && forall x ::
           DueAt(request, now, s, x) && x.accountId != a && Comparable(c, family, now) && Comparable(x, family, now)
           ==> MoreUrgent(c, x, family, now)
  }

  lemma {:induction false} Kept(request: Request, now: Instant, s: seq<AccountRecord>)
    ensures forall c :: c in Filter(OpenFor(request, now), Placed(request, now, s)) <==> OpenAt(request, now, s, c)
    ensures forall c :: c in Filter(ProbeReadyFor(request, now), Placed(request, now, s)) <==> DueAt(request, now, s, c)
  {
    forall c ensures c in Filter(OpenFor(request, now), Placed(request, now, s)) <==> OpenAt(request, now, s, c) {
      FilterMembers(OpenFor(request, now), Placed(request, now, s), c);
    }
    forall c ensures c in Filter(ProbeReadyFor(request, now), Placed(request, now, s)) <==> DueAt(request, now, s, c) {
      FilterMembers(ProbeReadyFor(request, now), Placed(request, now, s), c);
    }
  }

  lemma {:induction false} SelectMeans(request: Request, now: Instant, s: seq<AccountRecord>, family: string)
    requires request.intent != ProbeRecovery && ForFamily(request, family)
    ensures
      var action := Evaluate(request, now, s).action;
      action.Select? ==> Chosen(request, now, s, family, action.accountId)
  {
    hide Evaluate, Filter, Placed, OpenFor, Open, Better, ForFamily, CompareOrdinary;
    SelectIsOptimal(request, now, s);
    Kept(request, now, s);
    var open := Filter(OpenFor(request, now), Placed(request, now, s));
    var action := Evaluate(request, now, s).action;
    if action.Select? {
      var c :| c in open && c.accountId == action.accountId
        && (if exists d :: d in open && Some(d.accountId) == request.preferred
            then Some(c.accountId) == request.preferred else Best(request, open, c));
      forall x | x in open && x.accountId != c.accountId && Best(request, open, c) ensures Better(c, x, family) {
        OrdinaryIsBetter(c, x, request, family);
      }
    }
  }

  lemma {:induction false} ProbeMeans(request: Request, now: Instant, s: seq<AccountRecord>, family: string)
    requires request.intent != ProbeRecovery && ForFamily(request, family)
    ensures
      var action := Evaluate(request, now, s).action;
      action.Probe? ==> ChosenToProbe(request, now, s, family, action.accountId)
  {
    hide Evaluate, Filter, Placed, OpenFor, Open, ProbeReadyFor, MoreUrgent;
    ProbeIsLastResort(request, now, s);
    Kept(request, now, s);
    ProbeReadyQuoted(request, now, Placed(request, now, s));
    var ready := Filter(ProbeReadyFor(request, now), Placed(request, now, s));
    var action := Evaluate(request, now, s).action;
    if action.Probe? {
      assert request.Family() == family;
      var c: AccountRecord :| c.accountId == action.accountId && HighestPriority(ready, c, family, now);
      forall x | x in ready && x.accountId != c.accountId && Comparable(c, family, now) && Comparable(x, family, now)
        ensures MoreUrgent(c, x, family, now)
      {
        CompareProbeReverses(x, c, family, now);
        ProbeIsMoreUrgent(c, x, family, now);
      }
    }
  }

  lemma {:induction false} NothingMeans(request: Request, now: Instant, s: seq<AccountRecord>)
    requires request.intent != ProbeRecovery
    ensures
      var action := Evaluate(request, now, s).action;
      && (!action.Select? && !action.Probe? <==> NothingToTry(request, now, s))
      && (!action.Select? && !action.Probe? ==>
            action == if request.intent == SoftRotation then StayOnCurrent else NoCandidate)
  {
    hide Evaluate, Placed, Open, ProbeReady;
    SelectIsOptimal(request, now, s);
    ProbeIsLastResort(request, now, s);
    NoneKept(OpenFor(request, now), request, now, s);
    NoneKept(ProbeReadyFor(request, now), request, now, s);
    hide Filter;
    forall i | 0 <= i < |s| ensures s[i] in s {}
  }

  /** Nothing is kept of the placed candidates exactly when nothing is kept of the candidates. */
  lemma {:induction false} NoneKept(p: AccountRecord -> bool, request: Request, now: Instant, s: seq<AccountRecord>)
    requires p == OpenFor(request, now) || p == ProbeReadyFor(request, now)
    ensures Filter(p, Placed(request, now, s)) == [] <==> forall c :: c in s ==> !p(c)
  {
    hide Open, ProbeReady;
    PlacesDoNotMatter(request, now);
    FilterPlaced(p, request, now, s);
    assert |Filter(p, s)| == |Filter(p, Placed(request, now, s))|;
    forall c ensures c in Filter(p, s) <==> c in s && p(c) { FilterMembers(p, s, c); }
    assert Filter(p, s) != [] ==> Filter(p, s)[0] in Filter(p, s);
  }

  /** What each action says about the candidates of a plan. */
  lemma {:induction false} ActionMeans(request: Request, now: Instant, s: seq<AccountRecord>, family: string)
    requires ForFamily(request, family)
    ensures
      match Evaluate(request, now, s).action
      case Select(a) => request.intent != ProbeRecovery && Chosen(request, now, s, family, a)
      case Probe(a) => request.intent != ProbeRecovery ==> ChosenToProbe(request, now, s, family, a)
      case _ => NothingToTry(request, now, s)
  {
    hide Evaluate, Chosen, ChosenToProbe, NothingToTry, ForFamily;
    if request.intent == ProbeRecovery {
      RecoveryMeans(request, now, s);
    } else {
      SelectMeans(request, now, s, family);
      ProbeMeans(request, now, s, family);
      NothingMeans(request, now, s);
    }
  }

  /** The selection criteria one by one, for a candidate that is better than every other. */
  lemma {:induction false} BetterIsLeastUsed(x: AccountRecord, y: AccountRecord, family: string)
    requires Better(x, y, family)
    ensures PrimaryUse(x, family) <= PrimaryUse(y, family)
    ensures PrimaryUse(x, family) == PrimaryUse(y, family) ==> SecondaryUse(x, family) <= SecondaryUse(y, family)
    ensures
      PrimaryUse(x, family) == PrimaryUse(y, family) && SecondaryUse(x, family) == SecondaryUse(y, family) ==>
      && !Sooner(ResetAt(y, family), ResetAt(x, family))
      && (ResetAt(x, family) == ResetAt(y, family) && Complete(y, family) ==> Complete(x, family))
  {}

  ghost predicate LeastUsed(request: Request, now: Instant, s: seq<AccountRecord>, family: string, c: AccountRecord) {
    forall x :: OpenAt(request, now, s, x) && x.accountId != c.accountId ==>
      && PrimaryUse(c, family) <= PrimaryUse(x, family)
      && (PrimaryUse(c, family) == PrimaryUse(x, family) ==>
            && SecondaryUse(c, family) <= SecondaryUse(x, family)
            && (SecondaryUse(c, family) == SecondaryUse(x, family) ==>
                  && !Sooner(ResetAt(x, family), ResetAt(c, family))
                  && (ResetAt(c, family) == ResetAt(x, family) && Complete(x, family) ==> Complete(c, family))))
  }

  /**
   With nobody open who is preferred, the selected account has the least primary
   use; among those that tie on it the least secondary use; then the earliest
   known primary reset; then complete data if any of them has.
   */
  lemma {:induction false} SelectedIsLeastUsed(request: Request, now: Instant, s: seq<AccountRecord>, family: string)
    requires request.intent != ProbeRecovery && ForFamily(request, family)
    requires forall d :: OpenAt(request, now, s, d) ==> Some(d.accountId) != request.preferred
    requires Evaluate(request, now, s).action.Select?
    ensures
      exists c ::
        && OpenAt(request, now, s, c) && Evaluate(request, now, s).action == Select(c.accountId)
        && LeastUsed(request, now, s, family, c)
  {
    hide Evaluate, OpenAt, Better, PrimaryUse, SecondaryUse, ResetAt, Complete, Sooner, ForFamily;
    SelectMeans(request, now, s, family);
    var a := Evaluate(request, now, s).action.accountId;
    var c :| && OpenAt(request, now, s, c) && c.accountId == a
      && forall x :: OpenAt(request, now, s, x) && x.accountId != a ==> Better(c, x, family);
    IsLeastUsed(request, now, s, family, c);
  }

  lemma {:induction false} IsLeastUsed(
    request: Request, now: Instant, s: seq<AccountRecord>, family: string, c: AccountRecord)
    requires forall x :: OpenAt(request, now, s, x) && x.accountId != c.accountId ==> Better(c, x, family)
    ensures LeastUsed(request, now, s, family, c)
  {
    hide OpenAt, Better, PrimaryUse, SecondaryUse, ResetAt, Complete, Sooner;
    forall x | OpenAt(request, now, s, x) && x.accountId != c.accountId
      ensures PrimaryUse(c, family) <= PrimaryUse(x, family)
      ensures PrimaryUse(c, family) == PrimaryUse(x, family) ==> SecondaryUse(c, family) <= SecondaryUse(x, family)
      ensures
        PrimaryUse(c, family) == PrimaryUse(x, family) && SecondaryUse(c, family) == SecondaryUse(x, family) ==>
        && !Sooner(ResetAt(x, family), ResetAt(c, family))
        && (ResetAt(c, family) == ResetAt(x, family) && Complete(x, family) ==> Complete(c, family))
    {
      BetterIsLeastUsed(c, x, family);
    }
  }

  // ---------- the rest of the plan ----------

  /** Why a candidate is on the list of rejections, outside recovery. */
  ghost predicate Rejects(request: Request, c: AccountRecord, family: string, reason: RejectReason) {
    match reason
    case Disabled => !c.enabled
    case Unhealthy => c.enabled && !c.authEligible
    case LeasedToOtherHolder => c.enabled && c.authEligible && c.leasedToOther
    case CurrentAccount =>
      c.enabled && c.authEligible && !c.leasedToOther && request.current == Some(c.accountId)
    case JustReplacedAccount =>
      && c.enabled && c.authEligible && !c.leasedToOther && request.current != Some(c.accountId)
      && request.intent != HardFailover && request.justReplaced == Some(c.accountId)
    case QuotaBlocked => Usable(request, c) && Exhausted(c, family)
    case ProbeTargetOnly => false
  }

  /** Admission rejects exactly what each candidate gives rise to. */
  lemma {:induction false} AdmissionRejects(request: Request, now: Instant, s: seq<AccountRecord>, r: Rejected)
    ensures r in Admit(request, now, s).rejected <==> exists c :: c in s && RejectionOf(request, now, c) == Some(r)
  {
    hide RejectionOf, Admit;
    RejectedCount(request, now, s, r);
    var p, rejected := RejectedAs(request, now, r), Admit(request, now, s).rejected;
    var kept := Filter(p, s);
    forall c ensures c in kept <==> c in s && RejectionOf(request, now, c) == Some(r) { FilterMembers(p, s, c); }
    hide Filter;
    assert r in rejected <==> multiset(rejected)[r] > 0;
    assert |kept| > 0 ==> kept[0] in kept;
  }

  lemma {:induction false} RejectionIs(request: Request, now: Instant, c: AccountRecord, family: string, r: Rejected)
    requires ForFamily(request, family)
    ensures request.intent != ProbeRecovery ==>
      (RejectionOf(request, now, c) == Some(r) <==> r.accountId == c.accountId && Rejects(request, c, family, r.reason))
    ensures request.intent == ProbeRecovery ==>
      (|| RejectionOf(request, now, c) == Some(r)
       || (Usable(request, c) && !Exhausted(c, family) && r == Rejected(c.accountId, ProbeTargetOnly))
       <==> r.accountId == c.accountId && RecoveryRejects(request, c, family, r.reason))
  {}

  /** The list of rejections names each candidate that is not open, with the one reason that applies. */
  lemma {:induction false} RejectionsMean(
    request: Request, now: Instant, s: seq<AccountRecord>, family: string, a: string, reason: RejectReason)
    requires request.intent != ProbeRecovery && ForFamily(request, family)
    ensures Rejected(a, reason) in Evaluate(request, now, s).rejected <==>
            exists c :: c in s && c.accountId == a && Rejects(request, c, family, reason)
  {
    hide Rejects, RejectionOf, ForFamily;
    AdmissionRejects(request, now, s, Rejected(a, reason));
    forall c: AccountRecord
      ensures RejectionOf(request, now, c) == Some(Rejected(a, reason))
              <==> c.accountId == a && Rejects(request, c, family, reason)
    {
      RejectionIs(request, now, c, family, Rejected(a, reason));
    }
    hide Admit;
    assert Evaluate(request, now, s).rejected == Admit(request, now, s).rejected;
  }

  /** What a plan says about its action, and whom it lists as eligible. */
  lemma {:induction false} PlanFieldsMean(request: Request, now: Instant, s: seq<AccountRecord>)
    requires request.intent != ProbeRecovery
    ensures
      var plan := Evaluate(request, now, s);
      && (forall c :: c in plan.eligible <==> OpenAt(request, now, s, c))
      && plan.probeCandidate == (if plan.action.Probe? then Some(plan.action.accountId) else None)
      && (plan.action.Select? ==> plan.eligible != [] && plan.eligible[0].accountId == plan.action.accountId)
      && plan.reason ==
         match plan.action
         case Select(a) =>
           if request.intent == HardFailover && request.justReplaced == Some(a) && request.preferred != Some(a)
           then HardFailoverOverride else OrdinaryRanking
         case Probe(_) => ProbeFallback
         case StayOnCurrent => SoftRotationCurrentRetained
         case NoCandidate => NoneLeft
  {
    hide Filter, Placed, Sorting.Sort, Admit, ProbeChoice;
    Kept(request, now, s);
    forall c ensures c in Evaluate(request, now, s).eligible <==> OpenAt(request, now, s, c) {
      EligibleMembers(request, now, s, c);
    }
  }

  // ---------- recovery ----------

  /** Recovery probes the reserved target if it is due, and otherwise does nothing. */
  lemma {:induction false} RecoveryMeans(request: Request, now: Instant, s: seq<AccountRecord>)
    requires request.intent == ProbeRecovery
    ensures
      var plan := Evaluate(request, now, s);
      && (plan.action.Probe? <==> exists c :: c in s && ProbeReady(request, now, c))
      && (plan.action.Probe? ==> request.reservedProbeTarget == Some(plan.action.accountId))
      && (!plan.action.Probe? ==> plan.action == NoCandidate && NothingToTry(request, now, s))
      && plan.eligible == [] && plan.reason == (if plan.action.Probe? then ProbeFallback else NoneLeft)
      && plan.probeCandidate == (if plan.action.Probe? then Some(plan.action.accountId) else None)
  {
    hide Placed, Admit, Open;
    AdmitFilters(request, now, s);
    NoneKept(ProbeReadyFor(request, now), request, now, s);
    var ready := Filter(ProbeReadyFor(request, now), Placed(request, now, s));
    hide Filter;
    forall i | 0 <= i < |s| ensures s[i] in s {}
    if ready != [] {
      FilterMembers(ProbeReadyFor(request, now), Placed(request, now, s), ready[0]);
    }
  }

  /** The rejections of a recovery: others for what they are, and the target for not being due. */
  ghost predicate RecoveryRejects(request: Request, c: AccountRecord, family: string, reason: RejectReason) {
    match reason
    case Disabled => !c.enabled
    case Unhealthy => c.enabled && !c.authEligible
    case LeasedToOtherHolder => c.enabled && c.authEligible && c.leasedToOther
    case QuotaBlocked => Usable(request, c) && Exhausted(c, family)
    case ProbeTargetOnly =>
      && c.enabled && c.authEligible && !c.leasedToOther
      && (request.reservedProbeTarget != Some(c.accountId) || !Exhausted(c, family))
    case _ => false
  }

  lemma {:induction false} RecoveryRejectionsMean(
    request: Request, now: Instant, s: seq<AccountRecord>, family: string, a: string, reason: RejectReason)
    requires request.intent == ProbeRecovery && ForFamily(request, family) && DistinctIds(s)
    ensures Rejected(a, reason) in Evaluate(request, now, s).rejected <==>
            exists c :: c in s && c.accountId == a && RecoveryRejects(request, c, family, reason)
  {
    hide Evaluate, Admit, RecoveryRejects, RejectionOf, ForFamily, DistinctIds, Usable, Exhausted;
    var r := Rejected(a, reason);
    TargetRejection(request, now, s, family, r);
    AdmissionRejects(request, now, s, r);
    forall c: AccountRecord
      ensures c.accountId == a && RecoveryRejects(request, c, family, reason) <==>
              || RejectionOf(request, now, c) == Some(r)
              || (Usable(request, c) && !Exhausted(c, family) && r == Rejected(c.accountId, ProbeTargetOnly))
    {
      RejectionIs(request, now, c, family, r);
    }
  }

  /** An open target is not among the rejections of admission. */
  lemma {:induction false} OpenNotListed(request: Request, now: Instant, s: seq<AccountRecord>, c: AccountRecord)
    requires DistinctIds(s) && c in s && Open(request, now, c)
    ensures !Listed(Admit(request, now, s).rejected, c.accountId)
  {
    var rejected := Admit(request, now, s).rejected;
    hide Admit, Open;
    forall i | 0 <= i < |rejected| ensures rejected[i].accountId != c.accountId {
      AdmissionRejects(request, now, s, rejected[i]);
      var d :| d in s && RejectionOf(request, now, d) == Some(rejected[i]);
      OpenIsNoRejection(request, now, c, d);
    }
  }

  lemma {:induction false} OpenIsNoRejection(request: Request, now: Instant, c: AccountRecord, d: AccountRecord)
    requires Open(request, now, c) && RejectionOf(request, now, d).Some?
    ensures c != d && RejectionOf(request, now, d).value.accountId == d.accountId
  {}

  /** Recovery adds one rejection to those of admission: a target that is not exhausted. */
  lemma {:induction false} TargetRejection(
    request: Request, now: Instant, s: seq<AccountRecord>, family: string, r: Rejected)
    requires request.intent == ProbeRecovery && ForFamily(request, family) && DistinctIds(s)
    ensures
      r in Evaluate(request, now, s).rejected <==>
      || r in Admit(request, now, s).rejected
      || exists c ::
           c in s && r == Rejected(c.accountId, ProbeTargetOnly) && Usable(request, c) && !Exhausted(c, family)
  {
    var adm := Admit(request, now, s);
    var open := Filter(OpenFor(request, now), Placed(request, now, s));
    RecoveryAdmitsTarget(request, now, s);
    AdmitFilters(request, now, s);
    BlockedAreRejected(request, now, s);
    hide Admit, Placed, Filter, DistinctIds, Open, Usable, Exhausted, BlockedListed, RecoveryPlan, Listed;
    forall c ensures Usable(request, c) && !Exhausted(c, family) <==> Open(request, now, c) {
      CandidateIs(request, now, c, family);
    }
    OpenCome(request, now, s);
    forall c | c in s && Open(request, now, c) ensures c.accountId in Ids(open) && !Listed(adm.rejected, c.accountId) {
      OpenNotListed(request, now, s, c);
      OpenIsListed(request, now, s, c);
    }
    forall i | 0 <= i < |open| ensures !Listed(adm.rejected, open[i].accountId) {
      assert Ids(open)[i] in Ids(open);
    }
    RecoveryAdds(adm, open);
    assert Evaluate(request, now, s).rejected == RecoveryPlan(adm).rejected;
    AddedOne(adm.rejected, open, r);
  }

  lemma {:induction false} AddedOne(rejected: seq<Rejected>, open: seq<AccountRecord>, r: Rejected)
    requires |open| <= 1
    ensures r in rejected + (if open == [] then [] else [Rejected(open[0].accountId, ProbeTargetOnly)]) <==>
            r in rejected || exists a :: a in Ids(open) && r == Rejected(a, ProbeTargetOnly)
  {
    if open != [] {
      assert Ids(open) == [open[0].accountId];
      assert open[0].accountId in Ids(open);
    }
  }

  lemma {:induction false} RecoveryAdds(adm: Admission, open: seq<AccountRecord>)
    requires |adm.admitted| <= 1 && BlockedListed(adm) && open == Unblocked(adm.admitted)
    requires forall i :: 0 <= i < |open| ==> !Listed(adm.rejected, open[i].accountId)
    ensures |open| <= 1
    ensures RecoveryPlan(adm).rejected ==
            adm.rejected + if open == [] then [] else [Rejected(open[0].accountId, ProbeTargetOnly)]
  {
    if adm.admitted == [] {
      assert RecoveryPlan(adm).rejected == adm.rejected;
    } else {
      var k := adm.admitted[0];
      assert adm.admitted[1..] == [] && adm.admitted[..|adm.admitted| - 1] == [] && k in adm.admitted;
      assert RecoveryRejections([], adm.rejected) == adm.rejected;
      assert Unblocked([]) == [] && ProbeEligible([]) == [];
      assert open == if k.blockClass.NotBlocked? then [k.record] else [];
      assert ProbeEligible(adm.admitted) == if k.blockClass.ProbeEligibleBlocked? then [k.record] else [];
      if k.blockClass.NotBlocked? {
        assert open[0] == k.record;
      }
    }
  }

  lemma {:induction false} OpenIsListed(request: Request, now: Instant, s: seq<AccountRecord>, c: AccountRecord)
    requires c in s && Open(request, now, c)
    ensures c.accountId in Ids(Filter(OpenFor(request, now), Placed(request, now, s)))
  {
    hide Open, Placed, Filter;
    var p := OpenFor(request, now);
    PlacesDoNotMatter(request, now);
    FilterPlaced(p, request, now, s);
    FilterMembers(p, s, c);
    var kept := Filter(p, s);
    var i :| 0 <= i < |kept| && kept[i] == c;
    assert Ids(kept)[i] == c.accountId;
  }

  lemma {:induction false} OpenCome(request: Request, now: Instant, s: seq<AccountRecord>)
    ensures forall a :: a in Ids(Filter(OpenFor(request, now), Placed(request, now, s))) ==>
              exists c :: c in s && Open(request, now, c) && c.accountId == a
  {
    hide Open, Placed, Filter;
    var p := OpenFor(request, now);
    PlacesDoNotMatter(request, now);
    FilterPlaced(p, request, now, s);
    var kept := Filter(p, s);
    forall a | a in Ids(kept) ensures exists c :: c in s && Open(request, now, c) && c.accountId == a {
      var i :| 0 <= i < |kept| && Ids(kept)[i] == a;
      assert kept[i] in kept;
      FilterMembers(p, s, kept[i]);
    }
  }
}
