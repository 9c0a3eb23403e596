/** Quota facts, requests and plans exchanged with the account selector. */
module Quota {
  import opened Basics

  /** A point in time, in nanoseconds. */
  type Instant = int

  const NANOS_PER_SECOND: int := 1_000_000_000
  const I64_MAX: int := 0x7FFF_FFFF_FFFF_FFFF
  const I64_MIN: int := -0x8000_0000_0000_0000

  datatype ExhaustedWindows = NoWindow | Primary | Secondary | Both | Unknown {
    predicate IsExhausted() { this != NoWindow }
  }

  datatype QuotaRow = QuotaRow(
    limitId: string,
    primaryUsed: Option<real>,
    primaryResetsAt: Option<Instant>,
    secondaryUsed: Option<real>,
    secondaryResetsAt: Option<Instant>,
    exhausted: ExhaustedWindows,
    predictedBlockedUntil: Option<Instant>,
    nextProbeAfter: Option<Instant>)

  datatype QuotaView = QuotaView(selection: Option<QuotaRow>, codexFallback: Option<QuotaRow>) {

    /** The row that governs a selection family: its own row, else the fallback. */
    function Effective(family: string): Option<QuotaRow> {
      if selection.Some? && selection.value.limitId == family then selection else codexFallback
    }
  }

  datatype Intent = Startup | SoftRotation | HardFailover | ProbeRecovery {
    predicate AllowsJustReplacedReuse() { HardFailover? }
    predicate StaysOnCurrentWhenExhausted() { SoftRotation? }
  }

  datatype AccountRecord = AccountRecord(
    accountId: string,
    enabled: bool,
    authEligible: bool,
    poolPosition: nat,
    leasedToOther: bool,
    quota: QuotaView)

  datatype Request = Request(
    poolId: Option<string>,
    intent: Intent,
    family: Option<string>,
    preferred: Option<string>,
    current: Option<string>,
    justReplaced: Option<string>,
    reservedProbeTarget: Option<string>,
    thresholdPercent: nat)
  {
    function Family(): string { family.UnwrapOr("codex") }
  }

  datatype BlockClass = NotBlocked(lowConfidence: bool) | PredictedBlocked | ProbeEligibleBlocked

  datatype RejectReason =
    | Disabled
    | Unhealthy
    | LeasedToOtherHolder
    | CurrentAccount
    | JustReplacedAccount
    | QuotaBlocked
    | ProbeTargetOnly

  datatype Rejected = Rejected(accountId: string, reason: RejectReason)

  datatype Action = Select(accountId: string) | Probe(accountId: string) | StayOnCurrent | NoCandidate

  datatype DecisionReason =
    | OrdinaryRanking
    | HardFailoverOverride
    | ProbeFallback
    | SoftRotationCurrentRetained
    | NoneLeft

  datatype Plan = Plan(
    action: Action,
    eligible: seq<AccountRecord>,
    probeCandidate: Option<string>,
    rejected: seq<Rejected>,
    reason: DecisionReason)
}

/** The quota-aware account selector (`quota_selection.rs`). */
module Selection {
  import opened Basics
  import opened Orders
  import opened Quota
  import Sorting

  // ---------- classification ----------

  function HardReject(request: Request, candidate: AccountRecord): Option<RejectReason> {
    if !candidate.enabled then Some(Disabled)
    else if !candidate.authEligible then Some(Unhealthy)
    else if candidate.leasedToOther then Some(LeasedToOtherHolder)
    else if request.intent.ProbeRecovery? then
      if request.reservedProbeTarget != Some(candidate.accountId) then Some(ProbeTargetOnly) else None
    else if request.current == Some(candidate.accountId) then Some(CurrentAccount)
    else if !request.intent.AllowsJustReplacedReuse() && request.justReplaced == Some(candidate.accountId) then
      Some(JustReplacedAccount)
    else None
  }

  predicate IsLowConfidence(row: QuotaRow) {
    || row.primaryUsed.None?
    || row.primaryResetsAt.None?
    || row.secondaryUsed.None?
    || row.secondaryResetsAt.None?
  }

  function Classify(candidate: AccountRecord, family: string, now: Instant): BlockClass {
    match candidate.quota.Effective(family)
    case None => NotBlocked(true)
    case Some(row) =>
      if row.exhausted.IsExhausted() then
        if row.nextProbeAfter.None? || now >= row.nextProbeAfter.value
        then ProbeEligibleBlocked else PredictedBlocked
      else NotBlocked(IsLowConfidence(row))
  }

  // ---------- ranking ----------

  function PrimaryUsed(row: Option<QuotaRow>): real {
    if row.Some? && row.value.primaryUsed.Some? then row.value.primaryUsed.value else 100.0
  }

  function PrimaryMargin(row: Option<QuotaRow>): real { 100.0 - PrimaryUsed(row) }

  function SecondaryMargin(row: Option<QuotaRow>): real {
    100.0 - (if row.Some? && row.value.secondaryUsed.Some? then row.value.secondaryUsed.value else 100.0)
  }

  function PrimaryReset(row: Option<QuotaRow>): Option<Instant> {
    if row.Some? then row.value.primaryResetsAt else None
  }

  predicate LowConfidence(row: Option<QuotaRow>) { row.None? || IsLowConfidence(row.value) }

  function CompareReset(left: Option<Instant>, right: Option<Instant>): Ordering {
    match (left, right)
    case (Some(l), Some(r)) => CompareInt(l, r)
    case (Some(_), None) => Less
    case (None, Some(_)) => Greater
    case (None, None) => Equal
  }

  /** The quota keys that the ordinary ranking looks at after the threshold tier. */
  function CompareQuota(left: QuotaView, right: QuotaView, family: string): Ordering {
    var l, r := left.Effective(family), right.Effective(family);
    CompareReal(PrimaryMargin(r), PrimaryMargin(l))
    .Then(CompareReal(SecondaryMargin(r), SecondaryMargin(l)))
    .Then(CompareReset(PrimaryReset(l), PrimaryReset(r)))
    .Then(CompareBool(LowConfidence(l), LowConfidence(r)))
  }

  /** Everything the ordinary ranking looks at after the threshold tier. */
  function CompareBelowTier(left: AccountRecord, right: AccountRecord, family: string): Ordering {
    CompareQuota(left.quota, right.quota, family)
    .Then(CompareInt(left.poolPosition, right.poolPosition))
    .Then(CompareString(left.accountId, right.accountId))
  }

  function CompareOrdinary(left: AccountRecord, right: AccountRecord, request: Request): Ordering {
    var threshold := request.thresholdPercent as real;
    var l := PrimaryUsed(left.quota.Effective(request.Family())) < threshold;
    var r := PrimaryUsed(right.quota.Effective(request.Family())) < threshold;
    CompareBool(l, r).Reverse().Then(CompareBelowTier(left, right, request.Family()))
  }

  function RankedBefore(request: Request): (AccountRecord, AccountRecord) -> bool {
    (left, right) => CompareOrdinary(left, right, request) != Greater
  }

  // ---------- probing ----------

  /** Whole seconds of a duration, truncated toward zero. */
  function NumSeconds(nanos: int): int {
    if nanos >= 0 then nanos / NANOS_PER_SECOND else -((-nanos) / NANOS_PER_SECOND)
  }

  function KindRank(windows: ExhaustedWindows): int {
    match windows
    case Primary => 3
    case Both => 2
    case Secondary => 1
    case Unknown => 0
    case NoWindow => 0
  }

  function Staleness(row: QuotaRow, now: Instant): int {
    match row.nextProbeAfter
    case None => I64_MAX
    case Some(t) => var s := NumSeconds(now - t); if s > 0 then s else 0
  }

  function PredictedRecovery(row: QuotaRow, now: Instant): int {
    match row.predictedBlockedUntil
    case None => I64_MIN
    case Some(t) => var s := NumSeconds(t - now); if s == I64_MIN then I64_MAX else -s
  }

  /** The quota keys of the probe priority. */
  function CompareUrgency(left: QuotaRow, right: QuotaRow, now: Instant): Ordering {
    CompareInt(KindRank(left.exhausted), KindRank(right.exhausted))
    .Then(CompareInt(Staleness(left, now), Staleness(right, now)))
    .Then(CompareInt(PredictedRecovery(left, now), PredictedRecovery(right, now)))
  }

  function CompareProbe(left: AccountRecord, right: AccountRecord, family: string, now: Instant): Ordering {
    var l, r := left.quota.Effective(family), right.quota.Effective(family);
    if l.None? || r.None? then Equal
    else
      CompareUrgency(l.value, r.value, now)
      .Then(CompareInt(left.poolPosition, right.poolPosition).Reverse())
      .Then(CompareString(right.accountId, left.accountId))
  }

  // ---------- the plan ----------

  datatype Ranked = Ranked(record: AccountRecord, blockClass: BlockClass)

  /** The admitted and rejected candidates after the admission loop. */
  datatype Admission = Admission(admitted: seq<Ranked>, rejected: seq<Rejected>)

  function AdmitOne(request: Request, now: Instant, acc: Admission, candidate: AccountRecord): Admission {
    var c := if candidate.poolPosition == 0
             then candidate.(poolPosition := |acc.admitted| + |acc.rejected|) else candidate;
    match HardReject(request, c)
    case Some(reason) => acc.(rejected := acc.rejected + [Rejected(c.accountId, reason)])
    case None =>
      var blockClass := Classify(c, request.Family(), now);
      Admission(
        acc.admitted + [Ranked(c, blockClass)],
        if blockClass.NotBlocked? then acc.rejected
        else acc.rejected + [Rejected(c.accountId, QuotaBlocked)])
  }

  function Admit(request: Request, now: Instant, candidates: seq<AccountRecord>): Admission {
    if candidates == [] then Admission([], [])
    else
      AdmitOne(request, now, Admit(request, now, candidates[..|candidates| - 1]), candidates[|candidates| - 1])
  }

  function Unblocked(admitted: seq<Ranked>): seq<AccountRecord> {
    if admitted == [] then []
    else if admitted[0].blockClass.NotBlocked? then [admitted[0].record] + Unblocked(admitted[1..])
    else Unblocked(admitted[1..])
  }

  function ProbeEligible(admitted: seq<Ranked>): seq<AccountRecord> {
    if admitted == [] then []
    else if admitted[0].blockClass.ProbeEligibleBlocked? then [admitted[0].record] + ProbeEligible(admitted[1..])
    else ProbeEligible(admitted[1..])
  }

  function ProbedBefore(family: string, now: Instant): (AccountRecord, AccountRecord) -> bool {
    (left, right) => CompareProbe(left, right, family, now) == Greater
  }

  function MaxProbe(s: seq<AccountRecord>, family: string, now: Instant): AccountRecord
    requires s != []
  {
    Sorting.Max(ProbedBefore(family, now), s)
  }

  function IndexOf(s: seq<AccountRecord>, accountId: string): (r: Option<nat>)
    ensures r.Some? ==> r.value < |s| && s[r.value].accountId == accountId
    ensures r.Some? ==> forall i :: 0 <= i < r.value ==> s[i].accountId != accountId
    ensures r.None? ==> forall i :: 0 <= i < |s| ==> s[i].accountId != accountId
  {
    if s == [] then None
    else if s[0].accountId == accountId then Some(0)
    else match IndexOf(s[1..], accountId) case None => None case Some(i) => Some(i + 1)
  }

  predicate Listed(rejected: seq<Rejected>, accountId: string) {
    exists i :: 0 <= i < |rejected| && rejected[i].accountId == accountId
  }

  /** Rejections the probe-recovery path adds when no probe target was found. */
  function RecoveryRejections(admitted: seq<Ranked>, rejected: seq<Rejected>): seq<Rejected> {
    if admitted == [] then rejected
    else
      var sofar := RecoveryRejections(admitted[..|admitted| - 1], rejected);
      var c := admitted[|admitted| - 1];
      if c.blockClass.ProbeEligibleBlocked? || Listed(sofar, c.record.accountId)
      then sofar
      else sofar + [Rejected(c.record.accountId,
                             if c.blockClass.PredictedBlocked? then QuotaBlocked else ProbeTargetOnly)]
  }

  function RecoveryPlan(adm: Admission): Plan {
    var probes := ProbeEligible(adm.admitted);
    if probes != [] then
      Plan(Probe(probes[0].accountId), [], Some(probes[0].accountId), adm.rejected, ProbeFallback)
    else
      Plan(NoCandidate, [], None, RecoveryRejections(adm.admitted, adm.rejected), NoneLeft)
  }

  function ProbeChoice(admitted: seq<Ranked>, family: string, now: Instant): Option<string> {
    var probes := ProbeEligible(admitted);
    if probes == [] then None else Some(MaxProbe(probes, family, now).accountId)
  }

  /** The plan for a ranked list of eligible candidates and a probe to fall back on. */
  function PlanFrom(
    request: Request, eligible: seq<AccountRecord>, probe: Option<string>, rejected: seq<Rejected>): Plan
  {
    var preferredAt := if request.preferred.Some? then IndexOf(eligible, request.preferred.value) else None;
    if preferredAt.Some? then
      var k := preferredAt.value;
      Plan(Select(eligible[k].accountId), [eligible[k]] + eligible[..k] + eligible[k + 1..],
           None, rejected, OrdinaryRanking)
    else if eligible != [] then
      Plan(Select(eligible[0].accountId), eligible, None, rejected,
           if request.intent.AllowsJustReplacedReuse() && request.justReplaced == Some(eligible[0].accountId)
           then HardFailoverOverride else OrdinaryRanking)
    else
      match probe
      case Some(id) => Plan(Probe(id), [], Some(id), rejected, ProbeFallback)
      case None =>
        if request.intent.StaysOnCurrentWhenExhausted()
        then Plan(StayOnCurrent, [], None, rejected, SoftRotationCurrentRetained)
        else Plan(NoCandidate, [], None, rejected, NoneLeft)
  }

  function OrdinaryPlan(request: Request, now: Instant, adm: Admission): Plan {
    PlanFrom(request, Sorting.Sort(RankedBefore(request), Unblocked(adm.admitted)),
             ProbeChoice(adm.admitted, request.Family(), now), adm.rejected)
  }

  function Evaluate(request: Request, now: Instant, candidates: seq<AccountRecord>): Plan {
    var adm := Admit(request, now, candidates);
    if request.intent.ProbeRecovery? then RecoveryPlan(adm) else OrdinaryPlan(request, now, adm)
  }
}
