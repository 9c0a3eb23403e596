/** The selector as the program runs it: loops that fill and sort vectors. */
module SelectionMethods {
  import opened Basics
  import opened Quota
  import opened Selection
  import opened SelectionTheorems
  import Sorting

  /** Runs admission, ranking and fallback; the plan is the one `Evaluate` specifies. */
  method EvaluateSelection(request: Request, now: Instant, candidates: seq<AccountRecord>) returns (plan: Plan)
    ensures plan == Evaluate(request, now, candidates)
  {
    hide Classify, HardReject;
    var admitted: seq<Ranked>, rejected: seq<Rejected> := [], [];
    for i := 0 to |candidates|
      invariant Admission(admitted, rejected) == Admit(request, now, candidates[..i])
    {
      assert candidates[..i + 1][..i] == candidates[..i];
      var candidate := candidates[i];
      if candidate.poolPosition == 0 {
        candidate := candidate.(poolPosition := |admitted| + |rejected|);
      }
      var reason := HardReject(request, candidate);
      if reason.Some? {
        rejected := rejected + [Rejected(candidate.accountId, reason.value)];
      } else {
        var blockClass := Classify(candidate, request.Family(), now);
        if blockClass.PredictedBlocked? || blockClass.ProbeEligibleBlocked? {
          rejected := rejected + [Rejected(candidate.accountId, QuotaBlocked)];
        }
        admitted := admitted + [Ranked(candidate, blockClass)];
      }
    }
    assert candidates[..|candidates|] == candidates;
    if request.intent.ProbeRecovery? {
      plan := FinalizeProbeRecovery(admitted, rejected);
      return;
    }

    var unblocked := CollectUnblocked(admitted);
    var eligible := Sorting.Sort(RankedBefore(request), unblocked);
    if request.preferred.Some? {
      var at := IndexOf(eligible, request.preferred.value);
      if at.Some? {
        var selected := eligible[at.value];
        eligible := [selected] + eligible[..at.value] + eligible[at.value + 1..];
        return Plan(Select(selected.accountId), eligible, None, rejected, OrdinaryRanking);
      }
    }
    if eligible != [] {
      var reason := OrdinaryRanking;
      if request.intent.AllowsJustReplacedReuse() && request.justReplaced == Some(eligible[0].accountId) {
        reason := HardFailoverOverride;
      }
      return Plan(Select(eligible[0].accountId), eligible, None, rejected, reason);
    }
    var probe := BestProbe(admitted, request.Family(), now);
    match probe {
      case Some(id) => plan := Plan(Probe(id), [], Some(id), rejected, ProbeFallback);
      case None =>
        if request.intent.StaysOnCurrentWhenExhausted() {
          plan := Plan(StayOnCurrent, [], None, rejected, SoftRotationCurrentRetained);
        } else {
          plan := Plan(NoCandidate, [], None, rejected, NoneLeft);
        }
    }
  }

  method CollectUnblocked(admitted: seq<Ranked>) returns (records: seq<AccountRecord>)
    ensures records == Unblocked(admitted)
  {
    records := [];
    for i := 0 to |admitted|
      invariant records == Unblocked(admitted[..i])
    {
      assert admitted[..i + 1] == admitted[..i] + [admitted[i]];
      UnblockedAppend(admitted[..i], admitted[i]);
      if admitted[i].blockClass.NotBlocked? {
        records := records + [admitted[i].record];
      }
    }
    assert admitted[..|admitted|] == admitted;
  }

  method BestProbe(admitted: seq<Ranked>, family: string, now: Instant) returns (best: Option<string>)
    ensures best == ProbeChoice(admitted, family, now)
  {
    var probes: seq<AccountRecord> := [];
    for i := 0 to |admitted|
      invariant probes == ProbeEligible(admitted[..i])
    {
      assert admitted[..i + 1] == admitted[..i] + [admitted[i]];
      UnblockedAppend(admitted[..i], admitted[i]);
      if admitted[i].blockClass.ProbeEligibleBlocked? {
        probes := probes + [admitted[i].record];
      }
    }
    assert admitted[..|admitted|] == admitted;
    if probes == [] {
      return None;
    }
    var record := Sorting.MaxBy(ProbedBefore(family, now), probes);
    best := Some(record.accountId);
  }

  method FinalizeProbeRecovery(admitted: seq<Ranked>, rejected: seq<Rejected>) returns (plan: Plan)
    ensures plan == RecoveryPlan(Admission(admitted, rejected))
  {
    var k := 0;
    while k < |admitted| && !admitted[k].blockClass.ProbeEligibleBlocked?
      invariant k <= |admitted|
      invariant ProbeEligible(admitted) == ProbeEligible(admitted[k..])
    {
      assert admitted[k..][1..] == admitted[k + 1..];
      k := k + 1;
    }
    if k < |admitted| {
      var id := admitted[k].record.accountId;
      return Plan(Probe(id), [], Some(id), rejected, ProbeFallback);
    }
    var all := rejected;
    for i := 0 to |admitted|
      invariant all == RecoveryRejections(admitted[..i], rejected)
    {
      assert admitted[..i + 1][..i] == admitted[..i];
      var c := admitted[i];
      if !c.blockClass.ProbeEligibleBlocked? && !Listed(all, c.record.accountId) {
        all := all + [Rejected(c.record.accountId,
                               if c.blockClass.PredictedBlocked? then QuotaBlocked else ProbeTargetOnly)];
      }
    }
    assert admitted[..|admitted|] == admitted;
    plan := Plan(NoCandidate, [], None, all, NoneLeft);
  }
}
