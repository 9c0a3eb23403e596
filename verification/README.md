# Account pool, schema export, app-server clients and turn analytics

A Dafny model of five components of the Codex workspace, with the properties
that their design rests on.

**Account-pool lease manager and selector.** `Quota`, `Selection` and
`SelectionMethods` follow the shared selector: hard rejects, block classes, the
ordinary ranking, probe priorities and the plan they lead to. `SelectionTheorems`
says what the plan is for every list of candidates, including accounts that bring
no position along and are ranked at the place the list gives them; `CandidateOrder`
says exactly when the order of the list then matters; `PlanMeaning` tells every part
of a plan by the fields of requests, accounts and quota rows. `LeaseStore` says,
as relations between stores, what each backend call may do, and `PoolBackend` is
a class whose methods do any of it, failures included. `AccountPoolManager` has
the manager's fields and loops. `ManagerInvariant`, `CallLog` and `Progress` hold
the invariant that every operation keeps, the order of backend calls, and the
quantities that every turn of a selection loop uses up. `RotationTurns` gives the
turns of both selection loops as relations, with what it means that they end, and
`SlowRotation` builds the longest rotations from it. `Manager.Run` is the statement about whole runs of any number
of managers that share a backend; `CallSteps` is the safety part once more at the
grain of single backend calls, with other processes between any two of them.

**Schema export.** `Reachability` and `VariantStripping` collect definitions
reachable from a schema and drop request or notification variants. `References`
rewrites reference texts between the namespaced and the flat bundle, `Pointers`
resolves them as JSON Schema draft-07, section 8.3, asks, and `Flattening` builds
the flat bundle. `Scanner`, `SplitJoin` and `ScannerMethods` split TypeScript
text at top-level delimiters and join what a filter keeps; `BraceSpan` finds the
first top-level brace block. `SchemaMeaning` tells what is read from a schema by
its paths, and `ScannerMeaning` what is read from a text by a grammar of strings,
comments and code.

**Fixture canonicalizer.** `Canonical` is the recursive normal form of a JSON
value; `Reordered` is the relation it should decide and `InNormalForm` the order it
should establish, both defined without it.

**App-server clients.** `Slots` and `Forwarder` are the bounded event queue of
the embedded server with its lossless and best-effort tiers. `RemoteProtocol` and
`RemoteWorker` are the websocket worker with its map of waiting callers, the
handshake, and the consumer.

**Turn analytics.** `Reducer` gives one fact's effect as a function, the class in
`ReducerMethods` performs it on five maps, and `ReducerTheorems` is about runs.
`ReducerMeaning` states all that a run reports from the facts alone.

Conventions. Percentages are reals, so NaN and rounding do not occur. Instants and
durations are integers in nanoseconds. Storage keeps them in whole seconds, which
matters for how long a probe stays reserved. A rotation has one reading of the
clock; a selection may read it again on every turn, within the time for which a
probe is reserved.
JSON objects are maps, and the rendering of a value to text is an injective
function parameter. A call that may fail, a consumer that may go away and a
backend that may answer in several ways are nondeterministic methods, so each
result holds for every choice they make. Concurrency is modelled as the
interleaving of atomic steps. Callers of the remote worker are numbered; a number
stands for one reply channel.

Where the code differs from what one might expect, the model follows the code. A
pending rotation is taken before planning, so a storage error loses it. The path
that stays on the current account returns the lease without renewing it. A failed
rotation does not forget the last replaced account. A rotation that has tried to
return to its own account in vain plans without it, and so perhaps for another
quota family: over `n` listed accounts it may take `3n` plans, or `3n + 1` when the
current account is not listed, where `2n + 2` suffice if the family does not depend
on the current account and `2n + 1` for a hard failover. `SlowestRotation` reaches
the larger bound for every `n`, from two listed accounts on when the current one is
among them. An event in hand when the consumer of the embedded
queue goes away is neither sent nor rejected. Filtering TypeScript text twice may
drop more than filtering it once, because trimming takes the newline of a line
comment away.

## Model

| member | source | states |
|---|---|---|
| SelectionMethods.EvaluateSelection | codex-rs/account-pool/src/quota_selection.rs:45-156 | the loop over the candidates, the sort and the fallbacks arrive at the plan that `ActionMeans`, `RejectionsMean` and `PlanFieldsMean` describe by the fields of the candidates |
| SelectionMethods.FinalizeProbeRecovery | codex-rs/account-pool/src/quota_selection.rs:158-205 | the recovery tail arrives at the plan that `RecoveryMeans` and `RecoveryRejectionsMean` describe |
| SelectionMethods.BestProbe | codex-rs/account-pool/src/quota_selection.rs:127-132 | the scan finds, among the blocked candidates that are due, the one that wins every comparison, which `ProbeIsMoreUrgent` states by fields |
| SelectionTheorems.ThresholdTierIsImplied | codex-rs/account-pool/src/quota_selection.rs:266-300 | the below-threshold tier decides nothing that the exact margin compared after it does not decide |
| SelectionTheorems.TierIsImpliedIff | codex-rs/account-pool/src/quota_selection.rs:266-300 | for any margin that falls with use, rounded ones too: the tier in front of it decides nothing iff two percentages with the same margin are never on different sides of the threshold |
| SelectionTheorems.RoundedMarginsMatter | codex-rs/account-pool/src/quota_selection.rs:266-300 | two percentages and a threshold for which a rounded margin leaves the decision to the tier |
| SelectionTheorems.PlanIgnoresThreshold | codex-rs/account-pool/src/quota_selection.rs:45-156 | with exact margins the whole plan is the same for every proactive threshold |
| SelectionTheorems.RankingIsTotalOrder | codex-rs/account-pool/src/quota_selection.rs:266-300 | the ordinary comparison is a total order when ids name one record each |
| SelectionTheorems.AdmitFilters | codex-rs/account-pool/src/quota_selection.rs:45-86 | admission only filters the candidates and gives each without a position its place: the number of candidates before it, blocked ones counted twice |
| SelectionTheorems.EveryCandidateListedOnce | codex-rs/account-pool/src/quota_selection.rs:45-156 | outside recovery each candidate is listed exactly once, as eligible or as rejected |
| SelectionTheorems.SelectIsOptimal | codex-rs/account-pool/src/quota_selection.rs:92-126 | for every list, with positions or without: an account is selected iff one is open; it is the preferred one if open, else the best of the open ones at their places, in the order that `OrdinaryIsBetter` states by fields |
| SelectionTheorems.ProbeIsLastResort | codex-rs/account-pool/src/quota_selection.rs:127-156 | for every list: a probe is planned iff nothing is open and something is due, for the highest priority; the remaining actions are fixed too |
| PlanMeaning.EffectiveGoverns | codex-rs/account-pool/src/quota.rs:66-80 | the row that governs a family is the own row when it is for the family, and otherwise the fallback |
| PlanMeaning.CandidateIs | codex-rs/account-pool/src/quota_selection.rs:207-264 | open, due and blocked candidates, told by their flags, the accounts a request leaves out, and the fields of the governing row |
| PlanMeaning.OrdinaryIsBetter | codex-rs/account-pool/src/quota_selection.rs:266-300 | the ordinary comparison prefers less primary use, then less secondary use, then the sooner known primary reset, then complete data, then the lower position, then the smaller id; what is not known counts as fully used |
| PlanMeaning.ProbeIsMoreUrgent | codex-rs/account-pool/src/quota_selection.rs:302-342 | the probe comparison prefers the primary window exhausted alone, then both, then the secondary; then the longer overdue in whole seconds; then the sooner predicted recovery; then position and id |
| PlanMeaning.ActionMeans | codex-rs/account-pool/src/quota_selection.rs:45-156 | for every list: a selected account is open and is the preferred one or better than all other open ones; a probed one is due, most urgent, and nobody is open; any other action means that nobody can be leased or probed |
| PlanMeaning.SelectedIsLeastUsed | codex-rs/account-pool/src/quota_selection.rs:92-126 | when nobody open is preferred, the selected account has the least primary use, on ties the least secondary use, then the earliest known primary reset, then complete data |
| PlanMeaning.RejectionsMean | codex-rs/account-pool/src/quota_selection.rs:45-86 | outside recovery an account is listed as rejected for a reason iff that is the first that applies to it |
| PlanMeaning.PlanFieldsMean | codex-rs/account-pool/src/quota_selection.rs:92-156 | the eligible list has exactly the open accounts with the selected one first, and the decision reason and the probe candidate follow from the action |
| PlanMeaning.RecoveryMeans | codex-rs/account-pool/src/quota_selection.rs:158-205 | recovery probes its target iff that is due, lists nobody as eligible, and otherwise does nothing |
| PlanMeaning.RecoveryRejectionsMean | codex-rs/account-pool/src/quota_selection.rs:158-205 | in a recovery everybody else is rejected for what it is, and the target for its quota or for not being blocked |
| LeaseStore.FamilyMeans | codex-rs/account-pool/src/backend/local/mod.rs:144-163 | the family of a plan is the one asked for, else `codex` at startup, else the family of the current account if that is known, else `codex` |
| LeaseStore.SnapshotMeans | codex-rs/account-pool/src/backend/local/mod.rs:165-210 | a plan sees the rows of the pool in their order and unchanged, with an account leased to another exactly while a live lease of another holder is on it |
| CandidateOrder.PlanIgnoresCandidateOrder | codex-rs/account-pool/src/quota_selection.rs:45-156 | when the open and the probe-ready candidates have positions, the order changes only the order of the rejections |
| CandidateOrder.ActionOrderIff | codex-rs/account-pool/src/quota_selection.rs:45-156 | the action is the same for every order iff the preferred account is open, or nobody on top of the ranking (of the probe priorities, when nobody is open) who takes a place from the list can be overtaken there |
| CandidateOrder.EligibleOrderIff | codex-rs/account-pool/src/quota_selection.rs:85-126 | the eligible accounts are listed in the same order for every order of the candidates iff no open, not preferred candidate without a position can be overtaken by another that ties on the quota keys |
| CandidateOrder.UnpositionedTies | codex-rs/account-pool/src/quota_selection.rs:266-300 | when nobody has a position, that is: iff no two of them tie on the quota keys |
| CandidateOrder.PlanOrderIff | codex-rs/account-pool/src/quota_selection.rs:45-156 | the whole plan is the same for every order iff there is at most one candidate, or all open ones have positions, or none is open and the probe is settled |
| CandidateOrder.UnpositionedOrderMatters | codex-rs/account-pool/src/quota_selection.rs:302-342 | a pair of candidates, one at position zero, for which the order decides the action |
| SelectionTheorems.RecoveryListsOnce | codex-rs/account-pool/src/quota_selection.rs:158-205 | a recovery plan, too, lists each candidate exactly once |
| ProactiveSwitch.ProactiveSwitchState.ObserveSoftPressure | codex-rs/account-pool/src/proactive_switch.rs:50-69 | which of the three outcomes occurs is decided exactly by the age of the lease when the pressure was seen |
| ProactiveSwitch.ProactiveSwitchState.RevalidateBeforeTurn | codex-rs/account-pool/src/proactive_switch.rs:71-80 | stale pressure expires when its window opens and nothing else changes |
| ProactiveSwitch.ProactiveSwitchState.TakeSnapshot | codex-rs/account-pool/src/proactive_switch.rs:82-104 | the snapshot reports exactly the pressure that survives it |
| CallLog.EveryProbeReleasedOnce | codex-rs/account-pool/src/manager.rs:459-506 | in a disciplined log each granted probe lease has exactly one release call, before the next plan |
| CallLog.AppendRecord | codex-rs/account-pool/src/manager.rs:235-278 | one more record keeps the numbers of leaseholders increasing iff it is not by a leaseholder or above all that leaseholders recorded for the account |
| Progress.ActionWeighs | codex-rs/account-pool/src/quota_selection.rs:239-264 | a planned selection or probe names a candidate that still counts in the potential, and a plan without one means that the potential is zero |
| Progress.ProbeUsesUp | codex-rs/account-pool/src/manager.rs:459-506 | a probe that went through lowers the potential, because its account is no longer due at the same instant |
| Progress.RefusalUsesUp | codex-rs/account-pool/src/manager.rs:444-457 | a refused acquisition lowers the potential |
| Progress.ReturnRefused | codex-rs/account-pool/src/manager.rs:507-533 | after the one refused return to the current account the potential is at most what was reserved for it |
| Progress.LoadStarts | codex-rs/account-pool/src/manager.rs:416-541 | what a rotation may still cost, later plans for another family included, is at first 3 for each listed account that is not the current one |
| Progress.ProbeLowersLoad | codex-rs/account-pool/src/manager.rs:459-506 | a probe that went through lowers that cost |
| Progress.RefusalLowersLoad | codex-rs/account-pool/src/manager.rs:444-457 | so does a refused account, which is out for every family |
| Progress.ReturnKeepsLoad | codex-rs/account-pool/src/manager.rs:507-533 | after the refused return the plans for the other family stay within that cost and the current account |
| ManagerInvariant.PendingForAppend | codex-rs/account-pool/src/manager.rs:200-278 | the pending rotation as a closed form of the report history: hard stays, relief clears soft, fresh pressure sets it |
| ManagerInvariant.CoreInterfere | codex-rs/account-pool/src/backend.rs:61-71 | what other processes may do between operations keeps the invariant of the holder |
| ManagerInvariant.BystanderKept | codex-rs/account-pool/src/backend.rs:61-71 | a call that gives a holder nothing and records nothing as the holder of its lease leaves intact what its manager relies on |
| Manager.AccountPoolManager.AdoptActiveGrant | codex-rs/account-pool/src/manager.rs:624-638 | a grant is adopted with the stored health sequence and fresh pressure memory, or not at all |
| Manager.AccountPoolManager.RunProbe | codex-rs/account-pool/src/manager.rs:459-506 | a probe changes no lease of the holder, its verification lease is given back whatever the refresh said, and its account is not due again before the reservation ends |
| Manager.AccountPoolManager.AcquireSelectedLease | codex-rs/account-pool/src/manager.rs:543-622 | when no backend call fails, a selection ends either with a lease on the account that its last plan chose, for a holder that owned nothing, or with nobody to lease or to probe at a reading of the clock; the plans before it were refused or probed; at most 2n + 1 plans, for all readings of the clock within the time a probe is reserved for; a storage error only from a failed call |
| Manager.AccountPoolManager.AcquireSelectedRotationLease | codex-rs/account-pool/src/manager.rs:416-541 | when no backend call fails, a rotation ends on the account that its last plan chose, or, when that plan had nothing to try, a soft one stays or returns once and a hard one gives up; at one instant, rotation over n accounts ends within the cost of the rows it starts from, which is at most 3n plans, or 3n + 1 if the current account is not among them; within 2n + 2 if the quota family does not depend on the current account, and within 2n + 1 for a hard failover; a hard one never returns to its account, a soft one never moves to the account just replaced |
| Manager.AccountPoolManager.RotationTurn | codex-rs/account-pool/src/manager.rs:421-540 | a turn is one of the relation `RotationTurns.Turn` when the loop goes on, which uses up some of both costs, and one of `RotationTurns.LastTurn` when it ends without a failed call |
| RotationTurns.LastTurnJustifies | codex-rs/account-pool/src/manager.rs:416-541 | a last turn moves to the account that is preferred or best among the open ones of its plan; a soft rotation stays, returns or gives up, and a hard one gives up, only if nobody there is open or due |
| RotationTurns.FreshEndJustifies | codex-rs/account-pool/src/manager.rs:543-622 | a selection leases what is preferred or best among the open accounts, and gives up only if nobody is open or due in the store that it leaves |
| SlowRotation.SlowestRotation | codex-rs/account-pool/src/backend/local/mod.rs:144-160 | the bound is reached: for every n, from 2 on if the current account is listed, a valid store and a rotation on it with exactly 3n plans, or 3n + 1 without the current account; more than 2n + 2 from n = 3 on, and for n = 2 only without it |
| Manager.AccountPoolManager.TryRotateActiveLease | codex-rs/account-pool/src/manager.rs:361-404 | the pending rotation is used up, and unless a backend call failed it was carried out as `RotationTurns.Rotated` says; how the last replaced account follows from success, failure and kind |
| Manager.AccountPoolManager.TryRenewActiveLease | codex-rs/account-pool/src/manager.rs:309-339 | outside the safety margin nothing happens; inside it the result is that of one renewal to the instant plus the time to live; a renewal keeps the identity and age of the lease; a missing lease is forgotten entirely |
| Manager.AccountPoolManager.TryRehydrateHolderLease | codex-rs/account-pool/src/manager.rs:640-653 | a lease that the holder still owns is adopted as it stands, and none means that it owns none |
| Manager.AccountPoolManager.EnsureLease | codex-rs/account-pool/src/manager.rs:93-129 | by what it finds, a turn carries out the pending rotation, keeps a lease that is fresh enough, renews it or replaces a missing one by a selection in its pool, takes up a lease that the holder owns, or selects one in the pool of the request or of the configuration; a storage error only from a failed call or without a pool; the result is the active lease |
| Manager.AccountPoolManager.RenewActiveLeaseIfNeeded | codex-rs/account-pool/src/manager.rs:131-170 | the same course as a turn with the default request |
| Manager.AccountPoolManager.HeartbeatActiveLease | codex-rs/account-pool/src/manager.rs:172-191 | a heartbeat is one renewal of the active lease: it keeps the identity and all memory about it, or forgets a missing lease entirely |
| Manager.AccountPoolManager.ReleaseActiveLease | codex-rs/account-pool/src/manager.rs:193-198 | a release gives the active lease back, after which the holder owns nothing and remembers nothing; after a failed one nothing of the manager has changed |
| Manager.AccountPoolManager.ReportRateLimits | codex-rs/account-pool/src/manager.rs:200-233 | a stale report changes nothing; a current one clears or sets soft pressure and the pending rotation by the threshold and the age of the lease, and extends the report history that determines the latter |
| Manager.AccountPoolManager.ReportHardFailure | codex-rs/account-pool/src/manager.rs:235-278 | a current report records one event under the next number, which is used up even if recording fails, and makes the pending rotation hard if it succeeds |
| Manager.Run | codex-rs/account-pool/src/manager.rs:93-278 | any number of managers on one backend, any interleaving of their operations with each other and with other processes, any failures: the run is a chain of steps in each of which one manager does what its operation and reply say and the others change nothing; each holder owns at most one lease, which is the active one; probes are released once before the next plan; the numbers recorded by leaseholders increase for each account also across managers; soft releases respect the interval; no bounce; pending is the closed form of the reports |
| Manager.PerformOne | codex-rs/account-pool/src/manager.rs:93-278 | an operation of one manager does what its reply says, leaves the fields of the others alone, and keeps the invariant of every manager on the backend |
| Manager.Launch | codex-rs/account-pool/src/manager.rs:64-91 | managers started on a fresh log satisfy the premise of `Run`, whatever leases their holders still own |
| CallSteps.StepIsSafe | codex-rs/account-pool/src/backend.rs:75-140 | every backend call of a manager, and everything that other processes do between two calls, keeps the invariant |
| CallSteps.EveryRunIsSafe | codex-rs/account-pool/src/manager.rs:416-653 | with other processes between any two backend calls: at most one owned lease, which is the active one; increasing numbers; each probe lease given back once before the next plan, or under way |
| Canonical.CanonicalFormIsExact | codex-rs/app-server-protocol/src/schema_fixtures.rs:152-227 | two values have the same form iff they differ only by reordering, at any depth, arrays whose items are scalars or objects with a text under `$ref` or `title` |
| Canonical.CanonicalFormIsInOrder | codex-rs/app-server-protocol/src/schema_fixtures.rs:152-227 | the form is the one such reordering of a value in which each of these arrays, at any depth, is in order, while all other arrays keep theirs |
| Canonical.OrderOfItems | codex-rs/app-server-protocol/src/schema_fixtures.rs:189-227 | that order is by kind (booleans, numbers, null, references, texts, titled objects), then by text, target or title, then by the serialized item |
| Canonical.CanonicalizeReorders | codex-rs/app-server-protocol/src/schema_fixtures.rs:152-208 | canonicalizing only reorders such arrays |
| Canonical.CanonicalizeIdempotent | codex-rs/app-server-protocol/src/schema_fixtures.rs:152-208 | the form is a fixed point |
| Canonical.CanonicalizeJson | codex-rs/app-server-protocol/src/schema_fixtures.rs:152-208 | the recursive rewrite with its local vectors computes the form that `CanonicalFormIsExact` and `CanonicalFormIsInOrder` characterize |
| SplitJoin.RoundTrip | codex-rs/app-server-protocol/src/export.rs:305-328 | splitting the joined, filtered pieces returns them iff none but the last ends in a line comment |
| SplitJoin.FilterTwice | codex-rs/app-server-protocol/src/export.rs:370-395 | when the round trip holds, filtering a second time changes nothing |
| SplitJoin.FilterTwiceIff | codex-rs/app-server-protocol/src/export.rs:370-395 | for every input, a second filtering changes nothing iff joining the pieces of the result gives it back and the filter keeps all of them |
| SplitJoin.FilterTwiceMerged | codex-rs/app-server-protocol/src/export.rs:370-395 | when no line break follows the first line comment among the kept pieces, that is: iff the filter keeps the last piece as merged by that comment |
| SplitJoin.FilterFixedIff | codex-rs/app-server-protocol/src/export.rs:305-328 | the texts that the filter leaves alone are exactly those that are joined from their pieces and whose pieces it keeps |
| SplitJoin.FilterTwiceLoses | codex-rs/app-server-protocol/src/export.rs:370-395 | an input and a filter whose second application drops everything |
| SplitJoin.LineFreeRoundTrip | codex-rs/app-server-protocol/src/export.rs:305-328 | both hold for every input that never enters a line comment |
| SplitJoin.LineCommentMergesPieces | codex-rs/app-server-protocol/src/export.rs:783-827 | an input with a line comment for which the round trip fails |
| ScannerMethods.ScanState.Observe | codex-rs/app-server-protocol/src/export.rs:939-974 | the scanner's fields follow the specified state after each character |
| ScannerMethods.SplitTopLevelMulti | codex-rs/app-server-protocol/src/export.rs:783-827 | the one-pass splitter yields the pieces that `RoundTrip` joins and splits again |
| ScannerMethods.FilterPieces | codex-rs/app-server-protocol/src/export.rs:305-328 | the filter loop computes the text that `RoundTrip` and `FilterTwiceIff` speak of |
| ScannerMeaning.DepthsCount | codex-rs/app-server-protocol/src/export.rs:939-974 | outside strings and comments the depth of each kind of bracket is the number of those left open, with stray closing ones ignored |
| ScannerMeaning.ClosedMeans | codex-rs/app-server-protocol/src/export.rs:783-827 | the scanner is back at its start exactly after a text of code characters, string literals with escapes and closed comments in which no bracket is left open |
| ScannerMeaning.FirstCutMeans | codex-rs/app-server-protocol/src/export.rs:783-827 | the first cut is the first delimiter after such a text |
| ScannerMeaning.SplitMeans | codex-rs/app-server-protocol/src/export.rs:783-827 | a text is split at its first cut, and what follows it on its own; without a cut it is one piece |
| ScannerMeaning.EmitMeans | codex-rs/app-server-protocol/src/export.rs:783-827 | a piece is kept without the white space at its ends, unless it is all white space |
| ScannerMeaning.KeepByParts | codex-rs/app-server-protocol/src/export.rs:305-328 | filtering keeps the order of the pieces, one by one |
| ScannerMeaning.JoinByParts | codex-rs/app-server-protocol/src/export.rs:305-328 | joining puts the separator between two pieces and nowhere else |
| BraceSpan.FindTopLevelBraceSpan | codex-rs/app-server-protocol/src/export.rs:735-777 | the span is the first top-level closing brace read as code after an opening one, with the last such opening; none is reported only if there is no such pair |
| ScannerMeaning.OpensMeans | codex-rs/app-server-protocol/src/export.rs:735-777 | a block opens at a brace after a complete text |
| ScannerMeaning.ClosesMeans | codex-rs/app-server-protocol/src/export.rs:735-777 | a block closes at a brace that completes a text |
| Closure.ReachableInSubgraph | codex-rs/app-server-protocol/src/export.rs:1410-1413 | dropping unreachable names does not change what is reachable |
| Closure.OnlyOneClosure | codex-rs/app-server-protocol/src/export.rs:1432-1447 | a set is the least closed set with the seed iff it is the closure defined without a worklist |
| Reachability.CollectRefs | codex-rs/app-server-protocol/src/export.rs:1474-1494 | the walk adds exactly the names mentioned anywhere in a value, and queues the new ones |
| Reachability.CollectRefsOutside | codex-rs/app-server-protocol/src/export.rs:1449-1472 | the walk adds exactly the names mentioned outside maps of definitions |
| Reachability.ReachableLocalDefinitions | codex-rs/app-server-protocol/src/export.rs:1432-1447 | the worklist ends, on cyclic schemas too, with exactly the least closed set of the root's references |
| SchemaMeaning.AllRefsMean | codex-rs/app-server-protocol/src/export.rs:1474-1494 | the references of a value are those of the objects at the end of its paths |
| SchemaMeaning.OutsideRefsMean | codex-rs/app-server-protocol/src/export.rs:1449-1472 | the root references are those at the end of paths that enter neither `$defs` nor `definitions` nor the given key |
| SchemaMeaning.LocalNameMeans | codex-rs/app-server-protocol/src/export.rs:1496-1514 | the name in a reference stands between the key and the next slash or the end |
| SchemaMeaning.StringLiteralMeans | codex-rs/app-server-protocol/src/export.rs:1700-1709 | a literal is the `const` text, or without one the first of the `enum` when that is a text |
| SchemaMeaning.MethodVariantMeans | codex-rs/app-server-protocol/src/export.rs:1416-1430 | a variant belongs to the methods iff its property `method` is the literal of one of them |
| SchemaMeaning.RetainedByParts | codex-rs/app-server-protocol/src/export.rs:1396-1404 | retaining keeps the order and the copies of the variants |
| SchemaMeaning.NothingToStrip | codex-rs/app-server-protocol/src/export.rs:1396-1404 | a schema without an array of variants is left as it is |
| VariantStripping.StripMethodVariants | codex-rs/app-server-protocol/src/export.rs:1396-1414 | the operation computes the schema that the three `Stripping` theorems speak of |
| VariantStripping.StrippingLeavesNothingDangling | codex-rs/app-server-protocol/src/export.rs:1396-1414 | a definition is kept, unchanged, iff root positions reach it; nothing that a root position or a kept definition mentions was removed |
| VariantStripping.StrippingRemovesTheVariants | codex-rs/app-server-protocol/src/export.rs:1396-1430 | exactly the variants of the given methods leave, and no other root field changes |
| VariantStripping.StrippingTwice | codex-rs/app-server-protocol/src/export.rs:1396-1414 | stripping twice is stripping once |
| References.RewriteToNamespaceIdempotent | codex-rs/app-server-protocol/src/export.rs:1557-1579 | moving references into a namespace twice, as happens to nested definitions, is moving them once |
| References.FlattenUndoesNamespacing | codex-rs/app-server-protocol/src/export.rs:1190-1207 | flattening undoes namespacing on a value iff none of its references contains the namespaced prefix |
| References.ReplaceChangesOccurrences | codex-rs/app-server-protocol/src/export.rs:1190-1207 | replacing the prefix changes exactly the texts in which it occurs |
| References.PrefixSurvives | codex-rs/app-server-protocol/src/export.rs:1209-1234 | the namespaced prefix survives the rewrite exactly in references into `v2/v2/` |
| SchemaMeaning.ReplaceMeans | codex-rs/app-server-protocol/src/export.rs:1190-1207 | the first occurrence of the prefix in a text is replaced, and then those after it |
| SchemaMeaning.InNamespaceMeans | codex-rs/app-server-protocol/src/export.rs:1557-1579 | a reference to a root definition goes into the namespace; one that does already, and any other, is kept |
| SchemaMeaning.MapRefsMeans | codex-rs/app-server-protocol/src/export.rs:1190-1207 | a rewrite keeps every path of a document and what is there, except for the texts of `$ref` |
| Pointers.DescendMapRefs | codex-rs/app-server-protocol/src/export.rs:1190-1207 | following a pointer commutes with rewriting references |
| Flattening.CollectDefinitionDependencies | codex-rs/app-server-protocol/src/export.rs:1168-1188 | the worklist that marks names when popped ends with exactly the least closed set |
| Flattening.BuildFlat | codex-rs/app-server-protocol/src/export.rs:1090-1138 | the build computes the bundle that `FlatteningKeepsMeaning` and `FlatteningKeepsDefinitions` speak of, or the error that `NestedNamespaceFails` characterizes |
| Flattening.FlatReferences | codex-rs/app-server-protocol/src/export.rs:1090-1138 | on bundles as the exporter builds them the build succeeds, and its references are exactly the flat names of those it takes over |
| Flattening.FlatteningKeepsMeaning | codex-rs/app-server-protocol/src/export.rs:1090-1280 | there each reference names the flattened form of what it named before, and nothing if it named nothing |
| Flattening.ReferenceKeepsMeaningIff | codex-rs/app-server-protocol/src/export.rs:1090-1138 | with colliding names the build succeeds too, and a reference keeps its meaning iff its definition was not displaced by one of the same name, or the targets in both have the same flattened form |
| Flattening.SmallBundleIsFlattenable | codex-rs/app-server-protocol/src/export.rs:1078-1089 | a bundle with a shared definition that refers into the namespace meets the conditions |
| Flattening.FlatteningKeepsDefinitions | codex-rs/app-server-protocol/src/export.rs:1090-1138 | the flat bundle defines exactly the namespace and the carried root definitions, each in its flattened form |
| SchemaMeaning.NonV2RefsMean | codex-rs/app-server-protocol/src/export.rs:1140-1166 | the root names that a definition refers to outside the namespace, by the paths to its references |
| SchemaMeaning.CarriedMeans | codex-rs/app-server-protocol/src/export.rs:1099-1126 | the carried root definitions are the least set with `ClientRequest` and `ServerNotification` that is closed under such references, without the namespace itself |
| SchemaMeaning.NamespaceMeans | codex-rs/app-server-protocol/src/export.rs:1090-1101 | where the namespace is found, and which of the three errors it is when it is not |
| SchemaMeaning.FlatFields | codex-rs/app-server-protocol/src/export.rs:1103-1133 | the title of the flat bundle is the old one, or the default, with `V2`; the other fields are there in their flattened form |
| SchemaMeaning.CheckedMeans | codex-rs/app-server-protocol/src/export.rs:1209-1280 | the final checks pass iff no reference goes into the namespace and none names a missing definition, and report exactly the missing names otherwise |
| Flattening.NestedNamespaceFails | codex-rs/app-server-protocol/src/export.rs:1209-1216 | the build fails the prefix check iff a merged reference points into `v2/v2/` |
| Flattening.CollisionChangesMeaning | codex-rs/app-server-protocol/src/export.rs:1121-1128 | a bundle with a name both in the namespace and pulled in, whose build succeeds but changes what a reference names |
| Slots.SurfaceKeeps | codex-rs/app-server-client/src/lib.rs:224-243 | a lag marker of n stands for n trailing holes, so surfacing it keeps the account |
| Slots.PassKeeps | codex-rs/app-server-client/src/lib.rs:260-270 | passing an event with no lag outstanding keeps the account |
| Slots.DropKeeps | codex-rs/app-server-client/src/lib.rs:271-281 | dropping a best-effort event adds one hole and one rejection if it was a request |
| Slots.LosslessHasASlot | codex-rs/app-server-client/src/lib.rs:160-194 | every lossless input was sent and stands at its own position |
| Slots.ReadPrefixAligned | codex-rs/app-server-client/src/lib.rs:224-257 | what a consumer has read is aligned with the inputs up to there |
| Events.BestEffortMeans | codex-rs/app-server-client/src/lib.rs:160-194 | what may be dropped is lag, requests, and the notifications that are neither transcript nor a completion |
| Forwarder.RefusalMeans | codex-rs/app-server-client/src/lib.rs:540-566 | only requests for refreshed tokens are refused before the stream |
| Slots.BumpMeans | codex-rs/app-server-client/src/lib.rs:243-281 | the counter goes up by one and stays at its greatest value |
| Forwarder.EventForwarder.SurfaceLag | codex-rs/app-server-client/src/lib.rs:224-257 | the marker blocks only in front of a lossless event and resets the counter only when it was sent |
| Forwarder.EventForwarder.Forward | codex-rs/app-server-client/src/lib.rs:215-281 | lag and then the event are sent, or a best-effort event is dropped on a full queue with its request rejected and the counter one higher, or at one after the lag was sent; or the channel is closed and nothing is counted |
| Forwarder.EventForwarder.HandleEvent | codex-rs/app-server-client/src/lib.rs:540-591 | refresh requests are refused before the stream; a closed consumer disables it |
| Forwarder.Run | codex-rs/app-server-client/src/lib.rs:484-594 | over a whole run each request was sent once, rejected once or refused once, and all lossless events were sent in order, up to the one event in hand when the consumer went away |
| RemoteProtocol.ExactlyOnce | codex-rs/app-server-client/src/remote.rs:427-433 | when nothing waits, a caller has one answer, under its own id |
| RemoteProtocol.OneInFlight | codex-rs/app-server-client/src/remote.rs:209-218 | callers without an answer have different request ids |
| RemoteProtocol.ConsumerOrder | codex-rs/app-server-client/src/remote.rs:568-573 | a consumer sees handshake events, then worker events in wire order, then at most one disconnect and nothing after it |
| RemoteWorker.Worker.HandleRequest | codex-rs/app-server-client/src/remote.rs:209-240 | a duplicate id is refused without a trace, a written request waits, and only a write that failed is answered as failed and ends the worker |
| RemoteWorker.Worker.HandleCommand | codex-rs/app-server-client/src/remote.rs:207-293 | each command that is not a request tries one write of its own message, is answered with the result of that write, and only a shutdown ends the worker |
| RemoteWorker.Worker.HandleMessage | codex-rs/app-server-client/src/remote.rs:294-424 | a reply of the server reaches only the caller waiting under its id; other messages answer nobody; which messages end the worker, and with which last event |
| RemoteWorker.Worker.Sweep | codex-rs/app-server-client/src/remote.rs:427-433 | on exit every caller still waiting is told that the worker is gone, and nobody else is |
| RemoteWorker.Worker.Turn | codex-rs/app-server-client/src/remote.rs:198-425 | one turn does all that its command or message asks for; when the last command handle is gone the stream is closed |
| RemoteWorker.Run | codex-rs/app-server-client/src/remote.rs:198-434 | over any interleaving each accepted command is answered exactly once when the worker has stopped, with server replies only as they were received under its id, and at most one request per id is in flight; it stops at the inputs that end the loop, and at others only after a failed write or without a consumer |
| RemoteWorker.Initialize | codex-rs/app-server-client/src/remote.rs:646-769 | a successful handshake returns the events of everything before the first reply to `initialize`, in wire order, and rejects exactly the unknown requests among them; a failure names the first message that decided it, a write that failed, or that no message decided |
| RemoteWorker.DecidesMeans | codex-rs/app-server-client/src/remote.rs:667-755 | which messages decide the handshake, and with which error |
| RemoteWorker.RemoteClient.NextEvent | codex-rs/app-server-client/src/remote.rs:568-573 | handshake events come first, then those of the worker, none lost or repeated |
| RemoteWorker.Session | codex-rs/app-server-client/src/remote.rs:139-442 | a connection from the handshake on, with reads at any moments: the consumer sees the events in order and at most one disconnect, last, and misses none unless it went away; a worker that still runs has handled all that arrived, one that has stopped had a reason and has answered each of its callers once; without a connection the handshake says why |
| ReducerMethods.AnalyticsReducer.Ingest | codex-rs/analytics/src/reducer.rs:157-234 | one fact updates the five maps and appends the events that `FactIsTold` states from the facts before it |
| ReducerMethods.AnalyticsReducer.IngestResponse | codex-rs/analytics/src/reducer.rs:485-552 | a response uses up its pending request even if the kinds do not match |
| ReducerMethods.AnalyticsReducer.MaybeEmitTurnEvent | codex-rs/analytics/src/reducer.rs:805-859 | a turn is reported and forgotten iff all its parts, its connection and its thread are known |
| ReducerMethods.IngestAll | codex-rs/analytics/src/reducer.rs:157-234 | a run of the reducer is the run that `RunIsTold`, `EveryRunIsAccounted` and `TurnJoins` speak of |
| ReducerMeaning.RunIsTold | codex-rs/analytics/src/reducer.rs:157-234 | every run reports, fact by fact, what its facts say: turns, steers, threads, compactions, reviews and the rest, all told by which facts came last and which were not answered yet |
| ReducerMeaning.FactIsTold | codex-rs/analytics/src/reducer.rs:157-234 | the same for one fact after any run |
| ReducerMeaning.ConnectionsTold | codex-rs/analytics/src/reducer.rs:236-259 | a connection is what it was last initialized as |
| ReducerMeaning.ThreadsTold | codex-rs/analytics/src/reducer.rs:663-699 | a thread has the connection and the metadata with which it was last opened on an initialized connection |
| ReducerMeaning.RequestsTold | codex-rs/analytics/src/reducer.rs:307-336 | what waits under a key is the last turn request under it, unless an answer of any kind came after it |
| ReducerMeaning.TurnsTold | codex-rs/analytics/src/reducer.rs:338-381 | a turn holds, of each kind of fact since its last report, what the last one said, and the number of steers that found it |
| ReducerMeaning.SettledSteerIsReported | codex-rs/analytics/src/reducer.rs:742-803 | a steer whose first answer is an acceptance or an error, on an initialized connection and an opened thread, gives exactly one event with the thread, the expected turn, the images and the time of the request; an acceptance names the accepted turn and no reason, an error no turn and its own reason |
| ReducerMeaning.ReportedSteerWasSettled | codex-rs/analytics/src/reducer.rs:554-602 | every steer event comes from such an answer to such a request |
| ReducerMeaning.CompletionMeans | codex-rs/analytics/src/reducer.rs:638-661 | status and error of a completion are kept; a duration that does not fit is left out, and such a time is zero |
| ReducerMeaning.UnsignedMeans | codex-rs/analytics/src/reducer.rs:618-699 | a time or duration is kept iff it fits an unsigned 64-bit integer |
| ReducerMeaning.MetadataMeans | codex-rs/analytics/src/reducer.rs:93-125 | what is kept of a thread: a sub-agent names itself and its parent, any other source is taken as it is |
| ReducerTheorems.RunKeepsThreads | codex-rs/analytics/src/reducer.rs:663-699 | the two thread maps have the same keys and only initialized connections, after every run |
| ReducerTheorems.NoEventIsDroppedForAKnownThread | codex-rs/analytics/src/reducer.rs:701-740 | compaction and guardian events are dropped only for threads that were never initialized; the later drop branches are unreachable |
| ReducerTheorems.StepBalanced | codex-rs/analytics/src/reducer.rs:805-859 | what each fact does to the account of a turn |
| ReducerTheorems.EveryRunIsAccounted | codex-rs/analytics/src/reducer.rs:742-765 | reports of a turn never exceed its matched starts, configs or completions, and reported steers plus the live count are the accepted steers that found it |
| ReducerTheorems.TurnJoins | codex-rs/analytics/src/reducer.rs:519-543 | start, config and completion in any order, among unrelated facts and facts that touch the turn: reported once when no part is left, not before, with contents that are a function of the parts and of the facts that touched the turn before the last part |
| ReducerTheorems.ReportedAtTheLastPart | codex-rs/analytics/src/reducer.rs:626-658 | the report comes at the last part, whichever that is, with the contents gathered so far, and nothing is reported before it |

## Left out

- Manager.AccountPoolManager.AcquireSelectedLease: a refused account is taken to be unavailable to later plans of the same operation, during one operation the backend changes only by the manager's own calls, and the operation ends before a probe that was planned at its start would no longer be reserved.
- Manager.AccountPoolManager.ReportHardFailure: the usage-limit and the unauthorized report are one operation here, because they differ only in the event they record.
- Manager.AccountPoolManager.EnsureLease: errors are reduced to the two kinds that the loops tell apart; messages are not modelled.
- Manager.Run: the operations of managers are interleaved whole; `CallSteps` interleaves single calls, for one manager and without the contents of its loops. Processes outside the model are taken to number what they record for a lease they hold above the numbers of earlier holders.
- Forwarder.EventForwarder.Forward: beyond 2^64 - 1 events the counter saturates and positions are no longer claimed; the lossless and request accounts are.
- Flattening.FlatteningKeepsMeaning: `~` and percent escapes in pointers are not modelled, and no definition may itself be called `$ref`.
- ScannerMethods.FilterPieces: what an arm or field is kept for is an arbitrary predicate; extracting a method name or property name is not modelled.
- RemoteWorker.Initialize: the messages are those that arrive before the timeout, which comes after them; the length of the interval is not modelled.
- ReducerTheorems.TurnJoins: a fact that touches the turn before the last part counts if it is a start time, token usage for the same thread, or a steer accepted under another request key; after the last part only unrelated facts are covered; `ReducerMeaning.RunIsTold` covers every run.
- Rewriting a JSON tree in place is a function from tree to tree; the order of keys in objects is not modelled.
- `split_type_alias`, `type_body_brace_span` and import pruning around the TypeScript filters.
- `build_schema_bundle` beyond the two rewrites it applies: titles, annotations, known-namespace rewriting and name collisions.
- `bootstrap_from_legacy_auth`, `force_epoch_bump_for_test`, startup selection and status, observability, and the auth session carried by a lease.
- The `healthy` and `kind` fields of account records, which the selector does not use.
- Commands of the embedded client other than its event arm, and shutdown timeouts of both clients.
- Websocket, TLS, JSON decoding and message texts beyond what the control flow depends on.
- Skill ids, app, hook and plugin payloads of the reducer, which pass through as opaque events.
- Bracket depth counters are natural numbers that stop at zero rather than 32-bit integers.
