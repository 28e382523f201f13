# Governed apply, rollback and authority evaluation: a verified model

landlock-genprof turns an observed workload into a proposal of enforcement artifacts (a PodLock profile, a network
policy, a seccomp profile, a patched manifest), applies an approved proposal to a cluster under durable custody, and can
roll an apply back. A second part of the repository decides, from resolved facts, whether an authority rule is met. This
project models both parts in Dafny and proves what they promise.

Check it with `dafny verify dfyconfig.toml`.

## How it is built

**Apply and rollback.** `Store` is a store with optimistic concurrency, as a history of writes and reads. The resource
version of a version is its position in the history, so it is never reused. A script says what happens at each call:
which other writers act just before it, and whether the call ends as it should, fails without effect, fails after its
effect, or meets a conflict, which has no effect. Theorems that quantify over a world therefore quantify over all
interleavings and all failures. `Server.ApiServer` is the same store as an object with methods.

- `Workload`, `WorkloadLaws`: the snapshot of a workload that custody records, and the restore that puts it back, as a
  lens over object trees.
- `Inverse`: one inverse of a recorded mutation. `Apply`: one guarded apply. Both exist as transitions on histories and
  as methods against the server; the methods are proved to be the transitions.
- `Planning`, `Readiness`: the plan, and the gate before the workload is bound.
- `Custody`: what a durable status may say (`StatusOk`), what makes a record true of the history (`RecordTrue`: the
  reads it rests on are there, and for a success the manifest was live), and what must precede a mutation
  (`JustifiedBy`). A history is `Lawful` when every write of the run is a truthful status or a justified mutation.
- `Protocol`, `ProtocolLaws`: a run as a state machine whose transitions are saves, reads, waits, checks and guarded
  applies, with other writers acting at every call they make, and the invariant of all its reachable states.
  `Preparation`: the preflight, and how it pins the session of a run to what was read.
- `Run`: the whole run as methods, each proved to take the run through the transitions of the protocol. `RunLaws`: what
  follows for every lawful history and every reachable state, and for a rollback of what a run recorded. `Completion`: a
  run that nobody disturbs.

**Authority.** `Canonical` (the canonical encoder), `Requirements` and `RequirementSet` (the content-addressed set),
`Parser` (JSON text), `Wire` and `WireLaws` (the strict decoder), `Facts`, `Matching` and `MatchingLaws`, `DedupLaws`
(what deduplicating facts loses), `Eligibility`, `Resolution` and `ResolutionLaws` (several sources about one
reference), `Versions`, `Compatibility`, `CompatibilityAggregate`, `RuleDigest`.

**Beside them.** `Coalescer` (one computation per key in flight, over all interleavings) and `Authn` (signed identity
assertions).

Hash functions, keyed digests, the rendering of instants, and the reading of proposals are parameters; theorems hold for
every choice of them that meets the stated condition.

## Where the code does less than one might expect

Each of these is a theorem: a schedule or an input that shows it, and the exact condition under which the code does meet
the expectation.

- A conflicting update is retried on whatever version is there by then, without looking at the guard again, so a version
  nobody recorded can be overwritten (`Apply.UpdateIsLost`). The guard is kept exactly when nobody else wrote in between
  (`Apply.GuardKeptIff`). A pod is deleted by its uid alone, so a change made after the guard can be deleted
  (`Apply.PodWriteIsLost`), and the guard is kept exactly when there was none (`Apply.PodGuardKeptIff`).
- The retry can also find that another writer has just stored the very manifest. It then writes nothing, that writer's
  version is answered and attributed to the run (`Apply.EqualWriteIsAnswered`), and a later rollback overwrites it and
  reports success (`RunLaws.EqualWriteIsRolledBack`). The attributed version is the run's own, or the Before, exactly
  when the run had not read it in between (`Apply.AnsweredIsOwnIff`, `RunLaws.RollbackUndoesApply`).
- If the recorded object is gone when the manifest is applied, a new object is created whose mutation no rollback will
  ever undo (`Apply.ReplacedBeforeApply`); a rollback may act exactly when the recorded object was there all the time
  from its Before to the answer, or nothing was recorded (`Apply.ReplacedIsNeverInverted`, `Apply.CreatedIsGuarded`).
- A mutation recorded as FAILED may have been carried out, if it was a creation
  (`RunLaws.FailedCreationMayHaveWritten`): exactly when the call was lost after its effect
  (`RunLaws.FailedCreationIff`). A replaced object was not touched (`RunLaws.FailedMeansUntouched`).
- A restore gives back what was recorded exactly when the live template lists the same container names in the same order
  (`WorkloadLaws.PutGet`, `RunLaws.RollbackUndoesApply`); a record in which nothing was controlled restores nothing
  (`WorkloadLaws.LabelSurvivesRestore`).
- A run can end with its attempt IN_PROGRESS, and a rollback does not start from there. A run refused at the gate before
  the binding does, even if nobody disturbs it: for example when the binding refers to a path that names no profile
  (`Completion.RefusedAtTheGate`, `Completion.StrayBindingIsRefused`), and left alone in exactly the cases of
  `Completion.UndisturbedRunCompletes`. The last durable status is IN_PROGRESS exactly when the run was refused at the
  gate, its closing save did not take effect, or its first save did but was answered with an error
  (`RunLaws.InProgressIff`).
- The canonical encoding is injective, but integers are not self-delimiting (`Canonical.IntegersAreNotPrefixFree`); that
  is the only exception (`Canonical.PrefixFreeUpToIntegers`).
- Facts are deduplicated by a text in which the order of scope dimensions does not show, but matched by ordered scopes,
  so a fact can be lost (`MatchingLaws.LostTrustIff`, `MatchingLaws.OrderDoesNotShow`). No answer is lost exactly when
  of every class of facts the first one is kept, or the first one kept answers alike (`DedupLaws.DedupKeepsMatchesIff`).
- A coverage fact that is out of its window or revoked refutes (`MatchingLaws.StaleFactsRefuteOnlyCoverage`); for the
  other families only a fact in force does (`MatchingLaws.RefutedIff`).
- The answer of several sources can depend on the order of their observations (`ResolutionLaws.MismatchThenReport`);
  exactly when is `ResolutionLaws.OrderMattersIff`. The containment of maps can depend on the order in which a map is
  ranged over (`Compatibility.OrderMattersIff`), and the combination of compatibility outcomes on which of two equally
  bad ones comes first (`CompatibilityAggregate.OrderMattersIff`).
- Valid versions with an empty component tie with versions that normalise differently (`Versions.EmptyComponentTies`).
  Valid versions tie exactly when their components count as the same numbers (`Versions.TiesAreCountedForms`); where
  every component has digits and is in range, that is when they normalise alike (`Versions.TiesAreNormalForms`).
- A valid requirement whose scope did not come from its constructor does not survive the wire; every other one does
  (`WireLaws.MemberReturns`).

## Model

| member | source | states |
|---|---|---|
| `Run.RunProposal` | internal/applyproposal/apply.go:58-442 | Over every behaviour of the store and of other writers: without a session the run only read; otherwise the session is the one that an approved, expected and reconfirmed version of the requested proposal gives rise to, the store and the attempt went through the transitions of the protocol to their end, and what is left is what `RunOutcome` says: all writes are truthful statuses or governed mutations, a completed run left APPLIED with true records, a gate refusal left IN_PROGRESS, which a rollback does not accept |
| `Run.PrepareOn` | internal/applyproposal/apply.go:58-273 | The preflight, step by step over the store, is the function `Prepare` of the world it began in: the proposal is read, its resource version and target are checked before its status is read, the run is planned and confirmed, and proposal and status are read again |
| `Preparation.PrepareFacts` | internal/applyproposal/apply.go:58-273 | The preflight only reads, and its session is pinned: it is the session of a version of the requested proposal that was read and approved, had the expected resource version, and whose identity, target and digest a later approved read confirmed |
| `Preparation.SessionIsValid` | internal/applyproposal/apply.go:165-207 | The plan of a session is valid, and its readiness requirements cover each path that its binding refers to once |
| `Run.Execute` | internal/applyproposal/apply.go:313-442 | The loop over the plan and the final status take the run through the transitions of the protocol to its end |
| `Run.Step` | internal/applyproposal/apply.go:313-434 | One iteration takes the run from the turn of one artifact to that of the next, or to its end |
| `Run.Authorise` | internal/applyproposal/apply.go:314-345 | What is asked before an artifact is touched: the gate if it is a binding, then the check and the authorisation; a refusal of the gate ends the run, one of the check closes it |
| `Run.Announce` | internal/applyproposal/apply.go:350-363 | The record of a mutation is made durable before the mutation; when that save fails, the record is taken back, the status of a failure is saved, and the run ends |
| `Run.Mutate` | internal/applyproposal/apply.go:364-434 | The mutation, the re-read and what is saved about them lead to the turn of the next artifact or to the end of the run |
| `Run.Conclude` | internal/applyproposal/apply.go:370-434 | Every way a mutation can end is saved as the protocol says; the run goes on only after a SUCCEEDED record is durable |
| `Run.AttemptObject.Save` | internal/attempt/store.go:60-80 | A save is one guarded update of the attempt; on success the new resource version is carried forward and the status is what is durably there, on failure the old one is kept |
| `Run.AttemptObject.MarkFailure` | internal/applyproposal/apply.go:297-307 | The closing status is PARTIALLY_APPLIED when something had succeeded and FAILED otherwise, keeps the records, and ends the run |
| `Run.RecheckOn` | internal/applyproposal/apply.go:561-594 | The check before a mutation, step by step over the store, is the function that `RunLaws.RecheckIff` is about |
| `Run.RecheckBindingOn` | internal/applyproposal/apply.go:536-557 | Likewise the check right before the binding, which `RunLaws.RecheckBindingIff` is about |
| `Run.Gate` | internal/applyproposal/apply.go:314-334 | The gate before a binding: the waits, the PodLock check and the check of the approval, one after the other, each refusal where the protocol has it |
| `Run.Open` | internal/applyproposal/apply.go:282-296 | Creating the attempt and its first status leads to the turn of the first artifact or to a run that never started |
| `ProtocolLaws.NextKeeps` | internal/applyproposal/apply.go:313-442 | Every transition, whatever the store and other writers do, keeps the invariant: the history is sound and lawful, and what the phase says of the durable status, the records, the gate, the evidence and the answers is true |
| `ProtocolLaws.ReachesKeeps` | internal/applyproposal/apply.go:313-442 | So every reachable state of a run satisfies it |
| `ProtocolLaws.NextWrites` | internal/applyproposal/apply.go:313-442 | A transition writes one object at most: the artifact whose manifest is being applied, or else the attempt |
| `ProtocolLaws.OneEnd` | internal/applyproposal/apply.go:313-442 | A run has one end only |
| `ProtocolLaws.CreationFacts` | internal/applyproposal/apply.go:282-291 | Creating the attempt writes nothing but the attempt, whatever the call answers, and is lawful |
| `RunLaws.MutationsFollowThePlan` | internal/applyproposal/apply.go:313-369 | In every lawful history each mutation was issued while the durable status was IN_PROGRESS and ended in the record of that very artifact, made from what the last read of it had seen, after everything before it in the plan had SUCCEEDED; no later artifact had been written, and since that read no other one |
| `RunLaws.BindingComesLast` | internal/applyproposal/apply.go:199-201 | A binding is mutated only after every other artifact of the plan SUCCEEDED and after, since the last write to any of them, each required profile and the PodLock profile were seen in place |
| `RunLaws.RequestedBindingComesLast` | internal/applyproposal/readiness.go:114-152 | For the requested proposal: each profile that the approved binding refers to was seen in place, since the last write to any other artifact, at the path and with the content approved for it |
| `RunLaws.FreshBetween` | internal/applyproposal/apply.go:331-338 | Between mutations of two artifacts the proposal was read again with the same uid, target and digest, in an approved state |
| `RunLaws.RecheckIff` | internal/applyproposal/apply.go:561-594 | The check before a mutation passes exactly when two reads it made show the pinned uid, the expected version, the digest, the target and an approval |
| `RunLaws.RecheckBindingIff` | internal/applyproposal/apply.go:536-557 | The check right before the binding passes exactly when two reads it made show the digest and an approval |
| `RunLaws.ChangeStopsTheRun` | internal/applyproposal/apply.go:331-338 | From a check that refused, in every continuation and whatever the proposal says later, no artifact is written any more, and the run can only end halted |
| `RunLaws.AppliedMeansInForce` | internal/applyproposal/apply.go:420-438 | A durable APPLIED, at any position of a lawful history, means of every artifact of the plan: after its Before was read its manifest was the live version, written since or already there, and it was then read back as recorded |
| `RunLaws.CompletedMeansInForce` | internal/applyproposal/apply.go:435-442 | The same of the last durable status of a run that completed |
| `RunLaws.FailedMeansUntouched` | internal/applyproposal/apply.go:371-399 | A record that says FAILED, in any durable status of a lawful history, means that the object was read again and was as before, and, unless it is a creation, that nobody had written it between the two reads |
| `RunLaws.FailedCreationMayHaveWritten` | internal/applyproposal/apply.go:371-399 | A schedule in which a creation took effect, was answered with an error and was undone by another writer: it is recorded as FAILED |
| `RunLaws.FailedCreationIff` | internal/k8s/apply.go:203-209 | A creation answered with an error wrote nothing, exactly unless its call was lost after its effect |
| `RunLaws.InProgressIff` | internal/applyproposal/apply.go:313-442 | The last durable status of a run that ended is IN_PROGRESS exactly when it was refused at the gate, when its closing save did not take effect, or when its first save took effect but was answered with an error |
| `RunLaws.StoredIsCheckpoint` | internal/attempt/store.go:60-80 | While nobody else writes the attempt, what is stored there is the last status the run saved |
| `RunLaws.RollbackUndoesApply` | cmd/landlock-genprof/rollback.go:181-267 | A rollback that reports success on a truthful record acted while the attributed version was live, nobody having written the object since that version, and wrote over nothing else; the object is gone if the record is of a creation, and otherwise its controlled state is the recorded Before exactly when the manifest was reversible. The attributed version was written by the run after the Before, or is the Before, exactly when the run did not read it between the Before and the settling re-read |
| `RunLaws.EqualWriteIsRolledBack` | cmd/landlock-genprof/rollback.go:181-267 | A schedule in which it is not the version of the run: another writer had stored the very manifest, the record attributes that version, and a rollback that nobody disturbs overwrites it and reports success |
| `RunLaws.RestoredState` | cmd/landlock-genprof/rollback.go:487-497 | What is restored reads as the recorded state exactly when the manifest was reversible: same container names, and nothing newly controlled where nothing was |
| `Completion.UndisturbedRunCompletes` | internal/applyproposal/apply.go:313-442 | A run left alone, whose proposal authorises it and whose manifests can be applied, ends; it is refused at the gate exactly when the gate before a binding is closed, told from the world it began in and the artifacts before the binding: some required profile is named by no path, missing or not ready as approved, or the binding does not fit, or the PodLock profile there is not the approved one; otherwise it completes |
| `Completion.UndisturbedRequestCompletes` | internal/applyproposal/apply.go:58-442 | The same from the request on: left alone, the preflight plans the version that is there, and the run that follows completes exactly when no gate is closed |
| `Completion.RefusedAtTheGate` | internal/applyproposal/readiness.go:114-152 | In any world with an approved proposal, a request whose binding refers to a path that names no profile begins, is refused at the gate though nobody disturbs it, and leaves IN_PROGRESS, which no rollback accepts |
| `Completion.StrayBindingIsRefused` | internal/applyproposal/readiness.go:114-152 | A concrete one: a world in which an approved proposal was written, whose one artifact is a pod with such a path |
| `Completion.AloneApply` | internal/k8s/apply.go:153-312 | Left alone, a guarded apply under a fresh observation is answered exactly when the manifest can be applied there: the grace period of a pod is a number, and a profile for the whole cluster belongs to the same workload |
| `Custody.SettledIsTrue` | internal/applyproposal/apply.go:370-424 | The record of a settled mutation is true of the history: what it holds was seen by a read after the Before; SUCCEEDED only if the manifest had been live in between and the object was there; FAILED only if the re-read equals the Before; an attributed version only when answer and re-read agree on it and it carries the manifest, and it is the run's own exactly when the run had not read it in between |
| `Custody.LawfulMutation` | internal/applyproposal/apply.go:313-369 | All writes of a guarded apply are governed mutations once the mutation is justified |
| `Custody.SaveFacts` | internal/attempt/store.go:60-80 | Saving a truthful status keeps the history lawful, and it becomes the durable one exactly when the update takes effect |
| `Custody.ExtendedStatus` | internal/applyproposal/apply.go:348-434 | Which statuses follow the plan after one more record, by the outcome of that record |
| `Custody.StoppedStatus` | internal/applyproposal/apply.go:297-307 | The status of a run that stops between two artifacts follows the plan |
| `Planning.BuildPlan` | internal/applyproposal/apply.go:105-201 | The loops that select and build artifacts compute the plan or refuse, and every plan is valid: allowed kinds only, no target twice, classes in order |
| `Planning.PlansAreValid` | internal/applyproposal/apply.go:165-201 | Every plan targets only allowed kinds and no object twice, and lists enforcement before policies before the binding |
| `Planning.InOrderIsStable` | internal/applyproposal/apply.go:199-201 | Artifacts of one class keep their order |
| `Planning.InOrderIsOrdered` | internal/applyproposal/readiness.go:63-75 | Sorting by class orders the plan, and neither loses nor adds an artifact |
| `Planning.InOrderIsDistinct` | internal/applyproposal/apply.go:170-190 | Sorting keeps the targets distinct |
| `Planning.SkippedProfileIsUnreferenced` | internal/applyproposal/apply.go:464-517 | A binding whose seccomp artifact is skipped refers to no profile |
| `Readiness.StripIsExact` | internal/applyproposal/apply.go:497-517 | Taking the seccomp references out of a tree removes nothing but `seccompProfile` keys of security contexts |
| `Readiness.StrippedHasNoReferences` | internal/applyproposal/apply.go:497-517 | After that no container of a pod or template refers to a profile |
| `Readiness.Requirements` | internal/applyproposal/readiness.go:114-152 | The collecting loop yields requirements that cover every referenced path exactly once, each with the approved content if the profile was approved here |
| `Readiness.NothingToWaitFor` | internal/applyproposal/readiness.go:114-152 | A skipped seccomp artifact leaves no requirement |
| `Readiness.AwaitProfileOn` | internal/applyproposal/readiness.go:334-381 | The polling loop for one profile is the transition that the next row is about |
| `Readiness.AwaitProfileFacts` | internal/applyproposal/readiness.go:334-381 | Waiting only reads; success means the profile was seen, since the wait began, at the path the workload refers to and with the approved content |
| `Readiness.AwaitAllOn` | internal/applyproposal/readiness.go:308-332 | The loop over the requirements is the transition that the next row is about |
| `Readiness.AwaitAllFacts` | internal/applyproposal/readiness.go:308-332 | Waiting only reads; success means that every requirement was seen in place since the wait began |
| `Readiness.CheckPodLockOn` | internal/applyproposal/readiness.go:215-270 | The check of the PodLock profile is the transition that the next row is about |
| `Readiness.CheckPodLockFacts` | internal/applyproposal/readiness.go:215-270 | Only reads; success means the binding names the approved PodLock profile and the live one was seen to carry what was approved |
| `Apply.ApplyOn` | internal/k8s/apply.go:153-256 | The guarded apply of one manifest, step by step over the store, is the transition that the laws below are about |
| `Apply.OverwriteOn` | internal/k8s/apply.go:241-256 | The update loop with its three retries is that transition |
| `Apply.RecreateOn` | internal/k8s/apply.go:289-312 | Deleting a pod, waiting and creating it anew is that transition |
| `Apply.AwaitPodGoneOn` | internal/k8s/apply.go:318-340 | The wait for a deleted pod ends at an absence, an error, another uid, or the end of the budget |
| `Apply.ApplyFacts` | internal/k8s/apply.go:153-312 | An apply writes no other object, and what it reports as applied is the live version and carries the manifest |
| `Apply.GuardKeptIff` | internal/k8s/apply.go:241-256 | The update loop replaces only the version that was guarded exactly when nobody else wrote in between; it always does when its first update meets no conflict |
| `Apply.UpdateIsLost` | internal/k8s/apply.go:241-256 | A schedule in which the guard was checked and another version is overwritten all the same: the retry on a conflict does not look at the guard again |
| `Apply.AnsweredIsOwnIff` | internal/k8s/apply.go:241-256 | The version that an apply answers was written by the run, or is the Before, exactly when no retry had read it; if it is neither, another writer wrote it while the apply was under way |
| `Apply.EqualWriteIsAnswered` | internal/k8s/apply.go:241-256 | A schedule in which it is neither: another writer stores the very manifest, the update conflicts, the retry finds nothing to write and answers the version of that writer |
| `Apply.PodGuardKeptIff` | internal/k8s/apply.go:289-312 | A pod is deleted by its uid alone: only the guarded version is destroyed exactly when nobody else wrote the pod between the guard and the deletion |
| `Apply.PodWriteIsLost` | internal/k8s/apply.go:289-312 | A schedule in which another writer changes the pod after the guard was checked, the change is deleted, and the apply reports success |
| `Apply.ReplacedIsNeverInverted` | internal/applyproposal/apply.go:403-425 | The version that an answered apply left carries the identity of its record, as a rollback demands, exactly when the recorded object was there all the time from its Before to the answer; otherwise no rollback of the record will ever touch it |
| `Apply.CreatedIsGuarded` | cmd/landlock-genprof/rollback.go:449-462 | When nothing was there before, the identity is that of the re-read and always matches |
| `Apply.ReplacedBeforeApply` | internal/k8s/apply.go:200-209 | A schedule in which the recorded object is removed right before the apply, which creates another one and reports success |
| `Apply.SameIdentity` | cmd/landlock-genprof/rollback.go:196-201 | The same uid at two times means that the object was there all the time between, and conversely |
| `Apply.OverwriteFacts` | internal/k8s/apply.go:241-256 | The whole update loop takes effect at most once, and on that object |
| `Apply.AwaitPodOnlyReads` | internal/k8s/apply.go:318-340 | Waiting for a pod to go changes nothing |
| `Store.UpdateFacts` | internal/k8s/apply.go:242-248 | In the store, an update takes effect only on the version it names, and an update answered with a conflict had no effect |
| `Store.DeleteFacts` | cmd/landlock-genprof/rollback.go:207-212 | A deletion takes effect only on the uid and version it names, and one answered with a conflict had no effect |
| `Store.CreateFacts` | internal/k8s/apply.go:204-209 | A creation takes effect only where there is nothing, under a uid that was never used |
| `Store.SameVersion` | cmd/landlock-genprof/rollback.go:196-201 | Seeing a resource version again means nobody wrote the object in between, and conversely |
| `Server.ApiServer.Update` | internal/k8s/apply.go:242-248 | The server commits an update exactly as the transition on histories says, for every mode a call can end in |
| `Server.ApiServer.Delete` | cmd/landlock-genprof/rollback.go:207-212 | Likewise for a deletion with preconditions |
| `Server.ApiServer.Create` | internal/k8s/apply.go:204-209 | Likewise for a creation |
| `Server.ApiServer.Get` | cmd/landlock-genprof/rollback.go:192-195 | Likewise for a read, which is recorded with what it saw |
| `Inverse.ExecuteInverse` | cmd/landlock-genprof/rollback.go:181-267 | The inverse, step by step over the store, is the transition that the laws below are about |
| `Inverse.InverseIsSafe` | cmd/landlock-genprof/rollback.go:40-54 | Over every behaviour of the store and of other writers an inverse writes at most once, and that over the attributed version; a result classified FAILED means none of its writes took effect; success means the recorded state is restored in full, or the object deleted and seen absent |
| `Inverse.NothingWrittenBetween` | cmd/landlock-genprof/rollback.go:196-201 | When an inverse did write, nobody had written the object since the version that it replaced, which is the attributed one |
| `Inverse.SuccessWasLive` | cmd/landlock-genprof/rollback.go:181-267 | An inverse that reports success acted while the attributed version was live, also when it found nothing to write |
| `Inverse.LaterWriteIsKept` | cmd/landlock-genprof/rollback.go:196-201 | Once anybody wrote or deleted the object, the inverse refuses and leaves it untouched |
| `Inverse.UnattributedIsKept` | internal/applyproposal/apply.go:422-424 | A mutation without an attributed version is never inverted |
| `Inverse.UndisturbedInverse` | cmd/landlock-genprof/rollback.go:181-267 | Left alone, an inverse succeeds exactly when its checks pass |
| `Inverse.InvertCreateOn` | cmd/landlock-genprof/rollback.go:202-226 | The branch for created objects: refused while the governed workload still refers to the policy, else a deletion with preconditions that is then confirmed |
| `Inverse.InvertUpdateOn` | cmd/landlock-genprof/rollback.go:227-266 | The branch that restores: restore in memory, check what the restored state refers to, update, read back |
| `Inverse.ReferencesReadyOn` | cmd/landlock-genprof/rollback.go:269-309 | The loop over the recorded containers stops at the first profile that is not in place |
| `Inverse.TargetRefersOn` | cmd/landlock-genprof/rollback.go:344-392 | Whether the governed workload still refers to the policy; when in doubt it does |
| `Inverse.AwaitGoneOn` | cmd/landlock-genprof/rollback.go:213-225 | Fifty reads at most, ended by an absence or an error |
| `Profiles.PathsInvert` | internal/spobackend/spobackend.go:128-146 | A path names a profile exactly when it is the path of that profile |
| `Snapshots.SnapshotsAgree` | cmd/landlock-genprof/apply_proposal.go:301-325 | Two snapshots are equal exactly when uid, version and controlled state are |
| `WorkloadLaws.PutGet` | cmd/landlock-genprof/rollback.go:499-579 | After a restore the workload reads as recorded exactly when the live template lists the same container names in the same order; a record without a template restores exactly when there was nothing to take away |
| `WorkloadLaws.GetPut` | cmd/landlock-genprof/apply_proposal.go:331-367 | Restoring what was just read changes nothing but empty label maps and empty security contexts |
| `WorkloadLaws.RestoreFrame` | cmd/landlock-genprof/rollback.go:499-579 | A restore leaves every other field of the object, the template and its metadata, every other label, and every uncontrolled container field and security-context key as it was |
| `WorkloadLaws.LabelSurvivesRestore` | cmd/landlock-genprof/rollback.go:504-507 | A record without a template restores nothing: a label added since stays |
| `WorkloadLaws.EntriesRestoredIff` | cmd/landlock-genprof/rollback.go:533-577 | Restoring the recorded container entries gives them back exactly when the names agree |
| `WorkloadLaws.LabelsRestored` | cmd/landlock-genprof/rollback.go:512-532 | Restoring puts the recorded label back or takes the new one away, and touches no container |
| `WorkloadLaws.NamesKept` | cmd/landlock-genprof/rollback.go:533-577 | Restoring never renames, drops or adds a container |
| `Workload.RestoreContainers` | cmd/landlock-genprof/rollback.go:536-576 | The nested loops over the container slice, in place, restore each container from all saved entries of its name |
| `Canonical.WriteCanonical` | internal/authority/binding.go:61-113 | The writer appends exactly the canonical text or reports that there is none, in whatever order a map yields its keys |
| `Canonical.Encode` | internal/authority/binding.go:53-59 | Encoding returns the canonical text, or the error |
| `Canonical.GatherKeys` | internal/authority/binding.go:64-71 | The keys are gathered in any order and sorted; a key with a NUL is refused |
| `Canonical.CanonicalIsInjective` | internal/authority/binding.go:53-113 | Equal canonical texts mean equal values, for all nested maps, arrays, strings, integers, booleans and null |
| `Canonical.PrefixFreeUpToIntegers` | internal/authority/binding.go:61-113 | One canonical text is a prefix of another exactly when the values are equal or both are integers with one decimal text a prefix of the other |
| `Canonical.IntegersAreNotPrefixFree` | internal/authority/binding.go:101-104 | The integers 1 and 12: the encoding as a whole is not prefix-free |
| `Canonical.Unambiguous` | internal/authority/binding.go:61-113 | Followed by anything that does not extend a number, a canonical text ends where it ends and belongs to one value |
| `Canonical.BodyUnambiguous` | internal/authority/binding.go:114-123 | The escaped body of a string, as in section 7 of RFC 8259, determines the string and where it ends |
| `RequirementSet.NewResolvedMandatoryRequirementSet` | internal/authority/requirements.go:442-481 | Deduplication by a map and insertion sort in place yield a result that depends only on the set of requirements given: same members, same order, same id, same errors |
| `RequirementSet.ListingIsUnique` | internal/authority/requirements.go:446-471 | There is one list with strictly increasing identities of a given set of requirements |
| `RequirementSet.ListingDoesNotMatter` | internal/authority/requirements.go:446-471 | Two runs of deduplication and sorting end with the same list exactly when they were given the same requirements, in whatever order, however often, and however the sort treats equal identities |
| `Requirements.MemberIdentityInjective` | internal/authority/requirements.go:233-301 | Requirements with the same identity bytes are the same requirement, within and across the eight families |
| `Requirements.IdentityTreeInjective` | internal/authority/requirements.go:233-295 | The identity object determines the requirement |
| `Sorting.InsertionSort` | internal/authority/requirements.go:461-470 | The in-place insertion sort sorts and permutes |
| `Sorting.Deduplicate` | internal/authority/requirements.go:446-460 | Each identity that occurs is kept once, on the first requirement that has it; one requirement without an identity fails the whole |
| `Eligibility.EvaluateEligibility` | internal/authority/evaluator.go:120-169 | The loop over the members computes the combination of their outcomes, or the first error |
| `Eligibility.EligibilityIsExact` | internal/authority/evaluator.go:120-169 | On anything the constructors built, the decision exists and is valid; it is ELIGIBLE exactly when every requirement is satisfied, INELIGIBLE exactly when some requirement is refuted, and otherwise UNKNOWN; an eligible one has a witness for every requirement |
| `Eligibility.OutcomesExist` | internal/authority/requirements.go:313-432 | No member of a constructed set can fail to make a request or to be matched |
| `Eligibility.MemberOutcome` | internal/authority/matching.go:43-124 | Every member has an outcome, and a satisfied one has a witness in the snapshot |
| `Eligibility.BuiltIsCoherent` | internal/authority/evaluator.go:121-134 | What the constructors build passes every coherence check of the evaluator, including the recomputed set id |
| `Eligibility.TallyMeans` | internal/authority/evaluator.go:135-163 | The flags after the loop say exactly whether some member was refuted and whether all were satisfied |
| `Matching.MatchCompatibility` | internal/authority/matching.go:223-267 | The loop over compatibility facts computes refuted over unknown over satisfied over non-matching |
| `Matching.CompatibilityIsOrderFree` | internal/authority/matching.go:223-267 | The outcome is a function of the set of facts: their order and repetition never matter |
| `Matching.Match` | internal/authority/matching.go:43-124 | The matcher, family by family, first match first |
| `Matching.FirstMatch` | internal/authority/matching.go:53-124 | The loop of a first-match family returns the outcome of the first fact that hits |
| `Matching.FirstOutcomeFacts` | internal/authority/matching.go:53-124 | A first match is non-matching exactly when nothing hits, and is otherwise the outcome of a fact that does |
| `MatchingLaws.MatchIsTotal` | internal/authority/matching.go:43-124 | A valid request on a snapshot of valid facts always has an outcome |
| `MatchingLaws.SatisfiedHasWitness` | internal/authority/matching.go:43-174 | Nothing is satisfied without a fact in the snapshot that hits, is in its window, is not revoked and is positive |
| `MatchingLaws.NeverRefuted` | internal/authority/matching.go:93-124 | Completeness, adequacy and certification requirements are never refuted |
| `MatchingLaws.RefutedIff` | internal/authority/matching.go:43-124 | A request is REFUTED exactly when the first hit of its family (for compatibility any hit) is in force and negative, or, for coverage, when the first hit is not unknown and does not both cover and be in force |
| `MatchingLaws.StaleFactsRefuteOnlyCoverage` | internal/authority/matching.go:79-92 | When nothing that hits a request is in force, it is REFUTED exactly if it is a coverage request whose first hit is not unknown |
| `MatchingLaws.DedupKeepsMatches` | internal/authority/facts.go:202-272 | Matching a deduplicated snapshot gives what matching the raw lists gives: always for revocation, compatibility and certification, and for the other families when no two facts differ in scope under one scope text |
| `DedupLaws.DedupKeepsMatchesIff` | internal/authority/facts.go:202-272 | A deduplicated snapshot answers every request as the raw lists would exactly when, in the five families keyed by scope text, of every class of facts that a request can ask for the first one is kept or the first one that is kept answers alike at all times |
| `DedupLaws.KeepsAnswersIff` | internal/authority/facts.go:274-414 | The same for one family, over any list, key and classes |
| `MatchingLaws.LostTrustIff` | internal/authority/facts.go:274-288 | The smallest instance: of two trust facts with one key and one state the second is lost to a request for it exactly when their scopes differ |
| `MatchingLaws.OrderDoesNotShow` | internal/authority/facts.go:387-395 | Two scopes that differ only in the order of their dimensions have one scope text |
| `Facts.DedupFacts` | internal/authority/facts.go:274-414 | The loop with its map keeps the first fact of every key, and fails when a later one disagrees |
| `DedupLaws.DedupFailsIff` | internal/authority/facts.go:274-414 | Deduplication fails exactly when some fact disagrees with the first one of its key |
| `DedupLaws.DedupKeepsFirstOfKey` | internal/authority/facts.go:274-414 | What is kept under a key is the first fact of that key |
| `Wire.DecodeResolvedMandatoryRequirementSet` | internal/authority/requirements_wire.go:37-111 | The decoder, from the text on, with its loop over members is the strict decoding function: one JSON value, envelope, authority, members, reconstruction, id |
| `Parser.ParseUndoesEncoding` | internal/authority/requirements_wire.go:113-123 | Parsing the canonical text of any value gives back that value, with integers as their decimal texts |
| `Parser.ValueReturns` | internal/authority/binding.go:61-123 | The parser stops where a canonical text ends, whatever of a larger encoding follows |
| `WireLaws.RoundTrip` | internal/authority/requirements_wire.go:17-111 | A constructed set encodes to a text, unless its digest holds a NUL, and decoding that text under its own rule returns the set |
| `WireLaws.SetReturns` | internal/authority/requirements_wire.go:37-111 | The same when the members on the wire are reordered or repeated in any way |
| `WireLaws.AcceptedIsConstructed` | internal/authority/requirements_wire.go:94-111 | Every accepted text parses to an envelope and yields a constructed set of exactly the members on the wire, whose id is the hash of its canonical payload |
| `WireLaws.MemberReturns` | internal/authority/requirements_wire.go:160-314 | A valid member survives the wire exactly when its scope is one its constructor admits |
| `WireLaws.OctetsInvert` | internal/authority/requirements_wire.go:137-151 | A small number is accepted exactly in its shortest decimal text |
| `WireLaws.ScopeReturns` | internal/authority/requirements_wire.go:316-359 | Decoding an encoded scope is constructing it anew |
| `WireLaws.ContextReturns` | internal/authority/requirements_wire.go:361-383 | A valid context survives the wire |
| `WireLaws.VerifierReturns` | internal/authority/requirements_wire.go:427-460 | A valid verifier survives the wire |
| `Resolution.AggregateObservations` | internal/authority/resolution.go:174-296 | The loop with its flags and slices computes the answer that the signals of the observations determine |
| `ResolutionLaws.OrderMattersIff` | internal/authority/resolution.go:174-296 | The answer is the same for every order of the observations exactly when the negative answers are calm, or clash, or nothing is unreachable and either exact objects disagree and none is absent, or there is none and ambiguity was reported |
| `ResolutionLaws.MismatchThenReport` | internal/authority/resolution.go:215-254 | Two observations that the constructors admit and whose order matters: an object of the same name and version with another digest, and a reported digest mismatch |
| `ResolutionLaws.PlainReportsAreOrderFree` | internal/authority/resolution.go:174-296 | Sources that report only resolved, not found, unavailable or malformed may come in any order |
| `ResolutionLaws.IdleSourcesDoNotCount` | internal/authority/resolution.go:186-214 | Mirrors never change the answer, nor do fallbacks while an authoritative source is configured |
| `ResolutionLaws.ResolvedIsUnanimous` | internal/authority/resolution.go:255-296 | RESOLVED means that there is an exact object, all exact ones agree with the answer byte for byte, and no counted authoritative source was unavailable or did not find it |
| `ResolutionLaws.CalmIsQuiet` | internal/authority/resolution.go:215-254 | Calm negative answers never conflict, in any order |
| `ResolutionLaws.ClashConflicts` | internal/authority/resolution.go:215-254 | Clashing negative answers conflict in every order |
| `Coalescer.RunsKeepInv` | internal/authz/coalescer.go:34-89 | After every schedule of callers, cancellations and uses of returned maps: flights, calls and maps are as they should be |
| `Coalescer.SingleFlight` | internal/authz/coalescer.go:43-59 | At most one computation per key is in flight, and it is the registered one |
| `Coalescer.ClosedAfterResult` | internal/authz/coalescer.go:71-76 | A channel is closed only after its result is there and the flight has left the map |
| `Coalescer.JoinsTheRegistered` | internal/authz/coalescer.go:43-59 | A call joins the flight registered under its key, or else leads a new one that is then registered |
| `Coalescer.DeliveredStays` | internal/authz/coalescer.go:71-89 | Nothing that happens later, not even a change of a returned map, changes what a flight delivered |
| `Coalescer.ReturnsWhatWasDelivered` | internal/authz/coalescer.go:50-77 | A waiter that was not cancelled, and the leader, return what their flight delivered, in a map that no other call holds |
| `Coalescer.CallLife` | internal/authz/coalescer.go:34-89 | Over the life of a call, after any schedule: it stays on the one flight it joined or leads, and if it returned, it returned what that flight delivered, in a map that holds just that until its own holder changes it; only a call that joined can be cancelled |
| `Coalescer.CancelDisturbsNobody` | internal/authz/coalescer.go:50-55 | A schedule with the steps of a cancelled call taken out gives everybody else the same calls, the same maps and the same deliveries |
| `Coalescer.ProjectionCoalescer.Join` | internal/authz/coalescer.go:43-59 | The first critical section |
| `Coalescer.ProjectionCoalescer.Release` | internal/authz/coalescer.go:73-76 | The last critical section: the flight leaves the map and its channel is closed |
| `Coalescer.ProjectionCoalescer.Clone` | internal/authz/coalescer.go:80-89 | A returned map is a copy of its own |
| `Authn.NormalizeIdentity` | internal/authn/identity.go:171-199 | The loop with its map of seen groups computes the normal form, or refuses |
| `Authn.VerifyUndoesSign` | internal/authn/identity.go:135-243 | A signed assertion whose instant and digest are read back from their texts gives back, under the same secret, the normal form of the signed identity exactly when it is in its window and the policy allows it, and is refused otherwise |
| `Authn.NormalizeIsIdempotent` | internal/authn/identity.go:171-199 | Normalising a normal form changes nothing |
| `Authn.NormalFormIgnoresListing` | internal/authn/identity.go:171-199 | Two identities have one normal form exactly when their trimmed usernames and their sets of trimmed groups agree |
| `Authn.SignedIsInjective` | internal/authn/identity.go:214-219 | Two signed texts are equal exactly when the identities and the texts of the instants are; so the instants are equal too when they are read back from their texts |
| `Authn.SignatureBinds` | internal/authn/identity.go:135-167 | With a digest that tells texts apart, a signature made for one identity and instant is accepted for no other identity and for no instant with another text |
| `Versions.ParseSemanticVersion` | internal/authority/semantic_wire.go:14-47 | The scan, one part at a time, parses a four-part version or refuses |
| `Versions.ParseInvertsText` | internal/authority/semantic_wire.go:14-64 | A text parses as a version exactly when it is the text of that version and every part fits in 32 bits |
| `Versions.CompareIsTotalOrder` | internal/authority/semantic_wire.go:49-59 | Comparing four-part versions is a total order |
| `Versions.CompareVersions` | internal/authority/compatibility.go:256-277 | The loop over the parts computes the comparison |
| `Versions.VersionCmpIsPreorder` | internal/authority/compatibility.go:256-277 | Comparing dotted versions is a total preorder on all texts |
| `Versions.TiesAreNormalForms` | internal/authority/compatibility.go:232-277 | Versions whose components have digits and are in range tie exactly when they normalise alike |
| `Versions.TiesAreCountedForms` | internal/authority/compatibility.go:209-277 | Valid versions tie exactly when their components count as the same numbers, an empty one as 0 and one out of range as the largest in range, but for zeros at the end |
| `Versions.EmptyComponentTies` | internal/authority/compatibility.go:209-231 | `1..2` is valid and ties with `1.0.2`, yet they do not normalise alike |
| `Versions.RangeIsInterval` | internal/authority/compatibility.go:279-282 | A range holds everything between two of its versions |
| `Compatibility.EvaluateMapContains` | internal/authority/compatibility.go:297-317 | The loop over the map returns what the first key that says anything says |
| `Compatibility.OrderMattersIff` | internal/authority/compatibility.go:297-317 | The outcome is independent of the order in which the map is ranged over exactly when no key is unknown or none is missing or different |
| `Compatibility.ContainedIff` | internal/authority/compatibility.go:297-317 | In every order, contained means that every key is known on both sides and equal |
| `CompatibilityAggregate.AggregateCompatibility` | internal/authority/matching.go:180-218 | The loop with its map of outcomes seen returns the first of the worst outcomes, and fails exactly on lists of unequal or no length, on an invalid requirement, or on two different outcomes for one requirement |
| `CompatibilityAggregate.AggregateMeans` | internal/authority/matching.go:190-216 | COMPATIBLE means everything is; UNKNOWN that something is open and nothing worse; INCOMPATIBLE that something is and nothing is invalid or not applicable |
| `CompatibilityAggregate.OrderMattersIff` | internal/authority/matching.go:190-216 | The answer depends on the order of the requirements exactly when nothing is wrong with them and one outcome is invalid and another not applicable |
| `RuleDigest.DigestIgnoresOrder` | internal/authority/semantic_identity.go:37-138 | The order of a rule's class, token and registry lists never shows in its bytes, its digest or its errors |
| `RuleDigest.BytesDecideRule` | internal/authority/semantic_identity.go:37-63 | Two rules that can be encoded have the same canonical bytes exactly when they differ at most in the order of their lists |
| `RuleDigest.DigestDecidesRule` | internal/authority/semantic_identity.go:127-138 | With a hash that tells texts apart, two rules have the same digest exactly when they differ at most in the order of their lists |
| `RuleDigest.TokensIgnoreOrder` | internal/authority/semantic_identity.go:72-118 | Sorted tokens do not depend on the order they came in |
| `RuleDigest.TreesIgnoreOrder` | internal/authority/semantic_identity.go:107-118 | Sorted references do not depend on the order they came in |

## Left out

- HTTP handlers, commands, printing, file writing, YAML rendering, kernel detection and tracing: transport and input/output.
- `Document` stands for a parsed single-document manifest; YAML parsing is not modelled.
- `Parser` reads the grammar of RFC 8259 as the decoder of the standard library does, but without its bound on nesting.
- Strings are sequences of Unicode scalar values, so the branches for invalid UTF-8 cannot be taken and are not modelled.
- Integer width in the canonical encoder: integers are unbounded.
- Snapshots and records hold object trees instead of their JSON text; a uid or resource version is a number, with 0 for the empty text.
- Digests of snapshots, timestamps, error texts, operator identity and the custody epoch of an attempt are not recorded.
- Asynchronous deletion, finalizers, admission and defaulting: an object tree is stored as it was sent, and a deletion is immediate unless other writers interfere. An update with an equal object tree is no write, as in the API server; a status update always is one.
- Run.RunProposal: approval, digest and target of a proposal, and the authorisation of cluster-scoped profiles, are arbitrary functions of what was read; `proposal.*` is not part of this model. The first authorisation of cluster-scoped profiles, during the preflight, is left out; the one before each mutation is not. The time budgets of waits are numbers of polls, and fatal and transient API errors of a wait are two kinds of failing replies.
- RunLaws.RollbackUndoesApply: states which version was overwritten and what state is restored for one record; the loop of `rollback.Run` over records, its history and its epoch checks are not modelled.
- RunLaws.FailedMeansUntouched: of a creation that failed only the two reads are stated; what may have happened between them is `RunLaws.FailedCreationIff`.
- Completion.UndisturbedRunCompletes: nobody else acts, so a profile that its controller has yet to install is not ready; `RunLaws` covers runs in which controllers and others act.
- RunLaws.RequestedBindingComesLast: assumes that a proposal holds one binding at most, as the fixed list of artifacts in the code does.
- RunLaws.RestoredState: assumes that workloads have the shape the API server admits (objects where objects are expected, distinct container names), because the `unstructured` helpers ignore errors elsewhere.
- Workload.RestoreContainers: the container loops run in place over the slice; the nested maps of a container are values, so aliasing between snapshot and live object is not captured. `removeSeccompBindings` is modelled on values too.
- `prepareInverse` repeats the guards of an inverse before it starts and is not modelled.
- Facts.DedupFacts: keys are tuples, where the code joins texts with NUL and formats structs with `%#v`; pointer formatting and texts with NUL inside are not captured.
- Matching.Match: requests are made from members of a requirement set; hand-made requests with empty operands are not modelled.
- Resolution.AggregateObservations: returns the state and the bytes of the object, not the sorted provenance list, which no answer depends on.
- Coalescer.RunsKeepInv: calls with an empty key or no coalescer bypass it and are left out, as are panics inside a computation and request statistics.
- Authn.VerifyUndoesSign: the rendering of instants and digests is a parameter; only the instant and the digest at hand are asked to be read back from their texts (section 5.6 of RFC 3339 has years up to 9999). `NewPolicy` and the minimum length of a secret are left out.
- Compatibility.OrderMattersIff: of the compatibility predicates only map containment is modelled; `EvaluateCompatibility`, set containment, the parsing of range texts and `VersionRange` would add easy members.
- RuleDigest.DigestIgnoresOrder: a rule is its encoded fields and its sorted lists; decoding a rule and binding it to its reference are left out.
- Eligibility.EligibilityIsExact: a rule's own validity is one flag; the hash is assumed to return text without NUL.
- Backend security envelopes, authority metadata (whose four reference lists are sorted like those of a rule) and artifact digests, proposal diffs, associations and document generation: true but easy.
