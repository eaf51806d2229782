# DI-orchestrator: a model of the DIJob controller

A DIJob asks for the replicas of a list of tasks. The controller watches the job and
its pods and reconciles them: it builds pods with a name, a global rank and a list of
all addresses, replaces and removes pods, moves the job through its phases, and keeps
a condition list, two counters and a histogram in the job's status. Several writers
share the stored status through polling loops with version checks. An allocator reads
nodes and pods to find out what is free.

The project has three layers.

- **Functions that say what a step does**: `Pods`, `Cluster`, `Conditions`, `Handlers`,
  `Replicas`, `Cleanup`, `Persistence`, and `Controller`, where the cluster is a map from
  names to pods and a *world* (pods, spec, status) moves by events: job added,
  reconciled (with any listing order and any replies to the calls), pods drifting, spec
  edited, nodes allocated. A pod list is in any order; a create or delete may be
  refused, lost, or only mark the pod as terminating.
- **The program's own loops and in-place updates**: `Util`, `Validator`, `Jobs`,
  `Context`, `TaskHistogram`, `Reconciler`, `Writers`, `JobController`, `NodeResources`.
  Every method is proved equal to one of those functions, or against what its source
  promises.
- **Theorems about the functions**: `Uniqueness`, `Building`, `Missed`, `Redundancy`,
  `Runs`, `Rounds`, `Convergence`, `Typings`, `Trims`, `Leftovers`, `Blocked`, `Startup`, `Preemption`,
  `Outcomes`, `Meanings`, and the lemmas beside the functions.

An *undisturbed* reconcile is one whose calls and writes all go through; in a *calm run*
of them pods change status in between, but none vanishes and none newly fails.

`dafny verify dfyconfig.toml` checks all of it.

## What the proofs brought out

- `DeletePods` tests the error variable that nothing sets, so it never reports a failure
  (`Context.Context.DeletePods`). A failed `buildAndCreatePods` therefore returns nil. In
  Rescheduling a preemptible job then goes to Starting, although it was just sent to
  Restarting or Failed: if and only if some create of the generation is not confirmed,
  every name of the spec ends up without a pod (`Preemption.PreemptRound`); no restart is
  counted, whatever the backoff limit (`Preemption.FailureForgotten`); and without pods the
  job stays in Starting (`Preemption.StartingWithoutPods`).
- In Pending, a startable job (it asks for replicas, with enough nodes if it is
  preemptible) that has pods, none of them terminating, and whose live pods are not
  exactly `replicas` in number, waits for ever (`Startup.PendingStuck`); any other
  startable job starts (`Startup.PendingConverges`).
- Replacement ranks are above all ranks in use, so a replacement never finds its own
  address at its rank unless the rank happens to be its position
  (`Building.FindsItselfIff`), and for a preemptible job the rank can run off the end of
  the allocation: `BuildPod` guards with `len(allocation) >= rank` and then reads
  `allocation[rank]` (`Missed.MissedPanicIff`). Restarting then never ends. For a job
  whose live pods all stand in slots of the spec it ends exactly when there is room for
  the replacements, `Convergence.CanRestart`, which the pods and the allocation decide
  beforehand (`Convergence.RestartsIff`). With one node for each replica it is enough for
  a failure that the pod with the last rank survives the loss of another
  (`Convergence.LastRankLeavesNoRoom`).
- A live pod whose local rank no longer fits its task stops createMissedReplicas at that
  task. A reconcile that misses pods then creates nothing if and only if every slot before
  the first such task is filled (`Blocked.RestartBlockedIff`, `Blocked.RescheduleBlockedIff`),
  and such a job is stuck (`Blocked.RestartBlockedForEver`,
  `Blocked.RescheduleBlockedForEver`); one case is a pod of the first task
  (`Blocked.OutOfRangeBlocks`).
- When task types repeat, a later task overwrites the quota of an earlier one. Exactly
  `replicas` pods are kept if and only if there are enough of each type and every task
  whose type occurs again has no replicas (`Redundancy.SparedTotalIff`).
- Creating missing pods and deleting redundant ones can alternate for ever, because the
  first goes by names and the second by types. What decides is the names and types of the
  live pods: `Typings.Loops` asks whether the first deletion falls short of `replicas` pods
  and can keep a pod that stands in no slot and leave pods for which the next one falls
  short again. For live pods in range, with any types and in any listing order, Rescheduling
  ends in every case if and only if they do not (`Leftovers.AlwaysSettlesIff`), and
  Restarting if and only if that does not happen before or after the failed pods are
  deleted (`Typings.Fails`, `Leftovers.AlwaysRestartsIff`). There are two ways to fail:
  quotas that fall short of the replicas, with one leftover pod whose type has a quota
  (`Leftovers.RenamedTask`), and, although all types are distinct, pods whose task has
  changed its type (`Leftovers.EditedTypes`, `Leftovers.EditedTypesOccur`). A condition
  without a choice is `Typings.Stuck`; pods that all stand in slots always come to rest
  (`Leftovers.SlotsRecover`, `Leftovers.SlotsSettle`); and as long as pods carry the type of
  their task, the conditions are in closed form (`Leftovers.TypedRestartsIff`,
  `Leftovers.TypedSettlesIff`).
- A terminating pod that still holds a wanted name makes the create succeed without a
  new pod: a preemptible job then goes to Starting with that slot empty
  (`Preemption.PreemptRound`, with `Preemption.Regenerated`), and with more
  nodes allocated than replicas the new pods call for rescheduling at once
  (`Preemption.PreemptConverges`).
- Validation comes before the check for a finished job, so a spec edit can turn
  Succeeded into Failed (`Runs.SucceededFailsIff`).
- The handler table has no row from Succeeded to Rescheduling (the call names Failed
  twice); no run needs it (`Handlers.TableFollowsRule`, `Runs.ReschedulesCountEntries`).
- A pending pod that reports PodScheduled twice is charged twice to its node
  (`NodeResources.WeightMeaning`).

## Model

| member | source | states |
|---|---|---|
| Runs.UniqueSlotsAndRanks | pkg/controllers/dijob.go:167-336 | In every state of every run (any interleaving of reconciles in any phase, failing or half-finished calls, drifting pods, spec edits, new allocations) two different pods have different (task name, local rank) slots, and two different live pods different global ranks |
| Uniqueness.ReconcileKeepsInv | pkg/controllers/dijob.go:44-165 | One reconcile, for any phase, listing order, spec and fault script, keeps: pods stored under their own names, names made from task name and local rank, live global ranks distinct |
| Uniqueness.SlotAndRankIdentifyPod | pkg/context/pod.go:23-60 | In such a store the slot and, among live pods, the rank identify the pod |
| Uniqueness.CreateRanked | pkg/controllers/dijob.go:313-317 | Creating pods with consecutive ranks above all live ones keeps the invariant, also when a create fails half-way and when names are taken |
| Uniqueness.ShrinkKeepsInv | pkg/context/pod.go:192-213 | Removing or marking any pods keeps it |
| Runs.NextKeepsInv | pkg/controllers/dijob_controller.go:66-131 | Every event keeps pods, conditions and counters consistent and moves the stored phase along the relation of the switch |
| Runs.PhaseSafety | pkg/controllers/dijob.go:64-163 | Over runs the stored phase moves only along that relation while the spec validates: Running only from Starting, Restarting only to Starting, Rescheduling only to Starting or Pending |
| Runs.ReconcileLawful | pkg/controllers/dijob.go:44-165 | A reconcile changes no counter and no allocation, stays in the relation, enters Restarting only below the backoff limit and Failed only at it, and keeps the condition list well formed |
| Runs.FailedAbsorbing | pkg/controllers/dijob_controller.go:110-124 | Failed is never left, in any run |
| Runs.SucceededAbsorbing | pkg/controllers/dijob_controller.go:87-124 | Succeeded is kept as long as every reconcile sees an acceptable spec |
| Runs.SucceededFailsIff | pkg/controllers/dijob_controller.go:87-95 | One event turns Succeeded into Failed if and only if it is a reconcile of a spec that does not validate and the phase write goes through |
| Runs.RestartBudget | pkg/context/status.go:220-228 | With a fixed limit b, Restarts is the number of stored entries into Restarting whose increment was stored, never exceeds b (so the int32 never wraps), and a job with an acceptable spec fails only with Restarts exactly b |
| Runs.ReschedulesCountEntries | pkg/controllers/handler.go:28-103 | Both counters equal the entries into their phases less the lost increments, despite the missing table row |
| Runs.ConditionsOverRuns | pkg/context/status.go:230-305 | In every run the condition types are distinct, only the last condition is true, it is the stored phase, and the list is at most as long as there are phases |
| Conditions.ConditionsRefineHistory | pkg/context/status.go:230-305 | After any run of UpdateJobStatus calls on an empty list, the list is the history of phase changes with the last occurrence of each phase kept, only the newest being true |
| Conditions.SetPhaseWellFormed | pkg/context/status.go:268-282 | Every phase change keeps the list well formed and puts the new phase last |
| Conditions.ReasonInjective | pkg/context/status.go:256-265 | The reason of a condition tells its phase |
| Conditions.WellFormedBounded | pkg/context/status.go:293-305 | A well-formed list never outgrows the number of phases |
| Jobs.FindCondition | pkg/context/status.go:284-291 | The loop returns the first condition of the type |
| Jobs.FilterOutConditions | pkg/context/status.go:293-305 | The loop drops the type and clears the flags of the others, in order |
| Jobs.SetJobCondition | pkg/context/status.go:268-282 | The edit in place equals the update of the list that the history lemmas are about |
| Jobs.UpdateJobConditions | pkg/context/status.go:241-254 | The same, with the Running condition of a finished job cleared first |
| Jobs.UpdateJobStatus | pkg/context/status.go:230-239 | Sets phase and conditions and touches nothing else; no change when the phase is the same |
| Jobs.UpdateJobStatusByBackoffLimit | pkg/context/status.go:220-228 | Restarting without a limit or below it, Failed otherwise |
| Handlers.TableFollowsRule | pkg/controllers/handler.go:20-83 | For every pair of phases the table agrees with one rule for the new phase, except for the missing row |
| Handlers.HandleEffect | pkg/controllers/handler.go:85-138 | Which phase changes raise Restarts or Reschedules or clear ReadyReplicas, and that nothing else changes |
| Meanings.FinishedNotReady | pkg/controllers/handler.go:93-95 | A job that turns Failed or Succeeded has no ready replicas once its event has been handled and that stored |
| Handlers.HandleJobStatus | pkg/controllers/handler.go:85-89 | The loop over the handlers computes that effect |
| Building.BuildAllSpec | pkg/controllers/dijob.go:167-178 | Building panics exactly when a preemptible job has fewer nodes than replicas; otherwise the pod of task k, local rank i has the rank (replicas of earlier tasks) + i |
| Pods.SlotsBijection | pkg/controllers/dijob.go:171-177 | The enumeration of (task, local rank) is a bijection onto 0..n-1 |
| Building.NodesRoundTrip | pkg/context/pod.go:62-83 | Splitting the comma-joined DI_NODES gives back the addresses of all slots in order, for comma-free names |
| Building.FindsItselfIff | pkg/context/pod.go:62-83 | Indexing that list at DI_RANK gives the pod's own address (which splits at its dots into hostname, service, namespace and domain) if and only if its rank is its position in the spec |
| Building.BuildAllFindsItself | pkg/controllers/dijob.go:170-177 | So every pod of buildAndCreatePods finds itself |
| Building.TypedNodes | pkg/context/pod.go:62-83 | The list of a task type splits into the addresses of exactly the slots of that type, in the order of the spec |
| Util.FQDNParts | pkg/utils/util.go:49-51 | For dot-free names an address splits into pod name, subdomain, namespace and the parts of the domain |
| Util.ReplicaNameParts | pkg/utils/util.go:45-47 | For dash-free names a pod name splits into job, task and local rank |
| Text.AtoiDecimal | pkg/controllers/dijob.go:320-336 | Ranks are read as decimal numbers |
| Text.SplitJoin | pkg/context/pod.go:81-83 | Splitting undoes joining for comma-free parts |
| Text.AtoiItoa | pkg/context/pod.go:46-60 | Parsing undoes printing of a rank |
| Util.ReplicaNameInjective | pkg/utils/util.go:45-47 | Pod names of one job determine task name and local rank, although task names may contain dashes and digits |
| Building.DetectionExact | pkg/controllers/dijob.go:231-254 | On the full pod set of a preemptible job, in any order and status, detectReschedule never reads out of bounds and is false if and only if the allocation is still the n nodes the pods were placed on |
| Outcomes.FirstGeneration | pkg/controllers/dijob.go:167-188 | For an accepted job, an empty store and creates that go through, exactly the names of the spec exist, `replicas` of them, each pod with its slot's type, ranks, node and address |
| Validator.TaskTypeNameValidator | pkg/utils/validator.go:21-42 | Accepts if and only if types other than none occur once, no none task is unnamed and names are distinct; otherwise the reported fault is in the spec |
| Validator.CountTasks | pkg/utils/validator.go:22-34 | The first loop with its counting maps and early returns |
| Validator.SlotNameInjective | pkg/utils/util.go:45-47 | For distinct task names every slot has its own pod name |
| Validator.SpecNamesSize | pkg/utils/util.go:45-47 | There are as many names as replicas |
| Validator.DefaultNamesIdempotent | pkg/context/status.go:316-322 | Setting default names twice changes nothing |
| Validator.DefaultThenValidate | pkg/context/status.go:316-322 | The spec with default names is acceptable if and only if types other than none occur once, tasks of type none have names, given names are distinct and none of them is the type of an unnamed task; named tasks stay as they are |
| Meanings.DefaultsThenFails | pkg/controllers/dijob_controller.go:79-95 | A reconcile fails a job exactly when that does not hold, in any phase and leaving its pods alone, and a finished job of which it holds keeps its phase |
| Meanings.NamesStored | pkg/context/status.go:307-330 | When the names could be stored every typed task has one, and nothing else of the spec changes |
| Missed.MissedPlanIsBuild | pkg/controllers/dijob.go:276-319 | With all pods in range, createMissedReplicas builds exactly the slots without a pod, in order, under the ranks that follow the highest in use |
| Missed.MissedErrIff | pkg/controllers/dijob.go:291-295 | For a job that is not preemptible the only error besides failed creates is a local rank out of range, and it comes exactly then |
| Missed.MissedPanicIff | pkg/context/pod.go:35-41 | For a preemptible job creation panics exactly when the new ranks reach the length of the allocation |
| Missed.MissedPlanCreates | pkg/controllers/dijob.go:301-317 | One pod for every name of the spec that no live pod holds, ranks consecutive |
| Missed.MissedComplete | pkg/controllers/dijob.go:276-319 | On success, with no terminating pod in the way, every slot has a live pod, all live local ranks are in range, all earlier pods are kept, new ranks are above all earlier ones, and the live count is `replicas` if all live pods belong to the spec |
| Uniqueness.MaxRankBounds | pkg/controllers/dijob.go:320-336 | findMaxGlobalRank is an upper bound of all ranks, or some rank is not a number |
| Redundancy.RedundantIff | pkg/controllers/dijob.go:262-271 | A pod is deleted exactly when its type's quota is used up by earlier pods of the list |
| Redundancy.SparedPartition | pkg/controllers/dijob.go:256-274 | Kept and deleted pods make up the list, as multisets |
| Redundancy.SparedOfType | pkg/controllers/dijob.go:256-274 | Of each type min(count, quota) pods are kept |
| Redundancy.SparedAtMostTotal | pkg/controllers/dijob.go:258-261 | Never more than `replicas` pods are kept, even when types repeat |
| Redundancy.SparedTotalIff | pkg/controllers/dijob.go:258-261 | Exactly `replicas` are kept if and only if every task whose type does not occur again has enough pods of its type, and every other task has no replicas |
| Redundancy.RedundantDeleted | pkg/controllers/dijob.go:256-274 | The same about the live pods left in the cluster |
| Convergence.PhaseEntryMeaning | pkg/controllers/dijob.go:64-163 | What is true of the listed live pods whenever a phase is entered: exactly `replicas` for Starting (none failed from Restarting, some from Pending), `replicas` ready ones for Running, a non-empty all-succeeded set for Succeeded, a failed pod for Restarting. A preemptible job that leaves Rescheduling for Starting has none listed, because it builds them in that reconcile: its pods are those of Preemption.PreemptRound |
| Convergence.PodsDecide | pkg/controllers/dijob.go:81-102 | In Starting and Running each next phase is taken if and only if the fields of the pods that are not terminating call for it (phases, reasons, exit codes, annotations, counted conditions and containers), and the pods are left alone |
| Convergence.PlainPodsDecide | pkg/controllers/dijob.go:231-235 | A job that is not preemptible, none of whose live pods has succeeded or failed, leaves Running for Rescheduling exactly when it has more or fewer live pods than names; Starting likewise, unless as many as wanted are scheduled |
| Convergence.FailureDecides | pkg/controllers/dijob.go:207-229 | A reconcile in Starting or Running restarts or fails the job exactly when some stored pod has failed: phase Failed or Unknown, not for lack of resources, in a preemptible job not by exit code 143, not terminating |
| Convergence.DetectPanicIff | pkg/controllers/dijob.go:231-254 | detectReschedule reads out of bounds exactly when a pod whose rank lies outside the allocation is listed before any displaced one |
| Convergence.RestartDeletesFailed | pkg/controllers/dijob.go:109-121 | In Restarting with as many live pods as names, exactly these pods are deleted, and Starting follows exactly if there are none |
| Convergence.RestartRound | pkg/controllers/dijob.go:103-121 | One undisturbed reconcile in Restarting, all pods standing in slots: missing pods are created as far as there is room, panicking if that is not all; else failed pods are deleted; else Starting |
| Convergence.RoundProgress | pkg/controllers/dijob.go:103-121 | With room for the missing pods it reaches Starting or makes (failed pods, missing slots) lexicographically smaller |
| Convergence.RestartConverges | pkg/controllers/dijob.go:103-121 | In a calm run a job that can restart reaches Starting within at most four reconciles; the condition is on the first state only |
| Convergence.PlainRestartConverges | pkg/controllers/dijob.go:103-121 | For a job that is not preemptible no condition is needed |
| Convergence.RestartNever | pkg/context/pod.go:35-41 | A job that cannot restart is in Restarting, unable to restart, after any number of undisturbed reconciles |
| Convergence.RestartsIff | pkg/controllers/dijob.go:103-121 | So undisturbed reconciles reach Starting if and only if there is room for the replacements |
| Convergence.NoRoomBlocks | pkg/context/pod.go:35-41 | One reconcile without room panics and stays in Restarting, also with pods that stand in no slot |
| Convergence.LastRankLeavesNoRoom | pkg/context/pod.go:35-41 | A job cannot restart when its allocation has `replicas` nodes and the pod with the last rank has not failed while another is missing or has failed |
| Rounds.RestartOutcome | pkg/controllers/dijob.go:103-121 | What one undisturbed reconcile in Restarting does, case by case, with any live pods in range |
| Rounds.RescheduleOutcome | pkg/controllers/dijob.go:135-162 | The same for Rescheduling of a job that is not preemptible |
| Blocked.PlanFromNames | pkg/controllers/dijob.go:276-319 | createMissedReplicas creates exactly the unheld slots before the first task with an out-of-range pod |
| Blocked.RestartBlockedIff | pkg/controllers/dijob.go:291-295 | With live pods missing, a reconcile in Restarting leaves the pods as they are if and only if every slot before the first task with an out-of-range pod stands under a stored name |
| Blocked.BlockedByOverflow | pkg/controllers/dijob.go:291-295 | Such a reconcile ends with the out-of-range error |
| Blocked.RescheduleBlockedIff | pkg/controllers/dijob.go:141-152 | The same in Rescheduling, where terminating pods are deleted first |
| Blocked.RestartBlockedForEver | pkg/controllers/dijob.go:103-121 | A job with nothing to create has the same pods and phase after any number of undisturbed reconciles |
| Blocked.RescheduleBlockedForEver | pkg/controllers/dijob.go:135-162 | The same in Rescheduling |
| Blocked.OutOfRangeBlocks | pkg/controllers/dijob.go:291-295 | One case: an out-of-range pod of the first task makes every reconcile that misses pods fail without any change, whatever the calls reply |
| Typings.StepProgress | pkg/controllers/dijob.go:256-319 | If filling and trimming do not loop, every step comes closer to `replicas` pods, at most four steps in all, and they still do not loop |
| Typings.StuckLoops | pkg/controllers/dijob.go:256-319 | They loop when strangers (pods in no slot, or of another type than their slot's task) are within the quotas, one stands in no slot, and the deletion after all slots are filled falls short |
| Typings.FailsBack | pkg/controllers/dijob.go:103-121 | No step and no recovery of a failed pod makes a job fail that did not |
| Typings.FailsIff | pkg/controllers/dijob.go:256-319 | The condition in closed form when pods carry the type of their task or quotas fall short |
| Typings.TrimExists | pkg/controllers/dijob.go:262-271 | Any pods within the quotas can be among those a deletion keeps |
| Trims.TrimTyping | pkg/controllers/dijob.go:256-274 | deleteRedundantReplicas leaves of each type the smaller of its pods and its quota, for any listing |
| Trims.TrimListing | pkg/controllers/dijob.go:256-274 | Every such choice is what it leaves for some listing of the store |
| Trims.FillTyping | pkg/controllers/dijob.go:276-319 | createMissedReplicas adds exactly the missing slots, each with the type of its task |
| Leftovers.AlwaysRestartsIff | pkg/controllers/dijob.go:103-121 | With all pods live and in range, whatever their types, every calm run of ten reconciles leaves Restarting if and only if the job does not fail in the sense of Typings.Fails, a question about names, types and failures of its pods |
| Leftovers.RestartsForEver | pkg/controllers/dijob.go:103-121 | Otherwise, for any number of reconciles, a calm run in which it stays in Restarting |
| Leftovers.TypedRestartsIff | pkg/controllers/dijob.go:103-121 | The same with the closed form, and within eight reconciles |
| Leftovers.SlotsRecover | pkg/controllers/dijob.go:103-121 | Pods that stand in slots always recover, whatever their types |
| Leftovers.AlwaysSettlesIff | pkg/controllers/dijob.go:135-162 | Every calm run of five reconciles leaves Rescheduling if and only if filling and trimming the live pods do not loop, terminating pods or not |
| Leftovers.ReschedulesForEver | pkg/controllers/dijob.go:135-162 | Otherwise, for any number of reconciles, a run in which it stays |
| Leftovers.TypedSettlesIff | pkg/controllers/dijob.go:135-162 | The closed form, within four reconciles |
| Leftovers.StuckRestarts | pkg/controllers/dijob.go:103-121 | A stuck job need not leave Restarting, for any number of reconciles |
| Leftovers.StuckSettles | pkg/controllers/dijob.go:135-162 | Nor Rescheduling |
| Leftovers.SlotsSettle | pkg/controllers/dijob.go:135-162 | Live pods that stand in slots settle, whatever their types |
| Leftovers.RenamedTask | pkg/controllers/dijob.go:258-261 | A spec with two none tasks, one of them renamed, for which Restarting need not end |
| Leftovers.EditedTypes | pkg/controllers/dijob.go:256-319 | A spec with three distinct types, two of them exchanged and one task renamed, for which Restarting need not end although the quotas cover the replicas |
| Leftovers.EditedTypesOccur | pkg/controllers/dijob.go:256-319 | Such a job exists |
| Convergence.RescheduleRound | pkg/controllers/dijob.go:135-162 | One undisturbed reconcile of a job that is not preemptible brings the live pods to exactly `replicas`, or finishes |
| Convergence.RescheduleConverges | pkg/controllers/dijob.go:135-162 | After lost pods, scale-up or scale-down at most two reconciles reach Starting (Pending without replicas), and then no reschedule is detected |
| Startup.StartRound | pkg/controllers/dijob.go:65-80 | What one undisturbed reconcile in Pending does, case by case |
| Meanings.IdlePending | pkg/controllers/dijob.go:65-68 | Without replicas, nothing, whatever pods there are |
| Startup.PendingConverges | pkg/controllers/dijob.go:65-80 | A job that can start is Starting within three reconciles |
| Startup.PendingStuck | pkg/controllers/dijob.go:65-80 | A job that cannot is unchanged after any number of them |
| Preemption.PreemptRound | pkg/controllers/dijob.go:122-134 | One reconcile of a preemptible job in Rescheduling, with any replies to the creates: all live pods go; once none is left the call panics for want of nodes, or the job goes to Starting, with a new generation in every name that no leftover holds if all creates are confirmed, and with no pod in any name of the spec otherwise |
| Preemption.Regenerate | pkg/controllers/dijob.go:167-189 | buildAndCreatePods into any store, with any replies to the creates: the generation, or none of its names and the phase set by the backoff limit; never an error |
| Preemption.FailureForgotten | pkg/controllers/dijob.go:129-133 | After a failed create the job is stored as Starting with no live pod and no restart counted |
| Preemption.StartingWithoutPods | pkg/controllers/dijob.go:81-92 | A preemptible job without live pods stays in Starting through any number of undisturbed reconciles |
| Preemption.PreemptConverges | pkg/controllers/dijob.go:122-134 | With enough nodes and no leftover in the way two reconciles reach Starting with `replicas` live pods, which call for rescheduling again if and only if there are more nodes than replicas |
| Cleanup.CleanUpExact | pkg/context/pod.go:143-190 | A successful clean-up leaves exactly the pods the policy spares |
| Meanings.CleanUpMeaning | pkg/context/pod.go:153-190 | Which these are, by their status fields |
| Outcomes.TerminalReconcile | pkg/controllers/dijob_controller.go:110-124 | A reconcile of a finished job does that and keeps the phase |
| Outcomes.TerminalStops | pkg/context/pod.go:148-152 | When a service cannot be deleted neither pods nor status change |
| Outcomes.TerminalKeepsStatus | pkg/controllers/dijob_controller.go:110-115 | When a pod cannot be deleted the status is left alone |
| Outcomes.TerminalStable | pkg/controllers/dijob_controller.go:110-124 | Repeating it any number of times changes neither pods nor phase again |
| Meanings.StatusMeaning | pkg/controllers/dijob.go:351-379 | The status after any reconcile: replicas wanted, ready containers of listed pods that are not terminating, and for each label and phase the number of listed pods; for preemptible jobs the allocated nodes, or zeros without any |
| TaskHistogram.HistogramExact | pkg/controllers/dijob.go:366-376 | Each TaskStatus entry is the number of pods with that label and phase, and all entries add up to the number of pods |
| TaskHistogram.CountTaskStatus | pkg/controllers/dijob.go:366-376 | The nested loops compute that histogram |
| TaskHistogram.SplitTypedPods | pkg/utils/util.go:225-234 | The pods of each label, in listing order |
| Persistence.NoLostUpdate | pkg/context/status.go:90-218 | Under any interleaving of any number of polling writers, with stale reads, refused and lost replies and users editing the spec, each field group holds what its last stored update wrote, and the spec the users' last up to default names |
| Persistence.OnlyOwnGroup | pkg/context/status.go:99-112 | Every step keeps the history, and what it stores differs from the version before in its own group only |
| Persistence.GroupsPartition | pkg/context/status.go:90-218 | The five groups are disjoint and cover the status |
| Persistence.GroupsCommute | pkg/context/status.go:90-218 | The order of updates matters only within one group |
| Persistence.ConflictMeansProgress | pkg/context/status.go:99-112 | A version conflict means that another update was stored since the read |
| Writers.UpdateInCluster | pkg/context/status.go:90-218 | The polling loop, with others writing between its read and its update: skips an unchanged group, otherwise leaves the interleaved edits applied in order |
| Writers.PollStoresOwn | pkg/context/status.go:201-216 | A poll that reports success has stored its values last in its group |
| Writers.PollKeepsOthers | pkg/context/status.go:201-216 | Whatever it reports, the other groups hold what the others wrote |
| Writers.QuietPoll | pkg/context/status.go:201-216 | Undisturbed, it stores its edit as if once, however many replies got lost |
| Writers.NameTasks | pkg/context/status.go:316-322 | The loop names the fetched copy and the local job, and panics only if the local job has fewer tasks |
| Writers.SetDefaultJobNameInCluster | pkg/context/status.go:307-330 | Undisturbed, the local job is named as soon as one read goes through, the stored one as soon as one update does |
| Util.CountScheduledPods | pkg/utils/util.go:151-161 | The nested loops count true PodScheduled conditions |
| Util.CountReadyPods | pkg/utils/util.go:163-176 | The nested loops count ready containers of pods that are not terminating |
| Util.CountCompletedPods | pkg/utils/util.go:178-193 | Succeeded and failed pods |
| Util.ReadyCellsSize | pkg/utils/util.go:163-176 | That count is the number of ready containers in the listing, of pods that are not terminating |
| Util.ScheduledCellsSize | pkg/utils/util.go:151-161 | The count of scheduled conditions is the number of conditions PodScheduled True in the listing |
| Util.ReadyCountMeaning | pkg/utils/util.go:163-176 | With at most one container a pod the count is the number of ready pods |
| Context.CollectNodes | pkg/context/pod.go:62-83 | The nested loops collect the addresses of all slots and of the slots of one type |
| Context.Context.BuildPod | pkg/context/pod.go:19-93 | Builds the specified pod, or panics where the guard admits an index out of range |
| Context.Context.CreatePod | pkg/context/pod.go:119-129 | A taken name counts as success and leaves its holder |
| Context.Context.DeletePod | pkg/context/pod.go:202-213 | Removes or marks the named pod only |
| Context.Context.DeletePods | pkg/context/pod.go:192-200 | Tries every pod and always reports success |
| Context.Context.DeletePodsAndServices | pkg/context/pod.go:143-190 | Deletes the services up to the first error, then runs the clean-up loop of the policy |
| Context.Context.ListJobPods | pkg/context/pod.go:228-242 | Every stored pod once |
| Reconciler.BuildPods | pkg/controllers/dijob.go:167-178 | The nested loops with the running rank build all slots in order |
| Reconciler.DIJobReconciler.BuildAndCreatePods | pkg/controllers/dijob.go:167-189 | Creates in order; after a failure counts a restart, deletes all built pods and returns no error |
| Reconciler.DIJobReconciler.DeleteRedundantReplicas | pkg/controllers/dijob.go:256-274 | The quota map and the deleting loop, up to the first error |
| Reconciler.DIJobReconciler.DeleteFailedReplicas | pkg/controllers/dijob.go:338-349 | Deletes the failed pods up to the first error, and says whether there were any |
| Reconciler.DIJobReconciler.FindMaxGlobalRank | pkg/controllers/dijob.go:320-336 | The maximum, starting at 0 |
| Reconciler.DIJobReconciler.TraceTask | pkg/controllers/dijob.go:279-297 | Fills the localTrace array, or stops at its first error |
| Reconciler.DIJobReconciler.CreateMissedReplicas | pkg/controllers/dijob.go:276-319 | The interleaved scanning and creating equals executing the plan that the Missed lemmas are about, pods and error |
| Reconciler.DIJobReconciler.DetectRescheduleLoop | pkg/controllers/dijob.go:231-254 | The loop with its early returns |
| Reconciler.DIJobReconciler.CheckPodsCompletion | pkg/controllers/dijob.go:207-229 | Edits the phase only when pods decide it |
| Reconciler.DIJobReconciler.UpdateStatusReplicas | pkg/controllers/dijob.go:351-379 | Replica counts and histogram |
| Reconciler.DIJobReconciler.ReconcileWithJobStatus | pkg/controllers/dijob.go:44-165 | The whole switch: pods, status and error are those of the step function all theorems are about |
| JobController.ReconcileReplicas | pkg/controllers/dijob.go:16-42 | The outcome of the switch, polled group by group into whatever other writers make of the job meanwhile |
| JobController.QuietReplicas | pkg/controllers/dijob.go:21-33 | Undisturbed, that stores phase and replicas as far as updates go through, and never the allocation |
| JobController.Reconcile | pkg/controllers/dijob_controller.go:66-131 | The entry point (names, validation, clean-up of a finished job, replicas) does what one Reconciled event of the state machine does; with a failed list call it stores the names and nothing else |
| JobController.OnJobAddHandler | pkg/controllers/dijob_controller.go:172-193 | Polls Pending into the store for a new job, among any other writers; undisturbed, that is the status of the add event |
| Meanings.AddedIs | pkg/controllers/dijob_controller.go:172-193 | The add event of the state machine stores that status and changes nothing else |
| Meanings.NewJobPends | pkg/controllers/dijob_controller.go:184-192 | A new job is Pending once the event is stored, with that as its newest condition; no other job changes |
| JobController.OnJobUpdateHandler | pkg/controllers/dijob_controller.go:195-218 | Runs the handlers and polls the counters and the readiness, among any other writers |
| NodeResources.FilterOutIneffectivePods | pkg/context/node.go:29-45 | Running pods once, pending pods once per true PodScheduled condition |
| NodeResources.GetPodsTotalRequestsAndLimits | pkg/context/node.go:47-69 | The accumulated maps are the sums per resource |
| NodeResources.GetNodeAllocatedResources | pkg/context/node.go:23-27 | The requests of the effective pods, each as often as it counts |
| NodeResources.RequestedMeaning | pkg/context/node.go:29-69 | Pods that request the same are charged once each, as many as are running or pending and scheduled |
| NodeResources.GetNodeInfo | pkg/allocator/node.go:39-55 | For every allocatable resource, free plus requested is allocatable |
| NodeResources.GetNodeInfos | pkg/allocator/node.go:12-37 | The same for every node and the pods bound to it |
| NodeResources.ClusterConservation | pkg/allocator/node.go:22-55 | Over distinct nodes, free plus the requests of effective pods bound to the nodes that offer the resource is what the nodes offer |
| NodeResources.FreeOrderIndependent | pkg/allocator/node.go:22-55 | The order of the pod list does not matter |
| NodeResources.WeightMeaning | pkg/context/node.go:29-45 | A pod counts at all exactly when running, or pending and scheduled; more than once exactly when pending and reporting PodScheduled true twice |

## Left out

- Convergence.RestartConverges: assumes that pods keep their places between reconciles, and that all of them stand in slots of the spec; leftovers are covered for jobs that are not preemptible only (`Leftovers`).
- Convergence.RescheduleConverges: names three situations that settle within two reconciles; exactly when Rescheduling ends at all is `Leftovers.AlwaysSettlesIff`, and what out-of-range pods do is `Blocked.RescheduleBlockedIff`.
- Leftovers.AlwaysRestartsIff: is about pods that are live and in range; terminating pods in Restarting, which may hold wanted names, are not covered.
- Blocked.RestartBlockedIff: with out-of-range pods it decides whether a job is stuck, not which listings lead a job that still creates or deletes pods out of the phase.
- Runs.RestartBudget: says nothing about a limit that changes during the run.
- Runs.ReschedulesCountEntries: equal modulo 2^32, because nothing bounds Reschedules.
- JobController.Reconcile: its equation is for polls that no other writer gets into, since a disturbed poll for default names can leave the local job with other names; the other entry points and `Writers` state the interleaved polls.
- JobController.ReconcileReplicas: reconcileServices, which touches neither pods nor status, is not part of it.
- Handlers.HandleEffect: CompletionTimestamp, which the Failed and Succeeded handlers set, is not part of the status.
- Persistence.GroupsPartition: CompletionTimestamp, which the replica writer also stores, is not part of the status.
- Reading the cluster: list calls see the current store, a reconcile is one step as far as pods and other events are concerned, and the update event of a phase change is handled before the next reconcile. Stale reads are modelled for the status writers only.
- In the state machine a failed list call is a reconcile whose calls are all refused; a missing job is not modelled.
- Services: each delete works or fails; creating and counting them has no effect on pods or status.
- Pods of the job that other programs create, and pods of other jobs under the same names.
- Condition messages and timestamps, CompletionTimestamp, event recording and logging.
- The registration calls of the handler table: the rows they leave behind are written out.
- The int32 width of the histogram's counters and the 64-bit limit of parsing; task replicas are natural numbers, as the resource definition demands at least one.
- Pod templates, volumes, ports, labels and annotations that the controller does not read back, and environment variables other than ranks and node lists.
- `MarkIncorrectJobFailed`, finalizers and owner references.
- The HTTP server, the allocation policy (a stub), job profilings (a type without fields, so its writer always finds nothing to do), manager start-up, real clocks and poll timing.
- The requests and limits of a pod, summed over its containers, are given.
