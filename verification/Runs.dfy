/** Safety over whole runs of the controller. */
module Runs {
  import opened Wrappers
  import opened Api
  import opened Util
  import opened Cluster
  import opened Conditions
  import opened Replicas
  import opened Cleanup
  import opened Handlers
  import opened Validator
  import opened Uniqueness
  import opened Controller

  // ---- the phase relation of one reconcile

  /** The phases a reconcile of an acceptable, unfinished job may move to. */
  function Successors(was: Phase): set<Phase> {
    match was
    case Pending => {Starting, Restarting, Failed}
    case Starting => {Running, Rescheduling, Restarting, Succeeded, Failed}
    case Running => {Rescheduling, Restarting, Succeeded, Failed}
    case Restarting => {Starting}
    case Rescheduling => {Starting, Pending}
    case _ => {}
  }

  predicate WithinBudget(spec: Spec, restarts: int) {
    spec.backoffLimit.None? || restarts < spec.backoffLimit.value
  }

  /** What any reconcile step leaves true of the status it computes. */
  ghost predicate Lawful(spec: Spec, st: Status, r: Status) {
    && r.restarts == st.restarts && r.reschedules == st.reschedules && r.allocation == st.allocation
    && (r.phase != st.phase ==> r.phase in Successors(st.phase))
    && (r.phase != st.phase && r.phase == Restarting ==> WithinBudget(spec, st.restarts))
    && (r.phase != st.phase && r.phase == Failed ==> !WithinBudget(spec, st.restarts))
    && (WellFormed(st) ==> WellFormed(r))
  }

  lemma {:induction false} EnterLawful(st: Status, phase: Phase)
    ensures var r := Enter(st, phase);
      && r.phase == phase && r.restarts == st.restarts && r.reschedules == st.reschedules
      && r.allocation == st.allocation && (WellFormed(st) ==> WellFormed(r))
  {
    if WellFormed(st) {
      SetPhaseWellFormed(st, phase, Reason(phase));
    }
  }

  lemma BackoffLawful(spec: Spec, st: Status)
    requires st.phase in {Pending, Starting, Running}
    ensures Lawful(spec, st, EnterByBackoff(spec, st))
    ensures EnterByBackoff(spec, st).phase in {Restarting, Failed}
  {
    hide Enter, WellFormed;
    EnterLawful(st, Restarting);
    EnterLawful(st, Failed);
  }

  lemma BuildAndCreateLawful(id: JobId, spec: Spec, st: Status, s: Store, f: Faults)
    ensures var o := BuildAndCreate(id, spec, st, s, f); var r := o.status;
      && (o.err != NoError ==> r == st)
      && (st.phase == Pending ==> Lawful(spec, st, r))
      && r.restarts == st.restarts && r.reschedules == st.reschedules && r.allocation == st.allocation
      && (WellFormed(st) ==> WellFormed(r))
  {
    hide Enter, WellFormed, BuildAll, CreateList, DeleteEach;
    EnterLawful(st, Restarting);
    EnterLawful(st, Failed);
  }

  lemma CompletionLawful(spec: Spec, st: Status, pods: seq<Pod>)
    requires st.phase in {Starting, Running}
    ensures var r := CheckCompletion(spec, st, pods); r.Some? ==> Lawful(spec, st, r.value)
  {
    hide Enter, WellFormed;
    EnterLawful(st, Succeeded);
    BackoffLawful(spec, st);
  }

  lemma PodDrivenLawful(spec: Spec, st: Status, pods: seq<Pod>, s: Store)
    ensures st.phase == Starting ==> Lawful(spec, st, ReconcileStarting(spec, st, pods, s).status)
    ensures st.phase == Running ==> Lawful(spec, st, ReconcileRunning(spec, st, pods, s).status)
  {
    hide Enter, WellFormed, CheckCompletion, DetectReschedule, ScheduledCount, ReadyCount;
    EnterLawful(st, Running);
    EnterLawful(st, Rescheduling);
    if st.phase in {Starting, Running} {
      CompletionLawful(spec, st, pods);
    }
  }

  lemma CreatingLawful(id: JobId, spec: Spec, st: Status, list: seq<Pod>, s: Store, f: Faults)
    ensures st.phase == Pending ==> Lawful(spec, st, ReconcilePending(id, spec, st, list, s, f).status)
    ensures st.phase == Restarting ==> Lawful(spec, st, ReconcileRestarting(id, spec, st, LivePods(list), s, f).status)
    ensures st.phase == Rescheduling ==> Lawful(spec, st, ReconcileRescheduling(id, spec, st, list, s, f).status)
  {
    hide Enter, WellFormed, BuildAndCreate, CreateMissed, Redundant, DeleteList, DeleteEach, FailedPods, LivePods,
      TerminatingPods, Quotas;
    EnterLawful(st, Starting);
    EnterLawful(st, Pending);
    BuildAndCreateLawful(id, spec, st, s, f);
    EnterLawful(BuildAndCreate(id, spec, st, s, f).status, Starting);
  }

  lemma {:induction false} UpdateReplicasFrame(spec: Spec, st: Status, list: seq<Pod>)
    ensures var r := UpdateReplicas(spec, st, list);
      r == st.(replicas := r.replicas, readyReplicas := r.readyReplicas, taskStatus := r.taskStatus)
  {
  }

  lemma ReconcileLawful(id: JobId, spec: Spec, st0: Status, list: seq<Pod>, s: Store, f: Faults)
    ensures Lawful(spec, st0, ReconcilePhase(id, spec, st0, list, s, f).status)
  {
    hide ReconcilePending, ReconcileStarting, ReconcileRunning, ReconcileRestarting, ReconcileRescheduling,
      UpdateReplicas;
    UpdateReplicasFrame(spec, st0, list);
    PodDrivenLawful(spec, UpdateReplicas(spec, st0, list), LivePods(list), s);
    CreatingLawful(id, spec, UpdateReplicas(spec, st0, list), list, s, f);
  }

  // ---- the invariant of a run

  ghost predicate WorldInv(id: JobId, w: World) {
    && StoreInv(id, w.store)
    && WellFormed(w.status)
    && w.status.phase != Unknown
    && w.restartsLost <= w.restartEntries
    && w.reschedulesLost <= w.rescheduleEntries
    && w.status.restarts == Int32(w.restartEntries - w.restartsLost)
    && w.status.reschedules == Int32(w.rescheduleEntries - w.reschedulesLost)
  }

  /** How one event may change the stored phase. */
  ghost predicate PhaseStep(w: World, e: Event, next: World) {
    next.status.phase == w.status.phase ||
    match e
    case JobAdded(_) => w.status.phase == Unset && next.status.phase == Pending
    case Reconciled(_, _, _, writes) =>
      if Acceptable(LocalSpec(w.spec, writes).tasks) then next.status.phase in Successors(w.status.phase)
      else next.status.phase == Failed
    case _ => false
  }

  lemma Int32Next(x: int)
    ensures Int32(Int32(x) + 1) == Int32(x + 1)
  {
  }

  /** An event whose phase change the table tracks keeps the counters in step
      with the entries. */
  lemma HandleEventCounts(w: World, was: Phase, writes: Writes)
    requires w.restartsLost <= w.restartEntries && w.reschedulesLost <= w.rescheduleEntries
    requires w.status.restarts == Int32(w.restartEntries - w.restartsLost)
    requires w.status.reschedules == Int32(w.rescheduleEntries - w.reschedulesLost)
    requires w.status.phase in Successors(was) + {was, Failed, Pending}
    ensures var r := HandleEvent(w, was, writes);
      && r.restartsLost <= r.restartEntries && r.reschedulesLost <= r.rescheduleEntries
      && r.status.restarts == Int32(r.restartEntries - r.restartsLost)
      && r.status.reschedules == Int32(r.rescheduleEntries - r.reschedulesLost)
      && r.store == w.store && r.spec == w.spec
      && r.status.phase == w.status.phase && r.status.conditions == w.status.conditions
  {
    hide Handled, Int32;
    HandleEffect(was, w.status);
    Int32Next(w.restartEntries - w.restartsLost);
    Int32Next(w.rescheduleEntries - w.reschedulesLost);
  }

  lemma DriftKeepsInv(id: JobId, s: Store, t: Store)
    requires StoreInv(id, s) && Drift(s, t)
    ensures StoreInv(id, t)
  {
  }

  /** What a reconcile leaves in the API server. */
  ghost predicate LawfulJob(id: JobId, j: Stored, spec: Spec, r: Stored) {
    && StoreInv(id, r.store)
    && (WellFormed(j.status) ==> WellFormed(r.status))
    && r.status.restarts == j.status.restarts && r.status.reschedules == j.status.reschedules
    && (r.status.phase != j.status.phase ==>
          if Acceptable(spec.tasks) then Lawful(spec, j.status, r.status) else r.status.phase == Failed)
  }

  lemma SaveInvalid(st: Status, ok: bool)
    ensures var r := SavePhase(st, Enter(st, Failed), ok);
      && (WellFormed(st) ==> WellFormed(r)) && r.phase in {st.phase, Failed}
      && r.restarts == st.restarts && r.reschedules == st.reschedules
  {
    hide WellFormed, Enter;
    EnterLawful(st, Failed);
    SameConditions(SavePhase(st, Enter(st, Failed), ok), if ok then Enter(st, Failed) else st);
  }

  lemma SaveOutcome(spec: Spec, st: Status, local: Status, phase: bool, replicas: bool)
    requires Lawful(spec, st, local)
    ensures Lawful(spec, st, SaveReplicas(SavePhase(st, local, phase), local, replicas))
  {
    hide WellFormed;
    SameConditions(SaveReplicas(SavePhase(st, local, phase), local, replicas), if phase then local else st);
  }

  lemma {:induction false} ReconcileJobLawful(id: JobId, j: Stored, list: seq<Pod>, f: Faults, servicesOk: bool,
                                              writes: Writes)
    requires StoreInv(id, j.store) && IsListing(list, j.store)
    ensures LawfulJob(id, j, LocalSpec(j.spec, writes), ReconcileJob(id, j, list, f, servicesOk, writes))
  {
    hide StoreInv, WellFormed, ReconcilePhase, CleanUp, Enter, Acceptable, LocalSpec, IsListing, SavePhase,
      SaveReplicas;
    var spec := LocalSpec(j.spec, writes);
    if !Acceptable(spec.tasks) {
      SaveInvalid(j.status, writes.phase);
    } else if IsTerminal(j.status.phase) {
      var c := CleanUp(spec.cleanPodPolicy, list, j.store, servicesOk, f);
      CleanUpShrinks(spec.cleanPodPolicy, list, j.store, servicesOk, f);
      ShrinkKeepsInv(id, j.store, c.store, Names(list));
      var local := j.status.(readyReplicas := 0, taskStatus := map[]);
      SaveReplicasFrame(j.status, local, c.err == NoError && writes.replicas);
    } else {
      ReconcileKeepsInv(id, spec, j.status, list, j.store, f);
      ReconcileLawful(id, spec, j.status, list, j.store, f);
      var o := ReconcilePhase(id, spec, j.status, list, j.store, f);
      SaveOutcome(spec, j.status, o.status, writes.phase, writes.replicas);
    }
  }

  lemma SaveReplicasFrame(st: Status, local: Status, ok: bool)
    ensures var r := SaveReplicas(st, local, ok);
      && r.phase == st.phase && r.restarts == st.restarts && r.reschedules == st.reschedules
      && (WellFormed(st) ==> WellFormed(r))
  {
    SameConditions(SaveReplicas(st, local, ok), st);
  }

  lemma {:induction false} ReconciledKeepsInv(id: JobId, w: World, list: seq<Pod>, f: Faults, servicesOk: bool,
                                              writes: Writes)
    requires WorldInv(id, w) && IsListing(list, w.store)
    ensures var n := Reconcile(id, w, list, f, servicesOk, writes);
      WorldInv(id, n) && PhaseStep(w, Reconciled(list, f, servicesOk, writes), n)
  {
    hide StoreInv, WellFormed, ReconcileJob, HandleEvent, Acceptable, LocalSpec, IsListing;
    var j := Stored(w.store, w.spec, w.status);
    var r := ReconcileJob(id, j, list, f, servicesOk, writes);
    ReconcileJobLawful(id, j, list, f, servicesOk, writes);
    var saved := w.(store := r.store, spec := r.spec, status := r.status);
    HandleEventCounts(saved, w.status.phase, writes);
    SameConditions(HandleEvent(saved, w.status.phase, writes).status, r.status);
  }

  lemma SameConditions(a: Status, b: Status)
    requires a.phase == b.phase && a.conditions == b.conditions
    ensures WellFormed(a) <==> WellFormed(b)
  {
  }

  lemma AddedLawful(st: Status, saved: bool)
    ensures var r := AddedStatus(st, saved);
      && r.restarts == st.restarts && r.reschedules == st.reschedules
      && (r.phase == st.phase || (st.phase == Unset && r.phase == Pending))
      && (WellFormed(st) ==> WellFormed(r))
  {
    hide WellFormed, Enter;
    EnterLawful(st, Pending);
    SameConditions(AddedStatus(st, saved), if saved && st.phase in {Unset, Pending} then Enter(st, Pending) else st);
  }

  /** Every event keeps the invariant and moves the phase along the relation. */
  lemma {:induction false} NextKeepsInv(id: JobId, w: World, e: Event)
    requires WorldInv(id, w) && Enabled(w, e)
    ensures WorldInv(id, Next(id, w, e)) && PhaseStep(w, e, Next(id, w, e))
  {
    hide StoreInv, WellFormed, Reconcile, AddedStatus, HandleEvent, Acceptable, LocalSpec;
    match e
    case JobAdded(saved) =>
      var st := AddedStatus(w.status, saved);
      AddedLawful(w.status, saved);
      HandleEventCounts(w.(status := st), w.status.phase, ALL_WRITES);
      SameConditions(HandleEvent(w.(status := st), w.status.phase, ALL_WRITES).status, st);
    case Reconciled(list, f, servicesOk, writes) => ReconciledKeepsInv(id, w, list, f, servicesOk, writes);
    case PodsDrifted(t) => DriftKeepsInv(id, w.store, t);
    case SpecEdited(_) =>
    case Allocated(allocation) => SameConditions(w.status.(allocation := allocation), w.status);
  }

  lemma {:induction false} RunKeepsInv(id: JobId, ws: seq<World>, es: seq<Event>, i: nat)
    requires IsRun(id, ws, es) && i < |ws|
    ensures WorldInv(id, ws[i])
  {
    if i > 0 {
      RunKeepsInv(id, ws, es, i - 1);
      NextKeepsInv(id, ws[i - 1], es[i - 1]);
    }
  }

  // ---- the results over runs

  /** In every reachable state no two pods of the job share a slot, and no two live
      pods share a global rank: over any interleaving of reconciles in any phase,
      failing calls, drifting pods and spec edits. */
  lemma UniqueSlotsAndRanks(id: JobId, ws: seq<World>, es: seq<Event>, i: nat, m: string, n: string)
    requires IsRun(id, ws, es) && i < |ws|
    requires m in ws[i].store && n in ws[i].store && m != n
    ensures var p, q := ws[i].store[m], ws[i].store[n];
      && (p.meta.taskName, LocalRankOf(p)) != (q.meta.taskName, LocalRankOf(q))
      && (IsPodLive(p) && IsPodLive(q) ==> RankOf(p) != RankOf(q))
  {
    RunKeepsInv(id, ws, es, i);
    SlotAndRankIdentifyPod(id, ws[i].store, m, n);
  }

  /** The stored phase only ever moves along the relation; in particular Running is
      entered only from Starting, Restarting leaves only to Starting, and
      Rescheduling only to Starting or Pending, as long as the spec validates. */
  lemma PhaseSafety(id: JobId, ws: seq<World>, es: seq<Event>, i: nat)
    requires IsRun(id, ws, es) && i < |es|
    ensures PhaseStep(ws[i], es[i], ws[i + 1])
  {
    RunKeepsInv(id, ws, es, i);
    NextKeepsInv(id, ws[i], es[i]);
  }

  /** Failed is never left. */
  lemma {:induction false} FailedAbsorbing(id: JobId, ws: seq<World>, es: seq<Event>, i: nat, j: nat)
    requires IsRun(id, ws, es) && i <= j < |ws| && ws[i].status.phase == Failed
    ensures ws[j].status.phase == Failed
    decreases j
  {
    if i < j {
      FailedAbsorbing(id, ws, es, i, j - 1);
      PhaseSafety(id, ws, es, j - 1);
    }
  }

  /** Validation comes first, so a finished job can still turn Failed through a
      spec edit; it stays Succeeded as long as every reconcile sees an acceptable spec. */
  lemma {:induction false} SucceededAbsorbing(id: JobId, ws: seq<World>, es: seq<Event>, i: nat, j: nat)
    requires IsRun(id, ws, es) && i <= j < |ws| && ws[i].status.phase == Succeeded
    requires forall k | i <= k < j && es[k].Reconciled? :: Acceptable(LocalSpec(ws[k].spec, es[k].writes).tasks)
    ensures ws[j].status.phase == Succeeded
    decreases j
  {
    if i < j {
      SucceededAbsorbing(id, ws, es, i, j - 1);
      PhaseSafety(id, ws, es, j - 1);
    }
  }

  /** One reconcile of a finished job with an unacceptable spec fails it. */
  lemma SucceededFailsIff(id: JobId, w: World, e: Event)
    requires WorldInv(id, w) && Enabled(w, e) && w.status.phase == Succeeded
    ensures Next(id, w, e).status.phase == Failed <==>
      e.Reconciled? && e.writes.phase && !Acceptable(LocalSpec(w.spec, e.writes).tasks)
    ensures Next(id, w, e).status.phase in {Succeeded, Failed}
  {
    hide StoreInv, WellFormed, ReconcilePhase, CleanUp, Enter, Handled, Acceptable, LocalSpec;
    NextKeepsInv(id, w, e);
    EnterLawful(w.status, Failed);
    if e.Reconciled? {
      HandleEffect(w.status.phase, SavePhase(w.status, Enter(w.status, Failed), e.writes.phase));
    }
  }

  /** Reschedules counts the stored entries into Rescheduling (as an int32), less
      those whose handler could not store its increment: the missing row of the
      table is never needed. */
  lemma ReschedulesCountEntries(id: JobId, ws: seq<World>, es: seq<Event>, i: nat)
    requires IsRun(id, ws, es) && i < |ws|
    ensures ws[i].status.reschedules == Int32(ws[i].rescheduleEntries - ws[i].reschedulesLost)
    ensures ws[i].status.restarts == Int32(ws[i].restartEntries - ws[i].restartsLost)
  {
    RunKeepsInv(id, ws, es, i);
  }

  /** The condition list stays well formed: distinct types, only the last one
      holds, and it is the stored phase. */
  lemma ConditionsOverRuns(id: JobId, ws: seq<World>, es: seq<Event>, i: nat)
    requires IsRun(id, ws, es) && i < |ws|
    ensures WellFormed(ws[i].status) && |ws[i].status.conditions| <= 9
  {
    RunKeepsInv(id, ws, es, i);
    WellFormedBounded(ws[i].status);
  }

  // ---- the restart budget

  /** The backoff limit of the job stays b. */
  ghost predicate FixedLimit(ws: seq<World>, b: int) {
    forall i | 0 <= i < |ws| :: ws[i].spec.backoffLimit == Some(b)
  }

  lemma {:induction false} HandleEventRestarts(w: World, was: Phase, writes: Writes)
    ensures var r := HandleEvent(w, was, writes);
      && r.status.restarts ==
           (if w.status.phase != was && w.status.phase == Restarting && Tracked(was) && writes.counters
            then Int32(w.status.restarts + 1) else w.status.restarts)
      && r.status.phase == w.status.phase
  {
    hide Handled;
    HandleEffect(was, w.status);
  }

  /** A reconcile raises the restart count only below the limit, and fails a job
      with an acceptable spec only at the limit. */
  lemma {:induction false} ReconcileWithinBudget(id: JobId, w: World, list: seq<Pod>, f: Faults, servicesOk: bool,
                                                 writes: Writes, b: int)
    requires w.spec.backoffLimit == Some(b) && 0 <= w.status.restarts <= b < 0x8000_0000
    requires StoreInv(id, w.store) && IsListing(list, w.store)
    ensures var n := Reconcile(id, w, list, f, servicesOk, writes);
      && 0 <= n.status.restarts <= b
      && (n.status.phase == Failed && w.status.phase != Failed && Acceptable(LocalSpec(w.spec, writes).tasks) ==>
            n.status.restarts == b)
  {
    hide StoreInv, WellFormed, ReconcileJob, HandleEvent, Acceptable, LocalSpec, IsListing;
    var j := Stored(w.store, w.spec, w.status);
    var r := ReconcileJob(id, j, list, f, servicesOk, writes);
    ReconcileJobLawful(id, j, list, f, servicesOk, writes);
    LocalLimit(w.spec, writes);
    HandleEventRestarts(w.(store := r.store, spec := r.spec, status := r.status), w.status.phase, writes);
  }

  lemma LocalLimit(spec: Spec, writes: Writes)
    ensures LocalSpec(spec, writes).backoffLimit == spec.backoffLimit
  {
  }

  lemma {:induction false} RestartsBounded(id: JobId, ws: seq<World>, es: seq<Event>, b: int, i: nat)
    requires IsRun(id, ws, es) && i < |ws| && FixedLimit(ws, b) && 0 <= b < 0x8000_0000
    ensures 0 <= ws[i].status.restarts <= b
  {
    hide HandleEvent, Reconcile, AddedStatus;
    if i > 0 {
      RestartsBounded(id, ws, es, b, i - 1);
      RunKeepsInv(id, ws, es, i - 1);
      var w := ws[i - 1];
      match es[i - 1]
      case Reconciled(list, f, servicesOk, writes) =>
        ReconcileWithinBudget(id, w, list, f, servicesOk, writes, b);
      case JobAdded(saved) =>
        AddedLawful(w.status, saved);
        HandleEventRestarts(w.(status := AddedStatus(w.status, saved)), w.status.phase, ALL_WRITES);
      case _ =>
    }
  }

  lemma {:induction false} EntriesExact(id: JobId, ws: seq<World>, es: seq<Event>, b: int, i: nat)
    requires IsRun(id, ws, es) && i < |ws| && FixedLimit(ws, b) && 0 <= b < 0x8000_0000
    ensures ws[i].status.restarts == ws[i].restartEntries - ws[i].restartsLost
  {
    hide Reconcile, Enter;
    RunKeepsInv(id, ws, es, i);
    RestartsBounded(id, ws, es, b, i);
    if i > 0 {
      EntriesExact(id, ws, es, b, i - 1);
      RestartsBounded(id, ws, es, b, i - 1);
      EntriesGrowByOne(id, ws[i - 1], es[i - 1]);
    }
  }

  lemma {:induction false} EntriesGrowByOne(id: JobId, w: World, e: Event)
    ensures var n := Next(id, w, e);
      && w.restartEntries <= n.restartEntries <= w.restartEntries + 1
      && w.restartsLost <= n.restartsLost <= w.restartsLost + 1
  {
    hide ReconcilePhase, CleanUp, Enter, Handled, Acceptable, SavePhase, SaveReplicas, LocalSpec;
  }

  /** With a fixed backoff limit b, Restarts never exceeds b and is exactly the
      number of stored entries into Restarting whose increment was stored; a job
      with an acceptable spec fails only with its budget used up. */
  lemma RestartBudget(id: JobId, ws: seq<World>, es: seq<Event>, b: int, i: nat)
    requires IsRun(id, ws, es) && i < |es| && FixedLimit(ws, b) && 0 <= b < 0x8000_0000
    ensures ws[i].status.restarts == ws[i].restartEntries - ws[i].restartsLost <= b
    ensures ws[i].restartsLost == 0 ==> ws[i].restartEntries <= b
    ensures ws[i].status.phase != Failed && ws[i + 1].status.phase == Failed
      && es[i].Reconciled? && Acceptable(LocalSpec(ws[i].spec, es[i].writes).tasks)
      ==> ws[i + 1].status.restarts == b
  {
    hide Reconcile, Acceptable;
    RestartsBounded(id, ws, es, b, i);
    EntriesExact(id, ws, es, b, i);
    RunKeepsInv(id, ws, es, i);
    if es[i].Reconciled? {
      ReconcileWithinBudget(id, ws[i], es[i].list, es[i].faults, es[i].servicesOk, es[i].writes, b);
    }
  }
}
