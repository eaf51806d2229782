/** What a reconcile leaves in the status and in the cluster, said of the listed pods
    and of the fields of the spec. */
module Meanings {
  import opened Api
  import opened Util
  import opened Pods
  import opened Cluster
  import opened Conditions
  import opened Replicas
  import opened TaskHistogram
  import opened Cleanup
  import opened Handlers
  import opened Validator
  import opened Uniqueness
  import opened Controller
  import opened Runs

  // ---- the replica status

  ghost predicate SameCounts(a: Status, b: Status) {
    a.replicas == b.replicas && a.readyReplicas == b.readyReplicas && a.taskStatus == b.taskStatus
  }

  lemma EnterCounts(st: Status, phase: Phase)
    ensures SameCounts(Enter(st, phase), st)
  {
    hide UpdateConditions, Reason;
  }

  lemma BuildCounts(id: JobId, spec: Spec, st: Status, s: Store, f: Faults)
    ensures SameCounts(BuildAndCreate(id, spec, st, s, f).status, st)
  {
    hide Enter, BuildAll, CreateList, DeleteEach;
    EnterCounts(st, Restarting);
    EnterCounts(st, Failed);
  }

  lemma StartedCounts(spec: Spec, st: Status, pods: seq<Pod>, s: Store)
    ensures SameCounts(ReconcileStarting(spec, st, pods, s).status, st)
    ensures SameCounts(ReconcileRunning(spec, st, pods, s).status, st)
  {
    hide Enter, DetectReschedule, ScheduledCount, ReadyCount, SucceededCount, FailedCount;
    EnterCounts(st, Succeeded);
    EnterCounts(st, Restarting);
    EnterCounts(st, Failed);
    EnterCounts(st, Rescheduling);
    EnterCounts(st, Running);
  }

  lemma OtherCounts(id: JobId, spec: Spec, st: Status, list: seq<Pod>, s: Store, f: Faults)
    ensures SameCounts(ReconcilePending(id, spec, st, list, s, f).status, st)
    ensures SameCounts(ReconcileRestarting(id, spec, st, LivePods(list), s, f).status, st)
    ensures SameCounts(ReconcileRescheduling(id, spec, st, list, s, f).status, st)
  {
    hide Enter, BuildAndCreate, CreateMissed, DeleteList, DeleteEach, Redundant, Quotas, FailedPods, LivePods,
      TerminatingPods;
    EnterCounts(st, Starting);
    EnterCounts(st, Pending);
    BuildCounts(id, spec, st, s, f);
    EnterCounts(BuildAndCreate(id, spec, st, s, f).status, Starting);
  }

  lemma ReconcileCounts(id: JobId, spec: Spec, st: Status, list: seq<Pod>, s: Store, f: Faults)
    ensures SameCounts(ReconcilePhase(id, spec, st, list, s, f).status, UpdateReplicas(spec, st, list))
  {
    hide ReconcilePending, ReconcileStarting, ReconcileRunning, ReconcileRestarting, ReconcileRescheduling,
      UpdateReplicas, SameCounts;
    var st' := UpdateReplicas(spec, st, list);
    StartedCounts(spec, st', LivePods(list), s);
    OtherCounts(id, spec, st', list, s, f);
    ItselfSame(st');
  }

  lemma ItselfSame(st: Status)
    ensures SameCounts(st, st)
  {
  }

  ghost predicate Matches(p: Pod, taskName: string, phase: PodPhase) {
    p.meta.taskName == taskName && p.status.phase == phase
  }

  /** The places of the listing with a pod of the task label in the phase. */
  ghost function Matching(list: seq<Pod>, taskName: string, phase: PodPhase): set<nat> {
    set i: nat | i < |list| && Matches(list[i], taskName, phase) :: i
  }

  lemma {:induction false} MatchingSize(list: seq<Pod>, taskName: string, phase: PodPhase)
    ensures CountOf(list, taskName, phase) == |Matching(list, taskName, phase)|
  {
    if list == [] {
      assert Matching(list, taskName, phase) == {};
    } else {
      var init, last := list[..|list| - 1], list[|list| - 1];
      MatchingSize(init, taskName, phase);
      assert list == init + [last];
      hide CountOf, Matching;
      CountSnoc(init, last, taskName, phase);
      MatchingLast(list, taskName, phase);
    }
  }

  lemma CountSnoc(init: seq<Pod>, last: Pod, taskName: string, phase: PodPhase)
    ensures CountOf(init + [last], taskName, phase) ==
      CountOf(init, taskName, phase) + if last.meta.taskName == taskName && last.status.phase == phase then 1 else 0
  {
    assert (init + [last])[..|init|] == init;
  }

  lemma MatchingLast(list: seq<Pod>, taskName: string, phase: PodPhase)
    requires list != []
    ensures |Matching(list, taskName, phase)| ==
      |Matching(list[..|list| - 1], taskName, phase)| + if Matches(list[|list| - 1], taskName, phase) then 1 else 0
  {
    hide Matches;
    var init, last := list[..|list| - 1], list[|list| - 1];
    var few := Matching(init, taskName, phase);
    forall i: nat | i in Matching(list, taskName, phase) && i != |init| ensures i in few {
      assert init[i] == list[i];
    }
    forall i: nat | i in few ensures i in Matching(list, taskName, phase) && i != |init| {
      assert init[i] == list[i];
    }
    assert |init| in Matching(list, taskName, phase) <==> Matches(last, taskName, phase);
    hide Matching;
    if Matches(last, taskName, phase) {
      assert Matching(list, taskName, phase) == few + {|init|};
    } else {
      assert Matching(list, taskName, phase) == few;
    }
  }

  /** What a reconcile makes of the replica status, in any phase and with any faults.
      If the job is not preemptible: the number of names wanted, the number of ready
      containers of listed pods that are not terminating, and for each task label and
      phase the number of listed pods. If it is: the number of allocated nodes and the
      same readiness, or zeros without nodes; the task status is left alone. */
  lemma StatusMeaning(id: JobId, spec: Spec, st: Status, list: seq<Pod>, s: Store, f: Faults)
    ensures var r := ReconcilePhase(id, spec, st, list, s, f).status;
      var ready := Int32(|ReadyCells(list)|);
      if spec.preemptible then
        && r.replicas == Int32(|st.allocation|) && r.taskStatus == st.taskStatus
        && r.readyReplicas == (if |st.allocation| > 0 then ready else 0)
      else
        && (DistinctNames(spec.tasks) ==> r.replicas == Int32(|SpecNames(id, spec.tasks)|))
        && r.readyReplicas == ready
        && forall t, phase :: At(r.taskStatus, t, phase) == |Matching(list, t, phase)|
  {
    hide ReconcilePhase, ReadyCount, ReadyCells, CountOf, Histogram, At, Int32;
    ReconcileCounts(id, spec, st, list, s, f);
    ReadyCellsSize(list);
    Int32Zero();
    if !spec.preemptible {
      if DistinctNames(spec.tasks) {
        SpecNamesSize(id, spec.tasks);
      }
      forall t, phase ensures At(Histogram(list), t, phase) == |Matching(list, t, phase)| {
        AtIsCount(list, t, phase);
        MatchingSize(list, t, phase);
      }
    }
  }

  lemma Int32Zero()
    ensures Int32(0) == 0
  {
  }

  // ---- a job that wants nothing

  /** Pending without replicas: nothing happens, whatever pods there are. */
  lemma {:induction false} IdlePending(id: JobId, spec: Spec, st: Status, list: seq<Pod>, s: Store, f: Faults)
    requires st.phase == Pending && forall t | t in spec.tasks :: t.replicas == 0
    ensures var o := ReconcilePhase(id, spec, st, list, s, f);
      o.store == s && o.status.phase == Pending && o.err == NoError
  {
    hide UpdateReplicas, LivePods;
    UpdateReplicasFrame(spec, st, list);
    NoReplicas(spec.tasks, |spec.tasks|);
  }

  lemma {:induction false} NoReplicas(tasks: seq<Task>, k: nat)
    requires k <= |tasks| && forall t | t in tasks :: t.replicas == 0
    ensures Offset(tasks, k) == 0
  {
    if k > 0 {
      NoReplicas(tasks, k - 1);
      assert tasks[k - 1] in tasks;
    }
  }

  // ---- names and validation, over the whole reconcile

  /** A reconcile that reads the job gives default names and then validates: unless the
      spec names itself, the job fails, in any phase, and its pods are left alone; a
      finished job whose spec does keeps its phase. */
  lemma {:induction false} DefaultsThenFails(id: JobId, w: World, e: Event)
    requires WorldInv(id, w) && Enabled(w, e) && e.Reconciled? && e.writes.namesRead
    ensures var n := Next(id, w, e);
      if NamesItself(w.spec.tasks) then w.status.phase in {Succeeded, Failed} ==> n.status.phase == w.status.phase
      else n.store == w.store && n.status.phase == if e.writes.phase then Failed else w.status.phase
  {
    hide StoreInv, WellFormed, ReconcilePhase, CleanUp, Enter, EventStatus, DefaultNames, NamesItself, Acceptable;
    DefaultThenValidate(w.spec.tasks);
    EnterLawful(w.status, Failed);
    NextKeepsInv(id, w, e);
    EventPhase(w.status.phase, SavePhase(w.status, Enter(w.status, Failed), e.writes.phase), e.writes);
  }

  /** If the reconcile could store the names, every task of another type than none has
      one afterwards (unless its type is empty, too), and nothing else of the spec has
      changed; otherwise the spec is as it was. */
  lemma {:induction false} NamesStored(id: JobId, w: World, e: Event)
    requires e.Reconciled?
    ensures var was, now := w.spec, Next(id, w, e).spec;
      && now == was.(tasks := now.tasks) && |now.tasks| == |was.tasks|
      && (forall i | 0 <= i < |was.tasks| ::
            && now.tasks[i] == was.tasks[i].(name := now.tasks[i].name)
            && (was.tasks[i].name != "" ==> now.tasks[i] == was.tasks[i]))
      && (e.writes.namesRead && e.writes.names ==>
            forall t | t in now.tasks && t.name == "" :: t.taskType in {"none", ""})
      && (!e.writes.namesRead || !e.writes.names ==> now == was)
  {
    hide ReconcilePhase, CleanUp, Enter, EventStatus, Acceptable, LocalSpec;
  }

  /** A job that turns Failed or Succeeded has no ready replicas once its event has been
      handled and that stored. */
  lemma {:induction false} FinishedNotReady(id: JobId, w: World, e: Event)
    requires e.Reconciled? && e.writes.readiness && Tracked(w.status.phase)
    ensures var n := Next(id, w, e);
      n.status.phase != w.status.phase && n.status.phase in {Failed, Succeeded} ==> n.status.readyReplicas == 0
  {
    hide ReconcileJob, Handled;
    var j := ReconcileJob(id, Stored(w.store, w.spec, w.status), e.list, e.faults, e.servicesOk, e.writes);
    HandleEffect(w.status.phase, j.status);
  }

  lemma EventPhase(was: Phase, st: Status, writes: Writes)
    ensures EventStatus(was, st, writes).phase == st.phase
  {
  }

  // ---- a new job

  /** A new job is Pending as soon as its add event is stored, with that as its newest
      condition; any other job is left alone by the event. */
  lemma {:induction false} NewJobPends(id: JobId, w: World, saved: bool)
    requires WorldInv(id, w)
    ensures var n := Next(id, w, JobAdded(saved));
      && n == w.(status := n.status)
      && (w.status.phase == Unset ==> n.status.phase == if saved then Pending else Unset)
      && (w.status.phase == Unset && saved ==>
            n.status.conditions != [] && n.status.conditions[|n.status.conditions| - 1].phase == Pending)
      && (w.status.phase != Unset ==> n == w)
  {
    hide StoreInv;
    AddedIs(id, w, saved);
    if w.status.phase == Unset && saved {
      SetPhaseNewest(w.status, Pending, Reason(Pending));
    }
  }

  lemma {:induction false} SetPhaseNewest(st: Status, phase: Phase, reason: string)
    requires WellFormed(st) && st.phase != phase
    ensures var cs := SetPhase(st, phase, reason).conditions;
      cs != [] && cs[|cs| - 1].phase == phase
  {
    var cs := if st.phase == Succeeded || st.phase == Failed then ClearRunning(st.conditions) else st.conditions;
    GetConditionFinds(cs, phase);
    assert GetCondition(cs, phase).Some? ==> !GetCondition(cs, phase).value.holds by {
      if GetCondition(cs, phase).Some? {
        var i :| 0 <= i < |cs| && cs[i] == GetCondition(cs, phase).value;
        assert i != |cs| - 1;
      }
    }
  }

  /** The add event in terms of the status that its handler stores. */
  lemma {:induction false} AddedIs(id: JobId, w: World, saved: bool)
    ensures Next(id, w, JobAdded(saved)) == w.(status := AddedStatus(w.status, saved))
  {
    hide Enter;
    EnterPhase(w.status, Pending);
    if w.status.phase == Unset {
      UnsetEvent(AddedStatus(w.status, saved));
    }
  }

  lemma EnterPhase(st: Status, phase: Phase)
    ensures Enter(st, phase).phase == phase && (st.phase == phase ==> Enter(st, phase) == st)
  {
  }

  lemma UnsetEvent(st: Status)
    ensures EventStatus(Unset, st, ALL_WRITES) == st
  {
  }

  // ---- clean-up

  /** The clean-up of a finished job, in terms of the pods: with policy None all stay,
      with All those that are terminating, with Running also those in another phase
      than Running and Pending, or with a container that terminated or crash-loops. */
  lemma CleanUpMeaning(policy: CleanPodPolicy, list: seq<Pod>, s: Store, f: Faults)
    requires IsListing(list, s) && f.delete == map[]
    ensures var r := CleanUp(policy, list, s, true, f);
      && r.err == NoError && (forall n | n in r.store :: n in s && r.store[n] == s[n])
      && forall n | n in s :: n in r.store <==>
        || policy == CleanNone
        || s[n].status.terminating
        || (policy == CleanRunning
            && (s[n].status.phase in {PodSucceeded, PodFailed, PodUnknown}
                || exists j | 0 <= j < |s[n].status.containers| ::
                     s[n].status.containers[j].exitCode.Some? || s[n].status.containers[j].crashLoop))
  {
    hide CleanUp, IsListing;
    CleanUpExact(policy, list, s, f);
    forall n | n in s ensures HasStoppedContainer(s[n]) <==> (exists j | 0 <= j < |s[n].status.containers| ::
      s[n].status.containers[j].exitCode.Some? || s[n].status.containers[j].crashLoop)
    {
      var cs := s[n].status.containers;
      if c :| c in cs && (c.exitCode.Some? || c.crashLoop) {
        var j :| 0 <= j < |cs| && cs[j] == c;
      }
    }
    hide HasStoppedContainer;
  }
}
