/** pkg/controllers/dijob.go in its own form: the loops and the phase switch that
    edit the job and the cluster step by step, each proved against Replicas. */
module Reconciler {
  import opened Wrappers
  import opened Api
  import opened Text
  import opened Util
  import opened Pods
  import opened Cluster
  import opened Conditions
  import opened Replicas
  import opened Missed
  import opened TaskHistogram
  import C = Context
  import opened Jobs

  // ---- building all pods

  /** Appending to the pods built so far. */
  function Joined(built: seq<Pod>, rest: Option<seq<Pod>>): Option<seq<Pod>> {
    match rest case None => None case Some(r) => Some(built + r)
  }

  lemma JoinedNext(id: JobId, spec: Spec, allocation: seq<string>, built: seq<Pod>, k: nat, i: nat, rank: nat)
    requires k < |spec.tasks| && i < spec.tasks[k].replicas
    requires forall s | s in SlotsFrom(spec.tasks, k, i) :: s.task < |spec.tasks|
    ensures forall s | s in SlotsFrom(spec.tasks, k, i + 1) :: s.task < |spec.tasks|
    ensures Joined(built, BuildFrom(id, spec, allocation, SlotsFrom(spec.tasks, k, i), rank)) ==
      match BuildPod(id, spec, rank, allocation, Slot(k, i))
      case None => None
      case Some(p) => Joined(built + [p], BuildFrom(id, spec, allocation, SlotsFrom(spec.tasks, k, i + 1), rank + 1))
  {
    hide BuildPod;
    var slots, rest := SlotsFrom(spec.tasks, k, i), SlotsFrom(spec.tasks, k, i + 1);
    assert slots[0] == Slot(k, i) && slots[1..] == rest;
    var p, r := BuildPod(id, spec, rank, allocation, Slot(k, i)), BuildFrom(id, spec, allocation, rest, rank + 1);
    if p.Some? && r.Some? {
      assert built + ([p.value] + r.value) == built + [p.value] + r.value;
    }
  }

  method BuildPods(ctx: C.Context, job: Job) returns (pods: Option<seq<Pod>>)
    ensures pods == BuildAll(job.id, job.spec, job.status.allocation)
  {
    hide BuildPod, BuildFrom, Joined;
    var spec, allocation := job.spec, job.status.allocation;
    SlotsPositions(spec.tasks);
    var built := [];
    var podRank := 0;
    JoinedStart(BuildFrom(job.id, spec, allocation, Slots(spec.tasks), 0));
    for k := 0 to |spec.tasks|
      invariant forall s | s in SlotsFrom(spec.tasks, k, 0) :: s.task < |spec.tasks|
      invariant Joined(built, BuildFrom(job.id, spec, allocation, SlotsFrom(spec.tasks, k, 0), podRank))
             == BuildAll(job.id, spec, allocation)
    {
      for i := 0 to spec.tasks[k].replicas
        invariant forall s | s in SlotsFrom(spec.tasks, k, i) :: s.task < |spec.tasks|
        invariant Joined(built, BuildFrom(job.id, spec, allocation, SlotsFrom(spec.tasks, k, i), podRank))
               == BuildAll(job.id, spec, allocation)
      {
        JoinedNext(job.id, spec, allocation, built, k, i, podRank);
        var pod := ctx.BuildPod(job.id, spec, podRank, allocation, k, i);
        if pod.None? {
          return None;
        }
        built := built + [pod.value];
        podRank := podRank + 1;
      }
    }
    JoinedEnd(job.id, spec, allocation, built, podRank);
    pods := Some(built);
  }

  lemma JoinedStart(rest: Option<seq<Pod>>)
    ensures Joined([], rest) == rest
  {
    if rest.Some? {
      assert [] + rest.value == rest.value;
    }
  }

  lemma JoinedEnd(id: JobId, spec: Spec, allocation: seq<string>, built: seq<Pod>, rank: nat)
    ensures Joined(built, BuildFrom(id, spec, allocation, [], rank)) == Some(built)
  {
    assert built + [] == built;
  }

  class DIJobReconciler {
    const ctx: C.Context

    constructor (ctx: C.Context)
      ensures this.ctx == ctx
    {
      this.ctx := ctx;
    }

    /** buildAndCreatePods: after a failed create it counts a restart and deletes
        all built pods, and still reports success. */
    method BuildAndCreatePods(job: Job) returns (err: Err)
      modifies ctx`pods, job`status
      ensures Outcome(ctx.pods, job.status, err) ==
        BuildAndCreate(job.id, job.spec, old(job.status), old(ctx.pods), ctx.faults)
    {
      var builtPods := BuildPods(ctx, job);
      if builtPods.None? {
        return Panic;
      }
      var pods := builtPods.value;
      for i := 0 to |pods|
        invariant job.status == old(job.status)
        invariant CreateList(ctx.pods, pods[i..], ctx.faults) == CreateList(old(ctx.pods), pods, ctx.faults)
      {
        var ok := ctx.CreatePod(pods[i]);
        if !ok {
          UpdateJobStatusByBackoffLimit(job);
          var _ := ctx.DeletePods(pods);
          return NoError;
        }
      }
      err := NoError;
    }

    /** deleteRedundantReplicas. */
    method DeleteRedundantReplicas(job: Job, pods: seq<Pod>) returns (err: Err)
      modifies ctx`pods
      ensures var d := DeleteList(old(ctx.pods), Redundant(pods, Quotas(job.spec.tasks)), ctx.faults);
        ctx.pods == d.store && err == if d.ok then NoError else ApiError
    {
      var tasks := job.spec.tasks;
      var typeNumMap: map<string, nat> := map[];
      for k := 0 to |tasks|
        invariant typeNumMap == Quotas(tasks[..k])
      {
        assert tasks[..k + 1][..k] == tasks[..k];
        typeNumMap := typeNumMap[tasks[k].taskType := tasks[k].replicas];
      }
      assert tasks[..|tasks|] == tasks;
      ghost var quotas := typeNumMap;
      for i := 0 to |pods|
        invariant DeleteList(ctx.pods, Redundant(pods[i..], typeNumMap), ctx.faults)
               == DeleteList(old(ctx.pods), Redundant(pods, quotas), ctx.faults)
      {
        var taskType := pods[i].meta.taskType;
        assert pods[i..][0] == pods[i] && pods[i..][1..] == pods[i + 1..];
        if Quota(typeNumMap, taskType) > 0 {
          typeNumMap := typeNumMap[taskType := typeNumMap[taskType] - 1];
        } else {
          ghost var rest := Redundant(pods[i + 1..], typeNumMap);
          assert Redundant(pods[i..], typeNumMap) == [pods[i]] + rest && ([pods[i]] + rest)[1..] == rest;
          var ok := ctx.DeletePod(pods[i]);
          if !ok {
            return ApiError;
          }
        }
      }
      err := NoError;
    }

    /** deleteFailedReplicas. */
    method DeleteFailedReplicas(job: Job, pods: seq<Pod>) returns (allReady: bool, err: Err)
      modifies ctx`pods
      ensures var failed := FailedPods(pods, job.spec.preemptible);
        var d := DeleteList(old(ctx.pods), failed, ctx.faults);
        && ctx.pods == d.store && (err == if d.ok then NoError else ApiError)
        && (allReady <==> failed == [])
    {
      var preemptible := job.spec.preemptible;
      allReady := true;
      for i := 0 to |pods|
        invariant DeleteList(ctx.pods, FailedPods(pods[i..], preemptible), ctx.faults)
               == DeleteList(old(ctx.pods), FailedPods(pods, preemptible), ctx.faults)
        invariant FailedPods(pods, preemptible) == [] <==> allReady && FailedPods(pods[i..], preemptible) == []
      {
        assert pods[i..][0] == pods[i] && pods[i..][1..] == pods[i + 1..];
        ghost var rest := FailedPods(pods[i + 1..], preemptible);
        if IsPodFailed(pods[i], preemptible) {
          assert FailedPods(pods[i..], preemptible) == [pods[i]] + rest && ([pods[i]] + rest)[1..] == rest;
          allReady := false;
          var ok := ctx.DeletePod(pods[i]);
          if !ok {
            return false, ApiError;
          }
        } else {
          assert FailedPods(pods[i..], preemptible) == [] + rest == rest;
        }
      }
      err := NoError;
    }

    /** findMaxGlobalRank. */
    method FindMaxGlobalRank(pods: seq<Pod>) returns (r: Option<nat>)
      ensures r == MaxRank(pods, 0)
    {
      var maxGlobalRank: nat := 0;
      for i := 0 to |pods|
        invariant MaxRank(pods[i..], maxGlobalRank) == MaxRank(pods, 0)
      {
        var globalRank := Atoi(pods[i].meta.rank);
        if globalRank.None? {
          return None;
        }
        if globalRank.value > maxGlobalRank {
          maxGlobalRank := globalRank.value;
        }
      }
      r := Some(maxGlobalRank);
    }

    /** The localTrace array of one task. */
    method TraceTask(pods: seq<Pod>, task: Task) returns (scan: Scan)
      ensures scan == ScanTask(pods, task.name, NoneTaken(task.replicas))
      ensures scan.Scanned? ==> |scan.taken| == task.replicas
    {
      var localTrace := new bool[task.replicas](_ => false);
      assert localTrace[..] == NoneTaken(task.replicas);
      for i := 0 to |pods|
        invariant ScanTask(pods[i..], task.name, localTrace[..]) == ScanTask(pods, task.name, NoneTaken(task.replicas))
      {
        if pods[i].meta.taskName == task.name {
          var localRank := Atoi(pods[i].meta.taskRank);
          if localRank.None? {
            return ScanError(NotANumber);
          }
          if localRank.value >= localTrace.Length {
            return ScanError(OutOfRange);
          }
          if localRank.value < 0 {
            return ScanError(Panic);
          }
          ghost var before := localTrace[..];
          localTrace[localRank.value] := true;
          assert localTrace[..] == before[localRank.value := true];
        }
      }
      scan := Scanned(localTrace[..]);
    }

    /** The creates of one task. */
    method CreateMissedOfTask(job: Job, pods: seq<Pod>, k: nat, taken: seq<bool>, rank: int) returns (next: int,
                              err: Err)
      requires k < |job.spec.tasks| && rank >= -1 && |taken| == job.spec.tasks[k].replicas
      modifies ctx`pods
      ensures next >= -1
      ensures var allocation := job.status.allocation;
        var all := Execute(old(ctx.pods), PlanRest(job.id, job.spec, pods, allocation, k, 0, taken, rank), ctx.faults);
        if err == NoError then
          Execute(ctx.pods, PlanFrom(job.id, job.spec, pods, allocation, k + 1, next), ctx.faults) == all
        else Executed(ctx.pods, err) == all
    {
      hide BuildPod, MaxRank, PlanFrom, PlanTask, PlanRest, Execute;
      var spec, allocation := job.spec, job.status.allocation;
      next := rank;
      ghost var all := Execute(old(ctx.pods), PlanRest(job.id, spec, pods, allocation, k, 0, taken, rank), ctx.faults);
      for i := 0 to |taken|
        invariant next >= -1
        invariant Execute(ctx.pods, PlanRest(job.id, spec, pods, allocation, k, i, taken, next), ctx.faults) == all
      {
        if taken[i] {
          PlanRestTaken(job.id, spec, pods, allocation, k, i, taken, next);
          continue;
        }
        var top: Option<int>;
        if next == -1 {
          var max := FindMaxGlobalRank(pods);
          top := match max case None => None case Some(m) => Some(m);
        } else {
          top := Some(next - 1);
        }
        if top.None? {
          RankError(job.id, spec, pods, allocation, k, i, taken, ctx.pods, ctx.faults);
          return next, NotANumber;
        }
        if next == -1 {
          RankKnown(job.id, spec, pods, allocation, k, i, taken, top.value);
        }
        next := top.value + 1;
        var pod := ctx.BuildPod(job.id, spec, next, allocation, k, i);
        if pod.None? {
          BuildError(job.id, spec, pods, allocation, k, i, taken, next, ctx.pods, ctx.faults);
          return next, Panic;
        }
        CreateStep(job.id, spec, pods, allocation, k, i, taken, next, ctx.pods, ctx.faults);
        var ok := ctx.CreatePod(pod.value);
        if !ok {
          return next, ApiError;
        }
        next := next + 1;
      }
      PlanRestDone(job.id, spec, pods, allocation, k, taken, next);
      err := NoError;
    }

    /** createMissedReplicas. */
    method CreateMissedReplicas(job: Job, pods: seq<Pod>) returns (err: Err)
      modifies ctx`pods
      ensures Executed(ctx.pods, err) ==
        CreateMissed(job.id, job.spec, pods, job.status.allocation, old(ctx.pods), ctx.faults)
    {
      hide PlanTask, PlanRest, ScanTask, Execute;
      var spec, allocation := job.spec, job.status.allocation;
      ghost var all := CreateMissed(job.id, spec, pods, allocation, ctx.pods, ctx.faults);
      var nextGlobalRank := -1;
      for k := 0 to |spec.tasks|
        invariant nextGlobalRank >= -1
        invariant Execute(ctx.pods, PlanFrom(job.id, spec, pods, allocation, k, nextGlobalRank), ctx.faults) == all
      {
        var scan := TraceTask(pods, spec.tasks[k]);
        ScanStep(job.id, spec, pods, allocation, k, nextGlobalRank, ctx.pods, ctx.faults);
        if scan.ScanError? {
          return scan.err;
        }
        nextGlobalRank, err := CreateMissedOfTask(job, pods, k, scan.taken, nextGlobalRank);
        if err != NoError {
          return;
        }
      }
      PlanEnd(job.id, spec, pods, allocation, nextGlobalRank, ctx.pods, ctx.faults);
      err := NoError;
    }

    /** detectReschedule. */
    method DetectRescheduleLoop(job: Job, pods: seq<Pod>) returns (d: Detection)
      ensures d == DetectReschedule(job.spec, pods, job.status.allocation)
    {
      var allocation := job.status.allocation;
      if !job.spec.preemptible {
        var replicas := C.CountReplicas(job.spec.tasks);
        return if |pods| != replicas then Reschedule else Keep;
      }
      for i := 0 to |pods|
        invariant DetectMoved(pods[i..], allocation) == DetectMoved(pods, allocation)
      {
        var areplicas := Atoi(pods[i].meta.replicas);
        if areplicas.None? {
          return Reschedule;
        }
        var rank := Atoi(pods[i].meta.rank);
        if rank.None? {
          return Reschedule;
        }
        if areplicas.value != |allocation| {
          return Reschedule;
        }
        if !(0 <= rank.value < |allocation|) {
          return IndexPanic;
        }
        if pods[i].meta.node != allocation[rank.value] {
          return Reschedule;
        }
      }
      d := Keep;
    }

    /** checkPodsCompletion. */
    method CheckPodsCompletion(job: Job, pods: seq<Pod>) returns (done: bool)
      modifies job`status
      ensures match CheckCompletion(job.spec, old(job.status), pods)
        case Some(st) => done && job.status == st
        case None => !done && job.status == old(job.status)
    {
      var succeeded, failed := CountCompletedPods(pods, job.spec.preemptible);
      if succeeded != 0 && succeeded == |pods| {
        UpdateJobStatus(job, Succeeded, "JobSucceeded");
        return true;
      }
      if failed != 0 {
        UpdateJobStatusByBackoffLimit(job);
        return true;
      }
      done := false;
    }

    /** updateStatusReplicas. */
    method UpdateStatusReplicas(job: Job, pods: seq<Pod>)
      modifies job`status
      ensures job.status == UpdateReplicas(job.spec, old(job.status), pods)
    {
      var st := job.status;
      var ready := CountReadyPods(pods);
      if job.spec.preemptible {
        if |st.allocation| != 0 {
          job.status := st.(replicas := Int32(|st.allocation|), readyReplicas := Int32(ready));
        } else {
          job.status := st.(allocation := [], replicas := 0, readyReplicas := 0);
        }
      } else {
        var replicas := C.CountReplicas(job.spec.tasks);
        var taskStatus := CountTaskStatus(pods);
        job.status := st.(replicas := Int32(replicas), readyReplicas := Int32(ready), taskStatus := taskStatus);
      }
    }

    // ---- the phase switch

    method InPending(job: Job, totalPods: seq<Pod>) returns (err: Err)
      modifies ctx`pods, job`status
      ensures Outcome(ctx.pods, job.status, err)
           == ReconcilePending(job.id, job.spec, old(job.status), totalPods, old(ctx.pods), ctx.faults)
    {
      hide BuildAndCreate, Enter, DeleteEach;
      var replicas := C.CountReplicas(job.spec.tasks);
      var pods := LivePods(totalPods);
      err := NoError;
      if replicas == 0 {
        return;
      }
      if |totalPods| == 0 {
        err := BuildAndCreatePods(job);
      } else if |pods| == replicas {
        EnterIs(job.status, Starting);
        UpdateJobStatus(job, Starting, "JobStarting");
      } else if |pods| != |totalPods| {
        var _ := ctx.DeletePods(totalPods);
      }
    }

    method InStarting(job: Job, pods: seq<Pod>) returns (err: Err)
      modifies job`status
      ensures Outcome(ctx.pods, job.status, err) == ReconcileStarting(job.spec, old(job.status), pods, ctx.pods)
    {
      hide Enter, CheckCompletion, DetectReschedule;
      var replicas := C.CountReplicas(job.spec.tasks);
      var done := CheckPodsCompletion(job, pods);
      if done {
        return NoError;
      }
      EnterIs(job.status, Rescheduling);
      EnterIs(job.status, Running);
      var scheduled := CountScheduledPods(pods);
      var detected := Keep;
      if scheduled != replicas {
        detected := DetectRescheduleLoop(job, pods);
      }
      if detected == IndexPanic {
        return Panic;
      }
      if detected == Reschedule {
        UpdateJobStatus(job, Rescheduling, "JobRescheduling");
      } else {
        var ready := CountReadyPods(pods);
        if ready == replicas {
          UpdateJobStatus(job, Running, "JobRunning");
        }
      }
      err := NoError;
    }

    method InRunning(job: Job, pods: seq<Pod>) returns (err: Err)
      modifies job`status
      ensures Outcome(ctx.pods, job.status, err) == ReconcileRunning(job.spec, old(job.status), pods, ctx.pods)
    {
      hide Enter, CheckCompletion, DetectReschedule;
      var done := CheckPodsCompletion(job, pods);
      if done {
        return NoError;
      }
      EnterIs(job.status, Rescheduling);
      var detected := DetectRescheduleLoop(job, pods);
      if detected == IndexPanic {
        return Panic;
      }
      if detected == Reschedule {
        UpdateJobStatus(job, Rescheduling, "JobRescheduling");
      }
      err := NoError;
    }

    method InRestarting(job: Job, pods: seq<Pod>) returns (err: Err)
      modifies ctx`pods, job`status
      ensures Outcome(ctx.pods, job.status, err)
           == ReconcileRestarting(job.id, job.spec, old(job.status), pods, old(ctx.pods), ctx.faults)
    {
      hide Enter, CreateMissed, Redundant, Quotas, FailedPods;
      var replicas := C.CountReplicas(job.spec.tasks);
      if |pods| > replicas {
        err := DeleteRedundantReplicas(job, pods);
      } else if |pods| < replicas {
        err := CreateMissedReplicas(job, pods);
      } else {
        EnterIs(job.status, Starting);
        var allReady;
        allReady, err := DeleteFailedReplicas(job, pods);
        if err != NoError {
          return;
        }
        if allReady {
          UpdateJobStatus(job, Starting, "JobStarting");
        }
      }
    }

    method InRescheduling(job: Job, totalPods: seq<Pod>) returns (err: Err)
      modifies ctx`pods, job`status
      ensures Outcome(ctx.pods, job.status, err)
           == ReconcileRescheduling(job.id, job.spec, old(job.status), totalPods, old(ctx.pods), ctx.faults)
    {
      hide Enter, CreateMissed, Redundant, Quotas, DeleteEach, DeleteList, BuildAndCreate;
      var replicas := C.CountReplicas(job.spec.tasks);
      var pods := LivePods(totalPods);
      err := NoError;
      if job.spec.preemptible {
        if |pods| != 0 {
          var _ := ctx.DeletePods(pods);
        } else {
          err := BuildAndCreatePods(job);
          if err != NoError {
            return;
          }
          EnterIs(job.status, Starting);
          UpdateJobStatus(job, Starting, "JobStarting");
        }
      } else if |pods| > replicas {
        err := DeleteRedundantReplicas(job, pods);
      } else if |pods| < replicas {
        var _ := ctx.DeletePods(TerminatingPods(totalPods));
        err := CreateMissedReplicas(job, pods);
      } else {
        EnterIs(job.status, Starting);
        EnterIs(job.status, Pending);
        if replicas == 0 {
          UpdateJobStatus(job, Pending, "JobPending");
        } else {
          UpdateJobStatus(job, Starting, "JobStarting");
        }
      }
    }

    /** reconcileWithJobStatus. */
    method ReconcileWithJobStatus(job: Job, totalPods: seq<Pod>) returns (err: Err)
      modifies ctx`pods, job`status
      ensures Outcome(ctx.pods, job.status, err)
           == ReconcilePhase(job.id, job.spec, old(job.status), totalPods, old(ctx.pods), ctx.faults)
    {
      hide ReconcilePending, ReconcileStarting, ReconcileRunning, ReconcileRestarting, ReconcileRescheduling,
        UpdateReplicas, LivePods;
      UpdateStatusReplicas(job, totalPods);
      var pods := LivePods(totalPods);
      match job.status.phase
      case Pending => err := InPending(job, totalPods);
      case Starting => err := InStarting(job, pods);
      case Running => err := InRunning(job, pods);
      case Restarting => err := InRestarting(job, pods);
      case Rescheduling => err := InRescheduling(job, totalPods);
      case _ => err := NoError;
    }
  }

  lemma EnterIs(st: Status, phase: Phase)
    ensures Enter(st, phase) == SetPhase(st, phase, Reason(phase))
  {
  }

  // ---- one step of createMissedReplicas

  lemma ScanStep(id: JobId, spec: Spec, pods: seq<Pod>, allocation: seq<string>, k: nat, next: int, s: Store, f: Faults)
    requires k < |spec.tasks| && next >= -1
    ensures var all := Execute(s, PlanFrom(id, spec, pods, allocation, k, next), f);
      var scan := ScanTask(pods, spec.tasks[k].name, NoneTaken(spec.tasks[k].replicas));
      if scan.ScanError? then all == Executed(s, scan.err)
      else all == Execute(s, PlanRest(id, spec, pods, allocation, k, 0, scan.taken, next), f)
  {
    hide PlanTask, ScanTask;
  }

  lemma PlanEnd(id: JobId, spec: Spec, pods: seq<Pod>, allocation: seq<string>, next: int, s: Store, f: Faults)
    requires next >= -1
    ensures Execute(s, PlanFrom(id, spec, pods, allocation, |spec.tasks|, next), f) == Executed(s, NoError)
  {
  }

  lemma RankError(id: JobId, spec: Spec, pods: seq<Pod>, allocation: seq<string>,
                  k: nat, i: nat, taken: seq<bool>, s: Store, f: Faults)
    requires k < |spec.tasks| && i < |taken| && !taken[i] && MaxRank(pods, 0).None?
    ensures Execute(s, PlanRest(id, spec, pods, allocation, k, i, taken, -1), f) == Executed(s, NotANumber)
  {
    hide BuildPod, MaxRank;
  }

  lemma RankKnown(id: JobId, spec: Spec, pods: seq<Pod>, allocation: seq<string>,
                  k: nat, i: nat, taken: seq<bool>, top: int)
    requires k < |spec.tasks| && i < |taken| && !taken[i]
    requires MaxRank(pods, 0).Some? && MaxRank(pods, 0).value == top
    ensures PlanRest(id, spec, pods, allocation, k, i, taken, -1) ==
      PlanRest(id, spec, pods, allocation, k, i, taken, top + 1)
  {
    hide BuildPod, MaxRank, PlanFrom;
  }

  lemma CreateStep(id: JobId, spec: Spec, pods: seq<Pod>, allocation: seq<string>,
                   k: nat, i: nat, taken: seq<bool>, next: int, s: Store, f: Faults)
    requires k < |spec.tasks| && i < |taken| && !taken[i] && next >= 0
    requires BuildPod(id, spec, next, allocation, Slot(k, i)).Some?
    ensures var d := CreateOne(s, BuildPod(id, spec, next, allocation, Slot(k, i)).value, f);
      Execute(s, PlanRest(id, spec, pods, allocation, k, i, taken, next), f) ==
        if d.ok then Execute(d.store, PlanRest(id, spec, pods, allocation, k, i + 1, taken, next + 1), f)
        else Executed(d.store, ApiError)
  {
    hide BuildPod, PlanFrom, CreateOne;
    var p := BuildPod(id, spec, next, allocation, Slot(k, i)).value;
    var here := PlanTask(id, spec, pods, allocation, k, i + 1, taken, next + 1);
    var rest := PlanRest(id, spec, pods, allocation, k, i + 1, taken, next + 1);
    if here.err == NoError {
      var later := PlanFrom(id, spec, pods, allocation, k + 1, here.next);
      assert [p] + here.creates + later.creates == [p] + (here.creates + later.creates);
    }
    var all := PlanRest(id, spec, pods, allocation, k, i, taken, next);
    assert all.creates == [p] + rest.creates && all.creates[1..] == rest.creates && all.err == rest.err;
  }

  lemma BuildError(id: JobId, spec: Spec, pods: seq<Pod>, allocation: seq<string>,
                   k: nat, i: nat, taken: seq<bool>, next: int, s: Store, f: Faults)
    requires k < |spec.tasks| && i < |taken| && !taken[i] && next >= 0
    requires BuildPod(id, spec, next, allocation, Slot(k, i)).None?
    ensures Execute(s, PlanRest(id, spec, pods, allocation, k, i, taken, next), f) == Executed(s, Panic)
  {
    hide BuildPod, MaxRank;
  }
}
