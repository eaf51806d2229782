/** createMissedReplicas: what it creates, when it gives up, and what is complete
    once it reports success. */
module Missed {
  import opened Wrappers
  import opened Api
  import opened Util
  import opened Pods
  import opened Cluster
  import opened Replicas
  import opened Uniqueness
  import opened Validator
  import opened Building

  /** The slots, in order, whose name is not among `held`. */
  function Unfilled(id: JobId, tasks: seq<Task>, slots: seq<Slot>, held: set<string>): (r: seq<Slot>)
    requires forall s | s in slots :: s.task < |tasks|
    ensures forall s :: s in r <==> s in slots && SlotName(id, tasks, s) !in held
    ensures |r| <= |slots|
  {
    if slots == [] then []
    else
      (if SlotName(id, tasks, slots[0]) in held then [] else [slots[0]]) + Unfilled(id, tasks, slots[1..], held)
  }

  /** The slots of the spec that no pod of the given names stands for. */
  function FreeSlots(id: JobId, tasks: seq<Task>, held: set<string>): (r: seq<Slot>)
    ensures forall s | s in r :: InSpec(tasks, s) && SlotName(id, tasks, s) !in held
  {
    SlotsInSpec(tasks);
    Unfilled(id, tasks, Slots(tasks), held)
  }

  /** The pod's local rank fits the task it belongs to, if the spec has that task. */
  predicate InRange(tasks: seq<Task>, p: Pod) {
    forall k | 0 <= k < |tasks| && tasks[k].name == p.meta.taskName :: LocalRankOf(p) < tasks[k].replicas
  }

  ghost predicate AllBuilt(id: JobId, pods: seq<Pod>) { forall p | p in pods :: Built(id, p) }

  ghost predicate AllInRange(tasks: seq<Task>, pods: seq<Pod>) { forall p | p in pods :: InRange(tasks, p) }

  // ---- the scan of one task

  lemma OccupiesIff(id: JobId, tasks: seq<Task>, p: Pod, s: Slot)
    requires Built(id, p) && s.task < |tasks|
    ensures p.meta.name == SlotName(id, tasks, s) <==>
      p.meta.taskName == tasks[s.task].name && LocalRankOf(p) == s.local
  {
    if p.meta.name == SlotName(id, tasks, s) {
      ReplicaNameInjective(id.name, p.meta.taskName, LocalRankOf(p), tasks[s.task].name, s.local);
    }
  }

  lemma {:induction false} ScanSpec(id: JobId, tasks: seq<Task>, k: nat, pods: seq<Pod>, taken: seq<bool>)
    requires k < |tasks| && AllBuilt(id, pods)
    ensures match ScanTask(pods, tasks[k].name, taken)
      case ScanError(e) =>
        e == OutOfRange && exists p | p in pods :: p.meta.taskName == tasks[k].name && LocalRankOf(p) >= |taken|
      case Scanned(t) =>
        && |t| == |taken|
        && (forall j | 0 <= j < |t| :: t[j] <==> taken[j] || SlotName(id, tasks, Slot(k, j)) in Names(pods))
        && (forall p | p in pods :: p.meta.taskName == tasks[k].name ==> LocalRankOf(p) < |taken|)
  {
    if pods == [] {
      return;
    }
    var p := pods[0];
    assert p in pods;
    assert pods == [p] + pods[1..];
    assert Names(pods) == {p.meta.name} + Names(pods[1..]);
    hide SlotName;
    forall j | 0 <= j < |taken|
      ensures SlotName(id, tasks, Slot(k, j)) == p.meta.name <==>
        p.meta.taskName == tasks[k].name && LocalRankOf(p) == j
    {
      OccupiesIff(id, tasks, p, Slot(k, j));
    }
    if p.meta.taskName != tasks[k].name {
      ScanSpec(id, tasks, k, pods[1..], taken);
    } else if LocalRankOf(p) < |taken| {
      ScanSpec(id, tasks, k, pods[1..], taken[LocalRankOf(p) := true]);
    }
  }

  // ---- the plan is buildAndCreatePods on the unfilled slots

  /** The rest of the plan from slot (k, i) on. */
  function PlanRest(id: JobId, spec: Spec, pods: seq<Pod>, allocation: seq<string>,
                    k: nat, i: nat, taken: seq<bool>, next: int): Plan
    requires k < |spec.tasks| && i <= |taken| && next >= -1
  {
    var here := PlanTask(id, spec, pods, allocation, k, i, taken, next);
    if here.err != NoError then here
    else
      var rest := PlanFrom(id, spec, pods, allocation, k + 1, here.next);
      Plan(here.creates + rest.creates, rest.next, rest.err)
  }

  /** Pods built for some slots in order, up to the first index panic. */
  datatype Batch = Batch(pods: seq<Pod>, panics: bool)

  function BuildUntil(id: JobId, spec: Spec, allocation: seq<string>, slots: seq<Slot>, rank: nat): Batch
    requires forall s | s in slots :: s.task < |spec.tasks|
  {
    if slots == [] then Batch([], false)
    else match BuildPod(id, spec, rank, allocation, slots[0])
      case None => Batch([], true)
      case Some(p) =>
        var rest := BuildUntil(id, spec, allocation, slots[1..], rank + 1);
        Batch([p] + rest.pods, rest.panics)
  }

  /** How many of n ranks from `rank` on the allocation lets BuildPod take. */
  function Fitting(spec: Spec, allocation: seq<string>, rank: nat, n: nat): (k: nat)
    ensures k <= n
  {
    if spec.preemptible && rank <= |allocation| < rank + n then |allocation| - rank else n
  }

  lemma {:induction false} BuildUntilSpec(id: JobId, spec: Spec, allocation: seq<string>, slots: seq<Slot>, rank: nat)
    requires forall s | s in slots :: s.task < |spec.tasks|
    ensures var n := Fitting(spec, allocation, rank, |slots|);
      var built := BuildFrom(id, spec, allocation, slots[..n], rank);
      built.Some? && BuildUntil(id, spec, allocation, slots, rank) == Batch(built.value, n < |slots|)
  {
    hide BuildPod;
    if slots != [] {
      BuildPodNone(id, spec, rank, allocation, slots[0]);
      var n := Fitting(spec, allocation, rank, |slots|);
      if n > 0 {
        BuildUntilSpec(id, spec, allocation, slots[1..], rank + 1);
        assert slots[..n][0] == slots[0] && slots[..n][1..] == slots[1..][..n - 1];
      }
    }
  }

  ghost predicate SameAs(plan: Plan, batch: Batch) {
    plan.creates == batch.pods && plan.err == if batch.panics then Panic else NoError
  }

  lemma PlanRestTaken(id: JobId, spec: Spec, pods: seq<Pod>, allocation: seq<string>,
                      k: nat, i: nat, taken: seq<bool>, next: int)
    requires k < |spec.tasks| && i < |taken| && next >= -1 && taken[i]
    ensures PlanRest(id, spec, pods, allocation, k, i, taken, next) ==
      PlanRest(id, spec, pods, allocation, k, i + 1, taken, next)
  {
  }

  lemma PlanRestFree(id: JobId, spec: Spec, pods: seq<Pod>, allocation: seq<string>,
                     k: nat, i: nat, taken: seq<bool>, next: int, top: nat)
    requires k < |spec.tasks| && i < |taken| && (next == -1 || next >= 1) && !taken[i]
    requires MaxRank(pods, 0) == Some(top)
    ensures var plan := PlanRest(id, spec, pods, allocation, k, i, taken, next);
      match BuildPod(id, spec, Base(top, next), allocation, Slot(k, i))
      case None => plan.err == Panic && plan.creates == []
      case Some(p) =>
        var rest := PlanRest(id, spec, pods, allocation, k, i + 1, taken, Base(top, next) + 1);
        plan.err == rest.err && plan.creates == [p] + rest.creates
  {
    hide BuildPod, PlanFrom;
    var built := BuildPod(id, spec, Base(top, next), allocation, Slot(k, i));
    if built.Some? {
      var here := PlanTask(id, spec, pods, allocation, k, i + 1, taken, Base(top, next) + 1);
      if here.err == NoError {
        var rest := PlanFrom(id, spec, pods, allocation, k + 1, here.next);
        assert [built.value] + here.creates + rest.creates == [built.value] + (here.creates + rest.creates);
      }
    }
  }

  lemma PlanRestDone(id: JobId, spec: Spec, pods: seq<Pod>, allocation: seq<string>, k: nat, taken: seq<bool>,
                     next: int)
    requires k < |spec.tasks| && next >= -1
    ensures PlanRest(id, spec, pods, allocation, k, |taken|, taken, next) ==
      PlanFrom(id, spec, pods, allocation, k + 1, next)
  {
    hide PlanFrom;
    assert [] + PlanFrom(id, spec, pods, allocation, k + 1, next).creates == PlanFrom(id, spec, pods, allocation,
      k + 1, next).creates;
  }

  /** Moving one slot further in the enumeration. */
  lemma UnfilledNext(id: JobId, tasks: seq<Task>, k: nat, i: nat, held: set<string>)
    requires k < |tasks| && i < tasks[k].replicas
    requires forall s | s in SlotsFrom(tasks, k, i) :: s.task < |tasks|
    ensures forall s | s in SlotsFrom(tasks, k, i + 1) :: s.task < |tasks|
    ensures var rest := Unfilled(id, tasks, SlotsFrom(tasks, k, i + 1), held);
      Unfilled(id, tasks, SlotsFrom(tasks, k, i), held)
      == if SlotName(id, tasks, Slot(k, i)) in held then rest else [Slot(k, i)] + rest
  {
    hide SlotName;
    var slots := SlotsFrom(tasks, k, i);
    assert slots[0] == Slot(k, i) && slots[1..] == SlotsFrom(tasks, k, i + 1);
  }

  lemma SameAsCons(p: Pod, plan: Plan, rest: Plan, batch: Batch)
    requires SameAs(rest, batch)
    requires plan.err == rest.err && plan.creates == [p] + rest.creates
    ensures SameAs(plan, Batch([p] + batch.pods, batch.panics))
  {
  }

  lemma {:induction false} PlanRestIsBuild(id: JobId, spec: Spec, pods: seq<Pod>, allocation: seq<string>,
                                           k: nat, i: nat, taken: seq<bool>, next: int, top: nat)
    requires k < |spec.tasks| && i <= |taken| == spec.tasks[k].replicas && (next == -1 || next >= 1)
    requires AllBuilt(id, pods) && AllInRange(spec.tasks, pods) && MaxRank(pods, 0) == Some(top)
    requires forall j | 0 <= j < |taken| :: taken[j] <==> SlotName(id, spec.tasks, Slot(k, j)) in Names(pods)
    requires forall s | s in SlotsFrom(spec.tasks, k, i) :: s.task < |spec.tasks|
    ensures SameAs(
      PlanRest(id, spec, pods, allocation, k, i, taken, next),
      BuildUntil(id, spec, allocation,
        Unfilled(id, spec.tasks, SlotsFrom(spec.tasks, k, i), Names(pods)), Base(top, next)))
    decreases |spec.tasks| - k, |taken| - i
  {
    hide BuildPod, SlotName, MaxRank, AllInRange, AllBuilt, PlanRest, PlanFrom, Unfilled, Names, SameAs, SlotsFrom,
      BuildUntil;
    var tasks := spec.tasks;
    var held := Names(pods);
    if i == |taken| {
      SlotsNext(tasks, k);
      PlanRestDone(id, spec, pods, allocation, k, taken, next);
      PlanFromIsBuild(id, spec, pods, allocation, k + 1, next, top);
      return;
    }
    UnfilledNext(id, tasks, k, i, held);
    if taken[i] {
      PlanRestTaken(id, spec, pods, allocation, k, i, taken, next);
      PlanRestIsBuild(id, spec, pods, allocation, k, i + 1, taken, next, top);
    } else {
      var rank := Base(top, next);
      var rest := Unfilled(id, tasks, SlotsFrom(tasks, k, i + 1), held);
      BuildFirst(id, spec, allocation, Slot(k, i), rest, rank);
      PlanRestFree(id, spec, pods, allocation, k, i, taken, next, top);
      match BuildPod(id, spec, rank, allocation, Slot(k, i))
      case None => FailedBuild(PlanRest(id, spec, pods, allocation, k, i, taken, next));
      case Some(p) =>
        PlanRestIsBuild(id, spec, pods, allocation, k, i + 1, taken, rank + 1, top);
        SameAsCons(p, PlanRest(id, spec, pods, allocation, k, i, taken, next),
                   PlanRest(id, spec, pods, allocation, k, i + 1, taken, rank + 1),
                   BuildUntil(id, spec, allocation, rest, rank + 1));
    }
  }

  lemma SlotsNext(tasks: seq<Task>, k: nat)
    requires k < |tasks|
    ensures SlotsFrom(tasks, k, tasks[k].replicas) == SlotsFrom(tasks, k + 1, 0)
  {
  }

  lemma BuildFirst(id: JobId, spec: Spec, allocation: seq<string>, s: Slot, rest: seq<Slot>, rank: nat)
    requires s.task < |spec.tasks| && forall t | t in rest :: t.task < |spec.tasks|
    ensures BuildUntil(id, spec, allocation, [s] + rest, rank) ==
      match BuildPod(id, spec, rank, allocation, s)
      case None => Batch([], true)
      case Some(p) =>
        var later := BuildUntil(id, spec, allocation, rest, rank + 1);
        Batch([p] + later.pods, later.panics)
  {
    hide BuildPod;
    assert ([s] + rest)[1..] == rest;
  }

  lemma FailedBuild(plan: Plan)
    requires plan.err == Panic && plan.creates == []
    ensures SameAs(plan, Batch([], true))
  {
  }

  lemma {:induction false} PlanFromIsBuild(id: JobId, spec: Spec, pods: seq<Pod>, allocation: seq<string>,
                                           k: nat, next: int, top: nat)
    requires k <= |spec.tasks| && (next == -1 || next >= 1)
    requires AllBuilt(id, pods) && AllInRange(spec.tasks, pods) && MaxRank(pods, 0) == Some(top)
    requires forall s | s in SlotsFrom(spec.tasks, k, 0) :: s.task < |spec.tasks|
    ensures SameAs(
      PlanFrom(id, spec, pods, allocation, k, next),
      BuildUntil(id, spec, allocation,
        Unfilled(id, spec.tasks, SlotsFrom(spec.tasks, k, 0), Names(pods)), Base(top, next)))
    decreases |spec.tasks| - k, if k < |spec.tasks| then spec.tasks[k].replicas + 1 else 0
  {
    hide BuildPod, SlotName, MaxRank, AllBuilt;
    if k < |spec.tasks| {
      ScanSpec(id, spec.tasks, k, pods, NoneTaken(spec.tasks[k].replicas));
      var taken := ScanTask(pods, spec.tasks[k].name, NoneTaken(spec.tasks[k].replicas)).taken;
      assert PlanFrom(id, spec, pods, allocation, k, next) == PlanRest(id, spec, pods, allocation, k, 0, taken, next);
      PlanRestIsBuild(id, spec, pods, allocation, k, 0, taken, next, top);
    }
  }

  lemma FreeSlotsInSpec(id: JobId, tasks: seq<Task>, held: set<string>)
    ensures forall s | s in FreeSlots(id, tasks, held) :: s.task < |tasks|
  {
  }

  /** With every listed pod in range, createMissedReplicas builds the free slots in
      order, with the ranks that follow the highest one in use, and panics after
      those that fit if not all do. */
  lemma MissedPlanIsBuild(id: JobId, spec: Spec, pods: seq<Pod>, allocation: seq<string>, top: nat)
    requires AllBuilt(id, pods) && AllInRange(spec.tasks, pods) && MaxRank(pods, 0) == Some(top)
    ensures var plan, free := MissedPlan(id, spec, pods, allocation), FreeSlots(id, spec.tasks, Names(pods));
      var n := Fitting(spec, allocation, top + 1, |free|);
      && (forall s | s in free[..n] :: s.task < |spec.tasks|)
      && BuildFrom(id, spec, allocation, free[..n], top + 1) == Some(plan.creates)
      && plan.err == if n < |free| then Panic else NoError
  {
    hide AllBuilt, AllInRange, MaxRank, PlanFrom, BuildFrom, BuildUntil, SlotName, Fitting;
    SlotsInSpec(spec.tasks);
    assert Slots(spec.tasks) == SlotsFrom(spec.tasks, 0, 0);
    PlanFromIsBuild(id, spec, pods, allocation, 0, -1, top);
    BuildUntilSpec(id, spec, allocation, FreeSlots(id, spec.tasks, Names(pods)), top + 1);
  }

  // ---- when it gives up

  lemma {:induction false} PlanTaskNoPanic(id: JobId, spec: Spec, pods: seq<Pod>, allocation: seq<string>,
                                           k: nat, i: nat, taken: seq<bool>, next: int)
    requires k < |spec.tasks| && i <= |taken| && next >= -1
    requires !spec.preemptible && MaxRank(pods, 0).Some?
    ensures PlanTask(id, spec, pods, allocation, k, i, taken, next).err == NoError
    decreases |taken| - i
  {
    if i < |taken| {
      if taken[i] {
        PlanTaskNoPanic(id, spec, pods, allocation, k, i + 1, taken, next);
      } else {
        var top := if next == -1 then MaxRank(pods, 0) else Some(next - 1);
        BuildPodNone(id, spec, top.value + 1, allocation, Slot(k, i));
        PlanTaskNoPanic(id, spec, pods, allocation, k, i + 1, taken, top.value + 2);
      }
    }
  }

  lemma {:induction false} PlanFromErr(id: JobId, spec: Spec, pods: seq<Pod>, allocation: seq<string>, k: nat,
                                       next: int)
    requires k <= |spec.tasks| && next >= -1
    requires !spec.preemptible && MaxRank(pods, 0).Some? && AllBuilt(id, pods)
    ensures PlanFrom(id, spec, pods, allocation, k, next).err ==
      if forall p, l | p in pods && k <= l < |spec.tasks| && spec.tasks[l].name == p.meta.taskName ::
           LocalRankOf(p) < spec.tasks[l].replicas
      then NoError else OutOfRange
    decreases |spec.tasks| - k
  {
    hide BuildPod, SlotName, MaxRank, AllBuilt, PlanTask, LocalRankOf;
    if k < |spec.tasks| {
      ScanSpec(id, spec.tasks, k, pods, NoneTaken(spec.tasks[k].replicas));
      var scan := ScanTask(pods, spec.tasks[k].name, NoneTaken(spec.tasks[k].replicas));
      if scan.Scanned? {
        PlanTaskNoPanic(id, spec, pods, allocation, k, 0, scan.taken, next);
        var here := PlanTask(id, spec, pods, allocation, k, 0, scan.taken, next);
        PlanFromErr(id, spec, pods, allocation, k + 1, here.next);
      }
    }
  }

  /** For a job that is not preemptible, the error after all creates succeed is
      OutOfRange exactly when some live pod's local rank no longer fits its task. */
  lemma MissedErrIff(id: JobId, spec: Spec, pods: seq<Pod>, allocation: seq<string>)
    requires !spec.preemptible && AllBuilt(id, pods)
    ensures MissedPlan(id, spec, pods, allocation).err == if AllInRange(spec.tasks, pods) then NoError else OutOfRange
  {
    MaxRankBounds(pods, 0);
    PlanFromErr(id, spec, pods, allocation, 0, -1);
  }

  /** For a preemptible job the replacement ranks run past the highest rank in
      use: creating panics exactly when they reach the length of the allocation. */
  lemma MissedPanicIff(id: JobId, spec: Spec, pods: seq<Pod>, allocation: seq<string>, top: nat)
    requires spec.preemptible && AllBuilt(id, pods) && AllInRange(spec.tasks, pods)
    requires MaxRank(pods, 0) == Some(top)
    ensures var missing := |FreeSlots(id, spec.tasks, Names(pods))|;
      MissedPlan(id, spec, pods, allocation).err == if top < |allocation| <= top + missing then Panic else NoError
  {
    hide AllBuilt, AllInRange, MaxRank, MissedPlan, FreeSlots;
    MissedPlanIsBuild(id, spec, pods, allocation, top);
  }

  /** Whether BuildPod takes the `missing` ranks above `top`: for a preemptible job
      they must stay inside the allocation, or lie beyond it from the start. */
  predicate RoomFor(spec: Spec, allocation: seq<string>, top: nat, missing: nat) {
    !spec.preemptible || |allocation| <= top || top + missing < |allocation|
  }

  ghost predicate Room(id: JobId, spec: Spec, pods: seq<Pod>, allocation: seq<string>) {
    match MaxRank(pods, 0)
    case None => false
    case Some(top) => RoomFor(spec, allocation, top, |FreeSlots(id, spec.tasks, Names(pods))|)
  }

  /** With every listed pod in range, creating can only fail for lack of room. */
  lemma MissedRoom(id: JobId, spec: Spec, pods: seq<Pod>, allocation: seq<string>)
    requires AllBuilt(id, pods) && AllInRange(spec.tasks, pods)
    ensures MissedPlan(id, spec, pods, allocation).err == if Room(id, spec, pods, allocation) then NoError else Panic
  {
    hide AllBuilt, AllInRange, MissedPlan, FreeSlots, MaxRank;
    RanksBounded(id, pods);
    if spec.preemptible {
      MissedPanicIff(id, spec, pods, allocation, MaxRank(pods, 0).value);
    } else {
      MissedErrIff(id, spec, pods, allocation);
    }
  }

  // ---- what success means

  lemma {:induction false} NoErrorInRange(id: JobId, spec: Spec, pods: seq<Pod>, allocation: seq<string>, k: nat,
                                          next: int)
    requires k <= |spec.tasks| && next >= -1 && AllBuilt(id, pods)
    requires PlanFrom(id, spec, pods, allocation, k, next).err == NoError
    ensures forall p, l | p in pods && k <= l < |spec.tasks| && spec.tasks[l].name == p.meta.taskName ::
      LocalRankOf(p) < spec.tasks[l].replicas
    decreases |spec.tasks| - k
  {
    hide BuildPod, SlotName, AllBuilt, PlanTask, LocalRankOf;
    if k < |spec.tasks| {
      ScanSpec(id, spec.tasks, k, pods, NoneTaken(spec.tasks[k].replicas));
      var taken := ScanTask(pods, spec.tasks[k].name, NoneTaken(spec.tasks[k].replicas)).taken;
      NoErrorInRange(id, spec, pods, allocation, k + 1, PlanTask(id, spec, pods, allocation, k, 0, taken, next).next);
    }
  }

  lemma BuiltNames(id: JobId, spec: Spec, allocation: seq<string>, slots: seq<Slot>, rank: nat)
    requires forall s | s in slots :: s.task < |spec.tasks|
    requires BuildFrom(id, spec, allocation, slots, rank).Some?
    ensures forall n ::
      (n in Names(BuildFrom(id, spec, allocation, slots, rank).value)
       <==> exists s | s in slots :: SlotName(id, spec.tasks, s) == n)
  {
    hide BuildPod, SlotName;
    BuildFromSpec(id, spec, allocation, slots, rank);
    var pods := BuildFrom(id, spec, allocation, slots, rank).value;
    forall r | 0 <= r < |slots| ensures pods[r].meta.name == SlotName(id, spec.tasks, slots[r]) {
      BuildPodBuilt(id, spec, rank + r, allocation, slots[r]);
    }
    forall n | n in Names(pods) ensures exists s | s in slots :: SlotName(id, spec.tasks, s) == n {
      var r :| 0 <= r < |pods| && pods[r].meta.name == n;
      assert slots[r] in slots;
    }
    forall s | s in slots ensures SlotName(id, spec.tasks, s) in Names(pods) {
      var r :| 0 <= r < |slots| && slots[r] == s;
      assert pods[r] in pods;
    }
  }

  /** The plan of a createMissedReplicas that meets no error creates one pod for
      every name of the spec that no listed pod holds, with consecutive ranks
      above every rank in use. */
  lemma MissedPlanCreates(id: JobId, spec: Spec, pods: seq<Pod>, allocation: seq<string>)
    requires AllBuilt(id, pods) && MissedPlan(id, spec, pods, allocation).err == NoError
    ensures AllInRange(spec.tasks, pods)
    ensures Names(MissedPlan(id, spec, pods, allocation).creates) == SpecNames(id, spec.tasks) - Names(pods)
    ensures MaxRank(pods, 0).Some?
    ensures RankedFrom(id, MissedPlan(id, spec, pods, allocation).creates, MaxRank(pods, 0).value + 1)
    ensures forall p | p in pods :: RankOf(p) <= MaxRank(pods, 0).value
  {
    hide *;
    AllInRangeWhenNoError(id, spec, pods, allocation);
    RanksBounded(id, pods);
    var top := MaxRank(pods, 0).value;
    var free := FreeSlots(id, spec.tasks, Names(pods));
    FreeSlotNames(id, spec.tasks, Names(pods));
    FreeSlotsInSpec(id, spec.tasks, Names(pods));
    MissedPlanIsBuild(id, spec, pods, allocation, top);
    assert free[..|free|] == free;
    BuiltNames(id, spec, allocation, free, top + 1);
    BuildFromRanked(id, spec, allocation, free, top + 1);
  }

  lemma AllInRangeWhenNoError(id: JobId, spec: Spec, pods: seq<Pod>, allocation: seq<string>)
    requires AllBuilt(id, pods) && MissedPlan(id, spec, pods, allocation).err == NoError
    ensures AllInRange(spec.tasks, pods)
  {
    NoErrorInRange(id, spec, pods, allocation, 0, -1);
  }

  lemma RanksBounded(id: JobId, pods: seq<Pod>)
    requires AllBuilt(id, pods)
    ensures MaxRank(pods, 0).Some?
    ensures forall p | p in pods :: RankOf(p) <= MaxRank(pods, 0).value
  {
    MaxRankBounds(pods, 0);
  }

  lemma FreeSlotNames(id: JobId, tasks: seq<Task>, held: set<string>)
    ensures forall n ::
      ((exists s | s in FreeSlots(id, tasks, held) :: SlotName(id, tasks, s) == n) <==>
        n in SpecNames(id, tasks) - held)
  {
    hide SlotName;
    SlotsInSpec(tasks);
    forall n | n in SpecNames(id, tasks) - held
      ensures exists s | s in FreeSlots(id, tasks, held) :: SlotName(id, tasks, s) == n
    {
      var s :| s in Slots(tasks) && s.task < |tasks| && SlotName(id, tasks, s) == n;
      assert s in FreeSlots(id, tasks, held);
    }
  }

  lemma SpecNameInRange(id: JobId, tasks: seq<Task>, p: Pod)
    requires Built(id, p) && DistinctNames(tasks) && p.meta.name in SpecNames(id, tasks)
    ensures InRange(tasks, p)
  {
    SlotsPositions(tasks);
    var s :| s in Slots(tasks) && s.task < |tasks| && SlotName(id, tasks, s) == p.meta.name;
    assert InSpec(tasks, s);
    OccupiesIff(id, tasks, p, s);
  }

  ghost predicate DistinctSlots(slots: seq<Slot>) {
    forall i, j | 0 <= i < j < |slots| :: slots[i] != slots[j]
  }

  lemma {:induction false} UnfilledDistinct(id: JobId, tasks: seq<Task>, slots: seq<Slot>, held: set<string>)
    requires (forall s | s in slots :: s.task < |tasks|) && DistinctSlots(slots)
    ensures DistinctSlots(Unfilled(id, tasks, slots, held))
  {
    hide SlotName;
    if slots != [] {
      UnfilledDistinct(id, tasks, slots[1..], held);
      assert slots[0] !in slots[1..];
      var rest := Unfilled(id, tasks, slots[1..], held);
      if SlotName(id, tasks, slots[0]) in held {
        assert [] + rest == rest;
      } else {
        assert Unfilled(id, tasks, slots, held) == [slots[0]] + rest;
        assert forall j | 0 <= j < |rest| :: rest[j] in rest;
      }
    }
  }

  ghost predicate DistinctSlotNames(id: JobId, tasks: seq<Task>, slots: seq<Slot>) {
    && (forall i | 0 <= i < |slots| :: InSpec(tasks, slots[i]))
    && forall i, j | 0 <= i < j < |slots| :: SlotName(id, tasks, slots[i]) != SlotName(id, tasks, slots[j])
  }

  /** There is one free slot for every missing name. */
  lemma FreeSlotsDistinct(id: JobId, tasks: seq<Task>, held: set<string>)
    requires DistinctNames(tasks)
    ensures var free := FreeSlots(id, tasks, held);
      && DistinctSlotNames(id, tasks, free)
      && |free| == |SpecNames(id, tasks) - held|
  {
    hide SlotName, SpecNames, Unfilled, Slots, Position;
    SlotsBijection(tasks);
    var free := FreeSlots(id, tasks, held);
    UnfilledDistinct(id, tasks, Slots(tasks), held);
    forall i | 0 <= i < |free| ensures InSpec(tasks, free[i]) {
      assert free[i] in free;
    }
    assert DistinctSlots(free);
    forall i, j | 0 <= i < j < |free| ensures SlotName(id, tasks, free[i]) != SlotName(id, tasks, free[j]) {
      if SlotName(id, tasks, free[i]) == SlotName(id, tasks, free[j]) {
        SlotNameInjective(id, tasks, free[i], free[j]);
      }
    }
    PrefixNames(id, tasks, free);
    FreeSlotNames(id, tasks, held);
    assert (set s | s in free && s.task < |tasks| :: SlotName(id, tasks, s)) == SpecNames(id, tasks) - held;
  }

  lemma {:induction false} BuiltFresh(id: JobId, spec: Spec, allocation: seq<string>, slots: seq<Slot>, rank: nat)
    requires forall s | s in slots :: s.task < |spec.tasks|
    requires BuildFrom(id, spec, allocation, slots, rank).Some?
    ensures forall p | p in BuildFrom(id, spec, allocation, slots, rank).value :: p.status == FRESH_STATUS
  {
    if slots != [] {
      BuiltFresh(id, spec, allocation, slots[1..], rank + 1);
      BuildPodFresh(id, spec, rank, allocation, slots[0]);
      hide BuildPod;
    }
  }

  lemma BuildPodFresh(id: JobId, spec: Spec, rank: nat, allocation: seq<string>, s: Slot)
    requires s.task < |spec.tasks|
    ensures var p := BuildPod(id, spec, rank, allocation, s); p.Some? ==> p.value.status == FRESH_STATUS
  {
  }

  /** The pod carries the type of the task whose name it carries, if the spec has that task. */
  predicate LabelledPod(tasks: seq<Task>, p: Pod) {
    forall k | 0 <= k < |tasks| && tasks[k].name == p.meta.taskName :: tasks[k].taskType == p.meta.taskType
  }

  lemma BuildPodLabelled(id: JobId, spec: Spec, rank: nat, allocation: seq<string>, s: Slot)
    requires s.task < |spec.tasks| && DistinctNames(spec.tasks)
    ensures var p := BuildPod(id, spec, rank, allocation, s); p.Some? ==> LabelledPod(spec.tasks, p.value)
  {
  }

  lemma FreshFrom(id: JobId, spec: Spec, allocation: seq<string>, s: Store, slots: seq<Slot>, top: nat)
    requires DistinctNames(spec.tasks) && DistinctSlotNames(id, spec.tasks, slots)
    requires forall c | c in slots :: c.task < |spec.tasks| && SlotName(id, spec.tasks, c) !in s
    requires BuildFrom(id, spec, allocation, slots, top + 1).Some?
    ensures var pods := BuildFrom(id, spec, allocation, slots, top + 1).value;
      && |pods| == |slots| && FreshBatch(id, spec.tasks, s, pods, top)
      && forall i, j | 0 <= i < j < |pods| :: pods[i].meta.name != pods[j].meta.name
  {
    hide BuildPod, SlotName, SpecNames, BuildFrom, RankOf, LabelledPod;
    BuildFromSpec(id, spec, allocation, slots, top + 1);
    BuiltFresh(id, spec, allocation, slots, top + 1);
    var pods := BuildFrom(id, spec, allocation, slots, top + 1).value;
    forall i | 0 <= i < |pods|
      ensures pods[i].meta.name == SlotName(id, spec.tasks, slots[i]) && pods[i].meta.name in SpecNames(id, spec.tasks)
      ensures pods[i].meta.name !in s && IsPodLive(pods[i]) && RankOf(pods[i]) == top + 1 + i
      ensures LabelledPod(spec.tasks, pods[i])
    {
      BuildPodLabelled(id, spec, top + 1 + i, allocation, slots[i]);
      assert slots[i] in slots;
      BuildPodBuilt(id, spec, top + 1 + i, allocation, slots[i]);
      SpecNamesIff(id, spec.tasks, slots[i]);
    }
  }

  /** The pods that were created: of the missing names, live, unmodified, with the
      n ranks above top. */
  ghost predicate CreatedAbove(id: JobId, tasks: seq<Task>, s: Store, t: Store, top: nat, n: nat) {
    && (forall m | m in s :: m in t && t[m] == s[m])
    && |t| == |s| + n
    && (forall m | m in t && m !in s ::
          && m in SpecNames(id, tasks) && IsPodLive(t[m]) && t[m].status == FRESH_STATUS
          && t[m].meta.name == m && LabelledPod(tasks, t[m]) && top < RankOf(t[m]) <= top + n)
    && (n > 0 ==> exists m | m in t && m !in s :: RankOf(t[m]) == top + n)
  }

  ghost predicate FreshBatch(id: JobId, tasks: seq<Task>, s: Store, pods: seq<Pod>, top: nat) {
    forall i | 0 <= i < |pods| ::
      && pods[i].meta.name in SpecNames(id, tasks) && pods[i].meta.name !in s
      && IsPodLive(pods[i]) && pods[i].status == FRESH_STATUS && LabelledPod(tasks, pods[i])
      && RankOf(pods[i]) == top + 1 + i
  }

  lemma CreatedNext(id: JobId, tasks: seq<Task>, s: Store, t: Store, p: Pod, top: nat, n: nat)
    requires CreatedAbove(id, tasks, s, t, top, n) && p.meta.name !in t
    requires p.meta.name in SpecNames(id, tasks) && IsPodLive(p) && p.status == FRESH_STATUS
    requires LabelledPod(tasks, p) && RankOf(p) == top + n + 1
    ensures CreatedAbove(id, tasks, s, t[p.meta.name := p], top, n + 1)
  {
    hide RankOf, SpecNames, LabelledPod;
    var u := t[p.meta.name := p];
    assert u[p.meta.name] == p;
  }

  lemma {:induction false} CreateBatch(id: JobId, tasks: seq<Task>, s: Store, pods: seq<Pod>, top: nat, f: Faults)
    requires f.create == map[] && FreshBatch(id, tasks, s, pods, top)
    requires forall i, j | 0 <= i < j < |pods| :: pods[i].meta.name != pods[j].meta.name
    ensures CreatedAbove(id, tasks, s, CreateList(s, pods, f).store, top, |pods|)
    decreases |pods|
  {
    hide RankOf, SpecNames, IsPodLive, LabelledPod;
    if pods != [] {
      var init, last := pods[..|pods| - 1], pods[|pods| - 1];
      assert pods == init + [last];
      assert FreshBatch(id, tasks, s, init, top);
      assert last.meta.name !in s && RankOf(last) == top + |init| + 1;
      assert forall p | p in init :: p.meta.name != last.meta.name;
      assert last.meta.name in SpecNames(id, tasks) && IsPodLive(last) && last.status == FRESH_STATUS
        && LabelledPod(tasks, last);
      hide FreshBatch, CreateList, CreatedAbove;
      CreateBatch(id, tasks, s, init, top, f);
      CreateListSnoc(s, init, last, f);
      CreateListFrame(s, init, f);
      CreatedNext(id, tasks, s, CreateList(s, init, f).store, last, top, |init|);
    }
  }

  lemma {:induction false} CreateListSnoc(s: Store, init: seq<Pod>, last: Pod, f: Faults)
    requires f.create == map[]
    ensures CreateList(s, init + [last], f) == CreateOne(CreateList(s, init, f).store, last, f)
    decreases |init|
  {
    if init != [] {
      var all := init + [last];
      assert all[0] == init[0] && all[1..] == init[1..] + [last];
      CreateListSnoc(CreateOne(s, init[0], f).store, init[1..], last, f);
    } else {
      assert (init + [last])[1..] == [];
    }
  }

  /** createMissedReplicas, with no failing create and no terminating pod in the
      way: it creates as many of the missing pods as the allocation has room for,
      and panics if that is not all. */
  lemma MissedFits(id: JobId, spec: Spec, list: seq<Pod>, allocation: seq<string>, s: Store, f: Faults, top: nat)
    requires StoreInv(id, s) && IsListing(list, s) && DistinctNames(spec.tasks) && f.create == map[]
    requires AllInRange(spec.tasks, LivePods(list)) && MaxRank(LivePods(list), 0) == Some(top)
    requires forall n | n in s && IsPodTerminating(s[n]) :: n !in SpecNames(id, spec.tasks)
    ensures var missing := |SpecNames(id, spec.tasks) - Live(s).Keys|;
      var n := Fitting(spec, allocation, top + 1, missing);
      var r := CreateMissed(id, spec, LivePods(list), allocation, s, f);
      && r.err == (if n < missing then Panic else NoError)
      && CreatedAbove(id, spec.tasks, s, r.store, top, n)
  {
    ListedLive(id, list, s);
    LiveNames(list, s);
    var pods, held := LivePods(list), Live(s).Keys;
    hide *;
    var free := FreeSlots(id, spec.tasks, held);
    var n := Fitting(spec, allocation, top + 1, |free|);
    MissedPlanIsBuild(id, spec, pods, allocation, top);
    FreeSlotsDistinct(id, spec.tasks, held);
    var plan := MissedPlan(id, spec, pods, allocation);
    FreeUnheld(id, spec.tasks, held, s, n);
    FreshFrom(id, spec, allocation, s, free[..n], top);
    CreatesSucceed(s, plan.creates, f);
    CreateBatch(id, spec.tasks, s, plan.creates, top, f);
    ExecutedPlan(id, spec, pods, allocation, s, f);
  }

  lemma FreeUnheld(id: JobId, tasks: seq<Task>, held: set<string>, s: Store, n: nat)
    requires n <= |FreeSlots(id, tasks, held)| && held == Live(s).Keys && DistinctNames(tasks)
    requires forall m | m in s && IsPodTerminating(s[m]) :: m !in SpecNames(id, tasks)
    ensures var slots := FreeSlots(id, tasks, held)[..n];
      && DistinctSlotNames(id, tasks, slots)
      && forall c | c in slots :: c.task < |tasks| && SlotName(id, tasks, c) !in s
  {
    hide SpecNames, SlotName, Unfilled;
    FreeSlotsDistinct(id, tasks, held);
    var free := FreeSlots(id, tasks, held);
    assert forall m | m in s && m in SpecNames(id, tasks) :: m in held;
    forall c | c in free[..n] ensures c.task < |tasks| && SlotName(id, tasks, c) !in s {
      assert c in free;
      SpecNamesIff(id, tasks, c);
    }
  }

  lemma ExecutedPlan(id: JobId, spec: Spec, pods: seq<Pod>, allocation: seq<string>, s: Store, f: Faults)
    ensures var plan := MissedPlan(id, spec, pods, allocation);
      var d, r := CreateList(s, plan.creates, f), CreateMissed(id, spec, pods, allocation, s, f);
      r.store == d.store && (d.ok ==> r.err == plan.err)
  {
    hide MissedPlan;
  }

  /** What createMissedReplicas did to the store. */
  ghost predicate Completed(id: JobId, tasks: seq<Task>, pods: seq<Pod>, s: Store, t: Store) {
    var free := SpecNames(id, tasks) - Names(pods);
    && t.Keys == s.Keys + free && s.Keys !! free
    && (forall n | n in s :: t[n] == s[n])
    && (forall n | n in free :: IsPodLive(t[n]))
  }

  lemma MissedCompleted(id: JobId, spec: Spec, list: seq<Pod>, allocation: seq<string>, s: Store, f: Faults)
    requires StoreInv(id, s) && IsListing(list, s)
    requires forall n | n in s && IsPodTerminating(s[n]) :: n !in SpecNames(id, spec.tasks)
    requires CreateMissed(id, spec, LivePods(list), allocation, s, f).err == NoError
    ensures AllInRange(spec.tasks, LivePods(list))
    ensures var t := CreateMissed(id, spec, LivePods(list), allocation, s, f).store;
      && Completed(id, spec.tasks, LivePods(list), s, t)
      && (forall m, n | m in s && IsPodLive(s[m]) && n in t && n !in s :: RankOf(s[m]) < RankOf(t[n]))
  {
    hide BuildPod, SlotName, MissedPlan, InRange, AllInRange, SpecNames, RankOf, Built, CreateList, LivePods,
      DistinctRanks,
      IsListing;
    var pods := LivePods(list);
    ListedLive(id, list, s);
    LiveNames(list, s);
    MissedPlanCreates(id, spec, pods, allocation);
    var plan := MissedPlan(id, spec, pods, allocation);
    CreateListFrame(s, plan.creates, f);
    CompletedBy(SpecNames(id, spec.tasks), pods, plan.creates, s, CreateMissed(id, spec, pods, allocation, s, f).store);
  }

  lemma CompletedBy(wanted: set<string>, pods: seq<Pod>, creates: seq<Pod>, s: Store, t: Store)
    requires Names(pods) == Live(s).Keys && Names(creates) == wanted - Names(pods)
    requires forall n | n in s && IsPodTerminating(s[n]) :: n !in wanted
    requires forall n | n in s :: n in t && t[n] == s[n]
    requires forall n | n in t && n !in s :: t[n] in creates && t[n].meta.name == n
    requires forall p | p in creates :: p.meta.name in t && IsPodLive(p)
    ensures var free := wanted - Names(pods);
      && t.Keys == s.Keys + free && s.Keys !! free
      && forall n | n in free :: IsPodLive(t[n])
  {
    var free := wanted - Names(pods);
    forall n | n in s ensures n !in free {
      assert IsPodLive(s[n]) ==> n in Live(s);
    }
    forall n | n in free ensures n in t && n !in s {
      assert n in Names(creates);
    }
    forall n | n in t && n !in s ensures n in free {
      assert t[n].meta.name in Names(creates);
    }
  }

  lemma CompletedLive(id: JobId, spec: Spec, list: seq<Pod>, s: Store, t: Store)
    requires StoreInv(id, s) && IsListing(list, s) && StoreInv(id, t) && DistinctNames(spec.tasks)
    requires AllInRange(spec.tasks, LivePods(list)) && Completed(id, spec.tasks, LivePods(list), s, t)
    ensures Live(t).Keys == Live(s).Keys + SpecNames(id, spec.tasks)
    ensures forall n | n in Live(t) :: InRange(spec.tasks, t[n])
  {
    hide SlotName, InRange, SpecNames, RankOf, Built;
    LiveNames(list, s);
    ListedLive(id, list, s);
    forall n | n in Live(t) ensures InRange(spec.tasks, t[n]) {
      if n in s {
        assert s[n] in LivePods(list);
      } else {
        assert t[n].meta.name == n && Built(id, t[n]);
        SpecNameInRange(id, spec.tasks, t[n]);
      }
    }
  }

  /** createMissedReplicas is complete: when it returns nil and no terminating pod
      holds a wanted name, every slot of the spec has a live pod, live local ranks
      are in range, every earlier pod is kept and new ranks are above all earlier
      ones; when all live pods belong to the spec, there are exactly as many live
      pods as replicas. */
  lemma MissedComplete(id: JobId, spec: Spec, list: seq<Pod>, allocation: seq<string>, s: Store, f: Faults)
    requires StoreInv(id, s) && IsListing(list, s) && DistinctNames(spec.tasks)
    requires forall n | n in s && IsPodTerminating(s[n]) :: n !in SpecNames(id, spec.tasks)
    requires CreateMissed(id, spec, LivePods(list), allocation, s, f).err == NoError
    ensures var t := CreateMissed(id, spec, LivePods(list), allocation, s, f).store;
      && Completed(id, spec.tasks, LivePods(list), s, t)
      && (forall c | InSpec(spec.tasks, c) :: SlotName(id, spec.tasks, c) in Live(t))
      && (forall n | n in Live(t) :: InRange(spec.tasks, t[n]))
      && (forall m, n | m in s && IsPodLive(s[m]) && n in t && n !in s :: RankOf(s[m]) < RankOf(t[n]))
      && (Live(s).Keys <= SpecNames(id, spec.tasks) ==>
            Live(t).Keys == SpecNames(id, spec.tasks) && |Live(t)| == Total(spec.tasks))
  {
    hide BuildPod, SlotName, CreateMissed, InRange, AllInRange, SpecNames, RankOf, Built, Completed, StoreInv;
    var t := CreateMissed(id, spec, LivePods(list), allocation, s, f).store;
    MissedCompleted(id, spec, list, allocation, s, f);
    ReplaceKeepsInv(id, spec, list, allocation, s, f);
    CompletedLive(id, spec, list, s, t);
    forall c | InSpec(spec.tasks, c) ensures SlotName(id, spec.tasks, c) in Live(t) {
      SpecNamesIff(id, spec.tasks, c);
    }
    SpecNamesSize(id, spec.tasks);
    assert |Live(t)| == |Live(t).Keys|;
  }

  lemma LiveNames(list: seq<Pod>, s: Store)
    requires IsListing(list, s)
    ensures Names(LivePods(list)) == Live(s).Keys
  {
    forall n | n in Live(s) ensures n in Names(LivePods(list)) {
      assert s[n] in LivePods(list);
    }
  }

  lemma ReplaceKeepsInv(id: JobId, spec: Spec, list: seq<Pod>, allocation: seq<string>, s: Store, f: Faults)
    requires StoreInv(id, s) && IsListing(list, s)
    ensures StoreInv(id, CreateMissed(id, spec, LivePods(list), allocation, s, f).store)
  {
    ListedLive(id, list, s);
    CreateMissedKeepsInv(id, spec, LivePods(list), allocation, s, f);
  }
}
