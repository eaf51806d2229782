/** pkg/controllers/dijob.go as functions: what one reconcile does to the pods
    and to the job status, given the listing it starts from. */
module Replicas {
  import opened Wrappers
  import opened Api
  import opened Text
  import opened Util
  import opened Pods
  import opened Cluster
  import opened Conditions

  /** Panic: an index out of range, which ends the call like an error does. */
  datatype Err = NoError | NotANumber | OutOfRange | Panic | ApiError

  datatype Outcome = Outcome(store: Store, status: Status, err: Err)

  // ---- buildAndCreatePods

  function BuildFrom(id: JobId, spec: Spec, allocation: seq<string>, slots: seq<Slot>, rank: nat): Option<seq<Pod>>
    requires forall s | s in slots :: s.task < |spec.tasks|
  {
    if slots == [] then Some([])
    else match BuildPod(id, spec, rank, allocation, slots[0])
      case None => None
      case Some(p) =>
        match BuildFrom(id, spec, allocation, slots[1..], rank + 1)
        case None => None
        case Some(rest) => Some([p] + rest)
  }

  function BuildAll(id: JobId, spec: Spec, allocation: seq<string>): Option<seq<Pod>> {
    SlotsPositions(spec.tasks);
    BuildFrom(id, spec, allocation, Slots(spec.tasks), 0)
  }

  function BuildAndCreate(id: JobId, spec: Spec, st: Status, store: Store, f: Faults): Outcome {
    match BuildAll(id, spec, st.allocation)
    case None => Outcome(store, st, Panic)
    case Some(pods) =>
      var d := CreateList(store, pods, f);
      if d.ok then Outcome(d.store, st, NoError)
      else Outcome(DeleteEach(d.store, pods, f), EnterByBackoff(spec, st), NoError)
  }

  // ---- completion and reschedule checks

  /** None: the pods neither all succeeded nor did one fail. */
  function CheckCompletion(spec: Spec, st: Status, pods: seq<Pod>): Option<Status> {
    if SucceededCount(pods) != 0 && SucceededCount(pods) == |pods| then Some(Enter(st, Succeeded))
    else if FailedCount(pods, spec.preemptible) != 0 then Some(EnterByBackoff(spec, st))
    else None
  }

  datatype Detection = Keep | Reschedule | IndexPanic

  function DetectMoved(pods: seq<Pod>, allocation: seq<string>): Detection {
    if pods == [] then Keep
    else
      var m := pods[0].meta;
      match (Atoi(m.replicas), Atoi(m.rank))
      case (Some(replicas), Some(rank)) =>
        if replicas != |allocation| then Reschedule
        else if !(0 <= rank < |allocation|) then IndexPanic
        else if m.node != allocation[rank] then Reschedule
        else DetectMoved(pods[1..], allocation)
      case _ => Reschedule
  }

  function DetectReschedule(spec: Spec, pods: seq<Pod>, allocation: seq<string>): Detection {
    if spec.preemptible then DetectMoved(pods, allocation)
    else if |pods| != Total(spec.tasks) then Reschedule
    else Keep
  }

  // ---- deleteRedundantReplicas

  /** Replicas by task type; a later task of the same type overwrites an earlier one. */
  function Quotas(tasks: seq<Task>): map<string, nat> {
    if tasks == [] then map[]
    else
      var last := tasks[|tasks| - 1];
      Quotas(tasks[..|tasks| - 1])[last.taskType := last.replicas]
  }

  function Quota(q: map<string, nat>, taskType: string): nat {
    if taskType in q then q[taskType] else 0
  }

  /** The pods that find their quota used up. */
  function Redundant(pods: seq<Pod>, q: map<string, nat>): (r: seq<Pod>)
    ensures forall p | p in r :: p in pods
  {
    if pods == [] then []
    else
      var t := pods[0].meta.taskType;
      if Quota(q, t) > 0 then Redundant(pods[1..], q[t := q[t] - 1])
      else [pods[0]] + Redundant(pods[1..], q)
  }

  // ---- createMissedReplicas

  datatype Scan = Scanned(taken: seq<bool>) | ScanError(err: Err)

  /** localTrace of one task: which of its local ranks have a pod. */
  function ScanTask(pods: seq<Pod>, taskName: string, taken: seq<bool>): Scan {
    if pods == [] then Scanned(taken)
    else if pods[0].meta.taskName != taskName then ScanTask(pods[1..], taskName, taken)
    else match Atoi(pods[0].meta.taskRank)
      case None => ScanError(NotANumber)
      case Some(r) =>
        if r >= |taken| then ScanError(OutOfRange)
        else if r < 0 then ScanError(Panic)
        else ScanTask(pods[1..], taskName, taken[r := true])
  }

  function NoneTaken(n: nat): (taken: seq<bool>)
    ensures |taken| == n
  {
    seq(n, _ => false)
  }

  /** findMaxGlobalRank. */
  function MaxRank(pods: seq<Pod>, best: nat): Option<nat> {
    if pods == [] then Some(best)
    else match Atoi(pods[0].meta.rank)
      case None => None
      case Some(r) => MaxRank(pods[1..], if r > best then r else best)
  }

  /** The pods to create, in order, and the error met once they are created. The
      choice depends on the listing only, never on the replies to the creates. */
  datatype Plan = Plan(creates: seq<Pod>, next: int, err: Err)

  function PlanTask(id: JobId, spec: Spec, pods: seq<Pod>, allocation: seq<string>,
                    k: nat, i: nat, taken: seq<bool>, next: int): (plan: Plan)
    requires k < |spec.tasks| && i <= |taken|
    requires next >= -1
    ensures plan.next >= -1
    decreases |taken| - i
  {
    if i == |taken| then Plan([], next, NoError)
    else if taken[i] then PlanTask(id, spec, pods, allocation, k, i + 1, taken, next)
    else
      match if next == -1 then MaxRank(pods, 0) else Some(next - 1)
      case None => Plan([], next, NotANumber)
      case Some(top) =>
        match BuildPod(id, spec, top + 1, allocation, Slot(k, i))
        case None => Plan([], top + 1, Panic)
        case Some(p) =>
          var rest := PlanTask(id, spec, pods, allocation, k, i + 1, taken, top + 2);
          Plan([p] + rest.creates, rest.next, rest.err)
  }

  function PlanFrom(id: JobId, spec: Spec, pods: seq<Pod>, allocation: seq<string>, k: nat, next: int): Plan
    requires k <= |spec.tasks| && next >= -1
    decreases |spec.tasks| - k
  {
    if k == |spec.tasks| then Plan([], next, NoError)
    else match ScanTask(pods, spec.tasks[k].name, NoneTaken(spec.tasks[k].replicas))
      case ScanError(e) => Plan([], next, e)
      case Scanned(taken) =>
        var here := PlanTask(id, spec, pods, allocation, k, 0, taken, next);
        if here.err != NoError then here
        else
          var rest := PlanFrom(id, spec, pods, allocation, k + 1, here.next);
          Plan(here.creates + rest.creates, rest.next, rest.err)
  }

  function MissedPlan(id: JobId, spec: Spec, pods: seq<Pod>, allocation: seq<string>): Plan {
    PlanFrom(id, spec, pods, allocation, 0, -1)
  }

  datatype Executed = Executed(store: Store, err: Err)

  function Execute(store: Store, plan: Plan, f: Faults): Executed {
    var d := CreateList(store, plan.creates, f);
    Executed(d.store, if d.ok then plan.err else ApiError)
  }

  function CreateMissed(id: JobId, spec: Spec, pods: seq<Pod>, allocation: seq<string>, store: Store,
                        f: Faults): Executed {
    Execute(store, MissedPlan(id, spec, pods, allocation), f)
  }

  // ---- updateStatusReplicas

  function CountOf(pods: seq<Pod>, taskName: string, phase: PodPhase): nat {
    if pods == [] then 0
    else
      var last := pods[|pods| - 1];
      CountOf(pods[..|pods| - 1], taskName, phase)
      + if last.meta.taskName == taskName && last.status.phase == phase then 1 else 0
  }

  function TaskNames(pods: seq<Pod>): set<string> { set p | p in pods :: p.meta.taskName }

  function PhasesOf(pods: seq<Pod>, taskName: string): set<PodPhase> {
    set p | p in pods && p.meta.taskName == taskName :: p.status.phase
  }

  /** Pods by task label and pod phase; only labels and phases that occur have an entry. */
  function Histogram(pods: seq<Pod>): TaskStatuses {
    map t | t in TaskNames(pods) :: map ph | ph in PhasesOf(pods, t) :: CountOf(pods, t, ph)
  }

  function UpdateReplicas(spec: Spec, st: Status, list: seq<Pod>): Status {
    if spec.preemptible then
      if st.allocation != [] then
        st.(replicas := Int32(|st.allocation|), readyReplicas := Int32(ReadyCount(list)))
      else
        st.(replicas := 0, readyReplicas := 0)
    else
      st.(replicas := Int32(Total(spec.tasks)), readyReplicas := Int32(ReadyCount(list)), taskStatus := Histogram(list))
  }

  // ---- reconcileWithJobStatus

  function DeleteStep(store: Store, st: Status, pods: seq<Pod>, f: Faults): Outcome {
    var d := DeleteList(store, pods, f);
    Outcome(d.store, st, if d.ok then NoError else ApiError)
  }

  function ReconcilePending(id: JobId, spec: Spec, st: Status, list: seq<Pod>, store: Store, f: Faults): Outcome {
    var pods := LivePods(list);
    if Total(spec.tasks) == 0 then Outcome(store, st, NoError)
    else if list == [] then BuildAndCreate(id, spec, st, store, f)
    else if |pods| == Total(spec.tasks) then Outcome(store, Enter(st, Starting), NoError)
    else if |pods| != |list| then Outcome(DeleteEach(store, list, f), st, NoError)
    else Outcome(store, st, NoError)
  }

  function ReconcileStarting(spec: Spec, st: Status, pods: seq<Pod>, store: Store): Outcome {
    match CheckCompletion(spec, st, pods)
    case Some(st') => Outcome(store, st', NoError)
    case None =>
      var detected :=
        if ScheduledCount(pods) != Total(spec.tasks) then DetectReschedule(spec, pods, st.allocation) else Keep;
      match detected
      case IndexPanic => Outcome(store, st, Panic)
      case Reschedule => Outcome(store, Enter(st, Rescheduling), NoError)
      case Keep =>
        Outcome(store, if ReadyCount(pods) == Total(spec.tasks) then Enter(st, Running) else st, NoError)
  }

  function ReconcileRunning(spec: Spec, st: Status, pods: seq<Pod>, store: Store): Outcome {
    match CheckCompletion(spec, st, pods)
    case Some(st') => Outcome(store, st', NoError)
    case None =>
      match DetectReschedule(spec, pods, st.allocation)
      case IndexPanic => Outcome(store, st, Panic)
      case Reschedule => Outcome(store, Enter(st, Rescheduling), NoError)
      case Keep => Outcome(store, st, NoError)
  }

  function ReconcileRestarting(id: JobId, spec: Spec, st: Status, pods: seq<Pod>, store: Store, f: Faults): Outcome {
    if |pods| > Total(spec.tasks) then DeleteStep(store, st, Redundant(pods, Quotas(spec.tasks)), f)
    else if |pods| < Total(spec.tasks) then
      var r := CreateMissed(id, spec, pods, st.allocation, store, f);
      Outcome(r.store, st, r.err)
    else
      var failed := FailedPods(pods, spec.preemptible);
      if failed == [] then Outcome(store, Enter(st, Starting), NoError) else DeleteStep(store, st, failed, f)
  }

  function ReconcileRescheduling(id: JobId, spec: Spec, st: Status, list: seq<Pod>, store: Store, f: Faults): Outcome {
    var pods := LivePods(list);
    if spec.preemptible then
      if pods != [] then Outcome(DeleteEach(store, pods, f), st, NoError)
      else
        var o := BuildAndCreate(id, spec, st, store, f);
        if o.err != NoError then o else o.(status := Enter(o.status, Starting))
    else if |pods| > Total(spec.tasks) then DeleteStep(store, st, Redundant(pods, Quotas(spec.tasks)), f)
    else if |pods| < Total(spec.tasks) then
      var cleared := DeleteEach(store, TerminatingPods(list), f);
      var r := CreateMissed(id, spec, pods, st.allocation, cleared, f);
      Outcome(r.store, st, r.err)
    else Outcome(store, Enter(st, if Total(spec.tasks) == 0 then Pending else Starting), NoError)
  }

  function ReconcilePhase(id: JobId, spec: Spec, st0: Status, list: seq<Pod>, store: Store, f: Faults): Outcome {
    var st := UpdateReplicas(spec, st0, list);
    match st.phase
    case Pending => ReconcilePending(id, spec, st, list, store, f)
    case Starting => ReconcileStarting(spec, st, LivePods(list), store)
    case Running => ReconcileRunning(spec, st, LivePods(list), store)
    case Restarting => ReconcileRestarting(id, spec, st, LivePods(list), store, f)
    case Rescheduling => ReconcileRescheduling(id, spec, st, list, store, f)
    case _ => Outcome(store, st, NoError)
  }
}
