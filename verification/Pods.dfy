/** pkg/context/pod.go, BuildPod: the pod that stands for one slot of a job. */
module Pods {
  import opened Wrappers
  import opened Api
  import opened Text
  import opened Util

  /** The local-th replica of a task, the task given by its index in the spec. */
  datatype Slot = Slot(task: nat, local: nat)

  predicate InSpec(tasks: seq<Task>, s: Slot) {
    s.task < |tasks| && s.local < tasks[s.task].replicas
  }

  /** Replicas of the tasks before index k. */
  function Offset(tasks: seq<Task>, k: nat): nat
    requires k <= |tasks|
  {
    if k == 0 then 0 else Offset(tasks, k - 1) + tasks[k - 1].replicas
  }

  function Total(tasks: seq<Task>): nat { Offset(tasks, |tasks|) }

  /** The slots in the order of the nested loops over tasks and replicas, from
      slot (k, i) on. */
  function SlotsFrom(tasks: seq<Task>, k: nat, i: nat): seq<Slot>
    requires k <= |tasks|
    requires k < |tasks| ==> i <= tasks[k].replicas
    decreases |tasks| - k, if k < |tasks| then tasks[k].replicas - i else 0
  {
    if k == |tasks| then []
    else if i < tasks[k].replicas then [Slot(k, i)] + SlotsFrom(tasks, k, i + 1)
    else SlotsFrom(tasks, k + 1, 0)
  }

  function Slots(tasks: seq<Task>): seq<Slot> { SlotsFrom(tasks, 0, 0) }

  /** Where a slot stands in the enumeration. */
  function Position(tasks: seq<Task>, s: Slot): nat
    requires s.task < |tasks|
  {
    Offset(tasks, s.task) + s.local
  }

  lemma {:induction false} OffsetMonotone(tasks: seq<Task>, k: nat, l: nat)
    requires k <= l <= |tasks|
    ensures Offset(tasks, k) <= Offset(tasks, l)
    decreases l
  {
    if k < l {
      OffsetMonotone(tasks, k, l - 1);
    }
  }

  lemma {:induction false} SlotsFromPositions(tasks: seq<Task>, k: nat, i: nat)
    requires k < |tasks| && i <= tasks[k].replicas
    ensures var ss := SlotsFrom(tasks, k, i);
      && |ss| == Total(tasks) - Offset(tasks, k) - i
      && forall r | 0 <= r < |ss| :: InSpec(tasks, ss[r]) && Position(tasks, ss[r]) == Offset(tasks, k) + i + r
    decreases |tasks| - k, tasks[k].replicas - i
  {
    if i < tasks[k].replicas {
      SlotsFromPositions(tasks, k, i + 1);
      var rest := SlotsFrom(tasks, k, i + 1);
      assert SlotsFrom(tasks, k, i) == [Slot(k, i)] + rest;
      hide SlotsFrom;
    } else if k + 1 < |tasks| {
      SlotsFromPositions(tasks, k + 1, 0);
    }
  }

  lemma SlotsPositions(tasks: seq<Task>)
    ensures |Slots(tasks)| == Total(tasks)
    ensures forall r | 0 <= r < Total(tasks) ::
      InSpec(tasks, Slots(tasks)[r]) && Position(tasks, Slots(tasks)[r]) == r
  {
    if tasks != [] {
      SlotsFromPositions(tasks, 0, 0);
    }
  }

  lemma SlotsInSpec(tasks: seq<Task>)
    ensures forall s | s in Slots(tasks) :: InSpec(tasks, s)
  {
    SlotsPositions(tasks);
  }

  lemma {:induction false} PositionBelowTotal(tasks: seq<Task>, s: Slot)
    requires InSpec(tasks, s)
    ensures Position(tasks, s) < Total(tasks)
  {
    OffsetMonotone(tasks, s.task + 1, |tasks|);
  }

  lemma PositionInjective(tasks: seq<Task>, s: Slot, t: Slot)
    requires InSpec(tasks, s) && InSpec(tasks, t)
    requires Position(tasks, s) == Position(tasks, t)
    ensures s == t
  {
    if s.task < t.task {
      OffsetMonotone(tasks, s.task + 1, t.task);
    } else if t.task < s.task {
      OffsetMonotone(tasks, t.task + 1, s.task);
    }
  }

  /** The enumeration is a bijection: slot (k, i) stands at (replicas of the
      earlier tasks) + i, every position holds exactly one slot of the spec. */
  lemma SlotsBijection(tasks: seq<Task>)
    ensures |Slots(tasks)| == Total(tasks)
    ensures forall s | InSpec(tasks, s) ::
      Position(tasks, s) < Total(tasks) && Slots(tasks)[Position(tasks, s)] == s
    ensures forall r | 0 <= r < Total(tasks) ::
      InSpec(tasks, Slots(tasks)[r]) && Position(tasks, Slots(tasks)[r]) == r
  {
    SlotsPositions(tasks);
    forall s | InSpec(tasks, s)
      ensures Position(tasks, s) < Total(tasks) && Slots(tasks)[Position(tasks, s)] == s
    {
      PositionBelowTotal(tasks, s);
      PositionInjective(tasks, s, Slots(tasks)[Position(tasks, s)]);
    }
  }

  // ---- names and addresses

  function SvcName(jobName: string): string { "di-" + jobName }

  function SlotName(id: JobId, tasks: seq<Task>, s: Slot): string
    requires s.task < |tasks|
  {
    ReplicaName(id.name, tasks[s.task].name, s.local)
  }

  function Fqdn(id: JobId, podName: string): string {
    PodFQDN(podName, SvcName(id.name), id.namespace, id.domain)
  }

  function Fqdns(id: JobId, tasks: seq<Task>, slots: seq<Slot>): seq<string>
    requires forall s | s in slots :: s.task < |tasks|
  {
    seq(|slots|, r requires 0 <= r < |slots| => Fqdn(id, SlotName(id, tasks, slots[r])))
  }

  predicate HasType(tasks: seq<Task>, s: Slot, taskType: string)
    requires s.task < |tasks|
  {
    tasks[s.task].taskType == taskType
  }

  /** The slots whose task has the given type, in order. */
  function SlotsOfType(tasks: seq<Task>, slots: seq<Slot>, taskType: string): (out: seq<Slot>)
    requires forall s | s in slots :: s.task < |tasks|
    ensures forall s | s in out :: s in slots
  {
    if slots == [] then []
    else
      var last := slots[|slots| - 1];
      SlotsOfType(tasks, slots[..|slots| - 1], taskType) + if HasType(tasks, last, taskType) then [last] else []
  }

  /** BuildPod. None is the index panic: the guard admits rank == |allocation|
      and then reads allocation[rank]. */
  function BuildPod(id: JobId, spec: Spec, rank: nat, allocation: seq<string>, s: Slot): Option<Pod>
    requires s.task < |spec.tasks|
  {
    if spec.preemptible && rank == |allocation| then None
    else
      SlotsPositions(spec.tasks);
      var task := spec.tasks[s.task];
      var name := SlotName(id, spec.tasks, s);
      var node := if spec.preemptible && rank < |allocation| then allocation[rank] else "";
      var slots := Slots(spec.tasks);
      var env := Env(
        Itoa(rank),
        Join(Fqdns(id, spec.tasks, slots), ','),
        Join(Fqdns(id, spec.tasks, SlotsOfType(spec.tasks, slots, task.taskType)), ','));
      Some(Pod(
        Meta(name, task.taskType, task.name, Itoa(Total(spec.tasks)), Itoa(rank), node, Itoa(s.local)),
        PodSpec(node, name, SvcName(id.name), env),
        FRESH_STATUS))
  }
}
