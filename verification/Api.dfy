/** The DIJob resource and the parts of a pod that the controller looks at. */
module Api {
  import opened Wrappers

  // ---- pkg/api/v2alpha1/dijob_types.go

  /** Unset is the empty phase of a job whose status was never written. */
  datatype Phase =
    | Unset | Pending | Starting | Restarting | Rescheduling | Running | Succeeded | Failed | Unknown

  const TASK_TYPE_NONE := "none"

  datatype Task = Task(replicas: nat, taskType: string, name: string)

  datatype CleanPodPolicy = CleanRunning | CleanAll | CleanNone

  datatype Spec = Spec(
    cleanPodPolicy: CleanPodPolicy,
    preemptible: bool,
    backoffLimit: Option<int>,
    tasks: seq<Task>)

  datatype Condition = Condition(phase: Phase, holds: bool, reason: string)

  type TaskStatuses = map<string, map<PodPhase, int>>

  /** The type has no fields yet. */
  datatype Profilings = Profilings

  datatype Status = Status(
    phase: Phase,
    conditions: seq<Condition>,
    profilings: Profilings,
    restarts: int,
    reschedules: int,
    allocation: seq<string>,
    replicas: int,
    readyReplicas: int,
    taskStatus: TaskStatuses)

  /** What identifies a job: its namespace and name, and the service domain
      the operator was started with. */
  datatype JobId = JobId(namespace: string, name: string, domain: string)

  // ---- pods

  datatype PodPhase = PodPending | PodRunning | PodSucceeded | PodFailed | PodUnknown

  datatype ContainerStatus = ContainerStatus(ready: bool, exitCode: Option<int>, crashLoop: bool)

  datatype PodCondition = PodCondition(conditionType: string, status: string)

  /** Name, labels and annotations: written once by BuildPod. The annotations
      are text, as in the cluster. */
  datatype Meta = Meta(
    name: string,
    taskType: string,
    taskName: string,
    replicas: string,
    rank: string,
    node: string,
    taskRank: string)

  /** DI_RANK, DI_NODES and DI_<TASK>_NODES. */
  datatype Env = Env(rank: string, nodes: string, taskNodes: string)

  datatype PodSpec = PodSpec(nodeName: string, hostname: string, subdomain: string, env: Env)

  datatype PodStatus = PodStatus(
    phase: PodPhase,
    reason: string,
    terminating: bool,
    containers: seq<ContainerStatus>,
    conditions: seq<PodCondition>)

  datatype Pod = Pod(meta: Meta, spec: PodSpec, status: PodStatus)

  const FRESH_STATUS := PodStatus(PodPending, "", false, [], [])

  /** A Go int32 holds the value modulo 2^32, in two's complement. */
  function Int32(x: int): (r: int)
    ensures -0x8000_0000 <= x < 0x8000_0000 ==> r == x
  {
    (x + 0x8000_0000) % 0x1_0000_0000 - 0x8000_0000
  }
}
