/** pkg/context/pod.go: the context, which holds the connection to the cluster. */
module Context {
  import opened Wrappers
  import opened Api
  import opened Text
  import opened Util
  import opened Pods
  import opened Cluster
  import opened Replicas
  import opened Cleanup

  /** The replicas loop that BuildPod and reconcileWithJobStatus share. */
  method CountReplicas(tasks: seq<Task>) returns (replicas: nat)
    ensures replicas == Total(tasks)
  {
    replicas := 0;
    for k := 0 to |tasks|
      invariant replicas == Offset(tasks, k)
    {
      replicas := replicas + tasks[k].replicas;
    }
  }

  /** The nested loops of BuildPod over all replicas of the job. */
  method CollectNodes(id: JobId, tasks: seq<Task>, taskType: string) returns (fqdns: seq<string>, internal: seq<string>)
    requires forall s | s in Slots(tasks) :: s.task < |tasks|
    ensures fqdns == Fqdns(id, tasks, Slots(tasks))
    ensures internal == Fqdns(id, tasks, SlotsOfType(tasks, Slots(tasks), taskType))
  {
    fqdns, internal := [], [];
    ghost var done: seq<Slot> := [];
    for k := 0 to |tasks|
      invariant done + SlotsFrom(tasks, k, 0) == Slots(tasks)
      invariant forall s | s in done :: s.task < |tasks|
      invariant fqdns == Fqdns(id, tasks, done)
      invariant internal == Fqdns(id, tasks, SlotsOfType(tasks, done, taskType))
    {
      for i := 0 to tasks[k].replicas
        invariant done + SlotsFrom(tasks, k, i) == Slots(tasks)
        invariant forall s | s in done :: s.task < |tasks|
        invariant fqdns == Fqdns(id, tasks, done)
        invariant internal == Fqdns(id, tasks, SlotsOfType(tasks, done, taskType))
      {
        var fqdn := Fqdn(id, ReplicaName(id.name, tasks[k].name, i));
        ghost var next := done + [Slot(k, i)];
        assert next + SlotsFrom(tasks, k, i + 1) == done + SlotsFrom(tasks, k, i);
        NextNode(id, tasks, done, Slot(k, i), taskType);
        done := next;
        fqdns := fqdns + [fqdn];
        if tasks[k].taskType == taskType {
          internal := internal + [fqdn];
        }
      }
    }
    assert done == Slots(tasks);
  }

  /** One more slot is one more address. */
  lemma {:induction false} NextNode(id: JobId, tasks: seq<Task>, done: seq<Slot>, s: Slot, taskType: string)
    requires s.task < |tasks| && forall d | d in done :: d.task < |tasks|
    ensures var fqdn := Fqdn(id, SlotName(id, tasks, s)); var typed := SlotsOfType(tasks, done, taskType);
      && Fqdns(id, tasks, done + [s]) == Fqdns(id, tasks, done) + [fqdn]
      && Fqdns(id, tasks, SlotsOfType(tasks, done + [s], taskType))
         == Fqdns(id, tasks, typed) + if HasType(tasks, s, taskType) then [fqdn] else []
  {
    assert (done + [s])[..|done|] == done;
    var typed := SlotsOfType(tasks, done, taskType);
    assert HasType(tasks, s, taskType) ==>
      Fqdns(id, tasks, typed + [s]) == Fqdns(id, tasks, typed) + [Fqdn(id, SlotName(id, tasks, s))];
    assert typed + [] == typed && Fqdns(id, tasks, typed) + [] == Fqdns(id, tasks, typed);
  }

  lemma {:induction false} NoneDoomed(list: seq<Pod>)
    ensures Doomed(list, CleanNone) == []
  {
    if list != [] {
      NoneDoomed(list[1..]);
    }
  }

  class Context {
    var pods: Store
    var faults: Faults

    constructor ()
      ensures pods == map[] && faults == NO_FAULTS
    {
      pods, faults := map[], NO_FAULTS;
    }

    method BuildPod(id: JobId, spec: Spec, rank: nat, allocation: seq<string>, taskNum: nat, localRank: nat)
      returns (pod: Option<Pod>)
      requires taskNum < |spec.tasks|
      ensures pod == Pods.BuildPod(id, spec, rank, allocation, Slot(taskNum, localRank))
    {
      var replicas := CountReplicas(spec.tasks);
      var task := spec.tasks[taskNum];
      var name := ReplicaName(id.name, task.name, localRank);
      var nodeName := "";
      if spec.preemptible {
        if |allocation| >= rank {
          if rank >= |allocation| {
            return None;  // index out of range
          }
          nodeName := allocation[rank];
        }
      }
      SlotsPositions(spec.tasks);
      var fqdns, internal := CollectNodes(id, spec.tasks, task.taskType);
      pod := Some(Pod(
        Meta(name, task.taskType, task.name, Itoa(replicas), Itoa(rank), nodeName, Itoa(localRank)),
        PodSpec(nodeName, name, SvcName(id.name), Env(Itoa(rank), Join(fqdns, ','), Join(internal, ','))),
        FRESH_STATUS));
    }

    method CreatePod(pod: Pod) returns (ok: bool)
      modifies this`pods
      ensures Done(pods, ok) == CreateOne(old(pods), pod, faults)
    {
      var reply := if pod.meta.name in faults.create then faults.create[pod.meta.name] else Created;
      if reply != CreateRefused && pod.meta.name !in pods {
        pods := pods[pod.meta.name := pod];
      }
      ok := reply == Created;
    }

    method DeletePod(pod: Pod) returns (ok: bool)
      modifies this`pods
      ensures Done(pods, ok) == DeleteOne(old(pods), pod.meta.name, faults)
    {
      var name := pod.meta.name;
      var reply := if name in faults.delete then faults.delete[name] else Deleted;
      ok := reply == Deleted || reply == Marked;
      if reply == Deleted || reply == DeleteLost {
        pods := pods - {name};
      } else if reply == Marked && name in pods {
        pods := pods[name := MarkTerminating(pods[name])];
      }
    }

    /** The loop tests the outer error, which nothing sets: no failure is reported. */
    method DeletePods(list: seq<Pod>) returns (ok: bool)
      modifies this`pods
      ensures ok
      ensures pods == DeleteEach(old(pods), list, faults)
    {
      ok := true;
      for i := 0 to |list|
        invariant ok
        invariant DeleteEach(pods, list[i..], faults) == DeleteEach(old(pods), list, faults)
      {
        var ok1 := DeletePod(list[i]);
        if !ok {
          ok := ok1;
        }
      }
    }

    /** The scan for a container that stopped or keeps crashing. */
    method FindStoppedContainer(pod: Pod) returns (found: bool)
      ensures found <==> HasStoppedContainer(pod)
    {
      for i := 0 to |pod.status.containers|
        invariant forall j | 0 <= j < i ::
          pod.status.containers[j].exitCode.None? && !pod.status.containers[j].crashLoop
      {
        var c := pod.status.containers[i];
        if c.exitCode.Some? || c.crashLoop {
          return true;
        }
      }
      found := false;
    }

    /** services: for each listed service, whether the server deletes it. */
    method DeletePodsAndServices(policy: CleanPodPolicy, list: seq<Pod>, services: seq<bool>) returns (err: Err)
      modifies this`pods
      ensures Executed(pods, err) == CleanUp(policy, list, old(pods), AllDeleted(services), faults)
    {
      hide HasStoppedContainer;
      if |list| == 0 {
        return NoError;
      }
      for i := 0 to |services|
        invariant forall j | 0 <= j < i :: services[j]
      {
        if !services[i] {
          return ApiError;
        }
      }
      if policy != CleanAll && policy != CleanRunning {
        NoneDoomed(list);
        return NoError;
      }
      for i := 0 to |list|
        invariant DeleteList(pods, Doomed(list[i..], policy), faults) ==
          DeleteList(old(pods), Doomed(list, policy), faults)
      {
        var pod := list[i];
        ghost var rest := Doomed(list[i + 1..], policy);
        assert list[i..][0] == pod && list[i..][1..] == list[i + 1..];
        assert Doomed(list[i..], policy) == if Spares(policy, pod) then rest else [pod] + rest by {
          assert [] + rest == rest;
        }
        var needsDelete := true;
        if policy == CleanRunning {
          if pod.status.phase != PodRunning && pod.status.phase != PodPending {
            continue;
          }
          var stopped := FindStoppedContainer(pod);
          if stopped {
            needsDelete := false;
          }
        }
        if IsPodTerminating(pod) {
          needsDelete := false;
        }
        if !needsDelete {
          continue;
        }
        assert ([pod] + rest)[0] == pod && ([pod] + rest)[1..] == rest;
        var ok := DeletePod(pod);
        if !ok {
          return ApiError;
        }
      }
      err := NoError;
    }

    /** ListJobPods: the pods in the store, in the order the server picks. */
    method ListJobPods() returns (list: seq<Pod>)
      requires KeyedByName(pods)
      ensures IsListing(list, pods)
    {
      list := [];
      var rest := pods;
      while rest != map[]
        invariant forall n | n in rest :: n in pods && pods[n] == rest[n]
        invariant IsListing(list, pods - rest.Keys)
        decreases |rest|
      {
        var name :| name in rest;
        assert pods - (rest - {name}).Keys == (pods - rest.Keys)[name := pods[name]];
        ListingCons(rest[name], list, pods - rest.Keys);
        list := [rest[name]] + list;
        rest := rest - {name};
      }
      assert pods - rest.Keys == pods;
    }
  }
}
