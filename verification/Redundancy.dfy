/** deleteRedundantReplicas: which pods it keeps and how many are left. */
module Redundancy {
  import opened Api
  import opened Util
  import opened Pods
  import opened Cluster
  import opened Replicas

  function TypeCount(pods: seq<Pod>, t: string): nat {
    if pods == [] then 0 else (if pods[0].meta.taskType == t then 1 else 0) + TypeCount(pods[1..], t)
  }

  /** The pods that still find room in their quota. */
  function Spared(pods: seq<Pod>, q: map<string, nat>): (r: seq<Pod>)
    ensures forall p | p in r :: p in pods
  {
    if pods == [] then []
    else
      var t := pods[0].meta.taskType;
      if Quota(q, t) > 0 then [pods[0]] + Spared(pods[1..], q[t := q[t] - 1]) else Spared(pods[1..], q)
  }

  function Min(a: nat, b: nat): nat { if a < b then a else b }

  lemma Prepended(p: Pod, a: seq<Pod>, b: seq<Pod>, all: seq<Pod>)
    requires multiset(a) + multiset(b) == multiset(all)
    ensures multiset([p] + a) + multiset(b) == multiset([p] + all)
  {
  }

  function NextQuota(q: map<string, nat>, t: string): map<string, nat> {
    if Quota(q, t) > 0 then q[t := q[t] - 1] else q
  }

  lemma SpareStep(pods: seq<Pod>, q: map<string, nat>)
    requires pods != []
    ensures var p, rest, q' := pods[0], pods[1..], NextQuota(q, pods[0].meta.taskType);
      if Quota(q, p.meta.taskType) > 0
      then Spared(pods, q) == [p] + Spared(rest, q') && Redundant(pods, q) == Redundant(rest, q')
      else Spared(pods, q) == Spared(rest, q') && Redundant(pods, q) == [p] + Redundant(rest, q')
  {
  }

  lemma SpareNone(q: map<string, nat>)
    ensures Spared([], q) == [] && Redundant([], q) == []
  {
  }

  /** Spared and redundant pods make up the list. */
  lemma {:induction false} SparedPartition(pods: seq<Pod>, q: map<string, nat>)
    ensures multiset(Spared(pods, q)) + multiset(Redundant(pods, q)) == multiset(pods)
    ensures |Spared(pods, q)| + |Redundant(pods, q)| == |pods|
  {
    hide *;
    SpareNone(q);
    if pods != [] {
      var p, rest, q' := pods[0], pods[1..], NextQuota(q, pods[0].meta.taskType);
      assert pods == [p] + rest;
      SpareStep(pods, q);
      SparedPartition(rest, q');
      Prepended(p, Spared(rest, q'), Redundant(rest, q'), rest);
      Prepended(p, Redundant(rest, q'), Spared(rest, q'), rest);
    }
  }

  /** Each type keeps as many pods as it has, up to its quota. */
  lemma {:induction false} SparedOfType(pods: seq<Pod>, q: map<string, nat>, t: string)
    ensures TypeCount(Spared(pods, q), t) == Min(TypeCount(pods, t), Quota(q, t))
  {
    if pods != [] {
      var u := pods[0].meta.taskType;
      SparedOfType(pods[1..], if Quota(q, u) > 0 then q[u := q[u] - 1] else q, t);
    }
  }

  lemma {:induction false} TypeCountPrefix(pods: seq<Pod>, j: nat, t: string)
    requires 0 < j <= |pods|
    ensures TypeCount(pods[..j], t) == (if pods[0].meta.taskType == t then 1 else 0) + TypeCount(pods[1..][..j - 1], t)
  {
    assert pods[..j][1..] == pods[1..][..j - 1];
  }

  /** A pod survives exactly when fewer earlier pods of its type are listed than
      its type has replicas: the first ones of each type are kept. */
  lemma {:induction false} RedundantIff(pods: seq<Pod>, q: map<string, nat>, j: nat)
    requires j < |pods|
    requires forall a, b | 0 <= a < b < |pods| :: pods[a].meta.name != pods[b].meta.name
    ensures pods[j] in Redundant(pods, q)
      <==> TypeCount(pods[..j], pods[j].meta.taskType) >= Quota(q, pods[j].meta.taskType)
  {
    var t := pods[0].meta.taskType;
    var q' := if Quota(q, t) > 0 then q[t := q[t] - 1] else q;
    if j > 0 {
      assert pods[1..][j - 1] == pods[j];
      RedundantIff(pods[1..], q', j - 1);
      TypeCountPrefix(pods, j, pods[j].meta.taskType);
    } else {
      assert pods[0] !in pods[1..];
    }
  }

  // ---- quotas

  predicate Occurs(tasks: seq<Task>, k: nat, t: string) {
    exists l | k <= l < |tasks| :: tasks[l].taskType == t
  }

  lemma {:induction false} QuotaOfLast(tasks: seq<Task>, k: nat)
    requires k < |tasks| && !Occurs(tasks, k + 1, tasks[k].taskType)
    ensures Quota(Quotas(tasks), tasks[k].taskType) == tasks[k].replicas
  {
    var init := tasks[..|tasks| - 1];
    if k < |tasks| - 1 {
      assert tasks[|tasks| - 1].taskType != tasks[k].taskType;
      forall l | k + 1 <= l < |init| ensures init[l].taskType != tasks[k].taskType {
        assert tasks[l].taskType != tasks[k].taskType;
      }
      QuotaOfLast(init, k);
    }
  }

  lemma {:induction false} QuotaOccurs(tasks: seq<Task>, t: string)
    requires t in Quotas(tasks)
    ensures Occurs(tasks, 0, t)
  {
    var last := tasks[|tasks| - 1];
    if last.taskType != t {
      QuotaOccurs(tasks[..|tasks| - 1], t);
      var l :| 0 <= l < |tasks| - 1 && tasks[..|tasks| - 1][l].taskType == t;
      assert tasks[l].taskType == t;
    }
  }

  // ---- how many pods are spared

  /** The pods whose type is that of task k or a later one. */
  function CountFrom(pods: seq<Pod>, tasks: seq<Task>, k: nat): nat {
    if pods == [] then 0
    else (if Occurs(tasks, k, pods[0].meta.taskType) then 1 else 0) + CountFrom(pods[1..], tasks, k)
  }

  lemma {:induction false} CountFromStep(pods: seq<Pod>, tasks: seq<Task>, k: nat)
    requires k < |tasks|
    ensures CountFrom(pods, tasks, k) == CountFrom(pods, tasks, k + 1)
      + if Occurs(tasks, k + 1, tasks[k].taskType) then 0 else TypeCount(pods, tasks[k].taskType)
  {
    if pods != [] {
      CountFromStep(pods[1..], tasks, k);
      var t := pods[0].meta.taskType;
      assert Occurs(tasks, k, t) <==> Occurs(tasks, k + 1, t) || tasks[k].taskType == t;
    }
  }

  lemma {:induction false} CountFromEnd(pods: seq<Pod>, tasks: seq<Task>)
    ensures CountFrom(pods, tasks, |tasks|) == 0
  {
    if pods != [] {
      CountFromEnd(pods[1..], tasks);
    }
  }

  lemma {:induction false} CountFromAll(pods: seq<Pod>, tasks: seq<Task>)
    requires forall p | p in pods :: Occurs(tasks, 0, p.meta.taskType)
    ensures CountFrom(pods, tasks, 0) == |pods|
  {
    if pods != [] {
      assert pods[0] in pods;
      CountFromAll(pods[1..], tasks);
    }
  }

  lemma {:induction false} SparedOccur(pods: seq<Pod>, q: map<string, nat>, tasks: seq<Task>)
    requires forall t | t in q :: Occurs(tasks, 0, t)
    ensures forall p | p in Spared(pods, q) :: Occurs(tasks, 0, p.meta.taskType)
  {
    if pods != [] {
      var t := pods[0].meta.taskType;
      SparedOccur(pods[1..], if Quota(q, t) > 0 then q[t := q[t] - 1] else q, tasks);
    }
  }

  lemma {:induction false} SparedBound(pods: seq<Pod>, tasks: seq<Task>, k: nat)
    requires k <= |tasks|
    ensures CountFrom(Spared(pods, Quotas(tasks)), tasks, k) <= Total(tasks) - Offset(tasks, k)
    decreases |tasks| - k
  {
    var kept := Spared(pods, Quotas(tasks));
    if k == |tasks| {
      CountFromEnd(kept, tasks);
    } else {
      SparedBound(pods, tasks, k + 1);
      CountFromStep(kept, tasks, k);
      if !Occurs(tasks, k + 1, tasks[k].taskType) {
        QuotaOfLast(tasks, k);
        SparedOfType(pods, Quotas(tasks), tasks[k].taskType);
      }
    }
  }

  /** At most as many pods are spared as the job has replicas, for any listing and
      any spec, even with several tasks of one type. */
  lemma SparedAtMostTotal(pods: seq<Pod>, tasks: seq<Task>)
    ensures |Spared(pods, Quotas(tasks))| <= Total(tasks)
    ensures |Redundant(pods, Quotas(tasks))| >= |pods| - Total(tasks)
  {
    forall t | t in Quotas(tasks) ensures Occurs(tasks, 0, t) {
      QuotaOccurs(tasks, t);
    }
    SparedOccur(pods, Quotas(tasks), tasks);
    CountFromAll(Spared(pods, Quotas(tasks)), tasks);
    SparedBound(pods, tasks, 0);
    SparedPartition(pods, Quotas(tasks));
  }

  // ---- when exactly `replicas` pods are spared

  /** Each task either counts towards its type's quota, with enough pods listed, or
      asks for nothing. */
  ghost predicate EnoughOfEachType(pods: seq<Pod>, tasks: seq<Task>, k: nat) {
    forall l | k <= l < |tasks| ::
      if Occurs(tasks, l + 1, tasks[l].taskType) then tasks[l].replicas == 0
      else TypeCount(pods, tasks[l].taskType) >= tasks[l].replicas
  }

  /** The quotas add up to the replicas: a task whose type occurs again asks for nothing. */
  ghost predicate QuotasCover(tasks: seq<Task>) {
    forall l | 0 <= l < |tasks| && Occurs(tasks, l + 1, tasks[l].taskType) :: tasks[l].replicas == 0
  }

  lemma EnoughNext(pods: seq<Pod>, tasks: seq<Task>, k: nat)
    requires k < |tasks|
    ensures EnoughOfEachType(pods, tasks, k) <==>
      && EnoughOfEachType(pods, tasks, k + 1)
      && if Occurs(tasks, k + 1, tasks[k].taskType) then tasks[k].replicas == 0
         else TypeCount(pods, tasks[k].taskType) >= tasks[k].replicas
  {
    hide Occurs, TypeCount;
  }

  lemma {:induction false} SparedExact(pods: seq<Pod>, tasks: seq<Task>, k: nat)
    requires k <= |tasks|
    ensures CountFrom(Spared(pods, Quotas(tasks)), tasks, k) == Total(tasks) - Offset(tasks, k)
      <==> EnoughOfEachType(pods, tasks, k)
    decreases |tasks| - k
  {
    hide *;
    if k == |tasks| {
      NothingLeft(pods, tasks);
    } else {
      SparedExact(pods, tasks, k + 1);
      SparedBound(pods, tasks, k + 1);
      SparedShare(pods, tasks, k);
      EnoughNext(pods, tasks, k);
    }
  }

  lemma NothingLeft(pods: seq<Pod>, tasks: seq<Task>)
    ensures CountFrom(Spared(pods, Quotas(tasks)), tasks, |tasks|) == Total(tasks) - Offset(tasks, |tasks|)
    ensures EnoughOfEachType(pods, tasks, |tasks|)
  {
    hide Spared, Quotas, CountFrom;
    CountFromEnd(Spared(pods, Quotas(tasks)), tasks);
  }

  /** What task k adds to the spared pods: its replicas as far as there are pods, or
      nothing when its quota was overwritten. */
  lemma SparedShare(pods: seq<Pod>, tasks: seq<Task>, k: nat)
    requires k < |tasks|
    ensures var kept, t, r := Spared(pods, Quotas(tasks)), tasks[k].taskType, tasks[k].replicas;
      CountFrom(kept, tasks, k) == CountFrom(kept, tasks, k + 1)
        + if Occurs(tasks, k + 1, t) then 0 else if TypeCount(pods, t) < r then TypeCount(pods, t) else r
    ensures Offset(tasks, k + 1) == Offset(tasks, k) + tasks[k].replicas
  {
    hide Spared, Quotas, TypeCount, CountFrom, Occurs, EnoughOfEachType;
    CountFromStep(Spared(pods, Quotas(tasks)), tasks, k);
    if !Occurs(tasks, k + 1, tasks[k].taskType) {
      QuotaOfLast(tasks, k);
      SparedOfType(pods, Quotas(tasks), tasks[k].taskType);
    }
  }

  /** Exactly `replicas` pods are spared if and only if every task whose type does
      not occur again has enough pods of its type listed, and every other task has
      no replicas: its quota was overwritten. */
  lemma SparedTotalIff(pods: seq<Pod>, tasks: seq<Task>)
    ensures |Spared(pods, Quotas(tasks))| == Total(tasks) <==> EnoughOfEachType(pods, tasks, 0)
  {
    forall t | t in Quotas(tasks) ensures Occurs(tasks, 0, t) {
      QuotaOccurs(tasks, t);
    }
    SparedOccur(pods, Quotas(tasks), tasks);
    CountFromAll(Spared(pods, Quotas(tasks)), tasks);
    SparedExact(pods, tasks, 0);
  }

  // ---- what is left in the cluster

  ghost predicate DistinctPodNames(pods: seq<Pod>) {
    forall a, b | 0 <= a < b < |pods| :: pods[a].meta.name != pods[b].meta.name
  }

  lemma {:induction false} NamesSize(pods: seq<Pod>)
    requires DistinctPodNames(pods)
    ensures |Names(pods)| == |pods|
  {
    if pods != [] {
      assert pods == [pods[0]] + pods[1..];
      NamesSize(pods[1..]);
      assert Names(pods) == {pods[0].meta.name} + Names(pods[1..]);
      assert pods[0].meta.name !in Names(pods[1..]);
    }
  }

  lemma {:induction false} RedundantDistinct(pods: seq<Pod>, q: map<string, nat>)
    requires DistinctPodNames(pods)
    ensures DistinctPodNames(Redundant(pods, q))
  {
    if pods != [] {
      var t := pods[0].meta.taskType;
      RedundantDistinct(pods[1..], if Quota(q, t) > 0 then q[t := q[t] - 1] else q);
      assert forall p | p in pods[1..] :: p.meta.name != pods[0].meta.name;
    }
  }

  /** Removing listed live pods leaves the others. */
  lemma LiveAfterDelete(list: seq<Pod>, s: Store, gone: seq<Pod>)
    requires IsListing(list, s) && DistinctPodNames(gone)
    requires forall p | p in gone :: p in LivePods(list)
    ensures Live(s - Names(gone)).Keys == Live(s).Keys - Names(gone)
    ensures |Live(s - Names(gone))| == |LivePods(list)| - |gone|
  {
    LiveListing(list, s);
    assert Names(gone) <= Live(s).Keys;
    hide LivePods, IsListing, DistinctPodNames;
    NamesSize(gone);
    LiveWithout(s, Names(gone));
    hide Live, Names;
    var left := Live(s - Names(gone));
    assert |left| == |left.Keys| && |Live(s)| == |Live(s).Keys|;
  }

  lemma LiveWithout(s: Store, names: set<string>)
    ensures Live(s - names).Keys == Live(s).Keys - names
  {
  }

  /** After a deleteRedundantReplicas whose deletes all take effect, the live pods
      are as many as were spared: never more than `replicas`, and exactly `replicas`
      if and only if there were enough of each type. */
  lemma RedundantDeleted(tasks: seq<Task>, list: seq<Pod>, s: Store, f: Faults)
    requires IsListing(list, s) && f.delete == map[]
    ensures var pods := LivePods(list);
      var d := DeleteList(s, Redundant(pods, Quotas(tasks)), f);
      && d == Done(s - Names(Redundant(pods, Quotas(tasks))), true)
      && |Live(d.store)| == |Spared(pods, Quotas(tasks))| <= Total(tasks)
      && (|Live(d.store)| == Total(tasks) <==> EnoughOfEachType(pods, tasks, 0))
  {
    var pods := LivePods(list);
    var gone := Redundant(pods, Quotas(tasks));
    LiveListing(list, s);
    hide IsListing, Redundant, Spared, Quotas, LivePods, EnoughOfEachType;
    DeleteListExact(s, gone, f);
    RedundantDistinct(pods, Quotas(tasks));
    LiveAfterDelete(list, s, gone);
    SparedPartition(pods, Quotas(tasks));
    SparedAtMostTotal(pods, tasks);
    SparedTotalIff(pods, tasks);
  }
}
