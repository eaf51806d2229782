/** pkg/utils/util.go: names, and predicates and counts over pods. */
module Util {
  import opened Wrappers
  import opened Api
  import opened Text

  function ReplicaName(jobName: string, taskName: string, rank: nat): string {
    jobName + "-" + taskName + "-" + Itoa(rank)
  }

  function PodFQDN(name: string, subdomain: string, namespace: string, domain: string): string {
    name + "." + subdomain + "." + namespace + "." + domain
  }

  /** Within one job a pod name determines its task name and local rank, whatever
      dashes and digits the task names contain. */
  lemma ReplicaNameInjective(job: string, t: string, i: nat, u: string, j: nat)
    requires ReplicaName(job, t, i) == ReplicaName(job, u, j)
    ensures t == u && i == j
  {
    LastDashUnique(job + "-" + t, Itoa(i), job + "-" + u, Itoa(j));
    CommonPrefix(job + "-", t, u);
    AtoiItoa(i);
    AtoiItoa(j);
  }

  predicate IsPodTerminating(p: Pod) { p.status.terminating }

  predicate IsPodLive(p: Pod) { !p.status.terminating }

  predicate IsPodSucceeded(p: Pod) { p.status.phase == PodSucceeded }

  predicate ExitedWith143(p: Pod) {
    exists c | c in p.status.containers :: c.exitCode == Some(143)
  }

  predicate IsPodFailed(p: Pod, preemptible: bool) {
    && (p.status.phase == PodUnknown || p.status.phase == PodFailed)
    && p.status.reason != "UnexpectedAdmissionError"
    && !("Outof" <= p.status.reason)
    && !(preemptible && ExitedWith143(p))
    && !p.status.terminating
  }

  predicate IsScheduledCondition(c: PodCondition) {
    c.conditionType == "PodScheduled" && c.status == "True"
  }

  function ScheduledConditions(cs: seq<PodCondition>): nat {
    if cs == [] then 0
    else (if IsScheduledCondition(cs[0]) then 1 else 0) + ScheduledConditions(cs[1..])
  }

  function ReadyContainers(cs: seq<ContainerStatus>): nat {
    if cs == [] then 0 else (if cs[0].ready then 1 else 0) + ReadyContainers(cs[1..])
  }

  function ScheduledCount(pods: seq<Pod>): nat {
    if pods == [] then 0 else ScheduledConditions(pods[0].status.conditions) + ScheduledCount(pods[1..])
  }

  function ReadyCount(pods: seq<Pod>): nat {
    if pods == [] then 0
    else
      (if IsPodTerminating(pods[0]) then 0 else ReadyContainers(pods[0].status.containers)) + ReadyCount(pods[1..])
  }

  function SucceededCount(pods: seq<Pod>): nat {
    if pods == [] then 0 else (if IsPodSucceeded(pods[0]) then 1 else 0) + SucceededCount(pods[1..])
  }

  function FailedCount(pods: seq<Pod>, preemptible: bool): nat {
    if pods == [] then 0
    else (if IsPodFailed(pods[0], preemptible) then 1 else 0) + FailedCount(pods[1..], preemptible)
  }

  function FilterPods(pods: seq<Pod>, keep: Pod -> bool): (kept: seq<Pod>)
    ensures forall p :: p in kept <==> p in pods && keep(p)
  {
    if pods == [] then []
    else (if keep(pods[0]) then [pods[0]] else []) + FilterPods(pods[1..], keep)
  }

  function LivePods(pods: seq<Pod>): seq<Pod> { FilterPods(pods, IsPodLive) }

  function TerminatingPods(pods: seq<Pod>): seq<Pod> { FilterPods(pods, IsPodTerminating) }

  function FailedPods(pods: seq<Pod>, preemptible: bool): (failed: seq<Pod>)
    ensures forall p :: p in failed <==> p in pods && IsPodFailed(p, preemptible)
  {
    if pods == [] then []
    else (if IsPodFailed(pods[0], preemptible) then [pods[0]] else []) + FailedPods(pods[1..], preemptible)
  }

  // ---- the loops of util.go, each proved against the count it computes

  method CountScheduledPods(pods: seq<Pod>) returns (count: nat)
    ensures count == ScheduledCount(pods)
  {
    count := 0;
    for i := 0 to |pods|
      invariant count + ScheduledCount(pods[i..]) == ScheduledCount(pods)
    {
      var cs := pods[i].status.conditions;
      ghost var before := count;
      for j := 0 to |cs|
        invariant count + ScheduledConditions(cs[j..]) == before + ScheduledConditions(cs)
      {
        if IsScheduledCondition(cs[j]) {
          count := count + 1;
        }
      }
    }
  }

  method CountReadyPods(pods: seq<Pod>) returns (count: nat)
    ensures count == ReadyCount(pods)
  {
    count := 0;
    for i := 0 to |pods|
      invariant count + ReadyCount(pods[i..]) == ReadyCount(pods)
    {
      if !IsPodTerminating(pods[i]) {
        var cs := pods[i].status.containers;
        ghost var before := count;
        for j := 0 to |cs|
          invariant count + ReadyContainers(cs[j..]) == before + ReadyContainers(cs)
        {
          if cs[j].ready {
            count := count + 1;
          }
        }
      }
    }
  }

  /** A succeeded pod is never also counted as failed: the two phases differ. */
  method CountCompletedPods(pods: seq<Pod>, preemptible: bool) returns (succeeded: nat, failed: nat)
    ensures succeeded == SucceededCount(pods)
    ensures failed == FailedCount(pods, preemptible)
  {
    succeeded, failed := 0, 0;
    for i := 0 to |pods|
      invariant succeeded + SucceededCount(pods[i..]) == SucceededCount(pods)
      invariant failed + FailedCount(pods[i..], preemptible) == FailedCount(pods, preemptible)
    {
      if IsPodSucceeded(pods[i]) {
        succeeded := succeeded + 1;
      } else if IsPodFailed(pods[i], preemptible) {
        failed := failed + 1;
      }
    }
  }

  // ---- what the counts mean

  lemma {:induction false} AllSucceededIff(pods: seq<Pod>)
    ensures SucceededCount(pods) <= |pods|
    ensures SucceededCount(pods) == |pods| <==> forall p | p in pods :: IsPodSucceeded(p)
  {
    if pods != [] {
      AllSucceededIff(pods[1..]);
      assert pods == [pods[0]] + pods[1..];
    }
  }

  lemma {:induction false} NoneFailedIff(pods: seq<Pod>, preemptible: bool)
    ensures FailedCount(pods, preemptible) == 0 <==> forall p | p in pods :: !IsPodFailed(p, preemptible)
  {
    if pods != [] {
      NoneFailedIff(pods[1..], preemptible);
      assert pods == [pods[0]] + pods[1..];
    }
  }

  predicate IsPodReady(p: Pod) { exists c | c in p.status.containers :: c.ready }

  /** With at most one container a pod, the count of ready containers reaches the
      number of live pods only when every one of them is ready. */
  lemma {:induction false} ReadyCountMeaning(pods: seq<Pod>)
    requires forall p | p in pods :: IsPodLive(p) && |p.status.containers| <= 1
    ensures ReadyCount(pods) == |FilterPods(pods, IsPodReady)| <= |pods|
  {
    if pods != [] {
      var cs := pods[0].status.containers;
      if cs != [] {
        assert ReadyContainers(cs[1..]) == 0;
        assert cs == [cs[0]];
      }
      ReadyCountMeaning(pods[1..]);
    }
  }

  // ---- the counts as numbers of positions in the listing

  /** (i, j): container j of pod i, which is not terminating, is ready. */
  ghost function ReadyCells(pods: seq<Pod>): set<(nat, nat)> {
    set i: nat, j: nat | i < |pods| && !pods[i].status.terminating
      && j < |pods[i].status.containers| && pods[i].status.containers[j].ready :: (i, j)
  }

  /** (i, j): condition j of pod i says that it has been scheduled. */
  ghost function ScheduledCells(pods: seq<Pod>): set<(nat, nat)> {
    set i: nat, j: nat | i < |pods| && j < |pods[i].status.conditions|
      && pods[i].status.conditions[j].conditionType == "PodScheduled"
      && pods[i].status.conditions[j].status == "True" :: (i, j)
  }

  ghost function Row(i: nat, js: set<nat>): set<(nat, nat)> { set j | j in js :: (i, j) }

  lemma {:induction false} RowSize(i: nat, js: set<nat>)
    ensures |Row(i, js)| == |js|
  {
    if js != {} {
      var j :| j in js;
      RowSize(i, js - {j});
      assert Row(i, js) == Row(i, js - {j}) + {(i, j)};
    } else {
      assert Row(i, js) == {};
    }
  }

  lemma OneMoreRow(cells: set<(nat, nat)>, i: nat, js: set<nat>)
    requires forall c | c in cells :: c.0 < i
    ensures |cells + Row(i, js)| == |cells| + |js|
  {
    RowSize(i, js);
    assert cells !! Row(i, js);
  }

  ghost function ReadyIn(cs: seq<ContainerStatus>): set<nat> { set j: nat | j < |cs| && cs[j].ready :: j }

  ghost function ScheduledIn(cs: seq<PodCondition>): set<nat> {
    set j: nat | j < |cs| && cs[j].conditionType == "PodScheduled" && cs[j].status == "True" :: j
  }

  lemma {:induction false} ReadySnoc(cs: seq<ContainerStatus>, c: ContainerStatus)
    ensures ReadyContainers(cs + [c]) == ReadyContainers(cs) + if c.ready then 1 else 0
  {
    if cs == [] {
      assert ([] + [c])[1..] == [];
    } else {
      assert (cs + [c])[1..] == cs[1..] + [c];
      ReadySnoc(cs[1..], c);
    }
  }

  lemma {:induction false} ScheduledSnoc(cs: seq<PodCondition>, c: PodCondition)
    ensures ScheduledConditions(cs + [c]) == ScheduledConditions(cs) + if IsScheduledCondition(c) then 1 else 0
  {
    if cs == [] {
      assert ([] + [c])[1..] == [];
    } else {
      assert (cs + [c])[1..] == cs[1..] + [c];
      ScheduledSnoc(cs[1..], c);
    }
  }

  lemma {:induction false} ReadyInSize(cs: seq<ContainerStatus>)
    ensures ReadyContainers(cs) == |ReadyIn(cs)|
  {
    if cs == [] {
      assert ReadyIn(cs) == {};
    } else {
      var init, last := cs[..|cs| - 1], cs[|cs| - 1];
      ReadyInSize(init);
      ReadySnoc(init, last);
      assert cs == init + [last];
      assert ReadyIn(cs) == ReadyIn(init) + if last.ready then {|init|} else {};
    }
  }

  lemma ScheduledInLast(cs: seq<PodCondition>)
    requires cs != []
    ensures var init, last := cs[..|cs| - 1], cs[|cs| - 1];
      |ScheduledIn(cs)| == |ScheduledIn(init)| + if IsScheduledCondition(last) then 1 else 0
  {
    var init, last := cs[..|cs| - 1], cs[|cs| - 1];
    ScheduledInIs(cs);
    ScheduledInIs(init);
    hide IsScheduledCondition, ScheduledIn;
    assert forall j: nat | j < |init| :: init[j] == cs[j];
    assert ScheduledIn(cs) == ScheduledIn(init) + if IsScheduledCondition(last) then {|init|} else {};
  }

  lemma ScheduledInIs(cs: seq<PodCondition>)
    ensures forall j: nat :: j in ScheduledIn(cs) <==> j < |cs| && IsScheduledCondition(cs[j])
  {
  }

  lemma {:induction false} ScheduledInSize(cs: seq<PodCondition>)
    ensures ScheduledConditions(cs) == |ScheduledIn(cs)|
  {
    if cs == [] {
      assert ScheduledIn(cs) == {};
    } else {
      var init, last := cs[..|cs| - 1], cs[|cs| - 1];
      ScheduledInSize(init);
      ScheduledSnoc(init, last);
      assert cs == init + [last];
      hide IsScheduledCondition, ScheduledIn, ScheduledConditions;
      ScheduledInLast(cs);
    }
  }

  lemma {:induction false} ReadyCountSnoc(pods: seq<Pod>, p: Pod)
    ensures ReadyCount(pods + [p]) ==
      ReadyCount(pods) + if p.status.terminating then 0 else ReadyContainers(p.status.containers)
  {
    if pods == [] {
      assert ([] + [p])[1..] == [];
    } else {
      assert (pods + [p])[1..] == pods[1..] + [p];
      ReadyCountSnoc(pods[1..], p);
    }
  }

  lemma {:induction false} ScheduledCountSnoc(pods: seq<Pod>, p: Pod)
    ensures ScheduledCount(pods + [p]) == ScheduledCount(pods) + ScheduledConditions(p.status.conditions)
  {
    if pods == [] {
      assert ([] + [p])[1..] == [];
    } else {
      assert (pods + [p])[1..] == pods[1..] + [p];
      ScheduledCountSnoc(pods[1..], p);
    }
  }

  lemma ReadyCellsLast(pods: seq<Pod>)
    requires pods != []
    ensures var init, last := pods[..|pods| - 1], pods[|pods| - 1];
      ReadyCells(pods) ==
        ReadyCells(init) + Row(|init|, if last.status.terminating then {} else ReadyIn(last.status.containers))
  {
    var init := pods[..|pods| - 1];
    assert forall i: nat | i < |init| :: init[i] == pods[i];
  }

  lemma ScheduledCellsLast(pods: seq<Pod>)
    requires pods != []
    ensures var init, last := pods[..|pods| - 1], pods[|pods| - 1];
      ScheduledCells(pods) == ScheduledCells(init) + Row(|init|, ScheduledIn(last.status.conditions))
  {
    var init := pods[..|pods| - 1];
    assert forall i: nat | i < |init| :: init[i] == pods[i];
  }

  lemma CellsBelow(pods: seq<Pod>)
    ensures forall c | c in ReadyCells(pods) || c in ScheduledCells(pods) :: c.0 < |pods|
    ensures pods == [] ==> ReadyCells(pods) == {} && ScheduledCells(pods) == {}
  {
  }

  /** CountReadyPods counts the ready containers of pods that are not terminating. */
  lemma {:induction false} ReadyCellsSize(pods: seq<Pod>)
    ensures ReadyCount(pods) == |ReadyCells(pods)|
  {
    CellsBelow(pods);
    if pods != [] {
      hide ReadyCount, ReadyContainers, ReadyCells, ReadyIn, Row;
      var init, last := pods[..|pods| - 1], pods[|pods| - 1];
      var js := if last.status.terminating then {} else ReadyIn(last.status.containers);
      ReadyCellsSize(init);
      ReadyCountSnoc(init, last);
      ReadyInSize(last.status.containers);
      assert pods == init + [last];
      CellsBelow(init);
      OneMoreRow(ReadyCells(init), |init|, js);
      ReadyCellsLast(pods);
    }
  }

  /** CountScheduledPods counts the conditions that say PodScheduled is True. */
  lemma {:induction false} ScheduledCellsSize(pods: seq<Pod>)
    ensures ScheduledCount(pods) == |ScheduledCells(pods)|
  {
    CellsBelow(pods);
    if pods != [] {
      hide ScheduledCount, ScheduledConditions, ScheduledCells, ScheduledIn, Row;
      var init, last := pods[..|pods| - 1], pods[|pods| - 1];
      ScheduledCellsSize(init);
      ScheduledCountSnoc(init, last);
      ScheduledInSize(last.status.conditions);
      assert pods == init + [last];
      CellsBelow(init);
      OneMoreRow(ScheduledCells(init), |init|, ScheduledIn(last.status.conditions));
      ScheduledCellsLast(pods);
    }
  }

  // ---- the texts by their parts

  /** For dash-free names the parts of a pod name are job, task and local rank. */
  lemma ReplicaNameParts(job: string, task: string, rank: nat)
    requires '-' !in job && '-' !in task
    ensures Split(ReplicaName(job, task, rank), '-') == [job, task, Itoa(rank)]
  {
    assert ReplicaName(job, task, rank) == job + ['-'] + (task + ['-'] + Itoa(rank));
    SplitHead(job, '-', task + ['-'] + Itoa(rank));
    SplitHead(task, '-', Itoa(rank));
    assert AllDigits(Itoa(rank)) && '-' !in Itoa(rank);
    SplitWhole(Itoa(rank), '-');
  }

  /** For dot-free names the parts of an address are pod, subdomain, namespace and the
      parts of the domain. */
  lemma FQDNParts(name: string, subdomain: string, namespace: string, domain: string)
    requires '.' !in name && '.' !in subdomain && '.' !in namespace
    ensures Split(PodFQDN(name, subdomain, namespace, domain), '.') == [name, subdomain, namespace] + Split(domain, '.')
  {
    var tail := namespace + ['.'] + domain;
    assert PodFQDN(name, subdomain, namespace, domain) == name + ['.'] + (subdomain + ['.'] + tail);
    SplitHead(name, '.', subdomain + ['.'] + tail);
    SplitHead(subdomain, '.', tail);
    SplitHead(namespace, '.', domain);
  }
}
