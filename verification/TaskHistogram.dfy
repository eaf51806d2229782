/** The TaskStatus of a job: its pods counted by task label and pod phase. */
module TaskHistogram {
  import opened Api
  import opened Replicas

  function OfTask(pods: seq<Pod>, taskName: string): seq<Pod> {
    if pods == [] then []
    else
      var last := pods[|pods| - 1];
      OfTask(pods[..|pods| - 1], taskName) + if last.meta.taskName == taskName then [last] else []
  }

  function PhaseCount(pods: seq<Pod>, phase: PodPhase): nat {
    if pods == [] then 0
    else PhaseCount(pods[..|pods| - 1], phase) + if pods[|pods| - 1].status.phase == phase then 1 else 0
  }

  lemma {:induction false} OfTaskMembers(pods: seq<Pod>, taskName: string)
    ensures forall p :: p in OfTask(pods, taskName) <==> p in pods && p.meta.taskName == taskName
  {
    if pods != [] {
      OfTaskMembers(pods[..|pods| - 1], taskName);
      assert pods == pods[..|pods| - 1] + [pods[|pods| - 1]];
    }
  }

  lemma {:induction false} CountOfTask(pods: seq<Pod>, taskName: string, phase: PodPhase)
    ensures PhaseCount(OfTask(pods, taskName), phase) == CountOf(pods, taskName, phase)
  {
    if pods != [] {
      var init, last := pods[..|pods| - 1], pods[|pods| - 1];
      CountOfTask(init, taskName, phase);
      var all := OfTask(pods, taskName);
      if last.meta.taskName == taskName {
        assert all[..|all| - 1] == OfTask(init, taskName);
      } else {
        assert all == OfTask(init, taskName);
      }
    }
  }

  lemma PrefixStep(pods: seq<Pod>, i: nat)
    requires i < |pods|
    ensures pods[..i + 1][..i] == pods[..i]
    ensures TaskNames(pods[..i + 1]) == TaskNames(pods[..i]) + {pods[i].meta.taskName}
    ensures (set p | p in pods[..i + 1] :: p.status.phase) ==
      (set p | p in pods[..i] :: p.status.phase) + {pods[i].status.phase}
  {
    assert pods[..i + 1] == pods[..i] + [pods[i]];
  }

  lemma {:induction false} AbsentTask(pods: seq<Pod>, t: string)
    requires t !in TaskNames(pods)
    ensures OfTask(pods, t) == []
  {
    if pods != [] {
      assert pods == pods[..|pods| - 1] + [pods[|pods| - 1]];
      assert pods[|pods| - 1] in pods;
      AbsentTask(pods[..|pods| - 1], t);
    }
  }

  lemma {:induction false} AbsentPhase(pods: seq<Pod>, ph: PodPhase)
    requires ph !in (set p | p in pods :: p.status.phase)
    ensures PhaseCount(pods, ph) == 0
  {
    if pods != [] {
      assert pods == pods[..|pods| - 1] + [pods[|pods| - 1]];
      assert pods[|pods| - 1] in pods;
      AbsentPhase(pods[..|pods| - 1], ph);
    }
  }

  /** SplitTypedPods: the pods of each task label, in listing order. */
  method SplitTypedPods(pods: seq<Pod>) returns (out: map<string, seq<Pod>>)
    ensures out.Keys == TaskNames(pods)
    ensures forall t | t in out :: out[t] == OfTask(pods, t)
  {
    out := map[];
    for i := 0 to |pods|
      invariant out.Keys == TaskNames(pods[..i])
      invariant forall t | t in out :: out[t] == OfTask(pods[..i], t)
    {
      var t := pods[i].meta.taskName;
      PrefixStep(pods, i);
      if t !in out {
        AbsentTask(pods[..i], t);
        out := out[t := []];
      }
      assert forall u | u in out :: OfTask(pods[..i + 1], u) == OfTask(pods[..i], u) + if u == t then [pods[i]] else [];
      out := out[t := out[t] + [pods[i]]];
    }
    assert pods[..|pods|] == pods;
  }

  /** The inner loop of updateStatusReplicas. */
  method CountPhases(pods: seq<Pod>) returns (status: map<PodPhase, int>)
    ensures status.Keys == set p | p in pods :: p.status.phase
    ensures forall ph | ph in status :: status[ph] == PhaseCount(pods, ph)
  {
    status := map[];
    for i := 0 to |pods|
      invariant status.Keys == set p | p in pods[..i] :: p.status.phase
      invariant forall ph | ph in status :: status[ph] == PhaseCount(pods[..i], ph)
    {
      var ph := pods[i].status.phase;
      PrefixStep(pods, i);
      if ph !in status {
        AbsentPhase(pods[..i], ph);
      }
      status := status[ph := (if ph in status then status[ph] else 0) + 1];
    }
    assert pods[..|pods|] == pods;
  }

  /** The nested maps that updateStatusReplicas stores. */
  method CountTaskStatus(pods: seq<Pod>) returns (tasksStatus: TaskStatuses)
    ensures tasksStatus == Histogram(pods)
  {
    var taskPods := SplitTypedPods(pods);
    tasksStatus := map[];
    var rest := taskPods.Keys;
    while rest != {}
      invariant rest <= taskPods.Keys
      invariant tasksStatus.Keys == taskPods.Keys - rest
      invariant forall t | t in tasksStatus :: tasksStatus[t] == Histogram(pods)[t]
      decreases |rest|
    {
      var t :| t in rest;
      var status := CountPhases(taskPods[t]);
      RowIs(pods, t, status);
      tasksStatus := tasksStatus[t := status];
      rest := rest - {t};
    }
  }

  lemma RowIs(pods: seq<Pod>, t: string, row: map<PodPhase, int>)
    requires t in TaskNames(pods)
    requires row.Keys == set p | p in OfTask(pods, t) :: p.status.phase
    requires forall ph | ph in row :: row[ph] == PhaseCount(OfTask(pods, t), ph)
    ensures row == Histogram(pods)[t]
  {
    OfTaskMembers(pods, t);
    assert row.Keys == PhasesOf(pods, t);
    forall ph | ph in row ensures row[ph] == CountOf(pods, t, ph) {
      CountOfTask(pods, t, ph);
    }
  }

  // ---- nothing is lost and nothing is counted twice

  function At(h: TaskStatuses, t: string, ph: PodPhase): int {
    if t in h && ph in h[t] then h[t][ph] else 0
  }

  function RowTotal(h: TaskStatuses, t: string): int {
    At(h, t, PodPending) + At(h, t, PodRunning) + At(h, t, PodSucceeded) + At(h, t, PodFailed) + At(h, t, PodUnknown)
  }

  ghost function SumRows(h: TaskStatuses, names: set<string>): int {
    if names == {} then 0
    else
      var t :| t in names;
      RowTotal(h, t) + SumRows(h, names - {t})
  }

  function CountIn(pods: seq<Pod>, names: set<string>): nat {
    if pods == [] then 0
    else CountIn(pods[..|pods| - 1], names) + if pods[|pods| - 1].meta.taskName in names then 1 else 0
  }

  lemma {:induction false} CountInSplit(pods: seq<Pod>, names: set<string>, t: string)
    requires t in names
    ensures CountIn(pods, names) == CountIn(pods, names - {t}) + CountIn(pods, {t})
  {
    if pods != [] {
      CountInSplit(pods[..|pods| - 1], names, t);
    }
  }

  lemma {:induction false} CountByPhase(pods: seq<Pod>, t: string)
    ensures CountIn(pods, {t}) == CountOf(pods, t, PodPending) + CountOf(pods, t, PodRunning)
      + CountOf(pods, t, PodSucceeded) + CountOf(pods, t, PodFailed) + CountOf(pods, t, PodUnknown)
  {
    if pods != [] {
      CountByPhase(pods[..|pods| - 1], t);
    }
  }

  lemma {:induction false} CountZero(pods: seq<Pod>, t: string, ph: PodPhase)
    requires t !in TaskNames(pods) || ph !in PhasesOf(pods, t)
    ensures CountOf(pods, t, ph) == 0
  {
    if pods != [] {
      var init, last := pods[..|pods| - 1], pods[|pods| - 1];
      assert pods == init + [last] && last in pods;
      CountZero(init, t, ph);
    }
  }

  lemma AtIsCount(pods: seq<Pod>, t: string, ph: PodPhase)
    ensures At(Histogram(pods), t, ph) == CountOf(pods, t, ph)
  {
    if t !in TaskNames(pods) || ph !in PhasesOf(pods, t) {
      CountZero(pods, t, ph);
    }
  }

  lemma RowCounts(pods: seq<Pod>, h: TaskStatuses, t: string)
    requires forall ph :: At(h, t, ph) == CountOf(pods, t, ph)
    ensures RowTotal(h, t) == CountIn(pods, {t})
  {
    hide At;
    CountByPhase(pods, t);
  }

  lemma {:induction false} SumRowsCounts(pods: seq<Pod>, h: TaskStatuses, names: set<string>)
    requires forall t, ph :: At(h, t, ph) == CountOf(pods, t, ph)
    ensures SumRows(h, names) == CountIn(pods, names)
    decreases |names|
  {
    hide At, RowTotal, CountIn, CountOf;
    if names == {} {
      NoneIn(pods);
    } else {
      var t :| t in names && SumRows(h, names) == RowTotal(h, t) + SumRows(h, names - {t});
      SumRowsCounts(pods, h, names - {t});
      CountInSplit(pods, names, t);
      RowCounts(pods, h, t);
    }
  }

  lemma {:induction false} NoneIn(pods: seq<Pod>)
    ensures CountIn(pods, {}) == 0
  {
    if pods != [] {
      NoneIn(pods[..|pods| - 1]);
    }
  }

  lemma {:induction false} AllIn(pods: seq<Pod>, names: set<string>)
    requires forall p | p in pods :: p.meta.taskName in names
    ensures CountIn(pods, names) == |pods|
  {
    if pods != [] {
      assert pods[|pods| - 1] in pods;
      AllIn(pods[..|pods| - 1], names);
    }
  }

  /** TaskStatus is the exact histogram of the listed pods: every entry is the number
      of pods with that label and phase, and all entries together count every pod
      once. */
  lemma HistogramExact(pods: seq<Pod>)
    ensures forall t, ph :: At(Histogram(pods), t, ph) == CountOf(pods, t, ph)
    ensures SumRows(Histogram(pods), Histogram(pods).Keys) == |pods|
  {
    HistogramKeys(pods);
    hide Histogram, At, CountOf;
    forall t, ph ensures At(Histogram(pods), t, ph) == CountOf(pods, t, ph) {
      AtIsCount(pods, t, ph);
    }
    SumRowsCounts(pods, Histogram(pods), TaskNames(pods));
    AllIn(pods, TaskNames(pods));
  }

  lemma HistogramKeys(pods: seq<Pod>)
    ensures Histogram(pods).Keys == TaskNames(pods)
  {
  }
}
