/** What a live pod whose local rank no longer fits its task does to a job that
    misses pods and is not preemptible: creating stops at that task. */
module Blocked {
  import opened Wrappers
  import opened Api
  import opened Util
  import opened Pods
  import opened Cluster
  import opened Replicas
  import opened Validator
  import opened Uniqueness
  import opened Building
  import opened Missed
  import opened Controller
  import opened Runs
  import opened Rounds

  /** A listed pod of task m has a local rank the task no longer has. */
  ghost predicate Overflows(tasks: seq<Task>, pods: seq<Pod>, m: nat)
    requires m < |tasks|
  {
    exists p | p in pods :: p.meta.taskName == tasks[m].name && LocalRankOf(p) >= tasks[m].replicas
  }

  /** createMissedReplicas gets past the scans of tasks k to t. */
  ghost predicate Passes(tasks: seq<Task>, pods: seq<Pod>, k: nat, t: nat)
    requires t < |tasks|
  {
    forall m | k <= m <= t :: !Overflows(tasks, pods, m)
  }

  /** The slot is one that createMissedReplicas gets to from task k on. */
  ghost predicate Reached(tasks: seq<Task>, pods: seq<Pod>, k: nat, s: Slot) {
    InSpec(tasks, s) && k <= s.task && Passes(tasks, pods, k, s.task)
  }

  // ---- the names that are created

  ghost predicate CreatesUntaken(id: JobId, tasks: seq<Task>, k: nat, i: nat, taken: seq<bool>, creates: seq<Pod>)
    requires k < |tasks|
  {
    forall n :: n in Names(creates) <==>
      exists j | i <= j < |taken| :: !taken[j] && SlotName(id, tasks, Slot(k, j)) == n
  }

  lemma {:induction false} PlanTaskNames(id: JobId, spec: Spec, pods: seq<Pod>, allocation: seq<string>,
                                         k: nat, i: nat, taken: seq<bool>, next: int)
    requires k < |spec.tasks| && i <= |taken| && next >= -1
    requires !spec.preemptible && MaxRank(pods, 0).Some?
    ensures CreatesUntaken(id, spec.tasks, k, i, taken, PlanTask(id, spec, pods, allocation, k, i, taken, next).creates)
    decreases |taken| - i
  {
    hide BuildPod, SlotName, MaxRank, CreatesUntaken;
    if i == |taken| {
      UntakenNone(id, spec.tasks, k, taken);
    } else if taken[i] {
      PlanTaskNames(id, spec, pods, allocation, k, i + 1, taken, next);
      UntakenSkip(id, spec.tasks, k, i, taken, PlanTask(id, spec, pods, allocation, k, i + 1, taken, next).creates);
    } else {
      var top := if next == -1 then MaxRank(pods, 0) else Some(next - 1);
      BuildPodNone(id, spec, top.value + 1, allocation, Slot(k, i));
      BuildPodBuilt(id, spec, top.value + 1, allocation, Slot(k, i));
      PlanTaskNames(id, spec, pods, allocation, k, i + 1, taken, top.value + 2);
      UntakenCons(id, spec.tasks, k, i, taken, BuildPod(id, spec, top.value + 1, allocation, Slot(k, i)).value,
                  PlanTask(id, spec, pods, allocation, k, i + 1, taken, top.value + 2).creates);
    }
  }

  lemma UntakenNone(id: JobId, tasks: seq<Task>, k: nat, taken: seq<bool>)
    requires k < |tasks|
    ensures CreatesUntaken(id, tasks, k, |taken|, taken, [])
  {
  }

  lemma UntakenSkip(id: JobId, tasks: seq<Task>, k: nat, i: nat, taken: seq<bool>, creates: seq<Pod>)
    requires k < |tasks| && i < |taken| && taken[i] && CreatesUntaken(id, tasks, k, i + 1, taken, creates)
    ensures CreatesUntaken(id, tasks, k, i, taken, creates)
  {
    hide SlotName;
  }

  lemma UntakenCons(id: JobId, tasks: seq<Task>, k: nat, i: nat, taken: seq<bool>, p: Pod, creates: seq<Pod>)
    requires k < |tasks| && i < |taken| && !taken[i] && CreatesUntaken(id, tasks, k, i + 1, taken, creates)
    requires p.meta.name == SlotName(id, tasks, Slot(k, i))
    ensures CreatesUntaken(id, tasks, k, i, taken, [p] + creates)
  {
    hide SlotName;
    assert Names([p] + creates) == {p.meta.name} + Names(creates);
  }

  /** The names of the slots that are reached and that no listed pod holds. */
  ghost predicate CreatesReached(id: JobId, tasks: seq<Task>, pods: seq<Pod>, k: nat, creates: seq<Pod>) {
    forall n ::
      n in Names(creates) <==> n !in Names(pods) && exists s | Reached(tasks, pods, k, s) :: SlotName(id, tasks, s) == n
  }

  lemma {:induction false} PlanFromNames(id: JobId, spec: Spec, pods: seq<Pod>, allocation: seq<string>, k: nat,
                                         next: int)
    requires k <= |spec.tasks| && next >= -1
    requires !spec.preemptible && MaxRank(pods, 0).Some? && AllBuilt(id, pods)
    ensures CreatesReached(id, spec.tasks, pods, k, PlanFrom(id, spec, pods, allocation, k, next).creates)
    decreases |spec.tasks| - k
  {
    hide BuildPod, SlotName, MaxRank, AllBuilt, PlanTask, LocalRankOf, CreatesReached, Names;
    if k == |spec.tasks| {
      NoneReached(id, spec.tasks, pods, k);
    } else {
      ScanSpec(id, spec.tasks, k, pods, NoneTaken(spec.tasks[k].replicas));
      var scan := ScanTask(pods, spec.tasks[k].name, NoneTaken(spec.tasks[k].replicas));
      if scan.ScanError? {
        NoneReached(id, spec.tasks, pods, k);
      } else {
        var here := PlanTask(id, spec, pods, allocation, k, 0, scan.taken, next);
        PlanTaskNoPanic(id, spec, pods, allocation, k, 0, scan.taken, next);
        PlanTaskNames(id, spec, pods, allocation, k, 0, scan.taken, next);
        PlanFromNames(id, spec, pods, allocation, k + 1, here.next);
        ReachedSplit(id, spec.tasks, pods, k, scan.taken, here.creates,
                     PlanFrom(id, spec, pods, allocation, k + 1, here.next).creates);
      }
    }
  }

  lemma NoneReached(id: JobId, tasks: seq<Task>, pods: seq<Pod>, k: nat)
    requires k < |tasks| ==> Overflows(tasks, pods, k)
    ensures CreatesReached(id, tasks, pods, k, [])
  {
    hide SlotName, Overflows;
  }

  lemma ReachedSplit(id: JobId, tasks: seq<Task>, pods: seq<Pod>, k: nat, taken: seq<bool>, here: seq<Pod>,
                     rest: seq<Pod>)
    requires k < |tasks| && !Overflows(tasks, pods, k) && |taken| == tasks[k].replicas
    requires forall j | 0 <= j < |taken| :: taken[j] <==> SlotName(id, tasks, Slot(k, j)) in Names(pods)
    requires CreatesUntaken(id, tasks, k, 0, taken, here) && CreatesReached(id, tasks, pods, k + 1, rest)
    ensures CreatesReached(id, tasks, pods, k, here + rest)
  {
    hide SlotName, Overflows;
    assert Names(here + rest) == Names(here) + Names(rest);
    forall s: Slot ensures Reached(tasks, pods, k, s) <==>
      (InSpec(tasks, s) && s.task == k) || Reached(tasks, pods, k + 1, s)
    {
    }
    hide Names, Reached;
    forall n | n in Names(here)
      ensures n !in Names(pods) && exists s | Reached(tasks, pods, k, s) :: SlotName(id, tasks, s) == n {
      var j :| 0 <= j < |taken| && !taken[j] && SlotName(id, tasks, Slot(k, j)) == n;
      assert Reached(tasks, pods, k, Slot(k, j));
    }
    forall n | n !in Names(pods) && exists s | Reached(tasks, pods, k, s) :: SlotName(id, tasks, s) == n
      ensures n in Names(here) + Names(rest)
    {
      var s :| Reached(tasks, pods, k, s) && SlotName(id, tasks, s) == n;
      if !Reached(tasks, pods, k + 1, s) {
        assert s == Slot(k, s.local) && !taken[s.local];
      }
    }
  }

  // ---- exactly when a reconcile creates nothing

  /** Every slot that is reached stands under a stored name. */
  ghost predicate NothingToCreate(id: JobId, tasks: seq<Task>, pods: seq<Pod>, s: Store) {
    forall c | Reached(tasks, pods, 0, c) :: SlotName(id, tasks, c) in s
  }

  lemma CreatesNothingIff(id: JobId, spec: Spec, pods: seq<Pod>, allocation: seq<string>, s: Store, f: Faults)
    requires !spec.preemptible && AllBuilt(id, pods) && Names(pods) <= s.Keys && f.create == map[]
    ensures CreateMissed(id, spec, pods, allocation, s, f).store == s <==> NothingToCreate(id, spec.tasks, pods, s)
  {
    hide MissedPlan, AllBuilt, MaxRank, SlotName, Passes, CreateList;
    RanksBounded(id, pods);
    var creates := MissedPlan(id, spec, pods, allocation).creates;
    assert CreatesReached(id, spec.tasks, pods, 0, creates) by {
      MissedIsPlanFrom(id, spec, pods, allocation);
      PlanFromNames(id, spec, pods, allocation, 0, -1);
    }
    CreatesSucceed(s, creates, f);
    CreateListFrame(s, creates, f);
    var t := CreateList(s, creates, f).store;
    assert t == s <==> Names(creates) <= s.Keys by {
      assert forall n | n in t && n !in s :: t[n].meta.name in Names(creates);
      assert forall p | p in creates :: p.meta.name in t;
    }
    hide Names;
    if Names(creates) <= s.Keys {
      forall c | Reached(spec.tasks, pods, 0, c) ensures SlotName(id, spec.tasks, c) in s {
        assert SlotName(id, spec.tasks, c) in Names(creates) || SlotName(id, spec.tasks, c) in Names(pods);
      }
    }
  }

  lemma MissedIsPlanFrom(id: JobId, spec: Spec, pods: seq<Pod>, allocation: seq<string>)
    ensures MissedPlan(id, spec, pods, allocation) == PlanFrom(id, spec, pods, allocation, 0, -1)
  {
  }

  /** With live pods missing, a reconcile in Restarting whose creates go through leaves
      the pods as they are if and only if there is nothing to create before the first
      task that overflows. */
  lemma {:induction false} RestartBlockedIff(id: JobId, spec: Spec, st: Status, list: seq<Pod>, s: Store, f: Faults)
    requires !spec.preemptible && StoreInv(id, s) && IsListing(list, s) && f.create == map[]
    requires st.phase == Restarting && |Live(s)| < Total(spec.tasks)
    ensures var o := ReconcilePhase(id, spec, st, list, s, f);
      && o.status.phase == Restarting
      && (o.store == s <==> NothingToCreate(id, spec.tasks, LivePods(list), s))
  {
    hide UpdateReplicas, LivePods, Built, CreateMissed, NothingToCreate, IsListing, DistinctRanks, Live, Names;
    LiveListing(list, s);
    ListedLive(id, list, s);
    LiveNames(list, s);
    LiveKeys(s);
    UpdateReplicasFrame(spec, st, list);
    CreatesNothingIff(id, spec, LivePods(list), st.allocation, s, f);
  }

  lemma LiveKeys(s: Store)
    ensures Live(s).Keys <= s.Keys
  {
  }

  /** The same in Rescheduling, where the terminating pods are deleted first. */
  lemma {:induction false} RescheduleBlockedIff(id: JobId, spec: Spec, st: Status, list: seq<Pod>, s: Store)
    requires !spec.preemptible && StoreInv(id, s) && IsListing(list, s)
    requires st.phase == Rescheduling && |Live(s)| < Total(spec.tasks)
    ensures var o := ReconcilePhase(id, spec, st, list, s, NO_FAULTS);
      && o.status.phase == Rescheduling
      && (o.store == Live(s) <==> NothingToCreate(id, spec.tasks, LivePods(list), Live(s)))
  {
    hide LivePods, Built, CreateMissed, NothingToCreate, IsListing, DistinctRanks, Live, Names, ReconcilePhase,
      TerminatingPods,
      DeleteEach, DeleteList, Redundant;
    LiveListing(list, s);
    ListedLive(id, list, s);
    LiveNames(list, s);
    DeleteTerminating(id, list, s);
    RescheduleSteps(id, spec, st, list, s);
    CreatesNothingIff(id, spec, LivePods(list), st.allocation, Live(s), NO_FAULTS);
  }

  /** Such a reconcile ends with OutOfRange, unless terminating pods stand in the way. */
  lemma {:induction false} BlockedByOverflow(id: JobId, spec: Spec, st: Status, list: seq<Pod>, s: Store, f: Faults)
    requires !spec.preemptible && Acceptable(spec.tasks) && StoreInv(id, s) && IsListing(list, s) && f.create == map[]
    requires st.phase == Restarting && |Live(s)| < Total(spec.tasks)
    requires NothingToCreate(id, spec.tasks, LivePods(list), s)
    requires forall n | n in s && IsPodTerminating(s[n]) :: n !in SpecNames(id, spec.tasks)
    ensures ReconcilePhase(id, spec, st, list, s, f).err == OutOfRange
    ensures exists m | 0 <= m < |spec.tasks| :: Overflows(spec.tasks, LivePods(list), m)
  {
    hide *;
    var pods := LivePods(list);
    LiveListing(list, s);
    LiveBuilt(id, list, s);
    if AllInRange(spec.tasks, pods) {
      NoneOverflows(spec.tasks, pods);
      TooManyLive(id, spec, pods, s);
    }
    SomeOverflows(spec.tasks, pods);
    MissedErrIff(id, spec, pods, st.allocation);
    CreatesSucceed(s, MissedPlan(id, spec, pods, st.allocation).creates, f);
    CreatingErr(id, spec, st, list, s, f);
  }

  lemma LiveBuilt(id: JobId, list: seq<Pod>, s: Store)
    requires StoreInv(id, s) && IsListing(list, s)
    ensures AllBuilt(id, LivePods(list))
  {
    ListedLive(id, list, s);
  }

  lemma {:induction false} CreatingErr(id: JobId, spec: Spec, st: Status, list: seq<Pod>, s: Store, f: Faults)
    requires st.phase == Restarting && |LivePods(list)| < Total(spec.tasks)
    requires CreateList(s, MissedPlan(id, spec, LivePods(list), st.allocation).creates, f).ok
    ensures ReconcilePhase(id, spec, st, list, s, f).err == MissedPlan(id, spec, LivePods(list), st.allocation).err
  {
    hide UpdateReplicas, LivePods, MissedPlan, CreateList;
    UpdateReplicasFrame(spec, st, list);
  }

  lemma NoneOverflows(tasks: seq<Task>, pods: seq<Pod>)
    requires AllInRange(tasks, pods)
    ensures forall c | InSpec(tasks, c) :: Reached(tasks, pods, 0, c)
  {
    hide LocalRankOf;
  }

  lemma SomeOverflows(tasks: seq<Task>, pods: seq<Pod>)
    requires !AllInRange(tasks, pods)
    ensures exists m | 0 <= m < |tasks| :: Overflows(tasks, pods, m)
  {
    hide LocalRankOf;
    var p :| p in pods && !InRange(tasks, p);
    var m :| 0 <= m < |tasks| && tasks[m].name == p.meta.taskName && LocalRankOf(p) >= tasks[m].replicas;
    assert Overflows(tasks, pods, m);
  }

  lemma TooManyLive(id: JobId, spec: Spec, pods: seq<Pod>, s: Store)
    requires Acceptable(spec.tasks) && NothingToCreate(id, spec.tasks, pods, s)
    requires forall c | InSpec(spec.tasks, c) :: Reached(spec.tasks, pods, 0, c)
    requires forall n | n in s && IsPodTerminating(s[n]) :: n !in SpecNames(id, spec.tasks)
    ensures |Live(s)| >= Total(spec.tasks)
  {
    AcceptableDistinct(spec.tasks);
    SpecNamesSize(id, spec.tasks);
    hide SlotName, Reached, Acceptable;
    forall n | n in SpecNames(id, spec.tasks) ensures n in Live(s).Keys {
      SlotsInSpec(spec.tasks);
      var c :| c in Slots(spec.tasks) && c.task < |spec.tasks| && SlotName(id, spec.tasks, c) == n;
      assert InSpec(spec.tasks, c) && n in s;
    }
    hide SpecNames;
    SubsetSize(SpecNames(id, spec.tasks), Live(s).Keys);
    assert |Live(s)| == |Live(s).Keys|;
  }

  /** A live pod of the first task whose local rank no longer fits blocks the job:
      while pods are missing, every reconcile in Restarting ends with OutOfRange
      and changes neither the pods nor the phase. */
  lemma {:induction false} OutOfRangeBlocks(id: JobId, spec: Spec, st: Status, list: seq<Pod>, s: Store, f: Faults,
                                            n: string)
    requires StoreInv(id, s) && IsListing(list, s) && st.phase == Restarting
    requires |Live(s)| < Total(spec.tasks) && spec.tasks != []
    requires n in Live(s) && s[n].meta.taskName == spec.tasks[0].name && LocalRankOf(s[n]) >= spec.tasks[0].replicas
    ensures var o := ReconcilePhase(id, spec, st, list, s, f);
      o.err == OutOfRange && o.store == s && o.status.phase == Restarting
  {
    hide UpdateReplicas, LivePods, LocalRankOf, Built, PlanTask;
    var pods := LivePods(list);
    LiveListing(list, s);
    ListedLive(id, list, s);
    UpdateReplicasFrame(spec, st, list);
    ScanSpec(id, spec.tasks, 0, pods, NoneTaken(spec.tasks[0].replicas));
    assert s[n] in pods;
  }

  // ---- over runs

  /** Whether there is something to create depends on the live pods only. */
  lemma AnyListingBlocks(id: JobId, tasks: seq<Task>, list: seq<Pod>, list2: seq<Pod>, s: Store, s2: Store, t: Store)
    requires IsListing(list, s) && IsListing(list2, s2) && Live(s) == Live(s2)
    ensures NothingToCreate(id, tasks, LivePods(list), t) == NothingToCreate(id, tasks, LivePods(list2), t)
  {
    hide SlotName, IsPodLive, LocalRankOf;
    LiveListing(list, s);
    LiveListing(list2, s2);
    forall p ensures p in LivePods(list) <==> p in LivePods(list2) {
    }
    hide LivePods;
    assert forall m | 0 <= m < |tasks| :: Overflows(tasks, LivePods(list), m) == Overflows(tasks, LivePods(list2), m);
    hide Overflows;
    assert forall c :: Reached(tasks, LivePods(list), 0, c) == Reached(tasks, LivePods(list2), 0, c);
  }

  /** A job with live pods missing and nothing to create is in Restarting with the same
      pods after any number of undisturbed reconciles; any other one has a new pod
      after the first. */
  lemma {:induction false} RestartBlockedForEver(id: JobId, ws: seq<World>, lists: seq<seq<Pod>>, i: nat)
    requires |ws| == |lists| + 1 && 0 < i < |ws|
    requires ws[0].status.phase == Restarting && Defaulted(ws[0].spec) && Acceptable(ws[0].spec.tasks)
    requires !ws[0].spec.preemptible && StoreInv(id, ws[0].store) && |Live(ws[0].store)| < Total(ws[0].spec.tasks)
    requires forall j | 0 <= j < |lists| ::
      IsListing(lists[j], ws[j].store) && ws[j + 1] == Undisturbed(id, ws[j], lists[j])
    ensures ws[1].store == ws[0].store <==> NothingToCreate(id, ws[0].spec.tasks, LivePods(lists[0]), ws[0].store)
    ensures ws[1].store == ws[0].store ==>
      ws[i].store == ws[0].store && ws[i].status.phase == Restarting && ws[i].spec == ws[0].spec
    decreases i
  {
    hide ReconcilePhase, IsListing, Undisturbed, Acceptable, StoreInv, NothingToCreate, LivePods, Live, Defaulted;
    var w, v := ws[0], ws[i - 1];
    if i > 1 {
      RestartBlockedForEver(id, ws, lists, i - 1);
      AnyListingBlocksAgain(id, w, v, lists[0], lists[i - 1]);
    }
    if i == 1 || ws[1].store == w.store {
      UndisturbedOutcome(id, v, lists[i - 1]);
      RestartBlockedIff(id, v.spec, v.status, lists[i - 1], v.store, NO_FAULTS);
    }
  }

  lemma AnyListingBlocksAgain(id: JobId, w: World, v: World, list: seq<Pod>, list2: seq<Pod>)
    requires IsListing(list, w.store) && IsListing(list2, v.store)
    ensures v.store == w.store && v.spec == w.spec ==>
      NothingToCreate(id, w.spec.tasks, LivePods(list), w.store)
      == NothingToCreate(id, v.spec.tasks, LivePods(list2), v.store)
  {
    hide IsListing, NothingToCreate, LivePods;
    if v.store == w.store && v.spec == w.spec {
      AnyListingBlocks(id, w.spec.tasks, list, list2, w.store, w.store, w.store);
    }
  }

  /** In Rescheduling the terminating pods go at once, and then the same holds. */
  lemma {:induction false} RescheduleBlockedForEver(id: JobId, ws: seq<World>, lists: seq<seq<Pod>>, i: nat)
    requires |ws| == |lists| + 1 && 0 < i < |ws|
    requires ws[0].status.phase == Rescheduling && Defaulted(ws[0].spec) && Acceptable(ws[0].spec.tasks)
    requires !ws[0].spec.preemptible && StoreInv(id, ws[0].store) && |Live(ws[0].store)| < Total(ws[0].spec.tasks)
    requires forall j | 0 <= j < |lists| ::
      IsListing(lists[j], ws[j].store) && ws[j + 1] == Undisturbed(id, ws[j], lists[j])
    ensures ws[1].store == Live(ws[0].store) <==>
      NothingToCreate(id, ws[0].spec.tasks, LivePods(lists[0]), Live(ws[0].store))
    ensures ws[1].store == Live(ws[0].store) ==>
      ws[i].store == Live(ws[0].store) && ws[i].status.phase == Rescheduling && ws[i].spec == ws[0].spec
    decreases i
  {
    hide ReconcilePhase, IsListing, Undisturbed, Acceptable, StoreInv, NothingToCreate, LivePods, Live, Defaulted;
    var w, v := ws[0], ws[i - 1];
    if i > 1 {
      RescheduleBlockedForEver(id, ws, lists, i - 1);
    }
    if i == 1 || ws[1].store == Live(w.store) {
      if i > 1 {
        LiveOfLive(id, w.store);
        AnyListingBlocks(id, w.spec.tasks, lists[0], lists[i - 1], w.store, v.store, Live(w.store));
      }
      UndisturbedOutcome(id, v, lists[i - 1]);
      RescheduleBlockedIff(id, v.spec, v.status, lists[i - 1], v.store);
    }
  }

  lemma LiveOfLive(id: JobId, s: Store)
    requires StoreInv(id, s)
    ensures StoreInv(id, Live(s)) && Live(Live(s)) == Live(s)
  {
    hide Built;
  }
}
