/** No two live pods of a job share a slot or a global rank, whatever the
    reconciler is asked to do and however its calls fail. */
module Uniqueness {
  import opened Wrappers
  import opened Api
  import opened Text
  import opened Util
  import opened Pods
  import opened Cluster
  import opened Replicas

  function RankOf(p: Pod): int {
    match Atoi(p.meta.rank) case Some(r) => r case None => -1
  }

  function LocalRankOf(p: Pod): int {
    match Atoi(p.meta.taskRank) case Some(r) => r case None => -1
  }

  /** The labels and annotations are those BuildPod writes: two printed ranks,
      and a name made from the task name and the local rank. */
  ghost predicate Built(id: JobId, p: Pod) {
    && RankOf(p) >= 0
    && LocalRankOf(p) >= 0
    && p.meta.name == ReplicaName(id.name, p.meta.taskName, LocalRankOf(p))
  }

  ghost predicate DistinctRanks(s: Store) {
    forall m, n | m in s && n in s && m != n && IsPodLive(s[m]) && IsPodLive(s[n]) :: RankOf(s[m]) != RankOf(s[n])
  }

  ghost predicate StoreInv(id: JobId, s: Store) {
    && KeyedByName(s)
    && (forall n | n in s :: Built(id, s[n]))
    && DistinctRanks(s)
  }

  /** In a store that keeps the invariant the slot (task name, local rank) and,
      among live pods, the global rank identify the pod. */
  lemma SlotAndRankIdentifyPod(id: JobId, s: Store, m: string, n: string)
    requires StoreInv(id, s) && m in s && n in s && m != n
    ensures (s[m].meta.taskName, LocalRankOf(s[m])) != (s[n].meta.taskName, LocalRankOf(s[n]))
    ensures IsPodLive(s[m]) && IsPodLive(s[n]) ==> RankOf(s[m]) != RankOf(s[n])
  {
    assert s[m].meta.name == m && s[n].meta.name == n;
  }

  lemma {:induction false} BuildPodBuilt(id: JobId, spec: Spec, rank: nat, allocation: seq<string>, s: Slot)
    requires s.task < |spec.tasks|
    requires BuildPod(id, spec, rank, allocation, s).Some?
    ensures var p := BuildPod(id, spec, rank, allocation, s).value;
      && Built(id, p) && IsPodLive(p) && RankOf(p) == rank && LocalRankOf(p) == s.local
      && p.meta.taskName == spec.tasks[s.task].name && p.meta.name == SlotName(id, spec.tasks, s)
  {
    AtoiItoa(rank);
    AtoiItoa(s.local);
  }

  // ---- consecutive ranks

  ghost predicate RankedFrom(id: JobId, pods: seq<Pod>, base: int) {
    forall j | 0 <= j < |pods| :: Built(id, pods[j]) && IsPodLive(pods[j]) && RankOf(pods[j]) == base + j
  }

  ghost predicate LiveBelow(s: Store, base: int) {
    forall n | n in s && IsPodLive(s[n]) :: RankOf(s[n]) < base
  }

  lemma CreateOneRanked(id: JobId, s: Store, p: Pod, base: int, f: Faults)
    requires StoreInv(id, s) && LiveBelow(s, base) && Built(id, p) && IsPodLive(p) && RankOf(p) == base
    ensures var t := CreateOne(s, p, f).store; StoreInv(id, t) && LiveBelow(t, base + 1)
  {
    hide RankOf, Built;
    var t := CreateOne(s, p, f).store;
    assert forall n | n in t :: (n in s && t[n] == s[n]) || (n == p.meta.name && t[n] == p);
  }

  lemma {:induction false} CreateRanked(id: JobId, s: Store, pods: seq<Pod>, base: int, f: Faults)
    requires StoreInv(id, s) && LiveBelow(s, base) && RankedFrom(id, pods, base)
    ensures StoreInv(id, CreateList(s, pods, f).store)
    decreases |pods|
  {
    if pods != [] {
      var d := CreateOne(s, pods[0], f);
      CreateOneRanked(id, s, pods[0], base, f);
      if d.ok {
        forall j | 0 <= j < |pods[1..]|
          ensures Built(id, pods[1..][j]) && IsPodLive(pods[1..][j]) && RankOf(pods[1..][j]) == base + 1 + j
        {
          assert pods[1..][j] == pods[j + 1];
        }
        hide StoreInv, LiveBelow, CreateOne;
        CreateRanked(id, d.store, pods[1..], base + 1, f);
      }
    }
  }

  lemma {:induction false} BuildFromRanked(id: JobId, spec: Spec, allocation: seq<string>, slots: seq<Slot>, rank: nat)
    requires forall s | s in slots :: s.task < |spec.tasks|
    requires BuildFrom(id, spec, allocation, slots, rank).Some?
    ensures RankedFrom(id, BuildFrom(id, spec, allocation, slots, rank).value, rank)
  {
    if slots != [] {
      BuildPodBuilt(id, spec, rank, allocation, slots[0]);
      BuildFromRanked(id, spec, allocation, slots[1..], rank + 1);
    }
  }

  // ---- the ranks of replacement pods

  lemma {:induction false} MaxRankBounds(pods: seq<Pod>, best: nat)
    ensures match MaxRank(pods, best)
      case Some(m) => m >= best && (forall p | p in pods :: Atoi(p.meta.rank).Some? && RankOf(p) <= m)
      case None => exists p | p in pods :: Atoi(p.meta.rank).None?
  {
    if pods != [] {
      assert pods[0] in pods;
      match Atoi(pods[0].meta.rank)
      case None =>
      case Some(r) =>
        MaxRankBounds(pods[1..], if r > best then r else best);
        assert pods == [pods[0]] + pods[1..];
    }
  }

  /** First rank a plan hands out: one above the maximum, unless ranks were
      already given to earlier tasks. */
  function Base(top: nat, next: int): int { if next == -1 then top + 1 else next }

  lemma RankedNone(id: JobId, base: int)
    ensures RankedFrom(id, [], base)
  {
  }

  lemma RankedCons(id: JobId, p: Pod, rest: seq<Pod>, base: int)
    requires Built(id, p) && IsPodLive(p) && RankOf(p) == base && RankedFrom(id, rest, base + 1)
    ensures RankedFrom(id, [p] + rest, base)
  {
  }

  lemma RankedConcat(id: JobId, a: seq<Pod>, b: seq<Pod>, base: int)
    requires RankedFrom(id, a, base) && RankedFrom(id, b, base + |a|)
    ensures RankedFrom(id, a + b, base)
  {
  }

  lemma {:induction false} PlanTaskRanked(id: JobId, spec: Spec, pods: seq<Pod>, allocation: seq<string>,
                                          k: nat, i: nat, taken: seq<bool>, next: int, top: nat)
    requires k < |spec.tasks| && i <= |taken| && (next == -1 || next >= 1)
    requires MaxRank(pods, 0) == Some(top)
    ensures var plan := PlanTask(id, spec, pods, allocation, k, i, taken, next);
      && RankedFrom(id, plan.creates, Base(top, next))
      && (plan.err == NoError ==> plan.next == if plan.creates == [] then next else Base(top, next) + |plan.creates|)
    decreases |taken| - i
  {
    hide BuildPod, RankedFrom, Built, RankOf, MaxRank;
    RankedNone(id, Base(top, next));
    if i < |taken| {
      if taken[i] {
        PlanTaskRanked(id, spec, pods, allocation, k, i + 1, taken, next, top);
      } else {
        var rank := Base(top, next);
        var built := BuildPod(id, spec, rank, allocation, Slot(k, i));
        if built.Some? {
          var rest := PlanTask(id, spec, pods, allocation, k, i + 1, taken, rank + 1);
          BuildPodBuilt(id, spec, rank, allocation, Slot(k, i));
          PlanTaskRanked(id, spec, pods, allocation, k, i + 1, taken, rank + 1, top);
          RankedCons(id, built.value, rest.creates, rank);
        }
      }
    }
  }

  lemma {:induction false} PlanFromRanked(id: JobId, spec: Spec, pods: seq<Pod>, allocation: seq<string>,
                                          k: nat, next: int, top: nat)
    requires k <= |spec.tasks| && (next == -1 || next >= 1)
    requires MaxRank(pods, 0) == Some(top)
    ensures RankedFrom(id, PlanFrom(id, spec, pods, allocation, k, next).creates, Base(top, next))
    decreases |spec.tasks| - k
  {
    if k < |spec.tasks| {
      match ScanTask(pods, spec.tasks[k].name, NoneTaken(spec.tasks[k].replicas))
      case ScanError(_) =>
      case Scanned(taken) =>
        var here := PlanTask(id, spec, pods, allocation, k, 0, taken, next);
        PlanTaskRanked(id, spec, pods, allocation, k, 0, taken, next, top);
        if here.err == NoError {
          PlanFromRanked(id, spec, pods, allocation, k + 1, here.next, top);
          var rest := PlanFrom(id, spec, pods, allocation, k + 1, here.next);
          RankedConcat(id, here.creates, rest.creates, Base(top, next));
        }
    }
  }

  // ---- every branch of a reconcile keeps the invariant

  lemma ShrinkKeepsInv(id: JobId, s: Store, t: Store, names: set<string>)
    requires StoreInv(id, s) && Shrinks(s, t, names)
    ensures StoreInv(id, t)
  {
  }

  lemma BuildAndCreateKeepsInv(id: JobId, spec: Spec, st: Status, s: Store, f: Faults)
    requires StoreInv(id, s) && Live(s) == map[]
    ensures StoreInv(id, BuildAndCreate(id, spec, st, s, f).store)
  {
    var built := BuildAll(id, spec, st.allocation);
    if built.Some? {
      SlotsPositions(spec.tasks);
      BuildFromRanked(id, spec, st.allocation, Slots(spec.tasks), 0);
      forall n | n in s ensures !IsPodLive(s[n]) {
        assert IsPodLive(s[n]) ==> n in Live(s);
      }
      CreateRanked(id, s, built.value, 0, f);
      var d := CreateList(s, built.value, f);
      DeleteEachShrinks(d.store, built.value, f);
      ShrinkKeepsInv(id, d.store, DeleteEach(d.store, built.value, f), Names(built.value));
    }
  }

  /** `s` may already have lost terminating pods since the listing was taken. */
  lemma CreateMissedKeepsInv(id: JobId, spec: Spec, pods: seq<Pod>, allocation: seq<string>, s: Store, f: Faults)
    requires StoreInv(id, s)
    requires forall n | n in s && IsPodLive(s[n]) :: s[n] in pods
    requires forall p | p in pods :: Built(id, p)
    ensures StoreInv(id, CreateMissed(id, spec, pods, allocation, s, f).store)
  {
    MaxRankBounds(pods, 0);
    var top := MaxRank(pods, 0).value;
    PlanFromRanked(id, spec, pods, allocation, 0, -1, top);
    CreateRanked(id, s, MissedPlan(id, spec, pods, allocation).creates, top + 1, f);
  }

  lemma DeletesKeepInv(id: JobId, s: Store, pods: seq<Pod>, f: Faults)
    requires StoreInv(id, s)
    ensures StoreInv(id, DeleteList(s, pods, f).store) && StoreInv(id, DeleteEach(s, pods, f))
  {
    DeleteListShrinks(s, pods, f);
    DeleteEachShrinks(s, pods, f);
    ShrinkKeepsInv(id, s, DeleteList(s, pods, f).store, Names(pods));
    ShrinkKeepsInv(id, s, DeleteEach(s, pods, f), Names(pods));
  }

  lemma PendingKeepsInv(id: JobId, spec: Spec, st: Status, list: seq<Pod>, s: Store, f: Faults)
    requires StoreInv(id, s) && IsListing(list, s)
    ensures StoreInv(id, ReconcilePending(id, spec, st, list, s, f).store)
  {
    hide BuildAndCreate;
    DeletesKeepInv(id, s, list, f);
    if list == [] {
      assert Live(s) == map[];
      BuildAndCreateKeepsInv(id, spec, st, s, f);
    }
  }

  lemma ListedLive(id: JobId, list: seq<Pod>, s: Store)
    requires StoreInv(id, s) && IsListing(list, s)
    ensures forall p | p in LivePods(list) :: Built(id, p)
    ensures forall n | n in s && IsPodLive(s[n]) :: s[n] in LivePods(list)
    ensures LivePods(list) == [] ==> Live(s) == map[]
  {
    assert forall p | p in list :: Built(id, s[p.meta.name]);
  }

  lemma RestartingKeepsInv(id: JobId, spec: Spec, st: Status, list: seq<Pod>, s: Store, f: Faults)
    requires StoreInv(id, s) && IsListing(list, s)
    ensures StoreInv(id, ReconcileRestarting(id, spec, st, LivePods(list), s, f).store)
  {
    hide CreateMissed, DeleteList;
    var pods := LivePods(list);
    DeletesKeepInv(id, s, Redundant(pods, Quotas(spec.tasks)), f);
    DeletesKeepInv(id, s, FailedPods(pods, spec.preemptible), f);
    ListedLive(id, list, s);
    CreateMissedKeepsInv(id, spec, pods, st.allocation, s, f);
  }

  lemma ReschedulingKeepsInv(id: JobId, spec: Spec, st: Status, list: seq<Pod>, s: Store, f: Faults)
    requires StoreInv(id, s) && IsListing(list, s)
    ensures StoreInv(id, ReconcileRescheduling(id, spec, st, list, s, f).store)
  {
    hide CreateMissed, DeleteList, DeleteEach, BuildAndCreate, StoreInv, LivePods, TerminatingPods, Redundant, Quotas,
      IsListing, Built, Live, DistinctRanks;
    var pods, gone := LivePods(list), TerminatingPods(list);
    DeletesKeepInv(id, s, pods, f);
    DeletesKeepInv(id, s, gone, f);
    DeletesKeepInv(id, s, Redundant(pods, Quotas(spec.tasks)), f);
    ListedLive(id, list, s);
    var cleared := DeleteEach(s, gone, f);
    DeleteEachShrinks(s, gone, f);
    CreateMissedKeepsInv(id, spec, pods, st.allocation, cleared, f);
    if pods == [] {
      BuildAndCreateKeepsInv(id, spec, st, s, f);
    }
  }

  lemma StartedKeepsPods(spec: Spec, st: Status, pods: seq<Pod>, s: Store)
    ensures ReconcileStarting(spec, st, pods, s).store == s && ReconcileRunning(spec, st, pods, s).store == s
  {
    hide CheckCompletion, DetectReschedule, ScheduledCount, ReadyCount;
  }

  /** One reconcile, in any phase and with any faults, keeps the invariant. */
  lemma ReconcileKeepsInv(id: JobId, spec: Spec, st0: Status, list: seq<Pod>, s: Store, f: Faults)
    requires StoreInv(id, s) && IsListing(list, s)
    ensures StoreInv(id, ReconcilePhase(id, spec, st0, list, s, f).store)
  {
    hide ReconcilePending, ReconcileStarting, ReconcileRunning, ReconcileRestarting, ReconcileRescheduling, StoreInv,
      IsListing, LivePods, UpdateReplicas;
    var st := UpdateReplicas(spec, st0, list);
    StartedKeepsPods(spec, st, LivePods(list), s);
    PendingKeepsInv(id, spec, st, list, s, f);
    RestartingKeepsInv(id, spec, st, list, s, f);
    ReschedulingKeepsInv(id, spec, st, list, s, f);
  }
}
