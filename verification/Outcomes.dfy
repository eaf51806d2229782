/** The two ends of a job's life: the first generation of its pods, and what is
    left of them once it is finished. */
module Outcomes {
  import opened Api
  import opened Util
  import opened Pods
  import opened Cluster
  import opened Replicas
  import opened Cleanup
  import opened Validator
  import opened Uniqueness
  import opened Building
  import opened Controller

  // ---- the first generation

  /** The pod of slot s that buildAndCreatePods makes. */
  ghost predicate IsFirst(id: JobId, spec: Spec, allocation: seq<string>, s: Slot, p: Pod)
    requires InSpec(spec.tasks, s)
    requires spec.preemptible ==> Position(spec.tasks, s) < |allocation|
  {
    && p.meta.name == SlotName(id, spec.tasks, s) && p.meta.taskName == spec.tasks[s.task].name
    && LocalRankOf(p) == s.local
    && RankOf(p) == Position(spec.tasks, s)
    && IsPodLive(p)
    && p.meta.taskType == spec.tasks[s.task].taskType
    && p.spec.nodeName == p.meta.node
    && p.meta.node == (if spec.preemptible then allocation[Position(spec.tasks, s)] else "")
    && (CommaFree(id, spec.tasks) ==> FindsItself(id, p))
  }

  lemma BuildPodPlaced(id: JobId, spec: Spec, rank: nat, allocation: seq<string>, s: Slot)
    requires s.task < |spec.tasks| && (spec.preemptible ==> rank < |allocation|)
    ensures var built := BuildPod(id, spec, rank, allocation, s);
      && built.Some?
      && built.value.meta.taskType == spec.tasks[s.task].taskType
      && built.value.spec.nodeName == built.value.meta.node
      && built.value.meta.node == if spec.preemptible then allocation[rank] else ""
  {
  }

  lemma FirstPod(id: JobId, spec: Spec, allocation: seq<string>, s: Slot)
    requires InSpec(spec.tasks, s) && DistinctNames(spec.tasks)
    requires spec.preemptible ==> Position(spec.tasks, s) < |allocation|
    ensures BuildPod(id, spec, Position(spec.tasks, s), allocation, s).Some?
    ensures IsFirst(id, spec, allocation, s, BuildPod(id, spec, Position(spec.tasks, s), allocation, s).value)
  {
    BuildPodPlaced(id, spec, Position(spec.tasks, s), allocation, s);
    hide BuildPod, FindsItself, CommaFree;
    BuildPodBuilt(id, spec, Position(spec.tasks, s), allocation, s);
    if CommaFree(id, spec.tasks) {
      FindsItselfIff(id, spec, Position(spec.tasks, s), allocation, s);
    }
  }

  /** For an accepted job, building on an empty store without failing creates makes
      exactly one pod for every slot: the names are those of the spec, there are as
      many pods as replicas, and the pod of slot (k, i) has the rank (replicas of the
      earlier tasks) + i and finds its own address under it. */
  lemma FirstGeneration(id: JobId, spec: Spec, st: Status, f: Faults)
    requires Acceptable(spec.tasks) && f.create == map[]
    requires spec.preemptible ==> |st.allocation| >= Total(spec.tasks)
    ensures var o := BuildAndCreate(id, spec, st, map[], f);
      && o.err == NoError && o.status == st
      && o.store.Keys == SpecNames(id, spec.tasks) && |o.store| == Total(spec.tasks)
      && forall s | InSpec(spec.tasks, s) ::
           && SlotName(id, spec.tasks, s) in o.store
           && Position(spec.tasks, s) < Total(spec.tasks)
           && IsFirst(id, spec, st.allocation, s, o.store[SlotName(id, spec.tasks, s)])
  {
    hide BuildPod, Acceptable, SpecNames, IsFirst, SlotName, BuildAll, OnlyFirst, CreateList, DeleteEach, Position;
    AcceptableDistinct(spec.tasks);
    BuildAllSpec(id, spec, st.allocation);
    SpecNamesSize(id, spec.tasks);
    var pods := BuildAll(id, spec, st.allocation).value;
    var t := CreateList(map[], pods, f).store;
    CreatesSucceed(map[], pods, f);
    FirstCreated(id, spec, st.allocation, f);
    forall s | InSpec(spec.tasks, s)
      ensures SlotName(id, spec.tasks, s) in t && Position(spec.tasks, s) < Total(spec.tasks)
      ensures IsFirst(id, spec, st.allocation, s, t[SlotName(id, spec.tasks, s)])
    {
      SlotsBijection(spec.tasks);
      FirstStored(id, spec, pods, t, s);
      FirstPod(id, spec, st.allocation, s);
    }
    FirstNames(id, spec, pods, t);
    assert |t| == |t.Keys|;
  }

  lemma FirstCreated(id: JobId, spec: Spec, allocation: seq<string>, f: Faults)
    requires BuildAll(id, spec, allocation).Some? && f.create == map[]
    ensures var pods := BuildAll(id, spec, allocation).value;
      OnlyFirst(id, spec, pods, CreateList(map[], pods, f).store)
  {
    hide BuildPod, SlotName, BuildAll, CreateList, Position;
    var pods := BuildAll(id, spec, allocation).value;
    BuildAllSpec(id, spec, allocation);
    CreatesSucceed(map[], pods, f);
    CreateListFrame(map[], pods, f);
    forall s | InSpec(spec.tasks, s) ensures pods[Position(spec.tasks, s)].meta.name == SlotName(id, spec.tasks, s) {
      BuildPodBuilt(id, spec, Position(spec.tasks, s), allocation, s);
    }
  }

  /** pods[r] stands in the r-th slot, and t holds nothing but these pods. */
  ghost predicate OnlyFirst(id: JobId, spec: Spec, pods: seq<Pod>, t: Store) {
    && |pods| == Total(spec.tasks)
    && (forall s | InSpec(spec.tasks, s) ::
          Position(spec.tasks, s) < |pods| && pods[Position(spec.tasks, s)].meta.name == SlotName(id, spec.tasks, s))
    && (forall n | n in t :: t[n] in pods && t[n].meta.name == n)
    && (forall p | p in pods :: p.meta.name in t)
  }

  lemma FirstStored(id: JobId, spec: Spec, pods: seq<Pod>, t: Store, s: Slot)
    requires DistinctNames(spec.tasks) && InSpec(spec.tasks, s) && OnlyFirst(id, spec, pods, t)
    ensures SlotName(id, spec.tasks, s) in t && t[SlotName(id, spec.tasks, s)] == pods[Position(spec.tasks, s)]
  {
    hide SlotName;
    SlotsBijection(spec.tasks);
    var p := pods[Position(spec.tasks, s)];
    assert p in pods;
    var q := t[p.meta.name];
    var r :| 0 <= r < |pods| && pods[r] == q;
    var c := Slots(spec.tasks)[r];
    assert InSpec(spec.tasks, c) && Position(spec.tasks, c) == r;
    SlotNameInjective(id, spec.tasks, c, s);
  }

  lemma FirstNames(id: JobId, spec: Spec, pods: seq<Pod>, t: Store)
    requires DistinctNames(spec.tasks) && OnlyFirst(id, spec, pods, t)
    ensures t.Keys == SpecNames(id, spec.tasks)
  {
    hide SlotName;
    SlotsBijection(spec.tasks);
    forall n | n in t ensures n in SpecNames(id, spec.tasks) {
      var r :| 0 <= r < |pods| && pods[r] == t[n];
      SpecNamesIff(id, spec.tasks, Slots(spec.tasks)[r]);
    }
    forall n | n in SpecNames(id, spec.tasks) ensures n in t {
      var s :| s in Slots(spec.tasks) && s.task < |spec.tasks| && SlotName(id, spec.tasks, s) == n;
      FirstStored(id, spec, pods, t, s);
    }
  }

  // ---- after the end

  /** A reconcile of a finished job with an acceptable spec leaves exactly the pods
      the policy spares, and the phase as it is. */
  lemma {:induction false} TerminalReconcile(id: JobId, w: World, list: seq<Pod>, f: Faults, writes: Writes)
    requires w.status.phase in {Succeeded, Failed} && Acceptable(LocalSpec(w.spec, writes).tasks)
    requires IsListing(list, w.store) && f.delete == map[]
    ensures var n := Reconcile(id, w, list, f, true, writes);
      && n.store == Remaining(w.spec.cleanPodPolicy, w.store)
      && n.status.phase == w.status.phase && n.spec.cleanPodPolicy == w.spec.cleanPodPolicy
      && (writes.replicas ==> n.status.readyReplicas == 0 && n.status.taskStatus == map[])
  {
    hide Acceptable, CleanUp, IsListing, Remaining;
    CleanUpExact(w.spec.cleanPodPolicy, list, w.store, f);
  }

  /** If there are pods and a service cannot be deleted, the clean-up stops there, and
      the status keeps what it says about replicas. */
  lemma {:induction false} TerminalStops(id: JobId, w: World, list: seq<Pod>, f: Faults, writes: Writes)
    requires w.status.phase in {Succeeded, Failed} && Acceptable(LocalSpec(w.spec, writes).tasks)
    requires IsListing(list, w.store) && w.store != map[]
    ensures var n := Reconcile(id, w, list, f, false, writes); n.store == w.store && n.status == w.status
  {
    hide Acceptable;
    var m :| m in w.store;
    assert w.store[m] in list;
    hide IsListing;
  }

  /** Nor does it clear anything when a pod cannot be deleted. */
  lemma {:induction false} TerminalKeepsStatus(id: JobId, w: World, list: seq<Pod>, f: Faults, writes: Writes)
    requires w.status.phase in {Succeeded, Failed} && Acceptable(LocalSpec(w.spec, writes).tasks)
    requires !DeleteList(w.store, Doomed(list, w.spec.cleanPodPolicy), f).ok
    ensures Reconcile(id, w, list, f, true, writes).status == w.status
  {
    NothingDoomed(w.spec.cleanPodPolicy, w.store, f);
    hide Acceptable, DeleteList, Doomed;
  }

  lemma NothingDoomed(policy: CleanPodPolicy, s: Store, f: Faults)
    ensures DeleteList(s, Doomed([], policy), f).ok
  {
  }

  /** Repeating it any number of times, with any listings and any writes going
      through, changes neither the pods nor the phase again. */
  lemma {:induction false} TerminalStable(id: JobId, ws: seq<World>, es: seq<Event>, i: nat)
    requires |ws| == |es| + 1 && 1 <= i < |ws| && ws[0].status.phase in {Succeeded, Failed}
    requires forall j | 0 <= j < |es| :: Enabled(ws[j], es[j]) && ws[j + 1] == Next(id, ws[j], es[j])
    requires forall j | 0 <= j < |es| ::
      es[j].Reconciled? && es[j].servicesOk && es[j].faults.delete == map[]
      && Acceptable(LocalSpec(ws[j].spec, es[j].writes).tasks)
    ensures ws[i].store == Remaining(ws[0].spec.cleanPodPolicy, ws[0].store)
    ensures ws[i].status.phase == ws[0].status.phase && ws[i].spec.cleanPodPolicy == ws[0].spec.cleanPodPolicy
  {
    hide Acceptable, Remaining, IsListing, LocalSpec, Reconcile;
    if i > 1 {
      TerminalStable(id, ws, es, i - 1);
      RemainingIdempotent(ws[0].spec.cleanPodPolicy, ws[0].store);
    }
    var e := es[i - 1];
    TerminalReconcile(id, ws[i - 1], e.list, e.faults, e.writes);
  }
}
