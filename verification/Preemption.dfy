/** Rescheduling of a preemptible job: all pods go, a new generation comes. */
module Preemption {
  import opened Api
  import opened Util
  import opened Pods
  import opened Cluster
  import opened Conditions
  import opened Replicas
  import opened Validator
  import opened Uniqueness
  import opened Building
  import opened Missed
  import opened Controller
  import opened Runs
  import opened Rounds

  /** The pods of a new generation, created into a store of leftovers. */
  ghost predicate Regenerated(id: JobId, spec: Spec, built: seq<Pod>, s: Store, t: Store) {
    && t.Keys == s.Keys + SpecNames(id, spec.tasks)
    && (forall n | n in s :: t[n] == s[n])
    && (forall n | n in t && n !in s :: t[n] in built && IsPodLive(t[n]))
    && Names(built) == SpecNames(id, spec.tasks)
    && (forall p | p in built :: p.meta.name in t && (p.meta.name !in s ==> t[p.meta.name] == p))
  }

  /** Every create the spec asks for is confirmed. */
  ghost predicate AllConfirmed(id: JobId, tasks: seq<Task>, f: Faults) {
    forall n | n in SpecNames(id, tasks) :: Confirmed(f, n)
  }

  /** buildAndCreatePods into any store, with any replies to the creates: either the
      new generation is there, or every name of the spec is gone, leftovers
      included, and the phase is set by the backoff limit. It never reports an error. */
  lemma Regenerate(id: JobId, spec: Spec, st: Status, s: Store, f: Faults)
    requires Acceptable(spec.tasks) && f.delete == map[]
    requires spec.preemptible ==> |st.allocation| >= Total(spec.tasks)
    ensures BuildAll(id, spec, st.allocation).Some?
    ensures var o := BuildAndCreate(id, spec, st, s, f);
      && o.err == NoError
      && (if AllConfirmed(id, spec.tasks, f) then
            o.status == st && Regenerated(id, spec, BuildAll(id, spec, st.allocation).value, s, o.store)
          else
            o.status == EnterByBackoff(spec, st) && o.store == s - SpecNames(id, spec.tasks))
  {
    hide BuildPod, SpecNames, BuildAll, CreateList, DeleteEach, Acceptable, Confirmed, EnterByBackoff;
    BuildAllSpec(id, spec, st.allocation);
    var pods := BuildAll(id, spec, st.allocation).value;
    CreateListOkIff(s, pods, f);
    CreateListFrame(s, pods, f);
    GenerationShape(id, spec, st.allocation);
    var d := CreateList(s, pods, f);
    if d.ok {
      SameName(s, pods, d.store);
    } else {
      DeleteListExact(d.store, pods, f);
      UndoneCreates(s, d.store, pods);
    }
    AllConfirmedIff(id, spec.tasks, pods, f);
  }

  lemma AllConfirmedIff(id: JobId, tasks: seq<Task>, pods: seq<Pod>, f: Faults)
    requires Names(pods) == SpecNames(id, tasks)
    ensures AllConfirmed(id, tasks, f) <==> forall p | p in pods :: Confirmed(f, p.meta.name)
  {
    hide SpecNames, Confirmed;
    forall n | n in Names(pods) ensures exists p | p in pods :: p.meta.name == n {
    }
    assert forall p | p in pods :: p.meta.name in Names(pods);
  }

  lemma UndoneCreates(s: Store, t: Store, pods: seq<Pod>)
    requires forall n | n in s :: n in t && t[n] == s[n]
    requires forall n | n in t && n !in s :: t[n] in pods && t[n].meta.name == n
    ensures t - Names(pods) == s - Names(pods)
  {
  }

  lemma SameName(s: Store, pods: seq<Pod>, t: Store)
    requires forall n | n in s :: n in t && t[n] == s[n]
    requires forall n | n in t && n !in s :: t[n] in pods && t[n].meta.name == n
    requires forall p | p in pods :: p.meta.name in t
    requires forall p, q | p in pods && q in pods && p.meta.name == q.meta.name :: p == q
    ensures t.Keys == s.Keys + Names(pods)
    ensures forall p | p in pods :: p.meta.name !in s ==> t[p.meta.name] == p
  {
  }

  /** The names of a generation are those of the spec, one pod each, and all pods
      are live. */
  lemma GenerationShape(id: JobId, spec: Spec, allocation: seq<string>)
    requires Acceptable(spec.tasks) && BuildAll(id, spec, allocation).Some?
    ensures var pods := BuildAll(id, spec, allocation).value;
      && Names(pods) == SpecNames(id, spec.tasks)
      && (forall p | p in pods :: IsPodLive(p))
      && (forall p, q | p in pods && q in pods && p.meta.name == q.meta.name :: p == q)
  {
    hide BuildPod, SlotName, Acceptable, BuildFrom;
    var tasks := spec.tasks;
    AcceptableDistinct(tasks);
    SlotsPositions(tasks);
    BuildFromSpec(id, spec, allocation, Slots(tasks), 0);
    var pods := BuildAll(id, spec, allocation).value;
    forall r | 0 <= r < |pods|
      ensures pods[r].meta.name == SlotName(id, tasks, Slots(tasks)[r]) && IsPodLive(pods[r])
    {
      BuildPodBuilt(id, spec, r, allocation, Slots(tasks)[r]);
    }
    BuiltNames(id, spec, allocation, Slots(tasks), 0);
    assert Names(pods) == SpecNames(id, tasks);
    forall p, q | p in pods && q in pods && p.meta.name == q.meta.name ensures p == q {
      var i :| 0 <= i < |pods| && pods[i] == p;
      var j :| 0 <= j < |pods| && pods[j] == q;
      SlotNameInjective(id, tasks, Slots(tasks)[i], Slots(tasks)[j]);
    }
  }

  /** One reconcile, with any replies to the creates: while pods are live they all go;
      after that a new generation fills every name that no leftover holds, or the
      call panics for want of nodes. When a create fails, all names of the spec end
      up without a pod, and the job goes to Starting all the same. */
  lemma {:induction false} PreemptRound(id: JobId, spec: Spec, st: Status, list: seq<Pod>, s: Store, f: Faults)
    requires spec.preemptible && Acceptable(spec.tasks) && IsListing(list, s) && st.phase == Rescheduling
    requires f.delete == map[]
    ensures var o := ReconcilePhase(id, spec, st, list, s, f);
      if Live(s) != map[] then
        && o.err == NoError && o.status.phase == Rescheduling
        && o.store == s - Live(s).Keys && Live(o.store) == map[]
      else if |st.allocation| < Total(spec.tasks) then
        o.err == Panic && o.store == s && o.status.phase == Rescheduling
      else
        && o.err == NoError && o.status.phase == Starting
        && BuildAll(id, spec, st.allocation).Some?
        && (if AllConfirmed(id, spec.tasks, f) then
              Regenerated(id, spec, BuildAll(id, spec, st.allocation).value, s, o.store)
            else o.store == s - SpecNames(id, spec.tasks))
  {
    hide LivePods, UpdateReplicas, Enter, IsListing, BuildAll, CreateList, DeleteEach, Acceptable, Regenerated, Live,
      SpecNames,
      AllConfirmed, BuildAndCreate;
    LiveListing(list, s);
    LiveNames(list, s);
    UpdateReplicasFrame(spec, st, list);
    var st' := UpdateReplicas(spec, st, list);
    BuildPanics(id, spec, st', s, f);
    EnterLawful(BuildAndCreate(id, spec, st', s, f).status, Starting);
    assert LivePods(list) == [] <==> Live(s) == map[] by {
      assert |Live(s)| == 0 <==> Live(s) == map[];
    }
    if Live(s) != map[] {
      DeleteListExact(s, LivePods(list), f);
      OthersGone(s);
    } else if |st.allocation| >= Total(spec.tasks) {
      Regenerate(id, spec, st', s, f);
    }
  }

  lemma BuildPanics(id: JobId, spec: Spec, st: Status, s: Store, f: Faults)
    requires spec.preemptible
    ensures |st.allocation| < Total(spec.tasks) ==> BuildAndCreate(id, spec, st, s, f) == Outcome(s, st, Panic)
  {
    hide BuildAll, CreateList, DeleteEach;
    BuildAllSpec(id, spec, st.allocation);
  }

  lemma OthersGone(s: Store)
    ensures Live(s - Live(s).Keys) == map[]
  {
  }

  /** No leftover stands in the way of the new generation. */
  ghost predicate Unobstructed(id: JobId, spec: Spec, s: Store) {
    forall n | n in s && IsPodTerminating(s[n]) :: n !in SpecNames(id, spec.tasks)
  }

  lemma NotInTheWay(id: JobId, spec: Spec, s: Store)
    requires Live(s) == map[] && Unobstructed(id, spec, s)
    ensures forall n | n in s :: n !in SpecNames(id, spec.tasks) && IsPodTerminating(s[n])
  {
    hide SpecNames;
    assert forall n | n in s :: n in Live(s) || IsPodTerminating(s[n]);
  }

  /** A new generation into an unobstructed store without live pods is the full pod
      set of the allocation, whatever happens to the status of its pods. */
  lemma FullGeneration(id: JobId, spec: Spec, allocation: seq<string>, s: Store, t: Store, u: Store, list: seq<Pod>)
    requires BuildAll(id, spec, allocation).Some? && Live(s) == map[] && Unobstructed(id, spec, s)
    requires Regenerated(id, spec, BuildAll(id, spec, allocation).value, s, t)
    requires Calm(spec, t, u) && IsListing(list, u)
    ensures FullSet(id, spec, allocation, LivePods(list))
  {
    NotInTheWay(id, spec, s);
    hide BuildAll, SpecNames, IsPodFailed, Unobstructed, Live;
    var built, pods := BuildAll(id, spec, allocation).value, LivePods(list);
    forall p | p in pods ensures p.meta in Metas(built) {
      var n := p.meta.name;
      assert u[n] == p && t[n].meta == p.meta;
    }
    forall p | p in built ensures p.meta in Metas(pods) {
      var n := p.meta.name;
      assert n in Names(built);
      assert t[n] == p && u[n] in list && u[n].meta == p.meta && u[n] in pods;
    }
  }

  /** A preemptible job with enough nodes and no leftover in the way leaves
      Rescheduling for Starting within two undisturbed reconciles, and the pods it
      has then call for rescheduling only if the allocation is not exactly one node
      for each replica. */
  lemma {:induction false} PreemptConverges(id: JobId, w: World, list: seq<Pod>, w2: World, list2: seq<Pod>,
                                            w3: World, list3: seq<Pod>)
    requires w.spec.preemptible && Defaulted(w.spec) && Acceptable(w.spec.tasks) && w.status.phase == Rescheduling
    requires 0 < Total(w.spec.tasks) <= |w.status.allocation|
    requires Live(w.store) != map[] && Unobstructed(id, w.spec, w.store) && IsListing(list, w.store)
    requires w2 == Undisturbed(id, w, list).(store := w2.store) && IsListing(list2, w2.store)
    requires Calm(w.spec, Undisturbed(id, w, list).store, w2.store)
    requires w3 == Undisturbed(id, w2, list2).(store := w3.store) && IsListing(list3, w3.store)
    requires Calm(w.spec, Undisturbed(id, w2, list2).store, w3.store)
    ensures w2.status.phase == Rescheduling && w3.status.phase == Starting
    ensures var n := Total(w.spec.tasks);
      && |LivePods(list3)| == n
      && DetectReschedule(w.spec, LivePods(list3), w3.status.allocation)
         == if |w3.status.allocation| == n then Keep else Reschedule
  {
    hide ReconcilePhase, IsListing, Calm, Undisturbed, Acceptable, Live, Unobstructed, Regenerated, BuildAll,
      LivePods, FullSet,
      DetectReschedule, Defaulted;
    var first := Undisturbed(id, w, list).store;
    UndisturbedOutcome(id, w, list);
    PreemptRound(id, w.spec, w.status, list, w.store, NO_FAULTS);
    ClearedFirst(id, w.spec, w.store, first, w2.store);
    UndisturbedOutcome(id, w2, list2);
    PreemptRound(id, w.spec, w2.status, list2, w2.store, NO_FAULTS);
    assert AllConfirmed(id, w.spec.tasks, NO_FAULTS);
    var t := Undisturbed(id, w2, list2).store;
    FullGeneration(id, w.spec, w2.status.allocation, w2.store, t, w3.store, list3);
    FullCount(id, w.spec, w2.status.allocation, w2.store, t, w3.store, list3);
    DetectionExact(id, w.spec, w2.status.allocation, w3.status.allocation, LivePods(list3));
  }

  lemma ClearedFirst(id: JobId, spec: Spec, s: Store, t: Store, u: Store)
    requires Unobstructed(id, spec, s) && t == s - Live(s).Keys && Live(t) == map[] && Calm(spec, t, u)
    ensures Live(u) == map[] && Unobstructed(id, spec, u)
  {
    hide SpecNames, IsPodFailed;
    assert forall n | n in t :: IsPodTerminating(t[n]) by {
      assert forall n | n in t :: n in Live(t) || IsPodTerminating(t[n]);
    }
  }

  lemma FullCount(id: JobId, spec: Spec, allocation: seq<string>, s: Store, t: Store, u: Store, list: seq<Pod>)
    requires Acceptable(spec.tasks) && BuildAll(id, spec, allocation).Some? && Live(s) == map[]
    requires Unobstructed(id, spec, s)
    requires Regenerated(id, spec, BuildAll(id, spec, allocation).value, s, t)
    requires Calm(spec, t, u) && IsListing(list, u)
    ensures |LivePods(list)| == Total(spec.tasks)
  {
    hide BuildAll, SpecNames, IsListing, LivePods, Acceptable, IsPodFailed, Calm;
    NotInTheWay(id, spec, s);
    assert Live(t).Keys == SpecNames(id, spec.tasks);
    hide Live, Regenerated, Unobstructed;
    LiveListing(list, u);
    CalmLive(spec, t, u);
    AcceptableDistinct(spec.tasks);
    SpecNamesSize(id, spec.tasks);
    assert |Live(t)| == |Live(t).Keys|;
  }

  // ---- a failed create

  /** A preemptible job in Rescheduling with no pods and enough nodes: when one of the
      creates fails, the job is in Starting without any pod, and no restart is counted,
      whatever its backoff limit. */
  lemma {:induction false} FailureForgotten(id: JobId, w: World, list: seq<Pod>, f: Faults)
    requires w.spec.preemptible && Defaulted(w.spec) && Acceptable(w.spec.tasks) && w.status.phase == Rescheduling
    requires Total(w.spec.tasks) <= |w.status.allocation| && f.delete == map[]
    requires Live(w.store) == map[] && IsListing(list, w.store)
    ensures var n := Reconcile(id, w, list, f, true, ALL_WRITES);
      && n.status.phase == Starting && n.status.restarts == w.status.restarts && n.spec == w.spec
      && (Live(n.store) == map[] <==> !AllConfirmed(id, w.spec.tasks, f) || SpecNames(id, w.spec.tasks) <= w.store.Keys)
  {
    hide ReconcilePhase, IsListing, Acceptable, Live, AllConfirmed, Regenerated, BuildAll, SpecNames, Reconcile,
      Defaulted;
    PreemptRound(id, w.spec, w.status, list, w.store, f);
    WrittenOutcome(id, w, list, f);
    var t := Reconcile(id, w, list, f, true, ALL_WRITES).store;
    if AllConfirmed(id, w.spec.tasks, f) {
      NewLive(id, w.spec, BuildAll(id, w.spec, w.status.allocation).value, w.store, t);
    } else {
      LiveMinus(w.store, SpecNames(id, w.spec.tasks));
      assert Live(w.store) - SpecNames(id, w.spec.tasks) == map[];
    }
  }

  lemma NewLive(id: JobId, spec: Spec, built: seq<Pod>, s: Store, t: Store)
    requires Live(s) == map[] && Regenerated(id, spec, built, s, t)
    ensures Live(t).Keys == SpecNames(id, spec.tasks) - s.Keys
    ensures Live(t) == map[] <==> SpecNames(id, spec.tasks) <= s.Keys
  {
    hide SpecNames;
    assert forall n | n in s :: n !in Live(s);
    assert Live(t).Keys == SpecNames(id, spec.tasks) - s.Keys;
    if SpecNames(id, spec.tasks) <= s.Keys {
      assert Live(t).Keys == {};
    } else {
      var n :| n in SpecNames(id, spec.tasks) && n !in s.Keys;
      assert n in Live(t).Keys;
    }
  }

  /** From then on nothing happens: with replicas wanted and no live pod, a preemptible
      job stays in Starting through any number of undisturbed reconciles. */
  lemma {:induction false} StartingWithoutPods(id: JobId, ws: seq<World>, lists: seq<seq<Pod>>, i: nat)
    requires CalmRun(id, ws, lists) && i < |ws|
    requires ws[0].spec.preemptible && Defaulted(ws[0].spec) && Acceptable(ws[0].spec.tasks)
    requires Total(ws[0].spec.tasks) > 0 && ws[0].status.phase == Starting && Live(ws[0].store) == map[]
    ensures ws[i].status.phase == Starting && Live(ws[i].store) == map[] && ws[i].store.Keys == ws[0].store.Keys
    ensures ws[i].spec == ws[0].spec
  {
    hide ReconcilePhase, IsListing, Acceptable, Live, Undisturbed, Calm, Defaulted;
    if i > 0 {
      StartingWithoutPods(id, ws, lists, i - 1);
      var w, list := ws[i - 1], lists[i - 1];
      UndisturbedOutcome(id, w, list);
      NothingToDetect(id, w.spec, w.status, list, w.store);
      CalmLive(w.spec, w.store, ws[i].store);
      CalmKeys(w.spec, w.store, ws[i].store);
    }
  }

  lemma CalmKeys(spec: Spec, s: Store, t: Store)
    requires Calm(spec, s, t) && Live(s) == map[]
    ensures t.Keys == s.Keys && Live(t) == map[]
  {
    CalmLive(spec, s, t);
    hide IsPodFailed;
    assert Live(t).Keys == {};
  }

  lemma {:induction false} NothingToDetect(id: JobId, spec: Spec, st: Status, list: seq<Pod>, s: Store)
    requires spec.preemptible && Total(spec.tasks) > 0 && st.phase == Starting && Live(s) == map[] && IsListing(list, s)
    ensures var o := ReconcilePhase(id, spec, st, list, s, NO_FAULTS); o.store == s && o.status.phase == Starting
  {
    hide LivePods, UpdateReplicas, Enter, IsListing, Live;
    LiveListing(list, s);
    UpdateReplicasFrame(spec, st, list);
    assert |LivePods(list)| == 0;
  }
}
