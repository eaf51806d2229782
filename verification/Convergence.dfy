/** Progress: an undisturbed job leaves Restarting and Rescheduling. */
module Convergence {
  import opened Wrappers
  import opened Api
  import opened Text
  import opened Util
  import opened Pods
  import opened Cluster
  import opened Conditions
  import opened Replicas
  import opened Validator
  import opened Uniqueness
  import opened Missed
  import opened Redundancy
  import opened Controller
  import opened Runs
  import opened Rounds

  // ---- what entering a phase means

  /** The evidence in the cluster for a phase that was just entered. */
  ghost predicate Evidence(spec: Spec, was: Phase, now: Phase, pods: seq<Pod>) {
    match now
    case Starting =>
      && (if was == Rescheduling && spec.preemptible then pods == [] else |pods| == Total(spec.tasks))
      && (was == Pending ==> pods != [])
      && (was == Restarting ==> forall p | p in pods :: !IsPodFailed(p, spec.preemptible))
    case Running =>
      && ReadyCount(pods) == Total(spec.tasks)
      && ((forall p | p in pods :: |p.status.containers| <= 1) ==> |FilterPods(pods, IsPodReady)| == Total(spec.tasks))
    case Succeeded => pods != [] && forall p | p in pods :: IsPodSucceeded(p)
    case Restarting => was == Pending || exists p | p in pods :: IsPodFailed(p, spec.preemptible)
    case Rescheduling => spec.preemptible || |pods| != Total(spec.tasks)
    case Pending => pods == [] && Total(spec.tasks) == 0
    case _ => true
  }

  lemma CompletionEvidence(spec: Spec, st: Status, pods: seq<Pod>)
    requires st.phase in {Starting, Running}
    ensures var r := CheckCompletion(spec, st, pods);
      r.Some? && r.value.phase != st.phase ==> Evidence(spec, st.phase, r.value.phase, pods)
  {
    hide Enter, ReadyCount, FilterPods;
    AllSucceededIff(pods);
    NoneFailedIff(pods, spec.preemptible);
    EnterLawful(st, Succeeded);
    EnterLawful(st, Restarting);
    EnterLawful(st, Failed);
  }

  lemma StartingEvidence(spec: Spec, st: Status, list: seq<Pod>, s: Store)
    requires st.phase == Starting
    ensures var o := ReconcileStarting(spec, st, LivePods(list), s);
      o.store == s && (o.status.phase != st.phase ==> Evidence(spec, st.phase, o.status.phase, LivePods(list)))
  {
    hide Enter, CheckCompletion, ScheduledCount, ReadyCount, FilterPods, DetectMoved;
    var pods := LivePods(list);
    CompletionEvidence(spec, st, pods);
    EnterLawful(st, Running);
    EnterLawful(st, Rescheduling);
    LiveOnly(list);
    if forall p | p in pods :: |p.status.containers| <= 1 {
      ReadyCountMeaning(pods);
    }
  }

  lemma LiveOnly(list: seq<Pod>)
    ensures forall p | p in LivePods(list) :: IsPodLive(p)
  {
  }

  lemma OtherEvidence(id: JobId, spec: Spec, st: Status, list: seq<Pod>, s: Store, f: Faults)
    ensures st.phase == Pending ==> var o := ReconcilePending(id, spec, st, list, s, f);
      o.status.phase != st.phase ==> Evidence(spec, st.phase, o.status.phase, LivePods(list))
    ensures st.phase == Running ==> var o := ReconcileRunning(spec, st, LivePods(list), s);
      o.status.phase != st.phase ==> Evidence(spec, st.phase, o.status.phase, LivePods(list))
    ensures st.phase == Restarting ==> var o := ReconcileRestarting(id, spec, st, LivePods(list), s, f);
      o.status.phase != st.phase ==> Evidence(spec, st.phase, o.status.phase, LivePods(list))
    ensures st.phase == Rescheduling ==> var o := ReconcileRescheduling(id, spec, st, list, s, f);
      o.status.phase != st.phase ==> Evidence(spec, st.phase, o.status.phase, LivePods(list))
  {
    hide Enter, CheckCompletion, CreateMissed, Redundant, DeleteList, BuildAll, CreateList, DeleteEach, ReadyCount,
      DetectMoved, LivePods;
    var pods := LivePods(list);
    if st.phase == Running {
      CompletionEvidence(spec, st, pods);
    }
    EnterLawful(st, Starting);
    EnterLawful(st, Restarting);
    EnterLawful(st, Failed);
    EnterLawful(st, Rescheduling);
    EnterLawful(st, Pending);
    EnterLawful(BuildAndCreate(id, spec, st, s, f).status, Starting);
  }

  /** Each entry into a phase has its evidence among the live pods of the listing:
      Starting has exactly `replicas` of them (none failed when coming from
      Restarting; a preemptible job in Rescheduling has none, since it builds its pods
      in that same reconcile), Running has `replicas` ready ones when pods report at most one
      container, Succeeded a non-empty set that is entirely succeeded, and leaving
      for Restarting from Starting or Running a failed pod. */
  lemma PhaseEntryMeaning(id: JobId, spec: Spec, st0: Status, list: seq<Pod>, s: Store, f: Faults)
    ensures var o := ReconcilePhase(id, spec, st0, list, s, f);
      o.status.phase != st0.phase ==> Evidence(spec, st0.phase, o.status.phase, LivePods(list))
  {
    hide ReconcilePending, ReconcileStarting, ReconcileRunning, ReconcileRestarting, ReconcileRescheduling,
      UpdateReplicas,
      Evidence;
    var st := UpdateReplicas(spec, st0, list);
    UpdateReplicasFrame(spec, st0, list);
    if st.phase == Starting {
      StartingEvidence(spec, st, list, s);
    } else {
      OtherEvidence(id, spec, st, list, s, f);
    }
  }

  // ---- what the pods of a started job decide

  /** The pod has failed: not for lack of resources on its node, and, in a preemptible
      job, not because it was told to stop. */
  ghost predicate HasFailed(p: Pod, preemptible: bool) {
    && p.status.phase in {PodFailed, PodUnknown} && !p.status.terminating
    && p.status.reason != "UnexpectedAdmissionError"
    && !(exists rest: string :: p.status.reason == "Outof" + rest)
    && (preemptible ==> forall c | c in p.status.containers :: c.exitCode != Some(143))
  }

  lemma FailedMeans(p: Pod, preemptible: bool)
    ensures IsPodFailed(p, preemptible) <==> HasFailed(p, preemptible)
  {
    if "Outof" <= p.status.reason {
      assert p.status.reason == "Outof" + p.status.reason[|"Outof"|..];
    }
  }

  /** The pod was not made for this many nodes, or stands on another one than its rank's. */
  ghost predicate Displaced(p: Pod, allocation: seq<string>) {
    || Atoi(p.meta.replicas) != Some(|allocation|)
    || Atoi(p.meta.rank) == None
    || (0 <= Atoi(p.meta.rank).value < |allocation| && p.meta.node != allocation[Atoi(p.meta.rank).value])
  }

  lemma {:induction false} DetectMeans(pods: seq<Pod>, allocation: seq<string>)
    requires DetectMoved(pods, allocation) != IndexPanic
    ensures DetectMoved(pods, allocation) == Reschedule <==> exists p | p in pods :: Displaced(p, allocation)
  {
    if pods != [] {
      assert pods == [pods[0]] + pods[1..];
      if !Displaced(pods[0], allocation) {
        DetectMeans(pods[1..], allocation);
      } else {
        assert pods[0] in pods;
      }
    }
  }

  /** The pod's rank lies outside of an allocation of the size it was made for. */
  ghost predicate OutOfBounds(p: Pod, allocation: seq<string>) {
    && Atoi(p.meta.replicas) == Some(|allocation|)
    && Atoi(p.meta.rank).Some? && !(0 <= Atoi(p.meta.rank).value < |allocation|)
  }

  /** The i-th pod is such a one, and no pod listed before it is displaced. */
  ghost predicate ReadsOut(pods: seq<Pod>, allocation: seq<string>, i: nat) {
    i < |pods| && OutOfBounds(pods[i], allocation) && forall j | 0 <= j < i :: !Displaced(pods[j], allocation)
  }

  lemma ReadsOutNext(pods: seq<Pod>, allocation: seq<string>, i: nat)
    requires pods != []
    ensures ReadsOut(pods, allocation, i + 1) <==> !Displaced(pods[0], allocation) && ReadsOut(pods[1..], allocation, i)
  {
    hide Displaced, OutOfBounds;
    assert forall j: nat | j < |pods[1..]| :: pods[1..][j] == pods[j + 1];
    if !Displaced(pods[0], allocation) && ReadsOut(pods[1..], allocation, i) {
      forall j | 0 <= j < i + 1 ensures !Displaced(pods[j], allocation) {
        if j > 0 {
          assert pods[j] == pods[1..][j - 1];
        }
      }
    }
  }

  lemma DetectHead(pods: seq<Pod>, allocation: seq<string>)
    requires pods != []
    ensures DetectMoved(pods, allocation) ==
      if Displaced(pods[0], allocation) then Reschedule
      else if OutOfBounds(pods[0], allocation) then IndexPanic
      else DetectMoved(pods[1..], allocation)
    ensures !(Displaced(pods[0], allocation) && OutOfBounds(pods[0], allocation))
    ensures ReadsOut(pods, allocation, 0) <==> OutOfBounds(pods[0], allocation)
  {
  }

  lemma DetectNone(allocation: seq<string>)
    ensures DetectMoved([], allocation) == Keep && !exists i: nat :: ReadsOut([], allocation, i)
  {
  }

  /** detectReschedule reads out of bounds exactly when there is one. */
  lemma {:induction false} DetectPanicIff(pods: seq<Pod>, allocation: seq<string>)
    ensures DetectMoved(pods, allocation) == IndexPanic <==> exists i: nat :: ReadsOut(pods, allocation, i)
  {
    hide *;
    if pods == [] {
      DetectNone(allocation);
    } else {
      DetectHead(pods, allocation);
      DetectPanicIff(pods[1..], allocation);
      if i: nat :| ReadsOut(pods[1..], allocation, i) {
        ReadsOutNext(pods, allocation, i);
      }
      if i: nat :| ReadsOut(pods, allocation, i) {
        if i > 0 {
          ReadsOutNext(pods, allocation, i - 1);
        }
      }
    }
  }

  /** The phase the live pods of a Starting or Running job call for. */
  ghost predicate Decided(spec: Spec, st: Status, now: Phase, pods: seq<Pod>, allocation: seq<string>) {
    var allSucceeded := pods != [] && forall p | p in pods :: p.status.phase == PodSucceeded;
    var someFailed := exists p | p in pods :: HasFailed(p, spec.preemptible);
    var unplaced := st.phase == Running || |ScheduledCells(pods)| != Total(spec.tasks);
    var mismatch :=
      if spec.preemptible then exists p | p in pods :: Displaced(p, allocation) else |pods| != Total(spec.tasks);
    && (now == Succeeded <==> allSucceeded)
    && (now == Restarting <==> !allSucceeded && someFailed && WithinBudget(spec, st.restarts))
    && (now == Failed <==> !allSucceeded && someFailed && !WithinBudget(spec, st.restarts))
    && (now == Rescheduling <==> !allSucceeded && !someFailed && unplaced && mismatch)
    && (st.phase == Starting ==>
          (now == Running <==>
             !allSucceeded && !someFailed && !(unplaced && mismatch) && |ReadyCells(pods)| == Total(spec.tasks)))
  }

  lemma CompletionDecides(spec: Spec, st: Status, pods: seq<Pod>)
    requires st.phase in {Starting, Running}
    ensures var r := CheckCompletion(spec, st, pods);
      var allSucceeded := pods != [] && forall p | p in pods :: p.status.phase == PodSucceeded;
      var someFailed := exists p | p in pods :: HasFailed(p, spec.preemptible);
      var phase := if allSucceeded then Succeeded else if WithinBudget(spec, st.restarts) then Restarting else Failed;
      match r
      case None => !allSucceeded && !someFailed
      case Some(now) => (allSucceeded || someFailed) && now.phase == phase
  {
    hide Enter;
    AllSucceededIff(pods);
    NoneFailedIff(pods, spec.preemptible);
    assert (exists p | p in pods :: IsPodFailed(p, spec.preemptible)) <==>
      (exists p | p in pods :: HasFailed(p, spec.preemptible)) by {
      hide IsPodFailed, HasFailed;
      forall p ensures IsPodFailed(p, spec.preemptible) <==> HasFailed(p, spec.preemptible) {
        FailedMeans(p, spec.preemptible);
      }
    }
    EnterLawful(st, Succeeded);
    EnterLawful(st, Restarting);
    EnterLawful(st, Failed);
  }

  /** Nothing is missed and nothing is made up: unless an index is out of range, a
      reconcile in Starting or Running leaves the pods alone and moves to Succeeded
      exactly when there are live pods and all succeeded, otherwise to Restarting or
      Failed (by the budget) exactly when one failed, otherwise to Rescheduling
      exactly when the pods do not match, otherwise to Running exactly when enough
      containers are ready. The live pods are those that are not terminating. */
  lemma PodsDecide(id: JobId, spec: Spec, st: Status, list: seq<Pod>, s: Store, f: Faults)
    requires st.phase in {Starting, Running} && ReconcilePhase(id, spec, st, list, s, f).err != Panic
    ensures var o := ReconcilePhase(id, spec, st, list, s, f);
      o.err == NoError && o.store == s && Decided(spec, st, o.status.phase, LivePods(list), st.allocation)
    ensures forall p :: p in LivePods(list) <==> p in list && !p.status.terminating
  {
    hide CheckCompletion, DetectMoved, ScheduledCount, ReadyCount, FilterPods, UpdateReplicas, Enter, IsPodFailed,
      HasFailed, Displaced, ScheduledCells, ReadyCells;
    var pods := LivePods(list);
    UpdateReplicasFrame(spec, st, list);
    var st' := UpdateReplicas(spec, st, list);
    CompletionDecides(spec, st', pods);
    ScheduledCellsSize(pods);
    ReadyCellsSize(pods);
    EnterLawful(st', Running);
    EnterLawful(st', Rescheduling);
    if spec.preemptible && DetectMoved(pods, st.allocation) != IndexPanic {
      DetectMeans(pods, st.allocation);
    }
  }

  /** The live pods by name. */
  ghost function LiveNamesOf(s: Store): set<string> { set n | n in s && !s[n].status.terminating :: n }

  lemma LiveCount(list: seq<Pod>, s: Store)
    requires IsListing(list, s)
    ensures |LivePods(list)| == |LiveNamesOf(s)|
    ensures forall p :: p in LivePods(list) <==> p.meta.name in LiveNamesOf(s) && s[p.meta.name] == p
  {
    LiveListing(list, s);
    assert Live(s).Keys == LiveNamesOf(s);
    assert |Live(s)| == |Live(s).Keys|;
  }

  /** A job that is not preemptible, with a pod for each of its names wanted: as long
      as no live pod has succeeded or failed, Running is left for Rescheduling exactly
      when there are more or fewer live pods than names, and Starting exactly when they
      are not as many as have been scheduled, either. */
  lemma PlainPodsDecide(id: JobId, spec: Spec, st: Status, list: seq<Pod>, s: Store, f: Faults)
    requires !spec.preemptible && DistinctNames(spec.tasks) && IsListing(list, s) && st.phase in {Starting, Running}
    requires forall n | n in LiveNamesOf(s) :: s[n].status.phase in {PodPending, PodRunning}
    ensures var n, live := |SpecNames(id, spec.tasks)|, |LiveNamesOf(s)|;
      ReconcilePhase(id, spec, st, list, s, f).status.phase ==
        if st.phase == Running then if live == n then Running else Rescheduling
        else if |ScheduledCells(LivePods(list))| != n && live != n then Rescheduling
        else if |ReadyCells(LivePods(list))| == n then Running
        else Starting
  {
    hide *;
    var pods, now := LivePods(list), ReconcilePhase(id, spec, st, list, s, f).status.phase;
    LiveCount(list, s);
    SpecNamesSize(id, spec.tasks);
    PlainNoPanic(id, spec, st, list, s, f);
    PodsDecide(id, spec, st, list, s, f);
    ReconcileLawful(id, spec, st, list, s, f);
    LawfulPhase(spec, st, ReconcilePhase(id, spec, st, list, s, f).status);
    PlainDecided(spec, st, now, pods);
  }

  lemma LawfulPhase(spec: Spec, st: Status, r: Status)
    requires Lawful(spec, st, r)
    ensures r.phase == st.phase || r.phase in Successors(st.phase)
  {
    hide WellFormed;
  }

  lemma PlainDecided(spec: Spec, st: Status, now: Phase, pods: seq<Pod>)
    requires !spec.preemptible && st.phase in {Starting, Running} && Decided(spec, st, now, pods, st.allocation)
    requires forall p | p in pods :: p.status.phase in {PodPending, PodRunning}
    requires now == st.phase || now in Successors(st.phase)
    ensures var n := Total(spec.tasks);
      now == if st.phase == Running then if |pods| == n then Running else Rescheduling
        else if |ScheduledCells(pods)| != n && |pods| != n then Rescheduling
        else if |ReadyCells(pods)| == n then Running
        else Starting
  {
    hide ScheduledCells, ReadyCells;
    assert pods != [] ==> pods[0] in pods;
    assert forall p | p in pods :: !HasFailed(p, spec.preemptible);
    hide HasFailed;
  }

  lemma PlainNoPanic(id: JobId, spec: Spec, st: Status, list: seq<Pod>, s: Store, f: Faults)
    requires !spec.preemptible && st.phase in {Starting, Running}
    ensures ReconcilePhase(id, spec, st, list, s, f).err != Panic
  {
    hide CheckCompletion, ScheduledCount, ReadyCount, LivePods, UpdateReplicas, Enter;
    UpdateReplicasFrame(spec, st, list);
  }

  /** Exactly when a reconcile in Starting or Running restarts or fails a job: some pod
      in the store has failed. Which of the two the budget decides. */
  lemma FailureDecides(id: JobId, spec: Spec, st: Status, list: seq<Pod>, s: Store, f: Faults)
    requires IsListing(list, s) && st.phase in {Starting, Running}
    ensures var now := ReconcilePhase(id, spec, st, list, s, f).status.phase;
      && (now in {Restarting, Failed} <==> exists n | n in s :: HasFailed(s[n], spec.preemptible))
      && (now in {Restarting, Failed} ==> now == if WithinBudget(spec, st.restarts) then Restarting else Failed)
  {
    hide *;
    var pods, st' := LivePods(list), UpdateReplicas(spec, st, list);
    LiveCount(list, s);
    ListedKeyed(list, s);
    UpdateReplicasFrame(spec, st, list);
    CompletionDecides(spec, st', pods);
    CompletionFirst(id, spec, st, list, s, f);
    SameBudget(spec, st, st');
    FailedInStore(spec.preemptible, pods, s);
  }

  lemma ListedKeyed(list: seq<Pod>, s: Store)
    requires IsListing(list, s)
    ensures KeyedByName(s)
  {
  }

  lemma SameBudget(spec: Spec, a: Status, b: Status)
    requires a.restarts == b.restarts
    ensures WithinBudget(spec, a.restarts) == WithinBudget(spec, b.restarts)
  {
  }

  lemma CompletionFirst(id: JobId, spec: Spec, st: Status, list: seq<Pod>, s: Store, f: Faults)
    requires st.phase in {Starting, Running}
    ensures var done := CheckCompletion(spec, UpdateReplicas(spec, st, list), LivePods(list));
      var now := ReconcilePhase(id, spec, st, list, s, f).status.phase;
      if done.Some? then now == done.value.phase else now in {st.phase, Running, Rescheduling}
  {
    hide CheckCompletion, DetectReschedule, ScheduledCount, ReadyCount, LivePods, UpdateReplicas, Enter;
    UpdateReplicasFrame(spec, st, list);
    EnterLawful(UpdateReplicas(spec, st, list), Running);
    EnterLawful(UpdateReplicas(spec, st, list), Rescheduling);
  }

  lemma FailedInStore(preemptible: bool, pods: seq<Pod>, s: Store)
    requires KeyedByName(s)
    requires forall p :: p in pods <==> p.meta.name in LiveNamesOf(s) && s[p.meta.name] == p
    ensures (exists p | p in pods :: HasFailed(p, preemptible)) <==> exists n | n in s :: HasFailed(s[n], preemptible)
    ensures (exists p | p in pods :: HasFailed(p, preemptible)) ==>
      !(forall p | p in pods :: p.status.phase == PodSucceeded)
  {
    if n :| n in s && HasFailed(s[n], preemptible) {
      assert n in LiveNamesOf(s) && s[n] in pods;
    }
  }

  /** With as many live pods as names, a reconcile in Restarting whose deletes take
      effect removes exactly the failed pods, and goes to Starting exactly if there are
      none. */
  lemma {:induction false} RestartDeletesFailed(id: JobId, spec: Spec, st: Status, list: seq<Pod>, s: Store, f: Faults)
    requires DistinctNames(spec.tasks) && IsListing(list, s) && st.phase == Restarting && f.delete == map[]
    requires |LiveNamesOf(s)| == |SpecNames(id, spec.tasks)|
    ensures var o := ReconcilePhase(id, spec, st, list, s, f);
      && (forall n :: n in o.store <==> n in s && !HasFailed(s[n], spec.preemptible))
      && (forall n | n in o.store :: o.store[n] == s[n])
      && o.status.phase == if exists n | n in s :: HasFailed(s[n], spec.preemptible) then Restarting else Starting
  {
    var pods := LivePods(list);
    var failed := FailedPods(pods, spec.preemptible);
    LiveCount(list, s);
    SpecNamesSize(id, spec.tasks);
    DeleteListExact(s, failed, f);
    UpdateReplicasFrame(spec, st, list);
    EnterLawful(UpdateReplicas(spec, st, list), Starting);
    FailedByName(spec.preemptible, pods, s);
    hide LivePods, FailedPods, UpdateReplicas, Enter, IsListing, HasFailed, SpecNames, CreateMissed, Redundant,
      LiveNamesOf, DeleteList;
  }

  lemma FailedByName(preemptible: bool, pods: seq<Pod>, s: Store)
    requires KeyedByName(s)
    requires forall p :: p in pods <==> p.meta.name in LiveNamesOf(s) && s[p.meta.name] == p
    ensures forall n | n in s :: n in Names(FailedPods(pods, preemptible)) <==> HasFailed(s[n], preemptible)
    ensures FailedPods(pods, preemptible) == [] <==> !(exists n | n in s :: HasFailed(s[n], preemptible))
  {
    var failed := FailedPods(pods, preemptible);
    forall p ensures p in failed <==> p in pods && HasFailed(p, preemptible) {
      FailedMeans(p, preemptible);
    }
    hide FailedPods;
    forall n | n in s ensures n in Names(failed) <==> HasFailed(s[n], preemptible) {
      if HasFailed(s[n], preemptible) {
        assert n in LiveNamesOf(s) && s[n] in failed;
      }
    }
    if failed != [] {
      assert failed[0] in failed && failed[0].meta.name in s;
    }
  }

  // ---- Restarting, when all pods stand in slots of the spec

  /** All pods are live and stand in slots of an acceptable spec. */
  ghost predicate Settled(id: JobId, spec: Spec, s: Store) {
    && Acceptable(spec.tasks)
    && StoreInv(id, s)
    && (forall n | n in s :: IsPodLive(s[n]))
    && s.Keys <= SpecNames(id, spec.tasks)
  }

  lemma SettledStanding(id: JobId, spec: Spec, s: Store)
    requires Settled(id, spec, s)
    ensures Standing(id, spec, s)
  {
    hide SpecNames, InRange, Acceptable, DistinctRanks, Built;
    AcceptableDistinct(spec.tasks);
    forall n | n in s ensures InRange(spec.tasks, s[n]) {
      SpecNameInRange(id, spec.tasks, s[n]);
    }
  }

  lemma StandingSettled(id: JobId, spec: Spec, s: Store)
    requires Standing(id, spec, s) && s.Keys <= SpecNames(id, spec.tasks)
    ensures Settled(id, spec, s)
  {
    hide SpecNames, StoreInv, Acceptable, InRange;
  }

  lemma SettledSizes(id: JobId, spec: Spec, s: Store)
    requires Settled(id, spec, s)
    ensures |s| + |MissingNames(id, spec, s)| == Total(spec.tasks)
  {
    SettledStanding(id, spec, s);
    StandingFacts(id, spec, s);
    hide SpecNames, Standing, StoreInv, Acceptable, Live;
    assert |s| == |s.Keys|;
    assert SpecNames(id, spec.tasks) == s.Keys + MissingNames(id, spec, s);
  }

  /** The lexicographic measure (failed pods, missing slots). */
  ghost predicate Smaller(id: JobId, spec: Spec, t: Store, s: Store) {
    || |FailedNames(spec, t)| < |FailedNames(spec, s)|
    || (|FailedNames(spec, t)| == |FailedNames(spec, s)| && |MissingNames(id, spec, t)| < |MissingNames(id, spec, s)|)
  }

  /** One undisturbed reconcile: with pods missing it creates as many of them as
      there is room for and panics if that is not all; otherwise it deletes the
      failed pods; otherwise it goes to Starting. */
  ghost predicate RestartStep(id: JobId, spec: Spec, allocation: seq<string>, s: Store, o: Outcome) {
    var missing, failed := |MissingNames(id, spec, s)|, FailedNames(spec, s);
    var n := Fitting(spec, allocation, Top(s) + 1, missing);
    if missing > 0 then
      && o.status.phase == Restarting && o.err == (if n < missing then Panic else NoError)
      && CreatedAbove(id, spec.tasks, s, o.store, Top(s), n)
    else
      && o.err == NoError && o.store == s - failed
      && o.status.phase == (if failed == {} then Starting else Restarting)
  }

  lemma {:induction false} RestartRound(id: JobId, spec: Spec, st: Status, list: seq<Pod>, s: Store)
    requires Settled(id, spec, s) && IsListing(list, s) && st.phase == Restarting
    ensures var o := ReconcilePhase(id, spec, st, list, s, NO_FAULTS);
      && Settled(id, spec, o.store) && RestartStep(id, spec, st.allocation, s, o)
  {
    hide SpecNames, Settled, ReconcilePhase, IsListing, CreatedAbove, EnoughOfEachType, Fitting, FailedNames,
      MissingNames,
      Redundant, Top, Standing;
    SettledStanding(id, spec, s);
    SettledSizes(id, spec, s);
    RestartOutcome(id, spec, st, list, s);
    var o := ReconcilePhase(id, spec, st, list, s, NO_FAULTS);
    StepSettled(id, spec, st.allocation, s, o);
  }

  lemma StepSettled(id: JobId, spec: Spec, allocation: seq<string>, s: Store, o: Outcome)
    requires Settled(id, spec, s) && Standing(id, spec, o.store) && RestartStep(id, spec, allocation, s, o)
    ensures Settled(id, spec, o.store)
  {
    var missing := |MissingNames(id, spec, s)|;
    hide SpecNames, Standing, Acceptable, StoreInv, CreatedAbove, FailedNames, Fitting;
    if missing > 0 {
      CreatedMissing(id, spec, s, o.store, Top(s), Fitting(spec, allocation, Top(s) + 1, missing));
    }
    StandingSettled(id, spec, o.store);
  }

  /** If there is room for all missing pods, the reconcile makes the measure smaller
      unless it reaches Starting. */
  lemma RoundProgress(id: JobId, spec: Spec, allocation: seq<string>, s: Store, o: Outcome)
    requires Settled(id, spec, s) && RestartStep(id, spec, allocation, s, o)
    requires RoomFor(spec, allocation, Top(s), |MissingNames(id, spec, s)|)
    ensures o.err == NoError && (o.status.phase == Starting || Smaller(id, spec, o.store, s))
    ensures |MissingNames(id, spec, s)| > 0 ==>
      MissingNames(id, spec, o.store) == {} && FailedNames(spec, o.store) == FailedNames(spec, s)
    ensures |MissingNames(id, spec, s)| == 0 ==> FailedNames(spec, o.store) == {}
  {
    var missing := |MissingNames(id, spec, s)|;
    hide SpecNames, Settled, CreatedAbove, MissingNames, Top;
    if missing > 0 {
      CreatedMissing(id, spec, s, o.store, Top(s), missing);
      CreatedFailed(id, spec, s, o.store, Top(s), missing);
      assert |MissingNames(id, spec, o.store)| == 0;
    } else if FailedNames(spec, s) != {} {
      assert FailedNames(spec, o.store) == {};
      assert |FailedNames(spec, s)| > 0;
    }
  }

  /** Room now for the missing pods and for those that have failed, or room for the
      failed ones once they are deleted. Always true unless the job is preemptible. */
  ghost predicate CanRestart(id: JobId, spec: Spec, s: Store, allocation: seq<string>) {
    var missing, failed := |MissingNames(id, spec, s)|, |FailedNames(spec, s)|;
    if missing > 0 then RoomFor(spec, allocation, Top(s), missing + failed)
    else failed == 0 || RoomFor(spec, allocation, Top(s - FailedNames(spec, s)), failed)
  }

  lemma CanRestartPlain(id: JobId, spec: Spec, s: Store, allocation: seq<string>)
    requires !spec.preemptible
    ensures CanRestart(id, spec, s, allocation)
  {
    hide MissingNames, FailedNames, Top;
  }

  /** Pods that were created have not failed, so deleting the failed ones leaves the
      highest rank in use. */
  lemma TopWithoutFailed(id: JobId, spec: Spec, s: Store, t: Store, u: Store, n: nat)
    requires StoreInv(id, s) && StoreInv(id, t) && StoreInv(id, u)
    requires n > 0 && CreatedAbove(id, spec.tasks, s, t, Top(s), n) && Calm(spec, t, u)
    ensures Top(u - FailedNames(spec, u)) == Top(s) + n
  {
    hide *;
    CreatedTop(id, spec, s, t, n);
    CalmTop(id, spec, t, u);
    var m := NewestPod(id, spec.tasks, s, t, Top(s), n);
    SurvivingTop(id, spec, t, u, m);
    InvWithout(id, u, FailedNames(spec, u));
    TopIs(id, u - FailedNames(spec, u), Top(s) + n);
  }

  lemma NewestPod(id: JobId, tasks: seq<Task>, s: Store, t: Store, top: nat, n: nat) returns (m: string)
    requires n > 0 && CreatedAbove(id, tasks, s, t, top, n)
    ensures m in t && t[m].status == FRESH_STATUS && RankOf(t[m]) == top + n
  {
    hide RankOf, SpecNames;
    m :| m in t && m !in s && RankOf(t[m]) == top + n;
  }

  lemma InvWithout(id: JobId, s: Store, names: set<string>)
    requires StoreInv(id, s)
    ensures StoreInv(id, s - names)
  {
    hide Built, RankOf;
  }

  lemma SurvivingTop(id: JobId, spec: Spec, t: Store, u: Store, m: string)
    requires StoreInv(id, u) && m in t && Calm(spec, t, u) && t[m].status == FRESH_STATUS && RankOf(t[m]) == Top(u)
    ensures IsTop(u - FailedNames(spec, u), Top(u))
  {
    hide StoreInv, Top;
    SomeTop(id, u);
    assert RankOf(u[m]) == RankOf(t[m]);
    assert !IsPodFailed(t[m], spec.preemptible);
    var v := u - FailedNames(spec, u);
    assert m in v && v[m] == u[m] && IsPodLive(v[m]);
  }

  /** A reconcile in Restarting that does not finish decides nothing new: whether the
      job can restart is the same afterwards, and statuses that calmly improve do
      not take it away. */
  lemma CanRestartNext(id: JobId, spec: Spec, allocation: seq<string>, s: Store, o: Outcome, u: Store)
    requires Settled(id, spec, s) && Settled(id, spec, o.store) && RestartStep(id, spec, allocation, s, o)
    requires o.status.phase == Restarting && Calm(spec, o.store, u)
    ensures CanRestart(id, spec, s, allocation) ==> CanRestart(id, spec, u, allocation)
    ensures CanRestart(id, spec, o.store, allocation) ==> CanRestart(id, spec, s, allocation)
  {
    var t, missing := o.store, |MissingNames(id, spec, s)|;
    hide Settled, StoreInv, Acceptable, Standing, Calm, MissingNames, FailedNames, Top, CreatedAbove, Fitting,
      RoomFor, SpecNames;
    SettledInv(id, spec, s);
    SettledInv(id, spec, t);
    SettledStanding(id, spec, t);
    CalmStanding(id, spec, t, u);
    CalmInv(id, spec, t, u);
    FewerFailed(spec, t, u);
    if missing > 0 {
      var n := Fitting(spec, allocation, Top(s) + 1, missing);
      CreatedMissing(id, spec, s, t, Top(s), n);
      CreatedFailed(id, spec, s, t, Top(s), n);
      CreatedTop(id, spec, s, t, n);
      if n > 0 {
        CalmSame(spec, t);
        TopWithoutFailed(id, spec, s, t, t, n);
        TopWithoutFailed(id, spec, s, t, u, n);
      }
      RoomAfter(spec, allocation, Top(s), missing, |FailedNames(spec, s)|, |FailedNames(spec, u)|);
    } else {
      NoneFailed(spec, s);
      FailedBecomeMissing(id, spec, s);
      NoFailedNames(spec, t);
    }
  }

  lemma NoFailedNames(spec: Spec, t: Store)
    requires FailedNames(spec, t) == {}
    ensures |FailedNames(spec, t)| == 0
  {
    hide FailedNames;
  }

  lemma FailedBecomeMissing(id: JobId, spec: Spec, s: Store)
    requires Settled(id, spec, s) && |MissingNames(id, spec, s)| == 0
    ensures |MissingNames(id, spec, s - FailedNames(spec, s))| == |FailedNames(spec, s)|
  {
    hide StoreInv, Acceptable, SpecNames, IsPodFailed;
    assert MissingNames(id, spec, s) == {};
    assert MissingNames(id, spec, s - FailedNames(spec, s)) == FailedNames(spec, s);
  }

  lemma RoomAfter(spec: Spec, allocation: seq<string>, top: nat, missing: nat, failed: nat, later: nat)
    requires missing > 0 && later <= failed
    ensures var n := Fitting(spec, allocation, top + 1, missing);
      && ((if n < missing then RoomFor(spec, allocation, top + n, missing - n + failed)
           else failed == 0 || RoomFor(spec, allocation, top + n, failed))
          <==> RoomFor(spec, allocation, top, missing + failed))
      && (RoomFor(spec, allocation, top, missing + failed) ==>
            n == missing && (later == 0 || RoomFor(spec, allocation, top + n, later)))
  {
  }

  lemma FewerFailed(spec: Spec, t: Store, u: Store)
    requires FailedNames(spec, u) <= FailedNames(spec, t)
    ensures |FailedNames(spec, u)| <= |FailedNames(spec, t)|
  {
    hide FailedNames;
    assert FailedNames(spec, t) == FailedNames(spec, u) + (FailedNames(spec, t) - FailedNames(spec, u));
  }

  lemma NoneFailed(spec: Spec, s: Store)
    ensures FailedNames(spec, s - FailedNames(spec, s)) == {}
  {
  }

  lemma SettledInv(id: JobId, spec: Spec, s: Store)
    requires Settled(id, spec, s)
    ensures StoreInv(id, s) && Acceptable(spec.tasks)
  {
  }

  /** The reconciles still needed. */
  ghost function RoundsLeft(id: JobId, spec: Spec, s: Store): nat {
    if FailedNames(spec, s) == {} then
      if MissingNames(id, spec, s) == {} then 1 else 2
    else
      if MissingNames(id, spec, s) == {} then 3 else 4
  }

  /** The world stays one that the rounds are about. */
  ghost predicate Restartable(id: JobId, w: World) {
    w.status.phase == Restarting && Defaulted(w.spec) && Settled(id, w.spec, w.store)
  }

  /** One undisturbed reconcile and the calm after it. */
  lemma {:induction false} CalmRound(id: JobId, w: World, list: seq<Pod>, next: World)
    requires Restartable(id, w) && IsListing(list, w.store) && CalmNext(id, w, list, next)
    ensures var o := ReconcilePhase(id, w.spec, w.status, list, w.store, NO_FAULTS);
      && Settled(id, w.spec, o.store) && RestartStep(id, w.spec, w.status.allocation, w.store, o)
      && Undisturbed(id, w, list).status.phase == o.status.phase == next.status.phase
      && next.spec == w.spec && next.status.allocation == w.status.allocation
      && Calm(w.spec, o.store, next.store)
      && (o.status.phase == Restarting ==> Restartable(id, next))
  {
    hide ReconcilePhase, Settled, IsListing, Undisturbed, Calm, RestartStep, Defaulted;
    SettledInv(id, w.spec, w.store);
    UndisturbedOutcome(id, w, list);
    RestartRound(id, w.spec, w.status, list, w.store);
    CalmSettled(id, w.spec, Undisturbed(id, w, list).store, next.store);
  }

  lemma CalmSettled(id: JobId, spec: Spec, s: Store, t: Store)
    requires Settled(id, spec, s) && Calm(spec, s, t)
    ensures Settled(id, spec, t)
    ensures MissingNames(id, spec, t) == MissingNames(id, spec, s)
    ensures FailedNames(spec, t) <= FailedNames(spec, s)
  {
    CalmInv(id, spec, s, t);
    hide SpecNames, Acceptable, StoreInv;
  }

  lemma FewerRounds(id: JobId, spec: Spec, allocation: seq<string>, s: Store, o: Outcome, u: Store)
    requires Settled(id, spec, s) && Settled(id, spec, o.store) && RestartStep(id, spec, allocation, s, o)
    requires CanRestart(id, spec, s, allocation) && Calm(spec, o.store, u)
    ensures o.status.phase == Starting || RoundsLeft(id, spec, u) < RoundsLeft(id, spec, s)
  {
    hide Settled, Calm, RestartStep, FailedNames, MissingNames, Top, Smaller;
    RoundProgress(id, spec, allocation, s, o);
    CalmSettled(id, spec, o.store, u);
    if |MissingNames(id, spec, s)| == 0 && FailedNames(spec, s) == {} {
      FinishedStep(id, spec, allocation, s, o);
    }
  }

  lemma FinishedStep(id: JobId, spec: Spec, allocation: seq<string>, s: Store, o: Outcome)
    requires RestartStep(id, spec, allocation, s, o) && |MissingNames(id, spec, s)| == 0 && FailedNames(spec, s) == {}
    ensures o.status.phase == Starting
  {
    hide FailedNames, MissingNames, CreatedAbove;
  }

  /** A job that can restart reaches Starting within the rounds left, which are never
      more than four: for any listings, and with pods changing status between
      reconciles as long as none vanishes or newly fails. */
  lemma {:induction false} RestartConverges(id: JobId, ws: seq<World>, lists: seq<seq<Pod>>)
    requires CalmRun(id, ws, lists) && Restartable(id, ws[0])
    requires CanRestart(id, ws[0].spec, ws[0].store, ws[0].status.allocation)
    requires |lists| >= RoundsLeft(id, ws[0].spec, ws[0].store)
    ensures RoundsLeft(id, ws[0].spec, ws[0].store) <= 4
    ensures Reaches(id, ws, lists, Starting)
    decreases |ws|
  {
    hide ReconcilePhase, Restartable, IsListing, CalmNext, Undisturbed, CanRestart, RestartStep, Settled, Calm, Reaches;
    var w, next := ws[0], ws[1];
    CalmRound(id, w, lists[0], next);
    RestartableFacts(id, w);
    var o := ReconcilePhase(id, w.spec, w.status, lists[0], w.store, NO_FAULTS);
    if o.status.phase == Starting {
      ReachesFirst(id, ws, lists, Starting);
    } else {
      StepPhase(id, w.spec, w.status.allocation, w.store, o);
      FewerRounds(id, w.spec, w.status.allocation, w.store, o, next.store);
      CanRestartNext(id, w.spec, w.status.allocation, w.store, o, next.store);
      CalmRest(id, ws, lists);
      RestartConverges(id, ws[1..], lists[1..]);
      ReachesLater(id, ws, lists, Starting);
    }
  }

  /** A job that is not preemptible needs no more than that. */
  lemma PlainRestartConverges(id: JobId, ws: seq<World>, lists: seq<seq<Pod>>)
    requires CalmRun(id, ws, lists) && Restartable(id, ws[0]) && !ws[0].spec.preemptible
    requires |lists| >= RoundsLeft(id, ws[0].spec, ws[0].store)
    ensures Reaches(id, ws, lists, Starting)
  {
    hide CalmNext, IsListing, Restartable, CanRestart, Reaches, RoundsLeft;
    CanRestartPlain(id, ws[0].spec, ws[0].store, ws[0].status.allocation);
    RestartConverges(id, ws, lists);
  }

  lemma RestartableFacts(id: JobId, w: World)
    requires Restartable(id, w)
    ensures Settled(id, w.spec, w.store) && w.status.phase == Restarting
  {
  }

  lemma StepPhase(id: JobId, spec: Spec, allocation: seq<string>, s: Store, o: Outcome)
    requires RestartStep(id, spec, allocation, s, o)
    ensures o.status.phase in {Starting, Restarting}
  {
    hide MissingNames, FailedNames, CreatedAbove, Fitting;
  }

  /** A job that cannot restart is in Restarting after any number of reconciles, when
      its pods do not change otherwise: its allocation has no room for the ranks of
      the replacements, now or once the failed pods are deleted. */
  lemma {:induction false} RestartNever(id: JobId, ws: seq<World>, lists: seq<seq<Pod>>, i: nat)
    requires |ws| == |lists| + 1 && i < |ws| && Restartable(id, ws[0])
    requires forall j | 0 <= j < |lists| ::
      IsListing(lists[j], ws[j].store) && ws[j + 1] == Undisturbed(id, ws[j], lists[j])
    requires !CanRestart(id, ws[0].spec, ws[0].store, ws[0].status.allocation)
    ensures Restartable(id, ws[i]) && !CanRestart(id, ws[i].spec, ws[i].store, ws[i].status.allocation)
    ensures ws[i].spec == ws[0].spec && ws[i].status.allocation == ws[0].status.allocation
  {
    hide ReconcilePhase, Restartable, IsListing, Undisturbed, CanRestart, RestartStep, Settled, Calm, Reconcile;
    if i > 0 {
      RestartNever(id, ws, lists, i - 1);
      var w, list := ws[i - 1], lists[i - 1];
      CalmItself(id, w, list);
      CalmRound(id, w, list, ws[i]);
      RestartableFacts(id, w);
      var o := ReconcilePhase(id, w.spec, w.status, list, w.store, NO_FAULTS);
      UndisturbedStore(id, w, list);
      StepPhase(id, w.spec, w.status.allocation, w.store, o);
      if o.status.phase == Starting {
        CannotFinish(id, w.spec, w.status.allocation, w.store, o);
      }
      CalmSame(w.spec, o.store);
      CanRestartNext(id, w.spec, w.status.allocation, w.store, o, o.store);
    }
  }

  lemma CalmItself(id: JobId, w: World, list: seq<Pod>)
    ensures CalmNext(id, w, list, Undisturbed(id, w, list))
  {
    hide Undisturbed;
  }

  lemma {:induction false} UndisturbedStore(id: JobId, w: World, list: seq<Pod>)
    requires Restartable(id, w)
    ensures Undisturbed(id, w, list).store == ReconcilePhase(id, w.spec, w.status, list, w.store, NO_FAULTS).store
  {
    hide Undisturbed, ReconcilePhase, StoreInv, Acceptable, SpecNames, Defaulted;
    UndisturbedOutcome(id, w, list);
  }

  lemma CannotFinish(id: JobId, spec: Spec, allocation: seq<string>, s: Store, o: Outcome)
    requires RestartStep(id, spec, allocation, s, o) && o.status.phase == Starting
    ensures CanRestart(id, spec, s, allocation)
  {
    hide MissingNames, CreatedAbove, Fitting, RoomFor;
    assert |FailedNames(spec, s)| == 0;
  }

  /** So a job whose pods all stand in slots, and do not change by themselves, gets
      from Restarting to Starting if and only if it can restart; four reconciles
      decide it. */
  lemma {:induction false} RestartsIff(id: JobId, ws: seq<World>, lists: seq<seq<Pod>>)
    requires |ws| == |lists| + 1 && |lists| >= 4 && Restartable(id, ws[0])
    requires forall j | 0 <= j < |lists| ::
      IsListing(lists[j], ws[j].store) && ws[j + 1] == Undisturbed(id, ws[j], lists[j])
    ensures Reaches(id, ws, lists, Starting) <==> CanRestart(id, ws[0].spec, ws[0].store, ws[0].status.allocation)
  {
    hide ReconcilePhase, IsListing, Undisturbed, CanRestart, Settled, CalmNext, Defaulted;
    if CanRestart(id, ws[0].spec, ws[0].store, ws[0].status.allocation) {
      forall j | 0 <= j < |lists| ensures CalmNext(id, ws[j], lists[j], ws[j + 1]) {
        CalmItself(id, ws[j], lists[j]);
      }
      AtMostFour(id, ws[0].spec, ws[0].store);
      RestartConverges(id, ws, lists);
    } else {
      forall i | 0 <= i < |lists| ensures Undisturbed(id, ws[i], lists[i]).status.phase == Restarting {
        RestartNever(id, ws, lists, i + 1);
      }
    }
  }

  lemma AtMostFour(id: JobId, spec: Spec, s: Store)
    ensures RoundsLeft(id, spec, s) <= 4
  {
  }

  /** One case of it: an allocation of one node for each replica, and a pod that has
      the last rank and has not failed, while another is missing or has failed. */
  lemma LastRankLeavesNoRoom(id: JobId, spec: Spec, allocation: seq<string>, s: Store, m: string)
    requires Settled(id, spec, s) && spec.preemptible && |allocation| == Total(spec.tasks)
    requires forall n | n in s :: RankOf(s[n]) < Total(spec.tasks)
    requires m in s && RankOf(s[m]) == Total(spec.tasks) - 1 && m !in FailedNames(spec, s)
    requires MissingNames(id, spec, s) != {} || FailedNames(spec, s) != {}
    ensures !CanRestart(id, spec, s, allocation)
  {
    SettledInv(id, spec, s);
    InvWithout(id, s, FailedNames(spec, s));
    var left := s - FailedNames(spec, s);
    assert (forall n | n in s :: IsPodLive(s[n])) && m in left && left[m] == s[m];
    NaturalRank(id, s, m);
    HighestIsTop(s, m);
    HighestIsTop(left, m);
    assert MissingNames(id, spec, s) != {} ==> |MissingNames(id, spec, s)| > 0;
    assert FailedNames(spec, s) != {} ==> |FailedNames(spec, s)| > 0;
    hide *;
    TopIs(id, s, RankOf(s[m]));
    TopIs(id, left, RankOf(s[m]));
    LastRankArithmetic(id, spec, allocation, s);
  }

  lemma LastRankArithmetic(id: JobId, spec: Spec, allocation: seq<string>, s: Store)
    requires spec.preemptible && |allocation| == Total(spec.tasks)
    requires Top(s) == Top(s - FailedNames(spec, s)) == Total(spec.tasks) - 1
    requires |MissingNames(id, spec, s)| > 0 || |FailedNames(spec, s)| > 0
    ensures !CanRestart(id, spec, s, allocation)
  {
    hide Top, MissingNames, FailedNames;
  }

  lemma HighestIsTop(s: Store, m: string)
    requires m in s && IsPodLive(s[m]) && RankOf(s[m]) >= 0
    requires forall n | n in s :: RankOf(s[n]) <= RankOf(s[m])
    ensures IsTop(s, RankOf(s[m]))
  {
    hide RankOf;
  }

  lemma NaturalRank(id: JobId, s: Store, m: string)
    requires StoreInv(id, s) && m in s
    ensures RankOf(s[m]) >= 0
  {
    hide RankOf;
  }

  /** A preemptible job blocks when the replacement ranks would run off the end of
      its allocation, as they do when the highest-ranked of `replicas` pods survives
      the loss of another: the reconcile panics and the job stays Restarting. */
  lemma {:induction false} NoRoomBlocks(id: JobId, spec: Spec, st: Status, list: seq<Pod>, s: Store)
    requires StoreInv(id, s) && IsListing(list, s) && st.phase == Restarting
    requires |Live(s)| < Total(spec.tasks) && AllInRange(spec.tasks, LivePods(list))
    requires !Room(id, spec, LivePods(list), st.allocation)
    ensures var o := ReconcilePhase(id, spec, st, list, s, NO_FAULTS); o.err == Panic && o.status.phase == Restarting
  {
    hide UpdateReplicas, LivePods, Built, MissedPlan, Room, AllInRange, IsListing;
    var pods := LivePods(list);
    LiveListing(list, s);
    ListedLive(id, list, s);
    UpdateReplicasFrame(spec, st, list);
    MissedRoom(id, spec, pods, st.allocation);
    CreatesSucceed(s, MissedPlan(id, spec, pods, st.allocation).creates, NO_FAULTS);
  }

  // ---- Rescheduling

  /** The situations from which rescheduling a job that is not preemptible settles:
      the count matches, every live pod stands in a slot of the spec (pods were
      lost or the job was scaled up), or each type has at least its quota (the job
      was scaled down). */
  ghost predicate CanSettle(id: JobId, spec: Spec, list: seq<Pod>, s: Store) {
    || |Live(s)| == Total(spec.tasks)
    || Live(s).Keys <= SpecNames(id, spec.tasks)
    || (|Live(s)| > Total(spec.tasks) && EnoughOfEachType(LivePods(list), spec.tasks, 0))
  }

  /** One undisturbed reconcile in Rescheduling: it finishes when the count matches,
      and otherwise brings the live pods to exactly `replicas`. */
  lemma {:induction false} RescheduleRound(id: JobId, spec: Spec, st: Status, list: seq<Pod>, s: Store)
    requires !spec.preemptible && Acceptable(spec.tasks) && StoreInv(id, s) && IsListing(list, s)
    requires st.phase == Rescheduling && CanSettle(id, spec, list, s)
    ensures var o := ReconcilePhase(id, spec, st, list, s, NO_FAULTS);
      && o.err == NoError && StoreInv(id, o.store) && |Live(o.store)| == Total(spec.tasks)
      && o.status.phase == (if |Live(s)| != Total(spec.tasks) then Rescheduling
                            else if Total(spec.tasks) == 0 then Pending else Starting)
      && (|Live(s)| == Total(spec.tasks) ==> o.store == s)
  {
    hide SpecNames, CreateMissed, DeleteList, DeleteEach, Redundant, UpdateReplicas, Enter, LivePods, IsListing,
      TerminatingPods,
      StoreInv, EnoughOfEachType, Acceptable, Live;
    LiveListing(list, s);
    UpdateReplicasFrame(spec, st, list);
    var st' := UpdateReplicas(spec, st, list);
    EnterLawful(st', Starting);
    EnterLawful(st', Pending);
    ReconcileKeepsInv(id, spec, st, list, s, NO_FAULTS);
    if |Live(s)| > Total(spec.tasks) {
      NotInSpec(id, spec.tasks, s);
      RedundantDeleted(spec.tasks, list, s, NO_FAULTS);
    } else if |Live(s)| < Total(spec.tasks) {
      ClearedListing(id, list, s);
      DeleteTerminating(id, list, s);
      FillRound(id, spec, st'.allocation, list, s);
    }
  }

  lemma NotInSpec(id: JobId, tasks: seq<Task>, s: Store)
    requires Acceptable(tasks) && |Live(s)| > Total(tasks)
    ensures !(Live(s).Keys <= SpecNames(id, tasks))
  {
    hide SpecNames;
    AcceptableDistinct(tasks);
    SpecNamesSize(id, tasks);
    assert |Live(s)| == |Live(s).Keys|;
    if Live(s).Keys <= SpecNames(id, tasks) {
      SubsetSize(Live(s).Keys, SpecNames(id, tasks));
    }
  }

  lemma FillRound(id: JobId, spec: Spec, allocation: seq<string>, list: seq<Pod>, s: Store)
    requires !spec.preemptible && Acceptable(spec.tasks) && StoreInv(id, s) && IsListing(list, s)
    requires Live(s).Keys <= SpecNames(id, spec.tasks)
    ensures var r := CreateMissed(id, spec, LivePods(list), allocation, Live(s), NO_FAULTS);
      r.err == NoError && |Live(r.store)| == Total(spec.tasks)
  {
    ClearedListing(id, list, s);
    var l := Live(s);
    assert Settled(id, spec, l);
    hide SpecNames, CreateMissed, LivePods, IsListing, StoreInv, Acceptable, Live, Settled, Standing, CreatedAbove, Top,
      MissingNames;
    SettledStanding(id, spec, l);
    SettledSizes(id, spec, l);
    CreateRound(id, spec, allocation, LivePods(list), l);
    var t := CreateMissed(id, spec, LivePods(list), allocation, l, NO_FAULTS).store;
    CreatedSize(id, spec.tasks, l, t, Top(l), |MissingNames(id, spec, l)|);
    StandingFacts(id, spec, t);
  }

  lemma CreatedSize(id: JobId, tasks: seq<Task>, s: Store, t: Store, top: nat, n: nat)
    requires CreatedAbove(id, tasks, s, t, top, n)
    ensures |t| == |s| + n
  {
    hide SpecNames, RankOf;
  }

  /** A job that can settle leaves Rescheduling within two undisturbed reconciles:
      for Starting, or for Pending when it has no replicas. Afterwards, for any
      store with the same number of live pods, no reschedule is detected. */
  lemma {:induction false} RescheduleConverges(id: JobId, w: World, list: seq<Pod>, w2: World, list2: seq<Pod>)
    requires !w.spec.preemptible && Defaulted(w.spec) && Acceptable(w.spec.tasks)
    requires w.status.phase == Rescheduling && StoreInv(id, w.store) && IsListing(list, w.store)
    requires CanSettle(id, w.spec, list, w.store)
    requires w2 == Undisturbed(id, w, list).(store := w2.store)
    requires Calm(w.spec, Undisturbed(id, w, list).store, w2.store) && IsListing(list2, w2.store)
    ensures var goal := if Total(w.spec.tasks) == 0 then Pending else Starting;
      || w2.status.phase == goal
      || Undisturbed(id, w2, list2).status.phase == goal
    ensures DetectReschedule(w.spec, LivePods(list2), w.status.allocation) == Keep
  {
    hide ReconcilePhase, SpecNames, IsListing, Undisturbed, Acceptable, StoreInv, LivePods, Live, Calm,
      EnoughOfEachType;
    UndisturbedOutcome(id, w, list);
    RescheduleRound(id, w.spec, w.status, list, w.store);
    CalmLive(w.spec, Undisturbed(id, w, list).store, w2.store);
    CalmInv(id, w.spec, Undisturbed(id, w, list).store, w2.store);
    LiveListing(list2, w2.store);
    if |Live(w.store)| != Total(w.spec.tasks) {
      UndisturbedOutcome(id, w2, list2);
      RescheduleRound(id, w2.spec, w2.status, list2, w2.store);
    }
  }
}
