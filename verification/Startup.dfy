/** From Pending to Starting: when an undisturbed job gets there, and when it waits
    for ever. */
module Startup {
  import opened Api
  import opened Util
  import opened Pods
  import opened Cluster
  import opened Conditions
  import opened Replicas
  import opened Validator
  import opened Uniqueness
  import opened Building
  import opened Controller
  import opened Runs
  import opened Rounds
  import opened Outcomes

  /** A job that asks for pods, with enough nodes if it is placed on nodes. */
  ghost predicate Startable(spec: Spec, allocation: seq<string>) {
    && Acceptable(spec.tasks) && Total(spec.tasks) > 0
    && (spec.preemptible ==> |allocation| >= Total(spec.tasks))
  }

  /** No pod at all, the right number of live pods, or a terminating pod. */
  ghost predicate CanStart(spec: Spec, s: Store) {
    s == map[] || |Live(s)| == Total(spec.tasks) || |Live(s)| != |s|
  }

  lemma FirstAllLive(id: JobId, spec: Spec, st: Status)
    requires Startable(spec, st.allocation)
    ensures var o := BuildAndCreate(id, spec, st, map[], NO_FAULTS);
      o.err == NoError && o.status == st && |o.store| == |Live(o.store)| == Total(spec.tasks)
  {
    hide BuildAndCreate, IsFirst, SlotName, Acceptable, Position;
    FirstGeneration(id, spec, st, NO_FAULTS);
    var t := BuildAndCreate(id, spec, st, map[], NO_FAULTS).store;
    forall n | n in t ensures IsPodLive(t[n]) {
      SlotOfName(id, spec.tasks, n);
      var s :| InSpec(spec.tasks, s) && SlotName(id, spec.tasks, s) == n;
      FirstIsLive(id, spec, st.allocation, s, t[n]);
    }
    AllLive(t);
  }

  lemma FirstIsLive(id: JobId, spec: Spec, allocation: seq<string>, s: Slot, p: Pod)
    requires InSpec(spec.tasks, s) && (spec.preemptible ==> Position(spec.tasks, s) < |allocation|)
    requires IsFirst(id, spec, allocation, s, p)
    ensures IsPodLive(p)
  {
    hide FindsItself, CommaFree;
  }

  lemma SlotOfName(id: JobId, tasks: seq<Task>, n: string)
    requires n in SpecNames(id, tasks)
    ensures exists s | InSpec(tasks, s) :: SlotName(id, tasks, s) == n
  {
    hide SlotName;
    SlotsInSpec(tasks);
  }

  /** One undisturbed reconcile in Pending. */
  lemma {:induction false} StartRound(id: JobId, spec: Spec, st: Status, list: seq<Pod>, s: Store)
    requires Startable(spec, st.allocation) && StoreInv(id, s) && IsListing(list, s) && st.phase == Pending
    ensures var o := ReconcilePhase(id, spec, st, list, s, NO_FAULTS);
      && o.err == NoError
      && o.status.phase == (if |Live(s)| == Total(spec.tasks) then Starting else Pending)
      && (s == map[] ==> |o.store| == |Live(o.store)| == Total(spec.tasks))
      && (s != map[] && |Live(s)| == Total(spec.tasks) ==> o.store == s)
      && (s != map[] && |Live(s)| != Total(spec.tasks) && |Live(s)| != |s| ==> o.store == map[])
      && (!CanStart(spec, s) ==> o.store == s)
  {
    hide BuildAndCreate, DeleteEach, LivePods, UpdateReplicas, Enter, IsListing, StoreInv, Live;
    LiveListing(list, s);
    ListingSize(list, s);
    UpdateReplicasFrame(spec, st, list);
    var st' := UpdateReplicas(spec, st, list);
    EnterLawful(st', Starting);
    if s == map[] {
      NoneLive();
      FirstAllLive(id, spec, st');
    }
    if list != [] {
      ListedDeleted(list, s);
    }
  }

  lemma NoneLive()
    ensures Live(map[]) == map[]
  {
  }

  lemma ListedDeleted(list: seq<Pod>, s: Store)
    requires IsListing(list, s)
    ensures DeleteEach(s, list, NO_FAULTS) == map[]
  {
    DeleteListExact(s, list, NO_FAULTS);
    forall n | n in s ensures n in Names(list) {
      assert s[n] in list && s[n].meta.name == n;
    }
    assert s - Names(list) == map[];
  }

  ghost function StartRoundsLeft(spec: Spec, s: Store): nat {
    if |Live(s)| == Total(spec.tasks) then 1 else if s == map[] then 2 else 3
  }

  /** A startable job that can start and that nobody disturbs is Starting within three
      reconciles, with pods changing status in between as long as none vanishes. */
  lemma {:induction false} PendingConverges(id: JobId, ws: seq<World>, lists: seq<seq<Pod>>)
    requires CalmRun(id, ws, lists) && |lists| >= StartRoundsLeft(ws[0].spec, ws[0].store)
    requires ws[0].status.phase == Pending && Defaulted(ws[0].spec) && Startable(ws[0].spec, ws[0].status.allocation)
    requires StoreInv(id, ws[0].store) && CanStart(ws[0].spec, ws[0].store)
    ensures StartRoundsLeft(ws[0].spec, ws[0].store) <= 3
    ensures Reaches(id, ws, lists, Starting)
    decreases |ws|
  {
    hide ReconcilePhase, IsListing, Calm, Undisturbed, StoreInv, Live, Acceptable, Defaulted;
    var w, next := ws[0], Undisturbed(id, ws[0], lists[0]);
    UndisturbedOutcome(id, w, lists[0]);
    StartRound(id, w.spec, w.status, lists[0], w.store);
    if next.status.phase == Starting {
      ReachesFirst(id, ws, lists, Starting);
    } else {
      CalmLive(w.spec, next.store, ws[1].store);
      ReconcileKeepsInv(id, w.spec, w.status, lists[0], w.store, NO_FAULTS);
      CalmInv(id, w.spec, next.store, ws[1].store);
      NoneLive();
      CalmRest(id, ws, lists);
      PendingConverges(id, ws[1..], lists[1..]);
      ReachesLater(id, ws, lists, Starting);
    }
  }

  /** If it cannot, having pods, none of them terminating, that are fewer or more than
      `replicas`, it waits: no number of undisturbed reconciles changes its pods or its phase. */
  lemma {:induction false} PendingStuck(id: JobId, ws: seq<World>, lists: seq<seq<Pod>>, i: nat)
    requires |ws| == |lists| + 1 && i < |ws|
    requires ws[0].status.phase == Pending && Defaulted(ws[0].spec) && Startable(ws[0].spec, ws[0].status.allocation)
    requires StoreInv(id, ws[0].store) && !CanStart(ws[0].spec, ws[0].store)
    requires forall j | 0 <= j < |lists| ::
      IsListing(lists[j], ws[j].store) && ws[j + 1] == Undisturbed(id, ws[j], lists[j])
    ensures ws[i].store == ws[0].store && ws[i].status.phase == Pending
    ensures ws[i].spec == ws[0].spec && ws[i].status.allocation == ws[0].status.allocation
  {
    hide ReconcilePhase, IsListing, Undisturbed, StoreInv, Live, Acceptable, Defaulted;
    if i > 0 {
      PendingStuck(id, ws, lists, i - 1);
      var w := ws[i - 1];
      UndisturbedOutcome(id, w, lists[i - 1]);
      StartRound(id, w.spec, w.status, lists[i - 1], w.store);
    }
  }
}
