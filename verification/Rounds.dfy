/** Single reconciles of a job that nobody disturbs, and how its worlds follow one
    another. */
module Rounds {
  import opened Wrappers
  import opened Api
  import opened Text
  import opened Util
  import opened Pods
  import opened Cluster
  import opened Conditions
  import opened Replicas
  import opened Handlers
  import opened Validator
  import opened Uniqueness
  import opened Missed
  import opened Redundancy
  import opened Controller
  import opened Runs

  // ---- the stores that rounds start from

  ghost function MissingNames(id: JobId, spec: Spec, s: Store): set<string> { SpecNames(id, spec.tasks) - s.Keys }

  ghost function FailedNames(spec: Spec, s: Store): set<string> {
    set n | n in s && IsPodFailed(s[n], spec.preemptible)
  }

  /** The spec is acceptable, all pods are live, and their local ranks fit. */
  ghost predicate Standing(id: JobId, spec: Spec, s: Store) {
    && Acceptable(spec.tasks)
    && StoreInv(id, s)
    && forall n | n in s :: IsPodLive(s[n]) && InRange(spec.tasks, s[n])
  }

  lemma AllLive(s: Store)
    requires forall n | n in s :: IsPodLive(s[n])
    ensures Live(s) == s
  {
  }

  lemma StandingFacts(id: JobId, spec: Spec, s: Store)
    requires Standing(id, spec, s)
    ensures Acceptable(spec.tasks) && DistinctNames(spec.tasks) && StoreInv(id, s) && Live(s) == s
    ensures forall n | n in s :: IsPodLive(s[n]) && !IsPodTerminating(s[n])
    ensures MissingNames(id, spec, s) == SpecNames(id, spec.tasks) - Live(s).Keys
    ensures |SpecNames(id, spec.tasks)| == Total(spec.tasks)
  {
    AllLive(s);
    AcceptableDistinct(spec.tasks);
    SpecNamesSize(id, spec.tasks);
  }

  lemma StandingWithout(id: JobId, spec: Spec, s: Store, names: set<string>)
    requires Standing(id, spec, s)
    ensures Standing(id, spec, s - names)
  {
    hide InRange, Built, Acceptable;
  }

  lemma StandingListed(id: JobId, spec: Spec, list: seq<Pod>, s: Store)
    requires Standing(id, spec, s) && IsListing(list, s)
    ensures IsListing(LivePods(list), s) && |LivePods(list)| == |s| && Names(LivePods(list)) == s.Keys
    ensures AllBuilt(id, LivePods(list)) && AllInRange(spec.tasks, LivePods(list))
  {
    StandingFacts(id, spec, s);
    LiveListing(list, s);
    LiveNames(list, s);
    ListedLive(id, list, s);
    hide InRange, Built, Acceptable, SpecNames, LivePods;
    forall p | p in LivePods(list) ensures InRange(spec.tasks, p) {
      assert s[p.meta.name] == p;
    }
  }

  // ---- the highest rank in use

  ghost predicate IsTop(s: Store, top: nat) {
    && (forall n | n in s && IsPodLive(s[n]) :: RankOf(s[n]) <= top)
    && (top == 0 || exists n | n in s && IsPodLive(s[n]) :: RankOf(s[n]) == top)
  }

  lemma {:induction false} TopIsAttained(pods: seq<Pod>, best: nat)
    requires MaxRank(pods, best).Some?
    ensures var top := MaxRank(pods, best).value; top == best || exists p | p in pods :: RankOf(p) == top
  {
    if pods != [] {
      var r := Atoi(pods[0].meta.rank).value;
      assert pods[0] in pods;
      TopIsAttained(pods[1..], if r > best then r else best);
      assert pods == [pods[0]] + pods[1..];
    }
  }

  /** findMaxGlobalRank finds it, in any listing. */
  lemma ListedTop(id: JobId, list: seq<Pod>, s: Store)
    requires StoreInv(id, s) && IsListing(list, s)
    ensures MaxRank(LivePods(list), 0).Some? && IsTop(s, MaxRank(LivePods(list), 0).value)
  {
    hide Built, RankOf, MaxRank;
    ListedLive(id, list, s);
    var pods := LivePods(list);
    RanksBounded(id, pods);
    TopIsAttained(pods, 0);
    var top := MaxRank(pods, 0).value;
    if top != 0 {
      var p :| p in pods && RankOf(p) == top;
      assert p in list && s[p.meta.name] == p;
    }
  }

  /** 0 when no pod is live. */
  ghost function Top(s: Store): nat {
    if top: nat :| IsTop(s, top) then top else 0
  }

  lemma SomeTop(id: JobId, s: Store)
    requires StoreInv(id, s)
    ensures IsTop(s, Top(s))
  {
    var list := AnyListing(s);
    hide StoreInv, RankOf;
    ListedTop(id, list, s);
  }

  lemma TopIs(id: JobId, s: Store, top: nat)
    requires StoreInv(id, s) && IsTop(s, top)
    ensures Top(s) == top
  {
    RanksNatural(id, s);
    hide RankOf, Built;
  }

  lemma RanksNatural(id: JobId, s: Store)
    requires StoreInv(id, s)
    ensures forall n | n in s :: RankOf(s[n]) >= 0
  {
    hide RankOf;
  }

  // ---- the three steps of Restarting

  /** createMissedReplicas: as many of the missing pods as there is room for. */
  lemma CreateRound(id: JobId, spec: Spec, allocation: seq<string>, list: seq<Pod>, s: Store)
    requires Standing(id, spec, s) && IsListing(list, s)
    ensures var top, missing := Top(s), |MissingNames(id, spec, s)|;
      var n := Fitting(spec, allocation, top + 1, missing);
      var r := CreateMissed(id, spec, LivePods(list), allocation, s, NO_FAULTS);
      && r.err == (if n < missing then Panic else NoError)
      && CreatedAbove(id, spec.tasks, s, r.store, top, n)
      && Standing(id, spec, r.store)
  {
    hide *;
    StandingFacts(id, spec, s);
    ListedTop(id, list, s);
    TopIs(id, s, MaxRank(LivePods(list), 0).value);
    CreateAbove(id, spec, allocation, list, s, Top(s));
  }

  lemma CreateAbove(id: JobId, spec: Spec, allocation: seq<string>, list: seq<Pod>, s: Store, top: nat)
    requires Standing(id, spec, s) && IsListing(list, s) && MaxRank(LivePods(list), 0) == Some(top)
    ensures var missing := |MissingNames(id, spec, s)|;
      var n := Fitting(spec, allocation, top + 1, missing);
      var r := CreateMissed(id, spec, LivePods(list), allocation, s, NO_FAULTS);
      && r.err == (if n < missing then Panic else NoError)
      && CreatedAbove(id, spec.tasks, s, r.store, top, n)
      && Standing(id, spec, r.store)
  {
    assert NO_FAULTS.create == map[];
    hide *;
    StandingFacts(id, spec, s);
    assert StoreInv(id, CreateMissed(id, spec, LivePods(list), allocation, s, NO_FAULTS).store) by {
      ReplaceKeepsInv(id, spec, list, allocation, s, NO_FAULTS);
    }
    assert AllInRange(spec.tasks, LivePods(list)) by {
      StandingListed(id, spec, list, s);
    }
    MissedFits(id, spec, list, allocation, s, NO_FAULTS, top);
    StandingMore(id, spec, s, CreateMissed(id, spec, LivePods(list), allocation, s, NO_FAULTS).store,
                 top, Fitting(spec, allocation, top + 1, |MissingNames(id, spec, s)|));
  }

  lemma StandingMore(id: JobId, spec: Spec, s: Store, t: Store, top: nat, n: nat)
    requires Standing(id, spec, s) && StoreInv(id, t) && CreatedAbove(id, spec.tasks, s, t, top, n)
    ensures Standing(id, spec, t)
  {
    AcceptableDistinct(spec.tasks);
    hide SpecNames, InRange, RankOf, Acceptable, DistinctRanks, Built, LabelledPod;
    forall m | m in t ensures IsPodLive(t[m]) && InRange(spec.tasks, t[m]) {
      if m !in s {
        SpecNameInRange(id, spec.tasks, t[m]);
      }
    }
  }

  lemma CreatedFailed(id: JobId, spec: Spec, s: Store, t: Store, top: nat, n: nat)
    requires CreatedAbove(id, spec.tasks, s, t, top, n)
    ensures FailedNames(spec, t) == FailedNames(spec, s)
  {
    hide SpecNames, RankOf, LabelledPod;
  }

  lemma FewerMissing(wanted: set<string>, a: set<string>, b: set<string>)
    requires a <= b <= a + wanted
    ensures |wanted - b| == |wanted - a| - (|b| - |a|)
  {
    assert b == a + (b - a);
    assert wanted - a == (wanted - b) + (b - a);
  }

  /** Each created pod was missing. */
  lemma CreatedMissing(id: JobId, spec: Spec, s: Store, t: Store, top: nat, n: nat)
    requires CreatedAbove(id, spec.tasks, s, t, top, n)
    ensures s.Keys <= t.Keys <= s.Keys + SpecNames(id, spec.tasks)
    ensures |MissingNames(id, spec, t)| == |MissingNames(id, spec, s)| - n
    ensures n == 0 ==> t == s
  {
    CreatedKeys(id, spec, s, t, top, n);
    hide CreatedAbove, SpecNames;
    FewerMissing(SpecNames(id, spec.tasks), s.Keys, t.Keys);
  }

  lemma CreatedKeys(id: JobId, spec: Spec, s: Store, t: Store, top: nat, n: nat)
    requires CreatedAbove(id, spec.tasks, s, t, top, n)
    ensures s.Keys <= t.Keys <= s.Keys + SpecNames(id, spec.tasks)
    ensures |t.Keys| == |s.Keys| + n
    ensures n == 0 ==> t == s
  {
    hide RankOf, SpecNames, LabelledPod;
    assert |t| == |t.Keys| && |s| == |s.Keys|;
    if n == 0 {
      var more := t.Keys - s.Keys;
      assert t.Keys == s.Keys + more;
      assert |more| == 0;
    }
  }

  lemma CreatedTop(id: JobId, spec: Spec, s: Store, t: Store, n: nat)
    requires StoreInv(id, s) && StoreInv(id, t) && CreatedAbove(id, spec.tasks, s, t, Top(s), n)
    ensures Top(t) == Top(s) + n
  {
    hide RankOf, SpecNames, Built, LabelledPod;
    SomeTop(id, s);
    var top := Top(s);
    if n == 0 {
      CreatedMissing(id, spec, s, t, top, n);
    } else {
      var m :| m in t && m !in s && RankOf(t[m]) == top + n;
      assert IsPodLive(t[m]);
      assert IsTop(t, top + n);
      TopIs(id, t, top + n);
    }
  }

  /** deleteFailedReplicas removes exactly the failed pods. */
  lemma FailedRound(id: JobId, spec: Spec, list: seq<Pod>, s: Store)
    requires Standing(id, spec, s) && IsListing(list, s)
    ensures DeleteList(s, FailedPods(LivePods(list), spec.preemptible), NO_FAULTS) ==
      Done(s - FailedNames(spec, s), true)
    ensures FailedPods(LivePods(list), spec.preemptible) == [] <==> FailedNames(spec, s) == {}
  {
    assert NO_FAULTS.delete == map[];
    hide *;
    var failed := FailedPods(LivePods(list), spec.preemptible);
    StandingListed(id, spec, list, s);
    FailedListed(spec, LivePods(list), s);
    DeleteListExact(s, failed, NO_FAULTS);
  }

  lemma FailedListed(spec: Spec, pods: seq<Pod>, s: Store)
    requires IsListing(pods, s)
    ensures Names(FailedPods(pods, spec.preemptible)) == FailedNames(spec, s)
    ensures FailedPods(pods, spec.preemptible) == [] <==> FailedNames(spec, s) == {}
  {
    hide IsPodFailed;
    var failed := FailedPods(pods, spec.preemptible);
    forall n | n in FailedNames(spec, s) ensures n in Names(failed) {
      assert s[n] in pods && s[n].meta.name == n;
      assert s[n] in failed;
    }
    if failed != [] {
      assert failed[0] in failed && failed[0].meta.name in Names(failed);
    }
  }

  /** deleteRedundantReplicas. */
  lemma RedundantRound(id: JobId, spec: Spec, list: seq<Pod>, s: Store)
    requires Standing(id, spec, s) && IsListing(list, s)
    ensures var gone := Redundant(LivePods(list), Quotas(spec.tasks));
      var d := DeleteList(s, gone, NO_FAULTS);
      && d == Done(s - Names(gone), true) && Standing(id, spec, d.store)
      && |d.store| <= Total(spec.tasks)
      && (|d.store| == Total(spec.tasks) <==> EnoughOfEachType(LivePods(list), spec.tasks, 0))
  {
    var gone := Redundant(LivePods(list), Quotas(spec.tasks));
    StandingWithout(id, spec, s, Names(gone));
    hide Standing, Redundant, EnoughOfEachType, LivePods, IsListing;
    StandingFacts(id, spec, s - Names(gone));
    RedundantDeleted(spec.tasks, list, s, NO_FAULTS);
  }

  /** One undisturbed reconcile in Restarting, case by case. */
  lemma {:induction false} RestartOutcome(id: JobId, spec: Spec, st: Status, list: seq<Pod>, s: Store)
    requires Standing(id, spec, s) && IsListing(list, s) && st.phase == Restarting
    ensures var o := ReconcilePhase(id, spec, st, list, s, NO_FAULTS);
      var missing, failed := |MissingNames(id, spec, s)|, FailedNames(spec, s);
      var n := Fitting(spec, st.allocation, Top(s) + 1, missing);
      && Standing(id, spec, o.store)
      && (|s| < Total(spec.tasks) ==>
            && o.status.phase == Restarting && o.err == (if n < missing then Panic else NoError)
            && CreatedAbove(id, spec.tasks, s, o.store, Top(s), n))
      && (|s| > Total(spec.tasks) ==>
            && o.status.phase == Restarting && o.err == NoError
            && o.store == s - Names(Redundant(LivePods(list), Quotas(spec.tasks)))
            && |o.store| <= Total(spec.tasks)
            && (|o.store| == Total(spec.tasks) <==> EnoughOfEachType(LivePods(list), spec.tasks, 0)))
      && (|s| == Total(spec.tasks) ==>
            && o.err == NoError && o.store == s - failed
            && o.status.phase == (if failed == {} then Starting else Restarting))
  {
    hide *;
    StandingFacts(id, spec, s);
    StandingListed(id, spec, list, s);
    RestartSteps(id, spec, st, list, s);
    if |s| < Total(spec.tasks) {
      CreateRound(id, spec, st.allocation, list, s);
    } else if |s| > Total(spec.tasks) {
      RedundantRound(id, spec, list, s);
    } else {
      FailedRound(id, spec, list, s);
      StandingWithout(id, spec, s, FailedNames(spec, s));
      assert s - {} == s;
    }
  }

  lemma {:induction false} RestartSteps(id: JobId, spec: Spec, st: Status, list: seq<Pod>, s: Store)
    requires st.phase == Restarting
    ensures var o := ReconcilePhase(id, spec, st, list, s, NO_FAULTS);
      var pods, n := LivePods(list), Total(spec.tasks);
      var created := CreateMissed(id, spec, pods, st.allocation, s, NO_FAULTS);
      var spared := DeleteList(s, Redundant(pods, Quotas(spec.tasks)), NO_FAULTS);
      var healthy := DeleteList(s, FailedPods(pods, spec.preemptible), NO_FAULTS);
      && (|pods| < n ==> o.store == created.store && o.err == created.err && o.status.phase == Restarting)
      && (|pods| > n && spared.ok ==> o.store == spared.store && o.err == NoError && o.status.phase == Restarting)
      && (|pods| == n && FailedPods(pods, spec.preemptible) == [] ==>
            o.store == s && o.err == NoError && o.status.phase == Starting)
      && (|pods| == n && FailedPods(pods, spec.preemptible) != [] && healthy.ok ==>
            o.store == healthy.store && o.err == NoError && o.status.phase == Restarting)
  {
    hide CreateMissed, DeleteList, Redundant, Quotas, FailedPods, UpdateReplicas, Enter, LivePods;
    UpdateReplicasFrame(spec, st, list);
    EnterLawful(UpdateReplicas(spec, st, list), Starting);
  }

  // ---- Rescheduling

  lemma {:induction false} DeleteTerminating(id: JobId, list: seq<Pod>, s: Store)
    requires IsListing(list, s)
    ensures DeleteEach(s, TerminatingPods(list), NO_FAULTS) == Live(s)
  {
    var gone := TerminatingPods(list);
    DeleteListExact(s, gone, NO_FAULTS);
    forall n | n in s ensures n in Names(gone) <==> IsPodTerminating(s[n]) {
      assert s[n] in list && s[n].meta.name == n;
      if n in Names(gone) {
        var p :| p in gone && p.meta.name == n;
        assert s[p.meta.name] == p;
      }
    }
    assert s - Names(gone) == Live(s);
  }

  /** The listing of the live pods is also a listing of the cleared store. */
  lemma ClearedListing(id: JobId, list: seq<Pod>, s: Store)
    requires StoreInv(id, s) && IsListing(list, s)
    ensures IsListing(LivePods(list), Live(s)) && LivePods(LivePods(list)) == LivePods(list)
    ensures StoreInv(id, Live(s)) && forall n | n in Live(s) :: IsPodLive(Live(s)[n])
  {
    LiveListing(list, s);
    LiveTwice(list);
  }

  lemma {:induction false} LiveTwice(list: seq<Pod>)
    ensures LivePods(LivePods(list)) == LivePods(list)
  {
    if list != [] {
      LiveTwice(list[1..]);
      var rest := LivePods(list[1..]);
      assert LivePods(list) == (if IsPodLive(list[0]) then [list[0]] else []) + rest;
      if IsPodLive(list[0]) {
        assert LivePods([list[0]] + rest) == [list[0]] + LivePods(rest);
      } else {
        assert LivePods(list) == rest;
      }
    }
  }

  /** One undisturbed reconcile in Rescheduling of a job that is not preemptible. */
  lemma {:induction false} RescheduleOutcome(id: JobId, spec: Spec, st: Status, list: seq<Pod>, s: Store)
    requires !spec.preemptible && StoreInv(id, s) && Standing(id, spec, Live(s))
    requires IsListing(list, s) && st.phase == Rescheduling
    ensures var o, l, n := ReconcilePhase(id, spec, st, list, s, NO_FAULTS), Live(s), Total(spec.tasks);
      && o.err == NoError && StoreInv(id, o.store) && Standing(id, spec, Live(o.store))
      && o.status.phase == (if |l| != n then Rescheduling else if n == 0 then Pending else Starting)
      && (|l| < n ==>
            Live(o.store) == o.store && CreatedAbove(id, spec.tasks, l, o.store, Top(l), |MissingNames(id, spec, l)|))
      && (|l| > n ==>
            && Live(o.store) == l - Names(Redundant(LivePods(list), Quotas(spec.tasks)))
            && |Live(o.store)| <= n
            && (|Live(o.store)| == n <==> EnoughOfEachType(LivePods(list), spec.tasks, 0)))
      && (|l| == n ==> o.store == s)
  {
    hide *;
    LiveListing(list, s);
    ReconcileKeepsInv(id, spec, st, list, s, NO_FAULTS);
    RescheduleSteps(id, spec, st, list, s);
    if |Live(s)| > Total(spec.tasks) {
      RescheduleTrims(id, spec, list, s);
    } else if |Live(s)| < Total(spec.tasks) {
      RescheduleFills(id, spec, st.allocation, list, s);
    }
  }

  lemma RescheduleTrims(id: JobId, spec: Spec, list: seq<Pod>, s: Store)
    requires Standing(id, spec, Live(s)) && IsListing(list, s)
    ensures var gone := Redundant(LivePods(list), Quotas(spec.tasks));
      var d := DeleteList(s, gone, NO_FAULTS);
      && d.ok && Live(d.store) == Live(s) - Names(gone) && Standing(id, spec, Live(d.store))
      && |Live(d.store)| <= Total(spec.tasks)
      && (|Live(d.store)| == Total(spec.tasks) <==> EnoughOfEachType(LivePods(list), spec.tasks, 0))
  {
    assert NO_FAULTS.delete == map[];
    hide *;
    var gone := Names(Redundant(LivePods(list), Quotas(spec.tasks)));
    RedundantDeleted(spec.tasks, list, s, NO_FAULTS);
    LiveMinus(s, gone);
    StandingWithout(id, spec, Live(s), gone);
  }

  lemma RescheduleFills(id: JobId, spec: Spec, allocation: seq<string>, list: seq<Pod>, s: Store)
    requires !spec.preemptible && StoreInv(id, s) && Standing(id, spec, Live(s)) && IsListing(list, s)
    ensures var cleared := DeleteEach(s, TerminatingPods(list), NO_FAULTS);
      var r := CreateMissed(id, spec, LivePods(list), allocation, cleared, NO_FAULTS);
      && r.err == NoError && Live(r.store) == r.store && Standing(id, spec, r.store)
      && CreatedAbove(id, spec.tasks, Live(s), r.store, Top(Live(s)), |MissingNames(id, spec, Live(s))|)
  {
    hide *;
    ClearedListing(id, list, s);
    DeleteTerminating(id, list, s);
    CreateRound(id, spec, allocation, LivePods(list), Live(s));
    StandingFacts(id, spec, CreateMissed(id, spec, LivePods(list), allocation, Live(s), NO_FAULTS).store);
    AlwaysFits(spec, allocation, Top(Live(s)) + 1, |MissingNames(id, spec, Live(s))|);
  }

  lemma AlwaysFits(spec: Spec, allocation: seq<string>, rank: nat, n: nat)
    requires !spec.preemptible
    ensures Fitting(spec, allocation, rank, n) == n
  {
  }

  lemma LiveMinus(s: Store, names: set<string>)
    ensures Live(s - names) == Live(s) - names
  {
  }

  lemma {:induction false} RescheduleSteps(id: JobId, spec: Spec, st: Status, list: seq<Pod>, s: Store)
    requires !spec.preemptible && st.phase == Rescheduling
    ensures var o, pods, n := ReconcilePhase(id, spec, st, list, s, NO_FAULTS), LivePods(list), Total(spec.tasks);
      var cleared := DeleteEach(s, TerminatingPods(list), NO_FAULTS);
      var created := CreateMissed(id, spec, pods, st.allocation, cleared, NO_FAULTS);
      var spared := DeleteList(s, Redundant(pods, Quotas(spec.tasks)), NO_FAULTS);
      && o.status.phase == (if |pods| != n then Rescheduling else if n == 0 then Pending else Starting)
      && (|pods| < n ==> o.store == created.store && o.err == created.err)
      && (|pods| > n && spared.ok ==> o.store == spared.store && o.err == NoError)
      && (|pods| == n ==> o.store == s && o.err == NoError)
  {
    hide CreateMissed, DeleteList, DeleteEach, Redundant, Quotas, UpdateReplicas, Enter, LivePods, TerminatingPods;
    UpdateReplicasFrame(spec, st, list);
    EnterLawful(UpdateReplicas(spec, st, list), Starting);
    EnterLawful(UpdateReplicas(spec, st, list), Pending);
  }

  // ---- worlds

  /** The environment leaves pods in place and no new pod fails. */
  ghost predicate Calm(spec: Spec, s: Store, t: Store) {
    && t.Keys == s.Keys
    && forall n | n in t ::
         && t[n].meta == s[n].meta
         && IsPodTerminating(t[n]) == IsPodTerminating(s[n])
         && (IsPodFailed(t[n], spec.preemptible) ==> IsPodFailed(s[n], spec.preemptible))
  }

  lemma CalmSame(spec: Spec, s: Store)
    ensures Calm(spec, s, s)
  {
  }

  lemma CalmInv(id: JobId, spec: Spec, s: Store, t: Store)
    requires Calm(spec, s, t) && StoreInv(id, s)
    ensures StoreInv(id, t)
  {
  }

  lemma CalmLive(spec: Spec, s: Store, t: Store)
    requires Calm(spec, s, t)
    ensures Live(t).Keys == Live(s).Keys && |Live(t)| == |Live(s)| && |t| == |s|
  {
    assert Live(t).Keys == Live(s).Keys;
    assert |Live(t)| == |Live(t).Keys| && |Live(s)| == |Live(s).Keys|;
    assert |t| == |t.Keys| && |s| == |s.Keys|;
  }

  lemma CalmTop(id: JobId, spec: Spec, s: Store, t: Store)
    requires StoreInv(id, s) && StoreInv(id, t) && Calm(spec, s, t)
    ensures Top(t) == Top(s)
  {
    hide Built, DistinctRanks, IsPodFailed;
    SomeTop(id, s);
    var top := Top(s);
    if top != 0 {
      var n :| n in s && IsPodLive(s[n]) && RankOf(s[n]) == top;
      assert IsPodLive(t[n]) && RankOf(t[n]) == top;
    }
    TopIs(id, t, top);
  }

  lemma CalmStanding(id: JobId, spec: Spec, s: Store, t: Store)
    requires Standing(id, spec, s) && Calm(spec, s, t)
    ensures Standing(id, spec, t)
    ensures MissingNames(id, spec, t) == MissingNames(id, spec, s)
    ensures FailedNames(spec, t) <= FailedNames(spec, s)
    ensures Top(t) == Top(s)
  {
    CalmInv(id, spec, s, t);
    CalmTop(id, spec, s, t);
    hide SpecNames, Acceptable, StoreInv, Top;
  }

  ghost function Undisturbed(id: JobId, w: World, list: seq<Pod>): World {
    Reconcile(id, w, list, NO_FAULTS, true, ALL_WRITES)
  }

  /** The names are already defaulted. */
  ghost predicate Defaulted(spec: Spec) { DefaultNames(spec.tasks) == spec.tasks }

  /** A reconcile of an acceptable job that is not finished, all writes going through. */
  lemma {:induction false} WrittenOutcome(id: JobId, w: World, list: seq<Pod>, f: Faults)
    requires Defaulted(w.spec) && Acceptable(w.spec.tasks) && !IsTerminal(w.status.phase)
    ensures var o := ReconcilePhase(id, w.spec, w.status, list, w.store, f);
      var n := Reconcile(id, w, list, f, true, ALL_WRITES);
      && n.store == o.store && n.spec == w.spec && n.status.phase == o.status.phase
      && n.status.allocation == w.status.allocation
      && (o.status.phase != Restarting ==> n.status.restarts == w.status.restarts)
  {
    hide ReconcilePhase, Acceptable;
    var o := ReconcilePhase(id, w.spec, w.status, list, w.store, f);
    ReconcileLawful(id, w.spec, w.status, list, w.store, f);
    var saved := SaveReplicas(SavePhase(w.status, o.status, true), o.status, true);
    HandleEffect(w.status.phase, saved);
    assert LocalSpec(w.spec, ALL_WRITES) == w.spec;
  }

  lemma {:induction false} UndisturbedOutcome(id: JobId, w: World, list: seq<Pod>)
    requires Defaulted(w.spec) && Acceptable(w.spec.tasks) && !IsTerminal(w.status.phase)
    ensures var o := ReconcilePhase(id, w.spec, w.status, list, w.store, NO_FAULTS);
      var n := Undisturbed(id, w, list);
      && n.store == o.store && n.spec == w.spec
      && n.status.phase == o.status.phase && n.status.allocation == w.status.allocation
  {
    hide ReconcilePhase, Acceptable, Defaulted, Reconcile;
    WrittenOutcome(id, w, list, NO_FAULTS);
  }

  /** Undisturbed reconciles, with any listings, and between them pods that change
      status but neither vanish nor newly fail. */
  ghost predicate CalmRun(id: JobId, ws: seq<World>, lists: seq<seq<Pod>>) {
    && |ws| == |lists| + 1
    && (forall i | 0 <= i < |lists| :: IsListing(lists[i], ws[i].store))
    && forall i | 0 <= i < |lists| :: CalmNext(id, ws[i], lists[i], ws[i + 1])
  }

  ghost predicate CalmNext(id: JobId, w: World, list: seq<Pod>, next: World) {
    var n := Undisturbed(id, w, list);
    next == n.(store := next.store) && Calm(n.spec, n.store, next.store)
  }

  /** Some reconcile of the run reaches the phase. */
  ghost predicate Reaches(id: JobId, ws: seq<World>, lists: seq<seq<Pod>>, phase: Phase)
    requires |ws| == |lists| + 1
  {
    exists i | 0 <= i < |lists| :: Undisturbed(id, ws[i], lists[i]).status.phase == phase
  }

  lemma ReachesFirst(id: JobId, ws: seq<World>, lists: seq<seq<Pod>>, phase: Phase)
    requires |ws| == |lists| + 1 && lists != [] && Undisturbed(id, ws[0], lists[0]).status.phase == phase
    ensures Reaches(id, ws, lists, phase)
  {
    hide Undisturbed;
  }

  lemma {:induction false} ReachesLater(id: JobId, ws: seq<World>, lists: seq<seq<Pod>>, phase: Phase)
    requires |ws| == |lists| + 1 && lists != [] && Reaches(id, ws[1..], lists[1..], phase)
    ensures Reaches(id, ws, lists, phase)
  {
    hide Undisturbed;
    var i :| 0 <= i < |lists[1..]| && Undisturbed(id, ws[1..][i], lists[1..][i]).status.phase == phase;
    assert Undisturbed(id, ws[i + 1], lists[i + 1]).status.phase == phase;
  }

  lemma {:induction false} CalmRest(id: JobId, ws: seq<World>, lists: seq<seq<Pod>>)
    requires CalmRun(id, ws, lists) && lists != []
    ensures CalmRun(id, ws[1..], lists[1..])
  {
    hide CalmNext, IsListing;
    var xs, ls := ws[1..], lists[1..];
    forall i | 0 <= i < |ls| ensures IsListing(ls[i], xs[i].store) && CalmNext(id, xs[i], ls[i], xs[i + 1]) {
      assert ls[i] == lists[i + 1] && xs[i] == ws[i + 1] && xs[i + 1] == ws[i + 2];
    }
  }
}
