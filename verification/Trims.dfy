/** Filling and trimming in the cluster: createMissedReplicas and
    deleteRedundantReplicas as steps of typings, and listings for every choice. */
module Trims {
  import opened Api
  import opened Util
  import opened Pods
  import opened Cluster
  import opened Replicas
  import opened Validator
  import opened Uniqueness
  import opened Missed
  import opened Redundancy
  import opened Rounds
  import opened Typings

  ghost function TypingOf(s: Store): Typing {
    map n | n in s :: s[n].meta.taskType
  }

  lemma TypingSize(s: Store)
    ensures TypingOf(s).Keys == s.Keys && |TypingOf(s)| == |s|
  {
    assert |TypingOf(s)| == |TypingOf(s).Keys| && |s| == |s.Keys|;
  }

  lemma TypingMinus(s: Store, names: set<string>)
    ensures TypingOf(s - names) == TypingOf(s) - names
  {
  }

  // ---- what the spec asks for

  ghost function SlotType(id: JobId, tasks: seq<Task>, n: string): string {
    if s :| s in Slots(tasks) && s.task < |tasks| && SlotName(id, tasks, s) == n then tasks[s.task].taskType else ""
  }

  ghost function SlotTypes(id: JobId, tasks: seq<Task>): Typing {
    map n | n in SpecNames(id, tasks) :: SlotType(id, tasks, n)
  }

  lemma SlotTypeIs(id: JobId, tasks: seq<Task>, c: Slot)
    requires DistinctNames(tasks) && InSpec(tasks, c)
    ensures SlotName(id, tasks, c) in SlotTypes(id, tasks)
    ensures SlotTypes(id, tasks)[SlotName(id, tasks, c)] == tasks[c.task].taskType
  {
    hide SlotName;
    SpecNamesIff(id, tasks, c);
    SlotsBijection(tasks);
    assert c in Slots(tasks) by {
      assert c == Slots(tasks)[Position(tasks, c)];
    }
    forall s | s in Slots(tasks) && s.task < |tasks| && SlotName(id, tasks, s) == SlotName(id, tasks, c)
      ensures s == c
    {
      SlotNameInjective(id, tasks, s, c);
    }
  }

  lemma SlotTypesSize(id: JobId, tasks: seq<Task>)
    requires DistinctNames(tasks)
    ensures SlotTypes(id, tasks).Keys == SpecNames(id, tasks) && |SlotTypes(id, tasks)| == Total(tasks)
  {
    SpecNamesSize(id, tasks);
    hide SpecNames, SlotType;
    assert |SlotTypes(id, tasks)| == |SlotTypes(id, tasks).Keys|;
  }

  ghost function TaskSlotNames(id: JobId, tasks: seq<Task>, k: nat, r: nat): set<string>
    requires k < |tasks|
  {
    set j: nat | j < r :: SlotName(id, tasks, Slot(k, j))
  }

  lemma {:induction false} TaskSlotsSize(id: JobId, tasks: seq<Task>, k: nat, r: nat)
    requires k < |tasks| && DistinctNames(tasks)
    ensures |TaskSlotNames(id, tasks, k, r)| == r
  {
    hide SlotName;
    if r > 0 {
      var last := SlotName(id, tasks, Slot(k, r - 1));
      TaskSlotsSize(id, tasks, k, r - 1);
      assert TaskSlotNames(id, tasks, k, r) == TaskSlotNames(id, tasks, k, r - 1) + {last};
      if last in TaskSlotNames(id, tasks, k, r - 1) {
        var j: nat :| j < r - 1 && SlotName(id, tasks, Slot(k, j)) == last;
        SlotNameInjective(id, tasks, Slot(k, j), Slot(k, r - 1));
      }
    } else {
      assert TaskSlotNames(id, tasks, k, r) == {};
    }
  }

  lemma SlotsAskFor(id: JobId, tasks: seq<Task>)
    requires DistinctNames(tasks)
    ensures AsksFor(tasks, SlotTypes(id, tasks))
  {
    var w := SlotTypes(id, tasks);
    hide SlotName, SlotTypes;
    forall k | 0 <= k < |tasks| ensures Count(w, tasks[k].taskType) >= tasks[k].replicas {
      var names := TaskSlotNames(id, tasks, k, tasks[k].replicas);
      forall n | n in names ensures n in Typed(w, tasks[k].taskType) {
        var j: nat :| j < tasks[k].replicas && SlotName(id, tasks, Slot(k, j)) == n;
        SlotTypeIs(id, tasks, Slot(k, j));
      }
      TaskSlotsSize(id, tasks, k, tasks[k].replicas);
      SubsetSize(names, Typed(w, tasks[k].taskType));
    }
  }

  // ---- filling

  lemma FillTyping(id: JobId, spec: Spec, s: Store, t: Store)
    requires Standing(id, spec, s) && StoreInv(id, t)
    requires CreatedAbove(id, spec.tasks, s, t, Top(s), |MissingNames(id, spec, s)|)
    ensures TypingOf(t) == SlotTypes(id, spec.tasks) + TypingOf(s)
    ensures FailedNames(spec, t) == FailedNames(spec, s)
  {
    hide *;
    StandingFacts(id, spec, s);
    CreatedMissing(id, spec, s, t, Top(s), |MissingNames(id, spec, s)|);
    CreatedFailed(id, spec, s, t, Top(s), |MissingNames(id, spec, s)|);
    CreatedTypes(id, spec, s, t, Top(s), |MissingNames(id, spec, s)|);
    NothingMissing(id, spec, t);
    SlotTypesSize(id, spec.tasks);
    FillMaps(SlotTypes(id, spec.tasks), s, t);
  }

  lemma NothingMissing(id: JobId, spec: Spec, t: Store)
    requires |MissingNames(id, spec, t)| == 0
    ensures SpecNames(id, spec.tasks) <= t.Keys
  {
    hide SpecNames;
    assert MissingNames(id, spec, t) == {};
    forall n | n in SpecNames(id, spec.tasks) ensures n in t.Keys {
      assert n !in MissingNames(id, spec, t);
    }
  }

  lemma FillMaps(w: Typing, s: Store, t: Store)
    requires t.Keys == s.Keys + w.Keys
    requires forall m | m in s :: m in t && t[m] == s[m]
    requires forall m | m in t && m !in s :: m in w && t[m].meta.taskType == w[m]
    ensures TypingOf(t) == w + TypingOf(s)
  {
  }

  lemma CreatedTypes(id: JobId, spec: Spec, s: Store, t: Store, top: nat, n: nat)
    requires DistinctNames(spec.tasks) && StoreInv(id, t) && CreatedAbove(id, spec.tasks, s, t, top, n)
    ensures forall m | m in s :: m in t && t[m] == s[m]
    ensures forall m | m in t && m !in s ::
      m in SlotTypes(id, spec.tasks) && t[m].meta.taskType == SlotTypes(id, spec.tasks)[m]
  {
    hide SlotName, SlotTypes, SpecNames, DistinctRanks, RankOf, Built;
    var tasks := spec.tasks;
    forall m | m in t && m !in s
      ensures m in SlotTypes(id, tasks) && t[m].meta.taskType == SlotTypes(id, tasks)[m]
    {
      var c := SlotOf(id, tasks, m);
      OccupiesIff(id, tasks, t[m], c);
      SlotTypeIs(id, tasks, c);
      assert tasks[c.task].name == t[m].meta.taskName;
    }
  }

  lemma SlotOf(id: JobId, tasks: seq<Task>, n: string) returns (c: Slot)
    requires n in SpecNames(id, tasks)
    ensures InSpec(tasks, c) && SlotName(id, tasks, c) == n
  {
    hide SlotName;
    SlotsInSpec(tasks);
    c :| c in Slots(tasks) && c.task < |tasks| && SlotName(id, tasks, c) == n;
  }

  // ---- trimming

  ghost function TypedNames(pods: seq<Pod>, t: string): set<string> {
    set p | p in pods && p.meta.taskType == t :: p.meta.name
  }

  lemma TypedNamesCons(p: Pod, rest: seq<Pod>, t: string)
    ensures TypedNames([p] + rest, t) == TypedNames(rest, t) + if p.meta.taskType == t then {p.meta.name} else {}
  {
  }

  lemma DistinctTail(pods: seq<Pod>, t: string)
    requires DistinctPodNames(pods) && pods != []
    ensures DistinctPodNames(pods[1..]) && pods == [pods[0]] + pods[1..]
    ensures pods[0].meta.name !in TypedNames(pods[1..], t)
  {
    DistinctHead(pods);
  }

  lemma TypeCountStep(pods: seq<Pod>, t: string)
    ensures TypeCount(pods, t) ==
      if pods == [] then 0 else (if pods[0].meta.taskType == t then 1 else 0) + TypeCount(pods[1..], t)
    ensures TypedNames([], t) == {}
  {
  }

  lemma {:induction false} TypeCountNames(pods: seq<Pod>, t: string)
    requires DistinctPodNames(pods)
    ensures TypeCount(pods, t) == |TypedNames(pods, t)|
  {
    hide *;
    TypeCountStep(pods, t);
    if pods != [] {
      DistinctTail(pods, t);
      TypeCountNames(pods[1..], t);
      TypedNamesCons(pods[0], pods[1..], t);
    }
  }

  /** The pods of a listing by type are the pods of the store by type. */
  lemma ListedCount(pods: seq<Pod>, s: Store, t: string)
    requires IsListing(pods, s)
    ensures TypeCount(pods, t) == Count(TypingOf(s), t)
  {
    TypeCountNames(pods, t);
    hide TypeCount;
    assert TypedNames(pods, t) == Typed(TypingOf(s), t) by {
      forall n | n in Typed(TypingOf(s), t) ensures n in TypedNames(pods, t) {
        assert s[n] in pods && s[n].meta.name == n;
      }
    }
  }

  lemma EnoughListed(tasks: seq<Task>, pods: seq<Pod>, s: Store)
    requires IsListing(pods, s)
    ensures EnoughOfEachType(pods, tasks, 0) <==> Enough(tasks, TypingOf(s))
  {
    hide TypeCount, Count, Occurs, IsListing, TypingOf;
    forall t ensures TypeCount(pods, t) == Count(TypingOf(s), t) {
      ListedCount(pods, s, t);
    }
  }

  /** The pods a are kept, the pods b are deleted. */
  ghost predicate Divided(pods: seq<Pod>, a: seq<Pod>, b: seq<Pod>) {
    && DistinctPodNames(a)
    && (forall p | p in b :: p in pods)
    && forall p :: p in a <==> p in pods && p.meta.name !in Names(b)
  }

  lemma KeptCons(p: Pod, rest: seq<Pod>, a: seq<Pod>, b: seq<Pod>)
    requires Divided(rest, a, b) && forall r | r in rest :: r.meta.name != p.meta.name
    ensures Divided([p] + rest, [p] + a, b)
  {
    assert forall i | 0 <= i < |a| :: a[i] in a;
  }

  lemma GoneCons(p: Pod, rest: seq<Pod>, a: seq<Pod>, b: seq<Pod>)
    requires Divided(rest, a, b) && forall r | r in rest :: r.meta.name != p.meta.name
    ensures Divided([p] + rest, a, [p] + b)
  {
    assert Names([p] + b) == {p.meta.name} + Names(b);
  }

  lemma NoneDivided()
    ensures Divided([], [], [])
  {
  }

  lemma DistinctHead(pods: seq<Pod>)
    requires DistinctPodNames(pods) && pods != []
    ensures DistinctPodNames(pods[1..]) && pods == [pods[0]] + pods[1..]
    ensures forall p | p in pods[1..] :: p.meta.name != pods[0].meta.name
  {
    forall p | p in pods[1..] ensures p.meta.name != pods[0].meta.name {
      var j :| 0 <= j < |pods[1..]| && pods[1..][j] == p;
      assert pods[j + 1] == p;
    }
  }

  lemma {:induction false} SparedMembers(pods: seq<Pod>, q: map<string, nat>)
    requires DistinctPodNames(pods)
    ensures Divided(pods, Spared(pods, q), Redundant(pods, q))
  {
    hide *;
    if pods != [] {
      var p, rest, q' := pods[0], pods[1..], NextQuota(q, pods[0].meta.taskType);
      DistinctHead(pods);
      SpareStep(pods, q);
      SparedMembers(rest, q');
      KeptCons(p, rest, Spared(rest, q'), Redundant(rest, q'));
      GoneCons(p, rest, Spared(rest, q'), Redundant(rest, q'));
    } else {
      SpareNone(q);
      NoneDivided();
    }
  }

  lemma SparedListing(pods: seq<Pod>, s: Store, q: map<string, nat>)
    requires IsListing(pods, s)
    ensures IsListing(Spared(pods, q), s - Names(Redundant(pods, q)))
  {
    ListedDistinct(pods, s);
    SparedMembers(pods, q);
    hide Spared, Redundant;
    DividedListing(pods, s, Spared(pods, q), Redundant(pods, q));
  }

  lemma ListedDistinct(pods: seq<Pod>, s: Store)
    requires IsListing(pods, s)
    ensures DistinctPodNames(pods)
  {
  }

  lemma DividedListing(pods: seq<Pod>, s: Store, a: seq<Pod>, b: seq<Pod>)
    requires IsListing(pods, s) && Divided(pods, a, b)
    ensures IsListing(a, s - Names(b))
  {
    hide Names;
    var t := s - Names(b);
    forall n | n in t ensures t[n] in a {
      assert s[n] in pods && s[n].meta.name == n;
    }
    forall p | p in a ensures p.meta.name in t && t[p.meta.name] == p {
      assert p in pods;
    }
  }

  lemma TrimTyping(tasks: seq<Task>, pods: seq<Pod>, s: Store)
    requires IsListing(pods, s)
    ensures IsTrim(tasks, TypingOf(s), TypingOf(s - Names(Redundant(pods, Quotas(tasks)))))
  {
    var q := Quotas(tasks);
    var t := s - Names(Redundant(pods, q));
    SparedListing(pods, s, q);
    TypingMinus(s, Names(Redundant(pods, q)));
    hide Spared, Redundant, Quotas, IsListing, TypingOf, Count;
    forall u ensures Count(TypingOf(t), u) == Min(Count(TypingOf(s), u), QuotaOf(tasks, u)) {
      ListedCount(pods, s, u);
      ListedCount(Spared(pods, q), t, u);
      SparedOfType(pods, q, u);
    }
  }

  // ---- listings for every choice

  lemma ListingConcat(a: seq<Pod>, s: Store, b: seq<Pod>, t: Store)
    requires IsListing(a, s) && IsListing(b, t) && s.Keys !! t.Keys
    ensures IsListing(a + b, s + t)
  {
    var l := a + b;
    forall i, j | 0 <= i < j < |l| ensures l[i].meta.name != l[j].meta.name {
      if i < |a| <= j {
        assert l[i] == a[i] && a[i] in a && l[j] == b[j - |a|] && b[j - |a|] in b;
      }
    }
  }

  lemma {:induction false} FilterConcat(a: seq<Pod>, b: seq<Pod>, keep: Pod -> bool)
    ensures FilterPods(a + b, keep) == FilterPods(a, keep) + FilterPods(b, keep)
  {
    if a == [] {
      assert [] + b == b && [] + FilterPods(b, keep) == FilterPods(b, keep);
    } else {
      assert (a + b)[0] == a[0] && (a + b)[1..] == a[1..] + b;
      FilterConcat(a[1..], b, keep);
    }
  }

  lemma {:induction false} FilterAll(a: seq<Pod>, keep: Pod -> bool)
    requires forall p | p in a :: keep(p)
    ensures FilterPods(a, keep) == a
  {
    if a != [] {
      FilterAll(a[1..], keep);
      assert a == [a[0]] + a[1..];
    }
  }

  lemma {:induction false} TypeCountConcat(a: seq<Pod>, b: seq<Pod>, t: string)
    ensures TypeCount(a + b, t) == TypeCount(a, t) + TypeCount(b, t)
  {
    if a == [] {
      assert [] + b == b;
    } else {
      assert (a + b)[0] == a[0] && (a + b)[1..] == a[1..] + b;
      TypeCountConcat(a[1..], b, t);
    }
  }

  /** Pods within the quotas that are listed first are kept. */
  lemma FrontSpared(front: seq<Pod>, rest: seq<Pod>, q: map<string, nat>, p: Pod)
    requires DistinctPodNames(front + rest) && p in front
    requires forall t :: TypeCount(front, t) <= Quota(q, t)
    ensures p.meta.name !in Names(Redundant(front + rest, q))
  {
    hide TypeCount, Quota;
    var pods := front + rest;
    var j :| 0 <= j < |front| && front[j] == p;
    var t := p.meta.taskType;
    assert pods[..j] == front[..j] && pods[j] == p;
    assert front == front[..j] + ([p] + front[j + 1..]);
    TypeCountConcat(front[..j], [p] + front[j + 1..], t);
    OneMore(p, front[j + 1..]);
    assert forall r | r in Redundant(pods, q) :: r in pods;
    RedundantIff(pods, q, j);
    hide Redundant;
    forall r | r in Redundant(pods, q) ensures r.meta.name != p.meta.name {
      var i :| 0 <= i < |pods| && pods[i] == r;
      assert i != j;
    }
  }

  lemma OneMore(p: Pod, rest: seq<Pod>)
    ensures TypeCount([p] + rest, p.meta.taskType) > 0
  {
  }

  /** Any trim of the live pods is what deleting leaves for some listing of the store. */
  lemma TrimListing(tasks: seq<Task>, s: Store, k: Typing) returns (list: seq<Pod>)
    requires KeyedByName(s) && IsTrim(tasks, TypingOf(Live(s)), k)
    ensures IsListing(list, s) && IsListing(LivePods(list), Live(s))
    ensures TypingOf(Live(s) - Names(Redundant(LivePods(list), Quotas(tasks)))) == k
  {
    hide *;
    TrimKeys(tasks, s, k);
    var part := Part(s, k.Keys);
    var front := AnyListing(part);
    var rest := AnyListing(s - k.Keys);
    list := front + rest;
    ListingConcat(front, part, rest, s - k.Keys);
    LiveListing(list, s);
    LiveFront(front, rest, part);
    var pods := LivePods(list);
    FrontKept(tasks, front, LivePods(rest), part, k, Live(s));
    TrimTyping(tasks, pods, Live(s));
    TrimUnique(tasks, TypingOf(Live(s)), k, TypingOf(Live(s) - Names(Redundant(pods, Quotas(tasks)))));
  }

  ghost function Part(s: Store, names: set<string>): Store { map n | n in s && n in names :: s[n] }

  lemma TrimKeys(tasks: seq<Task>, s: Store, k: Typing)
    requires KeyedByName(s) && IsTrim(tasks, TypingOf(Live(s)), k)
    ensures var part := Part(s, k.Keys);
      && KeyedByName(part) && KeyedByName(s - k.Keys) && TypingOf(part) == k && k.Keys <= Live(s).Keys
      && (forall n | n in part :: IsPodLive(part[n])) && WithinQuotas(tasks, k)
      && part.Keys !! (s - k.Keys).Keys && part + (s - k.Keys) == s
  {
    TrimWithin(tasks, TypingOf(Live(s)), k);
  }

  lemma LiveFront(front: seq<Pod>, rest: seq<Pod>, part: Store)
    requires IsListing(front, part) && forall n | n in part :: IsPodLive(part[n])
    ensures LivePods(front + rest) == front + LivePods(rest)
  {
    FilterConcat(front, rest, IsPodLive);
    FilterAll(front, IsPodLive);
  }

  lemma FrontKept(tasks: seq<Task>, front: seq<Pod>, rest: seq<Pod>, part: Store, k: Typing, s: Store)
    requires IsListing(front, part) && TypingOf(part) == k && WithinQuotas(tasks, k)
    requires IsListing(front + rest, s) && k.Keys <= s.Keys
    ensures Within(k, TypingOf(s - Names(Redundant(front + rest, Quotas(tasks)))))
  {
    hide *;
    var q := Quotas(tasks);
    ListedDistinct(front + rest, s);
    FrontQuota(tasks, front, part, k);
    forall n | n in k ensures n !in Names(Redundant(front + rest, q)) && n in s && s[n].meta.taskType == k[n] {
      FrontHas(front, rest, part, s, n);
      FrontSpared(front, rest, q, part[n]);
    }
    StillWithin(k, s, Names(Redundant(front + rest, q)));
  }

  lemma FrontQuota(tasks: seq<Task>, front: seq<Pod>, part: Store, k: Typing)
    requires IsListing(front, part) && TypingOf(part) == k && WithinQuotas(tasks, k)
    ensures forall t :: TypeCount(front, t) <= Quota(Quotas(tasks), t)
  {
    hide IsListing, TypeCount, Quotas, Quota, Count, TypingOf;
    forall t ensures TypeCount(front, t) <= Quota(Quotas(tasks), t) {
      ListedCount(front, part, t);
      assert Count(k, t) <= QuotaOf(tasks, t);
    }
  }

  lemma FrontHas(front: seq<Pod>, rest: seq<Pod>, part: Store, s: Store, n: string)
    requires IsListing(front, part) && IsListing(front + rest, s) && n in TypingOf(part)
    ensures n in part && part[n] in front && part[n].meta.name == n
    ensures n in s && s[n].meta.taskType == TypingOf(part)[n]
  {
    assert part[n] in front && part[n] in front + rest;
  }

  lemma StillWithin(k: Typing, s: Store, gone: set<string>)
    requires forall n | n in k :: n !in gone && n in s && s[n].meta.taskType == k[n]
    ensures Within(k, TypingOf(s - gone))
  {
  }

  // ---- one step

  /** s to t: the missing pods are created, or the redundant ones deleted. */
  ghost predicate BalanceStep(id: JobId, spec: Spec, pods: seq<Pod>, s: Store, t: Store) {
    var n := Total(spec.tasks);
    && (|s| < n ==> CreatedAbove(id, spec.tasks, s, t, Top(s), |MissingNames(id, spec, s)|))
    && (|s| > n ==>
          && t == s - Names(Redundant(pods, Quotas(spec.tasks)))
          && |t| <= n && (|t| == n <==> EnoughOfEachType(pods, spec.tasks, 0)))
  }

  lemma StepOf(id: JobId, spec: Spec, pods: seq<Pod>, s: Store, t: Store)
    ensures BalanceStep(id, spec, pods, s, t) <==>
      && (|s| < Total(spec.tasks) ==> CreatedAbove(id, spec.tasks, s, t, Top(s), |MissingNames(id, spec, s)|))
      && (|s| > Total(spec.tasks) ==>
            && t == s - Names(Redundant(pods, Quotas(spec.tasks)))
            && |t| <= Total(spec.tasks)
            && (|t| == Total(spec.tasks) <==> EnoughOfEachType(pods, spec.tasks, 0)))
  {
    hide CreatedAbove, Redundant, EnoughOfEachType, Top, MissingNames;
  }

  /** It is a step of the typings, and nothing newly fails. */
  lemma StepTyping(id: JobId, spec: Spec, pods: seq<Pod>, s: Store, t: Store)
    requires Standing(id, spec, s) && StoreInv(id, t) && IsListing(pods, s) && BalanceStep(id, spec, pods, s, t)
    requires |s| != Total(spec.tasks)
    ensures Step(spec.tasks, SlotTypes(id, spec.tasks), TypingOf(s), TypingOf(t))
    ensures FailedNames(spec, t) == FailedNames(spec, s) * t.Keys
  {
    hide *;
    StandingFacts(id, spec, s);
    StepOf(id, spec, pods, s, t);
    SlotTypesSize(id, spec.tasks);
    TypingSize(s);
    TypingSize(t);
    StepIs(spec.tasks, SlotTypes(id, spec.tasks), TypingOf(s), TypingOf(t));
    if |s| < Total(spec.tasks) {
      FillTyping(id, spec, s, t);
      FailedKeys(spec, t);
    } else {
      TrimTyping(spec.tasks, pods, s);
      EnoughListed(spec.tasks, pods, s);
      FailedMinus(spec, s, Names(Redundant(pods, Quotas(spec.tasks))));
    }
  }

  lemma StepIs(tasks: seq<Task>, w: Typing, a: Typing, b: Typing)
    ensures Step(tasks, w, a, b) <==>
      && (|a| < |w| ==> b == w + a)
      && (|a| > |w| ==> IsTrim(tasks, a, b) && |b| <= |w| && (|b| == |w| <==> Enough(tasks, a)))
  {
    hide IsTrim, Enough;
  }

  lemma FailedKeys(spec: Spec, s: Store)
    ensures FailedNames(spec, s) <= s.Keys
  {
    hide IsPodFailed;
  }

  lemma FailedMinus(spec: Spec, s: Store, names: set<string>)
    ensures FailedNames(spec, s - names) == FailedNames(spec, s) * (s - names).Keys
  {
    hide IsPodFailed;
  }
}
