/** What buildAndCreatePods makes: ranks, addresses, node placement. */
module Building {
  import opened Wrappers
  import opened Api
  import opened Text
  import opened Util
  import opened Pods
  import opened Replicas
  import opened Validator

  lemma {:induction false} BuildFromSpec(id: JobId, spec: Spec, allocation: seq<string>, slots: seq<Slot>, rank: nat)
    requires forall s | s in slots :: s.task < |spec.tasks|
    ensures match BuildFrom(id, spec, allocation, slots, rank)
      case None => spec.preemptible && rank <= |allocation| < rank + |slots|
      case Some(pods) =>
        && !(spec.preemptible && rank <= |allocation| < rank + |slots|)
        && |pods| == |slots|
        && forall r | 0 <= r < |slots| :: BuildPod(id, spec, rank + r, allocation, slots[r]) == Some(pods[r])
  {
    hide BuildPod;
    if slots != [] {
      BuildFromSpec(id, spec, allocation, slots[1..], rank + 1);
      BuildPodNone(id, spec, rank, allocation, slots[0]);
    }
  }

  lemma BuildPodNone(id: JobId, spec: Spec, rank: nat, allocation: seq<string>, s: Slot)
    requires s.task < |spec.tasks|
    ensures BuildPod(id, spec, rank, allocation, s).None? <==> spec.preemptible && rank == |allocation|
  {
  }

  /** Building all pods panics exactly when a preemptible job has fewer allocated
      nodes than replicas; otherwise the pod of slot (k, i) gets the rank
      (replicas of the earlier tasks) + i. */
  lemma BuildAllSpec(id: JobId, spec: Spec, allocation: seq<string>)
    ensures BuildAll(id, spec, allocation).None? <==> spec.preemptible && |allocation| < Total(spec.tasks)
    ensures BuildAll(id, spec, allocation).Some? ==>
      var pods := BuildAll(id, spec, allocation).value;
      && |pods| == Total(spec.tasks)
      && forall s | InSpec(spec.tasks, s) ::
           Position(spec.tasks, s) < |pods|
           && BuildPod(id, spec, Position(spec.tasks, s), allocation, s) == Some(pods[Position(spec.tasks, s)])
  {
    hide BuildPod;
    SlotsBijection(spec.tasks);
    BuildFromSpec(id, spec, allocation, Slots(spec.tasks), 0);
  }

  // ---- addresses

  /** The parts of an address: pod, service of the job, namespace, domain. */
  ghost function Address(id: JobId, podName: string): seq<string> {
    [podName, "di-" + id.name, id.namespace] + Split(id.domain, '.')
  }

  ghost predicate DotFree(id: JobId, podName: string) {
    '.' !in podName && '.' !in id.name && '.' !in id.namespace
  }

  lemma AddressParts(id: JobId, podName: string)
    requires DotFree(id, podName)
    ensures Split(Fqdn(id, podName), '.') == Address(id, podName)
  {
    assert '.' !in "di-";
    FQDNParts(podName, SvcName(id.name), id.namespace, id.domain);
  }

  /** DI_RANK indexes the pod's own address in DI_NODES: its hostname under its
      subdomain, which are the pod's name and the service of the job. */
  ghost predicate FindsItself(id: JobId, p: Pod) {
    var nodes := Split(p.spec.env.nodes, ',');
    match Atoi(p.spec.env.rank)
    case None => false
    case Some(r) =>
      && 0 <= r < |nodes|
      && nodes[r] == PodFQDN(p.spec.hostname, p.spec.subdomain, id.namespace, id.domain)
      && p.spec.hostname == p.meta.name && p.spec.subdomain == "di-" + id.name
      && (DotFree(id, p.meta.name) ==> Split(nodes[r], '.') == Address(id, p.meta.name))
  }

  ghost predicate CommaFree(id: JobId, tasks: seq<Task>) {
    && ',' !in id.name && ',' !in id.namespace && ',' !in id.domain
    && forall t | t in tasks :: ',' !in t.name
  }

  lemma FqdnCommaFree(id: JobId, tasks: seq<Task>, s: Slot)
    requires CommaFree(id, tasks) && s.task < |tasks|
    ensures ',' !in Fqdn(id, SlotName(id, tasks, s))
  {
    assert tasks[s.task] in tasks;
    assert AllDigits(Itoa(s.local));
    assert ',' !in Itoa(s.local);
    assert ',' !in SlotName(id, tasks, s);
  }

  lemma FqdnInjective(id: JobId, a: string, b: string)
    requires Fqdn(id, a) == Fqdn(id, b)
    ensures a == b
  {
    var tail := "." + SvcName(id.name) + "." + id.namespace + "." + id.domain;
    assert Fqdn(id, a) == a + tail && Fqdn(id, b) == b + tail;
    assert |a| == |b|;
    assert (a + tail)[..|a|] == a && (b + tail)[..|b|] == b;
  }

  /** The DI_NODES text splits back into the addresses of all slots, in order. */
  lemma NodesRoundTrip(id: JobId, tasks: seq<Task>)
    requires CommaFree(id, tasks) && Total(tasks) > 0
    requires forall s | s in Slots(tasks) :: s.task < |tasks|
    ensures Split(Join(Fqdns(id, tasks, Slots(tasks)), ','), ',') == Fqdns(id, tasks, Slots(tasks))
  {
    SlotsPositions(tasks);
    var all := Fqdns(id, tasks, Slots(tasks));
    forall a | a in all ensures ',' !in a {
      var r :| 0 <= r < |all| && all[r] == a;
      FqdnCommaFree(id, tasks, Slots(tasks)[r]);
    }
    hide Fqdns;
    SplitJoin(all, ',');
  }

  lemma {:induction false} TypedSlots(tasks: seq<Task>, slots: seq<Slot>, taskType: string)
    requires forall s | s in slots :: s.task < |tasks|
    ensures forall s :: s in SlotsOfType(tasks, slots, taskType) <==> s in slots && HasType(tasks, s, taskType)
  {
    if slots != [] {
      TypedSlots(tasks, slots[..|slots| - 1], taskType);
      assert slots == slots[..|slots| - 1] + [slots[|slots| - 1]];
    }
  }

  lemma TypedMembers(tasks: seq<Task>, taskType: string, typed: seq<Slot>)
    requires forall s | s in Slots(tasks) :: s.task < |tasks|
    requires typed == SlotsOfType(tasks, Slots(tasks), taskType)
    ensures forall s :: s in typed <==> InSpec(tasks, s) && tasks[s.task].taskType == taskType
  {
    SlotsInSpec(tasks);
    SlotsBijection(tasks);
    TypedSlots(tasks, Slots(tasks), taskType);
    hide SlotsOfType, Slots, Position;
    forall s | InSpec(tasks, s) ensures s in Slots(tasks) {
      assert s == Slots(tasks)[Position(tasks, s)];
    }
  }

  lemma FqdnsMembers(id: JobId, tasks: seq<Task>, slots: seq<Slot>)
    requires forall s | s in slots :: s.task < |tasks|
    ensures forall s | s in slots :: Fqdn(id, SlotName(id, tasks, s)) in Fqdns(id, tasks, slots)
    ensures forall a | a in Fqdns(id, tasks, slots) :: exists s | s in slots :: a == Fqdn(id, SlotName(id, tasks, s))
  {
    hide Fqdn, SlotName;
    var all := Fqdns(id, tasks, slots);
    forall s | s in slots ensures Fqdn(id, SlotName(id, tasks, s)) in all {
      var r :| 0 <= r < |slots| && slots[r] == s;
      assert all[r] == Fqdn(id, SlotName(id, tasks, s));
    }
    forall a | a in all ensures exists s | s in slots :: a == Fqdn(id, SlotName(id, tasks, s)) {
      var r :| 0 <= r < |all| && all[r] == a;
      assert slots[r] in slots;
    }
  }

  /** The nodes are the addresses of the slots, which are in the order of the spec. */
  ghost predicate ListsSlots(id: JobId, tasks: seq<Task>, slots: seq<Slot>, nodes: seq<string>) {
    && |nodes| == |slots|
    && (forall r | 0 <= r < |slots| ::
          && InSpec(tasks, slots[r]) && nodes[r] == Fqdn(id, SlotName(id, tasks, slots[r]))
          && (DotFree(id, SlotName(id, tasks, slots[r])) ==>
                Split(nodes[r], '.') == Address(id, SlotName(id, tasks, slots[r]))))
    && forall a, b | 0 <= a < b < |slots| :: Position(tasks, slots[a]) < Position(tasks, slots[b])
  }

  ghost predicate Ascending(tasks: seq<Task>, slots: seq<Slot>) {
    && (forall s | s in slots :: s.task < |tasks|)
    && forall a, b | 0 <= a < b < |slots| :: Position(tasks, slots[a]) < Position(tasks, slots[b])
  }

  lemma AscendingInit(tasks: seq<Task>, init: seq<Slot>, last: Slot)
    requires Ascending(tasks, init + [last])
    ensures Ascending(tasks, init) && last.task < |tasks|
    ensures forall s | s in init :: Position(tasks, s) < Position(tasks, last)
  {
    hide Position;
    var all := init + [last];
    assert last in all && forall s | s in init :: s in all;
    forall s | s in init ensures Position(tasks, s) < Position(tasks, last) {
      var i :| 0 <= i < |init| && init[i] == s;
      assert all[i] == s && all[|init|] == last;
    }
    forall a, b | 0 <= a < b < |init| ensures Position(tasks, init[a]) < Position(tasks, init[b]) {
      assert all[a] == init[a] && all[b] == init[b];
    }
  }

  lemma AscendingSnoc(tasks: seq<Task>, init: seq<Slot>, last: Slot)
    requires Ascending(tasks, init) && last.task < |tasks|
    requires forall s | s in init :: Position(tasks, s) < Position(tasks, last)
    ensures Ascending(tasks, init + [last])
  {
    hide Position;
    assert forall a | 0 <= a < |init| :: init[a] in init;
  }

  lemma {:induction false} TypedAscending(tasks: seq<Task>, slots: seq<Slot>, taskType: string)
    requires Ascending(tasks, slots)
    ensures Ascending(tasks, SlotsOfType(tasks, slots, taskType))
  {
    if slots != [] {
      var init, last := slots[..|slots| - 1], slots[|slots| - 1];
      assert slots == init + [last];
      AscendingInit(tasks, init, last);
      hide Ascending, Position, HasType;
      TypedAscending(tasks, init, taskType);
      var before := SlotsOfType(tasks, init, taskType);
      AscendingSnoc(tasks, before, last);
      assert before + [] == before;
    }
  }

  lemma TypedListed(id: JobId, tasks: seq<Task>, taskType: string, typed: seq<Slot>)
    requires forall s | s in Slots(tasks) :: s.task < |tasks|
    requires typed == SlotsOfType(tasks, Slots(tasks), taskType)
    requires forall s | s in typed :: InSpec(tasks, s)
    ensures ListsSlots(id, tasks, typed, Fqdns(id, tasks, typed))
  {
    SlotsBijection(tasks);
    assert Ascending(tasks, Slots(tasks)) by {
      hide Position, Slots;
    }
    TypedAscending(tasks, Slots(tasks), taskType);
    hide Slots, SlotsOfType, Position, Fqdn, SlotName, Address, DotFree;
    forall r | 0 <= r < |typed| && DotFree(id, SlotName(id, tasks, typed[r]))
      ensures Split(Fqdn(id, SlotName(id, tasks, typed[r])), '.') == Address(id, SlotName(id, tasks, typed[r]))
    {
      AddressParts(id, SlotName(id, tasks, typed[r]));
    }
    assert forall r | 0 <= r < |typed| :: typed[r] in typed;
  }

  /** The list DI_<TASK>_NODES of a pod splits into the addresses of exactly the
      slots of its task type, its own among them, in the order of the spec. */
  lemma TypedNodes(id: JobId, spec: Spec, rank: nat, allocation: seq<string>, s: Slot)
    requires CommaFree(id, spec.tasks) && InSpec(spec.tasks, s)
    requires BuildPod(id, spec, rank, allocation, s).Some?
    ensures var tasks := spec.tasks;
      var nodes := Split(BuildPod(id, spec, rank, allocation, s).value.spec.env.taskNodes, ',');
      && (forall c | InSpec(tasks, c) && tasks[c.task].taskType == tasks[s.task].taskType ::
        Fqdn(id, SlotName(id, tasks, c)) in nodes)
      && (forall a | a in nodes ::
            exists c | InSpec(tasks, c) ::
              tasks[c.task].taskType == tasks[s.task].taskType && a == Fqdn(id, SlotName(id, tasks, c)))
      && exists slots :: ListsSlots(id, tasks, slots, nodes)
  {
    var tasks := spec.tasks;
    SlotsInSpec(tasks);
    var typed := SlotsOfType(tasks, Slots(tasks), tasks[s.task].taskType);
    var all := Fqdns(id, tasks, typed);
    assert BuildPod(id, spec, rank, allocation, s).value.spec.env.taskNodes == Join(all, ',');
    TypedMembers(tasks, tasks[s.task].taskType, typed);
    FqdnsMembers(id, tasks, typed);
    TypedListed(id, tasks, tasks[s.task].taskType, typed);
    hide ListsSlots;
    hide BuildPod, SlotsOfType, Slots, Join, Split, Fqdn, SlotName, Fqdns, CommaFree;
    forall a | a in all ensures ',' !in a {
      var c :| c in typed && a == Fqdn(id, SlotName(id, tasks, c));
      FqdnCommaFree(id, tasks, c);
    }
    assert s in typed;
    SplitJoin(all, ',');
  }

  /** A pod finds its own address at its rank exactly when the rank is its
      position in the spec: pods of buildAndCreatePods always do, a replacement
      with a higher rank never does. */
  lemma FindsItselfIff(id: JobId, spec: Spec, rank: nat, allocation: seq<string>, s: Slot)
    requires CommaFree(id, spec.tasks) && DistinctNames(spec.tasks) && InSpec(spec.tasks, s)
    requires BuildPod(id, spec, rank, allocation, s).Some?
    ensures FindsItself(id, BuildPod(id, spec, rank, allocation, s).value) <==> rank == Position(spec.tasks, s)
  {
    var tasks := spec.tasks;
    SlotsBijection(tasks);
    NodesRoundTrip(id, tasks);
    AtoiItoa(rank);
    var slots := Slots(tasks);
    var all := Fqdns(id, tasks, slots);
    assert all[Position(tasks, s)] == Fqdn(id, SlotName(id, tasks, s));
    if DotFree(id, SlotName(id, tasks, s)) {
      AddressParts(id, SlotName(id, tasks, s));
    }
    hide Address, DotFree;
    if rank < |slots| && all[rank] == Fqdn(id, SlotName(id, tasks, s)) {
      FqdnInjective(id, SlotName(id, tasks, slots[rank]), SlotName(id, tasks, s));
      SlotNameInjective(id, tasks, slots[rank], s);
    }
  }

  lemma BuildAllFindsItself(id: JobId, spec: Spec, allocation: seq<string>)
    requires CommaFree(id, spec.tasks) && DistinctNames(spec.tasks)
    requires BuildAll(id, spec, allocation).Some?
    ensures forall p | p in BuildAll(id, spec, allocation).value :: FindsItself(id, p)
  {
    hide BuildPod, FindsItself;
    BuildAllSpec(id, spec, allocation);
    SlotsBijection(spec.tasks);
    var pods := BuildAll(id, spec, allocation).value;
    forall p | p in pods ensures FindsItself(id, p) {
      var r :| 0 <= r < |pods| && pods[r] == p;
      FindsItselfIff(id, spec, r, allocation, Slots(spec.tasks)[r]);
    }
  }

  // ---- reschedule detection

  /** The pods carry exactly the metadata buildAndCreatePods writes, in any order
      and with any status. */
  ghost predicate FullSet(id: JobId, spec: Spec, allocation: seq<string>, pods: seq<Pod>) {
    && BuildAll(id, spec, allocation).Some?
    && Metas(pods) == Metas(BuildAll(id, spec, allocation).value)
  }

  ghost function Metas(pods: seq<Pod>): set<Meta> { set p | p in pods :: p.meta }

  /** The pod with rank r was placed on the r-th node of the allocation, when
      replicas of them were to be made. */
  ghost predicate PlacedBy(m: Meta, allocation: seq<string>, replicas: nat) {
    && Atoi(m.replicas) == Some(replicas)
    && Atoi(m.rank).Some? && 0 <= Atoi(m.rank).value < replicas <= |allocation|
    && m.node == allocation[Atoi(m.rank).value]
  }

  ghost predicate Moved(m: Meta, now: seq<string>, replicas: nat) {
    |now| != replicas || (Atoi(m.rank).Some? && 0 <= Atoi(m.rank).value < |now| && now[Atoi(m.rank).value] != m.node)
  }

  lemma {:induction false} DetectMovedSpec(pods: seq<Pod>, allocation: seq<string>, now: seq<string>, replicas: nat)
    requires forall p | p in pods :: PlacedBy(p.meta, allocation, replicas)
    ensures DetectMoved(pods, now) != IndexPanic
    ensures DetectMoved(pods, now) == Reschedule <==>
      exists p | p in pods :: Moved(p.meta, now, replicas)
  {
    if pods != [] {
      assert pods[0] in pods;
      DetectMovedSpec(pods[1..], allocation, now, replicas);
      assert pods == [pods[0]] + pods[1..];
    }
  }

  lemma BuiltPlaced(id: JobId, spec: Spec, allocation: seq<string>, rank: nat, s: Slot)
    requires s.task < |spec.tasks| && spec.preemptible
    requires rank < Total(spec.tasks) <= |allocation|
    ensures BuildPod(id, spec, rank, allocation, s).Some?
    ensures var m := BuildPod(id, spec, rank, allocation, s).value.meta;
      PlacedBy(m, allocation, Total(spec.tasks)) && Atoi(m.rank) == Some(rank)
  {
    AtoiItoa(rank);
    AtoiItoa(Total(spec.tasks));
  }

  ghost predicate RankHeld(pods: seq<Pod>, r: int) {
    exists p | p in pods :: Atoi(p.meta.rank) == Some(r)
  }

  lemma FullSetPlaced(id: JobId, spec: Spec, allocation: seq<string>, pods: seq<Pod>)
    requires spec.preemptible && FullSet(id, spec, allocation, pods)
    ensures forall p | p in pods :: PlacedBy(p.meta, allocation, Total(spec.tasks))
    ensures forall r | 0 <= r < Total(spec.tasks) :: RankHeld(pods, r)
  {
    hide BuildPod, PlacedBy;
    BuildAllSpec(id, spec, allocation);
    SlotsBijection(spec.tasks);
    var built := BuildAll(id, spec, allocation).value;
    forall r | 0 <= r < |built|
      ensures PlacedBy(built[r].meta, allocation, Total(spec.tasks)) && Atoi(built[r].meta.rank) == Some(r)
    {
      BuiltPlaced(id, spec, allocation, r, Slots(spec.tasks)[r]);
    }
    forall p | p in pods ensures PlacedBy(p.meta, allocation, Total(spec.tasks)) {
      assert p.meta in Metas(built);
    }
    forall r | 0 <= r < Total(spec.tasks) ensures RankHeld(pods, r) {
      assert built[r].meta in Metas(pods);
    }
  }

  /** For the full pod set made from an allocation, detectReschedule never reads
      out of bounds and asks for rescheduling exactly when the first n nodes of
      that allocation are no longer the allocation, n being the replicas. */
  lemma DetectionExact(id: JobId, spec: Spec, made: seq<string>, now: seq<string>, pods: seq<Pod>)
    requires spec.preemptible && Total(spec.tasks) > 0
    requires FullSet(id, spec, made, pods)
    ensures Total(spec.tasks) <= |made|
    ensures DetectReschedule(spec, pods, now) == if now == made[..Total(spec.tasks)] then Keep else Reschedule
  {
    hide BuildAll, DetectMoved;
    var n := Total(spec.tasks);
    BuildAllSpec(id, spec, made);
    FullSetPlaced(id, spec, made, pods);
    DetectMovedSpec(pods, made, now, n);
    if now == made[..n] {
      forall p | p in pods ensures !Moved(p.meta, now, n) {
        assert PlacedBy(p.meta, made, n);
      }
    } else {
      var r :| 0 <= r < n && (|now| == n ==> now[r] != made[r]);
      assert RankHeld(pods, r);
      var p :| p in pods && Atoi(p.meta.rank) == Some(r);
      assert Moved(p.meta, now, n);
    }
  }
}
