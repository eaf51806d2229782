/** pkg/context/node.go and pkg/allocator/node.go: what is free on each node. */
module NodeResources {
  import opened Api
  import opened Util

  type Resources = map<string, int>

  /** A pod as the allocator sees it; requests and limits are summed over its
      containers already. */
  datatype BoundPod = BoundPod(
    nodeName: string,
    phase: PodPhase,
    conditions: seq<PodCondition>,
    requests: Resources,
    limits: Resources)

  datatype Node = Node(name: string, allocatable: Resources)

  function Amount(m: Resources, r: string): int { if r in m then m[r] else 0 }

  /** How often a pod takes part in the sums: a running pod once, a pending pod once
      for every condition that says it is scheduled, any other pod not at all. */
  function Weight(p: BoundPod): nat {
    match p.phase
    case PodRunning => 1
    case PodPending => ScheduledConditions(p.conditions)
    case _ => 0
  }

  function Copies(p: BoundPod, n: nat): seq<BoundPod> { seq(n, _ => p) }

  function Effective(pods: seq<BoundPod>): seq<BoundPod> {
    if pods == [] then []
    else Effective(pods[..|pods| - 1]) + Copies(pods[|pods| - 1], Weight(pods[|pods| - 1]))
  }

  method FilterOutIneffectivePods(pods: seq<BoundPod>) returns (effectivePods: seq<BoundPod>)
    ensures effectivePods == Effective(pods)
  {
    effectivePods := [];
    for i := 0 to |pods|
      invariant effectivePods == Effective(pods[..i])
    {
      var pod := pods[i];
      assert pods[..i + 1][..i] == pods[..i];
      ghost var before := effectivePods;
      if pod.phase == PodPending {
        for j := 0 to |pod.conditions|
          invariant |before| <= |effectivePods|
          invariant |effectivePods| - |before| + ScheduledConditions(pod.conditions[j..]) ==
            ScheduledConditions(pod.conditions)
          invariant effectivePods == before + Copies(pod, |effectivePods| - |before|)
        {
          if IsScheduledCondition(pod.conditions[j]) {
            effectivePods := effectivePods + [pod];
          }
        }
      } else if pod.phase == PodRunning {
        effectivePods := effectivePods + [pod];
        assert effectivePods == before + Copies(pod, 1);
      }
    }
    assert pods[..|pods|] == pods;
  }

  /** The sum of one resource over a list of amounts. */
  function Sum(ms: seq<Resources>, r: string): int {
    if ms == [] then 0 else Sum(ms[..|ms| - 1], r) + Amount(ms[|ms| - 1], r)
  }

  function RequestsOf(pods: seq<BoundPod>): (ms: seq<Resources>)
    ensures |ms| == |pods|
  {
    seq(|pods|, i requires 0 <= i < |pods| => pods[i].requests)
  }

  function LimitsOf(pods: seq<BoundPod>): (ms: seq<Resources>)
    ensures |ms| == |pods|
  {
    seq(|pods|, i requires 0 <= i < |pods| => pods[i].limits)
  }

  /** The loop that adds one pod's amounts to a total. */
  method AddAll(total: Resources, more: Resources) returns (sum: Resources)
    ensures forall r :: r in sum <==> r in total || r in more
    ensures forall r | r in sum :: sum[r] == Amount(total, r) + Amount(more, r)
  {
    sum := total;
    var rest := more;
    while |rest| > 0
      invariant forall r | r in rest :: r in more && rest[r] == more[r]
      invariant forall r :: r in sum <==> r in total || (r in more && r !in rest)
      invariant forall r | r in sum :: sum[r] == Amount(total, r) + if r in rest then 0 else Amount(more, r)
      decreases |rest|
    {
      var name :| name in rest;
      if name !in sum {
        sum := sum[name := rest[name]];
      } else {
        sum := sum[name := sum[name] + rest[name]];
      }
      rest := rest - {name};
    }
  }

  method GetPodsTotalRequestsAndLimits(pods: seq<BoundPod>) returns (reqs: Resources, limits: Resources)
    ensures forall r :: Amount(reqs, r) == Sum(RequestsOf(pods), r)
    ensures forall r :: Amount(limits, r) == Sum(LimitsOf(pods), r)
  {
    reqs, limits := map[], map[];
    for i := 0 to |pods|
      invariant forall r :: Amount(reqs, r) == Sum(RequestsOf(pods)[..i], r)
      invariant forall r :: Amount(limits, r) == Sum(LimitsOf(pods)[..i], r)
    {
      assert RequestsOf(pods)[..i + 1][..i] == RequestsOf(pods)[..i];
      assert LimitsOf(pods)[..i + 1][..i] == LimitsOf(pods)[..i];
      reqs := AddAll(reqs, pods[i].requests);
      limits := AddAll(limits, pods[i].limits);
    }
    assert RequestsOf(pods)[..|pods|] == RequestsOf(pods) && LimitsOf(pods)[..|pods|] == LimitsOf(pods);
  }

  /** What the effective pods of a list request, each as often as it counts. */
  function Requested(pods: seq<BoundPod>, r: string): int {
    if pods == [] then 0
    else
      var last := pods[|pods| - 1];
      Requested(pods[..|pods| - 1], r) + Weight(last) * Amount(last.requests, r)
  }

  lemma {:induction false} SumAppend(a: seq<Resources>, b: seq<Resources>, r: string)
    ensures Sum(a + b, r) == Sum(a, r) + Sum(b, r)
  {
    if b == [] {
      assert a + b == a;
    } else {
      assert (a + b)[..|a + b| - 1] == a + b[..|b| - 1];
      SumAppend(a, b[..|b| - 1], r);
    }
  }

  lemma {:induction false} SumCopies(p: BoundPod, n: nat, r: string)
    ensures Sum(RequestsOf(Copies(p, n)), r) == n * Amount(p.requests, r)
  {
    if n > 0 {
      assert RequestsOf(Copies(p, n))[..n - 1] == RequestsOf(Copies(p, n - 1));
      SumCopies(p, n - 1, r);
      assert n * Amount(p.requests, r) == (n - 1) * Amount(p.requests, r) + Amount(p.requests, r);
    }
  }

  lemma {:induction false} EffectiveRequests(pods: seq<BoundPod>, r: string)
    ensures Sum(RequestsOf(Effective(pods)), r) == Requested(pods, r)
  {
    if pods != [] {
      var init, last := pods[..|pods| - 1], pods[|pods| - 1];
      EffectiveRequests(init, r);
      var more := Copies(last, Weight(last));
      assert RequestsOf(Effective(init) + more) == RequestsOf(Effective(init)) + RequestsOf(more);
      SumAppend(RequestsOf(Effective(init)), RequestsOf(more), r);
      SumCopies(last, Weight(last), r);
    }
  }

  method GetNodeAllocatedResources(pods: seq<BoundPod>) returns (reqs: Resources, limits: Resources)
    ensures forall r :: Amount(reqs, r) == Requested(pods, r)
  {
    var nonTerminatedPods := FilterOutIneffectivePods(pods);
    reqs, limits := GetPodsTotalRequestsAndLimits(nonTerminatedPods);
    forall r ensures Amount(reqs, r) == Requested(pods, r) {
      EffectiveRequests(pods, r);
    }
  }

  /** free is what remains of the allocatable resources, possibly less than nothing. */
  ghost predicate IsFree(free: Resources, node: Node, nodePods: seq<BoundPod>) {
    && free.Keys == node.allocatable.Keys
    && forall r | r in free :: free[r] + Requested(nodePods, r) == node.allocatable[r]
  }

  method GetNodeInfo(node: Node, pods: seq<BoundPod>) returns (free: Resources)
    ensures IsFree(free, node, pods)
  {
    var reqs, _ := GetNodeAllocatedResources(pods);
    free := map[];
    var rest := node.allocatable.Keys;
    while rest != {}
      invariant rest <= node.allocatable.Keys
      invariant free.Keys == node.allocatable.Keys - rest
      invariant forall r | r in free :: free[r] == node.allocatable[r] - Amount(reqs, r)
      decreases |rest|
    {
      var name :| name in rest;
      free := free[name := node.allocatable[name] - Amount(reqs, name)];
      rest := rest - {name};
    }
  }

  function BoundTo(pods: seq<BoundPod>, names: set<string>): seq<BoundPod> {
    if pods == [] then []
    else
      var last := pods[|pods| - 1];
      BoundTo(pods[..|pods| - 1], names) + if last.nodeName in names then [last] else []
  }

  ghost predicate DistinctNodes(nodes: seq<Node>) {
    forall i, j | 0 <= i < j < |nodes| :: nodes[i].name != nodes[j].name
  }

  function NodeNames(nodes: seq<Node>): set<string> { set n | n in nodes :: n.name }

  method PodsOn(node: Node, pods: seq<BoundPod>) returns (nodePods: seq<BoundPod>)
    ensures nodePods == BoundTo(pods, {node.name})
  {
    nodePods := [];
    for i := 0 to |pods|
      invariant nodePods == BoundTo(pods[..i], {node.name})
    {
      assert pods[..i + 1][..i] == pods[..i];
      if pods[i].nodeName == node.name {
        nodePods := nodePods + [pods[i]];
      }
    }
    assert pods[..|pods|] == pods;
  }

  /** No later node has the same name. */
  ghost predicate LastNamed(nodes: seq<Node>, i: nat)
    requires i < |nodes|
  {
    forall j | i < j < |nodes| :: nodes[j].name != nodes[i].name
  }

  method GetNodeInfos(nodes: seq<Node>, pods: seq<BoundPod>) returns (nodeInfos: map<string, Resources>)
    ensures nodeInfos.Keys == NodeNames(nodes)
    ensures forall i | 0 <= i < |nodes| && LastNamed(nodes, i) ::
      IsFree(nodeInfos[nodes[i].name], nodes[i], BoundTo(pods, {nodes[i].name}))
  {
    hide IsFree, BoundTo;
    nodeInfos := map[];
    for k := 0 to |nodes|
      invariant nodeInfos.Keys == NodeNames(nodes[..k])
      invariant forall i | 0 <= i < k && (forall j | i < j < k :: nodes[j].name != nodes[i].name) ::
        nodes[i].name in nodeInfos && IsFree(nodeInfos[nodes[i].name], nodes[i], BoundTo(pods, {nodes[i].name}))
    {
      assert nodes[..k + 1] == nodes[..k] + [nodes[k]];
      var node := nodes[k];
      var nodePods := PodsOn(node, pods);
      var nodeInfo := GetNodeInfo(node, nodePods);
      nodeInfos := nodeInfos[node.name := nodeInfo];
    }
    assert nodes[..|nodes|] == nodes;
  }

  // ---- conservation over the cluster

  lemma {:induction false} RequestedAppend(a: seq<BoundPod>, b: seq<BoundPod>, r: string)
    ensures Requested(a + b, r) == Requested(a, r) + Requested(b, r)
  {
    hide Weight, Amount;
    if b == [] {
      assert a + b == a;
    } else {
      assert (a + b)[..|a + b| - 1] == a + b[..|b| - 1];
      RequestedAppend(a, b[..|b| - 1], r);
    }
  }

  lemma BoundOne(pods: seq<BoundPod>, names: set<string>, r: string)
    requires pods != []
    ensures var last := pods[|pods| - 1];
      Requested(BoundTo(pods, names), r)
      == Requested(BoundTo(pods[..|pods| - 1], names), r) + if last.nodeName in names then Requested([last], r) else 0
  {
    hide Weight, Amount, Requested;
    var before := BoundTo(pods[..|pods| - 1], names);
    assert before + [] == before;
    RequestedAppend(before, [pods[|pods| - 1]], r);
  }

  /** Pods bound to one more node add exactly that node's requests. */
  lemma {:induction false} RequestedByNode(pods: seq<BoundPod>, names: set<string>, n: string, r: string)
    requires n !in names
    ensures Requested(BoundTo(pods, names + {n}), r) ==
      Requested(BoundTo(pods, names), r) + Requested(BoundTo(pods, {n}), r)
  {
    if pods != [] {
      hide *;
      RequestedByNode(pods[..|pods| - 1], names, n, r);
      BoundOne(pods, names + {n}, r);
      BoundOne(pods, names, r);
      BoundOne(pods, {n}, r);
    }
  }

  /** The nodes that offer a resource. */
  function Offering(nodes: seq<Node>, r: string): set<string> { set n | n in nodes && r in n.allocatable :: n.name }

  function Allocatable(nodes: seq<Node>, r: string): int {
    if nodes == [] then 0 else Allocatable(nodes[..|nodes| - 1], r) + Amount(nodes[|nodes| - 1].allocatable, r)
  }

  function Free(infos: map<string, Resources>, nodes: seq<Node>, r: string): int
    requires forall n | n in nodes :: n.name in infos
  {
    if nodes == [] then 0
    else Free(infos, nodes[..|nodes| - 1], r) + Amount(infos[nodes[|nodes| - 1].name], r)
  }

  /** Over the whole cluster, what is free and what the effective pods on the nodes
      request add up to what the nodes offer. */
  lemma {:induction false} ClusterConservation(nodes: seq<Node>, pods: seq<BoundPod>, infos: map<string, Resources>,
                                               r: string)
    requires DistinctNodes(nodes)
    requires forall n | n in nodes :: n.name in infos && IsFree(infos[n.name], n, BoundTo(pods, {n.name}))
    ensures Free(infos, nodes, r) + Requested(BoundTo(pods, Offering(nodes, r)), r) == Allocatable(nodes, r)
  {
    hide Requested, BoundTo;
    if nodes == [] {
      NothingBound(pods, r);
    } else {
      var init, last := nodes[..|nodes| - 1], nodes[|nodes| - 1];
      assert nodes == init + [last];
      ClusterConservation(init, pods, infos, r);
      if r in last.allocatable {
        assert Offering(nodes, r) == Offering(init, r) + {last.name};
        RequestedByNode(pods, Offering(init, r), last.name, r);
      } else {
        assert Offering(nodes, r) == Offering(init, r);
      }
    }
  }

  lemma {:induction false} NothingBound(pods: seq<BoundPod>, r: string)
    ensures Requested(BoundTo(pods, Offering([], r)), r) == 0
  {
    if pods != [] {
      var init := pods[..|pods| - 1];
      NothingBound(init, r);
      assert BoundTo(init, Offering([], r)) + [] == BoundTo(init, Offering([], r));
    }
  }

  lemma SamePermutation(a: seq<BoundPod>, front: seq<BoundPod>, back: seq<BoundPod>, p: BoundPod)
    requires multiset(a + [p]) == multiset(front + ([p] + back))
    ensures multiset(a) == multiset(front + back)
  {
    assert multiset(a) == multiset(a + [p]) - multiset{p};
    assert multiset(front + back) == multiset(front + ([p] + back)) - multiset{p};
  }

  /** The order of the pod list does not matter. */
  lemma {:induction false} OrderIndependent(a: seq<BoundPod>, b: seq<BoundPod>, r: string)
    requires multiset(a) == multiset(b)
    ensures Requested(a, r) == Requested(b, r)
    decreases |a|
  {
    hide Weight, Amount;
    if a == [] {
      assert |multiset(b)| == 0;
    } else {
      var last := a[|a| - 1];
      assert a == a[..|a| - 1] + [last];
      assert last in multiset(b);
      var i :| 0 <= i < |b| && b[i] == last;
      var rest := b[..i] + b[i + 1..];
      assert b == b[..i] + ([last] + b[i + 1..]);
      SamePermutation(a[..|a| - 1], b[..i], b[i + 1..], last);
      OrderIndependent(a[..|a| - 1], rest, r);
      RequestedAppend(b[..i], b[i + 1..], r);
      RequestedAppend(b[..i], [last] + b[i + 1..], r);
      RequestedAppend([last], b[i + 1..], r);
    }
  }

  lemma {:induction false} BoundToMultiset(pods: seq<BoundPod>, names: set<string>, p: BoundPod)
    ensures multiset(BoundTo(pods, names))[p] == if p.nodeName in names then multiset(pods)[p] else 0
  {
    if pods != [] {
      var init, last := pods[..|pods| - 1], pods[|pods| - 1];
      assert pods == init + [last];
      BoundToMultiset(init, names, p);
    }
  }

  /** What is free on a node does not depend on the order of the pod list. */
  lemma FreeOrderIndependent(a: seq<BoundPod>, b: seq<BoundPod>, node: Node, x: Resources, y: Resources)
    requires multiset(a) == multiset(b)
    requires IsFree(x, node, BoundTo(a, {node.name})) && IsFree(y, node, BoundTo(b, {node.name}))
    ensures x == y
  {
    hide Requested, BoundTo;
    assert multiset(BoundTo(a, {node.name})) == multiset(BoundTo(b, {node.name})) by {
      forall p ensures multiset(BoundTo(a, {node.name}))[p] == multiset(BoundTo(b, {node.name}))[p] {
        BoundToMultiset(a, {node.name}, p);
        BoundToMultiset(b, {node.name}, p);
      }
    }
    forall r ensures Requested(BoundTo(a, {node.name}), r) == Requested(BoundTo(b, {node.name}), r) {
      OrderIndependent(BoundTo(a, {node.name}), BoundTo(b, {node.name}), r);
    }
  }

  ghost predicate ScheduledTwice(cs: seq<PodCondition>) {
    exists i, j | 0 <= i < j < |cs| ::
      && cs[i].conditionType == cs[j].conditionType == "PodScheduled"
      && cs[i].status == cs[j].status == "True"
  }

  /** What the weights mean: a pod counts at all exactly if it runs, or is pending and
      has been scheduled; and it counts more than once exactly if it is pending and
      says so in two conditions. */
  lemma {:induction false} WeightMeaning(p: BoundPod)
    ensures Weight(p) >= 1 <==>
      || p.phase == PodRunning
      || (p.phase == PodPending
          && exists c | c in p.conditions :: c.conditionType == "PodScheduled" && c.status == "True")
    ensures Weight(p) > 1 <==> p.phase == PodPending && ScheduledTwice(p.conditions)
  {
    hide ScheduledTwice, TwiceIn;
    ScheduledOnce(p.conditions);
    ScheduledMore(p.conditions);
    TwiceMeaning(p.conditions);
  }

  lemma {:induction false} ScheduledOnce(cs: seq<PodCondition>)
    ensures ScheduledConditions(cs) >= 1 <==> exists c | c in cs :: IsScheduledCondition(c)
  {
    hide IsScheduledCondition;
    if cs != [] {
      ScheduledOnce(cs[1..]);
      assert cs == [cs[0]] + cs[1..];
    }
  }

  ghost predicate TwiceIn(cs: seq<PodCondition>) {
    exists i, j | 0 <= i < j < |cs| :: IsScheduledCondition(cs[i]) && IsScheduledCondition(cs[j])
  }

  lemma TwiceMeaning(cs: seq<PodCondition>)
    ensures TwiceIn(cs) <==> ScheduledTwice(cs)
  {
    if ScheduledTwice(cs) {
      var i, j :| 0 <= i < j < |cs| && cs[i].conditionType == cs[j].conditionType == "PodScheduled"
        && cs[i].status == cs[j].status == "True";
      assert IsScheduledCondition(cs[i]) && IsScheduledCondition(cs[j]);
    }
  }

  lemma TwiceCons(c: PodCondition, rest: seq<PodCondition>)
    ensures TwiceIn([c] + rest) <==>
      TwiceIn(rest) || (IsScheduledCondition(c) && exists d | d in rest :: IsScheduledCondition(d))
  {
    hide IsScheduledCondition;
    var cs := [c] + rest;
    if TwiceIn(rest) {
      var i, j :| 0 <= i < j < |rest| && IsScheduledCondition(rest[i]) && IsScheduledCondition(rest[j]);
      assert cs[i + 1] == rest[i] && cs[j + 1] == rest[j];
    }
    if IsScheduledCondition(c) && exists d | d in rest :: IsScheduledCondition(d) {
      var j :| 0 <= j < |rest| && IsScheduledCondition(rest[j]);
      assert cs[0] == c && cs[j + 1] == rest[j];
    }
    if TwiceIn(cs) {
      var i, j :| 0 <= i < j < |cs| && IsScheduledCondition(cs[i]) && IsScheduledCondition(cs[j]);
      assert rest[j - 1] == cs[j] && rest[j - 1] in rest;
      if i > 0 {
        assert rest[i - 1] == cs[i];
      }
    }
  }

  lemma {:induction false} ScheduledMore(cs: seq<PodCondition>)
    ensures ScheduledConditions(cs) > 1 <==> TwiceIn(cs)
  {
    hide IsScheduledCondition, TwiceIn;
    if cs == [] {
      NeverTwice();
    } else {
      ScheduledMore(cs[1..]);
      ScheduledOnce(cs[1..]);
      assert cs == [cs[0]] + cs[1..];
      TwiceCons(cs[0], cs[1..]);
    }
  }

  lemma NeverTwice()
    ensures !TwiceIn([])
  {
  }

  /** The pod takes up room on its node. */
  ghost predicate TakesRoom(p: BoundPod) {
    || p.phase == PodRunning
    || (p.phase == PodPending
        && exists c | c in p.conditions :: c.conditionType == "PodScheduled" && c.status == "True")
  }

  ghost function RoomTakers(pods: seq<BoundPod>): set<nat> { set i: nat | i < |pods| && TakesRoom(pods[i]) :: i }

  lemma RoomTakersLast(pods: seq<BoundPod>)
    requires pods != []
    ensures var init, last := pods[..|pods| - 1], pods[|pods| - 1];
      |RoomTakers(pods)| == |RoomTakers(init)| + if TakesRoom(last) then 1 else 0
  {
    hide TakesRoom;
    var init, last := pods[..|pods| - 1], pods[|pods| - 1];
    assert forall i: nat | i < |init| :: init[i] == pods[i];
    assert RoomTakers(pods) == RoomTakers(init) + if TakesRoom(last) then {|init|} else {};
  }

  /** What is requested is requested once by every pod that takes up room: as much as
      there are such pods, when all request the same and none says twice that it has
      been scheduled. */
  lemma {:induction false} RequestedMeaning(pods: seq<BoundPod>, r: string, x: int)
    requires forall p | p in pods :: r in p.requests && p.requests[r] == x && !ScheduledTwice(p.conditions)
    ensures Requested(pods, r) == x * |RoomTakers(pods)|
  {
    hide TakesRoom, ScheduledTwice, Weight;
    if pods == [] {
      assert RoomTakers(pods) == {};
    } else {
      var init, last := pods[..|pods| - 1], pods[|pods| - 1];
      assert last in pods && forall p | p in init :: p in pods;
      RequestedMeaning(init, r, x);
      RoomTakersLast(pods);
      hide RoomTakers;
      WeightIs(last);
      var n := |RoomTakers(init)|;
      assert x * (n + 1) == x * n + x;
    }
  }

  lemma WeightIs(p: BoundPod)
    requires !ScheduledTwice(p.conditions)
    ensures Weight(p) == if TakesRoom(p) then 1 else 0
  {
    hide Weight, ScheduledTwice;
    WeightMeaning(p);
  }
}
