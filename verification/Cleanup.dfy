/** DeletePodsAndServices of pkg/context/pod.go: what a finished job leaves behind. */
module Cleanup {
  import opened Api
  import opened Cluster
  import opened Replicas

  predicate HasStoppedContainer(p: Pod) {
    exists c | c in p.status.containers :: c.exitCode.Some? || c.crashLoop
  }

  /** The pods a policy spares. */
  predicate Spares(policy: CleanPodPolicy, p: Pod) {
    match policy
    case CleanNone => true
    case CleanAll => p.status.terminating
    case CleanRunning =>
      || p.status.terminating
      || (p.status.phase != PodRunning && p.status.phase != PodPending)
      || HasStoppedContainer(p)
  }

  function Doomed(pods: seq<Pod>, policy: CleanPodPolicy): (r: seq<Pod>)
    ensures forall p :: p in r <==> p in pods && !Spares(policy, p)
  {
    if pods == [] then []
    else (if Spares(policy, pods[0]) then [] else [pods[0]]) + Doomed(pods[1..], policy)
  }

  predicate AllDeleted(services: seq<bool>) { forall i | 0 <= i < |services| :: services[i] }

  /** servicesOk: every service delete went through. */
  function CleanUp(policy: CleanPodPolicy, list: seq<Pod>, s: Store, servicesOk: bool, f: Faults): Executed {
    if list == [] then Executed(s, NoError)
    else if !servicesOk then Executed(s, ApiError)
    else
      var d := DeleteList(s, Doomed(list, policy), f);
      Executed(d.store, if d.ok then NoError else ApiError)
  }

  ghost function Remaining(policy: CleanPodPolicy, s: Store): Store {
    map n | n in s && Spares(policy, s[n]) :: s[n]
  }

  /** A clean-up whose calls take effect leaves exactly the spared pods. */
  lemma CleanUpExact(policy: CleanPodPolicy, list: seq<Pod>, s: Store, f: Faults)
    requires IsListing(list, s) && f.delete == map[]
    ensures CleanUp(policy, list, s, true, f) == Executed(Remaining(policy, s), NoError)
  {
    var gone := Doomed(list, policy);
    DeleteListExact(s, gone, f);
    DoomedNames(policy, list, s);
    hide Spares, Doomed, DeleteList;
    if list == [] {
      NothingListed(policy, s);
    }
  }

  lemma DoomedNames(policy: CleanPodPolicy, list: seq<Pod>, s: Store)
    requires IsListing(list, s)
    ensures s - Names(Doomed(list, policy)) == Remaining(policy, s)
  {
    hide Spares;
    var gone := Doomed(list, policy);
    hide Doomed;
    forall n | n in s ensures n in Names(gone) <==> !Spares(policy, s[n]) {
      assert s[n] in list && s[n].meta.name == n;
      if n in Names(gone) {
        var p :| p in gone && p.meta.name == n;
        assert s[p.meta.name] == p;
      }
    }
  }

  lemma NothingListed(policy: CleanPodPolicy, s: Store)
    requires IsListing([], s)
    ensures Remaining(policy, s) == s
  {
    assert s == map[];
  }

  /** What is left is spared again, so cleaning up once more changes nothing. */
  lemma RemainingIdempotent(policy: CleanPodPolicy, s: Store)
    ensures Remaining(policy, Remaining(policy, s)) == Remaining(policy, s)
  {
  }

  lemma CleanUpShrinks(policy: CleanPodPolicy, list: seq<Pod>, s: Store, servicesOk: bool, f: Faults)
    ensures Shrinks(s, CleanUp(policy, list, s, servicesOk, f).store, Names(list))
  {
    var gone := Doomed(list, policy);
    DeleteListShrinks(s, gone, f);
    assert Names(gone) <= Names(list);
  }
}
