/** The pods of one job in the API server, and the create and delete calls of
    pkg/context/pod.go. Every call may fail; a fault script says how. */
module Cluster {
  import opened Api
  import opened Util

  type Store = map<string, Pod>

  /** Lost: the call took effect but an error came back. Marked: a finalizer
      keeps the deleted pod, which is terminating from then on. */
  datatype CreateReply = Created | CreateRefused | CreateLost
  datatype DeleteReply = Deleted | Marked | DeleteRefused | DeleteLost

  /** The replies of one reconcile, by pod name; an unlisted call succeeds. */
  datatype Faults = Faults(create: map<string, CreateReply>, delete: map<string, DeleteReply>)

  const NO_FAULTS := Faults(map[], map[])

  datatype Done = Done(store: Store, ok: bool)

  ghost predicate KeyedByName(s: Store) {
    forall n | n in s :: s[n].meta.name == n
  }

  /** CreatePod: a name that is taken counts as success and leaves the holder. */
  function CreateOne(s: Store, p: Pod, f: Faults): Done {
    var reply := if p.meta.name in f.create then f.create[p.meta.name] else Created;
    Done(
      if reply == CreateRefused || p.meta.name in s then s else s[p.meta.name := p],
      reply == Created)
  }

  /** DeletePod: a name that is not there counts as success. */
  function DeleteOne(s: Store, name: string, f: Faults): Done {
    var reply := if name in f.delete then f.delete[name] else Deleted;
    match reply
    case Deleted => Done(s - {name}, true)
    case Marked => Done(if name in s then s[name := MarkTerminating(s[name])] else s, true)
    case DeleteRefused => Done(s, false)
    case DeleteLost => Done(s - {name}, false)
  }

  function MarkTerminating(p: Pod): Pod {
    p.(status := p.status.(terminating := true))
  }

  /** Creates in order up to the first error. */
  function CreateList(s: Store, pods: seq<Pod>, f: Faults): Done
    decreases |pods|
  {
    if pods == [] then Done(s, true)
    else
      var d := CreateOne(s, pods[0], f);
      if d.ok then CreateList(d.store, pods[1..], f) else d
  }

  /** Deletes in order up to the first error. */
  function DeleteList(s: Store, pods: seq<Pod>, f: Faults): Done {
    if pods == [] then Done(s, true)
    else
      var d := DeleteOne(s, pods[0].meta.name, f);
      if d.ok then DeleteList(d.store, pods[1..], f) else d
  }

  /** Deletes in order whatever the replies. */
  function DeleteEach(s: Store, pods: seq<Pod>, f: Faults): Store {
    if pods == [] then s else DeleteEach(DeleteOne(s, pods[0].meta.name, f).store, pods[1..], f)
  }

  // ---- listings

  /** What ListJobPods may return: every pod once, in any order. */
  ghost predicate IsListing(list: seq<Pod>, s: Store) {
    && (forall p | p in list :: p.meta.name in s && s[p.meta.name] == p)
    && (forall n | n in s :: s[n] in list)
    && (forall i, j | 0 <= i < j < |list| :: list[i].meta.name != list[j].meta.name)
    && KeyedByName(s)
  }

  lemma ListingTail(list: seq<Pod>, s: Store)
    requires IsListing(list, s) && list != []
    ensures IsListing(list[1..], s - {list[0].meta.name})
    ensures list[0].meta.name in s && s[list[0].meta.name] == list[0]
  {
    var t := s - {list[0].meta.name};
    assert list == [list[0]] + list[1..];
    assert list[0] in list;
    forall n | n in t ensures t[n] in list[1..] {
      assert s[n] in list && s[n].meta.name == n;
    }
    forall p | p in list[1..] ensures p.meta.name in t && t[p.meta.name] == p {
      assert p in list;
    }
    forall i, j | 0 <= i < j < |list[1..]| ensures list[1..][i].meta.name != list[1..][j].meta.name {
      assert list[1..][i] == list[i + 1] && list[1..][j] == list[j + 1];
    }
  }

  lemma ListingCons(p: Pod, list: seq<Pod>, s: Store)
    requires IsListing(list, s) && p.meta.name !in s
    ensures IsListing([p] + list, s[p.meta.name := p])
  {
    var l, t := [p] + list, s[p.meta.name := p];
    forall i, j | 0 <= i < j < |l| ensures l[i].meta.name != l[j].meta.name {
      assert l[j] == list[j - 1] && list[j - 1] in list;
      if i > 0 {
        assert l[i] == list[i - 1];
      }
    }
  }

  lemma SubsetSize(a: set<string>, b: set<string>)
    requires a <= b
    ensures |a| <= |b|
  {
    assert b == a + (b - a);
  }

  lemma RestSize(s: Store, n: string)
    requires n in s
    ensures |s| == |s - {n}| + 1
  {
    assert (s - {n}).Keys == s.Keys - {n};
    assert |s| == |s.Keys| && |s - {n}| == |(s - {n}).Keys|;
  }

  /** A listing is as long as the store is large. */
  lemma {:induction false} ListingSize(list: seq<Pod>, s: Store)
    requires IsListing(list, s)
    ensures |list| == |s|
  {
    if list == [] {
      assert s == map[];
    } else {
      hide IsListing;
      ListingTail(list, s);
      ListingSize(list[1..], s - {list[0].meta.name});
      RestSize(s, list[0].meta.name);
    }
  }

  /** A store has some listing. */
  lemma {:induction false} AnyListing(s: Store) returns (list: seq<Pod>)
    requires KeyedByName(s)
    ensures IsListing(list, s)
  {
    if s == map[] {
      list := [];
    } else {
      var n :| n in s;
      list := AnyListing(s - {n});
      ListingCons(s[n], list, s - {n});
      assert s == (s - {n})[n := s[n]];
      list := [s[n]] + list;
    }
  }

  /** The pods of a store that a filter keeps. */
  ghost function Kept(s: Store, keep: Pod -> bool): Store {
    map n | n in s && keep(s[n]) :: s[n]
  }

  ghost function Live(s: Store): Store { Kept(s, IsPodLive) }

  lemma KeptOfRest(s: Store, n: string, keep: Pod -> bool)
    requires n in s
    ensures Kept(s, keep) == if keep(s[n]) then Kept(s - {n}, keep)[n := s[n]] else Kept(s - {n}, keep)
  {
  }

  /** Filtering a listing lists the filtered store. */
  lemma {:induction false} FilterListing(list: seq<Pod>, s: Store, keep: Pod -> bool)
    requires IsListing(list, s)
    ensures IsListing(FilterPods(list, keep), Kept(s, keep))
  {
    if list == [] {
      assert s == map[];
    } else {
      var p, rest := list[0], FilterPods(list[1..], keep);
      ListingTail(list, s);
      FilterListing(list[1..], s - {p.meta.name}, keep);
      KeptOfRest(s, p.meta.name, keep);
      if keep(p) {
        ListingCons(p, rest, Kept(s - {p.meta.name}, keep));
      } else {
        assert [] + rest == rest;
      }
    }
  }

  lemma LiveListing(list: seq<Pod>, s: Store)
    requires IsListing(list, s)
    ensures IsListing(LivePods(list), Live(s))
    ensures |LivePods(list)| == |Live(s)|
  {
    FilterListing(list, s, IsPodLive);
    ListingSize(LivePods(list), Live(s));
  }

  // ---- what the calls do to a store

  /** Creation only adds pods from the list, and never touches a pod that is there. */
  lemma {:induction false} CreateListFrame(s: Store, pods: seq<Pod>, f: Faults)
    ensures var d := CreateList(s, pods, f);
      && (forall n | n in s :: n in d.store && d.store[n] == s[n])
      && (forall n | n in d.store && n !in s :: d.store[n] in pods && d.store[n].meta.name == n)
      && (d.ok ==> forall p | p in pods :: p.meta.name in d.store)
    decreases |pods|
  {
    if pods != [] {
      var d := CreateOne(s, pods[0], f);
      if d.ok {
        CreateListFrame(d.store, pods[1..], f);
        assert pods == [pods[0]] + pods[1..];
      }
    }
  }

  predicate Confirmed(f: Faults, name: string) { name !in f.create || f.create[name] == Created }

  lemma {:induction false} CreateListOkIff(s: Store, pods: seq<Pod>, f: Faults)
    ensures CreateList(s, pods, f).ok <==> forall p | p in pods :: Confirmed(f, p.meta.name)
    decreases |pods|
  {
    if pods != [] {
      assert pods == [pods[0]] + pods[1..];
      CreateListOkIff(CreateOne(s, pods[0], f).store, pods[1..], f);
    }
  }

  lemma {:induction false} CreatesSucceed(s: Store, pods: seq<Pod>, f: Faults)
    requires f.create == map[]
    ensures CreateList(s, pods, f).ok
    decreases |pods|
  {
    if pods != [] {
      CreatesSucceed(CreateOne(s, pods[0], f).store, pods[1..], f);
    }
  }

  /** Deletion changes only the pods of the list, and only by removing or marking them. */
  ghost predicate Shrinks(s: Store, t: Store, names: set<string>) {
    && (forall n | n in t :: n in s && (t[n] == s[n] || (n in names && t[n] == MarkTerminating(s[n]))))
    && (forall n | n in s && n !in names :: n in t && t[n] == s[n])
  }

  ghost function Names(pods: seq<Pod>): set<string> { set p | p in pods :: p.meta.name }

  lemma DeleteOneShrinks(s: Store, name: string, f: Faults)
    ensures Shrinks(s, DeleteOne(s, name, f).store, {name})
  {
  }

  lemma ShrinksMore(s: Store, t: Store, u: Store, names: set<string>, more: set<string>)
    requires Shrinks(s, t, names) && Shrinks(t, u, more)
    ensures Shrinks(s, u, names + more)
  {
  }

  lemma ShrinksNone(s: Store)
    ensures Shrinks(s, s, {})
  {
  }

  lemma NamesCons(pods: seq<Pod>)
    requires pods != []
    ensures Names(pods) == {pods[0].meta.name} + Names(pods[1..])
  {
    assert pods == [pods[0]] + pods[1..];
  }

  lemma {:induction false} DeleteEachShrinks(s: Store, pods: seq<Pod>, f: Faults)
    ensures Shrinks(s, DeleteEach(s, pods, f), Names(pods))
  {
    hide Shrinks, DeleteOne;
    if pods == [] {
      ShrinksNone(s);
      assert Names(pods) == {};
    } else {
      var t := DeleteOne(s, pods[0].meta.name, f).store;
      DeleteOneShrinks(s, pods[0].meta.name, f);
      DeleteEachShrinks(t, pods[1..], f);
      ShrinksMore(s, t, DeleteEach(t, pods[1..], f), {pods[0].meta.name}, Names(pods[1..]));
      NamesCons(pods);
    }
  }

  lemma {:induction false} DeleteListShrinks(s: Store, pods: seq<Pod>, f: Faults)
    ensures Shrinks(s, DeleteList(s, pods, f).store, Names(pods))
  {
    hide Shrinks, DeleteOne;
    if pods == [] {
      ShrinksNone(s);
      assert Names(pods) == {};
    } else {
      var d := DeleteOne(s, pods[0].meta.name, f);
      DeleteOneShrinks(s, pods[0].meta.name, f);
      NamesCons(pods);
      if d.ok {
        DeleteListShrinks(d.store, pods[1..], f);
        ShrinksMore(s, d.store, DeleteList(d.store, pods[1..], f).store, {pods[0].meta.name}, Names(pods[1..]));
      } else {
        ShrinksWider(s, d.store, {pods[0].meta.name}, Names(pods));
      }
    }
  }

  lemma ShrinksWider(s: Store, t: Store, names: set<string>, more: set<string>)
    requires Shrinks(s, t, names) && names <= more
    ensures Shrinks(s, t, more)
  {
  }

  /** Without faults, deletion removes exactly the listed names. */
  lemma {:induction false} DeleteListExact(s: Store, pods: seq<Pod>, f: Faults)
    requires f.delete == map[]
    ensures DeleteList(s, pods, f) == Done(s - Names(pods), true)
    ensures DeleteEach(s, pods, f) == s - Names(pods)
  {
    if pods == [] {
      assert s - Names(pods) == s;
    } else {
      DeleteListExact(s - {pods[0].meta.name}, pods[1..], f);
      assert pods == [pods[0]] + pods[1..];
      assert Names(pods) == {pods[0].meta.name} + Names(pods[1..]);
      assert s - {pods[0].meta.name} - Names(pods[1..]) == s - Names(pods);
    }
  }
}
