/** Jobs that are not preemptible, with live pods that no longer belong to the spec:
    exactly when Restarting and Rescheduling end in every case, and when creating and
    deleting alternate for ever. */
module Leftovers {
  import opened Wrappers
  import opened Api
  import opened Text
  import opened Util
  import opened Pods
  import opened Cluster
  import opened Replicas
  import opened Validator
  import opened Uniqueness
  import opened Missed
  import opened Redundancy
  import opened Controller
  import opened Rounds
  import opened Typings
  import opened Trims

  /** Restarting may not end: see Typings.Fails. */
  ghost predicate MayFail(id: JobId, spec: Spec, s: Store) {
    Fails(spec.tasks, SlotTypes(id, spec.tasks), TypingOf(s), FailedNames(spec, s))
  }

  ghost predicate MayLoop(id: JobId, spec: Spec, s: Store) {
    Loops(spec.tasks, SlotTypes(id, spec.tasks), TypingOf(s))
  }

  ghost predicate ComesToRest(id: JobId, spec: Spec, s: Store) {
    Balances(spec.tasks, SlotTypes(id, spec.tasks), TypingOf(s))
  }

  ghost function Left(id: JobId, spec: Spec, s: Store): nat {
    StepsLeft(spec.tasks, SlotTypes(id, spec.tasks), TypingOf(s))
  }

  // ---- one reconcile in Restarting

  /** A job in Restarting whose pods are all live and in range. */
  ghost predicate Stands(id: JobId, w: World) {
    && w.status.phase == Restarting && Defaulted(w.spec) && !w.spec.preemptible
    && Standing(id, w.spec, w.store)
  }

  lemma StandsIs(id: JobId, w: World)
    ensures Stands(id, w) <==>
      w.status.phase == Restarting && Defaulted(w.spec) && !w.spec.preemptible && Standing(id, w.spec, w.store)
  {
  }

  lemma StandsFacts(id: JobId, w: World)
    requires Stands(id, w)
    ensures w.status.phase == Restarting && Defaulted(w.spec) && !w.spec.preemptible && Standing(id, w.spec, w.store)
    ensures Acceptable(w.spec.tasks) && !IsTerminal(w.status.phase) && DistinctNames(w.spec.tasks)
    ensures KeyedByName(w.store) && Live(w.store) == w.store && StoreInv(id, w.store)
  {
    AcceptableDistinct(w.spec.tasks);
    StandingFacts(id, w.spec, w.store);
  }

  lemma CalmNextFacts(id: JobId, w: World, list: seq<Pod>, next: World)
    requires CalmNext(id, w, list, next)
    ensures var n := Undisturbed(id, w, list);
      next.spec == n.spec && next.status == n.status && Calm(n.spec, n.store, next.store)
  {
    hide Undisturbed, Calm;
  }

  lemma {:induction false} StandsRound(id: JobId, w: World, list: seq<Pod>, next: World)
    requires Stands(id, w) && IsListing(list, w.store) && CalmNext(id, w, list, next)
    ensures IsListing(LivePods(list), w.store)
    ensures var n, r := Undisturbed(id, w, list), Total(w.spec.tasks);
      && n.spec == next.spec == w.spec && n.status.phase == next.status.phase && Calm(w.spec, n.store, next.store)
      && Standing(id, w.spec, n.store) && Standing(id, w.spec, next.store)
      && (|w.store| != r ==>
            n.status.phase == Restarting && BalanceStep(id, w.spec, LivePods(list), w.store, n.store))
      && (|w.store| == r ==>
            && n.store == w.store - FailedNames(w.spec, w.store)
            && n.status.phase == (if FailedNames(w.spec, w.store) == {} then Starting else Restarting))
      && (n.status.phase == Restarting ==> Stands(id, next))
  {
    hide *;
    StandsFacts(id, w);
    StandingListed(id, w.spec, list, w.store);
    UndisturbedOutcome(id, w, list);
    RestartOutcome(id, w.spec, w.status, list, w.store);
    CalmNextFacts(id, w, list, next);
    CalmStanding(id, w.spec, Undisturbed(id, w, list).store, next.store);
    AlwaysFits(w.spec, w.status.allocation, Top(w.store) + 1, |MissingNames(id, w.spec, w.store)|);
    StepOf(id, w.spec, LivePods(list), w.store, Undisturbed(id, w, list).store);
    StandsIs(id, next);
  }

  lemma CalmTyping(spec: Spec, s: Store, t: Store)
    requires Calm(spec, s, t)
    ensures TypingOf(t) == TypingOf(s)
  {
    hide IsPodFailed;
  }

  /** The same in terms of typings. */
  lemma {:induction false} StandsStep(id: JobId, w: World, list: seq<Pod>, next: World)
    requires Stands(id, w) && IsListing(list, w.store) && CalmNext(id, w, list, next)
    ensures var n, ty := Undisturbed(id, w, list), SlotTypes(id, w.spec.tasks);
      && TypingOf(next.store) == TypingOf(n.store) && |ty| == Total(w.spec.tasks)
      && |TypingOf(w.store)| == |w.store| && AsksFor(w.spec.tasks, ty)
      && FailedNames(w.spec, next.store) <= FailedNames(w.spec, n.store)
      && FailedNames(w.spec, n.store) <= TypingOf(n.store).Keys
      && FailedNames(w.spec, w.store) <= TypingOf(w.store).Keys
      && (|w.store| != Total(w.spec.tasks) ==>
            && Step(w.spec.tasks, ty, TypingOf(w.store), TypingOf(n.store))
            && FailedNames(w.spec, n.store) == FailedNames(w.spec, w.store) * TypingOf(n.store).Keys)
      && (|w.store| == Total(w.spec.tasks) ==>
            && TypingOf(n.store) == TypingOf(w.store) - FailedNames(w.spec, w.store)
            && FailedNames(w.spec, n.store) == {})
  {
    hide *;
    var t := Undisturbed(id, w, list).store;
    StandsFacts(id, w);
    StandsRound(id, w, list, next);
    CalmTyping(w.spec, t, next.store);
    CalmStanding(id, w.spec, t, next.store);
    StandingFacts(id, w.spec, t);
    SlotTypesSize(id, w.spec.tasks);
    SlotsAskFor(id, w.spec.tasks);
    TypingSize(w.store);
    TypingSize(t);
    FailedKeys(w.spec, t);
    FailedKeys(w.spec, w.store);
    if |w.store| != Total(w.spec.tasks) {
      StepTyping(id, w.spec, LivePods(list), w.store, t);
    } else {
      TypingMinus(w.store, FailedNames(w.spec, w.store));
      NoneFailedAfter(w.spec, w.store);
    }
  }

  lemma NoneFailedAfter(spec: Spec, s: Store)
    ensures FailedNames(spec, s - FailedNames(spec, s)) == {}
  {
    hide IsPodFailed;
  }

  // ---- Restarting ends

  /** Steps to `replicas` pods, one to delete the failed ones, steps again, one to
      finish. */
  ghost function RestartsLeft(id: JobId, spec: Spec, s: Store): nat {
    Left(id, spec, s) + 1
    + if FailedNames(spec, s) == {} then 0 else if ComesToRest(id, spec, s) then 4 else 5
  }

  lemma RestartsLeftIs(id: JobId, spec: Spec, s: Store)
    ensures RestartsLeft(id, spec, s) == Left(id, spec, s) + 1
      + (if FailedNames(spec, s) == {} then 0 else if ComesToRest(id, spec, s) then 4 else 5)
    ensures RestartsLeft(id, spec, s) <= 10
  {
    hide FailedNames, ComesToRest, SlotTypes, TypingOf, StepsLeft;
    FewSteps(spec.tasks, SlotTypes(id, spec.tasks), TypingOf(s));
  }

  lemma LeftIs(id: JobId, spec: Spec, s: Store)
    ensures Left(id, spec, s) == StepsLeft(spec.tasks, SlotTypes(id, spec.tasks), TypingOf(s)) <= 4
    ensures ComesToRest(id, spec, s) <==> Balances(spec.tasks, SlotTypes(id, spec.tasks), TypingOf(s))
    ensures MayLoop(id, spec, s) <==> Loops(spec.tasks, SlotTypes(id, spec.tasks), TypingOf(s))
    ensures MayFail(id, spec, s) <==>
      Fails(spec.tasks, SlotTypes(id, spec.tasks), TypingOf(s), FailedNames(spec, s))
  {
    hide FailedNames, SlotTypes, TypingOf, StepsLeft, Balances, Loops, Fails;
    FewSteps(spec.tasks, SlotTypes(id, spec.tasks), TypingOf(s));
  }

  lemma NotFailing(tasks: seq<Task>, w: Typing, a: Typing, f: set<string>)
    requires !Fails(tasks, w, a, f) && |a| != |w|
    ensures !Loops(tasks, w, a)
  {
    hide Loops, Ends;
  }

  lemma StepPart(tasks: seq<Task>, w: Typing, a: Typing, b: Typing)
    requires Step(tasks, w, a, b) && |a| != |w|
    ensures Within(b, a) || Within(b, w + a)
  {
    hide Enough, Count, QuotaOf;
  }

  /** A reconcile of a job that does not fail, and does not finish. */
  lemma FewerRestarts(id: JobId, w: World, list: seq<Pod>, next: World)
    requires Stands(id, w) && IsListing(list, w.store) && CalmNext(id, w, list, next)
    requires !MayFail(id, w.spec, w.store) && Undisturbed(id, w, list).status.phase == Restarting
    ensures Stands(id, next) && next.spec == w.spec && !MayFail(id, w.spec, next.store)
    ensures RestartsLeft(id, w.spec, next.store) < RestartsLeft(id, w.spec, w.store)
  {
    hide *;
    var tasks, ty, a, b := w.spec.tasks, SlotTypes(id, w.spec.tasks), TypingOf(w.store), TypingOf(next.store);
    var f, g := FailedNames(w.spec, w.store), FailedNames(w.spec, next.store);
    StandsRound(id, w, list, next);
    StandsStep(id, w, list, next);
    LeftIs(id, w.spec, w.store);
    LeftIs(id, w.spec, next.store);
    RestartsLeftIs(id, w.spec, w.store);
    RestartsLeftIs(id, w.spec, next.store);
    if |a| != |ty| {
      FailsBack(tasks, ty, a, b, f, g);
      NotFailing(tasks, ty, a, f);
      StepProgress(tasks, ty, a, b);
      StepPart(tasks, ty, a, b);
      if ComesToRest(id, w.spec, w.store) {
        BalancesPart(tasks, ty, a, b);
      }
    } else {
      AtRest(tasks, ty, a);
      FailedDeleted(tasks, ty, a, f);
      if ComesToRest(id, w.spec, w.store) {
        PartOf(a, f);
        BalancesPart(tasks, ty, a, b);
        BalancesRest(tasks, ty, b);
      }
    }
  }

  lemma PartOf(a: Typing, f: set<string>)
    ensures Within(a - f, a)
  {
  }

  lemma RunFacts(id: JobId, ws: seq<World>, lists: seq<seq<Pod>>)
    requires CalmRun(id, ws, lists)
    ensures |ws| == |lists| + 1
    ensures lists != [] ==> IsListing(lists[0], ws[0].store) && CalmNext(id, ws[0], lists[0], ws[1])
  {
    hide IsListing, CalmNext;
  }

  lemma {:induction false} SurelyRestarts(id: JobId, ws: seq<World>, lists: seq<seq<Pod>>)
    requires CalmRun(id, ws, lists) && Stands(id, ws[0]) && !MayFail(id, ws[0].spec, ws[0].store)
    requires |lists| >= RestartsLeft(id, ws[0].spec, ws[0].store)
    ensures Reaches(id, ws, lists, Starting)
    decreases |ws|
  {
    hide *;
    RunFacts(id, ws, lists);
    RestartsLeftIs(id, ws[0].spec, ws[0].store);
    StandsRound(id, ws[0], lists[0], ws[1]);
    if Undisturbed(id, ws[0], lists[0]).status.phase == Starting {
      ReachesFirst(id, ws, lists, Starting);
    } else {
      FewerRestarts(id, ws[0], lists[0], ws[1]);
      CalmRest(id, ws, lists);
      SurelyRestarts(id, ws[1..], lists[1..]);
      ReachesLater(id, ws, lists, Starting);
    }
  }

  // ---- Restarting does not end

  /** The calm after which of the failed pods only those in g are failed still. */
  ghost function Calmed(spec: Spec, s: Store, g: set<string>): Store {
    map n | n in s ::
      if n in FailedNames(spec, s) && n !in g then s[n].(status := FRESH_STATUS) else s[n]
  }

  lemma CalmedIs(spec: Spec, s: Store, g: set<string>)
    requires forall n | n in s :: !IsPodTerminating(s[n])
    ensures Calm(spec, s, Calmed(spec, s, g))
    ensures g <= FailedNames(spec, s) ==> FailedNames(spec, Calmed(spec, s, g)) == g
    ensures FailedNames(spec, s) <= g ==> Calmed(spec, s, g) == s
  {
    assert forall p: Pod :: !IsPodFailed(p.(status := FRESH_STATUS), spec.preemptible);
  }

  /** The world after an undisturbed reconcile and such a calm. */
  ghost function CalmedWorld(id: JobId, w: World, list: seq<Pod>, g: set<string>): World {
    var n := Undisturbed(id, w, list);
    n.(store := Calmed(n.spec, n.store, g))
  }

  lemma {:induction false} CalmedNext(id: JobId, w: World, list: seq<Pod>, g: set<string>)
    requires Stands(id, w) && IsListing(list, w.store)
    ensures CalmNext(id, w, list, CalmedWorld(id, w, list, g))
    ensures var n := Undisturbed(id, w, list);
      && CalmedWorld(id, w, list, g).spec == w.spec
      && (g <= FailedNames(w.spec, n.store) ==> FailedNames(w.spec, CalmedWorld(id, w, list, g).store) == g)
      && TypingOf(CalmedWorld(id, w, list, g).store) == TypingOf(n.store)
  {
    hide Undisturbed, Calmed, Calm, CalmNext, FailedNames, TypingOf, Stands, IsListing;
    var n := Undisturbed(id, w, list);
    CalmUndisturbed(id, w, list);
    StandsRound(id, w, list, n);
    StandingFacts(id, w.spec, n.store);
    CalmedIs(w.spec, n.store, g);
    CalmTyping(w.spec, n.store, Calmed(w.spec, n.store, g));
    CalmNextIs(id, w, list, CalmedWorld(id, w, list, g));
  }

  lemma CalmNextIs(id: JobId, w: World, list: seq<Pod>, next: World)
    ensures var n := Undisturbed(id, w, list);
      CalmNext(id, w, list, next) <==> next == n.(store := next.store) && Calm(n.spec, n.store, next.store)
  {
    hide Undisturbed, Calm;
  }

  lemma CalmUndisturbed(id: JobId, w: World, list: seq<Pod>)
    ensures CalmNext(id, w, list, Undisturbed(id, w, list))
  {
    hide Undisturbed;
    CalmSame(Undisturbed(id, w, list).spec, Undisturbed(id, w, list).store);
  }

  /** A listing that makes the next deletion leave a given trim. */
  lemma {:induction false} ChosenRound(id: JobId, w: World, k: Typing) returns (list: seq<Pod>)
    requires Stands(id, w) && |w.store| > Total(w.spec.tasks) && IsTrim(w.spec.tasks, TypingOf(w.store), k)
    ensures IsListing(list, w.store) && TypingOf(Undisturbed(id, w, list).store) == k
  {
    hide *;
    StandsFacts(id, w);
    list := TrimListing(w.spec.tasks, w.store, k);
    CalmUndisturbed(id, w, list);
    StandsRound(id, w, list, Undisturbed(id, w, list));
    StepOf(id, w.spec, LivePods(list), w.store, Undisturbed(id, w, list).store);
  }

  /** A round of a job that may fail, after which it may still fail. */
  lemma {:induction false} FailingRound(id: JobId, w: World) returns (list: seq<Pod>, next: World)
    requires Stands(id, w) && MayFail(id, w.spec, w.store)
    ensures IsListing(list, w.store) && CalmNext(id, w, list, next)
    ensures Undisturbed(id, w, list).status.phase == Restarting
    ensures Stands(id, next) && next.spec == w.spec && MayFail(id, w.spec, next.store)
  {
    hide *;
    var tasks, ty, a, f := w.spec.tasks, SlotTypes(id, w.spec.tasks), TypingOf(w.store), FailedNames(w.spec, w.store);
    StandsFacts(id, w);
    SlotTypesSize(id, tasks);
    TypingSize(w.store);
    FailedKeys(w.spec, w.store);
    LeftIs(id, w.spec, w.store);
    var g: set<string>;
    if |a| > |ty| {
      var k;
      k, g := FailingTrim(tasks, ty, a, f);
      list := ChosenRound(id, w, k);
    } else {
      list := AnyListing(w.store);
      if |a| < |ty| {
        g := FailingFill(tasks, ty, a, f);
      } else {
        g := {};
        FailingDelete(tasks, ty, a, f);
      }
    }
    next := CalmedWorld(id, w, list, g);
    CalmedNext(id, w, list, g);
    StandsRound(id, w, list, next);
    StandsStep(id, w, list, next);
    StepIs(tasks, ty, a, TypingOf(next.store));
    LeftIs(id, w.spec, next.store);
  }

  /** A reconcile in Restarting that deletes failed pods. */
  lemma FailingDelete(tasks: seq<Task>, w: Typing, a: Typing, f: set<string>)
    requires |a| == |w| && f <= a.Keys && Fails(tasks, w, a, f)
    ensures f != {} && Fails(tasks, w, a - f, {})
  {
    hide Loops, Ends;
    FewerThan(a, f);
  }

  lemma FailingFill(tasks: seq<Task>, w: Typing, a: Typing, f: set<string>) returns (g: set<string>)
    requires |a| < |w| && f <= a.Keys && Fails(tasks, w, a, f)
    ensures g <= f && Fails(tasks, w, w + a, g)
  {
    hide QuotaOf, Count, Enough, IsTrim, Loops;
    FillSize(w, a);
    FillLoops(tasks, w, a);
    if Loops(tasks, w, a) {
      g := f;
    } else {
      var u;
      u, g :| Ends(tasks, w, a, u, g) && g != {} && g <= f && Loops(tasks, w, u - g);
      if |w + a| != |w| {
        assert Ends(tasks, w, w + a, u, g);
      }
    }
  }

  lemma FailingTrim(tasks: seq<Task>, w: Typing, a: Typing, f: set<string>) returns (k: Typing, g: set<string>)
    requires |a| > |w| && f <= a.Keys && Fails(tasks, w, a, f)
    ensures IsTrim(tasks, a, k) && g <= f * k.Keys
    ensures |k| <= |w| && (|k| == |w| <==> Enough(tasks, a)) ==> Fails(tasks, w, k, g)
  {
    hide QuotaOf, Count, Enough, IsTrim;
    if Loops(tasks, w, a) {
      k :| IsTrim(tasks, a, k) && Outside(w, k) && !Enough(tasks, w + k);
      g := f * k.Keys;
      if |k| < |w| {
        TrimLoops(tasks, w, a, k);
      }
    } else {
      hide Loops;
      var u, h :| Ends(tasks, w, a, u, h) && h != {} && h <= f && Loops(tasks, w, u - h);
      if IsTrim(tasks, a, u) {
        k, g := u, h;
      } else {
        k :| IsTrim(tasks, a, k) && h <= k.Keys && if |w + k| == |w| then u == w + k else IsTrim(tasks, w + k, u);
        g := h;
        FillSize(w, k);
        if |k| < |w| {
          assert Ends(tasks, w, k, u, h);
        }
      }
    }
  }

  /** A job that may fail can stay in Restarting for any number of reconciles. */
  lemma {:induction false} RestartsForEver(id: JobId, w: World, k: nat) returns (ws: seq<World>, lists: seq<seq<Pod>>)
    requires Stands(id, w) && MayFail(id, w.spec, w.store)
    ensures CalmRun(id, ws, lists) && ws[0] == w && |lists| == k && !Reaches(id, ws, lists, Starting)
    decreases k
  {
    hide *;
    if k == 0 {
      ws, lists := [w], [];
      RunOfOne(id, w, Starting);
    } else {
      var list, next := FailingRound(id, w);
      var ws', lists' := RestartsForEver(id, next, k - 1);
      ws, lists := [w] + ws', [list] + lists';
      RunFacts(id, ws', lists');
      CalmCons(id, w, list, ws', lists');
      ReachesCons(id, w, list, ws', lists', Starting);
    }
  }

  lemma RunOfOne(id: JobId, w: World, phase: Phase)
    ensures CalmRun(id, [w], []) && !Reaches(id, [w], [], phase)
  {
  }

  lemma {:induction false} CalmCons(id: JobId, w: World, list: seq<Pod>, ws: seq<World>, lists: seq<seq<Pod>>)
    requires CalmRun(id, ws, lists) && IsListing(list, w.store) && CalmNext(id, w, list, ws[0])
    ensures CalmRun(id, [w] + ws, [list] + lists)
  {
    hide IsListing, CalmNext;
  }

  lemma {:induction false} ReachesCons(id: JobId, w: World, list: seq<Pod>, ws: seq<World>, lists: seq<seq<Pod>>,
                                       phase: Phase)
    requires |ws| == |lists| + 1
    ensures Reaches(id, [w] + ws, [list] + lists, phase) <==>
      Undisturbed(id, w, list).status.phase == phase || Reaches(id, ws, lists, phase)
  {
    hide Undisturbed;
    var xs, ls := [w] + ws, [list] + lists;
    assert xs[1..] == ws && ls[1..] == lists;
    if Undisturbed(id, w, list).status.phase == phase {
      ReachesFirst(id, xs, ls, phase);
    }
    if Reaches(id, ws, lists, phase) {
      ReachesLater(id, xs, ls, phase);
    }
    if Reaches(id, xs, ls, phase) {
      var i :| 0 <= i < |ls| && Undisturbed(id, xs[i], ls[i]).status.phase == phase;
      if i > 0 {
        assert xs[i] == ws[i - 1] && ls[i] == lists[i - 1];
      }
    }
  }

  // ---- exactly when Restarting ends

  /** Every calm run of at least k reconciles reaches Starting. */
  ghost predicate AlwaysRestarts(id: JobId, w: World, k: nat) {
    forall ws, lists | CalmRun(id, ws, lists) && ws[0] == w && |lists| >= k :: Reaches(id, ws, lists, Starting)
  }

  lemma {:induction false} FailsForEver(id: JobId, w: World, k: nat)
    requires Stands(id, w) && MayFail(id, w.spec, w.store)
    ensures !AlwaysRestarts(id, w, k)
  {
    var ws, lists := RestartsForEver(id, w, k);
    assert CalmRun(id, ws, lists) && ws[0] == w && |lists| >= k;
  }

  /** Undisturbed, a job whose pods are live and in range, whatever their types, gets out
      of Restarting in every case if and only if it does not fail in the sense of
      Typings.Fails, a question about the names, the types and the failures of its
      pods. Ten reconciles are enough. */
  lemma {:induction false} AlwaysRestartsIff(id: JobId, w: World, k: nat)
    requires Stands(id, w) && k >= RestartsLeft(id, w.spec, w.store)
    ensures AlwaysRestarts(id, w, k) <==> !MayFail(id, w.spec, w.store)
    ensures RestartsLeft(id, w.spec, w.store) <= 10
  {
    hide Stands, CalmNext, IsListing, Reaches, MayFail, RestartsLeft;
    RestartsLeftIs(id, w.spec, w.store);
    if MayFail(id, w.spec, w.store) {
      FailsForEver(id, w, k);
    } else {
      forall ws, lists | CalmRun(id, ws, lists) && ws[0] == w && |lists| >= k
        ensures Reaches(id, ws, lists, Starting)
      {
        SurelyRestarts(id, ws, lists);
      }
    }
  }

  /** Without a choice, if pods in slots have the type of their task or quotas fall
      short: the steps come to rest, or there are `replicas` pods and none has failed,
      or what is left of them without the failed ones comes to rest. Eight reconciles
      are enough. */
  lemma {:induction false} TypedRestartsIff(id: JobId, w: World, k: nat)
    requires Stands(id, w) && k >= 8
    requires QuotasCover(w.spec.tasks) ==> Agrees(SlotTypes(id, w.spec.tasks), TypingOf(w.store))
    ensures AlwaysRestarts(id, w, k) <==>
      Recovers(w.spec.tasks, SlotTypes(id, w.spec.tasks), TypingOf(w.store), FailedNames(w.spec, w.store))
  {
    hide *;
    var tasks, ty, a, f := w.spec.tasks, SlotTypes(id, w.spec.tasks), TypingOf(w.store), FailedNames(w.spec, w.store);
    StandsFacts(id, w);
    SlotsAskFor(id, tasks);
    TypingSize(w.store);
    FailedKeys(w.spec, w.store);
    FailsIff(tasks, ty, a, f);
    LeftIs(id, w.spec, w.store);
    RestartsLeftIs(id, w.spec, w.store);
    if Recovers(tasks, ty, a, f) {
      RecoversSoon(tasks, ty, a, f);
      AlwaysRestartsIff(id, w, k);
    } else {
      FailsForEver(id, w, k);
    }
  }

  lemma RecoversSoon(tasks: seq<Task>, w: Typing, a: Typing, f: set<string>)
    requires AsksFor(tasks, w) && Recovers(tasks, w, a, f)
    ensures StepsLeft(tasks, w, a) + (if f == {} then 0 else if Balances(tasks, w, a) then 4 else 5) <= 7
  {
    hide Balances, AsksFor, Enough, Harmless, Outside;
    FewSteps(tasks, w, a);
    AtRest(tasks, w, a);
    if Balances(tasks, w, a) {
      BalancesRest(tasks, w, a);
    }
  }

  /** Pods that stand in slots, whatever their types, and whichever have failed. */
  lemma SlotsRecover(id: JobId, w: World)
    requires Stands(id, w) && w.store.Keys <= SpecNames(id, w.spec.tasks)
    ensures AlwaysRestarts(id, w, 10)
  {
    hide *;
    StandsFacts(id, w);
    SlotTypesSize(id, w.spec.tasks);
    TypingSize(w.store);
    NoneOutside(SlotTypes(id, w.spec.tasks), TypingOf(w.store));
    InSlotsRecover(w.spec.tasks, SlotTypes(id, w.spec.tasks), TypingOf(w.store), FailedNames(w.spec, w.store));
    LeftIs(id, w.spec, w.store);
    RestartsLeftIs(id, w.spec, w.store);
    AlwaysRestartsIff(id, w, 10);
  }

  lemma NoneOutside(w: Typing, a: Typing)
    requires a.Keys <= w.Keys
    ensures !Outside(w, a)
  {
  }

  lemma {:induction false} StuckRestarts(id: JobId, w: World, k: nat)
    requires Stands(id, w) && Stuck(w.spec.tasks, SlotTypes(id, w.spec.tasks), TypingOf(w.store))
    ensures !AlwaysRestarts(id, w, k)
  {
    hide *;
    StuckLoops(w.spec.tasks, SlotTypes(id, w.spec.tasks), TypingOf(w.store));
    StuckFails(w.spec.tasks, SlotTypes(id, w.spec.tasks), TypingOf(w.store), FailedNames(w.spec, w.store));
    LeftIs(id, w.spec, w.store);
    FailsForEver(id, w, k);
  }

  lemma StuckFails(tasks: seq<Task>, w: Typing, a: Typing, f: set<string>)
    requires Loops(tasks, w, a)
    ensures Fails(tasks, w, a, f)
  {
    hide Ends, IsTrim, Enough;
  }

  // ---- Rescheduling

  function Goal(spec: Spec): Phase { if Total(spec.tasks) == 0 then Pending else Starting }

  lemma GoalIs(spec: Spec)
    ensures Goal(spec) == (if Total(spec.tasks) == 0 then Pending else Starting) && Goal(spec) != Rescheduling
  {
  }

  /** A job in Rescheduling whose live pods are in range. */
  ghost predicate Reschedules(id: JobId, w: World) {
    && w.status.phase == Rescheduling && Defaulted(w.spec) && !w.spec.preemptible
    && StoreInv(id, w.store) && Standing(id, w.spec, Live(w.store))
  }

  lemma ReschedulesFacts(id: JobId, w: World)
    requires Reschedules(id, w)
    ensures w.status.phase == Rescheduling && Defaulted(w.spec) && !w.spec.preemptible
    ensures StoreInv(id, w.store) && Standing(id, w.spec, Live(w.store))
    ensures Acceptable(w.spec.tasks) && !IsTerminal(w.status.phase)
    ensures KeyedByName(w.store) && DistinctNames(w.spec.tasks)
  {
    AcceptableDistinct(w.spec.tasks);
    hide Acceptable, InRange, Built, DistinctRanks;
  }

  lemma ReschedulesIs(id: JobId, w: World)
    ensures Reschedules(id, w) <==>
      && w.status.phase == Rescheduling && Defaulted(w.spec) && !w.spec.preemptible
      && StoreInv(id, w.store) && Standing(id, w.spec, Live(w.store))
  {
  }

  lemma CalmOnLive(spec: Spec, s: Store, t: Store)
    requires Calm(spec, s, t)
    ensures Calm(spec, Live(s), Live(t))
  {
    hide IsPodFailed;
  }

  lemma {:induction false} ReschedulesRound(id: JobId, w: World, list: seq<Pod>, next: World)
    requires Reschedules(id, w) && IsListing(list, w.store) && CalmNext(id, w, list, next)
    ensures IsListing(LivePods(list), Live(w.store))
    ensures var n, l := Undisturbed(id, w, list), Live(w.store);
      && n.spec == next.spec == w.spec && Calm(w.spec, Live(n.store), Live(next.store))
      && n.status.phase == (if |l| == Total(w.spec.tasks) then Goal(w.spec) else Rescheduling)
      && (|l| != Total(w.spec.tasks) ==>
            && Reschedules(id, next) && StoreInv(id, Live(n.store))
            && BalanceStep(id, w.spec, LivePods(list), l, Live(n.store)))
  {
    hide *;
    ReschedulesFacts(id, w);
    LiveListing(list, w.store);
    UndisturbedOutcome(id, w, list);
    RescheduleOutcome(id, w.spec, w.status, list, w.store);
    CalmNextFacts(id, w, list, next);
    var t := Undisturbed(id, w, list).store;
    StandingFacts(id, w.spec, Live(t));
    CalmInv(id, w.spec, t, next.store);
    CalmOnLive(w.spec, t, next.store);
    CalmStanding(id, w.spec, Live(t), Live(next.store));
    StepOf(id, w.spec, LivePods(list), Live(w.store), Live(t));
    ReschedulesIs(id, next);
    GoalIs(w.spec);
  }

  /** The same in terms of typings. */
  lemma {:induction false} ReschedulesStep(id: JobId, w: World, list: seq<Pod>, next: World)
    requires Reschedules(id, w) && IsListing(list, w.store) && CalmNext(id, w, list, next)
    requires |Live(w.store)| != Total(w.spec.tasks)
    ensures var ty := SlotTypes(id, w.spec.tasks);
      && |ty| == Total(w.spec.tasks) && |TypingOf(Live(w.store))| == |Live(w.store)|
      && |TypingOf(Live(next.store))| == |Live(next.store)|
      && Step(w.spec.tasks, ty, TypingOf(Live(w.store)), TypingOf(Live(next.store)))
  {
    hide *;
    var l, t := Live(w.store), Live(Undisturbed(id, w, list).store);
    ReschedulesFacts(id, w);
    ReschedulesRound(id, w, list, next);
    CalmTyping(w.spec, t, Live(next.store));
    SlotTypesSize(id, w.spec.tasks);
    TypingSize(l);
    TypingSize(Live(next.store));
    StepTyping(id, w.spec, LivePods(list), l, t);
  }

  lemma {:induction false} SurelySettles(id: JobId, ws: seq<World>, lists: seq<seq<Pod>>)
    requires CalmRun(id, ws, lists) && Reschedules(id, ws[0]) && !MayLoop(id, ws[0].spec, Live(ws[0].store))
    requires |lists| > Left(id, ws[0].spec, Live(ws[0].store))
    ensures Reaches(id, ws, lists, Goal(ws[0].spec))
    decreases |ws|
  {
    hide *;
    RunFacts(id, ws, lists);
    var w, l := ws[0], Live(ws[0].store);
    ReschedulesRound(id, w, lists[0], ws[1]);
    if |l| == Total(w.spec.tasks) {
      ReachesFirst(id, ws, lists, Goal(w.spec));
    } else {
      ReschedulesStep(id, w, lists[0], ws[1]);
      LeftIs(id, w.spec, l);
      LeftIs(id, w.spec, Live(ws[1].store));
      StepProgress(w.spec.tasks, SlotTypes(id, w.spec.tasks), TypingOf(l), TypingOf(Live(ws[1].store)));
      CalmRest(id, ws, lists);
      SurelySettles(id, ws[1..], lists[1..]);
      ReachesLater(id, ws, lists, Goal(w.spec));
    }
  }

  /** Every calm run of at least k reconciles leaves for Starting, or for Pending
      without replicas. */
  ghost predicate AlwaysSettles(id: JobId, w: World, k: nat) {
    forall ws, lists | CalmRun(id, ws, lists) && ws[0] == w && |lists| >= k :: Reaches(id, ws, lists, Goal(w.spec))
  }

  /** A round of a job that may loop, after which it may still loop. */
  lemma {:induction false} LoopingRound(id: JobId, w: World) returns (list: seq<Pod>, next: World)
    requires Reschedules(id, w) && MayLoop(id, w.spec, Live(w.store))
    ensures IsListing(list, w.store) && CalmNext(id, w, list, next)
    ensures Undisturbed(id, w, list).status.phase == Rescheduling
    ensures Reschedules(id, next) && next.spec == w.spec && MayLoop(id, w.spec, Live(next.store))
  {
    hide *;
    var tasks, ty, a := w.spec.tasks, SlotTypes(id, w.spec.tasks), TypingOf(Live(w.store));
    ReschedulesFacts(id, w);
    SlotTypesSize(id, tasks);
    TypingSize(Live(w.store));
    LeftIs(id, w.spec, Live(w.store));
    var k: Typing := map[];
    if |a| > |ty| {
      k := LoopingTrim(tasks, ty, a);
      list := TrimListing(tasks, w.store, k);
    } else {
      list := AnyListing(w.store);
      LoopingFill(tasks, ty, a);
    }
    next := Undisturbed(id, w, list);
    CalmUndisturbed(id, w, list);
    ReschedulesRound(id, w, list, next);
    ReschedulesStep(id, w, list, next);
    StepOf(id, w.spec, LivePods(list), Live(w.store), Live(next.store));
    StepIs(tasks, ty, a, TypingOf(Live(next.store)));
    LeftIs(id, w.spec, Live(next.store));
  }

  lemma LoopingFill(tasks: seq<Task>, w: Typing, a: Typing)
    requires |a| <= |w| && Loops(tasks, w, a)
    ensures |a| < |w| && Loops(tasks, w, w + a)
  {
    hide IsTrim, Enough, Outside;
    FillLoops(tasks, w, a);
  }

  lemma LoopingTrim(tasks: seq<Task>, w: Typing, a: Typing) returns (k: Typing)
    requires |a| > |w| && Loops(tasks, w, a)
    ensures IsTrim(tasks, a, k)
    ensures |k| <= |w| && (|k| == |w| <==> Enough(tasks, a)) ==> Loops(tasks, w, k)
  {
    hide IsTrim, Enough, Outside;
    k :| IsTrim(tasks, a, k) && Outside(w, k) && !Enough(tasks, w + k);
    if |k| < |w| {
      TrimLoops(tasks, w, a, k);
    }
  }

  lemma {:induction false} ReschedulesForEver(id: JobId, w: World, k: nat)
    returns (ws: seq<World>, lists: seq<seq<Pod>>)
    requires Reschedules(id, w) && MayLoop(id, w.spec, Live(w.store))
    ensures CalmRun(id, ws, lists) && ws[0] == w && |lists| == k && !Reaches(id, ws, lists, Goal(w.spec))
    decreases k
  {
    hide *;
    GoalIs(w.spec);
    if k == 0 {
      ws, lists := [w], [];
      RunOfOne(id, w, Goal(w.spec));
    } else {
      var list, next := LoopingRound(id, w);
      var ws', lists' := ReschedulesForEver(id, next, k - 1);
      ws, lists := [w] + ws', [list] + lists';
      RunFacts(id, ws', lists');
      CalmCons(id, w, list, ws', lists');
      ReachesCons(id, w, list, ws', lists', Goal(w.spec));
    }
  }

  /** Undisturbed, a job in Rescheduling whose live pods are in range, whatever their
      types, leaves it in every case if and only if filling and trimming do not loop in
      the sense of Typings.Loops. Five reconciles are enough. */
  lemma {:induction false} AlwaysSettlesIff(id: JobId, w: World, k: nat)
    requires Reschedules(id, w) && k > Left(id, w.spec, Live(w.store))
    ensures AlwaysSettles(id, w, k) <==> !MayLoop(id, w.spec, Live(w.store))
    ensures Left(id, w.spec, Live(w.store)) <= 4
  {
    hide Reschedules, CalmNext, IsListing, Reaches, MayLoop, Left, Live;
    LeftIs(id, w.spec, Live(w.store));
    if MayLoop(id, w.spec, Live(w.store)) {
      var ws, lists := ReschedulesForEver(id, w, k);
      assert CalmRun(id, ws, lists) && ws[0] == w;
    } else {
      forall ws, lists | CalmRun(id, ws, lists) && ws[0] == w && |lists| >= k
        ensures Reaches(id, ws, lists, Goal(w.spec))
      {
        SurelySettles(id, ws, lists);
      }
    }
  }

  /** Without a choice, if pods in slots have the type of their task or quotas fall
      short; four reconciles are enough. */
  lemma {:induction false} TypedSettlesIff(id: JobId, w: World, k: nat)
    requires Reschedules(id, w) && k >= 4
    requires QuotasCover(w.spec.tasks) ==> Agrees(SlotTypes(id, w.spec.tasks), TypingOf(Live(w.store)))
    ensures AlwaysSettles(id, w, k) <==>
      ComesToRest(id, w.spec, Live(w.store)) || |Live(w.store)| == Total(w.spec.tasks)
  {
    hide *;
    var tasks, ty, a := w.spec.tasks, SlotTypes(id, w.spec.tasks), TypingOf(Live(w.store));
    ReschedulesFacts(id, w);
    SlotsAskFor(id, tasks);
    SlotTypesSize(id, tasks);
    TypingSize(Live(w.store));
    LeftIs(id, w.spec, Live(w.store));
    LoopsIff(tasks, ty, a);
    if MayLoop(id, w.spec, Live(w.store)) {
      NeverSettles(id, w, k);
    } else {
      AlwaysSettlesIff(id, w, k);
    }
  }

  lemma {:induction false} NeverSettles(id: JobId, w: World, k: nat)
    requires Reschedules(id, w) && MayLoop(id, w.spec, Live(w.store))
    ensures !AlwaysSettles(id, w, k)
  {
    var ws, lists := ReschedulesForEver(id, w, k);
    assert CalmRun(id, ws, lists) && ws[0] == w && |lists| >= k;
  }

  lemma {:induction false} StuckSettles(id: JobId, w: World, k: nat)
    requires Reschedules(id, w) && Stuck(w.spec.tasks, SlotTypes(id, w.spec.tasks), TypingOf(Live(w.store)))
    ensures !AlwaysSettles(id, w, k)
  {
    hide *;
    StuckLoops(w.spec.tasks, SlotTypes(id, w.spec.tasks), TypingOf(Live(w.store)));
    LeftIs(id, w.spec, Live(w.store));
    NeverSettles(id, w, k);
  }

  /** Live pods that stand in slots, whatever their types. */
  lemma SlotsSettle(id: JobId, w: World)
    requires Reschedules(id, w) && Live(w.store).Keys <= SpecNames(id, w.spec.tasks)
    ensures AlwaysSettles(id, w, 5)
  {
    hide *;
    ReschedulesFacts(id, w);
    SlotTypesSize(id, w.spec.tasks);
    TypingSize(Live(w.store));
    NoneOutside(SlotTypes(id, w.spec.tasks), TypingOf(Live(w.store)));
    InSlotsRest(w.spec.tasks, SlotTypes(id, w.spec.tasks), TypingOf(Live(w.store)));
    LeftIs(id, w.spec, Live(w.store));
    AlwaysSettlesIff(id, w, 5);
  }

  // ---- two failing inputs

  /** Two tasks of type none, one of which was renamed, and a pod of the old name. */
  lemma RenamedTask(id: JobId, w: World, n: string, k: nat)
    requires Stands(id, w) && n in w.store && |w.store| != 2
    requires w.spec.tasks == [Task(1, TASK_TYPE_NONE, "b"), Task(1, TASK_TYPE_NONE, "c")]
    requires w.store[n].meta.taskName == "a" && w.store[n].meta.taskType == TASK_TYPE_NONE
    ensures !AlwaysRestarts(id, w, k)
  {
    var tasks, ty, a := w.spec.tasks, SlotTypes(id, w.spec.tasks), TypingOf(w.store);
    StandsPod(id, w, n);
    NotASlot(id, tasks, w.store[n]);
    TypingSize(w.store);
    hide *;
    StandsFacts(id, w);
    SlotTypesSize(id, tasks);
    RenamedLoops(tasks, ty, a, n);
    StuckFails(tasks, ty, a, FailedNames(w.spec, w.store));
    LeftIs(id, w.spec, w.store);
    FailsForEver(id, w, k);
  }

  lemma StandsPod(id: JobId, w: World, n: string)
    requires Stands(id, w) && n in w.store
    ensures Built(id, w.store[n]) && w.store[n].meta.name == n
    ensures n in TypingOf(w.store) && TypingOf(w.store)[n] == w.store[n].meta.taskType
  {
    hide InRange, Acceptable, RankOf, Defaulted;
  }

  lemma RenamedLoops(tasks: seq<Task>, w: Typing, a: Typing, n: string)
    requires tasks == [Task(1, TASK_TYPE_NONE, "b"), Task(1, TASK_TYPE_NONE, "c")] && |w| == Total(tasks)
    requires |a| != 2 && n in a && a[n] == TASK_TYPE_NONE && n !in w
    ensures Loops(tasks, w, a)
  {
    assert Total(tasks) == 2 by {
      assert Offset(tasks, 1) == 1;
    }
    assert Occurs(tasks, 1, tasks[0].taskType) by {
      assert tasks[1].taskType == tasks[0].taskType;
    }
    assert !QuotasCover(tasks);
    QuotaOfLast(tasks, 1);
    assert !Harmless(tasks, w, a);
    hide *;
    HarmfulLoops(tasks, w, a);
  }

  lemma NotASlot(id: JobId, tasks: seq<Task>, p: Pod)
    requires Built(id, p) && forall t | t in tasks :: t.name != p.meta.taskName
    ensures p.meta.name !in SpecNames(id, tasks)
  {
    hide SlotName, Built;
    forall s | s in Slots(tasks) && s.task < |tasks| ensures SlotName(id, tasks, s) != p.meta.name {
      assert tasks[s.task] in tasks;
      OccupiesIff(id, tasks, p, s);
    }
  }

  /** Three tasks of three types. */
  ghost predicate ThreeTypes(tasks: seq<Task>) {
    tasks == [Task(1, "learner", "a"), Task(1, "collector", "b"), Task(1, "evaluator", "c")]
  }

  /** A live pod of a task, labelled with a type. */
  ghost function LivePod(id: JobId, taskName: string, taskType: string, rank: nat): Pod {
    var name := ReplicaName(id.name, taskName, 0);
    Pod(Meta(name, taskType, taskName, Itoa(3), Itoa(rank), "", Itoa(0)),
        PodSpec("", name, SvcName(id.name), Env("", "", "")),
        FRESH_STATUS)
  }

  lemma LivePodBuilt(id: JobId, taskName: string, taskType: string, rank: nat)
    ensures var p := LivePod(id, taskName, taskType, rank);
      && Built(id, p) && IsPodLive(p) && RankOf(p) == rank && LocalRankOf(p) == 0
      && p.meta.name == ReplicaName(id.name, taskName, 0)
      && p.meta.taskName == taskName && p.meta.taskType == taskType
  {
    AtoiItoa(rank);
    AtoiItoa(0);
  }

  /** Of the pods there are a-0, labelled collector, and x-0, labelled evaluator. */
  ghost predicate Exchanged(id: JobId, s: Store) {
    var m, n := ReplicaName(id.name, "a", 0), ReplicaName(id.name, "x", 0);
    TypingOf(s) == map[m := "collector", n := "evaluator"] && n in s && s[n].meta.taskName == "x"
  }

  lemma ExchangedIs(id: JobId, s: Store)
    ensures var m, n := ReplicaName(id.name, "a", 0), ReplicaName(id.name, "x", 0);
      Exchanged(id, s) <==>
        TypingOf(s) == map[m := "collector", n := "evaluator"] && n in s && s[n].meta.taskName == "x"
  {
    hide TypingOf, ReplicaName;
  }

  /** All types are distinct, so that the quotas cover the replicas, and still Restarting
      need not end. The types of a and b were exchanged while a-0 was there, and c was
      named x before: b-0 and c-0 are created, which makes four pods, and deleted
      again when a-0 and x-0 are listed first. */
  lemma EditedTypes(id: JobId, w: World, k: nat)
    requires Stands(id, w) && ThreeTypes(w.spec.tasks) && Exchanged(id, w.store)
    ensures QuotasCover(w.spec.tasks) && !AlwaysRestarts(id, w, k)
  {
    hide *;
    var tasks, a := w.spec.tasks, TypingOf(w.store);
    var m, n := ReplicaName(id.name, "a", 0), ReplicaName(id.name, "x", 0);
    ExchangedIs(id, w.store);
    TypingSize(w.store);
    StandsPod(id, w, n);
    TwoNames(id, m, n);
    ThreeFacts(tasks);
    NotASlot(id, tasks, w.store[n]);
    ThreeSlots(id, tasks, m);
    TwoPods(a, m, n);
    StandsFacts(id, w);
    SlotTypesSize(id, tasks);
    ThreeStuck(tasks, SlotTypes(id, tasks), a, m, n);
    StuckRestarts(id, w, k);
  }

  /** There is such a job. */
  lemma {:induction false} EditedTypesOccur(id: JobId) returns (w: World)
    ensures Stands(id, w) && ThreeTypes(w.spec.tasks) && Exchanged(id, w.store)
  {
    var tasks := [Task(1, "learner", "a"), Task(1, "collector", "b"), Task(1, "evaluator", "c")];
    var p, q := LivePod(id, "a", "collector", 0), LivePod(id, "x", "evaluator", 1);
    var s: Store := map[p.meta.name := p, q.meta.name := q];
    var spec := Spec(CleanNone, false, None, tasks);
    w := World(s, spec, Status(Restarting, [], Profilings, 0, 0, [], 0, 0, map[]), 0, 0, 0, 0);
    assert ThreeTypes(tasks);
    hide *;
    LivePodBuilt(id, "a", "collector", 0);
    LivePodBuilt(id, "x", "evaluator", 1);
    TwoNames(id, p.meta.name, q.meta.name);
    ThreeFacts(tasks);
    TwoInv(id, p, q, s);
    ThreeInRange(tasks, p);
    ThreeInRange(tasks, q);
    TwoStanding(id, spec, p, q, s);
    TwoTyped(p, q, s);
    ExchangedIs(id, s);
    StandsIs(id, w);
  }

  lemma TwoStanding(id: JobId, spec: Spec, p: Pod, q: Pod, s: Store)
    requires Acceptable(spec.tasks) && StoreInv(id, s) && s == map[p.meta.name := p, q.meta.name := q]
    requires IsPodLive(p) && IsPodLive(q) && InRange(spec.tasks, p) && InRange(spec.tasks, q)
    ensures Standing(id, spec, s)
  {
    hide Acceptable, StoreInv, IsPodLive, InRange;
  }

  lemma TwoTyped(p: Pod, q: Pod, s: Store)
    requires s == map[p.meta.name := p, q.meta.name := q] && p.meta.name != q.meta.name
    ensures TypingOf(s) == map[p.meta.name := p.meta.taskType, q.meta.name := q.meta.taskType]
    ensures q.meta.name in s && s[q.meta.name] == q
  {
  }

  lemma TwoInv(id: JobId, p: Pod, q: Pod, s: Store)
    requires Built(id, p) && Built(id, q) && RankOf(p) != RankOf(q) && p.meta.name != q.meta.name
    requires s == map[p.meta.name := p, q.meta.name := q]
    ensures StoreInv(id, s)
  {
    hide Built, RankOf;
  }

  lemma ThreeInRange(tasks: seq<Task>, p: Pod)
    requires ThreeTypes(tasks) && LocalRankOf(p) == 0
    ensures InRange(tasks, p)
  {
    hide LocalRankOf;
  }

  lemma TwoNames(id: JobId, m: string, n: string)
    requires m == ReplicaName(id.name, "a", 0) && n == ReplicaName(id.name, "x", 0)
    ensures m != n
  {
    if m == n {
      ReplicaNameInjective(id.name, "a", 0, "x", 0);
    }
  }

  lemma ThreeFacts(tasks: seq<Task>)
    requires ThreeTypes(tasks)
    ensures Acceptable(tasks) && DistinctNames(tasks) && QuotasCover(tasks) && Total(tasks) == 3
    ensures Defaulted(Spec(CleanNone, false, None, tasks))
    ensures forall t | t in tasks :: t.name != "x"
  {
    assert Offset(tasks, 1) == 1 && Offset(tasks, 2) == 2;
    assert DefaultNames(tasks) == tasks;
  }

  /** The only slot of a learner is that of a. */
  lemma ThreeSlots(id: JobId, tasks: seq<Task>, m: string)
    requires ThreeTypes(tasks) && DistinctNames(tasks) && m == ReplicaName(id.name, "a", 0)
    ensures forall n | n in SlotTypes(id, tasks) && SlotTypes(id, tasks)[n] == "learner" :: n == m
  {
    assert forall c | InSpec(tasks, c) && tasks[c.task].taskType == "learner" :: c == Slot(0, 0);
    assert InSpec(tasks, Slot(0, 0)) && SlotName(id, tasks, Slot(0, 0)) == m;
    hide *;
    SlotTypesSize(id, tasks);
    forall n | n in SlotTypes(id, tasks) && SlotTypes(id, tasks)[n] == "learner" ensures n == m {
      var c := SlotOf(id, tasks, n);
      SlotTypeIs(id, tasks, c);
    }
  }

  lemma TwoPods(a: Typing, m: string, n: string)
    requires m != n && a == map[m := "collector", n := "evaluator"]
    ensures |a| == 2 && Typed(a, "learner") == {}
    ensures forall t :: Count(a, t) == if t == "collector" || t == "evaluator" then 1 else 0
  {
    var none: Typing := map[];
    var one := none[m := "collector"];
    assert a == one[n := "evaluator"];
    hide Count;
    forall t ensures Count(a, t) == if t == "collector" || t == "evaluator" then 1 else 0 {
      CountMore(none, m, "collector", t);
      CountMore(one, n, "evaluator", t);
      CountIs(none, t);
      assert Typed(none, t) == {};
    }
  }

  lemma ThreeStuck(tasks: seq<Task>, w: Typing, a: Typing, m: string, n: string)
    requires ThreeTypes(tasks) && |w| == 3 && |a| == 2 && m in a && n in a && n !in w
    requires forall c | c in w && w[c] == "learner" :: c == m
    requires Typed(a, "learner") == {}
    requires forall t :: Count(a, t) == if t == "collector" || t == "evaluator" then 1 else 0
    ensures Stuck(tasks, w, a)
  {
    assert Typed(w + a, "learner") == {} by {
      forall c | c in w + a ensures (w + a)[c] != "learner" {
        assert c in a ==> c !in Typed(a, "learner");
      }
    }
    assert tasks[0].taskType == "learner" && !Occurs(tasks, 1, "learner");
    assert !Enough(tasks, w + a);
    QuotaOfLast(tasks, 1);
    QuotaOfLast(tasks, 2);
    StrangersFill(w, a);
    hide Strangers, Count, Enough, Quotas, Occurs;
    forall t ensures Count(Strangers(w, a), t) <= QuotaOf(tasks, t) {
      CountWithin(Strangers(w, a), a, t);
    }
  }
}
