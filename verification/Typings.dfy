/** Filling and trimming: what creating missing pods and deleting redundant ones do to
    the names and task types of the live pods. Only these decide whether the two
    come to rest. */
module Typings {
  import opened Api
  import opened Replicas
  import opened Redundancy

  /** The type that each pod is labelled with, by pod name. Below, w is the typing that
      the spec asks for: one pod for each slot, with the type of its task. */
  type Typing = map<string, string>

  ghost function Typed(a: Typing, t: string): set<string> { set n | n in a && a[n] == t }

  ghost function Count(a: Typing, t: string): nat { |Typed(a, t)| }

  /** b is part of a. */
  ghost predicate Within(b: Typing, a: Typing) {
    forall n | n in b :: n in a && a[n] == b[n]
  }

  /** deleteRedundantReplicas would keep exactly `replicas` pods: compare
      EnoughOfEachType. */
  ghost predicate Enough(tasks: seq<Task>, a: Typing) {
    forall l | 0 <= l < |tasks| ::
      if Occurs(tasks, l + 1, tasks[l].taskType) then tasks[l].replicas == 0
      else Count(a, tasks[l].taskType) >= tasks[l].replicas
  }

  function QuotaOf(tasks: seq<Task>, t: string): nat { Quota(Quotas(tasks), t) }

  /** b is what deleting may leave of a, depending on the order of the listing: of
      each type as many pods as its quota allows. */
  ghost predicate IsTrim(tasks: seq<Task>, a: Typing, b: Typing) {
    Within(b, a) && forall t :: Count(b, t) == Min(Count(a, t), QuotaOf(tasks, t))
  }

  /** Some pod stands in no slot. */
  ghost predicate Outside(w: Typing, a: Typing) { exists n :: n in a && n !in w }

  /** One step: missing slots are filled, or redundant pods deleted. */
  ghost predicate Step(tasks: seq<Task>, w: Typing, a: Typing, b: Typing) {
    && (|a| < |w| ==> b == w + a)
    && (|a| > |w| ==> IsTrim(tasks, a, b) && |b| <= |w| && (|b| == |w| <==> Enough(tasks, a)))
  }

  // ---- counting

  lemma Subset(a: set<string>, b: set<string>)
    requires a <= b
    ensures |a| <= |b|
    ensures |a| == |b| ==> a == b
  {
    assert b == a + (b - a);
  }

  lemma CountWithin(a: Typing, b: Typing, t: string)
    requires Within(a, b)
    ensures Typed(a, t) <= Typed(b, t) && Count(a, t) <= Count(b, t)
  {
    Subset(Typed(a, t), Typed(b, t));
  }

  lemma WithinFill(w: Typing, a: Typing)
    ensures Within(a, w + a)
  {
  }

  lemma EnoughMore(tasks: seq<Task>, a: Typing, b: Typing)
    requires Within(a, b) && Enough(tasks, a)
    ensures Enough(tasks, b)
  {
    hide Occurs, Count, Within;
    forall l | 0 <= l < |tasks| ensures Count(b, tasks[l].taskType) >= Count(a, tasks[l].taskType) {
      CountWithin(a, b, tasks[l].taskType);
    }
  }

  lemma FillSize(w: Typing, a: Typing)
    ensures (w + a).Keys == w.Keys + a.Keys && |w + a| >= |w|
    ensures Outside(w, w + a) <==> Outside(w, a)
    ensures Outside(w, a) <==> |w + a| > |w|
    ensures |a| > |w| ==> Outside(w, a)
  {
    var x := w + a;
    assert |x| == |x.Keys| && |w| == |w.Keys| && |a| == |a.Keys|;
    Subset(w.Keys, x.Keys);
    if !Outside(w, a) {
      assert a.Keys <= w.Keys;
      Subset(a.Keys, w.Keys);
      assert x.Keys == w.Keys;
    } else {
      var n :| n in a && n !in w;
      Subset(w.Keys + {n}, x.Keys);
    }
  }

  /** A trim is determined by any part of it that is a trim already. */
  lemma TrimUnique(tasks: seq<Task>, x: Typing, k: Typing, b: Typing)
    requires IsTrim(tasks, x, k) && IsTrim(tasks, x, b) && Within(k, b)
    ensures k == b
  {
    hide QuotaOf;
    forall n | n in b ensures n in k {
      var t := b[n];
      CountWithin(k, b, t);
      Subset(Typed(k, t), Typed(b, t));
      assert Count(k, t) == Count(b, t);
      assert n in Typed(b, t);
    }
    assert k.Keys == b.Keys;
  }

  ghost predicate WithinQuotas(tasks: seq<Task>, z: Typing) {
    forall t :: Count(z, t) <= QuotaOf(tasks, t)
  }

  /** Anything within the quotas can be kept. */
  lemma {:induction false} TrimExists(tasks: seq<Task>, x: Typing, z: Typing) returns (k: Typing)
    requires Within(z, x) && WithinQuotas(tasks, z)
    ensures IsTrim(tasks, x, k) && Within(z, k)
    decreases |x.Keys - z.Keys|
  {
    hide QuotaOf, Count, WithinQuotas, IsTrim;
    if n :| n in x && n !in z && Count(z, x[n]) < QuotaOf(tasks, x[n]) {
      QuotasMore(tasks, z, n, x[n]);
      FewerLeft(x, z, n);
      k := TrimExists(tasks, x, z[n := x[n]]);
    } else {
      k := z;
      TrimFull(tasks, x, z);
    }
  }

  lemma QuotasMore(tasks: seq<Task>, z: Typing, n: string, u: string)
    requires WithinQuotas(tasks, z) && n !in z && Count(z, u) < QuotaOf(tasks, u)
    ensures WithinQuotas(tasks, z[n := u])
  {
    hide QuotaOf, Count;
    forall t ensures Count(z[n := u], t) <= QuotaOf(tasks, t) {
      CountMore(z, n, u, t);
    }
  }

  lemma FewerLeft(x: Typing, z: Typing, n: string)
    requires n in x && n !in z
    ensures |x.Keys - z[n := x[n]].Keys| < |x.Keys - z.Keys|
  {
    assert x.Keys - z.Keys == (x.Keys - z[n := x[n]].Keys) + {n};
  }

  lemma CountMore(z: Typing, n: string, u: string, t: string)
    requires n !in z
    ensures Count(z[n := u], t) == Count(z, t) + if u == t then 1 else 0
  {
    assert Typed(z[n := u], t) == Typed(z, t) + if u == t then {n} else {};
  }

  lemma TrimFull(tasks: seq<Task>, x: Typing, z: Typing)
    requires Within(z, x) && WithinQuotas(tasks, z)
    requires forall n | n in x && n !in z :: Count(z, x[n]) >= QuotaOf(tasks, x[n])
    ensures IsTrim(tasks, x, z)
  {
    hide QuotaOf, Count;
    forall t ensures Count(z, t) == Min(Count(x, t), QuotaOf(tasks, t)) {
      CountWithin(z, x, t);
      if Count(z, t) < QuotaOf(tasks, t) {
        assert Typed(x, t) == Typed(z, t);
        CountIs(x, t);
        CountIs(z, t);
      }
    }
  }

  lemma CountIs(a: Typing, t: string)
    ensures Count(a, t) == |Typed(a, t)|
  {
  }

  // ---- when steps go on for ever

  ghost function Opened(w: Typing, a: Typing): Typing { if |a| < |w| then w + a else a }

  /** Steps can go on for ever without reaching `replicas` pods: the first deletion
      falls short of them, and can keep a pod that stands in no slot and leave pods
      such that the next deletion falls short, too. */
  ghost predicate Loops(tasks: seq<Task>, w: Typing, a: Typing) {
    var x := Opened(w, a);
    && |a| != |w| && !Enough(tasks, x)
    && exists k :: IsTrim(tasks, x, k) && Outside(w, k) && !Enough(tasks, w + k)
  }

  /** Pods that stand in no slot, or with another type than their slot's task. */
  ghost function Strangers(w: Typing, a: Typing): Typing {
    map n | n in a && (n !in w || w[n] != a[n]) :: a[n]
  }

  lemma StrangersFill(w: Typing, a: Typing)
    ensures w + Strangers(w, a) == w + a && Within(Strangers(w, a), a)
  {
  }

  lemma KeepsStrangers(w: Typing, a: Typing, k: Typing)
    requires Within(Strangers(w, a), k) && (Within(k, a) || Within(k, w + a))
    ensures w + k == w + a
  {
    var x, y := w + k, w + a;
    assert x.Keys == y.Keys by {
      assert forall n | n in a :: n in Strangers(w, a) || n in w;
    }
    forall n | n in x ensures x[n] == y[n] {
      if n in k {
      } else if n in a {
        assert n !in Strangers(w, a);
      }
    }
  }

  /** A condition without a choice: the strangers of each type are within its quota,
      one of them stands in no slot, and with all slots filled a deletion falls short.
      For instance, some type has fewer strangers than slots that strangers hold. */
  ghost predicate Stuck(tasks: seq<Task>, w: Typing, a: Typing) {
    && |a| != |w| && Outside(w, a) && !Enough(tasks, w + a)
    && WithinQuotas(tasks, Strangers(w, a))
  }

  lemma StuckLoops(tasks: seq<Task>, w: Typing, a: Typing)
    requires Stuck(tasks, w, a)
    ensures Loops(tasks, w, a)
  {
    hide QuotaOf, Occurs, Count;
    var x, z := Opened(w, a), Strangers(w, a);
    StrangersFill(w, a);
    WithinFill(w, a);
    if |a| > |w| && Enough(tasks, a) {
      EnoughMore(tasks, a, w + a);
    }
    var k := TrimExists(tasks, x, z);
    hide Enough, IsTrim;
    assert IsTrim(tasks, x, k) && Within(k, x) by {
      TrimWithin(tasks, x, k);
    }
    KeepsStrangers(w, a, k);
    var n :| n in a && n !in w;
    assert n in z && n in k;
  }

  lemma TrimWithin(tasks: seq<Task>, x: Typing, k: Typing)
    requires IsTrim(tasks, x, k)
    ensures Within(k, x) && WithinQuotas(tasks, k)
  {
    hide QuotaOf, Count;
  }

  /** What a deletion keeps is within the quotas, so that it is stuck if it can go on. */
  lemma TrimLoops(tasks: seq<Task>, w: Typing, x: Typing, k: Typing)
    requires IsTrim(tasks, x, k) && |k| < |w| && Outside(w, k) && !Enough(tasks, w + k)
    ensures Loops(tasks, w, k)
  {
    hide QuotaOf, Enough, IsTrim;
    TrimWithin(tasks, x, k);
    StrangersFill(w, k);
    forall t ensures Count(Strangers(w, k), t) <= QuotaOf(tasks, t) {
      assert Count(k, t) <= QuotaOf(tasks, t);
      CountWithin(Strangers(w, k), k, t);
    }
    StuckLoops(tasks, w, k);
  }

  lemma FillLoops(tasks: seq<Task>, w: Typing, a: Typing)
    requires |a| < |w|
    ensures |w + a| > |w| ==> (Loops(tasks, w, a) <==> Loops(tasks, w, w + a))
    ensures Loops(tasks, w, a) ==> |w + a| > |w|
  {
    hide QuotaOf, Enough, Count;
    FillSize(w, a);
    if Loops(tasks, w, a) {
      var k :| IsTrim(tasks, w + a, k) && Outside(w, k) && !Enough(tasks, w + k);
      TrimWithin(tasks, w + a, k);
      var n :| n in k && n !in w;
      assert n in a;
    }
  }

  // ---- when they do not

  /** No pod that stands in no slot has a type with quota. */
  ghost predicate Harmless(tasks: seq<Task>, w: Typing, a: Typing) {
    forall n | n in a && n !in w :: QuotaOf(tasks, a[n]) == 0
  }

  /** The steps to `replicas` pods, if they do not go on for ever. */
  ghost function TrimsLeft(tasks: seq<Task>, w: Typing, x: Typing): nat {
    if Enough(tasks, x) then 1 else if Harmless(tasks, w, x) then 2 else 3
  }

  ghost function StepsLeft(tasks: seq<Task>, w: Typing, a: Typing): nat {
    if |a| == |w| then 0
    else if |a| > |w| then TrimsLeft(tasks, w, a)
    else if !Outside(w, a) then 1
    else 1 + TrimsLeft(tasks, w, w + a)
  }

  lemma HarmlessTrim(tasks: seq<Task>, w: Typing, x: Typing, k: Typing)
    requires IsTrim(tasks, x, k) && Harmless(tasks, w, x)
    ensures !Outside(w, k)
  {
    hide QuotaOf;
    forall n | n in k ensures QuotaOf(tasks, k[n]) > 0 {
      assert n in Typed(k, k[n]);
      assert Count(k, k[n]) > 0;
    }
  }

  /** A step of a typing that does not loop comes closer to `replicas` pods and does
      not loop. */
  lemma StepProgress(tasks: seq<Task>, w: Typing, a: Typing, b: Typing)
    requires |a| != |w| && Step(tasks, w, a, b) && !Loops(tasks, w, a)
    ensures StepsLeft(tasks, w, b) < StepsLeft(tasks, w, a)
    ensures !Loops(tasks, w, b)
  {
    hide QuotaOf, Count, Harmless, Enough, IsTrim;
    FillSize(w, a);
    FillSize(w, b);
    if |a| < |w| {
      FillLoops(tasks, w, a);
    } else if |b| < |w| {
      FillLoops(tasks, w, b);
      if Harmless(tasks, w, a) {
        HarmlessTrim(tasks, w, a, b);
      }
      assert Outside(w, b) ==> Enough(tasks, w + b);
    }
  }

  lemma FewSteps(tasks: seq<Task>, w: Typing, a: Typing)
    ensures StepsLeft(tasks, w, a) <= 4
  {
    hide Enough, Harmless, Outside;
  }

  /** With no pod out of the slots nothing loops, whatever the types. */
  lemma InSlotsRest(tasks: seq<Task>, w: Typing, a: Typing)
    requires !Outside(w, a)
    ensures !Loops(tasks, w, a)
  {
    hide QuotaOf, Count, Enough;
    FillSize(w, a);
    forall k | IsTrim(tasks, Opened(w, a), k) ensures !Outside(w, k) {
      TrimWithin(tasks, Opened(w, a), k);
    }
  }

  // ---- with failed pods

  /** Steps from a can end with the `replicas` pods u, with the pods g of a among them
      all the time. */
  ghost predicate Ends(tasks: seq<Task>, w: Typing, a: Typing, u: Typing, g: set<string>) {
    var x := Opened(w, a);
    && |a| != |w| && |u| == |w| && g <= u.Keys
    && if |x| == |w| then u == x
       else IsTrim(tasks, x, u) || (!Enough(tasks, x) && EndsLater(tasks, w, x, u, g))
  }

  /** The same after one deletion that falls short. */
  ghost predicate EndsLater(tasks: seq<Task>, w: Typing, x: Typing, u: Typing, g: set<string>) {
    exists k :: IsTrim(tasks, x, k) && g <= k.Keys && if |w + k| == |w| then u == w + k else IsTrim(tasks, w + k, u)
  }

  /** Restarting may not end, with the failed pods f: the steps can go on for ever, or
      can end with pods some of which are failed, and go on for ever when these have
      been deleted. */
  ghost predicate Fails(tasks: seq<Task>, w: Typing, a: Typing, f: set<string>) {
    if |a| == |w| then f != {} && Loops(tasks, w, a - f)
    else
      || Loops(tasks, w, a)
      || exists u, g :: Ends(tasks, w, a, u, g) && g != {} && g <= f && Loops(tasks, w, u - g)
  }

  /** No step makes it fail that did not fail before. */
  lemma FailsBack(tasks: seq<Task>, w: Typing, a: Typing, b: Typing, f: set<string>, g: set<string>)
    requires |a| != |w| && Step(tasks, w, a, b) && g <= f && g <= b.Keys && !Fails(tasks, w, a, f)
    ensures !Fails(tasks, w, b, g)
  {
    hide QuotaOf, Count, Enough, IsTrim, Loops, Ends;
    StepProgress(tasks, w, a, b);
    if |b| == |w| {
      EndsNow(tasks, w, a, b, g);
    } else {
      forall u, h | Ends(tasks, w, b, u, h) && h != {} && h <= g ensures !Loops(tasks, w, u - h) {
        EndsBack(tasks, w, a, b, u, h, g);
      }
    }
  }

  lemma EndsNow(tasks: seq<Task>, w: Typing, a: Typing, b: Typing, g: set<string>)
    requires |a| != |w| && Step(tasks, w, a, b) && |b| == |w| && g <= b.Keys
    ensures Ends(tasks, w, a, b, g)
  {
    hide QuotaOf, Count, Enough, IsTrim;
  }

  lemma EndsBack(tasks: seq<Task>, w: Typing, a: Typing, b: Typing, u: Typing, h: set<string>, g: set<string>)
    requires |a| != |w| && Step(tasks, w, a, b) && !Loops(tasks, w, a)
    requires Ends(tasks, w, b, u, h) && h <= g <= b.Keys
    ensures Ends(tasks, w, a, u, h)
  {
    hide QuotaOf, Count, Enough, IsTrim;
    FillSize(w, a);
    FillSize(w, b);
    if |a| > |w| {
      // b fell short, so filling it leaves enough, or no pod out of the slots
      assert |b| < |w| && Opened(w, b) == w + b;
      assert Outside(w, b) ==> Enough(tasks, w + b);
      assert EndsLater(tasks, w, a, u, h);
    }
  }

  lemma FailedDeleted(tasks: seq<Task>, w: Typing, a: Typing, f: set<string>)
    requires |a| == |w| && f != {} && f <= a.Keys && !Fails(tasks, w, a, f)
    ensures |a - f| < |w| && !Fails(tasks, w, a - f, {})
  {
    hide Loops, Ends;
    FewerThan(a, f);
  }

  /** With no pod out of the slots nothing fails. */
  lemma InSlotsRecover(tasks: seq<Task>, w: Typing, a: Typing, f: set<string>)
    requires !Outside(w, a)
    ensures !Fails(tasks, w, a, f)
  {
    hide QuotaOf, Count, Enough, Loops;
    FillSize(w, a);
    InSlotsRest(tasks, w, a);
    InSlotsRest(tasks, w, a - f);
    forall u, g | Ends(tasks, w, a, u, g) ensures !Loops(tasks, w, u - g) {
      assert u == w + a;
      InSlotsRest(tasks, w, u - g);
    }
  }

  // ---- two cases without a choice

  /** Every pod in a slot has the type of its task. */
  ghost predicate Agrees(w: Typing, a: Typing) { forall n | n in a && n in w :: a[n] == w[n] }

  /** The spec asks for enough pods of every type. */
  ghost predicate AsksFor(tasks: seq<Task>, w: Typing) {
    forall l | 0 <= l < |tasks| :: Count(w, tasks[l].taskType) >= tasks[l].replicas
  }

  /** Quotas cover the replicas and pods in slots have the type of their task, or quotas
      fall short and no pod out of the slots has a type with quota. */
  ghost predicate Balances(tasks: seq<Task>, w: Typing, a: Typing) {
    if QuotasCover(tasks) then Agrees(w, a) else Harmless(tasks, w, a)
  }

  lemma NeverEnough(tasks: seq<Task>, a: Typing)
    requires !QuotasCover(tasks)
    ensures !Enough(tasks, a)
  {
    hide Count, Occurs;
  }

  lemma AgreesEnough(tasks: seq<Task>, w: Typing, a: Typing)
    requires AsksFor(tasks, w) && QuotasCover(tasks) && Agrees(w, a)
    ensures Enough(tasks, w + a)
  {
    hide Count, Occurs;
    assert Within(w, w + a);
    forall l | 0 <= l < |tasks| ensures Count(w + a, tasks[l].taskType) >= tasks[l].replicas {
      CountWithin(w, w + a, tasks[l].taskType);
    }
  }

  lemma BalancesPart(tasks: seq<Task>, w: Typing, a: Typing, b: Typing)
    requires Balances(tasks, w, a) && (Within(b, a) || Within(b, w + a))
    ensures Balances(tasks, w, b)
  {
    hide QuotaOf, QuotasCover;
  }

  lemma BalancesRest(tasks: seq<Task>, w: Typing, a: Typing)
    requires AsksFor(tasks, w) && Balances(tasks, w, a)
    ensures !Loops(tasks, w, a) && StepsLeft(tasks, w, a) <= 3
  {
    hide QuotaOf, Count, Enough, QuotasCover, AsksFor;
    var x := Opened(w, a);
    WithinFill(w, a);
    BalancesPart(tasks, w, a, x);
    forall k | IsTrim(tasks, x, k) && Outside(w, k) ensures Enough(tasks, w + k) {
      TrimWithin(tasks, x, k);
      BalancesPart(tasks, w, x, k);
      if QuotasCover(tasks) {
        AgreesEnough(tasks, w, k);
      } else {
        HarmlessTrim(tasks, w, x, k);
      }
    }
    if QuotasCover(tasks) {
      AgreesEnough(tasks, w, a);
    }
  }

  lemma BalancesRecover(tasks: seq<Task>, w: Typing, a: Typing, f: set<string>)
    requires AsksFor(tasks, w) && Balances(tasks, w, a)
    ensures !Fails(tasks, w, a, f)
  {
    hide QuotaOf, Count, Enough, QuotasCover, AsksFor, Loops, Balances;
    BalancesRest(tasks, w, a);
    BalancesPart(tasks, w, a, a - f);
    BalancesRest(tasks, w, a - f);
    forall u, g | Ends(tasks, w, a, u, g) ensures !Loops(tasks, w, u - g) {
      EndsBalanced(tasks, w, a, u, g);
      BalancesRest(tasks, w, u - g);
    }
  }

  lemma EndsBalanced(tasks: seq<Task>, w: Typing, a: Typing, u: Typing, g: set<string>)
    requires Balances(tasks, w, a) && Ends(tasks, w, a, u, g)
    ensures Balances(tasks, w, u - g)
  {
    hide QuotaOf, Count, Enough, Balances, IsTrim;
    WithinFill(w, a);
    var x := Opened(w, a);
    BalancesPart(tasks, w, a, x);
    if |x| != |w| {
      if IsTrim(tasks, x, u) {
        TrimWithin(tasks, x, u);
        BalancesPart(tasks, w, x, u);
      } else {
        var k :| IsTrim(tasks, x, k) && if |w + k| == |w| then u == w + k else IsTrim(tasks, w + k, u);
        TrimWithin(tasks, x, k);
        BalancesPart(tasks, w, x, k);
        BalancesPart(tasks, w, k, w + k);
        if |w + k| != |w| {
          TrimWithin(tasks, w + k, u);
          BalancesPart(tasks, w, w + k, u);
        }
      }
    }
    BalancesPart(tasks, w, u, u - g);
  }

  // ---- the condition in closed form, when pods have the type of their task

  /** Creating and deleting come to rest, or there are `replicas` pods and none has
      failed, or what is left of them without the failed ones comes to rest. */
  ghost predicate Recovers(tasks: seq<Task>, w: Typing, a: Typing, f: set<string>) {
    Balances(tasks, w, a) || (|a| == |w| && (f == {} || Balances(tasks, w, a - f)))
  }

  lemma HarmfulLoops(tasks: seq<Task>, w: Typing, a: Typing)
    requires |a| != |w| && !QuotasCover(tasks) && !Harmless(tasks, w, a)
    ensures Loops(tasks, w, a)
  {
    hide Count, Enough, QuotasCover, QuotaOf, IsTrim, WithinQuotas;
    var n :| n in a && n !in w && QuotaOf(tasks, a[n]) > 0;
    var x := Opened(w, a);
    var z: Typing := map[n := a[n]];
    OneWithin(tasks, n, a[n]);
    var k := TrimExists(tasks, x, z);
    NeverEnough(tasks, x);
    NeverEnough(tasks, w + k);
  }

  lemma OneWithin(tasks: seq<Task>, n: string, u: string)
    requires QuotaOf(tasks, u) > 0
    ensures WithinQuotas(tasks, map[n := u])
  {
    hide QuotaOf;
    var z: Typing := map[];
    forall t ensures Count(map[n := u], t) <= QuotaOf(tasks, t) {
      CountMore(z, n, u, t);
      assert Typed(z, t) == {};
      assert z[n := u] == map[n := u];
    }
  }

  lemma FailsIff(tasks: seq<Task>, w: Typing, a: Typing, f: set<string>)
    requires AsksFor(tasks, w) && f <= a.Keys && (QuotasCover(tasks) ==> Agrees(w, a))
    ensures Fails(tasks, w, a, f) <==> !Recovers(tasks, w, a, f)
  {
    hide Count, Enough, QuotasCover, AsksFor, Loops, Ends, Harmless;
    if Balances(tasks, w, a) {
      BalancesRecover(tasks, w, a, f);
    } else if |a| != |w| {
      HarmfulLoops(tasks, w, a);
    } else if f != {} {
      if Balances(tasks, w, a - f) {
        BalancesRest(tasks, w, a - f);
      } else {
        FewerThan(a, f);
        HarmfulLoops(tasks, w, a - f);
      }
    }
  }

  lemma FewerThan(a: Typing, f: set<string>)
    requires f != {} && f <= a.Keys
    ensures |a - f| < |a|
  {
    var n :| n in f;
    assert |a| == |a.Keys| && |a - f| == |(a - f).Keys|;
    Subset((a - f).Keys + {n}, a.Keys);
  }

  lemma LoopsIff(tasks: seq<Task>, w: Typing, a: Typing)
    requires AsksFor(tasks, w) && (QuotasCover(tasks) ==> Agrees(w, a))
    ensures Loops(tasks, w, a) <==> !Balances(tasks, w, a) && |a| != |w|
    ensures !Loops(tasks, w, a) ==> StepsLeft(tasks, w, a) <= 3
  {
    hide Enough, QuotasCover, AsksFor, Harmless, Outside;
    AtRest(tasks, w, a);
    if Balances(tasks, w, a) {
      BalancesRest(tasks, w, a);
    } else if |a| != |w| {
      HarmfulLoops(tasks, w, a);
    }
  }

  lemma AtRest(tasks: seq<Task>, w: Typing, a: Typing)
    ensures |a| == |w| ==> StepsLeft(tasks, w, a) == 0
  {
    hide Enough, Harmless, Outside;
  }
}
