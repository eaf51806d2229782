/** pkg/utils/validator.go and the default task names of pkg/context/status.go. */
module Validator {
  import opened Api
  import opened Util
  import opened Pods

  /** What the validator is there to enforce. */
  ghost predicate Acceptable(tasks: seq<Task>) {
    && (forall i, j | 0 <= i < j < |tasks| && tasks[i].taskType == tasks[j].taskType ::
          tasks[i].taskType == TASK_TYPE_NONE)
    && (forall t | t in tasks :: t.taskType == TASK_TYPE_NONE ==> t.name != "")
    && DistinctNames(tasks)
  }

  ghost predicate DistinctNames(tasks: seq<Task>) {
    forall i, j | 0 <= i < j < |tasks| :: tasks[i].name != tasks[j].name
  }

  lemma AcceptableDistinct(tasks: seq<Task>)
    requires Acceptable(tasks)
    ensures DistinctNames(tasks)
  {
  }

  function DefaultName(t: Task): Task {
    if t.name == "" && t.taskType != TASK_TYPE_NONE then t.(name := t.taskType) else t
  }

  /** SetDefaultJobNameInCluster on the local copy of the job. */
  function DefaultNames(tasks: seq<Task>): (r: seq<Task>)
    ensures |r| == |tasks|
  {
    seq(|tasks|, i requires 0 <= i < |tasks| => DefaultName(tasks[i]))
  }

  lemma DefaultNamesIdempotent(tasks: seq<Task>)
    ensures DefaultNames(DefaultNames(tasks)) == DefaultNames(tasks)
  {
  }

  /** What default names make acceptable: types other than none occur once, tasks of
      type none have names, given names are distinct, and no given name is the type of
      a task that gets its type for a name. */
  ghost predicate NamesItself(tasks: seq<Task>) {
    && (forall i, j | 0 <= i < j < |tasks| && tasks[i].taskType == tasks[j].taskType :: tasks[i].taskType == "none")
    && (forall i | 0 <= i < |tasks| && tasks[i].taskType == "none" :: tasks[i].name != "")
    && (forall i, j | 0 <= i < j < |tasks| && tasks[i].name == tasks[j].name :: tasks[i].name == "")
    && (forall i, j | 0 <= i < |tasks| && 0 <= j < |tasks| && tasks[i].name == "" && tasks[j].name != "" ::
          tasks[j].name != tasks[i].taskType)
  }

  lemma DefaultThenValidate(tasks: seq<Task>)
    ensures Acceptable(DefaultNames(tasks)) <==> NamesItself(tasks)
    ensures forall i | 0 <= i < |tasks| ::
      && (tasks[i].name != "" ==> DefaultNames(tasks)[i] == tasks[i])
      && DefaultNames(tasks)[i].taskType == tasks[i].taskType && DefaultNames(tasks)[i].replicas == tasks[i].replicas
  {
    var named := DefaultNames(tasks);
    if NamesItself(tasks) {
      forall t | t in named && t.taskType == TASK_TYPE_NONE ensures t.name != "" {
        var i :| 0 <= i < |named| && named[i] == t;
        assert tasks[i].taskType == "none";
      }
      forall i, j | 0 <= i < j < |tasks| ensures named[i].name != named[j].name {
        NamedApart(tasks, i, j);
      }
    }
    if Acceptable(named) {
      NamesGiven(tasks);
    }
  }

  lemma NamedApart(tasks: seq<Task>, i: nat, j: nat)
    requires NamesItself(tasks) && i < j < |tasks|
    ensures DefaultNames(tasks)[i].name != DefaultNames(tasks)[j].name
  {
    assert tasks[i].name == "" ==> tasks[i].taskType != "none";
    assert tasks[j].name == "" ==> tasks[j].taskType != "none";
  }

  lemma NamesGiven(tasks: seq<Task>)
    requires Acceptable(DefaultNames(tasks))
    ensures NamesItself(tasks)
  {
    var named := DefaultNames(tasks);
    forall i | 0 <= i < |tasks| && tasks[i].taskType == "none" ensures tasks[i].name != "" {
      assert named[i] in named;
    }
    forall i, j | 0 <= i < |tasks| && 0 <= j < |tasks| && tasks[i].name == "" && tasks[j].name != ""
      ensures tasks[j].name != tasks[i].taskType
    {
      assert named[i].name == tasks[i].taskType && named[j].name == tasks[j].name;
      assert if i < j then named[i].name != named[j].name else named[j].name != named[i].name;
    }
    forall i, j | 0 <= i < j < |tasks| && tasks[i].name == tasks[j].name ensures tasks[i].name == "" {
      assert named[i].name != named[j].name;
    }
    forall i, j | 0 <= i < j < |tasks| && tasks[i].taskType == tasks[j].taskType ensures tasks[i].taskType == "none" {
      assert named[i].taskType == named[j].taskType;
    }
  }

  // ---- the counting maps

  function TypesOf(tasks: seq<Task>): seq<string> {
    seq(|tasks|, i requires 0 <= i < |tasks| => tasks[i].taskType)
  }

  function NamesOf(tasks: seq<Task>): seq<string> {
    seq(|tasks|, i requires 0 <= i < |tasks| => tasks[i].name)
  }

  lemma {:induction false} OnceWhenDistinct(xs: seq<string>, x: string)
    requires forall i, j | 0 <= i < j < |xs| && xs[i] == xs[j] :: xs[i] != x
    ensures multiset(xs)[x] <= 1
  {
    if xs != [] {
      var init, last := xs[..|xs| - 1], xs[|xs| - 1];
      assert xs == init + [last];
      OnceWhenDistinct(init, x);
      assert x in init <==> multiset(init)[x] > 0;
    }
  }

  lemma TwiceWhenRepeated(xs: seq<string>, i: nat, j: nat)
    requires i < j < |xs| && xs[i] == xs[j]
    ensures multiset(xs)[xs[i]] >= 2
  {
    assert xs == xs[..j] + xs[j..];
    assert xs[j..] == [xs[j]] + xs[j + 1..];
    assert xs[..j][i] == xs[i];
    assert xs[i] in multiset(xs[..j]);
  }

  /** Counting every label at most once is the same as having no pair of equals. */
  lemma DistinctIffOnce(xs: seq<string>, except: set<string>)
    ensures (forall i, j | 0 <= i < j < |xs| && xs[i] == xs[j] :: xs[i] in except)
       <==> (forall x | x !in except :: multiset(xs)[x] <= 1)
  {
    if forall i, j | 0 <= i < j < |xs| && xs[i] == xs[j] :: xs[i] in except {
      forall x | x !in except ensures multiset(xs)[x] <= 1 {
        OnceWhenDistinct(xs, x);
      }
    } else {
      var i, j :| 0 <= i < j < |xs| && xs[i] == xs[j] && xs[i] !in except;
      TwiceWhenRepeated(xs, i, j);
    }
  }

  lemma AcceptableIff(tasks: seq<Task>)
    ensures Acceptable(tasks) <==>
      && OnceExcept(TypesOf(tasks), {TASK_TYPE_NONE})
      && (forall t | t in tasks :: t.taskType == TASK_TYPE_NONE ==> t.name != "")
      && OnceExcept(NamesOf(tasks), {})
  {
    var types, names := TypesOf(tasks), NamesOf(tasks);
    DistinctIffOnce(types, {TASK_TYPE_NONE});
    DistinctIffOnce(names, {});
    assert forall i | 0 <= i < |tasks| :: types[i] == tasks[i].taskType && names[i] == tasks[i].name;
  }

  datatype Verdict = Accepted | TypeRepeated(taskType: string) | NoneUnnamed | NameRepeated(name: string)

  /** The error the verdict names is really in the spec. */
  ghost predicate Justified(v: Verdict, tasks: seq<Task>) {
    match v
    case Accepted => true
    case TypeRepeated(t) => t != TASK_TYPE_NONE && multiset(TypesOf(tasks))[t] >= 2
    case NoneUnnamed => exists t | t in tasks :: t.taskType == TASK_TYPE_NONE && t.name == ""
    case NameRepeated(n) => multiset(NamesOf(tasks))[n] >= 2
  }

  lemma PrefixCounts(tasks: seq<Task>, i: nat)
    requires i < |tasks|
    ensures TypesOf(tasks[..i + 1]) == TypesOf(tasks[..i]) + [tasks[i].taskType]
    ensures NamesOf(tasks[..i + 1]) == NamesOf(tasks[..i]) + [tasks[i].name]
    ensures TypesOf(tasks) == TypesOf(tasks[..i + 1]) + TypesOf(tasks[i + 1..])
  {
  }

  function Tally(m: map<string, nat>, x: string): nat { if x in m then m[x] else 0 }

  ghost predicate Tallies(m: map<string, nat>, xs: seq<string>) {
    forall x :: Tally(m, x) == multiset(xs)[x]
  }

  ghost predicate OnceExcept(xs: seq<string>, except: set<string>) {
    forall x | x !in except :: multiset(xs)[x] <= 1
  }

  lemma TallyNext(m: map<string, nat>, xs: seq<string>, x: string)
    requires Tallies(m, xs)
    ensures Tallies(m[x := Tally(m, x) + 1], xs + [x])
  {
  }

  lemma NoTasks()
    ensures Tallies(map[], TypesOf([])) && Tallies(map[], NamesOf([])) && OnceExcept(TypesOf([]), {TASK_TYPE_NONE})
  {
  }

  lemma TallyOnce(m: map<string, nat>, xs: seq<string>, x: string, except: set<string>)
    requires Tallies(m, xs + [x]) && OnceExcept(xs, except) && (Tally(m, x) <= 1 || x in except)
    ensures OnceExcept(xs + [x], except)
  {
    assert forall y | y != x :: multiset(xs + [x])[y] == multiset(xs)[y];
    assert multiset(xs + [x])[x] == Tally(m, x);
  }

  lemma TalliedTwice(m: map<string, nat>, xs: seq<string>, more: seq<string>, x: string, except: set<string>)
    requires Tallies(m, xs) && Tally(m, x) > 1 && x !in except
    ensures multiset(xs + more)[x] >= 2 && !OnceExcept(xs + more, except)
  {
    assert multiset(xs)[x] == Tally(m, x);
  }

  lemma TalliedOnce(m: map<string, nat>, xs: seq<string>)
    requires Tallies(m, xs) && forall x | x in m :: m[x] <= 1
    ensures OnceExcept(xs, {})
  {
    forall x ensures multiset(xs)[x] <= 1 {
      assert multiset(xs)[x] == Tally(m, x);
    }
  }

  /** The first loop: counts types and names, and stops at a type or name error. */
  method CountTasks(tasks: seq<Task>) returns (v: Verdict, taskNames: map<string, nat>)
    ensures Justified(v, tasks) && !v.NameRepeated?
    ensures v == Accepted ==>
      && OnceExcept(TypesOf(tasks), {TASK_TYPE_NONE})
      && (forall t | t in tasks :: t.taskType == TASK_TYPE_NONE ==> t.name != "")
      && Tallies(taskNames, NamesOf(tasks))
  {
    hide TypesOf, NamesOf, Tallies, OnceExcept;
    NoTasks();
    var taskTypeNumber: map<string, nat> := map[];
    taskNames := map[];
    for i := 0 to |tasks|
      invariant Tallies(taskTypeNumber, TypesOf(tasks[..i]))
      invariant Tallies(taskNames, NamesOf(tasks[..i]))
      invariant OnceExcept(TypesOf(tasks[..i]), {TASK_TYPE_NONE})
      invariant forall j | 0 <= j < i :: tasks[j].taskType == TASK_TYPE_NONE ==> tasks[j].name != ""
    {
      var task := tasks[i];
      ghost var types := TypesOf(tasks[..i]);
      PrefixCounts(tasks, i);
      TallyNext(taskTypeNumber, types, task.taskType);
      taskTypeNumber := taskTypeNumber[task.taskType := Tally(taskTypeNumber, task.taskType) + 1];
      if taskTypeNumber[task.taskType] > 1 && task.taskType != TASK_TYPE_NONE {
        TalliedTwice(taskTypeNumber, types + [task.taskType], TypesOf(tasks[i + 1..]), task.taskType, {TASK_TYPE_NONE});
        return TypeRepeated(task.taskType), taskNames;
      }
      if task.taskType == TASK_TYPE_NONE && task.name == "" {
        return NoneUnnamed, taskNames;
      }
      TallyOnce(taskTypeNumber, types, task.taskType, {TASK_TYPE_NONE});
      TallyNext(taskNames, NamesOf(tasks[..i]), task.name);
      taskNames := taskNames[task.name := Tally(taskNames, task.name) + 1];
    }
    assert tasks[..|tasks|] == tasks;
    v := Accepted;
  }

  /** TaskTypeNameValidator accepts exactly the acceptable specs. */
  method TaskTypeNameValidator(tasks: seq<Task>) returns (v: Verdict)
    ensures v == Accepted <==> Acceptable(tasks)
    ensures Justified(v, tasks)
  {
    hide TypesOf, NamesOf, Acceptable, Tallies;
    AcceptableIff(tasks);
    var taskNames;
    v, taskNames := CountTasks(tasks);
    if v != Accepted {
      return;
    }
    var rest := taskNames.Keys;
    while rest != {}
      invariant rest <= taskNames.Keys
      invariant forall n | n in taskNames && n !in rest :: taskNames[n] <= 1
      decreases |rest|
    {
      var name :| name in rest;
      if taskNames[name] > 1 {
        TalliedTwice(taskNames, NamesOf(tasks), [], name, {});
        assert NamesOf(tasks) + [] == NamesOf(tasks);
        return NameRepeated(name);
      }
      rest := rest - {name};
    }
    TalliedOnce(taskNames, NamesOf(tasks));
  }

  // ---- an accepted job has one name for every slot

  lemma SlotNameInjective(id: JobId, tasks: seq<Task>, s: Slot, t: Slot)
    requires DistinctNames(tasks) && s.task < |tasks| && t.task < |tasks|
    requires SlotName(id, tasks, s) == SlotName(id, tasks, t)
    ensures s == t
  {
    ReplicaNameInjective(id.name, tasks[s.task].name, s.local, tasks[t.task].name, t.local);
  }

  /** The names the slots of a spec stand for. */
  function SpecNames(id: JobId, tasks: seq<Task>): set<string> {
    set s | s in Slots(tasks) && s.task < |tasks| :: SlotName(id, tasks, s)
  }

  lemma SpecNamesIff(id: JobId, tasks: seq<Task>, s: Slot)
    requires InSpec(tasks, s)
    ensures SlotName(id, tasks, s) in SpecNames(id, tasks)
  {
    SlotsBijection(tasks);
    assert Slots(tasks)[Position(tasks, s)] == s;
  }

  lemma {:induction false} PrefixNames(id: JobId, tasks: seq<Task>, slots: seq<Slot>)
    requires DistinctNames(tasks)
    requires forall s | s in slots :: s.task < |tasks|
    requires forall i, j | 0 <= i < j < |slots| :: slots[i] != slots[j]
    ensures |set s | s in slots && s.task < |tasks| :: SlotName(id, tasks, s)| == |slots|
  {
    if slots != [] {
      var last, init := slots[|slots| - 1], slots[..|slots| - 1];
      assert slots == init + [last];
      PrefixNames(id, tasks, init);
      var names := set s | s in init && s.task < |tasks| :: SlotName(id, tasks, s);
      if SlotName(id, tasks, last) in names {
        var s :| s in init && SlotName(id, tasks, s) == SlotName(id, tasks, last);
        SlotNameInjective(id, tasks, s, last);
      }
      assert (set s | s in slots && s.task < |tasks| :: SlotName(id, tasks, s)) == names + {SlotName(id, tasks, last)};
    }
  }

  /** There are as many names as replicas. */
  lemma SpecNamesSize(id: JobId, tasks: seq<Task>)
    requires DistinctNames(tasks)
    ensures |SpecNames(id, tasks)| == Total(tasks)
  {
    SlotsPositions(tasks);
    PrefixNames(id, tasks, Slots(tasks));
  }
}
