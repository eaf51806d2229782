/** How the writers of pkg/context/status.go share one job object: each polls
    get, overwrite its own fields, update with the version it read. */
module Persistence {
  import opened Api
  import opened Validator

  /** The fields that one UpdateJob...InCluster function owns. */
  datatype Group = PhaseGroup | CounterGroup | AllocationGroup | ProfilingsGroup | ReplicaGroup

  function Overwrite(st: Status, g: Group, from: Status): Status {
    match g
    case PhaseGroup => st.(phase := from.phase, conditions := from.conditions)
    case CounterGroup => st.(restarts := from.restarts, reschedules := from.reschedules)
    case AllocationGroup => st.(allocation := from.allocation)
    case ProfilingsGroup => st.(profilings := from.profilings)
    case ReplicaGroup =>
      st.(readyReplicas := from.readyReplicas, replicas := from.replicas, taskStatus := from.taskStatus)
  }

  /** A poll that may or may not have stored its update. */
  function Saved(st: Status, g: Group, from: Status, ok: bool): Status {
    if ok then Overwrite(st, g, from) else st
  }

  predicate Agree(a: Status, b: Status, g: Group) {
    match g
    case PhaseGroup => a.phase == b.phase && a.conditions == b.conditions
    case CounterGroup => a.restarts == b.restarts && a.reschedules == b.reschedules
    case AllocationGroup => a.allocation == b.allocation
    case ProfilingsGroup => a.profilings == b.profilings
    case ReplicaGroup => a.readyReplicas == b.readyReplicas && a.replicas == b.replicas && a.taskStatus == b.taskStatus
  }

  /** The groups are disjoint and together make up the whole status. */
  lemma GroupsPartition(a: Status, b: Status, g: Group, h: Group)
    ensures (forall k: Group :: Agree(a, b, k)) ==> a == b
    ensures Agree(Overwrite(a, g, b), if h == g then b else a, h)
  {
    if forall k: Group :: Agree(a, b, k) {
      assert Agree(a, b, PhaseGroup) && Agree(a, b, CounterGroup) && Agree(a, b, AllocationGroup);
      assert Agree(a, b, ProfilingsGroup) && Agree(a, b, ReplicaGroup);
    }
  }

  datatype JobObject = JobObject(spec: Spec, status: Status)

  /** A write to the stored job: by one of the status writers, by the writer of
      default task names, or by a user. */
  datatype Edit = StatusEdit(group: Group, from: Status) | NamesEdit | UserEdit(spec: Spec)

  function Named(spec: Spec): Spec { spec.(tasks := DefaultNames(spec.tasks)) }

  function Put(o: JobObject, e: Edit): JobObject {
    match e
    case StatusEdit(g, from) => o.(status := Overwrite(o.status, g, from))
    case NamesEdit => o.(spec := Named(o.spec))
    case UserEdit(spec) => o.(spec := spec)
  }

  /** The edits one after the other. */
  function Replay(o: JobObject, log: seq<Edit>): JobObject {
    if log == [] then o else Put(Replay(o, log[..|log| - 1]), log[|log| - 1])
  }

  // ---- many writers at once

  datatype Writer =
    | Idle
    | Polling(edit: Edit)
    | Holding(edit: Edit, copy: JobObject, version: nat)

  /** history: the versions the server has stored, oldest first; an object's
      resourceVersion is its index. log: the edits that made them. */
  datatype System = System(history: seq<JobObject>, log: seq<Edit>, writers: seq<Writer>)

  /** Lost: the server stored the object but the writer got an error. */
  datatype Reply = Confirmed | Refused | Lost

  datatype Step =
    | Begin(w: nat, edit: Edit)
    | Fetch(w: nat, version: nat)
    | Update(w: nat, reply: Reply)
    | GiveUp(w: nat)
    | UserWrites(spec: Spec)

  /** Get reads a cache: it may return any version ever stored. */
  predicate CanStep(s: System, step: Step) {
    match step
    case Begin(w, edit) => w < |s.writers| && s.writers[w].Idle? && !edit.UserEdit?
    case Fetch(w, version) => w < |s.writers| && s.writers[w].Polling? && version < |s.history|
    case Update(w, _) => w < |s.writers| && s.writers[w].Holding?
    case GiveUp(w) => w < |s.writers|
    case UserWrites(_) => s.history != []
  }

  function NextSystem(s: System, step: Step): System
    requires CanStep(s, step)
  {
    match step
    case Begin(w, edit) => s.(writers := s.writers[w := Polling(edit)])
    case Fetch(w, version) => s.(writers := s.writers[w := Holding(s.writers[w].edit, s.history[version], version)])
    case Update(w, reply) =>
      var me := s.writers[w];
      // the server compares versions and stores the copy as it is
      if reply == Refused || me.version + 1 != |s.history| then s.(writers := s.writers[w := Polling(me.edit)])
      else System(
        s.history + [Put(me.copy, me.edit)],
        s.log + [me.edit],
        s.writers[w := if reply == Confirmed then Idle else Polling(me.edit)])
    case GiveUp(w) => s.(writers := s.writers[w := Idle])
    case UserWrites(spec) =>
      s.(history := s.history + [Put(s.history[|s.history| - 1], UserEdit(spec))], log := s.log + [UserEdit(spec)])
  }

  ghost predicate IsExecution(o: JobObject, run: seq<System>, steps: seq<Step>) {
    && |run| == |steps| + 1
    && run[0].history == [o] && run[0].log == []
    && (forall w | w in run[0].writers :: w.Idle?)
    && forall i | 0 <= i < |steps| :: CanStep(run[i], steps[i]) && run[i + 1] == NextSystem(run[i], steps[i])
  }

  /** Every version is the one before it with one edit put on it, and a copy is
      some stored version. */
  ghost predicate SystemInv(o: JobObject, s: System) {
    && |s.history| == |s.log| + 1
    && (forall i | 0 <= i <= |s.log| :: s.history[i] == Replay(o, s.log[..i]))
    && (forall w | w in s.writers && w.Holding? :: w.version < |s.history| && w.copy == s.history[w.version])
  }

  lemma ReplayNext(o: JobObject, log: seq<Edit>, e: Edit)
    ensures Replay(o, log + [e]) == Put(Replay(o, log), e)
  {
    assert (log + [e])[..|log|] == log;
  }

  lemma {:induction false} AppendKeepsInv(o: JobObject, s: System, e: Edit, writers: seq<Writer>)
    requires SystemInv(o, s)
    requires forall w | w in writers && w.Holding? :: w in s.writers
    ensures SystemInv(o, System(s.history + [Put(s.history[|s.log|], e)], s.log + [e], writers))
  {
    hide Put;
    var log := s.log + [e];
    assert s.log[..|s.log|] == s.log;
    ReplayNext(o, s.log, e);
    forall i | 0 <= i <= |s.log| ensures log[..i] == s.log[..i] {
    }
    assert log[..|log|] == log;
  }

  lemma {:induction false} StepKeepsInv(o: JobObject, s: System, step: Step)
    requires SystemInv(o, s) && CanStep(s, step)
    ensures SystemInv(o, NextSystem(s, step))
  {
    hide Put, Replay;
    match step
    case Update(w, reply) =>
      var me := s.writers[w];
      assert me in s.writers;
      if reply != Refused && me.version + 1 == |s.history| {
        AppendKeepsInv(o, s, me.edit, s.writers[w := if reply == Confirmed then Idle else Polling(me.edit)]);
      }
    case UserWrites(spec) => AppendKeepsInv(o, s, UserEdit(spec), s.writers);
    case _ =>
  }

  lemma {:induction false} ExecutionKeepsInv(o: JobObject, run: seq<System>, steps: seq<Step>, i: nat)
    requires IsExecution(o, run, steps) && i < |run|
    ensures SystemInv(o, run[i])
  {
    if i > 0 {
      ExecutionKeepsInv(o, run, steps, i - 1);
      StepKeepsInv(o, run[i - 1], steps[i - 1]);
    } else {
      assert run[0].log[..0] == [];
    }
  }

  // ---- what a sequence of edits leaves behind

  /** The status that was written last to a group. */
  function LastWrite(init: Status, log: seq<Edit>, g: Group): Status {
    if log == [] then init
    else
      var last := log[|log| - 1];
      if last.StatusEdit? && last.group == g then last.from else LastWrite(init, log[..|log| - 1], g)
  }

  /** The spec the users asked for, with default names if a writer named it since. */
  function LastSpec(init: Spec, log: seq<Edit>): Spec {
    if log == [] then init
    else match log[|log| - 1]
      case UserEdit(spec) => spec
      case NamesEdit => Named(LastSpec(init, log[..|log| - 1]))
      case StatusEdit(_, _) => LastSpec(init, log[..|log| - 1])
  }

  lemma {:induction false} ReplayIsLastWrite(o: JobObject, log: seq<Edit>, g: Group)
    ensures Agree(Replay(o, log).status, LastWrite(o.status, log, g), g)
    ensures Replay(o, log).spec == LastSpec(o.spec, log)
  {
    hide Named;
    if log != [] {
      var init, last := log[..|log| - 1], log[|log| - 1];
      ReplayIsLastWrite(o, init, g);
      if last.StatusEdit? {
        GroupsPartition(Replay(o, init).status, last.from, last.group, g);
      }
    }
  }

  /** No lost update: under any interleaving of any number of writers, with stale
      reads, refused and lost replies, and users editing the spec, each group of
      the stored status holds what the last stored update of that group wrote, and
      the spec is the users' last, up to default names. */
  lemma {:induction false} NoLostUpdate(o: JobObject, run: seq<System>, steps: seq<Step>, i: nat, g: Group)
    requires IsExecution(o, run, steps) && i < |run|
    ensures var s := run[i];
      && |s.history| == |s.log| + 1
      && Agree(s.history[|s.log|].status, LastWrite(o.status, s.log, g), g)
      && s.history[|s.log|].spec == LastSpec(o.spec, s.log)
  {
    hide Agree, LastWrite, LastSpec, Replay;
    ExecutionKeepsInv(o, run, steps, i);
    assert run[i].log[..|run[i].log|] == run[i].log;
    ReplayIsLastWrite(o, run[i].log, g);
  }

  /** An update that reports success has just put its own values in the store, and
      no step of a writer touches a group it does not own or takes back a version. */
  lemma {:induction false} OnlyOwnGroup(o: JobObject, run: seq<System>, steps: seq<Step>, i: nat, g: Group)
    requires IsExecution(o, run, steps) && i < |steps|
    ensures |run[i].history| == |run[i].log| + 1 && |run[i + 1].history| == |run[i + 1].log| + 1
    ensures run[i].history <= run[i + 1].history && run[i].log <= run[i + 1].log
    ensures var s, t := run[i], run[i + 1]; var was, now := s.history[|s.log|], t.history[|t.log|];
      if t.log == s.log then now == was
      else
        var e := t.log[|t.log| - 1];
        && t.log == s.log + [e]
        && (e.StatusEdit? ==> now.spec == was.spec && Agree(now.status, if e.group == g then e.from else was.status, g))
        && (!e.StatusEdit? ==> now.status == was.status)
    ensures steps[i].Update? && steps[i].reply == Confirmed && run[i + 1].writers[steps[i].w].Idle? ==>
      run[i + 1].log == run[i].log + [run[i].writers[steps[i].w].edit]
  {
    hide Agree, Replay, Overwrite;
    ExecutionKeepsInv(o, run, steps, i);
    ExecutionKeepsInv(o, run, steps, i + 1);
    var s, t := run[i], run[i + 1];
    if t.log != s.log {
      var e := t.log[|s.log|];
      assert t.log == s.log + [e];
      assert s.log[..|s.log|] == s.log && t.log[..|t.log|] == t.log;
      ReplayNext(o, s.log, e);
      if e.StatusEdit? {
        GroupsPartition(s.history[|s.log|].status, e.from, e.group, g);
      }
    }
  }

  /** A version conflict means that someone else's update was stored since the
      copy was read. */
  lemma {:induction false} ConflictMeansProgress(o: JobObject, run: seq<System>, steps: seq<Step>, i: nat)
    requires IsExecution(o, run, steps) && i < |steps|
    requires steps[i].Update? && steps[i].reply == Confirmed && run[i + 1].log == run[i].log
    ensures |run[i].history| == |run[i].log| + 1
    ensures var me := run[i].writers[steps[i].w];
      me.version < |run[i].log| && run[i].history[|run[i].log|] == Replay(me.copy, run[i].log[me.version..])
  {
    hide Put;
    ExecutionKeepsInv(o, run, steps, i);
    var s := run[i];
    var me := s.writers[steps[i].w];
    assert me in s.writers;
    ReplaySplit(o, s.log, me.version);
    assert s.log[..|s.log|] == s.log;
  }

  lemma {:induction false} ReplaySplit(o: JobObject, log: seq<Edit>, i: nat)
    requires i <= |log|
    ensures Replay(o, log) == Replay(Replay(o, log[..i]), log[i..])
  {
    hide Put;
    if i == |log| {
      assert log[..i] == log && log[i..] == [];
    } else {
      var init := log[..|log| - 1];
      ReplaySplit(o, init, i);
      assert init[..i] == log[..i] && log[i..][..|log[i..]| - 1] == init[i..];
    }
  }

  /** The edits of one group, in order. */
  function OfGroup(log: seq<Edit>, g: Group): seq<Edit> {
    if log == [] then []
    else
      var last := log[|log| - 1];
      OfGroup(log[..|log| - 1], g) + if last.StatusEdit? && last.group == g then [last] else []
  }

  function OfSpec(log: seq<Edit>): seq<Edit> {
    if log == [] then []
    else OfSpec(log[..|log| - 1]) + if log[|log| - 1].StatusEdit? then [] else [log[|log| - 1]]
  }

  lemma {:induction false} LastOfGroup(init: Status, log: seq<Edit>, g: Group)
    ensures LastWrite(init, log, g) == LastWrite(init, OfGroup(log, g), g)
  {
    if log != [] {
      var before, last := log[..|log| - 1], log[|log| - 1];
      LastOfGroup(init, before, g);
      if last.StatusEdit? && last.group == g {
        assert OfGroup(log, g)[|OfGroup(log, g)| - 1] == last;
      } else {
        assert OfGroup(log, g) == OfGroup(before, g);
      }
    }
  }

  lemma {:induction false} LastOfSpec(init: Spec, log: seq<Edit>)
    ensures LastSpec(init, log) == LastSpec(init, OfSpec(log))
  {
    hide Named;
    if log != [] {
      var before, last := log[..|log| - 1], log[|log| - 1];
      LastOfSpec(init, before);
      if last.StatusEdit? {
        assert OfSpec(log) == OfSpec(before);
      } else {
        assert OfSpec(log)[..|OfSpec(log)| - 1] == OfSpec(before);
      }
    }
  }

  /** Writers of different groups commute: the order of the edits matters only
      within one group. */
  lemma {:induction false} GroupsCommute(o: JobObject, a: seq<Edit>, b: seq<Edit>)
    requires forall g: Group :: OfGroup(a, g) == OfGroup(b, g)
    requires OfSpec(a) == OfSpec(b)
    ensures Replay(o, a) == Replay(o, b)
  {
    hide Replay, LastWrite, OfGroup, OfSpec, LastSpec;
    var x, y := Replay(o, a), Replay(o, b);
    ReplayIsLastWrite(o, a, PhaseGroup);
    ReplayIsLastWrite(o, b, PhaseGroup);
    LastOfSpec(o.spec, a);
    LastOfSpec(o.spec, b);
    forall g: Group ensures Agree(x.status, y.status, g) {
      ReplayIsLastWrite(o, a, g);
      ReplayIsLastWrite(o, b, g);
      LastOfGroup(o.status, a, g);
      LastOfGroup(o.status, b, g);
    }
    GroupsPartition(x.status, y.status, PhaseGroup, PhaseGroup);
  }
}
