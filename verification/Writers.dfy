/** The polling loops of pkg/context/status.go, run against a server that other
    writers use at the same time. */
module Writers {
  import opened Api
  import opened Validator
  import opened Jobs
  import opened Persistence

  class ApiServer {
    var job: JobObject
    var version: nat

    constructor (job: JobObject)
      ensures this.job == job && version == 0
    {
      this.job, version := job, 0;
    }

    method Get() returns (copy: JobObject, version: nat)
      ensures copy == job && version == this.version
    {
      copy, version := job, this.version;
    }

    /** Stores the copy if nobody stored anything since it was read. */
    method Update(copy: JobObject, version: nat, reply: Reply) returns (ok: bool)
      modifies this
      ensures ok <==> version == old(this.version) && reply == Confirmed
      ensures if version == old(this.version) && reply != Refused
        then job == copy && this.version == old(this.version) + 1
        else job == old(job) && this.version == old(this.version)
    {
      ok := version == this.version && reply == Confirmed;
      if version == this.version && reply != Refused {
        job, this.version := copy, this.version + 1;
      }
    }

    /** Other writers' updates get stored. */
    method Absorb(others: seq<Edit>)
      modifies this
      ensures job == Replay(old(job), others) && version == old(version) + |others|
    {
      for i := 0 to |others|
        invariant job == Replay(old(job), others[..i]) && version == old(version) + i
      {
        assert others[..i + 1] == others[..i] + [others[i]];
        ReplayNext(old(job), others[..i], others[i]);
        job, version := Put(job, others[i]), version + 1;
      }
      assert others[..|others|] == others;
    }
  }

  /** One turn of a poll: whether the read went through, what others got stored
      before the update, and the reply to the update. */
  datatype Attempt = Attempt(got: bool, others: seq<Edit>, reply: Reply)

  predicate Ends(a: Attempt) { a.got && a.others == [] && a.reply == Confirmed }

  /** All edits stored while a poll for `edit` runs, its own included, in order. */
  function Landed(edit: Edit, attempts: seq<Attempt>): seq<Edit> {
    if attempts == [] then []
    else
      var a := attempts[0];
      a.others
      + (if a.got && a.others == [] && a.reply != Refused then [edit] else [])
      + if Ends(a) then [] else Landed(edit, attempts[1..])
  }

  /** The edits of the others alone. */
  function Others(attempts: seq<Attempt>): seq<Edit> {
    if attempts == [] then []
    else attempts[0].others + if Ends(attempts[0]) then [] else Others(attempts[1..])
  }

  predicate Confirms(attempts: seq<Attempt>) { exists a | a in attempts :: Ends(a) }

  lemma ReplayMore(o: JobObject, a: seq<Edit>, b: seq<Edit>)
    ensures Replay(o, a + b) == Replay(Replay(o, a), b)
  {
    ReplaySplit(o, a + b, |a|);
    assert (a + b)[..|a|] == a && (a + b)[|a|..] == b;
  }

  lemma LandedStep(o: JobObject, edit: Edit, attempts: seq<Attempt>)
    requires attempts != []
    ensures var a := attempts[0];
      var mid := Replay(o, a.others);
      var sent := if a.got && a.others == [] && a.reply != Refused then Put(mid, edit) else mid;
      Replay(o, Landed(edit, attempts)) == if Ends(a) then sent else Replay(sent, Landed(edit, attempts[1..]))
  {
    hide Put, Replay;
    var a, rest := attempts[0], Landed(edit, attempts[1..]);
    var own := if a.got && a.others == [] && a.reply != Refused then [edit] else [];
    assert a.others + [] == a.others;
    ReplayMore(o, a.others + own, if Ends(a) then [] else rest);
    ReplayMore(o, a.others, own);
    ReplayNext(Replay(o, a.others), [], edit);
    assert [] + [edit] == [edit];
    ReplayNone(Replay(o, a.others));
    ReplayNone(Replay(o, a.others + own));
  }

  lemma ReplayNone(o: JobObject)
    ensures Replay(o, []) == o
  {
  }

  lemma ConfirmsStep(attempts: seq<Attempt>)
    requires attempts != []
    ensures Confirms(attempts) <==> Ends(attempts[0]) || Confirms(attempts[1..])
  {
    assert attempts == [attempts[0]] + attempts[1..];
  }

  /** The five UpdateJob...InCluster functions, which differ in the group: nothing
      to do if the group did not change, otherwise poll. Every turn re-reads the
      job and overwrites only the fields of the group. */
  method UpdateInCluster(server: ApiServer, g: Group, was: Status, now: Status,
                         attempts: seq<Attempt>) returns (ok: bool)
    modifies server
    ensures Agree(was, now, g) ==> ok && server.job == old(server.job)
    ensures !Agree(was, now, g) ==>
      ok == Confirms(attempts) && server.job == Replay(old(server.job), Landed(StatusEdit(g, now), attempts))
  {
    hide Replay, Overwrite, Agree;
    if Agree(was, now, g) {
      return true;
    }
    ghost var all := Replay(server.job, Landed(StatusEdit(g, now), attempts));
    for i := 0 to |attempts|
      invariant Replay(server.job, Landed(StatusEdit(g, now), attempts[i..])) == all
      invariant Confirms(attempts[i..]) == Confirms(attempts)
    {
      var a := attempts[i];
      assert attempts[i..][0] == a && attempts[i..][1..] == attempts[i + 1..];
      LandedStep(server.job, StatusEdit(g, now), attempts[i..]);
      ConfirmsStep(attempts[i..]);
      ReplayNone(server.job);
      if !a.got {
        server.Absorb(a.others);
        continue;
      }
      var newJob, version := server.Get();
      server.Absorb(a.others);
      newJob := newJob.(status := Overwrite(newJob.status, g, now));
      var stored := server.Update(newJob, version, a.reply);
      if stored {
        return true;
      }
    }
    ReplayNone(server.job);
    ok := false;
  }

  // ---- what a poll leaves behind

  lemma {:induction false} LastWriteMore(st: Status, a: seq<Edit>, b: seq<Edit>, g: Group)
    ensures LastWrite(st, a + b, g) == LastWrite(LastWrite(st, a, g), b, g)
  {
    if b == [] {
      assert a + b == a;
    } else {
      assert (a + b)[..|a + b| - 1] == a + b[..|b| - 1];
      LastWriteMore(st, a, b[..|b| - 1], g);
    }
  }

  lemma LastWriteLanded(st: Status, edit: Edit, attempts: seq<Attempt>, h: Group)
    requires attempts != []
    ensures var a := attempts[0];
      var mid := LastWrite(st, a.others, h);
      var sent := if a.got && a.others == [] && a.reply != Refused then LastWrite(mid, [edit], h) else mid;
      LastWrite(st, Landed(edit, attempts), h) ==
        if Ends(a) then sent else LastWrite(sent, Landed(edit, attempts[1..]), h)
  {
    hide LastWrite;
    var a, rest := attempts[0], Landed(edit, attempts[1..]);
    var own := if a.got && a.others == [] && a.reply != Refused then [edit] else [];
    assert a.others + [] == a.others && a.others + own + [] == a.others + own;
    LastWriteMore(st, a.others + own, rest, h);
    LastWriteMore(st, a.others, own, h);
  }

  /** A poll that reports success has stored its own values last in its group. */
  lemma {:induction false} PollStoresOwn(st: Status, g: Group, now: Status, attempts: seq<Attempt>)
    requires Confirms(attempts)
    ensures LastWrite(st, Landed(StatusEdit(g, now), attempts), g) == now
    decreases |attempts|
  {
    hide Landed;
    var edit, a := StatusEdit(g, now), attempts[0];
    var mid := LastWrite(st, a.others, g);
    LastWriteLanded(st, edit, attempts, g);
    ConfirmsStep(attempts);
    if !Ends(a) {
      PollStoresOwn(if a.got && a.others == [] && a.reply != Refused then now else mid, g, now, attempts[1..]);
    }
  }

  /** Whatever a poll reports, the other groups hold what the others wrote to them. */
  lemma {:induction false} PollKeepsOthers(st: Status, g: Group, now: Status, attempts: seq<Attempt>, h: Group)
    requires h != g
    ensures LastWrite(st, Landed(StatusEdit(g, now), attempts), h) == LastWrite(st, Others(attempts), h)
    decreases |attempts|
  {
    hide Landed;
    if attempts != [] {
      var edit, a := StatusEdit(g, now), attempts[0];
      LastWriteLanded(st, edit, attempts, h);
      assert a.others + [] == a.others;
      LastWriteMore(st, a.others, Others(attempts[1..]), h);
      PollKeepsOthers(LastWrite(st, a.others, h), g, now, attempts[1..], h);
    } else {
      assert Landed(StatusEdit(g, now), []) == [] by { LandedNone(StatusEdit(g, now)); }
    }
  }

  lemma LandedNone(edit: Edit)
    ensures Landed(edit, []) == []
  {
  }

  /** No other writer gets in between. */
  predicate Quiet(attempts: seq<Attempt>) { forall a | a in attempts :: a.others == [] }

  /** Whether a quiet poll stores its edit at all. */
  predicate Stores(attempts: seq<Attempt>) { exists a | a in attempts :: a.got && a.reply != Refused }

  lemma PutTwice(o: JobObject, e: Edit)
    ensures Put(Put(o, e), e) == Put(o, e)
  {
    if e.NamesEdit? {
      DefaultNamesIdempotent(o.spec.tasks);
    }
  }

  /** A quiet poll stores its edit as if once, however often the reply got lost. */
  lemma {:induction false} QuietPoll(o: JobObject, edit: Edit, attempts: seq<Attempt>)
    requires Quiet(attempts)
    ensures Replay(o, Landed(edit, attempts)) == if Stores(attempts) then Put(o, edit) else o
    decreases |attempts|
  {
    hide Put, Replay;
    ReplayNone(o);
    if attempts != [] {
      var a := attempts[0];
      assert attempts == [a] + attempts[1..];
      LandedStep(o, edit, attempts);
      PutTwice(o, edit);
      if !Ends(a) {
        QuietPoll(if a.got && a.reply != Refused then Put(o, edit) else o, edit, attempts[1..]);
      }
    }
  }

  // ---- default task names

  /** One turn's edit of the fetched copy and of the local job, task by task. The
      local tasks are indexed like the fetched ones: without a task there, the
      index is out of range. */
  method NameTasks(job: Job, copy: JobObject) returns (named: JobObject, panicked: bool)
    modifies job`spec
    ensures !panicked ==> named == Put(copy, NamesEdit)
    ensures panicked ==> |copy.spec.tasks| > |old(job.spec.tasks)|
    ensures !panicked && |copy.spec.tasks| == |old(job.spec.tasks)| ==>
      job.spec == old(job.spec).(tasks := LocalNames(old(job.spec.tasks), copy.spec.tasks))
  {
    ghost var before := job.spec;
    var tasks := copy.spec.tasks;
    named := copy;
    for i := 0 to |tasks|
      invariant |job.spec.tasks| == |before.tasks| && job.spec == before.(tasks := job.spec.tasks)
      invariant |named.spec.tasks| == |tasks| && named == copy.(spec := copy.spec.(tasks := named.spec.tasks))
      invariant forall j | 0 <= j < |tasks| :: named.spec.tasks[j] == if j < i then DefaultName(tasks[j]) else tasks[j]
      invariant forall j | 0 <= j < |before.tasks| ::
        job.spec.tasks[j] == if j < i && j < |tasks| then LocalName(before.tasks[j], tasks[j]) else before.tasks[j]
    {
      if tasks[i].name == "" && tasks[i].taskType != TASK_TYPE_NONE {
        if i >= |job.spec.tasks| {
          return named, true;
        }
        var name := tasks[i].taskType;
        job.spec := job.spec.(tasks := job.spec.tasks[i := job.spec.tasks[i].(name := name)]);
        named := named.(spec := named.spec.(tasks := named.spec.tasks[i := named.spec.tasks[i].(name := name)]));
      }
    }
    assert named.spec.tasks == DefaultNames(tasks);
    assert |tasks| == |before.tasks| ==> job.spec.tasks == LocalNames(before.tasks, tasks);
    panicked := false;
  }

  function LocalName(t: Task, fetched: Task): Task {
    if fetched.name == "" && fetched.taskType != TASK_TYPE_NONE then t.(name := fetched.taskType) else t
  }

  function LocalNames(local: seq<Task>, fetched: seq<Task>): (r: seq<Task>)
    requires |local| == |fetched|
    ensures |r| == |local|
  {
    seq(|local|, i requires 0 <= i < |local| => LocalName(local[i], fetched[i]))
  }

  /** Naming a copy that has the same tasks, or the default names already, leaves
      the local job with the default names. */
  lemma LocalNamesDefault(tasks: seq<Task>)
    ensures LocalNames(tasks, tasks) == DefaultNames(tasks)
    ensures LocalNames(DefaultNames(tasks), tasks) == DefaultNames(tasks)
    ensures LocalNames(DefaultNames(tasks), DefaultNames(tasks)) == DefaultNames(tasks)
  {
  }

  /** Whether any turn read the job. */
  predicate Reads(attempts: seq<Attempt>) { exists a | a in attempts :: a.got }

  /** SetDefaultJobNameInCluster, given a job read from the server. If nobody else
      writes meanwhile, the local job is named as soon as one read goes through,
      and the stored one as soon as one update does. */
  method SetDefaultJobNameInCluster(server: ApiServer, job: Job, attempts: seq<Attempt>) returns (panicked: bool)
    modifies server, job`spec
    ensures !panicked ==> server.job == Replay(old(server.job), Landed(NamesEdit, attempts))
    ensures Quiet(attempts) && old(server.job.spec == job.spec) ==>
      && !panicked
      && job.spec == if Reads(attempts) then Named(old(job.spec)) else old(job.spec)
  {
    hide Replay, Put, LocalNames, DefaultNames, Landed, Named;
    ghost var all := Replay(server.job, Landed(NamesEdit, attempts));
    ghost var spec := job.spec;
    ghost var quiet := Quiet(attempts) && server.job.spec == spec;
    for i := 0 to |attempts|
      invariant Replay(server.job, Landed(NamesEdit, attempts[i..])) == all
      invariant quiet ==> Progress(spec, job.spec, server.job.spec, Reads(attempts[..i]))
    {
      var a := attempts[i];
      assert attempts[i..][0] == a && attempts[i..][1..] == attempts[i + 1..];
      assert attempts[..i + 1] == attempts[..i] + [a];
      LandedStep(server.job, NamesEdit, attempts[i..]);
      ReplayNone(server.job);
      if !a.got {
        server.Absorb(a.others);
        continue;
      }
      var newJob, version := server.Get();
      ghost var was := job.spec;
      newJob, panicked := NameTasks(job, newJob);
      if quiet {
        NameProgress(spec, was, job.spec, server.job, Reads(attempts[..i]));
      }
      if panicked {
        return;
      }
      server.Absorb(a.others);
      var stored := server.Update(newJob, version, a.reply);
      if stored {
        return;
      }
    }
    assert attempts[..|attempts|] == attempts;
    LandedNone(NamesEdit);
    ReplayNone(server.job);
    panicked := false;
  }

  /** Where a quiet poll stands: nothing read yet, or the local job named. */
  ghost predicate Progress(spec: Spec, local: Spec, stored: Spec, read: bool) {
    if read then local == Named(spec) && stored in {spec, Named(spec)} else local == spec && stored == spec
  }

  lemma NameProgress(spec: Spec, was: Spec, now: Spec, server: JobObject, read: bool)
    requires Progress(spec, was, server.spec, read)
    ensures |was.tasks| == |server.spec.tasks|
    ensures now == was.(tasks := LocalNames(was.tasks, server.spec.tasks)) ==>
      && Progress(spec, now, server.spec, true)
      && Progress(spec, now, Put(server, NamesEdit).spec, true)
  {
    LocalNamesDefault(spec.tasks);
    DefaultNamesIdempotent(spec.tasks);
  }
}
