/** pkg/controllers/dijob_controller.go in its own form: the entry points of the
    controller, which fetch the job, edit a local copy and write groups of fields
    back. */
module JobController {
  import opened Api
  import opened Cluster
  import opened Conditions
  import opened Replicas
  import opened Cleanup
  import opened Handlers
  import opened Validator
  import opened Persistence
  import opened Jobs
  import opened Writers
  import opened Controller
  import opened Runs
  import R = Reconciler

  /** What the API server replies during one reconcile and the event it causes. */
  datatype Script = Script(
    names: seq<Attempt>,
    phase: seq<Attempt>,
    replicas: seq<Attempt>,
    allocation: seq<Attempt>,
    counters: seq<Attempt>,
    readiness: seq<Attempt>)

  predicate Undisturbed(s: Script) {
    && Quiet(s.names) && Quiet(s.phase) && Quiet(s.replicas)
    && Quiet(s.allocation) && Quiet(s.counters) && Quiet(s.readiness)
  }

  function WritesOf(s: Script): Writes {
    Writes(Reads(s.names), Stores(s.names), Stores(s.phase),
           Stores(s.replicas), Stores(s.counters), Stores(s.readiness))
  }

  /** The stored job after one writer, whatever else got stored while it polled. */
  ghost function Polled(o: JobObject, g: Group, was: Status, now: Status, attempts: seq<Attempt>): JobObject {
    if Agree(was, now, g) then o else Replay(o, Landed(StatusEdit(g, now), attempts))
  }

  /** Writing a group that did not change locally leaves the store as it is, so a
      writer may skip it. */
  lemma SkipOrSave(o: JobObject, g: Group, was: Status, now: Status, attempts: seq<Attempt>)
    requires Quiet(attempts) && Agree(o.status, was, g)
    ensures Polled(o, g, was, now, attempts) == o.(status := Saved(o.status, g, now, Stores(attempts)))
  {
    hide Replay, Landed;
    QuietPoll(o, StatusEdit(g, now), attempts);
  }

  lemma SavedFrame(st: Status, g: Group, from: Status, ok: bool, h: Group)
    requires h != g
    ensures Agree(st, Saved(st, g, from, ok), h)
  {
  }

  /** reconcileReplicas, with its deferred writes: the outcome of the switch, polled
      group by group into whatever the others make of the job meanwhile. */
  method ReconcileReplicas(r: R.DIJobReconciler, server: ApiServer, job: Job, pods: seq<Pod>, script: Script)
    modifies r.ctx`pods, job`status, server
    ensures var was := old(job.status);
      var o := ReconcilePhase(job.id, job.spec, was, pods, old(r.ctx.pods), r.ctx.faults);
      var first := Polled(old(server.job), PhaseGroup, was, o.status, script.phase);
      var second := Polled(first, ReplicaGroup, was, o.status, script.replicas);
      && r.ctx.pods == o.store
      && server.job == Polled(second, AllocationGroup, was, o.status, script.allocation)
  {
    hide ReconcilePhase, Overwrite, Agree, Replay, Landed;
    var was := job.status;
    var _ := r.ReconcileWithJobStatus(job, pods);
    var now := job.status;
    var _ := UpdateInCluster(server, PhaseGroup, was, now, script.phase);
    var _ := UpdateInCluster(server, ReplicaGroup, was, now, script.replicas);
    var _ := UpdateInCluster(server, AllocationGroup, was, now, script.allocation);
  }

  /** Undisturbed, that stores the phase and the replicas, as far as updates go
      through, and the allocation is never written. */
  lemma QuietReplicas(o: JobObject, was: Status, now: Status, script: Script)
    requires Undisturbed(script) && o.status == was && now.allocation == was.allocation
    ensures var first := Polled(o, PhaseGroup, was, now, script.phase);
      var second := Polled(first, ReplicaGroup, was, now, script.replicas);
      Polled(second, AllocationGroup, was, now, script.allocation) ==
        o.(status := SaveReplicas(SavePhase(was, now, Stores(script.phase)), now, Stores(script.replicas)))
  {
    hide Overwrite, Replay, Landed, Stores;
    var first := Polled(o, PhaseGroup, was, now, script.phase);
    SkipOrSave(o, PhaseGroup, was, now, script.phase);
    SavedFrame(was, PhaseGroup, now, Stores(script.phase), ReplicaGroup);
    SkipOrSave(first, ReplicaGroup, was, now, script.replicas);
  }

  /** Reconcile. lists: the two list calls go through, which matters only once the
      spec has been accepted. services: see DeletePodsAndServices. */
  method Reconcile(r: R.DIJobReconciler, server: ApiServer, id: JobId, lists: bool, services: seq<bool>, script: Script)
    returns (ghost list: seq<Pod>)
    requires KeyedByName(r.ctx.pods)
    modifies r.ctx`pods, server
    ensures Undisturbed(script) && !lists && Acceptable(LocalSpec(old(server.job.spec), WritesOf(script)).tasks) ==>
      && r.ctx.pods == old(r.ctx.pods)
      && server.job == old(server.job).(spec := SavedSpec(old(server.job.spec), WritesOf(script)))
    ensures Undisturbed(script) && (lists || !Acceptable(LocalSpec(old(server.job.spec), WritesOf(script)).tasks)) ==>
      && IsListing(list, old(r.ctx.pods))
      && Stored(r.ctx.pods, server.job.spec, server.job.status)
         == ReconcileJob(id, Stored(old(r.ctx.pods), old(server.job.spec), old(server.job.status)),
                         list, r.ctx.faults, AllDeleted(services), WritesOf(script))
  {
    hide ReconcilePhase, CleanUp, Enter, Acceptable, Overwrite, Replay, Landed, DefaultNames, AllDeleted, Agree;
    ghost var before := server.job;
    var fetched, _ := server.Get();
    var job := new Job(id, fetched.spec, fetched.status);
    list := AnyListing(r.ctx.pods);
    QuietNames(before, script.names);
    var panicked := SetDefaultJobNameInCluster(server, job, script.names);
    if panicked {
      return;
    }
    ghost var named := server.job;
    var was := job.status;
    var verdict := TaskTypeNameValidator(job.spec.tasks);
    if verdict != Validator.Accepted {
      R.EnterIs(was, Failed);
      UpdateJobStatus(job, Failed, "JobFailed");
      var _ := UpdateInCluster(server, PhaseGroup, was, job.status, script.phase);
      if Undisturbed(script) {
        AgreeItself(was, PhaseGroup);
        SkipOrSave(named, PhaseGroup, was, job.status, script.phase);
      }
      return;
    }
    if !lists {
      return;
    }
    var pods := r.ctx.ListJobPods();
    list := pods;
    if job.status.phase == Succeeded || job.status.phase == Failed {
      var err := r.ctx.DeletePodsAndServices(job.spec.cleanPodPolicy, pods, services);
      if err != NoError {
        return;
      }
      job.status := job.status.(readyReplicas := 0, taskStatus := map[]);
      var _ := UpdateInCluster(server, ReplicaGroup, was, job.status, script.replicas);
      if Undisturbed(script) {
        AgreeItself(was, ReplicaGroup);
        SkipOrSave(named, ReplicaGroup, was, job.status, script.replicas);
      }
      return;
    }
    ghost var o := ReconcilePhase(id, job.spec, was, pods, r.ctx.pods, r.ctx.faults);
    ReconcileLawful(id, job.spec, was, pods, r.ctx.pods, r.ctx.faults);
    ReconcileReplicas(r, server, job, pods, script);
    if Undisturbed(script) {
      QuietReplicas(named, was, o.status, script);
    }
  }

  lemma QuietNames(o: JobObject, attempts: seq<Attempt>)
    ensures Quiet(attempts) ==>
      Replay(o, Landed(NamesEdit, attempts)) ==
        o.(spec := if Reads(attempts) && Stores(attempts) then Named(o.spec) else o.spec)
  {
    hide Replay, Landed, Named;
    if Quiet(attempts) {
      QuietPoll(o, NamesEdit, attempts);
      assert Stores(attempts) ==> Reads(attempts);
    }
  }

  /** onJobAddHandler. */
  method OnJobAddHandler(server: ApiServer, id: JobId, attempts: seq<Attempt>)
    modifies server
    ensures var st := old(server.job.status);
      var now := if st.phase == Unset || st.phase == Pending then Enter(st, Pending) else st;
      && server.job == Polled(old(server.job), PhaseGroup, st, now, attempts)
      && (Quiet(attempts) ==> server.job == old(server.job).(status := AddedStatus(st, Stores(attempts))))
  {
    hide Overwrite, Replay, Landed, Enter, Agree;
    var fetched, _ := server.Get();
    var job := new Job(id, fetched.spec, fetched.status);
    if job.status.phase == Unset || job.status.phase == Pending {
      R.EnterIs(job.status, Pending);
      UpdateJobStatus(job, Pending, "JobPending");
    }
    var _ := UpdateInCluster(server, PhaseGroup, fetched.status, job.status, attempts);
    AgreeItself(fetched.status, PhaseGroup);
    if Quiet(attempts) {
      SkipOrSave(fetched, PhaseGroup, fetched.status, job.status, attempts);
    }
  }

  lemma AgreeItself(st: Status, g: Group)
    ensures Agree(st, st, g)
  {
  }

  /** onJobUpdateHandler, called with the new job right after it was stored. */
  method OnJobUpdateHandler(server: ApiServer, was: Phase, script: Script)
    modifies server
    ensures var st := old(server.job.status);
      var first := Polled(old(server.job), CounterGroup, st, Handled(was, st), script.counters);
      server.job == Polled(first, ReplicaGroup, st, Handled(was, st), script.readiness)
    ensures Undisturbed(script) ==>
      server.job == old(server.job).(status := EventStatus(was, old(server.job.status), WritesOf(script)))
  {
    hide Overwrite, Replay, Landed, Handled, Agree;
    var stale, _ := server.Get();
    var now := HandleJobStatus(was, stale.status);
    var _ := UpdateInCluster(server, CounterGroup, stale.status, now, script.counters);
    ghost var first := server.job;
    var _ := UpdateInCluster(server, ReplicaGroup, stale.status, now, script.readiness);
    if Undisturbed(script) {
      AgreeItself(stale.status, CounterGroup);
      SkipOrSave(stale, CounterGroup, stale.status, now, script.counters);
      SavedFrame(stale.status, CounterGroup, now, Stores(script.counters), ReplicaGroup);
      AgreeSymmetric(stale.status, first.status, ReplicaGroup);
      SkipOrSave(first, ReplicaGroup, stale.status, now, script.readiness);
    }
  }

  lemma AgreeSymmetric(a: Status, b: Status, g: Group)
    requires Agree(a, b, g)
    ensures Agree(b, a, g)
  {
  }
}
