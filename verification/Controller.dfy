/** The controller as a state machine: the job and its pods in the cluster, and
    everything that can happen to them. */
module Controller {
  import opened Api
  import opened Util
  import opened Cluster
  import opened Conditions
  import opened Replicas
  import opened Cleanup
  import opened Handlers
  import opened Validator
  import opened Persistence

  /** The entry counters record history, not cluster state: how often the stored
      phase became Restarting or Rescheduling, and for how many of those changes
      the handler failed to store its increment. */
  datatype World = World(
    store: Store,
    spec: Spec,
    status: Status,
    restartEntries: nat,
    restartsLost: nat,
    rescheduleEntries: nat,
    reschedulesLost: nat)

  /** Which polls got their update through during one reconcile and the event it
      causes. A poll that times out leaves the stored job unchanged. */
  datatype Writes = Writes(namesRead: bool, names: bool, phase: bool, replicas: bool, counters: bool, readiness: bool)

  const ALL_WRITES := Writes(true, true, true, true, true, true)

  datatype Event =
    | JobAdded(saved: bool)
    | Reconciled(list: seq<Pod>, faults: Faults, servicesOk: bool, writes: Writes)
    | PodsDrifted(store: Store)
    | SpecEdited(spec: Spec)
    | Allocated(allocation: seq<string>)

  /** What may happen to pods behind the controller's back: they change status,
      get bound to nodes, start terminating, or vanish. */
  ghost predicate Drift(s: Store, t: Store) {
    forall n | n in t ::
      && n in s
      && t[n].meta == s[n].meta
      && (IsPodTerminating(s[n]) ==> IsPodTerminating(t[n]))
  }

  ghost predicate Enabled(w: World, e: Event) {
    match e
    case Reconciled(list, _, _, _) => IsListing(list, w.store)
    case PodsDrifted(t) => Drift(w.store, t)
    case _ => true
  }

  /** onJobUpdateHandler: run the handlers of the phase change and store what they
      changed. */
  function EventStatus(was: Phase, st: Status, writes: Writes): Status {
    var now := Handled(was, st);
    Saved(Saved(st, CounterGroup, now, writes.counters), ReplicaGroup, now, writes.readiness)
  }

  /** The update event of a stored phase change is handled before the next
      reconcile. */
  ghost function HandleEvent(w: World, was: Phase, writes: Writes): World {
    if w.status.phase == was then w
    else
      w.(
        status := EventStatus(was, w.status, writes),
        restartEntries := w.restartEntries + if w.status.phase == Restarting then 1 else 0,
        restartsLost := w.restartsLost + if w.status.phase == Restarting && !writes.counters then 1 else 0,
        rescheduleEntries := w.rescheduleEntries + if w.status.phase == Rescheduling then 1 else 0,
        reschedulesLost := w.reschedulesLost + if w.status.phase == Rescheduling && !writes.counters then 1 else 0)
  }

  function SaveReplicas(stored: Status, local: Status, ok: bool): Status {
    Saved(stored, ReplicaGroup, local, ok)
  }

  function SavePhase(stored: Status, local: Status, ok: bool): Status {
    Saved(stored, PhaseGroup, local, ok)
  }

  /** The spec a reconcile works with. */
  function LocalSpec(spec: Spec, writes: Writes): Spec {
    if writes.namesRead then Named(spec) else spec
  }

  predicate IsTerminal(phase: Phase) { phase == Succeeded || phase == Failed }

  /** The spec it leaves in the store. */
  function SavedSpec(spec: Spec, writes: Writes): Spec {
    if writes.namesRead && writes.names then Named(spec) else spec
  }

  /** The stored job and its pods. */
  datatype Stored = Stored(store: Store, spec: Spec, status: Status)

  /** Reconcile: default the names, validate, clean up a finished job, otherwise
      reconcile its replicas. */
  ghost function ReconcileJob(id: JobId, j: Stored, list: seq<Pod>, f: Faults, servicesOk: bool,
                              writes: Writes): Stored {
    var spec := LocalSpec(j.spec, writes);
    var saved := SavedSpec(j.spec, writes);
    if !Acceptable(spec.tasks) then
      Stored(j.store, saved, SavePhase(j.status, Enter(j.status, Failed), writes.phase))
    else if IsTerminal(j.status.phase) then
      var c := CleanUp(spec.cleanPodPolicy, list, j.store, servicesOk, f);
      var local := j.status.(readyReplicas := 0, taskStatus := map[]);
      Stored(c.store, saved, SaveReplicas(j.status, local, c.err == NoError && writes.replicas))
    else
      var o := ReconcilePhase(id, spec, j.status, list, j.store, f);
      Stored(o.store, saved, SaveReplicas(SavePhase(j.status, o.status, writes.phase), o.status, writes.replicas))
  }

  /** A reconcile and the update event it causes. */
  ghost function Reconcile(id: JobId, w: World, list: seq<Pod>, f: Faults, servicesOk: bool, writes: Writes): World {
    var j := ReconcileJob(id, Stored(w.store, w.spec, w.status), list, f, servicesOk, writes);
    HandleEvent(w.(store := j.store, spec := j.spec, status := j.status), w.status.phase, writes)
  }

  /** onJobAddHandler. */
  function AddedStatus(st: Status, saved: bool): Status {
    if st.phase == Unset || st.phase == Pending then SavePhase(st, Enter(st, Pending), saved) else st
  }

  ghost function Next(id: JobId, w: World, e: Event): World {
    match e
    case JobAdded(saved) => HandleEvent(w.(status := AddedStatus(w.status, saved)), w.status.phase, ALL_WRITES)
    case Reconciled(list, f, servicesOk, writes) => Reconcile(id, w, list, f, servicesOk, writes)
    case PodsDrifted(t) => w.(store := t)
    case SpecEdited(spec) => w.(spec := spec)
    case Allocated(allocation) => w.(status := w.status.(allocation := allocation))
  }

  /** A job as it is submitted. */
  ghost predicate Initial(w: World) {
    && w.store == map[]
    && (w.status.phase == Unset || w.status.phase == Pending)
    && w.status.conditions == []
    && w.status.restarts == w.status.reschedules == 0
    && w.restartEntries == w.restartsLost == w.rescheduleEntries == w.reschedulesLost == 0
  }

  /** Worlds and the events between them, from a submitted job on. */
  ghost predicate IsRun(id: JobId, ws: seq<World>, es: seq<Event>) {
    && |ws| == |es| + 1
    && Initial(ws[0])
    && forall i | 0 <= i < |es| :: Enabled(ws[i], es[i]) && ws[i + 1] == Next(id, ws[i], es[i])
  }
}
