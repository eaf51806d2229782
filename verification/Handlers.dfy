/** pkg/controllers/handler.go: the table of what happens on a phase change. */
module Handlers {
  import opened Api

  datatype Handler =
    | Nothing
    | OnJobStarting | OnJobRunning | OnJobRestarting | OnJobRescheduling | OnJobFailed | OnJobSucceeded
    | IncreaseRestartCount | IncreaseRescheduleCount | UpdateReadyReplicas

  /** The handlers registered for one phase change, in order. */
  datatype Chain = End | Then(handler: Handler, rest: Chain)

  type Row = map<Phase, Chain>

  const STAY := Then(Nothing, End)
  const START := Then(OnJobStarting, End)
  const RESTART := Then(OnJobRestarting, Then(IncreaseRestartCount, End))
  const RESCHEDULE := Then(OnJobRescheduling, Then(IncreaseRescheduleCount, End))
  const RUN := Then(OnJobRunning, End)
  const FAIL := Then(OnJobFailed, Then(UpdateReadyReplicas, End))
  const SUCCEED := Then(OnJobSucceeded, Then(UpdateReadyReplicas, End))

  // The rows that registerJobStatusHandlers leaves behind. Its call for Succeeded
  // to Rescheduling names Failed as the old phase, so that entry is missing here.

  const PENDING_ROW: Row := map[
    Pending := STAY, Starting := START, Restarting := RESTART, Rescheduling := RESCHEDULE,
    Running := RUN, Failed := FAIL, Succeeded := SUCCEED]

  const STARTING_ROW: Row := map[
    Pending := STAY, Starting := STAY, Restarting := RESTART, Rescheduling := RESCHEDULE,
    Running := RUN, Failed := FAIL, Succeeded := SUCCEED]

  const RESTARTING_ROW: Row := map[
    Pending := STAY, Starting := START, Restarting := STAY, Rescheduling := RESCHEDULE,
    Running := RUN, Failed := FAIL, Succeeded := SUCCEED]

  const RESCHEDULING_ROW: Row := map[
    Pending := STAY, Starting := START, Restarting := RESTART, Rescheduling := STAY,
    Running := RUN, Failed := FAIL, Succeeded := SUCCEED]

  const RUNNING_ROW: Row := map[
    Pending := STAY, Starting := START, Restarting := RESTART, Rescheduling := RESCHEDULE,
    Running := STAY, Failed := FAIL, Succeeded := SUCCEED]

  const FAILED_ROW: Row := map[
    Pending := STAY, Starting := START, Restarting := RESTART, Rescheduling := RESCHEDULE,
    Running := RUN, Failed := STAY, Succeeded := SUCCEED]

  const SUCCEEDED_ROW: Row := map[
    Pending := STAY, Starting := START, Restarting := RESTART, Running := RUN,
    Failed := FAIL, Succeeded := STAY]

  /** jobStatusHandlers: the row of a phase, empty for the phases without one. */
  function JobStatusHandlers(was: Phase): Row {
    match was
    case Pending => PENDING_ROW
    case Starting => STARTING_ROW
    case Restarting => RESTARTING_ROW
    case Rescheduling => RESCHEDULING_ROW
    case Running => RUNNING_ROW
    case Failed => FAILED_ROW
    case Succeeded => SUCCEEDED_ROW
    case _ => map[]
  }

  function Entry(row: Row, now: Phase): Chain { if now in row then row[now] else End }

  /** The lookup of HandleJobStatus: a missing row or entry has no handlers. */
  function Lookup(was: Phase, now: Phase): Chain { Entry(JobStatusHandlers(was), now) }

  predicate Tracked(was: Phase) { was != Unset && was != Unknown }

  /** The rule behind the table: what the new phase calls for, whatever the old one
      was, with one hole. */
  function Rule(was: Phase, now: Phase): Chain {
    if !Tracked(was) || !Tracked(now) || (was == Succeeded && now == Rescheduling) then End
    else if was == now then STAY
    else match now
      case Starting => START
      case Restarting => RESTART
      case Rescheduling => RESCHEDULE
      case Running => RUN
      case Failed => FAIL
      case Succeeded => SUCCEED
      case _ => STAY
  }

  lemma EarlyRowsFollowRule(now: Phase)
    ensures Entry(PENDING_ROW, now) == Rule(Pending, now)
    ensures Entry(STARTING_ROW, now) == Rule(Starting, now)
    ensures Entry(RESTARTING_ROW, now) == Rule(Restarting, now)
  {
  }

  lemma LateRowsFollowRule(now: Phase)
    ensures Entry(RESCHEDULING_ROW, now) == Rule(Rescheduling, now)
    ensures Entry(RUNNING_ROW, now) == Rule(Running, now)
    ensures Entry(FAILED_ROW, now) == Rule(Failed, now)
    ensures Entry(SUCCEEDED_ROW, now) == Rule(Succeeded, now)
  {
  }

  lemma NoHandlers(was: Phase, now: Phase)
    ensures Entry(map[], now) == End && (!Tracked(was) ==> Rule(was, now) == End)
  {
  }

  /** The table follows the rule at every pair of phases. */
  lemma TableFollowsRule(was: Phase, now: Phase)
    ensures Lookup(was, now) == Rule(was, now)
  {
    EarlyRowsFollowRule(now);
    LateRowsFollowRule(now);
    hide Rule, Entry;
    NoHandlers(was, now);
  }

  function Apply(st: Status, h: Handler): Status {
    match h
    case IncreaseRestartCount => st.(restarts := Int32(st.restarts + 1))
    case IncreaseRescheduleCount => st.(reschedules := Int32(st.reschedules + 1))
    case UpdateReadyReplicas => st.(readyReplicas := 0)
    case _ => st
  }

  function ApplyAll(st: Status, hs: Chain): Status
    decreases hs
  {
    match hs
    case End => st
    case Then(h, rest) => ApplyAll(Apply(st, h), rest)
  }

  /** What HandleJobStatus does to the status. */
  function Handled(was: Phase, st: Status): Status {
    ApplyAll(st, Lookup(was, st.phase))
  }

  /** Which phase changes count, and what else a handled change does. */
  lemma HandleEffect(was: Phase, st: Status)
    ensures var r := Handled(was, st);
      && r.restarts == (if Tracked(was) && was != Restarting && st.phase == Restarting
                        then Int32(st.restarts + 1) else st.restarts)
      && r.reschedules == (if Tracked(was) && was != Rescheduling && was != Succeeded && st.phase == Rescheduling
                           then Int32(st.reschedules + 1) else st.reschedules)
      && r.readyReplicas == (if Tracked(was) && was != st.phase && (st.phase == Failed || st.phase == Succeeded)
                             then 0 else st.readyReplicas)
      && r == st.(restarts := r.restarts, reschedules := r.reschedules, readyReplicas := r.readyReplicas)
  {
    hide Lookup, Int32;
    TableFollowsRule(was, st.phase);
    match Rule(was, st.phase)
    case End =>
    case Then(h, rest) => assert rest.Then? ==> ApplyAll(Apply(st, h), rest) == Apply(Apply(st, h), rest.handler);
  }

  /** HandleJobStatus on the status of a job that was in phase `was`. */
  method HandleJobStatus(was: Phase, status: Status) returns (r: Status)
    ensures r == Handled(was, status)
  {
    r := status;
    var handlers := Lookup(was, status.phase);
    while handlers.Then?
      invariant ApplyAll(r, handlers) == Handled(was, status)
      decreases handlers
    {
      r := Apply(r, handlers.handler);
      handlers := handlers.rest;
    }
  }
}
