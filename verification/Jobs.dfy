/** The job object that the controller edits in memory, and the loops of
    pkg/context/status.go that edit its phase and conditions. */
module Jobs {
  import opened Wrappers
  import opened Api
  import opened Conditions

  class Job {
    const id: JobId
    var spec: Spec
    var status: Status

    constructor (id: JobId, spec: Spec, status: Status)
      ensures this.id == id && this.spec == spec && this.status == status
    {
      this.id, this.spec, this.status := id, spec, status;
    }
  }

  method FindCondition(cs: seq<Condition>, phase: Phase) returns (r: Option<Condition>)
    ensures r == GetCondition(cs, phase)
  {
    for i := 0 to |cs|
      invariant GetCondition(cs[i..], phase) == GetCondition(cs, phase)
    {
      if cs[i].phase == phase {
        return Some(cs[i]);
      }
    }
    r := None;
  }

  lemma FilterOutNext(cs: seq<Condition>, i: nat, phase: Phase)
    requires i < |cs|
    ensures var rest := FilterOut(cs[i + 1..], phase);
      FilterOut(cs[i..], phase) == if cs[i].phase == phase then rest else [cs[i].(holds := false)] + rest
  {
    assert cs[i..][0] == cs[i] && cs[i..][1..] == cs[i + 1..];
    assert [] + FilterOut(cs[i + 1..], phase) == FilterOut(cs[i + 1..], phase);
  }

  lemma FilterOutEnds(cs: seq<Condition>, phase: Phase)
    ensures [] + FilterOut(cs[0..], phase) == FilterOut(cs, phase)
    ensures forall r: seq<Condition> :: r + FilterOut(cs[|cs|..], phase) == r
  {
    assert cs[0..] == cs && cs[|cs|..] == [];
    assert [] + FilterOut(cs, phase) == FilterOut(cs, phase);
  }

  lemma Reassociate(r: seq<Condition>, c: Condition, rest: seq<Condition>)
    ensures r + ([c] + rest) == r + [c] + rest
  {
  }

  method FilterOutConditions(cs: seq<Condition>, phase: Phase) returns (r: seq<Condition>)
    ensures r == FilterOut(cs, phase)
  {
    hide FilterOut;
    r := [];
    FilterOutEnds(cs, phase);
    for i := 0 to |cs|
      invariant r + FilterOut(cs[i..], phase) == FilterOut(cs, phase)
    {
      FilterOutNext(cs, i, phase);
      if cs[i].phase != phase {
        Reassociate(r, cs[i].(holds := false), FilterOut(cs[i + 1..], phase));
        r := r + [cs[i].(holds := false)];
      }
    }
  }

  method SetJobCondition(job: Job, c: Condition)
    modifies job`status
    ensures job.status == old(job.status).(conditions := SetCondition(old(job.status.conditions), c))
  {
    var current := FindCondition(job.status.conditions, c.phase);
    if current.Some? && current.value.reason == c.reason && current.value.holds == c.holds {
      return;
    }
    var others := FilterOutConditions(job.status.conditions, c.phase);
    job.status := job.status.(conditions := others + [c]);
  }

  method UpdateJobConditions(job: Job, phase: Phase, reason: string)
    modifies job`status
    ensures job.status == old(job.status).(conditions := UpdateConditions(old(job.status), phase, reason))
  {
    if job.status.phase == Succeeded || job.status.phase == Failed {
      ghost var before := job.status;
      for i := 0 to |job.status.conditions|
        invariant job.status == before.(conditions := job.status.conditions)
        invariant |job.status.conditions| == |before.conditions|
        invariant forall j | 0 <= j < i :: job.status.conditions[j] == ClearRunning(before.conditions)[j]
        invariant forall j | i <= j < |before.conditions| :: job.status.conditions[j] == before.conditions[j]
      {
        if job.status.conditions[i].phase == Running {
          var cleared := job.status.conditions[i].(holds := false);
          job.status := job.status.(conditions := job.status.conditions[i := cleared]);
        }
      }
      assert job.status.conditions == ClearRunning(before.conditions);
    }
    SetJobCondition(job, Condition(phase, true, reason));
  }

  method UpdateJobStatus(job: Job, phase: Phase, reason: string)
    modifies job`status
    ensures job.status == SetPhase(old(job.status), phase, reason)
  {
    if job.status.phase == phase {
      return;
    }
    UpdateJobConditions(job, phase, reason);
    job.status := job.status.(phase := phase);
  }

  method UpdateJobStatusByBackoffLimit(job: Job)
    modifies job`status
    ensures job.status == EnterByBackoff(job.spec, old(job.status))
  {
    if job.spec.backoffLimit.None? || job.status.restarts < job.spec.backoffLimit.value {
      UpdateJobStatus(job, Restarting, "JobRestarting");
    } else {
      UpdateJobStatus(job, Failed, "JobFailed");
    }
  }
}
