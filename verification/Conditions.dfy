/** pkg/context/status.go: the phase and the condition list of a job. */
module Conditions {
  import opened Wrappers
  import opened Api

  function Reason(phase: Phase): string {
    match phase
    case Pending => "JobPending"
    case Starting => "JobStarting"
    case Running => "JobRunning"
    case Restarting => "JobRestarting"
    case Rescheduling => "JobRescheduling"
    case Failed => "JobFailed"
    case Succeeded => "JobSucceeded"
    case Unset => ""
    case Unknown => ""
  }

  /** The reason of a condition tells its phase. */
  lemma ReasonInjective(a: Phase, b: Phase)
    requires a != b && Reason(a) != ""
    ensures Reason(a) != Reason(b)
  {
  }

  // ---- the updates as functions of the condition list

  function GetCondition(cs: seq<Condition>, phase: Phase): Option<Condition> {
    if cs == [] then None else if cs[0].phase == phase then Some(cs[0]) else GetCondition(cs[1..], phase)
  }

  function FilterOut(cs: seq<Condition>, phase: Phase): seq<Condition> {
    if cs == [] then []
    else (if cs[0].phase == phase then [] else [cs[0].(holds := false)]) + FilterOut(cs[1..], phase)
  }

  function SetCondition(cs: seq<Condition>, c: Condition): seq<Condition> {
    var current := GetCondition(cs, c.phase);
    if current.Some? && current.value.reason == c.reason && current.value.holds == c.holds then cs
    else FilterOut(cs, c.phase) + [c]
  }

  function ClearRunning(cs: seq<Condition>): (r: seq<Condition>)
    ensures |r| == |cs|
    ensures forall i | 0 <= i < |cs| :: r[i] == if cs[i].phase == Running then cs[i].(holds := false) else cs[i]
  {
    seq(|cs|, i requires 0 <= i < |cs| => if cs[i].phase == Running then cs[i].(holds := false) else cs[i])
  }

  function UpdateConditions(st: Status, phase: Phase, reason: string): seq<Condition> {
    var cs := if st.phase == Succeeded || st.phase == Failed then ClearRunning(st.conditions) else st.conditions;
    SetCondition(cs, Condition(phase, true, reason))
  }

  /** UpdateJobStatus. */
  function SetPhase(st: Status, phase: Phase, reason: string): Status {
    if st.phase == phase then st
    else st.(conditions := UpdateConditions(st, phase, reason), phase := phase)
  }

  function Enter(st: Status, phase: Phase): Status { SetPhase(st, phase, Reason(phase)) }

  /** UpdateJobStatusByBackoffLimit. */
  function EnterByBackoff(spec: Spec, st: Status): Status {
    if spec.backoffLimit.None? || st.restarts < spec.backoffLimit.value then Enter(st, Restarting)
    else Enter(st, Failed)
  }

  // ---- the condition list refines the history of phases

  /** One call of UpdateJobStatus. */
  datatype Call = Call(phase: Phase, reason: string)

  function RunCalls(st: Status, calls: seq<Call>): Status {
    if calls == [] then st
    else
      var last := calls[|calls| - 1];
      SetPhase(RunCalls(st, calls[..|calls| - 1]), last.phase, last.reason)
  }

  /** The calls that changed the phase, oldest first. */
  function Changes(start: Phase, calls: seq<Call>): seq<Call> {
    if calls == [] then []
    else
      var before := Changes(start, calls[..|calls| - 1]);
      var phase := if before == [] then start else before[|before| - 1].phase;
      var last := calls[|calls| - 1];
      if last.phase == phase then before else before + [last]
  }

  function Without(h: seq<Call>, phase: Phase): seq<Call> {
    if h == [] then [] else (if h[0].phase == phase then [] else [h[0]]) + Without(h[1..], phase)
  }

  /** A history with only the last occurrence of each phase kept. */
  function LastOnly(h: seq<Call>): seq<Call> {
    if h == [] then []
    else
      var last := h[|h| - 1];
      Without(LastOnly(h[..|h| - 1]), last.phase) + [last]
  }

  /** The conditions a compacted history stands for: only the newest holds. */
  function AsConditions(h: seq<Call>): (cs: seq<Condition>)
    ensures |cs| == |h|
  {
    seq(|h|, i requires 0 <= i < |h| => Condition(h[i].phase, i == |h| - 1, h[i].reason))
  }

  function AllOver(h: seq<Call>): (cs: seq<Condition>)
    ensures |cs| == |h|
  {
    seq(|h|, i requires 0 <= i < |h| => Condition(h[i].phase, false, h[i].reason))
  }

  /** cs agrees with the history h up to the status flags. */
  ghost predicate Mirrors(cs: seq<Condition>, h: seq<Call>) {
    && |cs| == |h|
    && forall i | 0 <= i < |h| :: cs[i].phase == h[i].phase && cs[i].reason == h[i].reason
  }

  lemma {:induction false} FilterOutMirrors(cs: seq<Condition>, h: seq<Call>, phase: Phase)
    requires Mirrors(cs, h)
    ensures FilterOut(cs, phase) == AllOver(Without(h, phase))
  {
    if h != [] {
      FilterOutMirrors(cs[1..], h[1..], phase);
      var tail := Without(h[1..], phase);
      if h[0].phase != phase {
        assert AllOver([h[0]] + tail) == [cs[0].(holds := false)] + AllOver(tail);
      } else {
        assert [] + tail == tail && [] + AllOver(tail) == AllOver(tail);
      }
    }
  }

  lemma {:induction false} GetConditionFinds(cs: seq<Condition>, phase: Phase)
    ensures match GetCondition(cs, phase)
      case None => forall c | c in cs :: c.phase != phase
      case Some(c) => c in cs && c.phase == phase
  {
    if cs != [] && cs[0].phase != phase {
      GetConditionFinds(cs[1..], phase);
      assert cs == [cs[0]] + cs[1..];
    }
  }

  lemma {:induction false} WithoutDistinct(h: seq<Call>, phase: Phase)
    requires Distinct(h)
    ensures Distinct(Without(h, phase))
    ensures forall c :: c in Without(h, phase) <==> c in h && c.phase != phase
  {
    if h != [] {
      WithoutDistinct(h[1..], phase);
      assert h == [h[0]] + h[1..];
    }
  }

  ghost predicate Distinct(h: seq<Call>) {
    forall i, j | 0 <= i < j < |h| :: h[i].phase != h[j].phase
  }

  lemma {:induction false} LastOnlyDistinct(h: seq<Call>)
    ensures Distinct(LastOnly(h))
    ensures h == [] <==> LastOnly(h) == []
    ensures h != [] ==> var l := LastOnly(h); l[|l| - 1] == h[|h| - 1]
  {
    if h != [] {
      LastOnlyDistinct(h[..|h| - 1]);
      WithoutDistinct(LastOnly(h[..|h| - 1]), h[|h| - 1].phase);
    }
  }

  lemma ClearedAlready(st: Status, h: seq<Call>)
    requires st.conditions == AsConditions(h) && (h != [] ==> h[|h| - 1].phase == st.phase)
    requires st.phase == Succeeded || st.phase == Failed
    ensures ClearRunning(st.conditions) == st.conditions
  {
  }

  /** One phase change drops the old condition of its type and appends a new one. */
  lemma {:induction false} SetPhaseShape(st: Status, h: seq<Call>, c: Call)
    requires st.conditions == AsConditions(h) && Distinct(h)
    requires h != [] ==> h[|h| - 1].phase == st.phase
    requires c.phase != st.phase
    ensures SetPhase(st, c.phase, c.reason).conditions == AsConditions(Without(h, c.phase) + [c])
  {
    var cs := st.conditions;
    if st.phase == Succeeded || st.phase == Failed {
      ClearedAlready(st, h);
    }
    hide ClearRunning;
    GetConditionFinds(cs, c.phase);
    FilterOutMirrors(cs, h, c.phase);
    var w := Without(h, c.phase);
    assert AsConditions(w + [c]) == AllOver(w) + [Condition(c.phase, true, c.reason)];
  }

  lemma {:induction false} ChangesEnd(st: Status, calls: seq<Call>)
    ensures var h := Changes(st.phase, calls);
      RunCalls(st, calls).phase == if h == [] then st.phase else h[|h| - 1].phase
  {
    if calls != [] {
      ChangesEnd(st, calls[..|calls| - 1]);
    }
  }

  /** After any run of UpdateJobStatus calls from an empty list, the condition
      list is the phase-change history with the last occurrence of each phase
      kept, and only the newest condition holds. */
  lemma {:induction false} ConditionsRefineHistory(st: Status, calls: seq<Call>)
    requires st.conditions == []
    ensures RunCalls(st, calls).conditions == AsConditions(LastOnly(Changes(st.phase, calls)))
  {
    if calls != [] {
      var before, last := calls[..|calls| - 1], calls[|calls| - 1];
      ConditionsRefineHistory(st, before);
      ChangesEnd(st, before);
      var mid := RunCalls(st, before);
      if last.phase != mid.phase {
        var h := Changes(st.phase, before);
        LastOnlyDistinct(h);
        SetPhaseShape(mid, LastOnly(h), last);
        assert (h + [last])[..|h|] == h;
      }
    }
  }

  // ---- what a reader of the list may rely on

  /** Types are distinct, and exactly the last condition holds; it is the current phase. */
  ghost predicate WellFormed(st: Status) {
    && (forall i, j | 0 <= i < j < |st.conditions| :: st.conditions[i].phase != st.conditions[j].phase)
    && (forall i | 0 <= i < |st.conditions| :: st.conditions[i].holds <==> i == |st.conditions| - 1)
    && (st.conditions != [] ==> st.conditions[|st.conditions| - 1].phase == st.phase)
  }

  const ALL_PHASES: set<Phase> :=
    {Unset, Pending, Starting, Restarting, Rescheduling, Running, Succeeded, Failed, Unknown}

  lemma {:induction false} DistinctBounded(cs: seq<Condition>, room: set<Phase>)
    requires forall i, j | 0 <= i < j < |cs| :: cs[i].phase != cs[j].phase
    requires forall c | c in cs :: c.phase in room
    ensures |cs| <= |room|
  {
    if cs != [] {
      assert cs[0] in cs;
      DistinctBounded(cs[1..], room - {cs[0].phase});
    }
  }

  /** The list never outgrows the number of phases. */
  lemma WellFormedBounded(st: Status)
    requires WellFormed(st)
    ensures |st.conditions| <= 9
  {
    DistinctBounded(st.conditions, ALL_PHASES);
  }

  /** Every phase change keeps the list well formed and puts the new phase last. */
  lemma {:induction false} SetPhaseWellFormed(st: Status, phase: Phase, reason: string)
    requires WellFormed(st)
    ensures WellFormed(SetPhase(st, phase, reason))
    ensures SetPhase(st, phase, reason).phase == phase
  {
    if st.phase != phase {
      var cs := st.conditions;
      var h := seq(|cs|, i requires 0 <= i < |cs| => Call(cs[i].phase, cs[i].reason));
      assert cs == AsConditions(h);
      SetPhaseShape(st, h, Call(phase, reason));
      WithoutDistinct(h, phase);
      var w := Without(h, phase);
      assert forall i | 0 <= i < |w| :: w[i] in w;
    }
  }
}
