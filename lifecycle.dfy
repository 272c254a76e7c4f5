/** Coarse run state of a TaskRun: done (from the Succeeded condition), cancelled
    (from the spec status) and started (from the start time). */
module Lifecycle {
  import opened TaskRunTypes

  /** Position of the first condition of type t, the one a condition lookup returns. */
  function ConditionIndex(conds: seq<Condition>, t: ConditionType): (r: Option<nat>)
    ensures r.Some? ==> r.value < |conds| && conds[r.value].condType == t
    ensures r.Some? ==> forall j :: 0 <= j < r.value ==> conds[j].condType != t
    ensures r.None? <==> forall j :: 0 <= j < |conds| ==> conds[j].condType != t
  {
    if |conds| == 0 then None
    else if conds[0].condType == t then Some(0)
    else match ConditionIndex(conds[1..], t)
      case None => None
      case Some(i) => Some(i + 1)
  }

  /** The condition of type t, or None (nil) when the run has none. */
  function GetCondition(conds: seq<Condition>, t: ConditionType): (r: Option<Condition>)
    ensures r.Some? <==> exists i :: 0 <= i < |conds| && conds[i].condType == t
    ensures r.Some? ==> r.value in conds && r.value.condType == t
  {
    match ConditionIndex(conds, t)
    case None => None
    case Some(i) => Some(conds[i])
  }

  /** At most one condition of type t: the one-condition-per-type invariant of the status. */
  ghost predicate AtMostOne(conds: seq<Condition>, t: ConditionType)
  {
    forall i, j :: 0 <= i < |conds| && 0 <= j < |conds| && conds[i].condType == t && conds[j].condType == t ==> i == j
  }

  /** Done: the Succeeded condition is present and not Unknown (a nil condition counts as Unknown). */
  function IsDone(tr: TaskRun): (r: bool)
    ensures r <==> exists i :: 0 <= i < |tr.status.conditions|
                     && tr.status.conditions[i].condType == Succeeded
                     && tr.status.conditions[i].status != ConditionUnknown
                     && forall j :: 0 <= j < i ==> tr.status.conditions[j].condType != Succeeded
  {
    var cs := tr.status.conditions;
    match ConditionIndex(cs, Succeeded)
    case None => false
    case Some(i) => cs[i].status != ConditionUnknown
  }

  /** Cancelled: the spec status requests cancellation. */
  function IsCancelled(tr: TaskRun): (r: bool)
    ensures r <==> tr.spec.status == TaskRunSpecStatusCancelled
  {
    tr.spec.status == TaskRunSpecStatusCancelled
  }

  /** Started: a start time is set and it is not the zero time. */
  function HasStarted(tr: TaskRun): (r: bool)
    ensures r <==> tr.status.startTime != None && tr.status.startTime != Some(0)
  {
    match tr.status.startTime
    case None => false
    case Some(t) => t != 0
  }

  /** With one Succeeded condition at most, a run is done exactly when that condition
      is True (succeeded) or False (failed). */
  lemma IsDoneIffTerminalSucceeded(tr: TaskRun)
    requires AtMostOne(tr.status.conditions, Succeeded)
    ensures IsDone(tr) <==> exists i :: 0 <= i < |tr.status.conditions|
                              && tr.status.conditions[i].condType == Succeeded
                              && (tr.status.conditions[i].status == ConditionTrue
                                  || tr.status.conditions[i].status == ConditionFalse)
  {
  }

  /** A run without a Succeeded condition is not done. */
  lemma NotDoneWithoutSucceeded(tr: TaskRun)
    requires GetCondition(tr.status.conditions, Succeeded) == None
    ensures !IsDone(tr)
  {
  }

  /** Done depends on the conditions only, cancelled on the spec status only, and
      started on the start time only: each flag keeps its value whatever the other
      parts of the snapshot are. */
  lemma FlagsAreIndependent(tr: TaskRun, spec: TaskRunSpec, status: TaskRunStatus)
    ensures IsCancelled(tr.(status := status)) == IsCancelled(tr)
    ensures IsDone(tr.(spec := spec)) == IsDone(tr)
    ensures HasStarted(tr.(spec := spec)) == HasStarted(tr)
    ensures HasStarted(tr.(status := tr.status.(conditions := status.conditions))) == HasStarted(tr)
    ensures IsDone(tr.(status := tr.status.(startTime := status.startTime))) == IsDone(tr)
  {
  }
}
