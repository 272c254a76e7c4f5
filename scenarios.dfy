/** The table-driven cases of the TaskRun query tests, each stated as a lemma over the
    model: the TaskRuns the tests build and the results they expect. */
module Scenarios {
  import opened TaskRunTypes
  import opened Lifecycle
  import opened Ownership
  import opened Identity
  import opened Membership
  import opened Credentials

  /** A TaskRun with a single owner reference of the given kind, named testpr. */
  function OwnedTaskRun(kind: string): TaskRun
  {
    NewTaskRun("taskrunname", "testns").(ownerReferences := [NewOwnerReference(kind, "testpr")])
  }

  /** "taskrunname" in "testns" is backed by the v1 Pod "taskrunname" in "testns". */
  lemma BuildPodRefCase()
    ensures GetBuildPodRef(NewTaskRun("taskrunname", "testns"))
         == ObjectReference("v1", "Pod", "testns", "taskrunname")
  {
  }

  /** Claim name: empty for another owner kind, "testpr-pvc" for the PipelineRun testpr,
      empty for a nil TaskRun. */
  lemma PipelineRunPVCNameCases()
    ensures GetPipelineRunPVCName(Some(OwnedTaskRun("SomeOtherOwner"))) == ""
    ensures GetPipelineRunPVCName(Some(OwnedTaskRun("PipelineRun"))) == "testpr-pvc"
    ensures GetPipelineRunPVCName(None) == ""
  {
  }

  /** Ownership: false for another owner kind, true for a PipelineRun owner. */
  lemma HasPipelineRunCases()
    ensures !HasPipelineRunOwnerReference(OwnedTaskRun("SomeOtherOwner"))
    ensures HasPipelineRunOwnerReference(OwnedTaskRun("PipelineRun"))
  {
  }

  /** A run whose Succeeded condition is False (failed) is done. */
  lemma IsDoneCase()
    ensures var failed := Condition(Succeeded, ConditionFalse, "", "");
            IsDone(NewTaskRun("", "").(status := TaskRunStatus(None, [failed])))
  {
  }

  /** Requesting cancellation in the spec is enough: no condition and no start time. */
  lemma IsCancelledCase()
    ensures IsCancelled(NewTaskRun("", "").(spec := TaskRunSpec("", "", TaskRunSpecStatusCancelled)))
  {
  }

  /** Not started without a start time or with the zero time; started with a later time. */
  lemma HasStartedCases(now: nat)
    requires now > 0
    ensures !HasStarted(NewTaskRun("taskrunname", "testns").(status := TaskRunStatus(None, [])))
    ensures HasStarted(NewTaskRun("taskrunname", "testns").(status := TaskRunStatus(Some(now), [])))
    ensures !HasStarted(NewTaskRun("taskrunname", "testns").(status := TaskRunStatus(Some(0), [])))
  {
  }

  /** Primary only gives defaultSA, deprecated only gives deprecatedSA, both give defaultSA. */
  lemma ServiceAccountNameCases()
    ensures GetServiceAccountName(NewTaskRun("name", "ns").(spec := TaskRunSpec("defaultSA", "", ""))) == "defaultSA"
    ensures GetServiceAccountName(NewTaskRun("name", "ns").(spec := TaskRunSpec("", "deprecatedSA", ""))) == "deprecatedSA"
    ensures GetServiceAccountName(NewTaskRun("name", "ns").(spec := TaskRunSpec("defaultSA", "deprecatedSA", ""))) == "defaultSA"
  {
  }

  /** Both labels set gives (true, "pipeline", "pipelinerun"); no labels gives (false, "", ""). */
  lemma IsPartOfPipelineCases(keys: LabelKeys)
    requires keys.pipelineKey != keys.pipelineRunKey
    ensures var labelled := NewTaskRun("taskrunname", "testns").(labels := map[keys.pipelineKey := "pipeline", keys.pipelineRunKey := "pipelinerun"]);
            IsPartOfPipeline(keys, labelled) == PipelineMembership(true, "pipeline", "pipelinerun")
    ensures IsPartOfPipeline(keys, NewTaskRun("taskrunname", "testns")) == PipelineMembership(false, "", "")
  {
  }
}
