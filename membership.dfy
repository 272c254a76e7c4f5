/** Whether a TaskRun is part of a pipeline execution, read from two well-known labels. */
module Membership {
  import opened TaskRunTypes

  /** The two well-known label keys: the one naming the Pipeline and the one naming the
      PipelineRun. Both are prefixed by the API group name; their exact strings are kept
      as parameters, so every statement here holds for any two keys. */
  datatype LabelKeys = LabelKeys(pipelineKey: string, pipelineRunKey: string)

  /** Result of the membership query: the flag, the Pipeline name and the PipelineRun name. */
  datatype PipelineMembership = PipelineMembership(isPart: bool, pipeline: string, pipelineRun: string)

  /** Part of a pipeline exactly when both label keys are present; the names are then
      the two label values (which may themselves be empty), and both are empty otherwise. */
  function IsPartOfPipeline(keys: LabelKeys, tr: TaskRun): (m: PipelineMembership)
    ensures m.isPart <==> keys.pipelineKey in tr.labels && keys.pipelineRunKey in tr.labels
    ensures m.isPart ==> (m.pipeline == tr.labels[keys.pipelineKey]
                          && m.pipelineRun == tr.labels[keys.pipelineRunKey])
    ensures !m.isPart ==> m.pipeline == "" && m.pipelineRun == ""
  {
    if keys.pipelineKey in tr.labels && keys.pipelineRunKey in tr.labels then
      PipelineMembership(true, tr.labels[keys.pipelineKey], tr.labels[keys.pipelineRunKey])
    else
      PipelineMembership(false, "", "")
  }

  /** Labels other than the two keys do not affect the result. */
  lemma MembershipIgnoresOtherLabels(keys: LabelKeys, tr: TaskRun, k: string, v: string)
    requires k != keys.pipelineKey && k != keys.pipelineRunKey
    ensures IsPartOfPipeline(keys, tr.(labels := tr.labels[k := v])) == IsPartOfPipeline(keys, tr)
  {
  }

  /** Membership is read from the labels alone, independently of the owner references,
      the spec and the status. */
  lemma MembershipIgnoresOwners(keys: LabelKeys, tr: TaskRun, refs: seq<OwnerReference>)
    ensures IsPartOfPipeline(keys, tr.(ownerReferences := refs)) == IsPartOfPipeline(keys, tr)
  {
  }

  /** Labelling a TaskRun with a Pipeline and a PipelineRun, under distinct keys, makes it
      part of that pipeline with exactly those names. */
  lemma LabelledTaskRunIsPartOfPipeline(keys: LabelKeys, tr: TaskRun, pipeline: string, pipelineRun: string)
    requires keys.pipelineKey != keys.pipelineRunKey
    ensures var labelled := tr.(labels := tr.labels[keys.pipelineKey := pipeline][keys.pipelineRunKey := pipelineRun]);
            IsPartOfPipeline(keys, labelled) == PipelineMembership(true, pipeline, pipelineRun)
  {
  }
}
