/** Identifiers derived from a TaskRun: the reference to the pod that backs it and
    the name of the volume claim shared through its owning PipelineRun. */
module Identity {
  import opened TaskRunTypes
  import opened Ownership

  /** Suffix appended to the PipelineRun owner's name to name its volume claim. */
  const PVCSuffix: string := "-pvc"

  /** The backing pod: a v1 Pod with the TaskRun's own name, in the TaskRun's namespace. */
  function GetBuildPodRef(tr: TaskRun): (r: ObjectReference)
    ensures r.apiVersion == "v1" && r.kind == "Pod"
    ensures r.namespace == tr.namespace && r.name == tr.name
  {
    ObjectReference("v1", "Pod", tr.namespace, tr.name)
  }

  /** Name of the PipelineRun's volume claim; the empty string when the TaskRun is nil
      or has no PipelineRun owner. */
  function GetPipelineRunPVCName(tr: Option<TaskRun>): (r: string)
    ensures tr.None? ==> r == ""
    ensures r == "" <==> tr.None? || !HasPipelineRunKind(tr.value.ownerReferences)
    ensures r != "" ==> tr.Some? && PipelineRunOwner(tr.value.ownerReferences).Some?
                        && r == PipelineRunOwner(tr.value.ownerReferences).value.name + PVCSuffix
  {
    match tr
    case None => ""
    case Some(t) =>
      match PipelineRunOwner(t.ownerReferences)
      case None => ""
      case Some(ref) => ref.name + PVCSuffix
  }

  /** Two TaskRuns are backed by the same pod exactly when they share name and namespace. */
  lemma BuildPodRefInjective(a: TaskRun, b: TaskRun)
    ensures GetBuildPodRef(a) == GetBuildPodRef(b) <==> a.name == b.name && a.namespace == b.namespace
  {
  }

  /** The ownership test and the volume claim name agree: a TaskRun has a PipelineRun
      owner exactly when its claim name is not empty. */
  lemma PVCNameAgreesWithOwnership(tr: TaskRun)
    ensures HasPipelineRunOwnerReference(tr) <==> GetPipelineRunPVCName(Some(tr)) != ""
  {
  }

  /** The claim name ends in the suffix, and removing the suffix gives back the name of
      the PipelineRun owner. */
  lemma PVCNameRoundTrip(tr: TaskRun)
    requires HasPipelineRunOwnerReference(tr)
    ensures var pvc := GetPipelineRunPVCName(Some(tr));
            |pvc| >= |PVCSuffix| && pvc[|pvc| - |PVCSuffix|..] == PVCSuffix
            && pvc[..|pvc| - |PVCSuffix|] == PipelineRunOwner(tr.ownerReferences).value.name
  {
  }

  /** Owner references of other kinds placed before the PipelineRun owner do not change
      the claim name. */
  lemma PVCNameIgnoresOtherOwners(tr: TaskRun, others: seq<OwnerReference>)
    requires forall j :: 0 <= j < |others| ==> others[j].kind != PipelineRunKind
    ensures GetPipelineRunPVCName(Some(tr.(ownerReferences := others + tr.ownerReferences)))
         == GetPipelineRunPVCName(Some(tr))
  {
    PipelineRunOwnerOfConcat(others, tr.ownerReferences);
  }
}
