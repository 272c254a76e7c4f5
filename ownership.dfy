/** Whether a TaskRun is owned by a PipelineRun, read from its owner references. */
module Ownership {
  import opened TaskRunTypes

  /** Some owner reference of kind PipelineRun exists. */
  ghost predicate HasPipelineRunKind(refs: seq<OwnerReference>)
  {
    exists i :: 0 <= i < |refs| && refs[i].kind == PipelineRunKind
  }

  /** Position of the first owner reference of kind PipelineRun, scanning in list order. */
  function PipelineRunOwnerIndex(refs: seq<OwnerReference>): (r: Option<nat>)
    ensures r.Some? ==> r.value < |refs| && refs[r.value].kind == PipelineRunKind
    ensures r.Some? ==> forall j :: 0 <= j < r.value ==> refs[j].kind != PipelineRunKind
    ensures r.None? <==> forall j :: 0 <= j < |refs| ==> refs[j].kind != PipelineRunKind
  {
    if |refs| == 0 then None
    else if refs[0].kind == PipelineRunKind then Some(0)
    else match PipelineRunOwnerIndex(refs[1..])
      case None => None
      case Some(i) => Some(i + 1)
  }

  /** The owner reference that counts as the PipelineRun owner: the first of that kind. */
  function PipelineRunOwner(refs: seq<OwnerReference>): (r: Option<OwnerReference>)
    ensures r.Some? <==> HasPipelineRunKind(refs)
    ensures r.Some? ==> r.value in refs && r.value.kind == PipelineRunKind
  {
    match PipelineRunOwnerIndex(refs)
    case None => None
    case Some(i) => Some(refs[i])
  }

  /** The scan of the owner references for one of kind PipelineRun; any match suffices. */
  function AnyPipelineRunOwner(refs: seq<OwnerReference>): (b: bool)
    ensures b <==> HasPipelineRunKind(refs)
  {
    if |refs| == 0 then false
    else if refs[0].kind == PipelineRunKind then true
    else AnyPipelineRunOwner(refs[1..])
  }

  /** True exactly when some owner reference has kind PipelineRun. */
  function HasPipelineRunOwnerReference(tr: TaskRun): (b: bool)
    ensures b <==> exists i :: 0 <= i < |tr.ownerReferences| && tr.ownerReferences[i].kind == PipelineRunKind
    ensures b <==> PipelineRunOwner(tr.ownerReferences).Some?
  {
    AnyPipelineRunOwner(tr.ownerReferences)
  }

  /** The first PipelineRun owner of a concatenation is the first one of the front part
      when it has one, and otherwise the first one of the back part: the owner is
      chosen by list order. */
  lemma {:induction false} PipelineRunOwnerOfConcat(front: seq<OwnerReference>, back: seq<OwnerReference>)
    ensures PipelineRunOwner(front + back)
         == if PipelineRunOwner(front).Some? then PipelineRunOwner(front) else PipelineRunOwner(back)
  {
    if |front| == 0 {
      assert front + back == back;
    } else {
      assert (front + back)[1..] == front[1..] + back;
      PipelineRunOwnerOfConcat(front[1..], back);
      if front[0].kind != PipelineRunKind {
        PipelineRunOwnerTail(front);
        PipelineRunOwnerTail(front + back);
      }
    }
  }

  /** Skipping a leading owner of another kind does not change the PipelineRun owner. */
  lemma PipelineRunOwnerTail(refs: seq<OwnerReference>)
    requires |refs| > 0 && refs[0].kind != PipelineRunKind
    ensures PipelineRunOwner(refs) == PipelineRunOwner(refs[1..])
  {
  }

  /** With one PipelineRun owner reference at most, that reference is the owner,
      wherever it stands in the list. */
  lemma UniquePipelineRunOwner(refs: seq<OwnerReference>, k: nat)
    requires k < |refs| && refs[k].kind == PipelineRunKind
    requires forall j :: 0 <= j < |refs| && j != k ==> refs[j].kind != PipelineRunKind
    ensures PipelineRunOwner(refs) == Some(refs[k])
  {
  }
}
