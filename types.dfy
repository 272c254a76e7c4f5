/** The records a TaskRun snapshot is made of: Kubernetes object metadata reduced
    to what the queries read (name, namespace, owner references, labels), the
    desired state (spec) and the observed state (status) with its conditions. */
module TaskRunTypes {

  /** A pointer that may be nil, or a field that may be unset. */
  datatype Option<+T> = None | Some(value: T)

  /** The three-valued status of a condition (corev1.ConditionStatus). */
  datatype ConditionStatus = ConditionTrue | ConditionFalse | ConditionUnknown

  /** The type of a condition; only Succeeded is read by the queries. */
  datatype ConditionType = Succeeded | OtherCondition(name: string)

  /** One status condition (apis.Condition), without its timestamp. */
  datatype Condition = Condition(
    condType: ConditionType,
    status: ConditionStatus,
    reason: string,
    message: string)

  /** An owner reference in the object metadata. */
  datatype OwnerReference = OwnerReference(
    apiVersion: string,
    kind: string,
    name: string,
    controller: bool)

  /** A reference to another object (corev1.ObjectReference). */
  datatype ObjectReference = ObjectReference(
    apiVersion: string,
    kind: string,
    namespace: string,
    name: string)

  /** Desired state. The empty string stands for an unset string field. */
  datatype TaskRunSpec = TaskRunSpec(
    serviceAccountName: string,
    deprecatedServiceAccount: string,
    status: string)

  /** Observed state. The start time is absent (nil) or a time, 0 being the zero time. */
  datatype TaskRunStatus = TaskRunStatus(
    startTime: Option<nat>,
    conditions: seq<Condition>)

  datatype TaskRun = TaskRun(
    name: string,
    namespace: string,
    ownerReferences: seq<OwnerReference>,
    labels: map<string, string>,
    spec: TaskRunSpec,
    status: TaskRunStatus)

  /** The spec status value that requests cancellation (TaskRunSpecStatusCancelled). */
  const TaskRunSpecStatusCancelled: string := "TaskRunCancelled"

  /** The owner kind of a PipelineRun. */
  const PipelineRunKind: string := "PipelineRun"

  /** A TaskRun with the given name and namespace and every other field at its zero value. */
  function NewTaskRun(name: string, namespace: string): TaskRun
  {
    TaskRun(name, namespace, [], map[], TaskRunSpec("", "", ""), TaskRunStatus(None, []))
  }

  /** An owner reference of the given kind and name, as the tests build them. */
  function NewOwnerReference(kind: string, name: string): OwnerReference
  {
    OwnerReference("", kind, name, false)
  }
}
