# TaskRun query functions (Tekton pipeline API, v1alpha1)

A TaskRun is the execution record of one task in a Tekton pipeline. A controller
reconciling TaskRuns asks a handful of read-only questions of a TaskRun snapshot:
is it done, cancelled, started; which pod backs it; which volume claim its owning
PipelineRun provides; is it owned by a PipelineRun; is it labelled as part of a
pipeline; which service account does its pod use. This project models those
queries as pure Dafny functions over a `TaskRun` datatype and proves what each
promises.

The behaviour modelled is the one asserted by
`pkg/apis/pipeline/v1alpha1/taskrun_types_test.go`; the implementation file itself
is not part of this model. Each test asserts a few concrete cases. The model states
the general rule behind them, as the design of the system describes it, and proves
the test cases as lemmas (module `Scenarios`).

Modules, one per component:

- `TaskRunTypes` (`types.dfy`): the TaskRun record. It holds name, namespace, owner
  references (`seq`), labels (`map<string, string>`), the spec and the status. The
  status holds an optional start time and a sequence of conditions.
- `Lifecycle` (`lifecycle.dfy`): `IsDone`, `IsCancelled`, `HasStarted`, and the
  condition lookup they use.
- `Ownership` (`ownership.dfy`): the scan for an owner reference of kind
  `PipelineRun` and `HasPipelineRunOwnerReference`.
- `Identity` (`identity.dfy`): `GetBuildPodRef` and `GetPipelineRunPVCName`.
- `Membership` (`membership.dfy`): `IsPartOfPipeline`.
- `Credentials` (`credentials.dfy`): `GetServiceAccountName`.
- `Scenarios` (`scenarios.dfy`): the rows of the test tables.

Modelling choices:

- A nil `*TaskRun` is `Option<TaskRun>`. Only `GetPipelineRunPVCName` takes one,
  because it is the only query the tests call on nil.
- The start time is `Option<nat>`. `None` is a nil pointer and `Some(0)` is the
  zero time.
- An unset string field is the empty string.
- The two label keys are the API group name joined to the pipeline key and to the
  pipeline-run key. Their strings are not shown, so they are a `LabelKeys`
  parameter. Every result holds for any pair of keys; the test cases need only that
  the two keys differ.
- The Succeeded condition read by `IsDone` is the first condition of that type in
  the list. A missing condition counts as Unknown.
- Among several PipelineRun owner references, the first in list order is the owner
  (`Ownership.PipelineRunOwnerOfConcat`). With exactly one, it is the owner wherever
  it stands (`Ownership.UniquePipelineRunOwner`).
- `TaskRunSpecStatusCancelled` is `"TaskRunCancelled"` and the owner kind is
  `"PipelineRun"`. The test uses the first only by name.

## Model

| member | source | states |
|---|---|---|
| `Lifecycle.IsDone` | pkg/apis/pipeline/v1alpha1/taskrun_types_test.go:94-104 | done iff the first Succeeded condition exists and its status is not Unknown |
| `Lifecycle.IsDoneIffTerminalSucceeded` | pkg/apis/pipeline/v1alpha1/taskrun_types_test.go:94-104 | with at most one Succeeded condition, done iff that condition is True or False; a failed run is done |
| `Lifecycle.NotDoneWithoutSucceeded` | pkg/apis/pipeline/v1alpha1/taskrun_types_test.go:94-104 | a run with no Succeeded condition is not done |
| `Lifecycle.IsCancelled` | pkg/apis/pipeline/v1alpha1/taskrun_types_test.go:106-113 | cancelled iff the spec status equals TaskRunSpecStatusCancelled |
| `Lifecycle.FlagsAreIndependent` | pkg/apis/pipeline/v1alpha1/taskrun_types_test.go:106-113 | cancelled ignores the status (no condition or start time needed); done ignores spec and start time; started ignores spec and conditions |
| `Lifecycle.HasStarted` | pkg/apis/pipeline/v1alpha1/taskrun_types_test.go:123-154 | started iff a start time is present and it is not the zero time |
| `Ownership.PipelineRunOwner` | pkg/apis/pipeline/v1alpha1/taskrun_types_test.go:45-69 | returns an owner reference iff one of kind PipelineRun exists, and it is of that kind and in the list |
| `Ownership.HasPipelineRunOwnerReference` | pkg/apis/pipeline/v1alpha1/taskrun_types_test.go:71-92 | true iff some owner reference has kind PipelineRun; agrees with the owner lookup |
| `Ownership.PipelineRunOwnerOfConcat` | pkg/apis/pipeline/v1alpha1/taskrun_types_test.go:45-69 | the PipelineRun owner is the first one in list order |
| `Ownership.UniquePipelineRunOwner` | pkg/apis/pipeline/v1alpha1/taskrun_types_test.go:55-57 | a sole PipelineRun owner reference is the owner, at any position |
| `Identity.GetBuildPodRef` | pkg/apis/pipeline/v1alpha1/taskrun_types_test.go:33-43 | the reference is a v1 Pod with the TaskRun's name and namespace |
| `Identity.BuildPodRefInjective` | pkg/apis/pipeline/v1alpha1/taskrun_types_test.go:33-43 | two TaskRuns get the same pod reference iff they share name and namespace |
| `Identity.GetPipelineRunPVCName` | pkg/apis/pipeline/v1alpha1/taskrun_types_test.go:45-69 | empty for nil and iff there is no PipelineRun owner; otherwise the owner's name followed by "-pvc" |
| `Identity.PVCNameAgreesWithOwnership` | pkg/apis/pipeline/v1alpha1/taskrun_types_test.go:71-92 | has a PipelineRun owner iff the claim name is not empty |
| `Identity.PVCNameRoundTrip` | pkg/apis/pipeline/v1alpha1/taskrun_types_test.go:55-57 | the claim name ends in "-pvc", and stripping it gives back the owner's name |
| `Identity.PVCNameIgnoresOtherOwners` | pkg/apis/pipeline/v1alpha1/taskrun_types_test.go:50-57 | owners of other kinds placed in front do not change the claim name |
| `Membership.IsPartOfPipeline` | pkg/apis/pipeline/v1alpha1/taskrun_types_test.go:183-221 | part of a pipeline iff both label keys are present; the names are then the label values, and both are empty otherwise |
| `Membership.MembershipIgnoresOtherLabels` | pkg/apis/pipeline/v1alpha1/taskrun_types_test.go:191-203 | labels under other keys do not change the result |
| `Membership.MembershipIgnoresOwners` | pkg/apis/pipeline/v1alpha1/taskrun_types_test.go:191-203 | membership does not depend on owner references |
| `Membership.LabelledTaskRunIsPartOfPipeline` | pkg/apis/pipeline/v1alpha1/taskrun_types_test.go:190-199 | setting both labels (distinct keys) yields (true, pipeline label value, pipeline-run label value) |
| `Credentials.GetServiceAccountName` | pkg/apis/pipeline/v1alpha1/taskrun_types_test.go:156-181 | the primary field wins when set, otherwise the deprecated field; empty iff both are empty |
| `Credentials.ServiceAccountIsConfigured` | pkg/apis/pipeline/v1alpha1/taskrun_types_test.go:156-181 | the result is one of the two configured fields |
| `Credentials.DeprecatedIgnoredWhenPrimarySet` | pkg/apis/pipeline/v1alpha1/taskrun_types_test.go:171-175 | with the primary field set, the deprecated field has no effect |
| `Credentials.MigrationPreservesServiceAccount` | pkg/apis/pipeline/v1alpha1/taskrun_types_test.go:156-181 | moving the effective account into the primary field and clearing the deprecated field keeps the result |
| `Scenarios.BuildPodRefCase` | pkg/apis/pipeline/v1alpha1/taskrun_types_test.go:33-43 | taskrunname in testns gives {v1, Pod, testns, taskrunname} |
| `Scenarios.PipelineRunPVCNameCases` | pkg/apis/pipeline/v1alpha1/taskrun_types_test.go:45-69 | other owner kind gives "", PipelineRun testpr gives "testpr-pvc", nil gives "" |
| `Scenarios.HasPipelineRunCases` | pkg/apis/pipeline/v1alpha1/taskrun_types_test.go:71-92 | other owner kind gives false, PipelineRun owner gives true |
| `Scenarios.IsDoneCase` | pkg/apis/pipeline/v1alpha1/taskrun_types_test.go:94-104 | a Succeeded=False run is done |
| `Scenarios.IsCancelledCase` | pkg/apis/pipeline/v1alpha1/taskrun_types_test.go:106-113 | a spec status of TaskRunSpecStatusCancelled alone gives cancelled |
| `Scenarios.HasStartedCases` | pkg/apis/pipeline/v1alpha1/taskrun_types_test.go:123-154 | no start time gives false, a non-zero time gives true, the zero time gives false |
| `Scenarios.ServiceAccountNameCases` | pkg/apis/pipeline/v1alpha1/taskrun_types_test.go:156-181 | defaultSA only gives defaultSA; deprecatedSA only gives deprecatedSA; both give defaultSA |
| `Scenarios.IsPartOfPipelineCases` | pkg/apis/pipeline/v1alpha1/taskrun_types_test.go:183-221 | both labels give (true, "pipeline", "pipelinerun"); no labels give (false, "", "") |

## Left out

- `GetRunKey`: left out. Its key is "TaskRun/" followed by the object's memory
  address (`%p`), which is process identity and not a value a model can state.
- The test builders (`tb.TaskRun` and its options), `cmp.Diff`, and the test loops
  and failure reporting are left out. `NewTaskRun` and `NewOwnerReference` stand in
  for the builders.
- Timestamps are reduced to a natural number. A condition's last transition time
  is not modelled, and neither are the owner reference's UID and
  blockOwnerDeletion. None of them is read by the queries.
- Nil handling for all queries other than `GetPipelineRunPVCName` is not modelled.
  The tests call only that query on a nil TaskRun. The system description calls
  every query nil-safe, but the tests do not show it.
- `Membership.IsPartOfPipeline`: with only one of the two labels set, the result is
  (false, "", ""), following the system's description ("both keys present"). The
  test table covers only the both-labels and no-labels cases, so it does not decide
  the one-label case.
- `Lifecycle.IsDone`: assumes the condition lookup returns the first condition of
  the type. The tests show a single condition only.
- The exact label-key strings are not part of this model, as explained above.
