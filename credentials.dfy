/** The service account a TaskRun's pod runs as. */
module Credentials {
  import opened TaskRunTypes

  /** The primary field wins when set; otherwise the deprecated field is used. The empty
      result is a value meaning "the namespace default", not an error. */
  function GetServiceAccountName(tr: TaskRun): (r: string)
    ensures tr.spec.serviceAccountName != "" ==> r == tr.spec.serviceAccountName
    ensures tr.spec.serviceAccountName == "" ==> r == tr.spec.deprecatedServiceAccount
    ensures r == "" <==> tr.spec.serviceAccountName == "" && tr.spec.deprecatedServiceAccount == ""
  {
    var name := tr.spec.serviceAccountName;
    if name == "" then tr.spec.deprecatedServiceAccount else name
  }

  /** The result is one of the two configured fields. */
  lemma ServiceAccountIsConfigured(tr: TaskRun)
    ensures GetServiceAccountName(tr) in {tr.spec.serviceAccountName, tr.spec.deprecatedServiceAccount}
  {
  }

  /** Once the primary field is set, the deprecated field has no effect. */
  lemma DeprecatedIgnoredWhenPrimarySet(tr: TaskRun, deprecated: string)
    requires tr.spec.serviceAccountName != ""
    ensures GetServiceAccountName(tr.(spec := tr.spec.(deprecatedServiceAccount := deprecated)))
         == GetServiceAccountName(tr)
  {
  }

  /** Moving the effective account into the primary field and clearing the deprecated
      one leaves the effective account unchanged. */
  lemma MigrationPreservesServiceAccount(tr: TaskRun)
    ensures var migrated := tr.(spec := tr.spec.(serviceAccountName := GetServiceAccountName(tr),
                                                 deprecatedServiceAccount := ""));
            GetServiceAccountName(migrated) == GetServiceAccountName(tr)
  {
  }
}
