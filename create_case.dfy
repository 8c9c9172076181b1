/** The input parameters the manifest declares for creating a case. */
module CreateCase {
  import opened CydarmInputParam
  import CydarmConnector

  /** `INPUT_PARAMS_CREATE_CASE`, as records; each is built once, with the dataclass defaults. */
  const CreateCaseDeclarations: seq<ParamRecord> := [
    ParamRecord("acl", "The ACL of the data object", required := false),
    ParamRecord("assignee", "The name of the current assignee", required := false),
    ParamRecord("closed", "The time at which the case was closed", required := false),
    ParamRecord("created", "The time at which the case was created", required := false),
    ParamRecord("deletable", "Whether the data is deletable in the current context", dataType := "boolean", required := true),
    ParamRecord("description", "Description", required := true),
    ParamRecord("editable", "Whether the data is editable in the current context", dataType := "boolean", required := true),
    ParamRecord("locator", "The locator of the case", required := false),
    ParamRecord("manageable", "Whether the data is manageable in the current context", dataType := "boolean", required := true),
    ParamRecord("members", "UUIDs of member cases (if this case is a group).\n                           Expected format: JSON Array.\n                           Example: [\"d9e526e8-59fc-44e3-8458-08da3269e0b0\", \"bd10075d-740c-4a7c-931c-c2a65843f3dc\"]\n                           ", required := false),
    ParamRecord("metadata", "Metadata fields attached to the case.\n               Expected format: JSON Object. Example:\n               {\n                \"Email-From\" : { \"value\" : \"sender@email.com\"},\n                \"Email-To\" : { \"value\" : \"recipient@email.com\"}\n               }\n               ", required := false),
    ParamRecord("minSlaName", "The minimum SLA name.", required := false),
    ParamRecord("minSlaSeconds", "The minimum SLA remaining time, in seconds.", dataType := "numeric", required := false),
    ParamRecord("org", "The name of the organisation who the case is relevant to", required := true),
    ParamRecord("readable", "Whether the data is readable in the current context", dataType := "boolean", required := true),
    ParamRecord("severity", "An integer 1 to 5.", dataType := "numeric", required := false),
    ParamRecord("severityName", "The severity name for the case", required := false),
    ParamRecord("status", "The current status of the case", required := false),
    ParamRecord("tags", "The tags attached to this case. Expected format: JSON Array.", required := false),
    ParamRecord("totalActionsInAllPlaybooks", "The total number of actions for all playbooks in a case", dataType := "numeric", required := false),
    ParamRecord("totalCompletedActionsInAllPlaybooks", "The number of actions that are completed for all playbooks in a case", dataType := "numeric", required := false),
    ParamRecord("updateAcls", "Update all ACLS for the case including data items", dataType := "boolean", required := false),
    ParamRecord("uuid", "The UUID of the case", required := false)]

  /** The names of a list of declarations, in order. */
  function DeclaredNames(rs: seq<ParamRecord>): (names: seq<string>)
    ensures |names| == |rs| && forall i :: 0 <= i < |rs| ==> names[i] == rs[i].name
  {
    seq(|rs|, i requires 0 <= i < |rs| => rs[i].name)
  }

  /** The first thirteen declared names are the first thirteen case fields. */
  lemma DeclaredHead()
    ensures |CreateCaseDeclarations| == 23
    ensures forall i :: 0 <= i < 13 ==> CreateCaseDeclarations[i].name == CydarmConnector.CaseArgNames[i]
  {
  }

  /** The remaining declared names are the case fields after `modified`. */
  lemma DeclaredTail()
    ensures forall i :: 13 <= i < 23 ==> CreateCaseDeclarations[i].name == CydarmConnector.CaseArgNames[i + 1]
  {
  }

  /**
   * The manifest declares every case field `parse_case_args` accepts, in the
   * same order, except `modified`; so every declared field reaches the client.
   */
  lemma DeclaredCaseFields()
    ensures DeclaredNames(CreateCaseDeclarations)
            == CydarmConnector.CaseArgNames[..13] + CydarmConnector.CaseArgNames[14..]
    ensures forall n :: n in DeclaredNames(CreateCaseDeclarations) ==> n in CydarmConnector.CaseArgNames
  {
    DeclaredHead();
    DeclaredTail();
    var names := DeclaredNames(CreateCaseDeclarations);
    var fields := CydarmConnector.CaseArgNames;
    assert |fields| == 24;
    var accepted := fields[..13] + fields[14..];
    assert forall i :: 0 <= i < 23 ==> names[i] == accepted[i];
    assert names == accepted;
  }

  /** The parameter objects of `INPUT_PARAMS_CREATE_CASE`, built at import. */
  method CreateCaseParams() returns (ps: seq<InputParam>)
    ensures Records(ps) == CreateCaseDeclarations
    ensures forall i :: 0 <= i < |ps| ==> fresh(ps[i])
    ensures forall i, j :: 0 <= i < j < |ps| ==> ps[i] != ps[j]
  {
    ps := Instantiate(CreateCaseDeclarations);
  }
}
