/**
 * The helpers that build the app manifest: output fields and their
 * dictionaries, the parameter dictionary of an action, and the action entry
 * itself.
 */
module GenAppJson {
  import opened Wrappers
  import opened Json
  import opened CydarmInputParam
  import CydarmConnector

  // ---------------------------------------------------------------------------
  // Output fields

  /** An output field of an action; its type is `string` unless given. */
  datatype OutputField = OutputField(dataPath: string, dataType: string := "string")

  /** `dataclasses.asdict` of an output field. */
  function FieldDict(f: OutputField): FieldRecord
  {
    FieldRecord(f.dataPath, f.dataType)
  }

  /** A field given only its data path is a string field. */
  lemma OutputFieldDefault(dataPath: string)
    ensures FieldDict(OutputField(dataPath)) == FieldRecord(dataPath, "string")
  {
  }

  /** `as_list_of_dicts`: the dictionary of each field, in order. */
  function AsListOfDicts(fields: seq<OutputField>): (dicts: seq<FieldRecord>)
    ensures |dicts| == |fields|
    ensures forall i :: 0 <= i < |fields| ==>
      dicts[i].dataPath == fields[i].dataPath && dicts[i].dataType == fields[i].dataType
  {
    seq(|fields|, i requires 0 <= i < |fields| => FieldDict(fields[i]))
  }

  /** Converting a concatenation converts each part in place: order is kept. */
  lemma AsListOfDictsAppend(a: seq<OutputField>, b: seq<OutputField>)
    ensures AsListOfDicts(a + b) == AsListOfDicts(a) + AsListOfDicts(b)
  {
    assert |AsListOfDicts(a + b)| == |AsListOfDicts(a) + AsListOfDicts(b)|;
    forall i | 0 <= i < |a + b|
      ensures AsListOfDicts(a + b)[i] == (AsListOfDicts(a) + AsListOfDicts(b))[i]
    {
      if i >= |a| {
        assert (a + b)[i] == b[i - |a|];
      }
    }
  }

  /** `OUTPUT_STATUS_MESSAGE_SUMMARY`: status, message and the two summary counts. */
  const OutputStatusMessageSummary: seq<FieldRecord> := AsListOfDicts([
    OutputField("action_result.status"),
    OutputField("action_result.message"),
    OutputField("summary.total_objects", "numeric"),
    OutputField("summary.total_objects_successful", "numeric")])

  /**
   * The summary fields the manifest advertises are exactly the counts an
   * action result's summary holds, and they are numeric.
   */
  lemma SummaryFieldsAreRecorded(count: nat)
    ensures OutputStatusMessageSummary[2] == FieldRecord("summary.total_objects", "numeric")
    ensures OutputStatusMessageSummary[3] == FieldRecord("summary.total_objects_successful", "numeric")
    ensures CydarmConnector.Summary(count).Keys == {"total_objects", "total_objects_successful"}
    ensures OutputStatusMessageSummary[0].dataType == "string" && OutputStatusMessageSummary[1].dataType == "string"
  {
  }

  // ---------------------------------------------------------------------------
  // Declared inputs of the playbook actions

  /** `INPUT_PARAMS_CREATE_PLAYBOOK`. */
  const CreatePlaybookDeclarations: seq<ParamRecord> := [
    ParamRecord("name", "The name of the playbook", required := true),
    ParamRecord("acl", "The UUID of the ACL of the playbook", required := true),
    ParamRecord("description", "Playbook description", required := true)]

  /** `INPUT_PARAMS_CREATE_PLAYBOOK_ACTION`. */
  const CreatePlaybookActionDeclarations: seq<ParamRecord> := [
    ParamRecord("name", "The name of the action", required := true),
    ParamRecord("acl", "The UUID of the ACL of the action", required := true),
    ParamRecord("description", "Action description", required := true)]

  /**
   * Both playbook actions declare a required `acl` and no `acl_uuid`, so the
   * parameters an action run passes carry the ACL under `acl`.
   */
  lemma PlaybookInputsNameAcl()
    ensures CreatePlaybookDeclarations[1].name == "acl" && CreatePlaybookDeclarations[1].required
    ensures CreatePlaybookActionDeclarations[1].name == "acl" && CreatePlaybookActionDeclarations[1].required
    ensures forall r :: r in CreatePlaybookDeclarations ==> r.name != "acl_uuid"
    ensures forall r :: r in CreatePlaybookActionDeclarations ==> r.name != "acl_uuid"
  {
  }

  // ---------------------------------------------------------------------------
  // generate_input_params_dict

  /** The records numbered by their index in the list. */
  function Numbered(rs: seq<ParamRecord>): (r: seq<ParamRecord>)
    ensures |r| == |rs|
  {
    seq(|rs|, i requires 0 <= i < |rs| => rs[i].(order := i))
  }

  /** Records filed by name in list order, a later record replacing an earlier one of the same name. */
  function Listing(rs: seq<ParamRecord>): map<string, ParamRecord>
  {
    if rs == [] then map[] else Listing(rs[..|rs| - 1])[rs[|rs| - 1].name := rs[|rs| - 1]]
  }

  /** One entry per distinct name in the list. */
  lemma {:induction false} ListingKeys(rs: seq<ParamRecord>)
    ensures Listing(rs).Keys == set r | r in rs :: r.name
  {
    if rs != [] {
      var init := rs[..|rs| - 1];
      ListingKeys(init);
      assert rs == init + [rs[|rs| - 1]];
      assert forall r :: r in rs <==> r in init || r == rs[|rs| - 1];
    }
  }

  /** The entry of a name is the last record of that name in the list. */
  lemma {:induction false} ListingLast(rs: seq<ParamRecord>, i: nat)
    requires i < |rs|
    requires forall j :: i < j < |rs| ==> rs[j].name != rs[i].name
    ensures rs[i].name in Listing(rs) && Listing(rs)[rs[i].name] == rs[i]
  {
    if i < |rs| - 1 {
      var init := rs[..|rs| - 1];
      assert forall j :: i < j < |init| ==> init[j] == rs[j];
      ListingLast(init, i);
    }
  }

  /**
   * When the names are distinct, each parameter's entry is its record with
   * `order` set to its index in the list.
   */
  lemma ListingOrders(rs: seq<ParamRecord>, i: nat)
    requires i < |rs|
    requires forall j, k :: 0 <= j < k < |rs| ==> rs[j].name != rs[k].name
    ensures rs[i].name in Listing(Numbered(rs))
    ensures Listing(Numbered(rs))[rs[i].name] == rs[i].(order := i)
  {
    ListingLast(Numbered(rs), i);
  }

  /** Parameter `p` has the fields of `r`, except perhaps its `order`. */
  ghost predicate SameButOrder(p: InputParam, r: ParamRecord)
    reads p
  {
    p.Record().(order := 0) == r.(order := 0)
  }

  /**
   * `generate_input_params_dict`: set each parameter object's `order` to its
   * index and file its dictionary under its name. Nothing but `order`
   * changes on the objects, and with distinct objects each keeps its index.
   */
  method GenerateInputParamsDict(params: seq<InputParam>) returns (output: map<string, ParamRecord>)
    modifies params
    ensures output == Listing(Numbered(old(Records(params))))
    ensures forall i :: 0 <= i < |params| ==> SameButOrder(params[i], old(params[i].Record()))
    ensures (forall i, j :: 0 <= i < j < |params| ==> params[i] != params[j]) ==>
      forall i :: 0 <= i < |params| ==> params[i].order == i
  {
    ghost var before := Records(params);
    ghost var numbered := Numbered(before);
    output := map[];
    for index := 0 to |params|
      invariant output == Listing(numbered[..index])
      invariant forall k :: 0 <= k < |params| ==> SameButOrder(params[k], before[k])
      invariant (forall i, j :: 0 <= i < j < |params| ==> params[i] != params[j]) ==>
        forall k :: 0 <= k < index ==> params[k].order == k
    {
      var param := params[index];
      param.order := index;
      assert param.Record() == numbered[index];
      assert numbered[..index + 1][..index] == numbered[..index];
      output := output[param.name := param.Record()];
    }
    assert numbered[..|params|] == numbered;
  }

  // ---------------------------------------------------------------------------
  // generate_action

  /** ASCII `str.lower` of one character. */
  function LowerChar(ch: char): char
  {
    if 'A' <= ch <= 'Z' then (ch as int + 32) as char else ch
  }

  /**
   * `identifier.replace("_", " ").lower()`: position by position, an
   * underscore becomes a space and every other character is lowered.
   */
  function DisplayName(identifier: string): (name: string)
    ensures |name| == |identifier|
    ensures forall i :: 0 <= i < |identifier| ==>
      name[i] == if identifier[i] == '_' then ' ' else LowerChar(identifier[i])
  {
    if identifier == [] then []
    else [if identifier[0] == '_' then ' ' else LowerChar(identifier[0])] + DisplayName(identifier[1..])
  }

  /**
   * The derived name has the identifier's length, no underscore and no
   * upper-case letter; its spaces are exactly the identifier's underscores
   * and spaces.
   */
  lemma DisplayNameShape(identifier: string)
    ensures forall i :: 0 <= i < |identifier| ==> DisplayName(identifier)[i] != '_'
    ensures forall i :: 0 <= i < |identifier| ==> !('A' <= DisplayName(identifier)[i] <= 'Z')
    ensures forall i :: 0 <= i < |identifier| ==>
      (DisplayName(identifier)[i] == ' ' <==> identifier[i] == '_' || identifier[i] == ' ')
  {
  }

  /** Deriving the name again changes nothing. */
  lemma {:induction false} DisplayNameIdempotent(identifier: string)
    ensures DisplayName(DisplayName(identifier)) == DisplayName(identifier)
  {
    if identifier != [] {
      DisplayNameIdempotent(identifier[1..]);
      var name := DisplayName(identifier);
      assert name[1..] == DisplayName(identifier[1..]);
    }
  }

  /** `action_name or identifier.replace("_", " ").lower()`: a non-empty given name wins. */
  function ResolvedActionName(identifier: string, actionName: Option<string>): (name: string)
    ensures actionName.Some? && actionName.value != "" ==> name == actionName.value
    ensures actionName.None? || actionName.value == "" ==> name == DisplayName(identifier)
  {
    match actionName
    case Some(given) => if given != "" then given else DisplayName(identifier)
    case None => DisplayName(identifier)
  }

  /** The JSON of an input parameter's dictionary. */
  function ParamJson(r: ParamRecord): Json
  {
    JObject(map[
      "name" := JStr(r.name), "description" := JStr(r.description), "order" := JNum(r.order),
      "data_type" := JStr(r.dataType), "required" := JBool(r.required), "primary" := JBool(r.primary),
      "contains" := JArray(seq(|r.contains|, i requires 0 <= i < |r.contains| => JStr(r.contains[i]))),
      "value_list" := JArray(seq(|r.valueList|, i requires 0 <= i < |r.valueList| => JStr(r.valueList[i]))),
      "default" := JStr(r.default)])
  }

  /** The JSON of an output field's dictionary. */
  function FieldJson(f: FieldRecord): Json
  {
    JObject(map["data_path" := JStr(f.dataPath), "data_type" := JStr(f.dataType)])
  }

  /** The keys every action entry has. */
  const ActionKeys: set<string> :=
    {"action", "identifier", "description", "type", "read_only", "parameters", "output", "render", "versions"}

  /**
   * `generate_action`: the manifest entry of one action, with `verbose`
   * added only when one is given.
   */
  function GenerateAction(identifier: string, description: string, parameters: map<string, ParamRecord>,
                          output: seq<FieldRecord>, actionType: string := "generic", readOnly: bool := false,
                          verbose: Option<string> := None, actionName: Option<string> := None): (a: map<string, Json>)
    ensures a.Keys == if verbose.Some? then ActionKeys + {"verbose"} else ActionKeys
    ensures a["action"] == JStr(ResolvedActionName(identifier, actionName))
    ensures a["identifier"] == JStr(identifier)
    ensures a["description"] == JStr(description)
    ensures a["type"] == JStr(actionType)
    ensures a["read_only"] == JBool(readOnly)
    ensures a["parameters"].JObject? && a["parameters"].fields.Keys == parameters.Keys
    ensures forall k :: k in parameters ==> a["parameters"].fields[k] == ParamJson(parameters[k])
    ensures a["output"].JArray? && |a["output"].items| == |output|
    ensures forall i :: 0 <= i < |output| ==> a["output"].items[i] == FieldJson(output[i])
    ensures a["render"] == JObject(map["type" := JStr("table")])
    ensures a["versions"] == JStr("EQ(*)")
    ensures verbose.Some? ==> a["verbose"] == JStr(verbose.value)
  {
    var result := map[
      "action" := JStr(ResolvedActionName(identifier, actionName)),
      "identifier" := JStr(identifier),
      "description" := JStr(description),
      "type" := JStr(actionType),
      "read_only" := JBool(readOnly),
      "parameters" := JObject(map k | k in parameters :: ParamJson(parameters[k])),
      "output" := JArray(seq(|output|, i requires 0 <= i < |output| => FieldJson(output[i]))),
      "render" := JObject(map["type" := JStr("table")]),
      "versions" := JStr("EQ(*)")];
    if verbose.Some? then result["verbose" := JStr(verbose.value)] else result
  }
}
