/**
 * The action layer of the Cydarm connector: narrowing an action's untyped
 * parameter map to the keyword arguments of a client method, validating and
 * decoding case fields, dispatching an action identifier to its handler, and
 * recording what the handler returned as an action result.
 */
module CydarmConnector {
  import opened Wrappers
  import opened Json
  import opened Exceptions
  import opened Http
  import opened CydarmApi

  /** The parameter map of one action run, as the host passes it. */
  type Param = map<string, Json>

  /** `json.loads`: the parsed document, or `None` when the text is not JSON. */
  type Decoder = string -> Option<Json>

  // ---------------------------------------------------------------------------
  // extract_args_dict

  /** The entries of `param` whose key is on the allow-list `names`. */
  function Restrict(param: Param, names: seq<string>): (r: Param)
    ensures r.Keys == set k | k in names && k in param
    ensures forall k :: k in r ==> r[k] == param[k]
  {
    map k | k in param && k in names :: param[k]
  }

  /**
   * `extract_args_dict`: walk the allow-list and copy each name that `param`
   * holds; nothing off the list is copied and nothing absent is added.
   */
  method ExtractArgsDict(param: Param, names: seq<string>) returns (output: Param)
    ensures output == Restrict(param, names)
  {
    output := map[];
    for i := 0 to |names|
      invariant output == Restrict(param, names[..i])
    {
      var arg := names[i];
      assert names[..i + 1] == names[..i] + [arg];
      if arg in param {
        output := output[arg := param[arg]];
      }
    }
    assert names[..|names|] == names;
  }

  /** Narrowing twice is narrowing once to the names on both lists. */
  lemma RestrictTwice(param: Param, outer: seq<string>, inner: seq<string>)
    ensures Restrict(Restrict(param, outer), inner).Keys == Restrict(param, outer).Keys * Restrict(param, inner).Keys
  {
  }

  // ---------------------------------------------------------------------------
  // parse_case_args

  /** The case fields `parse_case_args` lets through, in its order. */
  const CaseArgNames: seq<string> := [
    "acl", "assignee", "closed", "created", "deletable", "description", "editable", "locator",
    "manageable", "members", "metadata", "minSlaName", "minSlaSeconds", "modified", "org",
    "readable", "severity", "severityName", "status", "tags", "totalActionsInAllPlaybooks",
    "totalCompletedActionsInAllPlaybooks", "updateAcls", "uuid"]

  /** The fields holding JSON text, decoded in this order. */
  const JsonFields: seq<string> := ["metadata", "tags", "members"]

  /**
   * `1 <= sev <= 5` on a parameter value: a number is compared as it is, a
   * boolean as 0 or 1; anything else cannot be compared with an integer.
   */
  function SeverityCheck(sev: Json): (r: Result<(), Error>)
    ensures r.Success? <==> (sev.JNum? && 1 <= sev.n <= 5) || sev == JBool(true)
    ensures sev.JNum? && !(1 <= sev.n <= 5) ==> r == Failure(SeverityOutOfRange(sev.n))
    ensures sev == JBool(false) ==> r == Failure(SeverityOutOfRange(0))
    ensures !sev.JNum? && !sev.JBool? ==> r == Failure(NotComparable)
  {
    match sev
    case JNum(n) => if 1 <= n <= 5 then Success(()) else Failure(SeverityOutOfRange(n))
    case JBool(b) => if b then Success(()) else Failure(SeverityOutOfRange(0))
    case _ => Failure(NotComparable)
  }

  /** `output[field] = json.loads(output[field])` when the field is present. */
  function DecodeField(output: Param, field: string, decode: Decoder): (r: Result<Param, Error>)
    ensures field !in output ==> r == Success(output)
    ensures field in output ==>
      (r.Success? <==> output[field].JStr? && decode(output[field].s).Some?)
    ensures field in output && r.Success? ==> r.value == output[field := decode(output[field].s).value]
    ensures field in output && !output[field].JStr? ==> r == Failure(JsonTypeError(field))
    ensures field in output && output[field].JStr? && decode(output[field].s).None? ==> r == Failure(JsonDecodeError(field))
  {
    if field !in output then Success(output)
    else match output[field]
      case JStr(text) =>
        (match decode(text)
         case Some(v) => Success(output[field := v])
         case None => Failure(JsonDecodeError(field)))
      case _ => Failure(JsonTypeError(field))
  }

  /** Decode each of `fields` in turn; the first failure ends the walk. */
  function DecodeFields(output: Param, fields: seq<string>, decode: Decoder): Result<Param, Error>
  {
    if fields == [] then Success(output)
    else
      match DecodeField(output, fields[0], decode)
      case Failure(e) => Failure(e)
      case Success(next) => DecodeFields(next, fields[1..], decode)
  }

  /**
   * Decoding distinct fields keeps the keys, leaves every other field as it
   * was, and replaces each present field by the decoding of its text; a
   * failure names a present field whose value is not decodable JSON text.
   */
  lemma {:induction false} DecodeFieldsEffect(output: Param, fields: seq<string>, decode: Decoder)
    requires forall i, j :: 0 <= i < j < |fields| ==> fields[i] != fields[j]
    ensures var r := DecodeFields(output, fields, decode);
      && (r.Success? ==> r.value.Keys == output.Keys)
      && (r.Success? ==> forall k :: k in output && k !in fields ==> r.value[k] == output[k])
      && (r.Success? ==> forall f :: f in fields && f in output ==>
            output[f].JStr? && decode(output[f].s) == Some(r.value[f]))
      && (r.Failure? ==>
            exists f :: f in fields && f in output && (r.error == JsonTypeError(f) || r.error == JsonDecodeError(f)))
  {
    if fields != [] {
      var f := fields[0];
      match DecodeField(output, f, decode)
      case Failure(e) =>
      case Success(next) =>
        var rest := fields[1..];
        assert forall i, j :: 0 <= i < j < |rest| ==> rest[i] != rest[j] by {
          forall i, j | 0 <= i < j < |rest| ensures rest[i] != rest[j] {
            assert rest[i] == fields[i + 1] && rest[j] == fields[j + 1];
          }
        }
        assert f !in rest by {
          forall i | 0 <= i < |rest| ensures rest[i] != f {
            assert rest[i] == fields[i + 1];
          }
        }
        DecodeFieldsEffect(next, rest, decode);
        assert forall k :: k in fields ==> k == f || k in rest;
    }
  }

  /**
   * The keyword arguments `parse_case_args` produces: the allow-listed case
   * fields, refused when the severity is out of range, with the JSON fields
   * decoded.
   */
  function CaseArgs(param: Param, decode: Decoder): Result<Param, Error>
  {
    var output := Restrict(param, CaseArgNames);
    if "severity" in output && SeverityCheck(output["severity"]).Failure? then
      Failure(SeverityCheck(output["severity"]).error)
    else DecodeFields(output, JsonFields, decode)
  }

  /** An out-of-range or incomparable severity refuses the whole parameter map. */
  lemma CaseArgsRefusesSeverity(param: Param, decode: Decoder)
    requires "severity" in param && SeverityCheck(param["severity"]).Failure?
    ensures CaseArgs(param, decode) == Failure(SeverityCheck(param["severity"]).error)
  {
    assert CaseArgNames[16] == "severity";
  }

  /** The JSON fields are distinct case fields. */
  lemma JsonFieldsAllowed()
    ensures forall i, j :: 0 <= i < j < |JsonFields| ==> JsonFields[i] != JsonFields[j]
    ensures forall f :: f in JsonFields ==> f in CaseArgNames
  {
    assert JsonFields[0] == CaseArgNames[10];
    assert JsonFields[1] == CaseArgNames[19];
    assert JsonFields[2] == CaseArgNames[9];
  }

  /**
   * What `parse_case_args` returns: exactly the allow-listed fields of
   * `param`, each unchanged except `metadata`, `tags` and `members`, which
   * are replaced by the decoding of their text; and only when any severity
   * given is in range.
   */
  lemma CaseArgsAccepted(param: Param, decode: Decoder)
    requires CaseArgs(param, decode).Success?
    ensures CaseArgs(param, decode).value.Keys == set k | k in CaseArgNames && k in param
    ensures forall k :: k in CaseArgs(param, decode).value && k !in JsonFields ==>
      CaseArgs(param, decode).value[k] == param[k]
    ensures forall f :: f in JsonFields && f in CaseArgs(param, decode).value ==>
      param[f].JStr? && decode(param[f].s) == Some(CaseArgs(param, decode).value[f])
    ensures "severity" in param ==> SeverityCheck(param["severity"]).Success?
  {
    assert CaseArgNames[16] == "severity";
    JsonFieldsAllowed();
    DecodeFieldsEffect(Restrict(param, CaseArgNames), JsonFields, decode);
  }

  /** `parse_case_args` refuses only a bad severity, or a present JSON field that does not decode. */
  lemma CaseArgsRefused(param: Param, decode: Decoder, e: Error)
    requires CaseArgs(param, decode) == Failure(e)
    ensures || ("severity" in param && SeverityCheck(param["severity"]) == Failure(e))
            || DecodeRefusal(param, e)
  {
    if SeverityRefused(param) {
      SeverityRefusal(param, decode, e);
    } else {
      DecodingRefused(param, decode);
    }
  }

  lemma SeverityRefusal(param: Param, decode: Decoder, e: Error)
    requires CaseArgs(param, decode) == Failure(e)
    requires SeverityRefused(param)
    ensures "severity" in param && SeverityCheck(param["severity"]) == Failure(e)
  {
  }

  /** `e` is the error of decoding a JSON field that `param` holds. */
  predicate DecodeRefusal(param: Param, e: Error)
  {
    exists f :: f in JsonFields && f in param && (e == JsonTypeError(f) || e == JsonDecodeError(f))
  }

  /** `param` holds a severity that `parse_case_args` refuses. */
  predicate SeverityRefused(param: Param)
  {
    "severity" in Restrict(param, CaseArgNames) && SeverityCheck(Restrict(param, CaseArgNames)["severity"]).Failure?
  }

  lemma DecodingRefused(param: Param, decode: Decoder)
    requires CaseArgs(param, decode).Failure?
    requires !SeverityRefused(param)
    ensures DecodeRefusal(param, CaseArgs(param, decode).error)
  {
    JsonFieldsAllowed();
    DecodeFieldsEffect(Restrict(param, CaseArgNames), JsonFields, decode);
  }

  /**
   * `parse_case_args`: narrow to the case fields, check the severity, then
   * decode `metadata`, `tags` and `members` in place.
   */
  method ParseCaseArgs(param: Param, decode: Decoder) returns (r: Result<Param, Error>)
    ensures r == CaseArgs(param, decode)
  {
    var output := ExtractArgsDict(param, CaseArgNames);
    if "severity" in output {
      var check := SeverityCheck(output["severity"]);
      if check.Failure? {
        return Failure(check.error);
      }
    }
    for i := 0 to |JsonFields|
      invariant DecodeFields(Restrict(param, CaseArgNames), JsonFields, decode) == DecodeFields(output, JsonFields[i..], decode)
    {
      var field := JsonFields[i];
      if field in output {
        if !output[field].JStr? {
          return Failure(JsonTypeError(field));
        }
        var decoded := decode(output[field].s);
        if decoded.None? {
          return Failure(JsonDecodeError(field));
        }
        output := output[field := decoded.value];
      }
    }
    return Success(output);
  }

  // ---------------------------------------------------------------------------
  // The _handle_* parameter mappings

  /** A parameter copied under another keyword; `strict` when a missing parameter raises `KeyError`. */
  datatype Forward = Forward(from: string, to: string, strict: bool)

  /**
   * What a `_handle_<id>` method does before calling the client: narrow the
   * parameters to an allow-list and forward some under another name, or
   * parse them as case fields and also narrow to an allow-list.
   */
  datatype Handler =
    | Extracting(endpoint: Endpoint, names: seq<string>, forward: Option<Forward>)
    | CaseFields(endpoint: Endpoint, alsoExtract: seq<string>)

  /** `kwargs[to] = param[from]`: raises `KeyError` when strict and `from` is missing, else skips it. */
  function ApplyForward(kwargs: Param, param: Param, forward: Option<Forward>): (r: Result<Param, Error>)
    ensures forward.None? ==> r == Success(kwargs)
    ensures forward.Some? ==> var f := forward.value;
      && (r.Failure? <==> f.strict && f.from !in param)
      && (r.Failure? ==> r.error == KeyError(f.from))
      && (r.Success? && f.from in param ==> r.value == kwargs[f.to := param[f.from]])
      && (r.Success? && f.from !in param ==> r.value == kwargs)
  {
    match forward
    case None => Success(kwargs)
    case Some(f) =>
      if f.from in param then Success(kwargs[f.to := param[f.from]])
      else if f.strict then Failure(KeyError(f.from))
      else Success(kwargs)
  }

  /** The keyword arguments a handler passes to its client method. */
  function HandlerKwargs(h: Handler, param: Param, decode: Decoder): Result<Param, Error>
  {
    match h
    case Extracting(_, names, forward) => ApplyForward(Restrict(param, names), param, forward)
    case CaseFields(_, alsoExtract) =>
      match CaseArgs(param, decode)
      case Failure(e) => Failure(e)
      case Success(fields) => Success(fields + Restrict(param, alsoExtract))
  }

  /** Run a handler's parameter mapping, as its `_handle_<id>` method does. */
  method RunHandler(h: Handler, param: Param, decode: Decoder) returns (r: Result<Param, Error>)
    ensures r == HandlerKwargs(h, param, decode)
  {
    match h
    case Extracting(_, names, forward) =>
      var kwargs := ExtractArgsDict(param, names);
      r := ApplyForward(kwargs, param, forward);
    case CaseFields(_, alsoExtract) =>
      r := ParseCaseArgs(param, decode);
      if r.Success? {
        var extra := ExtractArgsDict(param, alsoExtract);
        r := Success(r.value + extra);
      }
  }

  /** The comment handlers: `param["data"]` becomes the `comment` argument. */
  const DataAsComment: Option<Forward> := Some(Forward("data", "comment", true))

  /** The handler table as the connector defines it. */
  const HandlersAsWritten: map<string, Handler> := map[
    "get_case_playbook" := Extracting(GetCasePlaybook, ["case_uuid", "case_playbook_uuid"], None),
    "get_case" := Extracting(GetCase, ["case_uuid"], None),
    "get_case_quick_search" := Extracting(GetCaseQuickSearch, ["search_string"], None),
    "get_cases_filtered" := Extracting(GetCasesFiltered, ["filter_text", "tags_included"], None),
    "create_action_instance_data" := Extracting(CreateActionInstanceData, ["action_instance_uuid"], DataAsComment),
    "create_case_data_comment" := Extracting(CreateCaseDataComment, ["case_uuid"], DataAsComment),
    "create_case" := CaseFields(CreateCase, []),
    "update_case" := UpdateCaseAsWritten,
    "update_case_history" := Extracting(UpdateCaseHistory, ["case_uuid", "modified", "status"], None),
    "create_case_playbook" := Extracting(CreateCasePlaybook, ["case_uuid", "playbook_uuid"], None),
    "get_case_playbooks" := Extracting(GetCasePlaybooks, ["case_uuid"], None),
    "create_playbook" := CreatePlaybookAsWritten,
    "create_playbook_action" := CreatePlaybookActionAsWritten,
    "get_playbook_action" := Extracting(GetPlaybookAction, ["action_uuid"], None),
    "add_action_to_playbook" := Extracting(AddActionToPlaybook, ["playbook_uuid", "action_uuid"], None),
    "get_user" := Extracting(GetUser, ["user_uuid"], None),
    "get_acl" := Extracting(GetAcl, ["acl_uuid"], None),
    "add_watcher_to_case" := Extracting(AddWatcherToCase, ["case_uuid", "user_uuid"], None),
    "add_member_to_case" := Extracting(AddMemberToCase, ["case_uuid", "member_case_uuid"], None),
    "add_case_tag" := Extracting(AddCaseTag, ["case_uuid", "tag_value"], None),
    "delete_case_tag" := Extracting(DeleteCaseTag, ["case_uuid", "tag_value"], None)]

  /** `update_case` as the connector maps it: the case fields only. */
  const UpdateCaseAsWritten: Handler := CaseFields(UpdateCase, [])

  /** Playbook creation as the connector maps it: the ACL is looked up as `acl_uuid`. */
  const CreatePlaybookAsWritten: Handler := Extracting(CreatePlaybook, ["name", "description", "acl_uuid"], None)

  const CreatePlaybookActionAsWritten: Handler :=
    Extracting(CreatePlaybookAction, ["name", "description", "acl_uuid"], None)

  /** `update_case` with its target case: the case fields and `case_uuid`. */
  const UpdateCaseHandler: Handler := CaseFields(UpdateCase, ["case_uuid"])

  /** Playbook creation with the declared `acl` parameter forwarded as `acl_uuid`. */
  const CreatePlaybookHandler: Handler :=
    Extracting(CreatePlaybook, ["name", "description"], Some(Forward("acl", "acl_uuid", false)))

  const CreatePlaybookActionHandler: Handler :=
    Extracting(CreatePlaybookAction, ["name", "description"], Some(Forward("acl", "acl_uuid", false)))

  /** The handler table the model dispatches through: the connector's, with the three mappings corrected. */
  const Handlers: map<string, Handler> :=
    HandlersAsWritten["update_case" := UpdateCaseHandler]
                     ["create_playbook" := CreatePlaybookHandler]
                     ["create_playbook_action" := CreatePlaybookActionHandler]

  /** The connector has a `_handle_<id>` method for exactly these 21 action identifiers. */
  lemma HandlerTableKeys()
    ensures HandlersAsWritten.Keys == {
      "get_case_playbook", "get_case", "get_case_quick_search", "get_cases_filtered",
      "create_action_instance_data", "create_case_data_comment", "create_case", "update_case",
      "update_case_history", "create_case_playbook", "get_case_playbooks", "create_playbook",
      "create_playbook_action", "get_playbook_action", "add_action_to_playbook", "get_user", "get_acl",
      "add_watcher_to_case", "add_member_to_case", "add_case_tag", "delete_case_tag"}
  {
  }

  /** The corrections change entries of the table but add or remove none. */
  lemma CorrectionsKeepIdentifiers()
    ensures Handlers.Keys == HandlersAsWritten.Keys
  {
  }

  /** `test_connectivity` has no entry: `handle_action` routes it before the table is consulted. */
  lemma ConnectivityNotInTable()
    ensures "test_connectivity" !in HandlersAsWritten
  {
  }

  /** The entries of the connector's table that the corrections leave alone. */
  lemma HandlerEntries()
    ensures Handlers["create_action_instance_data"] == Extracting(CreateActionInstanceData, ["action_instance_uuid"], DataAsComment)
    ensures Handlers["create_case_data_comment"] == Extracting(CreateCaseDataComment, ["case_uuid"], DataAsComment)
    ensures Handlers["create_case"] == CaseFields(CreateCase, [])
    ensures Handlers["get_case"] == Extracting(GetCase, ["case_uuid"], None)
  {
  }

  /** The entries the corrections replace, as the connector defines them. */
  lemma AsWrittenEntries()
    ensures HandlersAsWritten["update_case"] == UpdateCaseAsWritten
    ensures HandlersAsWritten["create_playbook"] == CreatePlaybookAsWritten
    ensures HandlersAsWritten["create_playbook_action"] == CreatePlaybookActionAsWritten
  {
  }

  /** The corrected entries. */
  lemma CorrectedEntries()
    ensures Handlers["update_case"] == UpdateCaseHandler
    ensures Handlers["create_playbook"] == CreatePlaybookHandler
    ensures Handlers["create_playbook_action"] == CreatePlaybookActionHandler
  {
  }

  /**
   * A comment handler passes `param["data"]` on as the `comment` argument,
   * and raises `KeyError` when the action has no `data`.
   */
  lemma DataBecomesComment(h: Handler, param: Param, decode: Decoder)
    requires h.Extracting? && h.forward == DataAsComment
    ensures HandlerKwargs(h, param, decode).Failure? <==> "data" !in param
    ensures "data" !in param ==> HandlerKwargs(h, param, decode).error == KeyError("data")
    ensures "data" in param ==> HandlerKwargs(h, param, decode).value == Restrict(param, h.names)["comment" := param["data"]]
  {
  }

  /**
   * A severity `parse_case_args` refuses stops `create_case` and `update_case`
   * before their client method is called.
   */
  lemma CaseHandlersRefuseSeverity(param: Param, decode: Decoder, alsoExtract: seq<string>)
    requires "severity" in param && SeverityCheck(param["severity"]).Failure?
    ensures HandlerKwargs(CaseFields(CreateCase, alsoExtract), param, decode) == Failure(SeverityCheck(param["severity"]).error)
    ensures HandlerKwargs(CaseFields(UpdateCase, alsoExtract), param, decode) == Failure(SeverityCheck(param["severity"]).error)
  {
    CaseArgsRefusesSeverity(param, decode);
  }

  // ---------------------------------------------------------------------------
  // update_case: the target case is never passed

  lemma CaseUuidNotACaseField()
    ensures "case_uuid" !in CaseArgNames
  {
  }

  /**
   * As written, `update_case` can never reach the service: the case fields
   * never include `case_uuid`, which the client method requires, so every
   * call raises for the missing argument before a request is sent.
   */
  lemma UpdateCaseAsWrittenFails(c: Client, net: Network, param: Param, decode: Decoder)
    ensures var kwargs := HandlerKwargs(UpdateCaseAsWritten, param, decode);
      kwargs.Success? ==> Dispatch(c, net, UpdateCase, kwargs.value) == Exchange(Failure(MissingArgument("case_uuid")), [])
  {
    var kwargs := HandlerKwargs(UpdateCaseAsWritten, param, decode);
    if kwargs.Success? {
      CaseUuidNotACaseField();
      CaseArgsAccepted(param, decode);
      assert "case_uuid" !in kwargs.value;
      UpdateCaseSendsKeywords(kwargs.value);
    }
  }

  /** An update that names its case, refused as written for want of the case. */
  lemma UpdateCaseAsWrittenExample(c: Client, net: Network, decode: Decoder)
    ensures HandlerKwargs(UpdateCaseAsWritten, map["case_uuid" := JStr("c-1")], decode) == Success(map[])
    ensures Dispatch(c, net, UpdateCase, map[]) == Exchange(Failure(MissingArgument("case_uuid")), [])
  {
    var param := map["case_uuid" := JStr("c-1")];
    CaseUuidNotACaseField();
    assert Restrict(param, CaseArgNames) == map[];
    UpdateCaseAsWrittenFails(c, net, param, decode);
  }

  /** Parsed case fields never name the case they would update. */
  lemma CaseFieldsLackUuid(param: Param, decode: Decoder)
    requires CaseArgs(param, decode).Success?
    ensures "case_uuid" !in CaseArgs(param, decode).value
  {
    CaseUuidNotACaseField();
    CaseArgsAccepted(param, decode);
  }

  /**
   * Case fields joined with the action's `case_uuid` bind to `update_case`
   * exactly when the action names a case, and then PUT the fields to it.
   */
  lemma UpdateCaseRoute(fields: Param, param: Param)
    requires "case_uuid" !in fields
    ensures var kwargs := fields + Restrict(param, ["case_uuid"]);
      && (Bind(SignatureOf(UpdateCase), kwargs).Success? <==> "case_uuid" in param)
      && ("case_uuid" in param ==>
            Route(UpdateCase, Bind(SignatureOf(UpdateCase), kwargs).value)
              == Success(PutCall("/case/" + Str(param["case_uuid"]), Some(JObject(fields)))))
  {
    var kwargs := fields + Restrict(param, ["case_uuid"]);
    assert "case_uuid" in kwargs <==> "case_uuid" in param;
    UpdateCaseSendsKeywords(kwargs);
    if "case_uuid" in param {
      assert kwargs - {"case_uuid"} == fields;
    }
  }

  /**
   * Corrected, `update_case` PUTs the parsed case fields to the case the
   * action names, and needs nothing else.
   */
  lemma UpdateCaseCorrected(param: Param, decode: Decoder)
    requires CaseArgs(param, decode).Success?
    ensures var kwargs := HandlerKwargs(UpdateCaseHandler, param, decode);
      && kwargs.Success?
      && (Bind(SignatureOf(UpdateCase), kwargs.value).Success? <==> "case_uuid" in param)
      && ("case_uuid" in param ==>
            Route(UpdateCase, Bind(SignatureOf(UpdateCase), kwargs.value).value)
              == Success(PutCall("/case/" + Str(param["case_uuid"]), Some(JObject(CaseArgs(param, decode).value)))))
  {
    var fields := CaseArgs(param, decode).value;
    assert HandlerKwargs(UpdateCaseHandler, param, decode) == Success(fields + Restrict(param, ["case_uuid"]));
    CaseFieldsLackUuid(param, decode);
    UpdateCaseRoute(fields, param);
  }

  // ---------------------------------------------------------------------------
  // create_playbook and create_playbook_action: the ACL is looked up under the wrong name

  /** The `acl` a playbook creation sends for keyword arguments drawn from `name`, `description` and `acl_uuid`. */
  lemma PlaybookBinding(e: Endpoint, kwargs: Param)
    requires e == CreatePlaybook || e == CreatePlaybookAction
    requires kwargs.Keys <= {"name", "description", "acl_uuid"}
    ensures Bind(SignatureOf(e), kwargs).Success?
    ensures Route(e, Bind(SignatureOf(e), kwargs).value).Success?
    ensures Route(e, Bind(SignatureOf(e), kwargs).value).value.json
      == Some(AtcBody(Bind(SignatureOf(e), kwargs).value))
    ensures AtcBody(Bind(SignatureOf(e), kwargs).value).fields["atc"].fields["acl"]
      == if "acl_uuid" in kwargs then kwargs["acl_uuid"] else JNull
  {
    var sig := SignatureOf(e);
    assert Names(sig.parameters) == {"name", "description", "acl_uuid"};
    var b := Bind(sig, kwargs).value;
    BoundArgument(sig, kwargs, b, Opt("acl_uuid", JNull));
  }

  /**
   * As written, a playbook or playbook action is created without its ACL
   * whenever the action passes no `acl_uuid`, whatever `acl` it passes.
   */
  lemma PlaybookAclAsWritten(param: Param, decode: Decoder, h: Handler)
    requires h == CreatePlaybookAsWritten || h == CreatePlaybookActionAsWritten
    requires "acl_uuid" !in param
    ensures var kwargs := HandlerKwargs(h, param, decode);
      && kwargs.Success?
      && Bind(SignatureOf(h.endpoint), kwargs.value).Success?
      && AtcBody(Bind(SignatureOf(h.endpoint), kwargs.value).value).fields["atc"].fields["acl"] == JNull
  {
    PlaybookBinding(h.endpoint, Restrict(param, h.names));
  }

  /** A playbook named `triage` with ACL `acl-1`, created without it as written. */
  lemma PlaybookAclAsWrittenExample(decode: Decoder)
    ensures var param := map["name" := JStr("triage"), "acl" := JStr("acl-1")];
      var kwargs := HandlerKwargs(CreatePlaybookAsWritten, param, decode);
      && kwargs.Success?
      && AtcBody(Bind(SignatureOf(CreatePlaybook), kwargs.value).value).fields["atc"].fields["acl"] == JNull
  {
    var param := map["name" := JStr("triage"), "acl" := JStr("acl-1")];
    PlaybookAclAsWritten(param, decode, CreatePlaybookAsWritten);
  }

  /** Corrected, the `acl` the action passes is the ACL of the created playbook or playbook action. */
  lemma PlaybookAclCorrected(param: Param, decode: Decoder, h: Handler)
    requires h == CreatePlaybookHandler || h == CreatePlaybookActionHandler
    ensures var kwargs := HandlerKwargs(h, param, decode);
      && kwargs.Success?
      && Bind(SignatureOf(h.endpoint), kwargs.value).Success?
      && AtcBody(Bind(SignatureOf(h.endpoint), kwargs.value).value).fields["atc"].fields["acl"]
           == if "acl" in param then param["acl"] else JNull
  {
    var kwargs := HandlerKwargs(h, param, decode).value;
    PlaybookBinding(h.endpoint, kwargs);
  }

  // ---------------------------------------------------------------------------
  // call_cydarm_api

  /** A client method other than the page walker, called with keyword arguments: bind them, then call. */
  function Dispatch(c: Client, net: Network, e: Endpoint, kwargs: Param): (x: Exchange<ApiValue>)
    requires !e.GetCasesFiltered?
    ensures x.sent != [] ==> Bind(SignatureOf(e), kwargs).Success? && Route(e, Bind(SignatureOf(e), kwargs).value).Success?
    ensures Bind(SignatureOf(e), kwargs).Failure? ==> x.result == Failure(Bind(SignatureOf(e), kwargs).error)
    ensures x.result.Success? ==> |x.sent| == 2 && IsTokenRequest(c, x.sent[0])
  {
    match Bind(SignatureOf(e), kwargs)
    case Failure(err) => Exchange(Failure(err), [])
    case Success(b) => Perform(c, net, e, b)
  }

  /**
   * `call_cydarm_api` for a client method other than the page walker: a
   * binding error raises before anything is sent, and so does a comment
   * that cannot be encoded; otherwise the token request is followed by the
   * method's own request, and the method returns the reply as its `rest_*`
   * helper does (`update_case` returns `None`).
   */
  lemma DispatchDelivers(c: Client, net: Network, e: Endpoint, kwargs: Param)
    requires !e.GetCasesFiltered?
    ensures var x := Dispatch(c, net, e, kwargs);
      var bound := Bind(SignatureOf(e), kwargs);
      && (bound.Failure? ==> x == Exchange(Failure(bound.error), []))
      && (bound.Success? && Route(e, bound.value).Failure? ==> x == Exchange(Failure(Route(e, bound.value).error), []))
      && (bound.Success? && Route(e, bound.value).Success? ==>
            var call := Route(e, bound.value).value;
            var token := GenerateBearerToken(c, net);
            && (token.result.Failure? ==> x == Exchange(Failure(token.result.error), token.sent))
            && (token.result.Success? ==>
                  |x.sent| == 2 && IsTokenRequest(c, x.sent[0]) && x.sent[1] == CallRequest(c, token.result.value, call))
            && (|x.sent| == 2 ==> (x.result.Success? <==> Accepted(net(x.sent[1]), ReturnsJson(call))))
            && (x.result.Success? ==>
                  && |x.sent| == 2 && Accepted(net(x.sent[1]), ReturnsJson(call))
                  && x.result.value == if e == UpdateCase then NoValue else Reply(net(x.sent[1]).value, ReturnsJson(call))))
  {
  }

  /** `get_case(case_uuid)` binds its one argument and GETs `/case/<case_uuid>`. */
  lemma GetCaseRoute(caseUuid: Json)
    ensures Bind(SignatureOf(GetCase), map["case_uuid" := caseUuid]).Success?
    ensures Route(GetCase, Bind(SignatureOf(GetCase), map["case_uuid" := caseUuid]).value)
            == Success(GetCall("/case/" + Str(caseUuid), map[]))
  {
    var b := Bind(SignatureOf(GetCase), map["case_uuid" := caseUuid]).value;
    BoundArgument(SignatureOf(GetCase), map["case_uuid" := caseUuid], b, Req("case_uuid"));
  }

  /**
   * `get_case` end to end: the handler passes the case's UUID, the client
   * GETs `/case/<uuid>` after the token request, and a reply holding one
   * case object is returned as that object, recorded as one data record
   * with `total_objects` 1.
   */
  lemma GetCaseRecordsOneCase(c: Client, net: Network, param: Param, decode: Decoder, reply: Response)
    requires "case_uuid" in param
    requires GenerateBearerToken(c, net).result.Success?
    requires net(CallRequest(c, GenerateBearerToken(c, net).result.value, GetCall("/case/" + Str(param["case_uuid"]), map[])))
             == Some(reply)
    requires !IsErrorStatus(reply.status) && reply.body == Some(JObject(map["uuid" := JStr("abc123")]))
    ensures HandlerKwargs(Extracting(GetCase, ["case_uuid"], None), param, decode) == Success(map["case_uuid" := param["case_uuid"]])
    ensures Dispatch(c, net, GetCase, map["case_uuid" := param["case_uuid"]]).result
            == Success(JsonValue(JObject(map["uuid" := JStr("abc123")])))
    ensures Records(JsonValue(JObject(map["uuid" := JStr("abc123")]))) == [JObject(map["uuid" := JStr("abc123")])]
    ensures Summary(ObjectCount(JsonValue(JObject(map["uuid" := JStr("abc123")]))))["total_objects"] == JNum(1)
  {
    var kwargs := map["case_uuid" := param["case_uuid"]];
    assert Restrict(param, ["case_uuid"]) == kwargs;
    GetCaseRoute(param["case_uuid"]);
    DispatchDelivers(c, net, GetCase, kwargs);
  }

  /** The list `get_cases_filtered` returns, as the value the handler hands on. */
  function Listed(items: Result<seq<Json>, Error>): Result<ApiValue, Error>
  {
    match items
    case Success(v) => Success(JsonValue(JArray(v)))
    case Failure(e) => Failure(e)
  }

  /** The service reports a last page for the page walk these arguments would start. */
  ghost predicate WalkEnds(c: Client, net: Network, e: Endpoint, kwargs: Param)
  {
    e.GetCasesFiltered? && Bind(SignatureOf(e), kwargs).Success? ==>
      var b := Bind(SignatureOf(e), kwargs).value;
      PagingEnds(c, net, Arg(b, "page_size"), Arg(b, "filter_text"), Arg(b, "tags_included"))
  }

  /**
   * What calling client method `e` with `kwargs` returned and sent: the
   * bound call for every method but the page walker, and for the walker a
   * complete walk with the bound page size and filters.
   */
  ghost predicate Called(c: Client, net: Network, e: Endpoint, kwargs: Param, r: Result<ApiValue, Error>, sent: seq<Request>)
  {
    if !e.GetCasesFiltered? then Exchange(r, sent) == Dispatch(c, net, e, kwargs)
    else match Bind(SignatureOf(e), kwargs)
      case Failure(err) => r == Failure(err) && sent == []
      case Success(b) =>
        exists last: nat, items: Result<seq<Json>, Error> ::
          Walked(c, net, Arg(b, "page_size"), Arg(b, "filter_text"), Arg(b, "tags_included"), last, items, sent)
          && r == Listed(items)
  }

  /** `call_cydarm_api`: call client method `e` with the keyword arguments. */
  method CallApi(c: Client, net: Network, e: Endpoint, kwargs: Param) returns (r: Result<ApiValue, Error>, sent: seq<Request>)
    requires WalkEnds(c, net, e, kwargs)
    ensures Called(c, net, e, kwargs, r, sent)
  {
    if !e.GetCasesFiltered? {
      var x := Dispatch(c, net, e, kwargs);
      return x.result, x.sent;
    }
    var bound := Bind(SignatureOf(e), kwargs);
    if bound.Failure? {
      return Failure(bound.error), [];
    }
    var b := bound.value;
    var items, walkSent, last := WalkCasesFiltered(c, net, Arg(b, "page_size"), Arg(b, "filter_text"), Arg(b, "tags_included"));
    r, sent := Listed(items), walkSent;
  }

  // ---------------------------------------------------------------------------
  // Action results

  /** The status a handler sets on its result; an error carries the exception that caused it. */
  datatype Status = Unset | AppSuccess | AppError(cause: Error)

  /** The host's record of one action run: its parameters, data records, summary and status. */
  class ActionResult {
    const param: Param
    var data: seq<Json>
    var summary: map<string, Json>
    var status: Status

    constructor(param: Param)
      ensures this.param == param && data == [] && summary == map[] && status == Unset
    {
      this.param := param;
      data := [];
      summary := map[];
      status := Unset;
    }

    /** `add_data`: append one record. */
    method AddData(item: Json)
      modifies this
      ensures data == old(data) + [item]
      ensures summary == old(summary) && status == old(status)
    {
      data := data + [item];
    }

    /** `update_summary`: merge the given entries into the summary. */
    method UpdateSummary(entries: map<string, Json>)
      modifies this
      ensures summary == old(summary) + entries
      ensures data == old(data) && status == old(status)
    {
      summary := summary + entries;
    }

    /** `set_status`. */
    method SetStatus(s: Status)
      modifies this
      ensures status == s
      ensures data == old(data) && summary == old(summary)
    {
      status := s;
    }
  }

  /** The data records a handler's return value becomes: one per list element, the object itself, or none. */
  function Records(response: ApiValue): (r: seq<Json>)
    ensures response.JsonValue? && response.json.JArray? ==> r == response.json.items
    ensures response.JsonValue? && response.json.JObject? ==> r == [response.json]
    ensures !(response.JsonValue? && (response.json.JArray? || response.json.JObject?)) ==> r == []
  {
    match response
    case JsonValue(JArray(items)) => items
    case JsonValue(JObject(_)) => [response.json]
    case _ => []
  }

  /** `num_items`: the list's length, and 1 for any other value. */
  function ObjectCount(response: ApiValue): nat
  {
    if response.JsonValue? && response.json.JArray? then |response.json.items| else 1
  }

  /** The summary entries `generate_action_result` writes. */
  function Summary(count: nat): map<string, Json>
  {
    map["total_objects" := JNum(count), "total_objects_successful" := JNum(count)]
  }

  /**
   * The summary counts the records exactly when the value was a list or an
   * object; every other value is counted as one object with no record. Both
   * totals are always the same.
   */
  lemma SummaryCountsRecords(response: ApiValue)
    ensures (|Records(response)| == ObjectCount(response)) <==>
            response.JsonValue? && (response.json.JArray? || response.json.JObject?)
    ensures ObjectCount(response) >= 1 || Records(response) == []
    ensures Summary(ObjectCount(response))["total_objects"] == Summary(ObjectCount(response))["total_objects_successful"]
    ensures Summary(ObjectCount(response))["total_objects"] == JNum(ObjectCount(response))
  {
  }

  /**
   * `generate_action_result` once the handler has returned `response`: add
   * each list element as a record in order, or the object as one record, or
   * nothing; record the count in the summary and report success.
   */
  method GenerateActionResult(ar: ActionResult, response: ApiValue)
    modifies ar
    ensures ar.data == old(ar.data) + Records(response)
    ensures ar.summary == old(ar.summary) + Summary(ObjectCount(response))
    ensures ar.status == AppSuccess
  {
    var count := 1;
    if response.JsonValue? && response.json.JArray? {
      var items := response.json.items;
      count := |items|;
      for i := 0 to |items|
        invariant ar.data == old(ar.data) + items[..i]
        invariant ar.summary == old(ar.summary)
      {
        ar.AddData(items[i]);
        assert items[..i + 1] == items[..i] + [items[i]];
      }
      assert items[..|items|] == items;
    } else if response.JsonValue? && response.json.JObject? {
      ar.AddData(response.json);
    }
    ar.UpdateSummary(Summary(count));
    ar.SetStatus(AppSuccess);
  }

  // ---------------------------------------------------------------------------
  // _handle_test_connectivity and handle_action

  /**
   * `_handle_test_connectivity`: fetch a bearer token and report success, or
   * the error that stopped it; no data and no summary are recorded.
   */
  method TestConnectivity(c: Client, net: Network, param: Param) returns (ar: ActionResult, sent: seq<Request>)
    ensures fresh(ar) && ar.param == param && ar.data == [] && ar.summary == map[]
    ensures sent == GenerateBearerToken(c, net).sent
    ensures forall q :: q in sent ==> IsTokenRequest(c, q)
    ensures ar.status == AppSuccess <==> GenerateBearerToken(c, net).result.Success?
    ensures GenerateBearerToken(c, net).result.Failure? ==>
      ar.status == AppError(GenerateBearerToken(c, net).result.error)
  {
    ar := new ActionResult(param);
    var token := GenerateBearerToken(c, net);
    sent := token.sent;
    if token.result.Success? {
      ar.SetStatus(AppSuccess);
    } else {
      ar.SetStatus(AppError(token.result.error));
    }
  }

  /** The name `handle_action` looks up for an identifier. */
  function HandlerName(actionId: string): string
  {
    "_handle_" + actionId
  }

  /** The precondition of running handler `h`: a page walk it starts comes to an end. */
  ghost predicate HandlerReady(c: Client, net: Network, h: Handler, param: Param, decode: Decoder)
  {
    HandlerKwargs(h, param, decode).Success? ==> WalkEnds(c, net, h.endpoint, HandlerKwargs(h, param, decode).value)
  }

  /**
   * What `_handle_<id>(param)` does for handler `h`: `kwargs` is its mapping
   * of the parameters; an error there is raised before anything is sent,
   * otherwise the client method is called with them.
   */
  ghost predicate Requested(c: Client, net: Network, h: Handler, param: Param, decode: Decoder,
                            kwargs: Result<Param, Error>, response: Result<ApiValue, Error>, sent: seq<Request>)
  {
    && kwargs == HandlerKwargs(h, param, decode)
    && (kwargs.Failure? ==> response == Failure(kwargs.error) && sent == [])
    && (kwargs.Success? ==> Called(c, net, h.endpoint, kwargs.value, response, sent))
  }

  /** `_handle_<id>(param)`: map the parameters, then call the client method. */
  method Request(c: Client, net: Network, h: Handler, param: Param, decode: Decoder)
    returns (kwargs: Result<Param, Error>, response: Result<ApiValue, Error>, sent: seq<Request>)
    requires HandlerReady(c, net, h, param, decode)
    ensures Requested(c, net, h, param, decode, kwargs, response, sent)
  {
    kwargs := RunHandler(h, param, decode);
    if kwargs.Failure? {
      return kwargs, Failure(kwargs.error), [];
    }
    response, sent := CallApi(c, net, h.endpoint, kwargs.value);
  }

  /**
   * The rest of `generate_action_result`: record what the handler returned.
   * An error it raised propagates and leaves the result as it was.
   */
  method RecordResponse(ar: ActionResult, response: Result<ApiValue, Error>) returns (r: Result<Status, Error>)
    modifies ar
    ensures response.Failure? ==> r == Failure(response.error) && unchanged(ar)
    ensures response.Success? ==>
      && r == Success(AppSuccess)
      && ar.data == old(ar.data) + Records(response.value)
      && ar.summary == old(ar.summary) + Summary(ObjectCount(response.value))
      && ar.status == AppSuccess
  {
    if response.Failure? {
      return Failure(response.error);
    }
    GenerateActionResult(ar, response.value);
    r := Success(ar.status);
  }

  /**
   * `generate_action_result` for handler `h`: an action result is added, the
   * handler runs, and what it returned is recorded. An error the handler
   * raises leaves the added result without data, summary or status.
   */
  method RunAction(c: Client, net: Network, h: Handler, param: Param, decode: Decoder)
    returns (ar: ActionResult, r: Result<Status, Error>, sent: seq<Request>,
             kwargs: Result<Param, Error>, response: Result<ApiValue, Error>)
    requires HandlerReady(c, net, h, param, decode)
    ensures Requested(c, net, h, param, decode, kwargs, response, sent)
    ensures fresh(ar) && ar.param == param
    ensures response.Failure? ==>
      r == Failure(response.error) && ar.data == [] && ar.summary == map[] && ar.status == Unset
    ensures response.Success? ==>
      && r == Success(AppSuccess)
      && ar.data == Records(response.value)
      && ar.summary == Summary(ObjectCount(response.value))
      && ar.status == AppSuccess
  {
    ar := new ActionResult(param);
    kwargs, response, sent := Request(c, net, h, param, decode);
    r := RecordResponse(ar, response);
    if response.Success? {
      assert [] + Records(response.value) == Records(response.value);
      assert map[] + Summary(ObjectCount(response.value)) == Summary(ObjectCount(response.value));
    }
  }

  /**
   * `handle_action` over the connector's handler table `handlers`:
   * `test_connectivity` goes to its own handler and never records data; any
   * other identifier without a handler raises `RuntimeError` naming the
   * missing `_handle_<id>` before anything is sent or recorded; every other
   * identifier runs its handler as `RunAction` does.
   */
  method HandleAction(c: Client, net: Network, handlers: map<string, Handler>, actionId: string, param: Param, decode: Decoder)
    returns (ar: ActionResult?, r: Result<Status, Error>, sent: seq<Request>,
             ghost kwargs: Result<Param, Error>, ghost response: Result<ApiValue, Error>)
    requires actionId in handlers ==> HandlerReady(c, net, handlers[actionId], param, decode)
    ensures actionId == "test_connectivity" ==>
      && ar != null && fresh(ar) && ar.param == param && ar.data == [] && ar.summary == map[]
      && sent == GenerateBearerToken(c, net).sent
      && (ar.status == AppSuccess <==> GenerateBearerToken(c, net).result.Success?)
      && r == Success(ar.status)
    ensures actionId != "test_connectivity" && actionId !in handlers ==>
      ar == null && sent == [] && r == Failure(RuntimeError(HandlerName(actionId)))
    ensures actionId != "test_connectivity" && actionId in handlers ==>
      && Requested(c, net, handlers[actionId], param, decode, kwargs, response, sent)
      && ar != null && fresh(ar) && ar.param == param
      && (response.Failure? ==> r == Failure(response.error) && ar.data == [] && ar.status == Unset)
      && (response.Success? ==>
            r == Success(AppSuccess) && ar.data == Records(response.value)
            && ar.summary == Summary(ObjectCount(response.value)) && ar.status == AppSuccess)
  {
    if actionId == "test_connectivity" {
      ar, sent := TestConnectivity(c, net, param);
      return ar, Success(ar.status), sent, Success(map[]), Success(NoValue);
    }
    if actionId !in handlers {
      var err := RuntimeError(HandlerName(actionId));
      return null, Failure(err), [], Failure(err), Failure(err);
    }
    var result, kw, resp;
    result, r, sent, kw, resp := RunAction(c, net, handlers[actionId], param, decode);
    ar, kwargs, response := result, kw, resp;
  }
}
