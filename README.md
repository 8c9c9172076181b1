# Cydarm connector for Splunk SOAR, modelled in Dafny

The Cydarm connector lets a Splunk SOAR playbook act on the Cydarm
case-management service. This project models its three layers and proves
what each one promises.

- **The action layer** (`cydarm_connector.py`, module `CydarmConnector`):
  - `handle_action` maps an action identifier to its `_handle_<id>` method, and treats `test_connectivity` as a special case.
  - Each handler narrows the untyped parameter map to the keyword arguments of one client method (`extract_args_dict`). The case handlers also validate and decode case fields (`parse_case_args`).
  - `call_cydarm_api` calls the client method with those arguments.
  - `generate_action_result` turns the return value into data records and a `total_objects` summary on a host `ActionResult`.
- **The REST client** (`cydarm_api.py`, module `CydarmApi`):
  - credentials in Base64, in `to_base64` (module `Base64`, section 4 of RFC 4648);
  - the bearer-token request and session headers;
  - URL building;
  - the return mode of each HTTP verb;
  - the request each domain operation sends, including the `create_case` body, the comment bodies and the page query;
  - the `get_cases_filtered` walk over pages.

  The service is a function from request to response (`Http.Network`). Every client operation returns an `Exchange`: its result or the exception it raised, plus the requests it sent, in order. Python's binding of `func(**kwargs)` to a method's signature is modelled explicitly (`CydarmApi.Bind`).
- **The manifest helpers** (`gen_app_json/`, modules `CydarmInputParam`, `CreateCase`, `UpdateCase` and `GenAppJson`):
  - the `InputParam` dataclass with its defaults and its output field;
  - the create-case parameter list and the update-case list derived from it by deep copy;
  - `generate_input_params_dict`, which numbers the parameters in place;
  - `generate_action`, which derives an action's display name.

The modules mirror the source's structure:

- Code that mutates state is imperative Dafny: `ExtractArgsDict`, `ParseCaseArgs`, `GenerateActionResult`, `WalkCasesFiltered`, `GenerateInputParamsDict`, `MakeOptional` and `DeepCopy`. The mutable objects are classes: `CydarmConnector.ActionResult` and `CydarmInputParam.InputParam`.
- Every such method is proved against a specification function, and that function's properties are proved as lemmas.
- The handler table is a map from action identifier to a `Handler` value. A handler is an allow-list, an optional renamed parameter, or "case fields".

## Model

| member | source | states |
|---|---|---|
| Base64.Encode | cydarm_api.py:33-35 | The Base64 text of n bytes has 4·⌈n/3⌉ characters. |
| Base64.DecodeEncode | cydarm_api.py:33-35 | Decoding the Base64 text of any byte string gives back that byte string. |
| Base64.EncodeInjective | cydarm_api.py:33-35 | Distinct byte strings have distinct Base64 texts. |
| Base64.EncodeAlphabet | cydarm_api.py:33-35 | Every character of an encoding is in the RFC 4648 alphabet, or is `=` padding in one of the last two positions. |
| Base64.Rfc4648Vectors | cydarm_api.py:33-35 | The encoder gives the test vectors of section 10 of RFC 4648 ("", "f", "fo", "foo", "foob", "fooba", "foobar"). |
| Base64.SymbolValueOfSymbol | cydarm_api.py:33-35 | Each 6-bit value is read back from its alphabet symbol. |
| Json.Decimal | cydarm_api.py:89-90 | `str(n)` of a natural number is a non-empty string of decimal digits. |
| Json.DecimalRoundTrip | cydarm_api.py:89-90 | Reading back the decimal text of a number gives the number. |
| Json.StrOfNumber | cydarm_api.py:89-90 | The text a number contributes to an f-string path reads back as that number, sign included. |
| CydarmApi.ToBase64 | cydarm_api.py:33-35 | Succeeds exactly for ASCII text and raises `UnicodeEncodeError` otherwise. The output decodes to the ASCII bytes of the text and has 4·⌈n/3⌉ characters. |
| CydarmApi.ToBase64RoundTrip | cydarm_api.py:33-35 | Every ASCII text is recovered exactly from its Base64 text. |
| CydarmApi.Url | cydarm_api.py:60 | The URL is the base URL immediately followed by the path. |
| CydarmApi.UrlInjective | cydarm_api.py:60 | On one client, equal URLs mean equal paths. |
| CydarmApi.AuthBody | cydarm_api.py:39-43 | The token body exists exactly when both credentials are ASCII. It is `{"username", "password"}`, each credential in Base64. |
| CydarmApi.CreateSession | cydarm_api.py:46-56 | The session carries the configured Basic credentials. It has `x-cydarm-authz` exactly when a bearer token was asked for. Without one, nothing is sent. It sends at most one token request. |
| CydarmApi.GenerateBearerToken | cydarm_api.py:37-44 | Sends at most one request, a token request (POST of the Base64 credentials to `/auth/password`, no bearer header). It sends none exactly when a credential is not ASCII. When it sends one, it succeeds exactly when the reply arrives with a non-error status and an `Access-Token` header, and returns that header. |
| CydarmApi.SessionCarriesToken | cydarm_api.py:52-55 | An authenticated session sends what the token fetch sends and fails when it fails. The headers the client sets on it are exactly `x-cydarm-authz`, set to the fetched token. |
| CydarmApi.TokenRequestCarriesCredentials | cydarm_api.py:39-43 | A token request's body holds exactly `username` and `password`, each decoding back to the configured credential. |
| CydarmApi.RestCallWithSession | cydarm_api.py:58-71 | Exactly one request: base URL plus path, with the session's credentials and headers and the given body and query. It succeeds exactly when the reply arrives with a non-error status and, when JSON is asked for, a JSON body. It then returns that parsed body, or the raw response when JSON is not asked for. |
| CydarmApi.RestCall | cydarm_api.py:73-75 | A token request first. If it fails, its error and nothing else. Otherwise exactly one more request, carrying the fetched token as `x-cydarm-authz`. It succeeds exactly when that request's reply is accepted (non-error status, and a JSON body when JSON is asked for), and returns the parsed body or the raw response. |
| CydarmApi.ReturnModes | cydarm_api.py:77-87 | `rest_put` and `rest_delete` return the raw response; `rest_get` and `rest_post` return parsed JSON by default. |
| CydarmApi.BindParameters | cydarm_api.py:147-148 | Binding succeeds exactly when every parameter has a keyword or a default. It binds every declared name and keeps the caller's values. A failure names a required parameter left out. |
| CydarmApi.Bind | cydarm_connector.py:211 | `func(**kwargs)` binds exactly when the keywords are declared (or the method takes `**kwargs`) and every required parameter is given. The caller's values are kept, and the undeclared keywords go to `**kwargs`. |
| CydarmApi.BoundArgument | cydarm_api.py:147-148 | A declared parameter takes the caller's keyword when there is one, else its default. |
| CydarmApi.FirstNamedAt | cydarm_api.py:147-148 | A lookup by name finds a declaration that no earlier declaration shares a name with. |
| CydarmApi.CommentBody | cydarm_api.py:161-173 | Succeeds exactly for an ASCII string comment. The body has exactly `data`, `mimeType` = `text/plain` and `significance` = `Comment`, and `data` decodes back to the comment. |
| CydarmApi.CommentOperationsAgree | cydarm_api.py:161-173 | Both comment operations send the same body for the same comment and fail with the same error. |
| CydarmApi.CreateCaseBody | cydarm_api.py:149-157 | The body holds the four flags, `description` and `org`, then every extra keyword on top. Extra keywords win over the fixed keys. |
| CydarmApi.CreateCaseSendsKeywords | cydarm_api.py:147-159 | `create_case(**kw)` binds exactly when `description` and `org` are given. The body holds every keyword unaltered plus the four flags, each `true` unless given. |
| CydarmApi.CreateCaseFlagArgs | cydarm_api.py:147-148 | Each flag parameter is the caller's keyword, or `true`. |
| CydarmApi.CreateCaseRequiredArgs | cydarm_api.py:147 | `description` and `org` are bound to the caller's values. |
| CydarmApi.SignatureOf | cydarm_api.py:89-232 | Only `update_case` and `create_case` take `**kwargs`. |
| CydarmApi.Route | cydarm_api.py:161-173 | Only the two comment operations can raise before a request is built. |
| CydarmApi.RouteVerbs | cydarm_api.py:89-232 | `update_case` and `update_case_history` are the operations that PUT, and `delete_case_tag` the one that DELETEs. |
| CydarmApi.RouteGets | cydarm_api.py:89-232 | The case, playbook, action, case-playbook, data-list, page, user and ACL lookups are exactly the operations that GET. |
| CydarmApi.RouteReturnsJson | cydarm_api.py:77-232 | The PUTs, the DELETE and `add_action_to_playbook` (`return_json=False`) return the raw response; every other operation returns the parsed body. |
| CydarmApi.PageQuery | cydarm_api.py:206-216 | `page[number]` and `page[size]` are always set. `filter[text]` and `filter[inc_tag]` are set exactly when their argument is truthy, to that argument. No other key is set. |
| CydarmApi.UpdateCaseSendsKeywords | cydarm_api.py:138-139 | `update_case(**kw)` binds exactly when `case_uuid` is given. It then PUTs every other keyword as the body to `/case/<case_uuid>`. |
| CydarmApi.Issue | cydarm_api.py:77-87 | A failed token fetch is the whole exchange. Otherwise the token request is followed by exactly the call's request: its verb, base URL plus path, the fetched token, the body (none for GET) and the query (none but for GET). It succeeds exactly when that reply is accepted under the verb's return mode, and returns the parsed body or the raw response. |
| CydarmApi.Perform | cydarm_api.py:89-182 | A domain operation that raises before sending (a bad comment) sends nothing. Otherwise it sends what its `rest_*` call sends and succeeds exactly when that call does, with its result. `update_case` returns `None` instead of the response. |
| CydarmApi.ReadPage | cydarm_api.py:199-200 | A page is read exactly when it is an object with a `data` list and a `links` object. It yields the `data` items and whether `links` has `next`. |
| CydarmApi.FetchPage | cydarm_api.py:197-198 | Fetching page n sends what `rest_get("/case", params)` sends for the page-n query. |
| CydarmApi.FetchPageReads | cydarm_api.py:197-216 | After the token request, page n is `GET /case` with the page-n query. A reply that is not accepted raises; an accepted one is read as a page (`data` and `next`). |
| CydarmApi.Advance | cydarm_api.py:199-201 | A page read with a `next` link extends the items and requests of the walk by that page. |
| CydarmApi.StopsFailing | cydarm_api.py:197-199 | A walk that cannot fetch page k ends there with that error, after the requests of pages 0..k. |
| CydarmApi.StopsLast | cydarm_api.py:199-203 | A walk reaching a page without `next` ends there with the items of all pages 0..k in page order. |
| CydarmApi.WalkDeterministic | cydarm_api.py:196-203 | A walk has one outcome: its last page, its result and its requests are determined. |
| CydarmApi.WalkCasesFiltered | cydarm_api.py:184-204 | Pages 0, 1, 2, … are requested in order until the first page with no `next` link or the first error. The result is the concatenation of the pages' `data` in page order, or the error. The requests sent are those of every page up to the last. |
| CydarmConnector.Restrict | cydarm_connector.py:132-137 | The keys are exactly the allow-listed keys present in `param`, each with `param`'s value. |
| CydarmConnector.ExtractArgsDict | cydarm_connector.py:131-137 | The loop builds exactly the restriction of `param` to the allow-list. |
| CydarmConnector.RestrictTwice | cydarm_connector.py:131-137 | Narrowing twice keeps the keys on both allow-lists. |
| CydarmConnector.SeverityCheck | cydarm_connector.py:121-124 | A severity passes exactly when it is a number in 1..5 or `True`. Out of range raises with the value (`False` as 0). A non-number cannot be compared. |
| CydarmConnector.DecodeField | cydarm_connector.py:127-128 | An absent field is left alone. A present one succeeds exactly when it is decodable JSON text, and is then replaced by its decoding. Otherwise the error names the field. |
| CydarmConnector.DecodeFieldsEffect | cydarm_connector.py:126-129 | Decoding distinct fields keeps the keys and every other field. Each present field is replaced by the decoding of its text. A failure names a present field that does not decode. |
| CydarmConnector.JsonFieldsAllowed | cydarm_connector.py:93-126 | `metadata`, `tags` and `members` are distinct allow-listed case fields. |
| CydarmConnector.CaseArgsRefusesSeverity | cydarm_connector.py:121-124 | A refused severity refuses the whole parameter map with that error. |
| CydarmConnector.CaseArgsAccepted | cydarm_connector.py:91-129 | Accepted case arguments are exactly the allow-listed fields present. Each is unchanged except the three JSON fields, which are their text's decoding. Any severity given is in range. |
| CydarmConnector.CaseArgsRefused | cydarm_connector.py:91-129 | `parse_case_args` refuses only a bad severity or a present JSON field that does not decode. |
| CydarmConnector.ParseCaseArgs | cydarm_connector.py:91-129 | The in-place loop produces exactly the case arguments: refused on a bad severity, else the decoded narrowing. |
| CydarmConnector.ApplyForward | cydarm_connector.py:82-88 | `kwargs[to] = param[from]` adds that one entry. A missing `from` raises `KeyError` when strict and is skipped otherwise. |
| CydarmConnector.HandlerTableKeys | cydarm_connector.py:59-218 | The connector has a handler for exactly its 21 action identifiers. |
| CydarmConnector.CorrectionsKeepIdentifiers | cydarm_connector.py:144-172 | The corrected table has the same identifiers as the connector's. |
| CydarmConnector.ConnectivityNotInTable | cydarm_connector.py:251-252 | `test_connectivity` has no table entry; `handle_action` routes it first. |
| CydarmConnector.RunHandler | cydarm_connector.py:59-218 | A handler's mapping produces exactly its keyword arguments. |
| CydarmConnector.HandlerEntries | cydarm_connector.py:64-142 | `get_case` extracts only `case_uuid`; the comment handlers forward `data` as `comment`; `create_case` passes the parsed case fields. |
| CydarmConnector.AsWrittenEntries | cydarm_connector.py:144-172 | The connector's `update_case` passes only case fields; its playbook handlers extract `acl_uuid`. |
| CydarmConnector.CorrectedEntries | cydarm_connector.py:144-172 | The dispatch table uses the corrected `update_case` and playbook mappings. |
| CydarmConnector.DataBecomesComment | cydarm_connector.py:79-89 | A comment handler fails exactly when `data` is missing, raising `KeyError("data")`. Otherwise it passes the allow-listed keys plus `comment` = `param["data"]`. |
| CydarmConnector.CaseHandlersRefuseSeverity | cydarm_connector.py:139-147 | A refused severity stops `create_case` and `update_case` with its error before the client is called. |
| CydarmConnector.CaseUuidNotACaseField | cydarm_connector.py:93-118 | `case_uuid` is not an allowed case field. |
| CydarmConnector.CaseFieldsLackUuid | cydarm_connector.py:119-129 | Parsed case fields never hold `case_uuid`. |
| CydarmConnector.UpdateCaseAsWrittenFails | cydarm_connector.py:144-147 | As written, every `update_case` action that gets past parsing raises a missing-`case_uuid` error without sending anything. |
| CydarmConnector.UpdateCaseAsWrittenExample | cydarm_connector.py:144-147 | The parameters `{"case_uuid": "c-1"}` become empty keyword arguments, which raise for the missing `case_uuid`. |
| CydarmConnector.UpdateCaseRoute | cydarm_api.py:138-139 | Case fields joined with the action's `case_uuid` bind exactly when the action names a case. They are then PUT to `/case/<case_uuid>`. |
| CydarmConnector.UpdateCaseCorrected | cydarm_connector.py:144-147 | Corrected, `update_case` binds exactly when the action names a case, and PUTs the parsed case fields to it. |
| CydarmConnector.PlaybookBinding | cydarm_api.py:95-114 | Playbook creation always binds. The `acl` it sends is the `acl_uuid` keyword, or null. |
| CydarmConnector.PlaybookAclAsWritten | cydarm_connector.py:164-172 | As written, a playbook or playbook action is created with a null ACL whenever the action has no `acl_uuid`, whatever `acl` it passes. |
| CydarmConnector.PlaybookAclAsWrittenExample | cydarm_connector.py:164-167 | `{"name": "triage", "acl": "acl-1"}` creates a playbook whose ACL is null. |
| CydarmConnector.PlaybookAclCorrected | cydarm_connector.py:164-172 | Corrected, the ACL sent is the `acl` the action passes. |
| CydarmConnector.Dispatch | cydarm_connector.py:209-213 | A call that does not bind raises that error and sends nothing. Anything sent means binding and request building succeeded. On success: a token request and the call. |
| CydarmConnector.DispatchDelivers | cydarm_connector.py:209-213 | Binding and request-building errors raise with nothing sent; a failed token fetch is the whole exchange; otherwise the token request is followed by exactly the method's request, the call succeeds exactly when its reply is accepted, and returns the parsed body or raw response (`None` for `update_case`). |
| CydarmConnector.GetCaseRoute | cydarm_api.py:89-90 | `get_case(case_uuid=u)` binds and GETs `/case/<u>`. |
| CydarmConnector.GetCaseRecordsOneCase | cydarm_connector.py:64-67 | A `get_case` action whose reply is `{"uuid": "abc123"}` gets that object back, recorded as one data record with `total_objects` 1. |
| CydarmConnector.CallApi | cydarm_connector.py:209-213 | The client method is called with the keyword arguments. For the page walker this is a complete walk with the bound page size and filters. |
| CydarmConnector.ActionResult.constructor | cydarm_connector.py:223 | A new action result holds the parameters, with no data, an empty summary and no status. |
| CydarmConnector.ActionResult.AddData | cydarm_connector.py:230 | Appends one record and changes nothing else. |
| CydarmConnector.ActionResult.UpdateSummary | cydarm_connector.py:236-241 | Merges entries into the summary and changes nothing else. |
| CydarmConnector.ActionResult.SetStatus | cydarm_connector.py:243 | Sets the status and changes nothing else. |
| CydarmConnector.Records | cydarm_connector.py:226-234 | A list gives its elements as records, an object gives itself, and anything else gives none. |
| CydarmConnector.SummaryCountsRecords | cydarm_connector.py:226-241 | The count equals the number of records exactly for a list or an object. Both summary totals equal the count. |
| CydarmConnector.GenerateActionResult | cydarm_connector.py:226-243 | Appends the records in order and merges `total_objects` = `total_objects_successful` = the count. The status is success. |
| CydarmConnector.TestConnectivity | cydarm_connector.py:42-57 | Sends only the bearer-token request and records no data or summary. The status is success exactly when the token was fetched, else the error. |
| CydarmConnector.Request | cydarm_connector.py:59-218 | A handler's mapping error is raised before anything is sent. Otherwise the client method is called with the mapped arguments. |
| CydarmConnector.RecordResponse | cydarm_connector.py:225-243 | A raised error propagates and leaves the result unchanged. A return value is recorded as `generate_action_result` records it. |
| CydarmConnector.RunAction | cydarm_connector.py:220-243 | A fresh result with the parameters. On a raised error it holds no data, no summary and no status. Otherwise it holds exactly the records, the count summary and success. |
| CydarmConnector.HandleAction | cydarm_connector.py:245-258 | `test_connectivity` goes to its handler and records nothing. An identifier without a handler raises `RuntimeError` naming `_handle_<id>`, sending and recording nothing. Any other identifier runs its handler through `generate_action_result`. |
| CydarmInputParam.ParamDefaults | gen_app_json/cydarm_input_param.py:20-30 | A parameter given only a name and description has order 0, type `string`, not required, not primary, empty `contains` and `value_list`, and an empty default. |
| CydarmInputParam.OutputPath | gen_app_json/cydarm_input_param.py:33 | The data path is `action_result.data.*.` followed by the name. |
| CydarmInputParam.PathName | gen_app_json/cydarm_input_param.py:33 | A path names a field exactly when it has the record prefix, and the path is rebuilt from that name. |
| CydarmInputParam.PathNameRoundTrip | gen_app_json/cydarm_input_param.py:33 | The name is recovered from its data path. |
| CydarmInputParam.InputParam.constructor | gen_app_json/cydarm_input_param.py:20-30 | The object holds exactly the given fields. |
| CydarmInputParam.InputParam.AsOutputField | gen_app_json/cydarm_input_param.py:32-33 | The output field's path names this parameter, and its type is the parameter's type. |
| CydarmInputParam.OutputFieldOf | gen_app_json/cydarm_input_param.py:32-33 | The same for a record: the path names it and the type is copied. |
| CydarmInputParam.Instantiate | gen_app_json/create_case.py:20-71 | One fresh, distinct object per record, in order, holding that record. |
| CreateCase.DeclaredCaseFields | gen_app_json/create_case.py:20-71 | The declared create-case parameters are the case fields `parse_case_args` accepts, in its order, except `modified`. |
| CreateCase.CreateCaseParams | gen_app_json/create_case.py:20-71 | The parameter objects are fresh, distinct and hold the declared records. |
| UpdateCase.DeepCopy | gen_app_json/update_case.py:22 | A fresh copy of each object with the same fields. Two positions share a copy exactly when they shared the original. |
| UpdateCase.MadeOptionalShape | gen_app_json/update_case.py:22-24 | Same names in the same order and nothing required. Every field but `required` is kept. An entry changes exactly when it was required. Doing it twice is doing it once. |
| UpdateCase.MakeOptional | gen_app_json/update_case.py:23-24 | The loop leaves each object's record made optional and nothing else changed. |
| UpdateCase.OutputModel | gen_app_json/update_case.py:26 | One output field per parameter, in order, at its name's data path, with its type. |
| UpdateCase.UpdateCaseParams | gen_app_json/update_case.py:22-26 | The update list is fresh and is the create list made optional. The create list's records are unchanged. The output model lists the update list's fields. |
| UpdateCase.UpdateCaseDeclarations | gen_app_json/update_case.py:22-24 | For the declared create list: the same names, none required, and different exactly at the required parameters. |
| GenAppJson.OutputFieldDefault | gen_app_json/__init__.py:25-28 | A field given only its data path has type `string`. |
| GenAppJson.AsListOfDicts | gen_app_json/__init__.py:31-32 | Same length; each dictionary has its field's path and type, in order. |
| GenAppJson.AsListOfDictsAppend | gen_app_json/__init__.py:31-32 | Converting a concatenation is concatenating the conversions. |
| GenAppJson.SummaryFieldsAreRecorded | gen_app_json/__init__.py:82-89 | The advertised summary fields are numeric and are the keys an action result's summary holds. Status and message are strings. |
| GenAppJson.PlaybookInputsNameAcl | gen_app_json/__init__.py:91-100 | Both playbook actions declare a required `acl` and no `acl_uuid`. |
| GenAppJson.ListingKeys | gen_app_json/__init__.py:115-119 | One entry per distinct parameter name. |
| GenAppJson.ListingLast | gen_app_json/__init__.py:115-119 | A name's entry is the last record of that name. |
| GenAppJson.ListingOrders | gen_app_json/__init__.py:114-119 | With distinct names, each entry is its record with `order` equal to its index. |
| GenAppJson.GenerateInputParamsDict | gen_app_json/__init__.py:114-119 | The output files each record, numbered by its index, under its name; a later duplicate wins. Only `order` changes on the objects. With distinct objects, each object's `order` is its index. |
| GenAppJson.DisplayName | gen_app_json/__init__.py:133 | The derived name has the identifier's length; at each position an underscore becomes a space and every other character is lowered. |
| GenAppJson.DisplayNameShape | gen_app_json/__init__.py:133 | The derived name has no underscore and no upper-case letter. Its spaces are exactly the identifier's underscores and spaces. |
| GenAppJson.DisplayNameIdempotent | gen_app_json/__init__.py:133 | Deriving the name of a derived name changes nothing. |
| GenAppJson.ResolvedActionName | gen_app_json/__init__.py:133 | A non-empty given action name wins. Otherwise the name is derived from the identifier. |
| GenAppJson.GenerateAction | gen_app_json/__init__.py:122-147 | The entry has the nine fixed keys, plus `verbose` exactly when one is given. `action` is the resolved name; `identifier`, `description`, `type` and `read_only` are the arguments; `parameters` maps each parameter name to its dictionary; `output` lists the field dictionaries in order; `render` is a table and `versions` is `EQ(*)`. |

## Left out

- Real HTTP is not modelled. `requests` sessions, transport and status handling are the `Http.Network` oracle, and a missing response stands for a connection error.
- Logging is left out: `save_progress`, `debug_print`, the client's `log_function`, and the progress message of the connectivity test. It has no effect on results.
- The host glue is left out: `BaseConnector`, `add_action_result`, `initialize`/`finalize` (loading the asset config, state load and save) and `main()` (argparse, platform login, file reading). The client's configuration is the `CydarmApi.Client` value.
- `generate_cydarm_json.py` is not part of this model. It is a data literal fed to the helpers that are modelled.
- `gen_app_json/input_param.py` is not part of this model. It duplicates `cydarm_input_param.py`.
- The `OUTPUT_*_MODEL` constants other than `OUTPUT_STATUS_MESSAGE_SUMMARY` and `OUTPUT_CASE_MODEL` are left out. They are plain data.
- `json.loads` is the `Decoder` parameter, an arbitrary partial function.
- Floating point is not modelled. JSON numbers, including a severity, are integers.
- `Json.Str` renders arrays and objects only as their brackets, not as Python's `repr`. The host never passes them as path values.
- `str.lower` is modelled only on ASCII letters (`GenAppJson.LowerChar`).
- Python dictionaries are Dafny maps, so key order in a dictionary (and in the JSON built from it) is not modelled.
- Basic-auth credentials are modelled as a session field. Their encoding into an `Authorization` header is not modelled.
- CydarmApi.WalkCasesFiltered: requires that the service eventually reports a last page or fails (`PagingEnds`). The source loops forever otherwise, and the model says nothing about that case.
- CydarmConnector.HandleAction: requires `HandlerReady`, which carries the same bound for an action that starts a page walk.
- CydarmApi.ReadPage: the model reads a page only when `data` is a list and `links` an object; every other shape is the one `MalformedPage` error. Python is more lenient: `extend` walks a string `data` by characters and an object `data` by its keys, and `'next' in links` is list membership for a list and a substring test for a string. So `{"data": [1], "links": []}` yields `[1]` with no next page in Python but `MalformedPage` in the model. A number or `None` in either place raises `TypeError` in Python too.
- CydarmApi.GenerateBearerToken: looks the `Access-Token` header up case-sensitively. The response headers of `requests` are case-insensitive, so a reply carrying `access-token` succeeds in Python but fails in the model.
- The default headers a `requests` session starts with (`User-Agent`, `Accept`, …) are not modelled. A session's headers are only those the client sets.
- The service is stateless: the same request always gets the same reply. In particular every token fetch of one run yields the same token, and a token's expiry is not modelled.
- CydarmConnector.HandleAction: the handler table is a parameter, and `getattr` becomes a lookup in it. The connector's other attributes named `_handle_…` (such as the host's `_handle_action`) are not modelled.
- CydarmConnector.TestConnectivity: the status message `Connection failed: …` is the error value itself, not its text.
- CydarmConnector.ActionResult.constructor: the copy `dict(param)` is the parameter map itself. Maps are values.
- CydarmConnector.RecordResponse: an exception a handler raises is returned as a `Failure` rather than propagated to the host.
- The host's own handling of that exception is not modelled.
- CydarmApi.Perform: the response of `update_case` is discarded, as in the source. Its failure still propagates.

## Findings

| source | as written | input that shows it | evidently intended | confidence | as-written member | corrected member |
|---|---|---|---|---|---|---|
| cydarm_connector.py:144-147 | `_handle_update_case` passes only the parsed case fields to `update_case(case_uuid, **kwargs)`. Those fields never include `case_uuid`, so every call raises a missing-argument error before any request is sent. | action parameters `{"case_uuid": "c-1"}` (the manifest declares `case_uuid` at generate_cydarm_json.py:86-90) | pass the action's `case_uuid` along with the case fields, and PUT the fields to `/case/<case_uuid>` | not executed | CydarmConnector.UpdateCaseAsWrittenFails | CydarmConnector.UpdateCaseCorrected |
| cydarm_connector.py:164-172 | `_handle_create_playbook` and `_handle_create_playbook_action` extract `acl_uuid`, but both actions declare the parameter as `acl` (gen_app_json/__init__.py:91-100). The ACL the user supplies is dropped, and the playbook is created with a null ACL. | action parameters `{"name": "triage", "acl": "acl-1"}` | forward the declared `acl` parameter as the `acl_uuid` argument | not executed | CydarmConnector.PlaybookAclAsWritten | CydarmConnector.PlaybookAclCorrected |
