/**
 * The input parameter of an action in the app manifest: a mutable record
 * with defaults, its dictionary form, and the output field it describes.
 */
module CydarmInputParam {
  import opened Wrappers

  /**
   * The fields of an input parameter, as `dataclasses.asdict` lists them.
   * The defaults are the dataclass's: order 0, type `string`, optional,
   * not primary, no contained types, no value list, empty default.
   */
  datatype ParamRecord = ParamRecord(
    name: string,
    description: string,
    order: int := 0,
    dataType: string := "string",
    required: bool := false,
    primary: bool := false,
    contains: seq<string> := [],
    valueList: seq<string> := [],
    default: string := "")

  /** A parameter given only a name and a description takes every other field from the defaults. */
  lemma ParamDefaults(name: string, description: string)
    ensures var r := ParamRecord(name, description);
      && r.name == name && r.description == description
      && r.order == 0 && r.dataType == "string" && !r.required && !r.primary
      && r.contains == [] && r.valueList == [] && r.default == ""
  {
  }

  /** An output field's dictionary: where the value sits in the action result, and its type. */
  datatype FieldRecord = FieldRecord(dataPath: string, dataType: string)

  /** The data-path prefix of a field of each record of the action result. */
  const DataPrefix: string := "action_result.data.*."

  /** The data path of the record field `name`. */
  function OutputPath(name: string): (p: string)
    ensures |p| == |DataPrefix| + |name|
    ensures p[..|DataPrefix|] == DataPrefix && p[|DataPrefix|..] == name
  {
    DataPrefix + name
  }

  /** The record field a data path names, when it is a field of each record. */
  function PathName(path: string): (r: Option<string>)
    ensures r.Some? <==> |path| >= |DataPrefix| && path[..|DataPrefix|] == DataPrefix
    ensures r.Some? ==> OutputPath(r.value) == path
  {
    if |path| >= |DataPrefix| && path[..|DataPrefix|] == DataPrefix then
      assert DataPrefix + path[|DataPrefix|..] == path;
      Some(path[|DataPrefix|..])
    else None
  }

  /** A field name is recovered from its data path, so distinct fields have distinct paths. */
  lemma PathNameRoundTrip(name: string)
    ensures PathName(OutputPath(name)) == Some(name)
  {
  }

  /** An input parameter; the manifest builders update its order and required flag in place. */
  class InputParam {
    var name: string
    var description: string
    var order: int
    var dataType: string
    var required: bool
    var primary: bool
    var contains: seq<string>
    var valueList: seq<string>
    var default: string

    /** An input parameter with the given fields. */
    constructor(r: ParamRecord)
      ensures Record() == r
    {
      name := r.name;
      description := r.description;
      order := r.order;
      dataType := r.dataType;
      required := r.required;
      primary := r.primary;
      contains := r.contains;
      valueList := r.valueList;
      default := r.default;
    }

    /** `dataclasses.asdict(self)`. */
    function Record(): ParamRecord
      reads this
    {
      ParamRecord(name, description, order, dataType, required, primary, contains, valueList, default)
    }

    /**
     * `as_output_field`: the output field at the data path of this
     * parameter's name, of the parameter's type.
     */
    function AsOutputField(): (f: FieldRecord)
      reads this
      ensures PathName(f.dataPath) == Some(name)
      ensures f.dataType == dataType
    {
      FieldRecord(OutputPath(name), dataType)
    }
  }

  /** The output field of a parameter with these fields, as `as_output_field` gives it. */
  function OutputFieldOf(r: ParamRecord): (f: FieldRecord)
    ensures PathName(f.dataPath) == Some(r.name)
    ensures f.dataType == r.dataType
  {
    FieldRecord(OutputPath(r.name), r.dataType)
  }

  /** The records of a list of parameters, in order. */
  function Records(ps: seq<InputParam>): (rs: seq<ParamRecord>)
    reads ps
    ensures |rs| == |ps| && forall i :: 0 <= i < |ps| ==> rs[i] == ps[i].Record()
  {
    seq(|ps|, i reads ps requires 0 <= i < |ps| => ps[i].Record())
  }

  /** A fresh parameter object for each record, in order. */
  method Instantiate(rs: seq<ParamRecord>) returns (ps: seq<InputParam>)
    ensures |ps| == |rs|
    ensures forall i :: 0 <= i < |ps| ==> fresh(ps[i]) && ps[i].Record() == rs[i]
    ensures forall i, j :: 0 <= i < j < |ps| ==> ps[i] != ps[j]
  {
    ps := [];
    for i := 0 to |rs|
      invariant |ps| == i
      invariant forall k :: 0 <= k < i ==> fresh(ps[k]) && ps[k].Record() == rs[k]
      invariant forall k, l :: 0 <= k < l < i ==> ps[k] != ps[l]
    {
      var p := new InputParam(rs[i]);
      ps := ps + [p];
    }
  }
}
