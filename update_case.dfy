/**
 * The input parameters of the case update, derived from those of case
 * creation: a deep copy with every parameter made optional, and the output
 * model listing one field per parameter.
 */
module UpdateCase {
  import opened Wrappers
  import opened CydarmInputParam
  import opened CreateCase

  /**
   * `copy.deepcopy` of a list of parameters: a fresh copy of each distinct
   * object, and the same copy wherever the same object recurs.
   */
  method DeepCopy(ps: seq<InputParam>) returns (qs: seq<InputParam>)
    ensures |qs| == |ps|
    ensures forall i :: 0 <= i < |qs| ==> fresh(qs[i]) && qs[i].Record() == ps[i].Record()
    ensures forall i, j :: 0 <= i < |qs| && 0 <= j < |qs| ==> (qs[i] == qs[j] <==> ps[i] == ps[j])
  {
    var memo: map<InputParam, InputParam> := map[];
    qs := [];
    for i := 0 to |ps|
      invariant |qs| == i
      invariant forall k :: 0 <= k < i ==> ps[k] in memo && qs[k] == memo[ps[k]]
      invariant forall p :: p in memo ==> fresh(memo[p]) && memo[p].Record() == p.Record()
      invariant forall p, p' :: p in memo && p' in memo && memo[p] == memo[p'] ==> p == p'
    {
      var p := ps[i];
      if p !in memo {
        var q := new InputParam(p.Record());
        memo := memo[p := q];
      }
      qs := qs + [memo[p]];
    }
  }

  /** The records of the update list: the same parameters, in order, none required. */
  function MadeOptional(rs: seq<ParamRecord>): (r: seq<ParamRecord>)
    ensures |r| == |rs|
  {
    seq(|rs|, i requires 0 <= i < |rs| => rs[i].(required := false))
  }

  /**
   * Making a list optional keeps its names, order and every field but
   * `required`, which it clears; only the required parameters change, and
   * doing it twice is doing it once.
   */
  lemma MadeOptionalShape(rs: seq<ParamRecord>)
    ensures DeclaredNames(MadeOptional(rs)) == DeclaredNames(rs)
    ensures forall i :: 0 <= i < |rs| ==> !MadeOptional(rs)[i].required
    ensures forall i :: 0 <= i < |rs| ==> MadeOptional(rs)[i].(required := rs[i].required) == rs[i]
    ensures forall i :: 0 <= i < |rs| ==> (MadeOptional(rs)[i] == rs[i] <==> !rs[i].required)
    ensures MadeOptional(MadeOptional(rs)) == MadeOptional(rs)
  {
  }

  /**
   * The loop over the update list: every parameter object is made optional
   * and nothing else about it changes.
   */
  method MakeOptional(ps: seq<InputParam>)
    modifies ps
    ensures Records(ps) == MadeOptional(old(Records(ps)))
  {
    for i := 0 to |ps|
      invariant forall k :: 0 <= k < |ps| ==>
        ps[k].Record().(required := false) == old(ps[k].Record()).(required := false)
      invariant forall k :: 0 <= k < i ==> !ps[k].required
    {
      ps[i].required := false;
    }
  }

  /** `OUTPUT_CASE_MODEL`: one output field per parameter, in order, each at its name's data path. */
  function OutputModel(rs: seq<ParamRecord>): (fields: seq<FieldRecord>)
    ensures |fields| == |rs|
    ensures forall i :: 0 <= i < |rs| ==>
      PathName(fields[i].dataPath) == Some(rs[i].name) && fields[i].dataType == rs[i].dataType
  {
    seq(|rs|, i requires 0 <= i < |rs| => OutputFieldOf(rs[i]))
  }

  /**
   * The update list is a deep copy of the create list made optional, so the
   * create list keeps its required flags; the output model lists the update
   * list's fields.
   */
  method UpdateCaseParams(create: seq<InputParam>) returns (update: seq<InputParam>, outputModel: seq<FieldRecord>)
    ensures forall i :: 0 <= i < |update| ==> fresh(update[i])
    ensures Records(update) == MadeOptional(Records(create))
    ensures Records(create) == old(Records(create))
    ensures outputModel == OutputModel(Records(update))
  {
    update := DeepCopy(create);
    MakeOptional(update);
    outputModel := [];
    for i := 0 to |update|
      invariant outputModel == OutputModel(Records(update)[..i])
    {
      outputModel := outputModel + [update[i].AsOutputField()];
    }
  }

  /**
   * For the manifest's create list: the update list has the same names in
   * the same order, requires nothing, and differs from the create list
   * exactly at the six parameters case creation requires.
   */
  lemma UpdateCaseDeclarations()
    ensures DeclaredNames(MadeOptional(CreateCaseDeclarations)) == DeclaredNames(CreateCaseDeclarations)
    ensures forall r :: r in MadeOptional(CreateCaseDeclarations) ==> !r.required
    ensures forall i :: 0 <= i < |CreateCaseDeclarations| ==>
      (MadeOptional(CreateCaseDeclarations)[i] != CreateCaseDeclarations[i] <==> CreateCaseDeclarations[i].required)
  {
    MadeOptionalShape(CreateCaseDeclarations);
  }
}
