/**
 * The processing parameters of `multiply_ui/ui/params/model.py`: the schema a
 * parameter document must satisfy, the cross-referencing of forward models
 * and variables, and the keyed collections (`InputTypes`, `ForwardModels`,
 * `Variables`, `PostProcessors`) the parameters expose.
 */
module Params {
  import opened Wrappers
  import opened Json
  import opened Schema
  import opened Keyed
  import opened Shapes

  // ---------------------------------------------------------------------------
  // The schemas
  // ---------------------------------------------------------------------------

  const TimeRangeType := MakeTypeDef(ListType, false, Some(OptionalOf(StrType)), Some(2), None, None, NoProperties)

  const InputTypesType := RecordOf([
    PropertyDef("id", Plain(StrType)),
    PropertyDef("name", Plain(StrType)),
    PropertyDef("timeRange", TimeRangeType)])

  const VariableType := RecordOf([
    PropertyDef("id", Plain(StrType)),
    PropertyDef("name", Plain(StrType)),
    PropertyDef("unit", OptionalOf(StrType)),
    PropertyDef("description", OptionalOf(StrType)),
    PropertyDef("valueRange", OptionalOf(StrType)),
    PropertyDef("mayBeUserPrior", Plain(BoolType)),
    PropertyDef("applications", MakeTypeDef(ListType, true, Some(Plain(StrType)), None, None, None, NoProperties))])

  const ForwardModelType := RecordOf([
    PropertyDef("id", Plain(StrType)),
    PropertyDef("name", Plain(StrType)),
    PropertyDef("description", OptionalOf(StrType)),
    PropertyDef("modelAuthors", OptionalOf(StrType)),
    PropertyDef("modelUrl", OptionalOf(StrType)),
    PropertyDef("inputType", Plain(StrType)),
    PropertyDef("type", Plain(StrType)),
    PropertyDef("requiredPriors", ListOf(Plain(StrType))),
    PropertyDef("variables", ListOf(Plain(StrType)))])

  const PostProcessorType := RecordOf([
    PropertyDef("name", Plain(StrType)),
    PropertyDef("description", Plain(StrType)),
    PropertyDef("type", Plain(IntType)),
    PropertyDef("inputTypes", ListOf(Plain(StrType))),
    PropertyDef("indicators", ListOf(Plain(StrType)))])

  const ParametersType := RecordOf([
    PropertyDef("inputTypes", ListOf(InputTypesType)),
    PropertyDef("variables", ListOf(VariableType)),
    PropertyDef("forwardModels", ListOf(ForwardModelType)),
    PropertyDef("postProcessors", ListOf(PostProcessorType)),
    PropertyDef("indicators", ListOf(VariableType))])

  const ParametersPrefix := "processing parameters: "

  // ---------------------------------------------------------------------------
  // What validation guarantees about the shape of a document
  // ---------------------------------------------------------------------------

  /** A forward model dictionary has text `id` and `name` and a list of variable ids. */
  predicate ModelShaped(m: Value) {
    m.Object? ==>
      && HasText(m, "id") && HasText(m, "name")
      && Get(m.fields, "variables").Some? && TextList(Get(m.fields, "variables").value)
  }

  predicate ModelsShaped(ms: seq<Value>) {
    forall m | m in ms :: ModelShaped(m)
  }

  /** `forward_model['variables']` of a shaped forward model dictionary. */
  function ModelRefs(m: Value): (ids: seq<string>)
    requires m.Object? && ModelShaped(m)
  {
    var xs := Get(m.fields, "variables").value.items;
    seq(|xs|, i requires 0 <= i < |xs| => xs[i].s)
  }

  /** A validated variable dictionary never carries a `forwardModels` entry. */
  predicate Unlinked(items: seq<Value>) {
    forall v | v in items :: v.Object? ==> "forwardModels" !in Keys(v.fields)
  }

  /** The shape of a validated parameter document, as far as the constructor relies on it. */
  predicate RawShaped(raw: seq<Field>) {
    && HasList(raw, "inputTypes") && TextKeyed(ListAt(raw, "inputTypes"), "id")
    && HasList(raw, "variables") && TextKeyed(ListAt(raw, "variables"), "id") && Unlinked(ListAt(raw, "variables"))
    && HasList(raw, "forwardModels") && TextKeyed(ListAt(raw, "forwardModels"), "id")
    && ModelsShaped(ListAt(raw, "forwardModels"))
    && HasList(raw, "postProcessors") && TextKeyed(ListAt(raw, "postProcessors"), "name")
    && HasList(raw, "indicators") && TextKeyed(ListAt(raw, "indicators"), "id")
  }

  lemma VariableNames()
    ensures "forwardModels" !in Names(VariableType.properties.defs)
  {
    var defs := VariableType.properties.defs;
    forall i | 0 <= i < |defs| ensures |defs[i].name| != 13 {
    }
  }

  lemma VariableShape(v: Value)
    requires Accepts(VariableType, v) && v.Object?
    ensures HasText(v, "id") && "forwardModels" !in Keys(v.fields)
  {
    RecordText(VariableType, v, 0);
    VariableNames();
    RecordLacks(VariableType, v, "forwardModels");
  }

  lemma ModelShape(m: Value)
    requires Accepts(ForwardModelType, m)
    ensures ModelShaped(m)
  {
    if m.Object? {
      RecordText(ForwardModelType, m, 0);
      RecordText(ForwardModelType, m, 1);
      RecordTextList(ForwardModelType, m, 8);
    }
  }

  lemma InputTypesShape(raw: seq<Field>)
    requires Accepts(ParametersType, Object(raw))
    ensures HasList(raw, "inputTypes") && TextKeyed(ListAt(raw, "inputTypes"), "id")
  {
    RecordList(ParametersType, Object(raw), 0, InputTypesType);
    forall x | x in ListAt(raw, "inputTypes") && x.Object? ensures HasText(x, "id") {
      RecordText(InputTypesType, x, 0);
    }
  }

  lemma VariablesShape(raw: seq<Field>, i: nat, key: string)
    requires Accepts(ParametersType, Object(raw))
    requires (i == 1 && key == "variables") || (i == 4 && key == "indicators")
    ensures HasList(raw, key) && TextKeyed(ListAt(raw, key), "id") && Unlinked(ListAt(raw, key))
  {
    RecordList(ParametersType, Object(raw), i, VariableType);
    forall x | x in ListAt(raw, key) && x.Object?
      ensures HasText(x, "id") && "forwardModels" !in Keys(x.fields)
    {
      VariableShape(x);
    }
  }

  lemma ForwardModelsShape(raw: seq<Field>)
    requires Accepts(ParametersType, Object(raw))
    ensures HasList(raw, "forwardModels") && ModelsShaped(ListAt(raw, "forwardModels"))
  {
    RecordList(ParametersType, Object(raw), 2, ForwardModelType);
    forall x | x in ListAt(raw, "forwardModels") ensures ModelShaped(x) {
      ModelShape(x);
    }
  }

  lemma PostProcessorsShape(raw: seq<Field>)
    requires Accepts(ParametersType, Object(raw))
    ensures HasList(raw, "postProcessors") && TextKeyed(ListAt(raw, "postProcessors"), "name")
  {
    RecordList(ParametersType, Object(raw), 3, PostProcessorType);
    forall x | x in ListAt(raw, "postProcessors") && x.Object? ensures HasText(x, "name") {
      RecordText(PostProcessorType, x, 0);
    }
  }

  /** Validation against the parameter type guarantees everything the constructor relies on. */
  lemma ParametersShape(raw: seq<Field>)
    requires Accepts(ParametersType, Object(raw))
    ensures RawShaped(raw)
  {
    InputTypesShape(raw);
    VariablesShape(raw, 1, "variables");
    ForwardModelsShape(raw);
    PostProcessorsShape(raw);
    VariablesShape(raw, 4, "indicators");
  }

  // ---------------------------------------------------------------------------
  // Back-references from variables to forward models
  // ---------------------------------------------------------------------------

  datatype ParamsError =
    | Invalid(error: SchemaError)
    | Lookup(lookupError: LookupError)
    | Undescribed(varId: string, modelName: string)

  /** The text of the `ValueError` for a forward model variable that is not described. */
  function UndescribedMessage(varId: string, modelName: string): string {
    ParametersPrefix + "undescribed variable " + Quote(varId) + " found in forward model " + modelName
  }

  /** A variable dictionary whose `forwardModels` entry, if any, is a list. */
  predicate LinkableVar(v: Value) {
    v.Object? && (Get(v.fields, "forwardModels").None? || Get(v.fields, "forwardModels").value.Array?)
  }

  /** Every entry of the variables dictionary is a linkable variable dictionary. */
  predicate Linkable(vars: seq<Field>) {
    forall k | k in Keys(vars) :: LinkableVar(Get(vars, k).value)
  }

  /** The forward model ids a variable already lists. */
  function BackRefs(v: Value): seq<Value>
    requires LinkableVar(v)
  {
    match Get(v.fields, "forwardModels")
    case None => []
    case Some(refs) => refs.items
  }

  /** `variable['forwardModels'].append(model_id)`, creating the list first when it is missing. */
  function AppendRef(v: Value, modelId: string): (r: Value)
    requires LinkableVar(v)
    ensures LinkableVar(r)
  {
    var r := Object(Put(v.fields, "forwardModels", Array(BackRefs(v) + [Str(modelId)])));
    GetPut(v.fields, "forwardModels", Array(BackRefs(v) + [Str(modelId)]), "forwardModels");
    r
  }

  /** One turn of the inner loop: the variable under `varId` gains a reference to the model. */
  function AddBackRef(vars: seq<Field>, varId: string, modelId: string): (r: seq<Field>)
    requires Linkable(vars) && varId in Keys(vars)
    ensures Linkable(r) && Keys(r) == Keys(vars)
  {
    var r := Put(vars, varId, AppendRef(Get(vars, varId).value, modelId));
    forall k | k in Keys(r) ensures LinkableVar(Get(r, k).value) {
      GetPut(vars, varId, AppendRef(Get(vars, varId).value, modelId), k);
    }
    r
  }

  /** The inner loop over the variable ids of one forward model. */
  function LinkIds(vars: seq<Field>, ids: seq<string>, modelId: string, modelName: string): (r: Result<seq<Field>, ParamsError>)
    requires Linkable(vars)
    ensures r.Ok? ==> Linkable(r.value) && Keys(r.value) == Keys(vars)
  {
    if |ids| == 0 then Ok(vars)
    else
      match LinkIds(vars, ids[..|ids| - 1], modelId, modelName)
      case Err(e) => Err(e)
      case Ok(v) =>
        var id := ids[|ids| - 1];
        if id !in Keys(v) then Err(Undescribed(id, modelName))
        else Ok(AddBackRef(v, id, modelId))
  }

  /** The nested loop of the constructor over the forward models, in order. */
  function Link(vars: seq<Field>, ms: seq<Value>): (r: Result<seq<Field>, ParamsError>)
    requires Linkable(vars) && ModelsShaped(ms)
    ensures r.Ok? ==> Linkable(r.value) && Keys(r.value) == Keys(vars)
  {
    if |ms| == 0 then Ok(vars)
    else
      match Link(vars, ms[..|ms| - 1])
      case Err(e) => Err(e)
      case Ok(v) =>
        var m := ms[|ms| - 1];
        if !m.Object? then Err(Lookup(NotADict(TypeName(m))))
        else LinkIds(v, ModelRefs(m), TextAt(m, "id"), TextAt(m, "name"))
  }

  /** The model id once for every occurrence of `k` among the ids the model lists. */
  function Occurrences(ids: seq<string>, k: string, modelId: string): (r: seq<Value>)
    ensures forall x | x in r :: x == Str(modelId)
    ensures r != [] <==> k in ids
  {
    if |ids| == 0 then []
    else
      assert ids == ids[..|ids| - 1] + [ids[|ids| - 1]];
      Occurrences(ids[..|ids| - 1], k, modelId) + if ids[|ids| - 1] == k then [Str(modelId)] else []
  }

  /** The ids of the forward models that list variable `k`, in model order, once per listing. */
  function Referrers(ms: seq<Value>, k: string): seq<Value>
    requires ModelsShaped(ms)
  {
    if |ms| == 0 then []
    else
      var m := ms[|ms| - 1];
      Referrers(ms[..|ms| - 1], k) + if m.Object? then Occurrences(ModelRefs(m), k, TextAt(m, "id")) else []
  }

  /**
   * A model id is among a variable's referrers exactly when some forward
   * model dictionary with that id lists the variable; nothing else is.
   */
  lemma {:induction false} ReferrersMembers(ms: seq<Value>, k: string, x: Value)
    requires ModelsShaped(ms)
    ensures x in Referrers(ms, k) <==>
              exists m | m in ms :: m.Object? && x == Str(TextAt(m, "id")) && k in ModelRefs(m)
  {
    if |ms| > 0 {
      var init := ms[..|ms| - 1];
      var m := ms[|ms| - 1];
      assert forall y :: y in ms <==> y in init || y == m;
      ReferrersMembers(init, k, x);
      ReferrersLast(ms, k, x);
    }
  }

  /** The referrers contributed by the last forward model. */
  lemma ReferrersLast(ms: seq<Value>, k: string, x: Value)
    requires ModelsShaped(ms) && |ms| > 0
    ensures var m := ms[|ms| - 1];
            x in Referrers(ms, k) <==>
              || x in Referrers(ms[..|ms| - 1], k)
              || (m.Object? && ModelShaped(m) && x == Str(TextAt(m, "id")) && k in ModelRefs(m))
  {
    var m := ms[|ms| - 1];
    assert m in ms;
    if m.Object? {
      OccurrencesMembers(ModelRefs(m), k, TextAt(m, "id"), x);
    }
  }

  /** `Occurrences` holds the model id, once per listing of `k`, and nothing else. */
  lemma OccurrencesMembers(ids: seq<string>, k: string, modelId: string, x: Value)
    ensures x in Occurrences(ids, k, modelId) <==> x == Str(modelId) && k in ids
  {
    var r := Occurrences(ids, k, modelId);
    if k in ids {
      assert r[0] in r;
    }
  }

  /**
   * Variable `n` is variable `o` after `refs` were appended to its
   * `forwardModels` list: every other entry is unchanged, and the list is
   * created only when something is appended.
   */
  ghost predicate LinkedVar(o: Value, n: Value, refs: seq<Value>) {
    && LinkableVar(o) && n.Object?
    && (forall key | key != "forwardModels" :: Get(n.fields, key) == Get(o.fields, key))
    && Get(n.fields, "forwardModels") == if refs == [] then Get(o.fields, "forwardModels") else Some(Array(BackRefs(o) + refs))
  }

  lemma LinkedRefl(v: Value)
    requires LinkableVar(v)
    ensures LinkedVar(v, v, [])
  {
  }

  lemma LinkedTrans(a: Value, b: Value, c: Value, r1: seq<Value>, r2: seq<Value>)
    requires LinkedVar(a, b, r1) && LinkedVar(b, c, r2)
    ensures LinkedVar(a, c, r1 + r2)
  {
    if r2 != [] {
      if r1 == [] {
        assert r1 + r2 == r2;
      } else {
        assert BackRefs(b) == BackRefs(a) + r1;
        Text.AppendAssoc(BackRefs(a), r1, r2);
      }
    } else {
      assert r1 + r2 == r1;
    }
  }

  lemma AppendRefLinked(v: Value, modelId: string)
    requires LinkableVar(v)
    ensures LinkedVar(v, AppendRef(v, modelId), [Str(modelId)])
  {
    var refs := Array(BackRefs(v) + [Str(modelId)]);
    forall key ensures Get(AppendRef(v, modelId).fields, key) == if key == "forwardModels" then Some(refs) else Get(v.fields, key) {
      GetPut(v.fields, "forwardModels", refs, key);
    }
  }

  /** One turn of the inner loop as seen by the variable it names. */
  lemma AddBackRefSame(vars: seq<Field>, v: seq<Field>, id: string, modelId: string, before: seq<Value>)
    requires Linkable(v) && id in Keys(v) && id in Keys(vars)
    requires LinkedVar(Get(vars, id).value, Get(v, id).value, before)
    ensures LinkedVar(Get(vars, id).value, Get(AddBackRef(v, id, modelId), id).value, before + [Str(modelId)])
  {
    var x := Get(v, id).value;
    GetPut(v, id, AppendRef(x, modelId), id);
    AppendRefLinked(x, modelId);
    LinkedTrans(Get(vars, id).value, x, AppendRef(x, modelId), before, [Str(modelId)]);
  }

  /** One turn of the inner loop as seen by a variable it does not name. */
  lemma AddBackRefOther(vars: seq<Field>, v: seq<Field>, id: string, modelId: string, k: string, before: seq<Value>)
    requires Linkable(v) && id in Keys(v) && k != id && k in Keys(vars) && k in Keys(v)
    requires LinkedVar(Get(vars, k).value, Get(v, k).value, before)
    ensures LinkedVar(Get(vars, k).value, Get(AddBackRef(v, id, modelId), k).value, before)
  {
    GetPut(v, id, AppendRef(Get(v, id).value, modelId), k);
  }

  /** One turn of the inner loop as seen by one variable `k`. */
  lemma AddBackRefAt(vars: seq<Field>, ids: seq<string>, modelId: string, v: seq<Field>, k: string)
    requires Linkable(v) && |ids| > 0 && ids[|ids| - 1] in Keys(v) && k in Keys(vars) && k in Keys(v)
    requires LinkedVar(Get(vars, k).value, Get(v, k).value, Occurrences(ids[..|ids| - 1], k, modelId))
    ensures LinkedVar(Get(vars, k).value, Get(AddBackRef(v, ids[|ids| - 1], modelId), k).value, Occurrences(ids, k, modelId))
  {
    var id := ids[|ids| - 1];
    var before := Occurrences(ids[..|ids| - 1], k, modelId);
    if k == id {
      AddBackRefSame(vars, v, id, modelId, before);
      assert Occurrences(ids, k, modelId) == before + [Str(modelId)];
    } else {
      AddBackRefOther(vars, v, id, modelId, k, before);
      assert Occurrences(ids, k, modelId) == before + [];
      assert before + [] == before;
    }
  }

  /** One turn of the inner loop, given what the earlier turns did. */
  lemma LinkIdsStep(vars: seq<Field>, ids: seq<string>, modelId: string, modelName: string, v: seq<Field>)
    requires Linkable(vars) && |ids| > 0
    requires LinkIds(vars, ids[..|ids| - 1], modelId, modelName) == Ok(v)
    requires forall k | k in Keys(vars) ::
      LinkedVar(Get(vars, k).value, Get(v, k).value, Occurrences(ids[..|ids| - 1], k, modelId))
    ensures LinkIds(vars, ids, modelId, modelName).Ok? ==>
      forall k | k in Keys(vars) ::
        LinkedVar(Get(vars, k).value, Get(LinkIds(vars, ids, modelId, modelName).value, k).value, Occurrences(ids, k, modelId))
  {
    if ids[|ids| - 1] in Keys(v) {
      forall k | k in Keys(vars)
        ensures LinkedVar(Get(vars, k).value, Get(AddBackRef(v, ids[|ids| - 1], modelId), k).value, Occurrences(ids, k, modelId))
      {
        AddBackRefAt(vars, ids, modelId, v, k);
      }
    }
  }

  /** After the inner loop, every variable has gained the model id once per time the model lists it. */
  lemma {:induction false} LinkIdsLinked(vars: seq<Field>, ids: seq<string>, modelId: string, modelName: string)
    requires Linkable(vars) && LinkIds(vars, ids, modelId, modelName).Ok?
    ensures forall k | k in Keys(vars) ::
      LinkedVar(Get(vars, k).value, Get(LinkIds(vars, ids, modelId, modelName).value, k).value, Occurrences(ids, k, modelId))
  {
    if |ids| == 0 {
      forall k | k in Keys(vars) ensures LinkedVar(Get(vars, k).value, Get(vars, k).value, []) {
        LinkedRefl(Get(vars, k).value);
      }
    } else {
      LinkIdsLinked(vars, ids[..|ids| - 1], modelId, modelName);
      LinkIdsStep(vars, ids, modelId, modelName, LinkIds(vars, ids[..|ids| - 1], modelId, modelName).value);
    }
  }

  /** One forward model of the outer loop, given what the earlier models did. */
  lemma LinkStep(vars: seq<Field>, ms: seq<Value>, v: seq<Field>)
    requires Linkable(vars) && ModelsShaped(ms) && |ms| > 0
    requires Link(vars, ms[..|ms| - 1]) == Ok(v)
    requires forall k | k in Keys(vars) :: LinkedVar(Get(vars, k).value, Get(v, k).value, Referrers(ms[..|ms| - 1], k))
    ensures Link(vars, ms).Ok? ==>
      forall k | k in Keys(vars) :: LinkedVar(Get(vars, k).value, Get(Link(vars, ms).value, k).value, Referrers(ms, k))
  {
    var m := ms[|ms| - 1];
    if m.Object? && Link(vars, ms).Ok? {
      var ids := ModelRefs(m);
      var modelId := TextAt(m, "id");
      LinkIdsLinked(v, ids, modelId, TextAt(m, "name"));
      var w := Link(vars, ms).value;
      forall k | k in Keys(vars) ensures LinkedVar(Get(vars, k).value, Get(w, k).value, Referrers(ms, k)) {
        LinkedTrans(Get(vars, k).value, Get(v, k).value, Get(w, k).value,
                    Referrers(ms[..|ms| - 1], k), Occurrences(ids, k, modelId));
      }
    }
  }

  /**
   * After the loop over the forward models, every variable has gained, in
   * its `forwardModels` list, the id of each model that lists it, in model
   * order and once per listing; nothing else about it changes.
   */
  lemma {:induction false} LinkLinked(vars: seq<Field>, ms: seq<Value>)
    requires Linkable(vars) && ModelsShaped(ms) && Link(vars, ms).Ok?
    ensures forall k | k in Keys(vars) :: LinkedVar(Get(vars, k).value, Get(Link(vars, ms).value, k).value, Referrers(ms, k))
  {
    if |ms| == 0 {
      forall k | k in Keys(vars) ensures LinkedVar(Get(vars, k).value, Get(vars, k).value, []) {
        LinkedRefl(Get(vars, k).value);
      }
    } else {
      LinkLinked(vars, ms[..|ms| - 1]);
      LinkStep(vars, ms, Link(vars, ms[..|ms| - 1]).value);
    }
  }

  /** A forward model dictionary every one of whose variable ids is described. */
  predicate Described(keys: seq<string>, m: Value)
    requires ModelShaped(m)
  {
    m.Object? && forall id | id in ModelRefs(m) :: id in keys
  }

  /** The inner loop succeeds on the ids exactly when it succeeds on all but the last and the last is described. */
  lemma LinkIdsOkStep(vars: seq<Field>, ids: seq<string>, modelId: string, modelName: string)
    requires Linkable(vars) && |ids| > 0
    ensures LinkIds(vars, ids, modelId, modelName).Ok?
            <==> LinkIds(vars, ids[..|ids| - 1], modelId, modelName).Ok? && ids[|ids| - 1] in Keys(vars)
  {
  }

  /** An error of the inner loop names one of the ids it was given, which is not described. */
  lemma LinkIdsErrStep(vars: seq<Field>, ids: seq<string>, modelId: string, modelName: string)
    requires Linkable(vars) && |ids| > 0
    requires var init := ids[..|ids| - 1];
      LinkIds(vars, init, modelId, modelName).Err? ==>
        var e := LinkIds(vars, init, modelId, modelName).error;
        e.Undescribed? && e.modelName == modelName && e.varId in init && e.varId !in Keys(vars)
    ensures LinkIds(vars, ids, modelId, modelName).Err? ==>
      var e := LinkIds(vars, ids, modelId, modelName).error;
      e.Undescribed? && e.modelName == modelName && e.varId in ids && e.varId !in Keys(vars)
  {
    assert ids == ids[..|ids| - 1] + [ids[|ids| - 1]];
  }

  /**
   * The inner loop succeeds exactly when every id is described, and fails
   * naming an id that is not.
   */
  lemma {:induction false} LinkIdsOutcome(vars: seq<Field>, ids: seq<string>, modelId: string, modelName: string)
    requires Linkable(vars)
    ensures LinkIds(vars, ids, modelId, modelName).Ok? <==> forall id | id in ids :: id in Keys(vars)
    ensures LinkIds(vars, ids, modelId, modelName).Err? ==>
      var e := LinkIds(vars, ids, modelId, modelName).error;
      e.Undescribed? && e.modelName == modelName && e.varId in ids && e.varId !in Keys(vars)
  {
    if |ids| > 0 {
      LinkIdsOutcome(vars, ids[..|ids| - 1], modelId, modelName);
      LinkIdsOkStep(vars, ids, modelId, modelName);
      LinkIdsErrStep(vars, ids, modelId, modelName);
      assert ids == ids[..|ids| - 1] + [ids[|ids| - 1]];
    }
  }

  /** What the outer loop's outcome says, for one list of forward models. */
  ghost predicate LinkReport(vars: seq<Field>, ms: seq<Value>)
    requires Linkable(vars) && ModelsShaped(ms)
  {
    && (Link(vars, ms).Ok? <==> forall m | m in ms :: Described(Keys(vars), m))
    && (Link(vars, ms).Err? ==>
         var e := Link(vars, ms).error;
         || (exists m | m in ms :: !m.Object? && e == Lookup(NotADict(TypeName(m))))
         || (exists m | m in ms :: m.Object? && e.Undescribed? && e.modelName == TextAt(m, "name")
                                   && e.varId in ModelRefs(m) && e.varId !in Keys(vars)))
  }

  lemma LinkOutcomeStep(vars: seq<Field>, ms: seq<Value>)
    requires Linkable(vars) && ModelsShaped(ms) && |ms| > 0
    requires LinkReport(vars, ms[..|ms| - 1])
    ensures LinkReport(vars, ms)
  {
    var init := ms[..|ms| - 1];
    var m := ms[|ms| - 1];
    assert ms == init + [m];
    match Link(vars, init)
    case Err(e) =>
      assert Link(vars, ms) == Err(e);
    case Ok(v) =>
      if !m.Object? {
        assert Link(vars, ms) == Err(Lookup(NotADict(TypeName(m))));
        assert m in ms && !Described(Keys(vars), m);
      } else {
        assert Link(vars, ms) == LinkIds(v, ModelRefs(m), TextAt(m, "id"), TextAt(m, "name"));
        LinkIdsOutcome(v, ModelRefs(m), TextAt(m, "id"), TextAt(m, "name"));
      }
  }

  /**
   * The loop over the forward models succeeds exactly when every model is a
   * dictionary whose variable ids are all described. It fails with the
   * `TypeError` of a model that is not a dictionary, or naming an undescribed
   * id together with the name of a model that lists it.
   */
  lemma {:induction false} LinkOutcome(vars: seq<Field>, ms: seq<Value>)
    requires Linkable(vars) && ModelsShaped(ms)
    ensures Link(vars, ms).Ok? <==> forall m | m in ms :: Described(Keys(vars), m)
    ensures Link(vars, ms).Err? ==>
      var e := Link(vars, ms).error;
      || (exists m | m in ms :: !m.Object? && e == Lookup(NotADict(TypeName(m))))
      || (exists m | m in ms :: m.Object? && e.Undescribed? && e.modelName == TextAt(m, "name")
                                && e.varId in ModelRefs(m) && e.varId !in Keys(vars))
  {
    if |ms| > 0 {
      LinkOutcome(vars, ms[..|ms| - 1]);
      LinkOutcomeStep(vars, ms);
    }
    assert LinkReport(vars, ms);
  }

  /** `id` is the first of `ids` that `keys` lacks: every id ahead of it is in `keys`. */
  ghost predicate FirstMissing(keys: seq<string>, ids: seq<string>, id: string) {
    exists j | 0 <= j < |ids| :: ids[j] == id && id !in keys && forall k | 0 <= k < j :: ids[k] in keys
  }

  /**
   * `ms[i]` is the first forward model that is not described, and lists
   * `e.varId` as its first undescribed id.
   */
  ghost predicate FirstUndescribedModel(keys: seq<string>, ms: seq<Value>, i: int, e: ParamsError) {
    && ModelsShaped(ms) && 0 <= i < |ms| && e.Undescribed?
    && (forall k | 0 <= k < i :: ms[k] in ms && Described(keys, ms[k]))
    && ms[i] in ms && ms[i].Object? && TextAt(ms[i], "name") == e.modelName
    && FirstMissing(keys, ModelRefs(ms[i]), e.varId)
  }

  /** The inner loop fails at the first undescribed id, at position `j`. */
  lemma {:induction false} LinkIdsFirst(vars: seq<Field>, ids: seq<string>, modelId: string, modelName: string)
    returns (j: nat)
    requires Linkable(vars) && LinkIds(vars, ids, modelId, modelName).Err?
    ensures var e := LinkIds(vars, ids, modelId, modelName).error;
      && e.Undescribed? && e.modelName == modelName
      && j < |ids| && ids[j] == e.varId && e.varId !in Keys(vars)
      && forall k | 0 <= k < j :: ids[k] in Keys(vars)
  {
    assert |ids| > 0;
    var init := ids[..|ids| - 1];
    var r := LinkIds(vars, init, modelId, modelName);
    if r.Err? {
      assert LinkIds(vars, ids, modelId, modelName) == r;
      j := LinkIdsFirst(vars, init, modelId, modelName);
      assert forall k | 0 <= k <= j :: ids[k] == init[k];
    } else {
      j := |ids| - 1;
      LinkIdsOkAll(vars, ids, modelId, modelName);
    }
  }

  /** When the inner loop gets past all but the last id, those ids are all described. */
  lemma LinkIdsOkAll(vars: seq<Field>, ids: seq<string>, modelId: string, modelName: string)
    requires Linkable(vars) && |ids| > 0 && LinkIds(vars, ids[..|ids| - 1], modelId, modelName).Ok?
    ensures forall k | 0 <= k < |ids| - 1 :: ids[k] in Keys(vars)
  {
    var init := ids[..|ids| - 1];
    LinkIdsOutcome(vars, init, modelId, modelName);
    assert forall k | 0 <= k < |ids| - 1 :: ids[k] == init[k] && init[k] in init;
  }

  /**
   * The outer loop fails with an undescribed id only at the first forward
   * model, at position `i`, that is not described, every model ahead of it
   * being described; the id is the first undescribed one that model lists.
   */
  lemma {:induction false} LinkFirst(vars: seq<Field>, ms: seq<Value>) returns (i: nat)
    requires Linkable(vars) && ModelsShaped(ms) && Link(vars, ms).Err? && Link(vars, ms).error.Undescribed?
    ensures FirstUndescribedModel(Keys(vars), ms, i, Link(vars, ms).error)
  {
    assert |ms| > 0;
    var init := ms[..|ms| - 1];
    var r := Link(vars, init);
    if r.Err? {
      assert Link(vars, ms) == r;
      i := LinkFirst(vars, init);
      assert forall k | 0 <= k <= i :: ms[k] == init[k];
    } else {
      i := |ms| - 1;
      LinkFirstLast(vars, ms);
    }
  }

  /** The outer loop fails at its last forward model when it got past all the others. */
  lemma LinkFirstLast(vars: seq<Field>, ms: seq<Value>)
    requires Linkable(vars) && ModelsShaped(ms) && |ms| > 0 && Link(vars, ms[..|ms| - 1]).Ok?
    requires Link(vars, ms).Err? && Link(vars, ms).error.Undescribed?
    ensures FirstUndescribedModel(Keys(vars), ms, |ms| - 1, Link(vars, ms).error)
  {
    var init := ms[..|ms| - 1];
    var m := ms[|ms| - 1];
    var v := Link(vars, init).value;
    LinkLast(vars, ms);
    var j := LinkIdsFirst(v, ModelRefs(m), TextAt(m, "id"), TextAt(m, "name"));
    LinkedAllDescribed(vars, ms);
  }

  /** The last forward model, once the loop got past the others: a `TypeError` or the inner loop. */
  lemma LinkLast(vars: seq<Field>, ms: seq<Value>)
    requires Linkable(vars) && ModelsShaped(ms) && |ms| > 0 && Link(vars, ms[..|ms| - 1]).Ok?
    ensures var m := ms[|ms| - 1];
      && m in ms
      && (!m.Object? ==> Link(vars, ms) == Err(Lookup(NotADict(TypeName(m)))))
      && (m.Object? ==> Link(vars, ms) == LinkIds(Link(vars, ms[..|ms| - 1]).value, ModelRefs(m), TextAt(m, "id"), TextAt(m, "name")))
  {
  }

  /** The models ahead of the last are all described when the loop gets past them. */
  lemma LinkedAllDescribed(vars: seq<Field>, ms: seq<Value>)
    requires Linkable(vars) && ModelsShaped(ms) && |ms| > 0 && Link(vars, ms[..|ms| - 1]).Ok?
    ensures forall k | 0 <= k < |ms| - 1 :: ms[k] in ms && Described(Keys(vars), ms[k])
  {
    var init := ms[..|ms| - 1];
    LinkOutcome(vars, init);
    forall k | 0 <= k < |ms| - 1 ensures ms[k] in ms && Described(Keys(vars), ms[k]) {
      assert ms[k] == init[k] && init[k] in init;
    }
  }

  /** Which model fails first depends only on which ids are described. */
  lemma FirstUndescribedSameKeys(a: seq<string>, b: seq<string>, ms: seq<Value>, i: int, e: ParamsError)
    requires ModelsShaped(ms) && (forall k :: k in a <==> k in b) && FirstUndescribedModel(a, ms, i, e)
    ensures FirstUndescribedModel(b, ms, i, e)
  {
    var ids := ModelRefs(ms[i]);
    var j :| 0 <= j < |ids| && ids[j] == e.varId && e.varId !in a && forall k | 0 <= k < j :: ids[k] in a;
    assert forall k | 0 <= k < j :: ids[k] in b;
  }

  /** Once a prefix of the variable ids fails, the whole inner loop fails with the same error. */
  /** One more id of the inner loop: it fails on an undescribed id and otherwise adds the back reference. */
  lemma LinkIdsOneMore(vars: seq<Field>, ids: seq<string>, j: nat, modelId: string, modelName: string, current: seq<Field>)
    requires Linkable(vars) && j < |ids| && LinkIds(vars, ids[..j], modelId, modelName) == Ok(current)
    ensures ids[j] !in Keys(current) ==> LinkIds(vars, ids[..j + 1], modelId, modelName) == Err(Undescribed(ids[j], modelName))
    ensures ids[j] in Keys(current) ==> LinkIds(vars, ids[..j + 1], modelId, modelName) == Ok(AddBackRef(current, ids[j], modelId))
  {
    assert ids[..j + 1][..j] == ids[..j];
  }

  lemma {:induction false} LinkIdsErrSticks(vars: seq<Field>, ids: seq<string>, k: nat, modelId: string, modelName: string)
    requires Linkable(vars) && k <= |ids| && LinkIds(vars, ids[..k], modelId, modelName).Err?
    ensures LinkIds(vars, ids, modelId, modelName) == LinkIds(vars, ids[..k], modelId, modelName)
    decreases |ids| - k
  {
    if k < |ids| {
      assert ids[..k + 1][..k] == ids[..k];
      LinkIdsErrSticks(vars, ids, k + 1, modelId, modelName);
    } else {
      assert ids[..k] == ids;
    }
  }

  /** Once a prefix of the forward models fails, the whole loop fails with the same error. */
  lemma {:induction false} LinkErrSticks(vars: seq<Field>, ms: seq<Value>, k: nat)
    requires Linkable(vars) && ModelsShaped(ms) && k <= |ms| && Link(vars, ms[..k]).Err?
    ensures Link(vars, ms) == Link(vars, ms[..k])
    decreases |ms| - k
  {
    if k < |ms| {
      assert ms[..k + 1][..k] == ms[..k];
      LinkErrSticks(vars, ms, k + 1);
    } else {
      assert ms[..k] == ms;
    }
  }

  /**
   * The inner loop of `ProcessingParameters.__init__`, lines 289-296: every
   * variable id the forward model lists must be described, and the variable
   * gains the model's id.
   */
  method LinkModelIds(vars: seq<Field>, ids: seq<string>, modelId: string, modelName: string)
    returns (r: Result<seq<Field>, ParamsError>)
    requires Linkable(vars)
    ensures r == LinkIds(vars, ids, modelId, modelName)
  {
    var current := vars;
    var j := 0;
    while j < |ids|
      invariant 0 <= j <= |ids|
      invariant LinkIds(vars, ids[..j], modelId, modelName) == Ok(current)
    {
      var id := ids[j];
      LinkIdsOneMore(vars, ids, j, modelId, modelName, current);
      if id !in Keys(current) {
        LinkIdsErrSticks(vars, ids, j + 1, modelId, modelName);
        return Err(Undescribed(id, modelName));
      }
      current := AddBackRef(current, id, modelId);
      j := j + 1;
    }
    assert ids[..j] == ids;
    return Ok(current);
  }

  /**
   * The outer loop of `ProcessingParameters.__init__`, lines 287-296: the
   * forward models in order, each through the inner loop.
   */
  method LinkForwardModels(vars: seq<Field>, ms: seq<Value>) returns (r: Result<seq<Field>, ParamsError>)
    requires Linkable(vars) && ModelsShaped(ms)
    ensures r == Link(vars, ms)
  {
    var linked := vars;
    var i := 0;
    while i < |ms|
      invariant 0 <= i <= |ms|
      invariant Link(vars, ms[..i]) == Ok(linked)
    {
      var m := ms[i];
      assert ms[..i + 1][..i] == ms[..i];
      if !m.Object? {
        LinkErrSticks(vars, ms, i + 1);
        return Err(Lookup(NotADict(TypeName(m))));
      }
      var step := LinkModelIds(linked, ModelRefs(m), TextAt(m, "id"), TextAt(m, "name"));
      if step.Err? {
        LinkErrSticks(vars, ms, i + 1);
        return step;
      }
      linked := step.value;
      i := i + 1;
    }
    assert ms[..i] == ms;
    return Ok(linked);
  }

  /** A successful loop keeps every variable stored under its own id. */
  lemma LinkSelfKeyed(vars: seq<Field>, ms: seq<Value>)
    requires Linkable(vars) && ModelsShaped(ms) && Link(vars, ms).Ok?
    requires SelfKeyed(vars, "id") && DistinctKeys(vars)
    ensures SelfKeyed(Link(vars, ms).value, "id") && DistinctKeys(Link(vars, ms).value)
  {
    var linked := Link(vars, ms).value;
    LinkLinked(vars, ms);
    SameKeysDistinct(linked, vars);
    forall f | f in linked ensures HasText(f.val, "id") && TextAt(f.val, "id") == f.key {
      var i :| 0 <= i < |linked| && linked[i] == f;
      assert Keys(linked)[i] == f.key;
      LinkedIndexKeyed(vars, linked, i, Referrers(ms, f.key));
    }
  }

  lemma SameKeysDistinct(a: seq<Field>, b: seq<Field>)
    requires Keys(a) == Keys(b) && DistinctKeys(b)
    ensures DistinctKeys(a)
  {
    assert forall i :: 0 <= i < |a| ==> Keys(a)[i] == a[i].key;
    assert forall i :: 0 <= i < |b| ==> Keys(b)[i] == b[i].key;
  }

  lemma LinkedIndexKeyed(vars: seq<Field>, linked: seq<Field>, i: nat, refs: seq<Value>)
    requires SelfKeyed(vars, "id") && DistinctKeys(linked) && i < |linked| && linked[i].key in Keys(vars)
    requires LinkedVar(Get(vars, linked[i].key).value, Get(linked, linked[i].key).value, refs)
    ensures HasText(linked[i].val, "id") && TextAt(linked[i].val, "id") == linked[i].key
  {
    GetDistinct(linked, i);
    LinkedEntryKeyed(vars, linked[i].key, linked[i].val, refs);
  }

  /** A linked variable keeps the id of the variable it was linked from. */
  lemma LinkedEntryKeyed(vars: seq<Field>, k: string, v: Value, refs: seq<Value>)
    requires SelfKeyed(vars, "id") && k in Keys(vars)
    requires LinkedVar(Get(vars, k).value, v, refs)
    ensures HasText(v, "id") && TextAt(v, "id") == k
  {
    var before := Get(vars, k).value;
    var j :| 0 <= j < |vars| && vars[j] == Field(k, before);
    assert vars[j] in vars;
    assert Get(v.fields, "id") == Get(before.fields, "id");
  }

  /** The variables dictionary the comprehension builds from validated variables is ready for linking. */
  lemma VariablesLinkable(items: seq<Value>)
    requires TextKeyed(items, "id") && Unlinked(items) && KeyedBy(items, "id").Ok?
    ensures var vars := KeyedBy(items, "id").value;
            Linkable(vars) && SelfKeyed(vars, "id") && DistinctKeys(vars)
  {
    var vars := KeyedBy(items, "id").value;
    KeyedByFails(items, "id");
    KeyedByContents(items, "id");
    KeyedBySelfKeyed(items, "id");
    forall k | k in Keys(vars) ensures LinkableVar(Get(vars, k).value) {
      assert k in FirstOccurrences(KeysOf(items, "id"));
    }
  }

  // ---------------------------------------------------------------------------
  // The constructor
  // ---------------------------------------------------------------------------

  /** The collections a `ProcessingParameters` object exposes. */
  datatype ProcessingParameters = ProcessingParameters(
    inputTypes: Catalog,
    forwardModels: Catalog,
    variables: Catalog,
    postProcessors: Catalog,
    indicators: Catalog)

  /**
   * The collections built after the cross-referencing loop, in the order the
   * constructor builds them; only a list item that is not a dictionary can
   * stop it.
   */
  function Assemble(f: seq<Field>, linked: seq<Field>, indicators: seq<Field>): (r: Result<ProcessingParameters, ParamsError>)
    requires RawShaped(f) && SelfKeyed(linked, "id") && SelfKeyed(indicators, "id")
    ensures r.Err? ==> r.error.Lookup? && r.error.lookupError.NotADict?
  {
    SelfKeyedValues(linked, "id");
    SelfKeyedValues(indicators, "id");
    match KeyedBy(ListAt(f, "inputTypes"), "id")
    case Err(e) => Err(Lookup(e))
    case Ok(inputTypes) =>
      match KeyedBy(ListAt(f, "forwardModels"), "id")
      case Err(e) => Err(Lookup(e))
      case Ok(models) =>
        match KeyedBy(FieldValues(linked), "id")
        case Err(e) => Err(Lookup(e))
        case Ok(variables) =>
          match KeyedBy(ListAt(f, "postProcessors"), "name")
          case Err(e) => Err(Lookup(e))
          case Ok(postProcessors) =>
            match KeyedBy(FieldValues(indicators), "id")
            case Err(e) => Err(Lookup(e))
            case Ok(indicatorsAgain) =>
              Ok(ProcessingParameters(Catalog(inputTypes), Catalog(models), Catalog(variables),
                                      Catalog(postProcessors), Catalog(indicatorsAgain)))
  }

  /**
   * `ProcessingParameters(raw_data)`: validation, the variables and
   * indicators dictionaries, the cross-referencing loop, then the collections.
   */
  function ParametersOf(raw: Value): Result<ProcessingParameters, ParamsError> {
    match Validate(ParametersType, raw, ParametersPrefix)
    case Fail(e) => Err(Invalid(e))
    case Pass =>
      if !raw.Object? then Err(Lookup(NotADict(TypeName(raw))))
      else
        PrefixIrrelevant(ParametersType, raw, ParametersPrefix, "");
        ParametersShape(raw.fields);
        var f := raw.fields;
        match KeyedBy(ListAt(f, "variables"), "id")
        case Err(e) => Err(Lookup(e))
        case Ok(vars) =>
          match KeyedBy(ListAt(f, "indicators"), "id")
          case Err(e) => Err(Lookup(e))
          case Ok(indicators) =>
            VariablesLinkable(ListAt(f, "variables"));
            match Link(vars, ListAt(f, "forwardModels"))
            case Err(e) => Err(e)
            case Ok(linked) =>
              LinkSelfKeyed(vars, ListAt(f, "forwardModels"));
              KeyedBySelfKeyed(ListAt(f, "indicators"), "id");
              Assemble(f, linked, indicators)
  }

  /**
   * `ProcessingParameters.__init__`: the same steps as `ParametersOf`, with the
   * cross-referencing done by the nested loop.
   */
  method NewProcessingParameters(raw: Value) returns (r: Result<ProcessingParameters, ParamsError>)
    ensures r == ParametersOf(raw)
  {
    var outcome := Validate(ParametersType, raw, ParametersPrefix);
    if outcome.Fail? {
      return Err(Invalid(outcome.error));
    }
    if !raw.Object? {
      return Err(Lookup(NotADict(TypeName(raw))));
    }
    PrefixIrrelevant(ParametersType, raw, ParametersPrefix, "");
    ParametersShape(raw.fields);
    var f := raw.fields;
    var vars := KeyedBy(ListAt(f, "variables"), "id");
    if vars.Err? {
      return Err(Lookup(vars.error));
    }
    var indicators := KeyedBy(ListAt(f, "indicators"), "id");
    if indicators.Err? {
      return Err(Lookup(indicators.error));
    }
    VariablesLinkable(ListAt(f, "variables"));
    var linked := LinkForwardModels(vars.value, ListAt(f, "forwardModels"));
    if linked.Err? {
      return Err(linked.error);
    }
    LinkSelfKeyed(vars.value, ListAt(f, "forwardModels"));
    KeyedBySelfKeyed(ListAt(f, "indicators"), "id");
    SelfKeyedValues(linked.value, "id");
    SelfKeyedValues(indicators.value, "id");
    var inputTypes := KeyedBy(ListAt(f, "inputTypes"), "id");
    if inputTypes.Err? {
      return Err(Lookup(inputTypes.error));
    }
    var models := KeyedBy(ListAt(f, "forwardModels"), "id");
    if models.Err? {
      return Err(Lookup(models.error));
    }
    var variables := KeyedBy(FieldValues(linked.value), "id");
    if variables.Err? {
      return Err(Lookup(variables.error));
    }
    var postProcessors := KeyedBy(ListAt(f, "postProcessors"), "name");
    if postProcessors.Err? {
      return Err(Lookup(postProcessors.error));
    }
    var indicatorsAgain := KeyedBy(FieldValues(indicators.value), "id");
    if indicatorsAgain.Err? {
      return Err(Lookup(indicatorsAgain.error));
    }
    return Ok(ProcessingParameters(Catalog(inputTypes.value), Catalog(models.value), Catalog(variables.value),
                                   Catalog(postProcessors.value), Catalog(indicatorsAgain.value)));
  }

  // ---------------------------------------------------------------------------
  // What the constructor guarantees
  // ---------------------------------------------------------------------------

  /** Nothing is looked at before the document is validated; a document that fails validation raises its error. */
  lemma ParametersValidatedFirst(raw: Value)
    ensures Validate(ParametersType, raw, ParametersPrefix).Fail? ==>
              ParametersOf(raw) == Err(Invalid(Validate(ParametersType, raw, ParametersPrefix).error))
    ensures ParametersOf(raw).Ok? ==> raw.Object? && Accepts(ParametersType, raw)
  {
    PrefixIrrelevant(ParametersType, raw, ParametersPrefix, "");
  }

  /** Every validated value that is not a dictionary passes validation and then fails at `raw_data['inputTypes']`. */
  lemma ParametersOfNonDict(raw: Value)
    requires !raw.Object? && !raw.Null?
    ensures ParametersOf(raw) == Err(Lookup(NotADict(TypeName(raw))))
  {
  }

  /** What the collections built after the loop consist of. */
  lemma AssembleOk(f: seq<Field>, linked: seq<Field>, indicators: seq<Field>)
    requires RawShaped(f) && SelfKeyed(linked, "id") && SelfKeyed(indicators, "id")
    requires DistinctKeys(linked) && DistinctKeys(indicators)
    requires Assemble(f, linked, indicators).Ok?
    ensures var p := Assemble(f, linked, indicators).value;
            && p.variables == Catalog(linked) && p.indicators == Catalog(indicators)
            && KeyedFrom(p.inputTypes, ListAt(f, "inputTypes"), "id")
            && KeyedFrom(p.forwardModels, ListAt(f, "forwardModels"), "id")
            && KeyedFrom(p.postProcessors, ListAt(f, "postProcessors"), "name")
  {
    RekeyIdentity(linked, "id");
    RekeyIdentity(indicators, "id");
    KeyedByFrom(ListAt(f, "inputTypes"), "id");
    KeyedByFrom(ListAt(f, "forwardModels"), "id");
    KeyedByFrom(ListAt(f, "postProcessors"), "name");
  }

  /** The collections built after the loop are always built when every list holds only dictionaries. */
  lemma AssembleOkIf(f: seq<Field>, linked: seq<Field>, indicators: seq<Field>)
    requires RawShaped(f) && SelfKeyed(linked, "id") && SelfKeyed(indicators, "id")
    requires DistinctKeys(linked) && DistinctKeys(indicators)
    requires AllDicts(ListAt(f, "inputTypes")) && AllDicts(ListAt(f, "forwardModels")) && AllDicts(ListAt(f, "postProcessors"))
    ensures Assemble(f, linked, indicators).Ok?
  {
    RekeyIdentity(linked, "id");
    RekeyIdentity(indicators, "id");
    KeyedByFails(ListAt(f, "inputTypes"), "id");
    KeyedByFails(ListAt(f, "forwardModels"), "id");
    KeyedByFails(ListAt(f, "postProcessors"), "name");
  }

  /** The steps a successful construction went through. */
  lemma ParametersOfStages(raw: seq<Field>)
    requires Accepts(ParametersType, Object(raw)) && ParametersOf(Object(raw)).Ok?
    ensures RawShaped(raw)
    ensures var vars := KeyedBy(ListAt(raw, "variables"), "id");
            var indicators := KeyedBy(ListAt(raw, "indicators"), "id");
            && vars.Ok? && indicators.Ok?
            && Linkable(vars.value) && SelfKeyed(vars.value, "id") && DistinctKeys(vars.value)
            && Link(vars.value, ListAt(raw, "forwardModels")).Ok?
            && var linked := Link(vars.value, ListAt(raw, "forwardModels")).value;
            && SelfKeyed(linked, "id") && DistinctKeys(linked)
            && SelfKeyed(indicators.value, "id") && DistinctKeys(indicators.value)
            && ParametersOf(Object(raw)) == Assemble(raw, linked, indicators.value)
  {
    PrefixIrrelevant(ParametersType, Object(raw), ParametersPrefix, "");
    ParametersShape(raw);
    var vars := KeyedBy(ListAt(raw, "variables"), "id").value;
    VariablesLinkable(ListAt(raw, "variables"));
    LinkSelfKeyed(vars, ListAt(raw, "forwardModels"));
    KeyedBySelfKeyed(ListAt(raw, "indicators"), "id");
  }

  /** What a successful construction consists of. */
  lemma ParametersOfOk(raw: seq<Field>)
    requires Accepts(ParametersType, Object(raw)) && ParametersOf(Object(raw)).Ok?
    ensures RawShaped(raw)
    ensures var vars := KeyedBy(ListAt(raw, "variables"), "id");
            && vars.Ok? && Linkable(vars.value)
            && Link(vars.value, ListAt(raw, "forwardModels")).Ok?
            && var p := ParametersOf(Object(raw)).value;
            && p.variables == Catalog(Link(vars.value, ListAt(raw, "forwardModels")).value)
            && KeyedFrom(p.inputTypes, ListAt(raw, "inputTypes"), "id")
            && KeyedFrom(p.forwardModels, ListAt(raw, "forwardModels"), "id")
            && KeyedFrom(p.postProcessors, ListAt(raw, "postProcessors"), "name")
            && KeyedFrom(p.indicators, ListAt(raw, "indicators"), "id")
  {
    ParametersOfStages(raw);
    var vars := KeyedBy(ListAt(raw, "variables"), "id").value;
    var indicators := KeyedBy(ListAt(raw, "indicators"), "id").value;
    var linked := Link(vars, ListAt(raw, "forwardModels")).value;
    AssembleOk(raw, linked, indicators);
    KeyedByFrom(ListAt(raw, "indicators"), "id");
  }

  /** Membership is all `Described` looks at. */
  lemma DescribedSame(a: seq<string>, b: seq<string>, ms: seq<Value>)
    requires ModelsShaped(ms) && forall k :: k in a <==> k in b
    ensures (forall m | m in ms :: Described(a, m)) <==> (forall m | m in ms :: Described(b, m))
  {
  }

  /** A construction that succeeds had dictionaries throughout and every variable id described. */
  lemma ParametersOkOnlyIf(raw: seq<Field>)
    requires Accepts(ParametersType, Object(raw)) && ParametersOf(Object(raw)).Ok?
    ensures RawShaped(raw)
    ensures && AllDicts(ListAt(raw, "variables")) && AllDicts(ListAt(raw, "indicators"))
            && AllDicts(ListAt(raw, "inputTypes")) && AllDicts(ListAt(raw, "postProcessors"))
            && forall m | m in ListAt(raw, "forwardModels") :: Described(KeysOf(ListAt(raw, "variables"), "id"), m)
  {
    ParametersOfOk(raw);
    var items := ListAt(raw, "variables");
    KeyedByFails(items, "id");
    KeyedByContents(items, "id");
    var vars := KeyedBy(items, "id").value;
    LinkOutcome(vars, ListAt(raw, "forwardModels"));
    DescribedSame(Keys(vars), KeysOf(items, "id"), ListAt(raw, "forwardModels"));
  }

  /** The variables dictionary and its linked form, when every variable id is described. */
  lemma ParametersLinkOk(raw: seq<Field>)
    requires RawShaped(raw) && AllDicts(ListAt(raw, "variables"))
    requires forall m | m in ListAt(raw, "forwardModels") :: Described(KeysOf(ListAt(raw, "variables"), "id"), m)
    ensures KeyedBy(ListAt(raw, "variables"), "id").Ok?
    ensures var vars := KeyedBy(ListAt(raw, "variables"), "id").value;
            Linkable(vars) && Link(vars, ListAt(raw, "forwardModels")).Ok?
    ensures AllDicts(ListAt(raw, "forwardModels"))
  {
    var items := ListAt(raw, "variables");
    KeyedByFails(items, "id");
    KeyedByContents(items, "id");
    var vars := KeyedBy(items, "id").value;
    VariablesLinkable(items);
    DescribedSame(Keys(vars), KeysOf(items, "id"), ListAt(raw, "forwardModels"));
    LinkOutcome(vars, ListAt(raw, "forwardModels"));
  }

  /** ... and, conversely, such a document always gives processing parameters. */
  lemma ParametersOkIf(raw: seq<Field>)
    requires Accepts(ParametersType, Object(raw))
    ensures RawShaped(raw)
    ensures && AllDicts(ListAt(raw, "variables")) && AllDicts(ListAt(raw, "indicators"))
            && AllDicts(ListAt(raw, "inputTypes")) && AllDicts(ListAt(raw, "postProcessors"))
            && (forall m | m in ListAt(raw, "forwardModels") :: Described(KeysOf(ListAt(raw, "variables"), "id"), m))
            ==> ParametersOf(Object(raw)).Ok?
  {
    PrefixIrrelevant(ParametersType, Object(raw), ParametersPrefix, "");
    ParametersShape(raw);
    if && AllDicts(ListAt(raw, "variables")) && AllDicts(ListAt(raw, "indicators"))
       && AllDicts(ListAt(raw, "inputTypes")) && AllDicts(ListAt(raw, "postProcessors"))
       && (forall m | m in ListAt(raw, "forwardModels") :: Described(KeysOf(ListAt(raw, "variables"), "id"), m))
    {
      ParametersLinkOk(raw);
      var vars := KeyedBy(ListAt(raw, "variables"), "id").value;
      var ms := ListAt(raw, "forwardModels");
      VariablesLinkable(ListAt(raw, "variables"));
      LinkSelfKeyed(vars, ms);
      KeyedByFails(ListAt(raw, "indicators"), "id");
      KeyedBySelfKeyed(ListAt(raw, "indicators"), "id");
      AssembleOkIf(raw, Link(vars, ms).value, KeyedBy(ListAt(raw, "indicators"), "id").value);
    }
  }

  /** A `ValueError` for an undescribed variable comes from the cross-referencing loop. */
  lemma UndescribedFromLink(raw: seq<Field>)
    requires Accepts(ParametersType, Object(raw))
    requires ParametersOf(Object(raw)).Err? && ParametersOf(Object(raw)).error.Undescribed?
    ensures RawShaped(raw)
    ensures var vars := KeyedBy(ListAt(raw, "variables"), "id");
            && vars.Ok? && Linkable(vars.value)
            && Link(vars.value, ListAt(raw, "forwardModels")) == Err(ParametersOf(Object(raw)).error)
  {
    PrefixIrrelevant(ParametersType, Object(raw), ParametersPrefix, "");
    ParametersShape(raw);
    VariablesLinkable(ListAt(raw, "variables"));
  }

  /**
   * The `ValueError` for an undescribed variable names an id that some
   * forward model with that name lists and that no variable has: the first
   * undescribed id of the first forward model, in document order, that lists
   * one, every model ahead of it being a dictionary whose ids are described.
   */
  lemma ParametersUndescribed(raw: seq<Field>, varId: string, modelName: string)
    requires Accepts(ParametersType, Object(raw))
    requires ParametersOf(Object(raw)) == Err(Undescribed(varId, modelName))
    ensures RawShaped(raw) && AllDicts(ListAt(raw, "variables"))
    ensures varId !in KeysOf(ListAt(raw, "variables"), "id")
    ensures exists m | m in ListAt(raw, "forwardModels") ::
              m.Object? && TextAt(m, "name") == modelName && varId in ModelRefs(m)
    ensures exists i :: FirstUndescribedModel(KeysOf(ListAt(raw, "variables"), "id"), ListAt(raw, "forwardModels"), i,
                                              Undescribed(varId, modelName))
  {
    UndescribedFromLink(raw);
    var items := ListAt(raw, "variables");
    KeyedByFails(items, "id");
    KeyedByContents(items, "id");
    var vars := KeyedBy(items, "id").value;
    LinkOutcome(vars, ListAt(raw, "forwardModels"));
    UndescribedFirst(raw, varId, modelName);
  }

  lemma UndescribedFirst(raw: seq<Field>, varId: string, modelName: string)
    requires Accepts(ParametersType, Object(raw))
    requires ParametersOf(Object(raw)) == Err(Undescribed(varId, modelName))
    ensures RawShaped(raw) && AllDicts(ListAt(raw, "variables"))
    ensures exists i :: FirstUndescribedModel(KeysOf(ListAt(raw, "variables"), "id"), ListAt(raw, "forwardModels"), i,
                                              Undescribed(varId, modelName))
  {
    UndescribedFromLink(raw);
    var items := ListAt(raw, "variables");
    var ms := ListAt(raw, "forwardModels");
    KeyedByFails(items, "id");
    KeyedByContents(items, "id");
    var vars := KeyedBy(items, "id").value;
    var i := LinkFirst(vars, ms);
    FirstUndescribedSameKeys(Keys(vars), KeysOf(items, "id"), ms, i, Undescribed(varId, modelName));
  }

  /** A variable that had no `forwardModels` entry before the loop. */
  lemma LinkedFresh(o: Value, n: Value, refs: seq<Value>)
    requires LinkedVar(o, n, refs) && "forwardModels" !in Keys(o.fields)
    ensures n.Object?
    ensures forall key | key != "forwardModels" :: Get(n.fields, key) == Get(o.fields, key)
    ensures Get(n.fields, "forwardModels") == if refs == [] then None else Some(Array(refs))
  {
    assert Get(o.fields, "forwardModels") == None;
    assert BackRefs(o) + refs == refs;
  }

  /**
   * After the loop, each variable is the last raw variable with its id with
   * `forwardModels` added: the ids of the forward models that list it, in
   * model order and once per listing, and no entry when none does.
   */
  lemma LinkedVariables(items: seq<Value>, vars: seq<Field>, ms: seq<Value>, k: string)
    requires TextKeyed(items, "id") && Unlinked(items) && AllDicts(items) && ModelsShaped(ms)
    requires KeyedBy(items, "id") == Ok(vars) && Linkable(vars) && Link(vars, ms).Ok?
    ensures Keys(Link(vars, ms).value) == FirstOccurrences(KeysOf(items, "id"))
    ensures k in KeysOf(items, "id") ==>
              && LastWithKey(items, "id", k).Some? && Get(Link(vars, ms).value, k).Some?
              && LinkedVar(LastWithKey(items, "id", k).value, Get(Link(vars, ms).value, k).value, Referrers(ms, k))
              && "forwardModels" !in Keys(LastWithKey(items, "id", k).value.fields)
  {
    KeyedByContents(items, "id");
    if k in KeysOf(items, "id") {
      assert k in Keys(vars);
      LinkLinked(vars, ms);
    }
  }

  /** The variables of a constructed `ProcessingParameters`, as `LinkedVariables` describes them. */
  lemma ParametersVariables(raw: seq<Field>, k: string)
    requires Accepts(ParametersType, Object(raw)) && ParametersOf(Object(raw)).Ok?
    ensures RawShaped(raw) && AllDicts(ListAt(raw, "variables"))
    ensures ParametersOf(Object(raw)).value.variables.Ids() == FirstOccurrences(KeysOf(ListAt(raw, "variables"), "id"))
    ensures k in KeysOf(ListAt(raw, "variables"), "id") ==>
              var o := LastWithKey(ListAt(raw, "variables"), "id", k);
              var n := Get(ParametersOf(Object(raw)).value.variables.entries, k);
              var refs := Referrers(ListAt(raw, "forwardModels"), k);
              && o.Some? && n.Some? && n.value.Object?
              && (forall key | key != "forwardModels" :: Get(n.value.fields, key) == Get(o.value.fields, key))
              && Get(n.value.fields, "forwardModels") == if refs == [] then None else Some(Array(refs))
  {
    ParametersOfOk(raw);
    var items := ListAt(raw, "variables");
    KeyedByFails(items, "id");
    var ms := ListAt(raw, "forwardModels");
    var vars := KeyedBy(items, "id").value;
    LinkedVariables(items, vars, ms, k);
    if k in KeysOf(items, "id") {
      LinkedFresh(LastWithKey(items, "id", k).value, Get(Link(vars, ms).value, k).value, Referrers(ms, k));
    }
  }
}
