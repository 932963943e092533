/**
 * The schema validator of `multiply_ui/util/schema.py`: a `TypeDef` describes
 * the expected Python type of a value, whether `None` is allowed, the item type
 * and length bounds of a list and the declared properties of a dictionary.
 * Validation returns `Pass` or the `ValueError` (or `KeyError`) it raises.
 */
module Schema {
  import opened Wrappers
  import opened Text
  import opened Json

  /** The Python classes used as `data_type` by the schemas of the project. */
  datatype DataType = StrType | IntType | BoolType | FloatType | ListType | DictType | ObjectType
  {
    /** `data_type.__name__`. */
    function Name(): string {
      match this
      case StrType => "str"
      case IntType => "int"
      case BoolType => "bool"
      case FloatType => "float"
      case ListType => "list"
      case DictType => "dict"
      case ObjectType => "object"
    }
  }

  /**
   * `isinstance(v, t)`. Python's `bool` is a subclass of `int`, and every
   * value is an instance of `object`.
   */
  predicate IsInstance(v: Value, t: DataType) {
    match t
    case ObjectType => true
    case StrType => v.Str?
    case IntType => v.Int? || v.Bool?
    case BoolType => v.Bool?
    case FloatType => v.Float?
    case ListType => v.Array?
    case DictType => v.Object?
  }

  datatype TypeDef = TypeDef(
    dataType: DataType,
    optional: bool,
    itemType: Option<TypeDef>,
    numItemsMin: Option<int>,
    numItemsMax: Option<int>,
    properties: PropertyList)

  /** `properties=None`, or the declared properties of a dictionary type. */
  datatype PropertyList = NoProperties | Properties(defs: seq<PropertyDef>)

  datatype PropertyDef = PropertyDef(name: string, propType: TypeDef)

  /**
   * `TypeDef(data_type, optional, item_type, num_items, num_items_min,
   * num_items_max, properties)`: an explicit minimum or maximum wins, and
   * `num_items` stands in for whichever of the two is not given.
   */
  function MakeTypeDef(
    dataType: DataType, optional: bool, itemType: Option<TypeDef>,
    numItems: Option<int>, numItemsMin: Option<int>, numItemsMax: Option<int>,
    properties: PropertyList): (t: TypeDef)
    ensures t.dataType == dataType && t.optional == optional
    ensures t.itemType == itemType && t.properties == properties
    ensures t.numItemsMin == (if numItemsMin.Some? then numItemsMin else numItems)
    ensures t.numItemsMax == (if numItemsMax.Some? then numItemsMax else numItems)
  {
    TypeDef(dataType, optional, itemType,
            if numItemsMin.Some? then numItemsMin else numItems,
            if numItemsMax.Some? then numItemsMax else numItems,
            properties)
  }

  /** `TypeDef(data_type)` with every other argument left at its default. */
  function Plain(dataType: DataType): TypeDef {
    MakeTypeDef(dataType, false, None, None, None, None, NoProperties)
  }

  /** The errors `validate` raises; all but `KeyError` are `ValueError`s. */
  datatype SchemaError =
    | NotOptional(prefix: string)
    | WrongType(prefix: string, expectedType: string, foundType: string)
    | WrongCount(prefix: string, count: int, length: int)
    | TooFew(prefix: string, min: int, length: int)
    | TooMany(prefix: string, max: int, length: int)
    | MissingProperty(prefix: string, name: string)
    | KeyError(name: string)
    | UnexpectedProperty(prefix: string, name: string)
    | UnexpectedProperties(prefix: string, names: seq<string>)

  /** `repr(s)` for text without quotes, backslashes or unprintable characters. */
  function Quote(s: string): string {
    "'" + s + "'"
  }

  function QuoteAll(names: seq<string>): seq<string> {
    seq(|names|, i requires 0 <= i < |names| => Quote(names[i]))
  }

  /** The text of the exception, as `str(e)` shows it. */
  function Message(e: SchemaError): string {
    match e
    case NotOptional(p) => p + "value is not optional, but found null"
    case WrongType(p, expected, found) =>
      p + "value is expected to have type " + Quote(expected) + ", but found type " + Quote(found)
    case WrongCount(p, n, found) =>
      p + "number of items must be " + IntToString(n) + ", but was " + IntToString(found)
    case TooFew(p, n, found) =>
      p + "number of items must not be less than " + IntToString(n) + ", but was " + IntToString(found)
    case TooMany(p, n, found) =>
      p + "number of items must not be greater than " + IntToString(n) + ", but was " + IntToString(found)
    case MissingProperty(p, name) => p + "missing property " + Quote(name)
    case KeyError(name) => Quote(name)
    case UnexpectedProperty(p, name) => p + "unexpected property " + Quote(name) + " found"
    case UnexpectedProperties(p, names) =>
      p + "unexpected properties found: [" + Join(", ", QuoteAll(names)) + "]"
  }

  /** The prefix put before the errors of list item `index`. */
  function IndexPrefix(prefix: string, index: int): string {
    prefix + "index " + IntToString(index) + ": "
  }

  /** The prefix put before the errors of property `name`. */
  function PropertyPrefix(prefix: string, name: string): string {
    prefix + "property " + Quote(name) + ": "
  }

  /** `TypeDef.validate(value, prefix)`. */
  function Validate(t: TypeDef, v: Value, prefix: string): Outcome<SchemaError>
    decreases t, 1
  {
    if v.Null? then
      if t.optional then Pass else Fail(NotOptional(prefix))
    else if !t.optional && !IsInstance(v, t.dataType) then
      Fail(WrongType(prefix, t.dataType.Name(), TypeName(v)))
    else if v.Array? && t.itemType.Some? then
      ValidateList(t, v.items, prefix)
    else if v.Object? && t.properties.Properties? then
      ValidateDict(t, v.fields, prefix)
    else
      Pass
  }

  /** The length checks of `_validate_list`, in the order they are made. */
  function CheckCount(t: TypeDef, n: int, prefix: string): Outcome<SchemaError> {
    if t.numItemsMin.Some? || t.numItemsMax.Some? then
      if t.numItemsMin.Some? && t.numItemsMin == t.numItemsMax && n != t.numItemsMin.value then
        Fail(WrongCount(prefix, t.numItemsMin.value, n))
      else if t.numItemsMin.Some? && n < t.numItemsMin.value then
        Fail(TooFew(prefix, t.numItemsMin.value, n))
      else if t.numItemsMax.Some? && n > t.numItemsMax.value then
        Fail(TooMany(prefix, t.numItemsMax.value, n))
      else Pass
    else Pass
  }

  /** `_validate_list`: the length checks, then every item in order. */
  function ValidateList(t: TypeDef, items: seq<Value>, prefix: string): Outcome<SchemaError>
    requires t.itemType.Some?
    decreases t, 0, |items| + 1
  {
    match CheckCount(t, |items|, prefix)
    case Fail(e) => Fail(e)
    case Pass => ValidateItems(t, items, 0, prefix)
  }

  /** The item loop of `_validate_list` from position `index` on; the first failure is raised. */
  function ValidateItems(t: TypeDef, items: seq<Value>, index: nat, prefix: string): Outcome<SchemaError>
    requires t.itemType.Some? && index <= |items|
    decreases t, 0, |items| - index
  {
    if index == |items| then Pass
    else
      match Validate(t.itemType.value, items[index], IndexPrefix(prefix, index))
      case Fail(e) => Fail(e)
      case Pass => ValidateItems(t, items, index + 1, prefix)
  }

  /** `PropertyDef.validate`: delegates to the property's type. */
  function ValidateProperty(p: PropertyDef, v: Value, prefix: string): Outcome<SchemaError>
    decreases p.propType, 2
  {
    Validate(p.propType, v, prefix)
  }

  function Names(props: seq<PropertyDef>): (names: seq<string>)
    ensures |names| == |props|
    ensures forall i :: 0 <= i < |props| ==> names[i] == props[i].name
  {
    if |props| == 0 then [] else [props[0].name] + Names(props[1..])
  }

  /**
   * `set(keys).difference(names)` as a list without repetitions, in the order
   * of first appearance in `keys`.
   */
  function Undeclared(keys: seq<string>, names: seq<string>): (r: seq<string>)
    ensures forall k :: k in r <==> k in keys && k !in names
    ensures forall i, j :: 0 <= i < j < |r| ==> r[i] != r[j]
  {
    if |keys| == 0 then []
    else
      var rest := Undeclared(keys[1..], names);
      assert keys == [keys[0]] + keys[1..];
      if keys[0] in names || keys[0] in rest then rest else [keys[0]] + rest
  }

  /** `_validate_dict`: every declared property in order, then the undeclared keys. */
  function ValidateDict(t: TypeDef, fields: seq<Field>, prefix: string): Outcome<SchemaError>
    requires t.properties.Properties?
    decreases t, 0, |t.properties.defs| + 1
  {
    match ValidateProps(t, fields, 0, prefix)
    case Fail(e) => Fail(e)
    case Pass =>
      var illegal := Undeclared(Keys(fields), Names(t.properties.defs));
      if |illegal| == 1 then Fail(UnexpectedProperty(prefix, illegal[0]))
      else if |illegal| > 1 then Fail(UnexpectedProperties(prefix, SortStrings(illegal)))
      else Pass
  }

  /**
   * The property loop of `_validate_dict` from property `k` on. An absent
   * property that is not optional raises "missing property"; an absent optional
   * one still reaches `value[p.name]`, which raises `KeyError`.
   */
  function ValidateProps(t: TypeDef, fields: seq<Field>, k: nat, prefix: string): Outcome<SchemaError>
    requires t.properties.Properties? && k <= |t.properties.defs|
    decreases t, 0, |t.properties.defs| - k
  {
    var props := t.properties.defs;
    if k == |props| then Pass
    else
      var p := props[k];
      var found := Get(fields, p.name);
      if found.None? && !p.propType.optional then Fail(MissingProperty(prefix, p.name))
      else if found.None? then Fail(KeyError(p.name))
      else
        match ValidateProperty(p, found.value, PropertyPrefix(prefix, p.name))
        case Fail(e) => Fail(e)
        case Pass => ValidateProps(t, fields, k + 1, prefix)
  }

  // ---------------------------------------------------------------------------
  // Properties of the validator
  // ---------------------------------------------------------------------------

  /** Whether a value is accepted does not depend on the prefix, which only decorates messages. */
  predicate Accepts(t: TypeDef, v: Value) {
    Validate(t, v, "").Pass?
  }

  /** The length bounds that `_validate_list` enforces. */
  predicate CountOk(t: TypeDef, n: int) {
    && (t.numItemsMin.Some? && t.numItemsMin == t.numItemsMax ==> n == t.numItemsMin.value)
    && (t.numItemsMin.Some? ==> t.numItemsMin.value <= n)
    && (t.numItemsMax.Some? ==> n <= t.numItemsMax.value)
  }

  lemma CheckCountPasses(t: TypeDef, n: int, prefix: string)
    ensures CheckCount(t, n, prefix).Pass? <==> CountOk(t, n)
  {
  }

  lemma {:induction false} PrefixIrrelevant(t: TypeDef, v: Value, p1: string, p2: string)
    ensures Validate(t, v, p1).Pass? == Validate(t, v, p2).Pass?
    decreases t, 1
  {
    if v.Null? || (!t.optional && !IsInstance(v, t.dataType)) {
    } else if v.Array? && t.itemType.Some? {
      CheckCountPasses(t, |v.items|, p1);
      CheckCountPasses(t, |v.items|, p2);
      ItemsPrefixIrrelevant(t, v.items, 0, p1, p2);
    } else if v.Object? && t.properties.Properties? {
      PropsPrefixIrrelevant(t, v.fields, 0, p1, p2);
    }
  }

  lemma {:induction false} ItemsPrefixIrrelevant(t: TypeDef, items: seq<Value>, index: nat, p1: string, p2: string)
    requires t.itemType.Some? && index <= |items|
    ensures ValidateItems(t, items, index, p1).Pass? == ValidateItems(t, items, index, p2).Pass?
    decreases t, 0, |items| - index
  {
    if index < |items| {
      PrefixIrrelevant(t.itemType.value, items[index], IndexPrefix(p1, index), IndexPrefix(p2, index));
      ItemsPrefixIrrelevant(t, items, index + 1, p1, p2);
    }
  }

  lemma {:induction false} PropsPrefixIrrelevant(t: TypeDef, fields: seq<Field>, k: nat, p1: string, p2: string)
    requires t.properties.Properties? && k <= |t.properties.defs|
    ensures ValidateProps(t, fields, k, p1).Pass? == ValidateProps(t, fields, k, p2).Pass?
    decreases t, 0, |t.properties.defs| - k
  {
    var props := t.properties.defs;
    if k < |props| {
      var p := props[k];
      var found := Get(fields, p.name);
      if found.Some? {
        PrefixIrrelevant(p.propType, found.value, PropertyPrefix(p1, p.name), PropertyPrefix(p2, p.name));
      }
      PropsPrefixIrrelevant(t, fields, k + 1, p1, p2);
    }
  }

  /** `None` passes exactly when the type is optional; otherwise "value is not optional" is raised. */
  lemma NullAcceptedIffOptional(t: TypeDef, prefix: string)
    ensures Validate(t, Null, prefix) == if t.optional then Pass else Fail(NotOptional(prefix))
  {
  }

  /**
   * A non-`None` value of the wrong type is rejected by a non-optional type
   * with the type error; an optional type does not look at the type at all.
   */
  lemma TypeMismatchRejected(t: TypeDef, v: Value, prefix: string)
    requires !v.Null? && !IsInstance(v, t.dataType)
    ensures !t.optional ==> Validate(t, v, prefix) == Fail(WrongType(prefix, t.dataType.Name(), TypeName(v)))
    ensures t.optional && !v.Array? && !v.Object? ==> Validate(t, v, prefix) == Pass
  {
  }

  /** Every item from `index` on passes exactly when the loop from `index` passes. */
  lemma {:induction false} ItemsAccepted(t: TypeDef, items: seq<Value>, index: nat, prefix: string)
    requires t.itemType.Some? && index <= |items|
    ensures ValidateItems(t, items, index, prefix).Pass?
            <==> forall i :: index <= i < |items| ==> Accepts(t.itemType.value, items[i])
    decreases |items| - index
  {
    if index < |items| {
      PrefixIrrelevant(t.itemType.value, items[index], IndexPrefix(prefix, index), "");
      ItemsAccepted(t, items, index + 1, prefix);
    }
  }

  /**
   * A list passes a type with an item type exactly when its length meets the
   * bounds and every item passes the item type.
   */
  lemma ListAccepted(t: TypeDef, items: seq<Value>, prefix: string)
    requires t.itemType.Some? && (t.optional || IsInstance(Array(items), t.dataType))
    ensures Validate(t, Array(items), prefix).Pass?
            <==> CountOk(t, |items|) && forall i :: 0 <= i < |items| ==> Accepts(t.itemType.value, items[i])
  {
    CheckCountPasses(t, |items|, prefix);
    ItemsAccepted(t, items, 0, prefix);
  }

  /** `num_items = n` alone admits lists of exactly `n` items. */
  lemma FixedItemCount(item: TypeDef, n: int, items: seq<Value>, prefix: string)
    ensures var t := MakeTypeDef(ListType, false, Some(item), Some(n), None, None, NoProperties);
            Validate(t, Array(items), prefix).Pass? ==> |items| == n
    ensures var t := MakeTypeDef(ListType, false, Some(item), Some(n), None, None, NoProperties);
            |items| != n ==> Validate(t, Array(items), prefix) == Fail(WrongCount(prefix, n, |items|))
  {
    var t := MakeTypeDef(ListType, false, Some(item), Some(n), None, None, NoProperties);
    CheckCountPasses(t, |items|, prefix);
    assert Validate(t, Array(items), prefix) == ValidateList(t, items, prefix);
  }

  /**
   * When the length is acceptable and item `j` is the first item that fails,
   * the list fails with item `j`'s error under the prefix `index j: `.
   */
  lemma {:induction false} FirstFailingItem(t: TypeDef, items: seq<Value>, index: nat, j: nat, prefix: string)
    requires t.itemType.Some? && index <= j < |items|
    requires forall i :: index <= i < j ==> Accepts(t.itemType.value, items[i])
    requires !Accepts(t.itemType.value, items[j])
    ensures ValidateItems(t, items, index, prefix) == Validate(t.itemType.value, items[j], IndexPrefix(prefix, j))
    decreases j - index
  {
    PrefixIrrelevant(t.itemType.value, items[index], IndexPrefix(prefix, index), "");
    if index < j {
      FirstFailingItem(t, items, index + 1, j, prefix);
    }
  }

  /** Every declared property is present and passes its type. */
  predicate PropertiesAccepted(props: seq<PropertyDef>, fields: seq<Field>) {
    forall i :: 0 <= i < |props| ==>
      Get(fields, props[i].name).Some? && Accepts(props[i].propType, Get(fields, props[i].name).value)
  }

  lemma {:induction false} PropsAccepted(t: TypeDef, fields: seq<Field>, k: nat, prefix: string)
    requires t.properties.Properties? && k <= |t.properties.defs|
    ensures ValidateProps(t, fields, k, prefix).Pass? <==> PropertiesAccepted(t.properties.defs[k..], fields)
    decreases |t.properties.defs| - k
  {
    var props := t.properties.defs;
    if k < |props| {
      var p := props[k];
      var found := Get(fields, p.name);
      if found.Some? {
        PrefixIrrelevant(p.propType, found.value, PropertyPrefix(prefix, p.name), "");
      }
      PropsAccepted(t, fields, k + 1, prefix);
      assert props[k..][0] == p;
      assert forall i :: 1 <= i < |props[k..]| ==> props[k..][i] == props[k + 1..][i - 1];
    }
  }

  /**
   * A dictionary passes a type with declared properties exactly when every
   * declared property is present (optional or not) and passes its type, and the
   * dictionary has no key that is not declared.
   */
  lemma DictAccepted(t: TypeDef, fields: seq<Field>, prefix: string)
    requires t.properties.Properties? && (t.optional || IsInstance(Object(fields), t.dataType))
    ensures Validate(t, Object(fields), prefix).Pass?
            <==> PropertiesAccepted(t.properties.defs, fields)
                 && forall key :: key in Keys(fields) ==> key in Names(t.properties.defs)
  {
    assert Validate(t, Object(fields), prefix) == ValidateDict(t, fields, prefix);
    PropsAccepted(t, fields, 0, prefix);
    assert t.properties.defs[0..] == t.properties.defs;
    var illegal := Undeclared(Keys(fields), Names(t.properties.defs));
    if |illegal| == 0 {
      forall key | key in Keys(fields) ensures key in Names(t.properties.defs) {
        assert key !in illegal;
      }
    } else {
      assert illegal[0] in illegal;
    }
  }

  /**
   * When the declared properties before `k` pass and property `k` is absent,
   * validation fails with "missing property" if it is not optional and with
   * `KeyError` if it is.
   */
  lemma {:induction false} AbsentProperty(t: TypeDef, fields: seq<Field>, k: nat, prefix: string)
    requires t.properties.Properties? && k < |t.properties.defs|
    requires PropertiesAccepted(t.properties.defs[..k], fields)
    requires Get(fields, t.properties.defs[k].name).None?
    ensures var p := t.properties.defs[k];
            ValidateProps(t, fields, 0, prefix)
            == if p.propType.optional then Fail(KeyError(p.name)) else Fail(MissingProperty(prefix, p.name))
  {
    PropsUpTo(t, fields, 0, k, prefix);
  }

  lemma {:induction false} PropsUpTo(t: TypeDef, fields: seq<Field>, from: nat, k: nat, prefix: string)
    requires t.properties.Properties? && from <= k <= |t.properties.defs|
    requires PropertiesAccepted(t.properties.defs[..k], fields)
    ensures ValidateProps(t, fields, from, prefix) == ValidateProps(t, fields, k, prefix)
    decreases k - from
  {
    if from < k {
      var props := t.properties.defs;
      var p := props[from];
      assert props[..k][from] == p;
      PrefixIrrelevant(p.propType, Get(fields, p.name).value, PropertyPrefix(prefix, p.name), "");
      PropsUpTo(t, fields, from + 1, k, prefix);
    }
  }

  /**
   * When the declared properties all pass, undeclared keys are reported: one
   * by name, several as the sorted list of their names.
   */
  lemma UndeclaredKeysRejected(t: TypeDef, fields: seq<Field>, prefix: string)
    requires t.properties.Properties? && PropertiesAccepted(t.properties.defs, fields)
    requires t.optional || IsInstance(Object(fields), t.dataType)
    ensures var illegal := Undeclared(Keys(fields), Names(t.properties.defs));
            && (|illegal| == 1 ==> Validate(t, Object(fields), prefix) == Fail(UnexpectedProperty(prefix, illegal[0])))
            && (|illegal| > 1 ==> exists names ::
                  && Validate(t, Object(fields), prefix) == Fail(UnexpectedProperties(prefix, names))
                  && Sorted(names) && multiset(names) == multiset(illegal))
  {
    PropsAccepted(t, fields, 0, prefix);
    assert t.properties.defs[0..] == t.properties.defs;
    var illegal := Undeclared(Keys(fields), Names(t.properties.defs));
    if |illegal| > 1 {
      var names := SortStrings(illegal);
      assert Validate(t, Object(fields), prefix) == Fail(UnexpectedProperties(prefix, names));
    }
  }
}
