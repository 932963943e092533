/**
 * Shorthands for the schema types the UI models declare, and what validation
 * against them guarantees about the shape of a value.
 */
module Shapes {
  import opened Wrappers
  import opened Json
  import opened Schema
  import opened Keyed

  /** `TypeDef(list, item_type=item)`. */
  function ListOf(item: TypeDef): TypeDef {
    MakeTypeDef(ListType, false, Some(item), None, None, None, NoProperties)
  }

  /** `TypeDef(data_type, optional=True)`. */
  function OptionalOf(dataType: DataType): TypeDef {
    MakeTypeDef(dataType, true, None, None, None, None, NoProperties)
  }

  /** `TypeDef(object, properties=props)`. */
  function RecordOf(props: seq<PropertyDef>): TypeDef {
    MakeTypeDef(ObjectType, false, None, None, None, None, Properties(props))
  }

  /** A list of text values. */
  predicate TextList(v: Value) {
    v.Array? && forall x | x in v.items :: x.Str?
  }

  /** The list under `key` of a dictionary that has one. */
  function ListAt(raw: seq<Field>, key: string): seq<Value>
    requires Get(raw, key).Some? && Get(raw, key).value.Array?
  {
    Get(raw, key).value.items
  }

  predicate HasList(raw: seq<Field>, key: string) {
    Get(raw, key).Some? && Get(raw, key).value.Array?
  }

  // ---------------------------------------------------------------------------
  // What an accepted value looks like
  // ---------------------------------------------------------------------------

  lemma TextAccepted(v: Value)
    requires Accepts(Plain(StrType), v)
    ensures v.Str?
  {
  }

  lemma ItemsAcceptedAll(item: TypeDef, v: Value)
    requires Accepts(ListOf(item), v)
    ensures v.Array? && forall x | x in v.items :: Accepts(item, x)
  {
    ListAccepted(ListOf(item), v.items, "");
  }

  lemma TextListAccepted(v: Value)
    requires Accepts(ListOf(Plain(StrType)), v)
    ensures TextList(v)
  {
    ItemsAcceptedAll(Plain(StrType), v);
    forall x | x in v.items ensures x.Str? {
      TextAccepted(x);
    }
  }

  /** A type declaring properties that every dictionary is an instance of. */
  predicate IsRecord(t: TypeDef) {
    t.properties.Properties? && t.dataType == ObjectType
  }

  /** A dictionary accepted by a record type has every declared property and no other key. */
  lemma RecordAccepted(t: TypeDef, v: Value)
    requires IsRecord(t) && Accepts(t, v) && v.Object?
    ensures PropertiesAccepted(t.properties.defs, v.fields)
    ensures forall key | key in Keys(v.fields) :: key in Names(t.properties.defs)
  {
    DictAccepted(t, v.fields, "");
  }

  /** The text property at position `i` of a record type is present as text. */
  lemma RecordText(t: TypeDef, v: Value, i: nat)
    requires IsRecord(t) && Accepts(t, v) && v.Object?
    requires i < |t.properties.defs| && t.properties.defs[i].propType == Plain(StrType)
    ensures HasText(v, t.properties.defs[i].name)
  {
    RecordAccepted(t, v);
    TextAccepted(Get(v.fields, t.properties.defs[i].name).value);
  }

  /** The text-list property at position `i` of a record type is present as a list of text. */
  lemma RecordTextList(t: TypeDef, v: Value, i: nat)
    requires IsRecord(t) && Accepts(t, v) && v.Object?
    requires i < |t.properties.defs| && t.properties.defs[i].propType == ListOf(Plain(StrType))
    ensures Get(v.fields, t.properties.defs[i].name).Some? && TextList(Get(v.fields, t.properties.defs[i].name).value)
  {
    RecordAccepted(t, v);
    TextListAccepted(Get(v.fields, t.properties.defs[i].name).value);
  }

  /** The list property at position `i` of a record type is present, and each of its items is accepted. */
  lemma RecordList(t: TypeDef, v: Value, i: nat, item: TypeDef)
    requires IsRecord(t) && Accepts(t, v) && v.Object?
    requires i < |t.properties.defs| && t.properties.defs[i].propType == ListOf(item)
    ensures HasList(v.fields, t.properties.defs[i].name)
    ensures forall x | x in ListAt(v.fields, t.properties.defs[i].name) :: Accepts(item, x)
  {
    RecordAccepted(t, v);
    ItemsAcceptedAll(item, Get(v.fields, t.properties.defs[i].name).value);
  }

  /** A key no property declares is absent from an accepted dictionary. */
  lemma RecordLacks(t: TypeDef, v: Value, key: string)
    requires IsRecord(t) && Accepts(t, v) && v.Object?
    requires key !in Names(t.properties.defs)
    ensures key !in Keys(v.fields)
  {
    RecordAccepted(t, v);
  }
}
