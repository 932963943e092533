/**
 * Dictionaries built by comprehension, `{item[key]: item for item in items}`,
 * and the collections the UI model wraps around them (`ids`/`names` and
 * `get`). A Python dictionary keeps the position of a key's first insertion
 * and the value of its last.
 */
module Keyed {
  import opened Wrappers
  import opened Json

  /** The errors subscripting raises: `TypeError` on a value that is not a dictionary, `KeyError` on a missing key. */
  datatype LookupError = NotADict(typeName: string) | MissingKey(key: string)

  /** `v[key]` for a text key. */
  function Subscript(v: Value, key: string): (r: Result<Value, LookupError>)
    ensures r.Ok? <==> v.Object? && key in Keys(v.fields)
  {
    if !v.Object? then Err(NotADict(TypeName(v)))
    else match Get(v.fields, key)
      case None => Err(MissingKey(key))
      case Some(x) => Ok(x)
  }

  /** A dictionary whose entry under `key` is text. */
  predicate HasText(item: Value, key: string) {
    item.Object? && Get(item.fields, key).Some? && Get(item.fields, key).value.Str?
  }

  /** The text under `key` of an item that has one. */
  function TextAt(item: Value, key: string): string
    requires HasText(item, key)
  {
    Get(item.fields, key).value.s
  }

  /** Every dictionary among the items has text under `key`: what validation guarantees where the model keys items. */
  predicate TextKeyed(items: seq<Value>, key: string) {
    forall v | v in items :: v.Object? ==> HasText(v, key)
  }

  /** Every item is a dictionary. */
  predicate AllDicts(items: seq<Value>) {
    forall v | v in items :: v.Object?
  }

  /**
   * `{item[key]: item for item in items}`: the items in order, each stored
   * under its key; the first item that is not a dictionary raises `TypeError`.
   */
  function KeyedBy(items: seq<Value>, key: string): (r: Result<seq<Field>, LookupError>)
    requires TextKeyed(items, key)
    ensures r.Err? ==> r.error.NotADict?
  {
    if |items| == 0 then Ok([])
    else
      var init := items[..|items| - 1];
      var last := items[|items| - 1];
      match KeyedBy(init, key)
      case Err(e) => Err(e)
      case Ok(d) =>
        if !last.Object? then Err(NotADict(TypeName(last)))
        else Ok(Put(d, TextAt(last, key), last))
  }

  /** The keys of the items, in item order, repetitions included. */
  function KeysOf(items: seq<Value>, key: string): (ks: seq<string>)
    requires TextKeyed(items, key) && AllDicts(items)
    ensures |ks| == |items|
    ensures forall i :: 0 <= i < |items| ==> ks[i] == TextAt(items[i], key)
  {
    if |items| == 0 then []
    else
      var init := items[..|items| - 1];
      KeysOf(init, key) + [TextAt(items[|items| - 1], key)]
  }

  /** The keys in order of first appearance, each once. */
  function FirstOccurrences(ks: seq<string>): (r: seq<string>)
    ensures forall k :: k in r <==> k in ks
    ensures forall i, j :: 0 <= i < j < |r| ==> r[i] != r[j]
  {
    if |ks| == 0 then []
    else
      var init := FirstOccurrences(ks[..|ks| - 1]);
      assert forall k :: k in ks <==> k in ks[..|ks| - 1] || k == ks[|ks| - 1];
      if ks[|ks| - 1] in init then init else init + [ks[|ks| - 1]]
  }

  /** The last of the items whose key is `k`, if any. */
  function LastWithKey(items: seq<Value>, key: string, k: string): (r: Option<Value>)
    requires TextKeyed(items, key) && AllDicts(items)
    ensures r.Some? ==> r.value in items && TextAt(r.value, key) == k
    ensures r.None? ==> k !in KeysOf(items, key)
  {
    if |items| == 0 then None
    else
      var init := items[..|items| - 1];
      if TextAt(items[|items| - 1], key) == k then Some(items[|items| - 1])
      else
        var r := LastWithKey(init, key, k);
        assert KeysOf(items, key) == KeysOf(init, key) + [TextAt(items[|items| - 1], key)];
        r
  }

  /** The comprehension raises exactly when some item is not a dictionary. */
  lemma {:induction false} KeyedByFails(items: seq<Value>, key: string)
    requires TextKeyed(items, key)
    ensures KeyedBy(items, key).Ok? <==> AllDicts(items)
  {
    if |items| > 0 {
      var init := items[..|items| - 1];
      KeyedByFails(init, key);
    }
  }

  /**
   * The keys of the dictionary are the item keys in order of first
   * appearance, and each key holds the last item with that key.
   */
  lemma {:induction false} KeyedByContents(items: seq<Value>, key: string)
    requires TextKeyed(items, key) && AllDicts(items)
    ensures KeyedBy(items, key).Ok?
    ensures Keys(KeyedBy(items, key).value) == FirstOccurrences(KeysOf(items, key))
    ensures forall k :: Get(KeyedBy(items, key).value, k) == LastWithKey(items, key, k)
  {
    KeyedByFails(items, key);
    if |items| > 0 {
      var init := items[..|items| - 1];
      var last := items[|items| - 1];
      KeyedByContents(init, key);
      var d := KeyedBy(init, key).value;
      assert KeysOf(items, key) == KeysOf(init, key) + [TextAt(last, key)];
      forall k ensures Get(KeyedBy(items, key).value, k) == LastWithKey(items, key, k) {
        GetPut(d, TextAt(last, key), last, k);
      }
    }
  }

  /** Every entry of `d[key] = v` is an entry of `d` or the new one. */
  lemma {:induction false} PutFields(fields: seq<Field>, k: string, v: Value)
    ensures forall f | f in Put(fields, k, v) :: f in fields || f == Field(k, v)
  {
    if |fields| > 0 && fields[0].key != k {
      PutFields(fields[1..], k, v);
    }
  }

  /** Storing under a new key appends the entry. */
  lemma {:induction false} PutAbsent(fields: seq<Field>, k: string, v: Value)
    requires k !in Keys(fields)
    ensures Put(fields, k, v) == fields + [Field(k, v)]
  {
    if |fields| > 0 {
      PutAbsent(fields[1..], k, v);
    }
  }

  /** In a dictionary, `d[k]` is the value stored with key `k`. */
  lemma {:induction false} GetDistinct(fields: seq<Field>, i: nat)
    requires DistinctKeys(fields) && i < |fields|
    ensures Get(fields, fields[i].key) == Some(fields[i].val)
  {
    if i > 0 {
      GetDistinct(fields[1..], i - 1);
    }
  }

  /** `list(d.values())`. */
  function FieldValues(fields: seq<Field>): (vs: seq<Value>)
    ensures |vs| == |fields|
    ensures forall i :: 0 <= i < |fields| ==> vs[i] == fields[i].val
  {
    seq(|fields|, i requires 0 <= i < |fields| => fields[i].val)
  }

  /** Every value is a dictionary whose text under `key` is the key it is stored under. */
  predicate SelfKeyed(fields: seq<Field>, key: string) {
    forall f | f in fields :: HasText(f.val, key) && TextAt(f.val, key) == f.key
  }

  /** The comprehension stores each item under its own key, and never twice under one key. */
  lemma {:induction false} KeyedBySelfKeyed(items: seq<Value>, key: string)
    requires TextKeyed(items, key) && KeyedBy(items, key).Ok?
    ensures SelfKeyed(KeyedBy(items, key).value, key)
    ensures DistinctKeys(KeyedBy(items, key).value)
  {
    var d := KeyedBy(items, key).value;
    if |items| > 0 {
      var init := items[..|items| - 1];
      var last := items[|items| - 1];
      KeyedBySelfKeyed(init, key);
      PutFields(KeyedBy(init, key).value, TextAt(last, key), last);
    }
    KeyedByFails(items, key);
    KeyedByContents(items, key);
    assert forall i :: 0 <= i < |d| ==> Keys(d)[i] == d[i].key;
  }

  lemma SelfKeyedValues(d: seq<Field>, key: string)
    requires SelfKeyed(d, key)
    ensures TextKeyed(FieldValues(d), key)
  {
    forall v | v in FieldValues(d) ensures HasText(v, key) {
      var i :| 0 <= i < |d| && FieldValues(d)[i] == v;
      assert d[i] in d;
    }
  }

  lemma LastSplit<T>(s: seq<T>)
    requires |s| > 0
    ensures s[..|s| - 1] + [s[|s| - 1]] == s
  {
  }

  /** The comprehension stores its last item on top of what the earlier items gave. */
  lemma KeyedByLast(items: seq<Value>, key: string, d: seq<Field>)
    requires TextKeyed(items, key) && |items| > 0 && items[|items| - 1].Object?
    requires KeyedBy(items[..|items| - 1], key) == Ok(d)
    ensures KeyedBy(items, key) == Ok(Put(d, TextAt(items[|items| - 1], key), items[|items| - 1]))
  {
  }

  /** Re-keying stores the last value under the key it was stored under. */
  lemma RekeyLast(d: seq<Field>, key: string)
    requires SelfKeyed(d, key) && |d| > 0
    requires KeyedBy(FieldValues(d[..|d| - 1]), key) == Ok(d[..|d| - 1])
    ensures TextKeyed(FieldValues(d), key)
    ensures KeyedBy(FieldValues(d), key) == Ok(Put(d[..|d| - 1], d[|d| - 1].key, d[|d| - 1].val))
  {
    SelfKeyedValues(d, key);
    var vs := FieldValues(d);
    var last := d[|d| - 1];
    assert last in d;
    assert vs[..|vs| - 1] == FieldValues(d[..|d| - 1]);
    KeyedByLast(vs, key, d[..|d| - 1]);
  }

  /** Storing the last entry of a dictionary on top of the others gives the dictionary back. */
  lemma PutLast(d: seq<Field>)
    requires DistinctKeys(d) && |d| > 0
    ensures Put(d[..|d| - 1], d[|d| - 1].key, d[|d| - 1].val) == d
  {
    var init := d[..|d| - 1];
    var last := d[|d| - 1];
    assert last.key !in Keys(init) by {
      assert forall i :: 0 <= i < |init| ==> Keys(init)[i] == d[i].key;
    }
    PutAbsent(init, last.key, last.val);
    assert Field(last.key, last.val) == last;
    LastSplit(d);
  }

  /**
   * Re-keying the values of such a dictionary by the same key, as
   * `{v[key]: v for v in d.values()}` does, gives back the same dictionary.
   */
  lemma {:induction false} RekeyIdentity(d: seq<Field>, key: string)
    requires SelfKeyed(d, key) && DistinctKeys(d)
    ensures TextKeyed(FieldValues(d), key)
    ensures KeyedBy(FieldValues(d), key) == Ok(d)
  {
    SelfKeyedValues(d, key);
    if |d| > 0 {
      var init := d[..|d| - 1];
      assert forall f | f in init :: f in d;
      RekeyIdentity(init, key);
      RekeyLast(d, key);
      PutLast(d);
    }
  }

  /** `ids`/`names` and `get` of a keyed collection. */
  datatype Catalog = Catalog(entries: seq<Field>)
  {
    /** The keys in insertion order. */
    function Ids(): (ids: seq<string>)
      ensures |ids| == |entries|
      ensures forall i :: 0 <= i < |entries| ==> ids[i] == entries[i].key
    {
      Keys(entries)
    }

    /** `get`: the item under `k`; `KeyError` when there is none. */
    function GetItem(k: string): (r: Result<Value, LookupError>)
      ensures r.Ok? <==> k in Ids()
      ensures r.Ok? ==> exists i :: 0 <= i < |entries| && entries[i] == Field(k, r.value)
      ensures r.Err? ==> r.error == MissingKey(k)
    {
      match Get(entries, k)
      case None => Err(MissingKey(k))
      case Some(v) => Ok(v)
    }
  }

  /** The collection `c` is the comprehension over `items` keyed by `key`. */
  ghost predicate KeyedFrom(c: Catalog, items: seq<Value>, key: string) {
    && TextKeyed(items, key) && AllDicts(items)
    && c.Ids() == FirstOccurrences(KeysOf(items, key))
    && forall k :: Get(c.entries, k) == LastWithKey(items, key, k)
  }

  /** What `KeyedFrom` says holds of every comprehension that succeeds. */
  lemma KeyedByFrom(items: seq<Value>, key: string)
    requires TextKeyed(items, key) && KeyedBy(items, key).Ok?
    ensures KeyedFrom(Catalog(KeyedBy(items, key).value), items, key)
  {
    KeyedByFails(items, key);
    KeyedByContents(items, key);
  }

  /**
   * `get` on a collection built by the comprehension: the last item with key
   * `k`, and `KeyError` exactly when no item has that key.
   */
  lemma KeyedGetItem(c: Catalog, items: seq<Value>, key: string, k: string)
    requires KeyedFrom(c, items, key)
    ensures c.GetItem(k).Ok? <==> k in KeysOf(items, key)
    ensures c.GetItem(k).Ok? ==> Some(c.GetItem(k).value) == LastWithKey(items, key, k)
  {
    assert Get(c.entries, k) == LastWithKey(items, key, k);
  }
}
