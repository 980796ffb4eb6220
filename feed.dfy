/** The decoded JSON feed: an item is one JSON object as `json` decodes it,
    a dict whose key/value entries keep their insertion order. */
module Feed {
  import opened Wrappers
  import Decimal

  /** The JSON values the core reads. Floats, booleans, lists and nested
      objects are not modelled. */
  datatype Value = Int(i: int) | Str(s: string) | Null

  /** A JSON object's key/value entries, in order. */
  datatype Object = Object(entries: seq<(string, Value)>)

  /** The key of entry `i`. */
  function KeyAt(es: seq<(string, Value)>, i: nat): string
    requires i < |es|
  {
    es[i].0
  }

  /** No key occurs twice. */
  predicate DistinctKeys(es: seq<(string, Value)>) {
    forall i, j :: 0 <= i < j < |es| ==> KeyAt(es, i) != KeyAt(es, j)
  }

  /** A decoded feed item: a Python dict, so no key repeats (for a key sent
      twice the decoder keeps one entry, holding the last value). */
  type Item = o: Object | DistinctKeys(o.entries) witness Object([])

  /** The index of the last entry under `key`, if any. */
  function LastIndex(es: seq<(string, Value)>, key: string): (r: Option<nat>)
    ensures r.None? ==> forall k :: 0 <= k < |es| ==> es[k].0 != key
    ensures r.Some? ==> r.value < |es| && es[r.value].0 == key &&
                        forall k :: r.value < k < |es| ==> es[k].0 != key
  {
    if es == [] then None
    else if es[|es| - 1].0 == key then Some(|es| - 1)
    else LastIndex(es[..|es| - 1], key)
  }

  /** Python's `item.get(key)`: the value stored under `key`, or None. */
  function Get(item: Item, key: string): (r: Option<Value>)
    ensures r.Some? <==> exists j :: 0 <= j < |item.entries| && item.entries[j].0 == key
    ensures r.Some? ==> exists j :: 0 <= j < |item.entries| && item.entries[j] == (key, r.value) &&
                           forall k :: j < k < |item.entries| ==> item.entries[k].0 != key
  {
    match LastIndex(item.entries, key)
    case Some(j) => Some(item.entries[j].1)
    case None => None
  }

  /** Python's `item.get(key, default)`. */
  function GetOr(item: Item, key: string, default: Value): Value {
    match Get(item, key)
    case Some(v) => v
    case None => default
  }

  /** Python truthiness of a JSON value: 0, "" and None are false. */
  predicate Truthy(v: Value) {
    match v
    case Int(n) => n != 0
    case Str(s) => s != ""
    case Null => false
  }

  /** Python's `str(v)`, as used by the f-strings that label dropdown entries. */
  function Show(v: Value): string {
    match v
    case Int(n) => Decimal.IntToString(n)
    case Str(s) => s
    case Null => "None"
  }

  /** `json_item.get('sign', 'ERROR')`: the callsign both registries file
      an item under. */
  function CallsignOf(item: Item): (c: Value)
    ensures Get(item, "sign").None? ==> c == Str("ERROR")
    ensures Get(item, "sign").Some? ==> c == Get(item, "sign").value
  {
    GetOr(item, "sign", Str("ERROR"))
  }
}
