/**
 * The OS key-value store (`UserDefaults.standard`) as a map from key to
 * value, with the typed reads the app uses. The JSON the app stores as
 * `Data` is kept as a document value; its byte encoding is not modelled.
 */
module Store {
  import opened Wrappers

  /** A JSON document. `JDate` stands for an ISO 8601 date string, in whole seconds. */
  datatype Json =
    | JNull
    | JBool(b: bool)
    | JNumber(n: int)
    | JString(s: string)
    | JDate(seconds: int)
    | JArray(items: seq<Json>)
    | JObject(fields: map<string, Json>)

  /** What a key can hold: property-list numbers, booleans, strings, dates and data. */
  datatype Value =
    | IntValue(i: int)
    | BoolValue(b: bool)
    | StringValue(s: string)
    | DateValue(seconds: int)
    | DataValue(doc: Json)

  type Entries = map<string, Value>

  /** The process-wide store; every manager that persists holds a reference to the same one. */
  class UserDefaults {
    var entries: Entries

    constructor (initial: Entries)
      ensures entries == initial
    {
      entries := initial;
    }

    /** `set(_:forKey:)`. */
    method Set(key: string, v: Value)
      modifies this
      ensures entries == old(entries)[key := v]
    {
      entries := entries[key := v];
    }

    /** `removeObject(forKey:)`. */
    method RemoveObject(key: string)
      modifies this
      ensures entries == old(entries) - {key}
    {
      entries := entries - {key};
    }
  }

  /** `object(forKey:) != nil`. */
  predicate Has(m: Entries, key: string) {
    key in m
  }

  /** `integer(forKey:)`: a number, a boolean as 1 or 0, anything else (or nothing) as 0. */
  function IntegerFor(m: Entries, key: string): int {
    if key !in m then 0
    else match m[key]
      case IntValue(i) => i
      case BoolValue(b) => if b then 1 else 0
      case _ => 0
  }

  /** `bool(forKey:)`: a boolean, a number as "non-zero", anything else (or nothing) as false. */
  function BoolFor(m: Entries, key: string): bool {
    if key !in m then false
    else match m[key]
      case BoolValue(b) => b
      case IntValue(i) => i != 0
      case _ => false
  }

  /** `string(forKey:)`. */
  function StringFor(m: Entries, key: string): Option<string> {
    if key in m && m[key].StringValue? then Some(m[key].s) else None
  }

  /** `object(forKey:) as? Date`. */
  function DateFor(m: Entries, key: string): Option<int> {
    if key in m && m[key].DateValue? then Some(m[key].seconds) else None
  }

  /** `data(forKey:)`. */
  function DataFor(m: Entries, key: string): Option<Json> {
    if key in m && m[key].DataValue? then Some(m[key].doc) else None
  }

  /** Every typed read gives back what was stored under that key with the matching type. */
  lemma ReadsAfterWrite(m: Entries, key: string, i: int, b: bool, s: string, t: int, d: Json)
    ensures IntegerFor(m[key := IntValue(i)], key) == i
    ensures BoolFor(m[key := BoolValue(b)], key) == b
    ensures StringFor(m[key := StringValue(s)], key) == Some(s)
    ensures DateFor(m[key := DateValue(t)], key) == Some(t)
    ensures DataFor(m[key := DataValue(d)], key) == Some(d)
  {
  }

  /** A key that was removed reads as absent, whatever its type. */
  lemma ReadsAfterRemove(m: Entries, keys: set<string>, key: string)
    requires key in keys
    ensures !Has(m - keys, key)
    ensures IntegerFor(m - keys, key) == 0 && !BoolFor(m - keys, key)
    ensures StringFor(m - keys, key) == None && DateFor(m - keys, key) == None
    ensures DataFor(m - keys, key) == None
  {
  }
}
