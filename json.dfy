/**
 * The JavaScript values a parsed request body or a database row can hold, as far as the
 * validator and the CSV writer look at them: primitives, plain objects with their keys in
 * insertion order, and Date objects. Numbers are integers here.
 */
module Json {
  import opened Common

  datatype Value =
    | Undefined
    | Null
    | Bool(b: bool)
    | Num(n: int)
    | Str(s: string)
    | Obj(fields: seq<Entry>)  // a plain object; `fields` in the order `Object.keys` lists them
    | Instant(ms: int)         // a valid Date object, by its time value in milliseconds

  datatype Entry = Entry(key: string, value: Value)

  /** `typeof v`: "object" for `null` as well as for objects and Dates. */
  function TypeOf(v: Value): (t: string)
    ensures t == "object" <==> v.Null? || IsObject(v)
  {
    match v
    case Undefined => "undefined"
    case Null => "object"
    case Bool(_) => "boolean"
    case Num(_) => "number"
    case Str(_) => "string"
    case Obj(_) => "object"
    case Instant(_) => "object"
  }

  /** `v instanceof Object`: plain objects and Dates, not `null` and no primitive. */
  predicate IsObject(v: Value)
  {
    v.Obj? || v.Instant?
  }

  /** The position of the first entry named `key`, if any. */
  function KeyIndex(fields: seq<Entry>, key: string): (r: Option<nat>)
    ensures r.Some? ==> r.value < |fields| && fields[r.value].key == key
    ensures r.Some? ==> forall i :: 0 <= i < r.value ==> fields[i].key != key
    ensures r.None? ==> forall i :: 0 <= i < |fields| ==> fields[i].key != key
  {
    if fields == [] then None
    else if fields[0].key == key then Some(0)
    else match KeyIndex(fields[1..], key)
      case None => None
      case Some(i) => Some(i + 1)
  }

  /** `key in obj` (own keys only). */
  predicate Has(fields: seq<Entry>, key: string)
  {
    KeyIndex(fields, key).Some?
  }

  /** `obj[key]`: `undefined` for a key the object does not hold. */
  function Get(fields: seq<Entry>, key: string): Value
  {
    match KeyIndex(fields, key)
    case Some(i) => fields[i].value
    case None => Undefined
  }

  /**
   * `obj[key] = v`: an existing key keeps its place and takes the new value, a new key goes
   * at the end. Every other key keeps its value.
   */
  function Set(fields: seq<Entry>, key: string, v: Value): (r: seq<Entry>)
    ensures Has(r, key) && Get(r, key) == v
    ensures forall k :: k != key ==> (Has(r, k) <==> Has(fields, k)) && Get(r, k) == Get(fields, k)
    ensures Has(fields, key) ==> r == fields[KeyIndex(fields, key).value := Entry(key, v)]
    ensures Has(fields, key) ==> KeyIndex(r, key) == KeyIndex(fields, key)
    ensures !Has(fields, key) ==> r == fields + [Entry(key, v)]
  {
    match KeyIndex(fields, key)
    case Some(i) =>
      var r := fields[i := Entry(key, v)];
      assert forall k :: k != key ==> KeyIndex(r, k) == KeyIndex(fields, k) by {
        forall k | k != key ensures KeyIndex(r, k) == KeyIndex(fields, k) {
          KeyIndexUnderUpdate(fields, i, key, v, k);
        }
      }
      KeyIndexUnderUpdate(fields, i, key, v, key);
      r
    case None =>
      var r := fields + [Entry(key, v)];
      assert forall k :: k != key ==> KeyIndex(r, k) == KeyIndex(fields, k) by {
        forall k | k != key ensures KeyIndex(r, k) == KeyIndex(fields, k) {
          KeyIndexAppend(fields, Entry(key, v), k);
        }
      }
      KeyIndexAppend(fields, Entry(key, v), key);
      r
  }

  lemma {:induction false} KeyIndexUnderUpdate(fields: seq<Entry>, i: nat, key: string, v: Value, k: string)
    requires KeyIndex(fields, key) == Some(i)
    ensures KeyIndex(fields[i := Entry(key, v)], k) == KeyIndex(fields, k)
    decreases fields
  {
    var r := fields[i := Entry(key, v)];
    if i > 0 {
      assert r[1..] == fields[1..][i - 1 := Entry(key, v)];
      KeyIndexUnderUpdate(fields[1..], i - 1, key, v, k);
    }
  }

  lemma {:induction false} KeyIndexAppend(fields: seq<Entry>, e: Entry, k: string)
    ensures KeyIndex(fields + [e], k) ==
      match KeyIndex(fields, k)
      case Some(i) => Some(i)
      case None => if e.key == k then Some(|fields|) else None
    decreases fields
  {
    if fields != [] {
      assert (fields + [e])[1..] == fields[1..] + [e];
      KeyIndexAppend(fields[1..], e, k);
    }
  }

  /** `String(v)` inside a template literal, for every value but a Date. */
  function ValueText(v: Value): (t: string)
    requires !v.Instant?
    ensures !v.Str? ==> t != ""
  {
    match v
    case Undefined => "undefined"
    case Null => "null"
    case Bool(b) => if b then "true" else "false"
    case Num(n) => IntText(n)
    case Str(s) => s
    case Obj(_) => "[object Object]"
  }
}
