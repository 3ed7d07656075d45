/** Untyped request payloads, errors and results, as the project store sees them.

    A request body reaches the store as a Go `map[string]interface{}`, and
    `Fields` is that map. `Value` keeps apart only what the store keeps apart:
    `nil`, objects, and every other value (JSON booleans and numbers have no
    constructor of their own; the store never looks inside them). Nested-key
    writes follow norman's `values.PutValue`. */
module Values {

  datatype Option<+T> = None | Some(value: T)

  /** One payload value. `Null` is Go's `nil`; `Json(doc)` is a string that
      holds the JSON encoding of `doc` (its bytes are not modelled). */
  datatype Value =
    | Null
    | Str(s: string)
    | List(items: seq<Value>)
    | Object(fields: map<string, Value>)
    | Json(doc: Value)

  type Fields = map<string, Value>

  /** The httperror codes this store raises. */
  datatype ErrorKind = MissingRequired | MaxLimitExceeded | MethodNotAllowed

  datatype Error =
    | ApiError(kind: ErrorKind, field: string, message: string)  // httperror.NewFieldAPIError / NewAPIError
    | NotFound(name: string)                                     // a lister miss
    | Opaque(cause: string)                                      // any other collaborator error, passed through

  datatype Result<+T> = Ok(value: T) | Err(error: Error)

  /** A Go function returning only `error`: `Pass` is `nil`. */
  datatype Outcome = Pass | Fail(error: Error)

  /** `data[key]` in Go: a missing key reads as `nil`. */
  function Lookup(data: Fields, key: string): Value
  {
    if key in data then data[key] else Null
  }

  /** The key is there and its value is not `nil`. */
  predicate Present(data: Fields, key: string)
  {
    key in data && data[key] != Null
  }

  /** The value at a path of nested object keys, if every step exists. */
  function ValueAt(data: Fields, keys: seq<string>): Option<Value>
    decreases |keys|
  {
    if |keys| == 0 || keys[0] !in data then None
    else if |keys| == 1 then Some(data[keys[0]])
    else match data[keys[0]]
      case Object(inner) => ValueAt(inner, keys[1..])
      case _ => None
  }

  /** Every intermediate step of the path is missing or an object, so a
      write along it reaches the last key. */
  predicate Writable(data: Fields, keys: seq<string>)
    decreases |keys|
  {
    |keys| <= 1 || keys[0] !in data ||
    (data[keys[0]].Object? && Writable(data[keys[0]].fields, keys[1..]))
  }

  /** norman's `values.PutValue(data, val, keys...)`: walks the keys,
      creating a fresh object where an intermediate key is missing, gives up
      silently where an intermediate value is not an object, and stores `val`
      under the last key. */
  function PutValue(data: Fields, val: Value, keys: seq<string>): (r: Fields)
    ensures |keys| == 0 ==> r == data
    ensures |keys| > 0 ==> r.Keys == data.Keys || r.Keys == data.Keys + {keys[0]}
    ensures forall k :: k in data && (|keys| == 0 || k != keys[0]) ==> k in r && r[k] == data[k]
    decreases |keys|
  {
    if |keys| == 0 then data
    else if |keys| == 1 then data[keys[0] := val]
    else if keys[0] !in data then data[keys[0] := Object(PutValue(map[], val, keys[1..]))]
    else match data[keys[0]]
      case Object(inner) => data[keys[0] := Object(PutValue(inner, val, keys[1..]))]
      case _ => data
  }

  /** A write along a writable path can be read back from that path. */
  lemma {:induction false} PutValueThenValueAt(data: Fields, val: Value, keys: seq<string>)
    requires |keys| > 0 && Writable(data, keys)
    ensures ValueAt(PutValue(data, val, keys), keys) == Some(val)
    decreases |keys|
  {
    if |keys| > 1 {
      var inner := if keys[0] in data then data[keys[0]].fields else map[];
      PutValueThenValueAt(inner, val, keys[1..]);
    }
  }

  /** A write keeps every entry that lies beside its path: a path that agrees
      with the written one up to its last step and then turns to another key
      reads the same before and after. */
  lemma {:induction false} PutValueKeepsSiblings(data: Fields, val: Value, keys: seq<string>, other: seq<string>)
    requires |keys| > 0 && 0 < |other| <= |keys|
    requires other[..|other| - 1] == keys[..|other| - 1] && other[|other| - 1] != keys[|other| - 1]
    requires ValueAt(data, other).Some?
    ensures ValueAt(PutValue(data, val, keys), other) == ValueAt(data, other)
    decreases |keys|
  {
    if |other| > 1 {
      assert other[0] == keys[0];
      var inner := data[keys[0]].fields;
      assert other[1..][..|other| - 2] == keys[1..][..|other| - 2];
      PutValueKeepsSiblings(inner, val, keys[1..], other[1..]);
    }
  }

  /** A write along a path that is blocked by a non-object changes nothing. */
  lemma {:induction false} PutValueBlocked(data: Fields, val: Value, keys: seq<string>)
    requires !Writable(data, keys)
    ensures PutValue(data, val, keys) == data
    decreases |keys|
  {
    if !data[keys[0]].Object? {
    } else {
      PutValueBlocked(data[keys[0]].fields, val, keys[1..]);
      assert data[keys[0] := data[keys[0]]] == data;
    }
  }
}
