/** The values Go's encoding/json produces when it decodes into an `interface{}`:
    the six kinds of value of RFC 8259 section 3. Go's `nil` interface value and the
    JSON literal null are the same value there, so `Null` also stands for "absent".
    Objects are maps, so two objects are equal whatever the order of their keys. */
module JsonValue {
  import opened Wrappers

  datatype Json =
    | Null
    | Bool(b: bool)
    | Number(n: int)
    | String(s: string)
    | Array(items: seq<Json>)
    | Object(fields: map<string, Json>)

  /** A sequence of object keys, read from the root down. */
  type Path = seq<string>

  /** What json.Unmarshal yields: a value, or a syntax error with its reason. */
  datatype Decoded = Parsed(value: Json) | Malformed(reason: string)

  /** json.Unmarshal, taken as an opaque partial function of the input text. */
  type Decoder = string -> Decoded

  /** The value reached from `v` by following `keys`, stepping only through objects
      that hold the next key; None as soon as a step is not such an object. */
  function Lookup(v: Json, keys: Path): Option<Json>
    decreases |keys|
  {
    if keys == [] then Some(v)
    else if v.Object? && keys[0] in v.fields then Lookup(v.fields[keys[0]], keys[1..])
    else None
  }

  /** `v` with the value at `keys` replaced by `x`; every object on the way keeps its
      other entries. */
  function PutAt(v: Json, keys: Path, x: Json): (r: Json)
    requires Lookup(v, keys).Some?
    ensures Lookup(r, keys) == Some(x)
    ensures keys != [] ==> r.Object? && r.fields.Keys == v.fields.Keys
    decreases |keys|
  {
    if keys == [] then x
    else Object(v.fields[keys[0] := PutAt(v.fields[keys[0]], keys[1..], x)])
  }

  /** Writing at one path leaves every path that is neither a prefix nor an extension
      of it exactly as it was. */
  lemma {:induction false} PutAtKeepsOtherPaths(v: Json, keys: Path, x: Json, p: Path)
    requires Lookup(v, keys).Some?
    requires !(p <= keys) && !(keys <= p)
    ensures Lookup(PutAt(v, keys, x), p) == Lookup(v, p)
    decreases |keys|
  {
    var r := PutAt(v, keys, x);
    assert keys != [] && p != [];
    if p[0] == keys[0] {
      PutAtKeepsOtherPaths(v.fields[keys[0]], keys[1..], x, p[1..]);
    }
  }

  /** Every object on the way to the written path is still an object with the same keys. */
  lemma {:induction false} PutAtKeepsShape(v: Json, keys: Path, x: Json, p: Path)
    requires Lookup(v, keys).Some?
    requires p < keys
    ensures Lookup(v, p).Some? && Lookup(v, p).value.Object?
    ensures Lookup(PutAt(v, keys, x), p).Some? && Lookup(PutAt(v, keys, x), p).value.Object?
    ensures Lookup(PutAt(v, keys, x), p).value.fields.Keys == Lookup(v, p).value.fields.Keys
    decreases |keys|
  {
    if p != [] {
      assert p[1..] < keys[1..] by { assert p[0] == keys[0]; }
      PutAtKeepsShape(v.fields[keys[0]], keys[1..], x, p[1..]);
    }
  }

  /** Writing back the value already stored changes nothing. */
  lemma {:induction false} PutAtSame(v: Json, keys: Path, x: Json)
    requires Lookup(v, keys) == Some(x)
    ensures PutAt(v, keys, x) == v
    decreases |keys|
  {
    if keys != [] {
      PutAtSame(v.fields[keys[0]], keys[1..], x);
    }
  }

  /** A second write at the same path overrides the first. */
  lemma {:induction false} PutAtTwice(v: Json, keys: Path, x: Json, y: Json)
    requires Lookup(v, keys).Some?
    ensures PutAt(PutAt(v, keys, x), keys, y) == PutAt(v, keys, y)
    decreases |keys|
  {
    if keys != [] {
      PutAtTwice(v.fields[keys[0]], keys[1..], x, y);
    }
  }
}
