/**
 * The JSON data model that serde_json produces and consumes, and the small
 * set of decoding rules that serde's derived (de)serializers apply to each
 * field: a required field, a field with a container default, an Option,
 * a Vec, a string-keyed map.  Objects are maps, so key order and duplicate
 * keys are outside the model.
 */
module SerdeJson {
  import opened Wrappers

  datatype Json =
    | Null
    | Bool(b: bool)
    | Number(n: int)
    | Str(s: string)
    | Array(items: seq<Json>)
    | Object(fields: map<string, Json>)

  type Fields = map<string, Json>

  /** The errors serde reports while decoding, one kind per cause. */
  datatype DecodeError =
    | InvalidType(expected: string)
    | MissingField(field: string)
    | UnknownVariant(variant: string)
    | OutOfRange(value: int)
    | NoVariantMatched

  type Decoded<T> = Result<T, DecodeError>

  /** How a type whose definition lies outside this model is written and read. */
  datatype Codec<!T> = Codec(encode: T -> Json, decode: Json -> Decoded<T>, default: T)

  /**
   * What the model relies on for such a type: it is a struct, so it is
   * written as a JSON object, and reading back what was written gives the
   * value that was written.
   */
  ghost predicate Lawful<T(!new)>(c: Codec<T>) {
    forall x :: c.encode(x).Object? && c.decode(c.encode(x)) == Ok(x)
  }

  // ---- primitives ----

  function EncodeString(s: string): Json { Str(s) }

  function DecodeString(j: Json): (r: Decoded<string>)
    ensures r.Ok? <==> j.Str?
    ensures r.Ok? ==> Str(r.value) == j
  {
    if j.Str? then Ok(j.s) else Err(InvalidType("a string"))
  }

  function EncodeBool(b: bool): Json { Bool(b) }

  function DecodeBool(j: Json): (r: Decoded<bool>)
    ensures r.Ok? <==> j.Bool?
    ensures r.Ok? ==> Bool(r.value) == j
  {
    if j.Bool? then Ok(j.b) else Err(InvalidType("a boolean"))
  }

  /** Rust's i32. */
  const I32Min: int := -0x8000_0000
  const I32Max: int := 0x7fff_ffff
  type I32 = n: int | I32Min <= n <= I32Max

  function EncodeI32(n: I32): Json { Number(n) }

  /** A JSON integer is read as an i32 only when it fits in 32 bits. */
  function DecodeI32(j: Json): (r: Decoded<I32>)
    ensures r.Ok? <==> j.Number? && I32Min <= j.n <= I32Max
    ensures r.Ok? ==> Number(r.value) == j
  {
    if !j.Number? then Err(InvalidType("i32"))
    else if I32Min <= j.n <= I32Max then Ok(j.n)
    else Err(OutOfRange(j.n))
  }

  /** serde_json::Value is any JSON value, read as it stands. */
  function DecodeValue(j: Json): (r: Decoded<Json>)
    ensures r == Ok(j)
  {
    Ok(j)
  }

  /** serde_json::Map<String, Value>: any JSON object. */
  function DecodeFields(j: Json): (r: Decoded<Fields>)
    ensures r.Ok? <==> j.Object?
    ensures r.Ok? ==> Object(r.value) == j
  {
    if j.Object? then Ok(j.fields) else Err(InvalidType("a map"))
  }

  // ---- Option<T>: None is written as null ----

  function EncodeOption<T>(enc: T -> Json, o: Option<T>): Json {
    match o
    case None => Null
    case Some(x) => enc(x)
  }

  function DecodeOption<T>(dec: Json -> Decoded<T>, j: Json): (r: Decoded<Option<T>>)
    ensures j == Null ==> r == Ok(None)
    ensures j != Null ==> (r.Ok? <==> dec(j).Ok?)
    ensures j != Null && dec(j).Ok? ==> r == Ok(Some(dec(j).value))
  {
    if j == Null then Ok(None)
    else
      var x :- dec(j);
      Ok(Some(x))
  }

  lemma OptionRoundTrip<T>(enc: T -> Json, dec: Json -> Decoded<T>, o: Option<T>)
    requires o.Some? ==> enc(o.value) != Null && dec(enc(o.value)) == Ok(o.value)
    ensures DecodeOption(dec, EncodeOption(enc, o)) == Ok(o)
  {
  }

  // ---- Vec<T>: a JSON array, elements in order ----

  function EncodeItems<T>(enc: T -> Json, xs: seq<T>): (r: seq<Json>)
    ensures |r| == |xs|
    ensures forall i :: 0 <= i < |xs| ==> r[i] == enc(xs[i])
  {
    if xs == [] then [] else [enc(xs[0])] + EncodeItems(enc, xs[1..])
  }

  function EncodeSeq<T>(enc: T -> Json, xs: seq<T>): Json {
    Array(EncodeItems(enc, xs))
  }

  /** Elements are read front to back; the first one that fails fails the whole array. */
  function DecodeItems<T>(dec: Json -> Decoded<T>, items: seq<Json>): (r: Decoded<seq<T>>)
    ensures r.Ok? <==> forall i :: 0 <= i < |items| ==> dec(items[i]).Ok?
    ensures r.Ok? ==> |r.value| == |items| && forall i :: 0 <= i < |items| ==> dec(items[i]) == Ok(r.value[i])
  {
    if items == [] then Ok([])
    else
      var x :- dec(items[0]);
      var rest :- DecodeItems(dec, items[1..]);
      Ok([x] + rest)
  }

  function DecodeSeq<T>(dec: Json -> Decoded<T>, j: Json): (r: Decoded<seq<T>>)
    ensures !j.Array? ==> r.Err?
    ensures j.Array? ==> r == DecodeItems(dec, j.items)
    ensures r.Ok? ==> j.Array? && |r.value| == |j.items|
  {
    if j.Array? then DecodeItems(dec, j.items) else Err(InvalidType("a sequence"))
  }

  lemma {:induction false} ItemsRoundTrip<T>(enc: T -> Json, dec: Json -> Decoded<T>, xs: seq<T>)
    requires forall i :: 0 <= i < |xs| ==> dec(enc(xs[i])) == Ok(xs[i])
    ensures DecodeItems(dec, EncodeItems(enc, xs)) == Ok(xs)
  {
    if xs != [] {
      ItemsRoundTrip(enc, dec, xs[1..]);
      assert [xs[0]] + xs[1..] == xs;
    }
  }

  lemma SeqRoundTrip<T>(enc: T -> Json, dec: Json -> Decoded<T>, xs: seq<T>)
    requires forall i :: 0 <= i < |xs| ==> dec(enc(xs[i])) == Ok(xs[i])
    ensures DecodeSeq(dec, EncodeSeq(enc, xs)) == Ok(xs)
  {
    ItemsRoundTrip(enc, dec, xs);
  }

  // ---- HashMap<String, String>: an object whose values are all strings ----

  function EncodeStringMap(m: map<string, string>): Json {
    Object(map k | k in m :: Str(m[k]))
  }

  function DecodeStringMap(j: Json): (r: Decoded<map<string, string>>)
    ensures r.Ok? <==> j.Object? && forall k :: k in j.fields ==> j.fields[k].Str?
    ensures r.Ok? ==> r.value.Keys == j.fields.Keys && forall k :: k in r.value ==> Str(r.value[k]) == j.fields[k]
  {
    if j.Object? && forall k :: k in j.fields ==> j.fields[k].Str? then
      Ok(map k | k in j.fields :: j.fields[k].s)
    else
      Err(InvalidType("a map of strings"))
  }

  lemma StringMapRoundTrip(m: map<string, string>)
    ensures DecodeStringMap(EncodeStringMap(m)) == Ok(m)
  {
    var j := EncodeStringMap(m);
    assert j.fields.Keys == m.Keys;
    assert forall k :: k in j.fields ==> j.fields[k] == Str(m[k]);
    var back := map k | k in j.fields :: j.fields[k].s;
    assert back == m;
  }

  // ---- struct fields ----

  /** A field of a `#[serde(default)]` struct: a missing key takes the default. */
  function Field<T>(o: Fields, key: string, dec: Json -> Decoded<T>, default: T): (r: Decoded<T>)
    ensures key !in o ==> r == Ok(default)
    ensures key in o ==> r == dec(o[key])
  {
    if key in o then dec(o[key]) else Ok(default)
  }

  /** A field of a struct with no default: a missing key is an error. */
  function Required<T>(o: Fields, key: string, dec: Json -> Decoded<T>): (r: Decoded<T>)
    ensures key !in o ==> r == Err(MissingField(key))
    ensures key in o ==> r == dec(o[key])
  {
    if key in o then dec(o[key]) else Err(MissingField(key))
  }

  /** An Option<T> field: a missing key or null reads as None. */
  function Optional<T>(o: Fields, key: string, dec: Json -> Decoded<T>): (r: Decoded<Option<T>>)
    ensures key !in o ==> r == Ok(None)
    ensures key in o && o[key] == Null ==> r == Ok(None)
    ensures key in o ==> r == DecodeOption(dec, o[key])
  {
    if key in o then DecodeOption(dec, o[key]) else Ok(None)
  }

  /** A Vec<T> field of a `#[serde(default)]` struct: a missing key reads as empty. */
  function SeqField<T>(o: Fields, key: string, dec: Json -> Decoded<T>): (r: Decoded<seq<T>>)
    ensures key !in o ==> r == Ok([])
    ensures key in o ==> r == DecodeSeq(dec, o[key])
  {
    if key in o then DecodeSeq(dec, o[key]) else Ok([])
  }

  /** An `Option<T>` field written by `EncodeOption` reads back as written. */
  lemma OptionalRoundTrip<T>(o: Fields, key: string, enc: T -> Json, dec: Json -> Decoded<T>, v: Option<T>)
    requires key in o && o[key] == EncodeOption(enc, v)
    requires v.Some? ==> enc(v.value) != Null && dec(enc(v.value)) == Ok(v.value)
    ensures Optional(o, key, dec) == Ok(v)
  {
    OptionRoundTrip(enc, dec, v);
  }

  /** A field written as `enc(v)`, for a decoder that reads `enc(v)` back, reads back as `v`. */
  lemma FieldRoundTrip<T>(o: Fields, key: string, enc: T -> Json, dec: Json -> Decoded<T>, default: T, v: T)
    requires key in o && o[key] == enc(v) && dec(enc(v)) == Ok(v)
    ensures Field(o, key, dec, default) == Ok(v)
  {
  }

  /** A `Vec` field written by `EncodeSeq` reads back as written. */
  lemma SeqFieldRoundTrip<T>(o: Fields, key: string, enc: T -> Json, dec: Json -> Decoded<T>, xs: seq<T>)
    requires key in o && o[key] == EncodeSeq(enc, xs)
    requires forall i :: 0 <= i < |xs| ==> dec(enc(xs[i])) == Ok(xs[i])
    ensures SeqField(o, key, dec) == Ok(xs)
  {
    SeqRoundTrip(enc, dec, xs);
  }
}
