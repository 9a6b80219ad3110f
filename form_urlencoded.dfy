/**
 * The form-urlencoded body editor of the web client.  The stored body is
 * untyped JSON-like data; its `form` entry is normalised into the editor's
 * pairs, and the editor's pairs are written back as `{form: [...]}`.  Values
 * follow JavaScript's rules: a missing property reads as `undefined`,
 * reading a property of `null` or `undefined` throws, and `!!` and `||` test
 * truthiness.  Numbers are integers here; NaN is not modelled.
 */
module FormUrlencoded {
  import opened Wrappers

  datatype JsValue =
    | Undefined
    | Null
    | Bool(b: bool)
    | Num(n: int)
    | Str(s: string)
    | Array(items: seq<JsValue>)
    | Object(fields: map<string, JsValue>)

  /** JavaScript truthiness: `undefined`, `null`, `false`, `0` and `""` are falsy. */
  predicate Truthy(v: JsValue) {
    match v
    case Undefined => false
    case Null => false
    case Bool(b) => b
    case Num(n) => n != 0
    case Str(s) => s != ""
    case Array(_) => true
    case Object(_) => true
  }

  /** `v.key` for a value that is neither `null` nor `undefined`. */
  function Property(v: JsValue, key: string): (r: JsValue)
    requires !v.Undefined? && !v.Null?
    ensures !v.Object? ==> r == Undefined
    ensures v.Object? && key !in v.fields ==> r == Undefined
    ensures v.Object? && key in v.fields ==> r == v.fields[key]
  {
    if v.Object? && key in v.fields then v.fields[key] else Undefined
  }

  /** `a || b`: `a` when truthy, otherwise `b`. */
  function Or(a: JsValue, b: JsValue): (r: JsValue)
    ensures Truthy(a) ==> r == a
    ensures !Truthy(a) ==> r == b
  {
    if Truthy(a) then a else b
  }

  /** A row of the pair editor. */
  datatype Pair = Pair(enabled: bool, name: JsValue, value: JsValue, id: JsValue)

  /** One stored entry as a pair: `enabled` made boolean, `name` and `value` defaulted to "", `id` kept. */
  function NormalisePair(p: JsValue): (r: Option<Pair>)
    ensures r.None? <==> p.Undefined? || p.Null?
    ensures r.Some? ==> r.value.enabled == Truthy(Property(p, "enabled")) && r.value.id == Property(p, "id")
    ensures r.Some? ==> r.value.name == Or(Property(p, "name"), Str("")) && r.value.value == Or(Property(p, "value"), Str(""))
  {
    if p.Undefined? || p.Null? then None
    else Some(Pair(Truthy(Property(p, "enabled")), Or(Property(p, "name"), Str("")), Or(Property(p, "value"), Str("")), Property(p, "id")))
  }

  /** The entries of a stored array, in order; `None` when reading one of them throws. */
  function NormaliseItems(items: seq<JsValue>): (r: Option<seq<Pair>>)
    ensures r.Some? <==> forall i :: 0 <= i < |items| ==> NormalisePair(items[i]).Some?
    ensures r.Some? ==> |r.value| == |items|
    ensures r.Some? ==> forall i :: 0 <= i < |items| ==> NormalisePair(items[i]) == Some(r.value[i])
  {
    if items == [] then Some([])
    else
      match NormalisePair(items[0])
      case None => None
      case Some(p) =>
        match NormaliseItems(items[1..])
        case None => None
        case Some(rest) => Some([p] + rest)
  }

  /** The editor's pairs for a stored `form`: none unless it is an array. */
  function Pairs(form: JsValue): (r: Option<seq<Pair>>)
    ensures !form.Array? ==> r == Some([])
    ensures form.Array? ==> r == NormaliseItems(form.items)
  {
    if form.Array? then NormaliseItems(form.items) else Some([])
  }

  /** A pair as it is stored: `enabled`, `name` and `value`, and no `id`. */
  function StoredPair(p: Pair): (r: JsValue)
    ensures r.Object? && r.fields.Keys == {"enabled", "name", "value"}
    ensures r.fields["enabled"] == Bool(p.enabled) && r.fields["name"] == p.name && r.fields["value"] == p.value
  {
    Object(map["enabled" := Bool(p.enabled), "name" := p.name, "value" := p.value])
  }

  function StoredPairs(ps: seq<Pair>): (r: seq<JsValue>)
    ensures |r| == |ps|
    ensures forall i :: 0 <= i < |ps| ==> r[i] == StoredPair(ps[i])
  {
    if ps == [] then [] else [StoredPair(ps[0])] + StoredPairs(ps[1..])
  }

  /** What the editor reports on a change: the body `{form: [...]}`. */
  function HandleChange(ps: seq<Pair>): (r: JsValue)
    ensures r.Object? && r.fields.Keys == {"form"}
    ensures r.fields["form"].Array? && r.fields["form"].items == StoredPairs(ps)
  {
    Object(map["form" := Array(StoredPairs(ps))])
  }

  /** A pair with its `id` dropped, as it comes back after being stored. */
  function WithoutId(p: Pair): Pair {
    p.(id := Undefined)
  }

  /** The pairs the editor produces: `name` and `value` are strings. */
  predicate TextPair(p: Pair) {
    p.name.Str? && p.value.Str?
  }

  /** A pair the editor stored reads back as itself, less its `id`. */
  lemma StoredPairRead(p: Pair)
    requires TextPair(p)
    ensures NormalisePair(StoredPair(p)) == Some(WithoutId(p))
  {
  }

  /**
   * Normalising what the editor stored gives back every pair's `enabled`,
   * `name` and `value`, in order; only the `id` is lost.
   */
  lemma StoredPairsRoundTrip(ps: seq<Pair>)
    requires forall i :: 0 <= i < |ps| ==> TextPair(ps[i])
    ensures NormaliseItems(StoredPairs(ps)).Some?
    ensures |NormaliseItems(StoredPairs(ps)).value| == |ps|
    ensures forall i :: 0 <= i < |ps| ==> NormaliseItems(StoredPairs(ps)).value[i] == WithoutId(ps[i])
  {
    var s := StoredPairs(ps);
    forall i | 0 <= i < |ps|
      ensures NormalisePair(s[i]) == Some(WithoutId(ps[i]))
    {
      StoredPairRead(ps[i]);
    }
  }

  /** The body the editor emits normalises back to its pairs, less their ids. */
  lemma FormRoundTrip(ps: seq<Pair>)
    requires forall i :: 0 <= i < |ps| ==> TextPair(ps[i])
    ensures Pairs(HandleChange(ps).fields["form"]).Some?
    ensures |Pairs(HandleChange(ps).fields["form"]).value| == |ps|
    ensures forall i :: 0 <= i < |ps| ==> Pairs(HandleChange(ps).fields["form"]).value[i] == WithoutId(ps[i])
  {
    StoredPairsRoundTrip(ps);
  }

  /** Normalised pairs always have a truthy or empty `name` and `value`. */
  lemma NormalisedNames(form: JsValue, i: nat)
    requires Pairs(form).Some? && i < |Pairs(form).value|
    ensures Truthy(Pairs(form).value[i].name) || Pairs(form).value[i].name == Str("")
    ensures Truthy(Pairs(form).value[i].value) || Pairs(form).value[i].value == Str("")
  {
    assert form.Array?;
    assert NormalisePair(form.items[i]) == Some(Pairs(form).value[i]);
  }
}
