/**
 * JSON values as serde_json holds them, the accessors the event decoder
 * calls on them (`value["k"]`, `get`, `as_str`, `as_i64`, `as_bool`,
 * `as_array`, `as_object`), and what serde's derived deserialisers accept
 * for the field types the client uses.
 *
 * A number is either an integer (`JInt`) or a number written with a
 * fraction or an exponent (`JReal`); objects are maps from key to value.
 */
module Json {

  import opened Wrappers
  import opened Ints

  datatype Json =
    | JNull
    | JBool(b: bool)
    | JInt(i: int)
    | JReal(r: real)
    | JString(s: string)
    | JArray(items: seq<Json>)
    | JObject(fields: map<string, Json>)

  /** `value[key]`: the member, or `Null` when the value is no object or has no such member. */
  function Index(v: Json, key: string): (r: Json)
    ensures v.JObject? && key in v.fields ==> r == v.fields[key]
    ensures !(v.JObject? && key in v.fields) ==> r == JNull
  {
    if v.JObject? && key in v.fields then v.fields[key] else JNull
  }

  /** `value.get(key)`: `None` when the value is no object or has no such member. */
  function Get(v: Json, key: string): (r: Option<Json>)
    ensures r.Some? <==> v.JObject? && key in v.fields
    ensures r.Some? ==> r.value == v.fields[key]
  {
    if v.JObject? && key in v.fields then Some(v.fields[key]) else None
  }

  function AsStr(v: Json): Option<string>
  {
    if v.JString? then Some(v.s) else None
  }

  function AsBool(v: Json): Option<bool>
  {
    if v.JBool? then Some(v.b) else None
  }

  /** `as_i64`: an integer that fits in 64 signed bits. */
  function AsI64(v: Json): (r: Option<int>)
    ensures r.Some? ==> IsI64(r.value)
  {
    if v.JInt? && IsI64(v.i) then Some(v.i) else None
  }

  function AsArray(v: Json): Option<seq<Json>>
  {
    if v.JArray? then Some(v.items) else None
  }

  function AsObject(v: Json): Option<map<string, Json>>
  {
    if v.JObject? then Some(v.fields) else None
  }

  /** `as_i64().unwrap() as i32`: `None` stands for the panic of `unwrap`. */
  function I64AsI32(v: Json): (r: Option<int>)
    ensures r.Some? ==> IsI32(r.value)
    ensures v.JInt? && IsI32(v.i) ==> r == Some(v.i)
  {
    match AsI64(v)
    case Some(i) => Some(AsI32(i))
    case None => None
  }

  // What serde's derived deserialisers accept; `None` is a deserialisation error.

  /** A struct field: an absent member reads as `null`, which only `Option` fields accept. */
  function Member(fields: map<string, Json>, key: string): Json
  {
    if key in fields then fields[key] else JNull
  }

  function DeString(v: Json): Option<string>
  {
    AsStr(v)
  }

  function DeBool(v: Json): Option<bool>
  {
    AsBool(v)
  }

  /** An `i32` is an integer in range; serde refuses, rather than wraps, anything else. */
  function DeI32(v: Json): (r: Option<int>)
    ensures r.Some? <==> v.JInt? && IsI32(v.i)
  {
    if v.JInt? && IsI32(v.i) then Some(v.i) else None
  }

  /** An `Option<String>`: `null` is `None`, a string is `Some`. */
  function DeOptString(v: Json): Option<Option<string>>
  {
    match v
    case JNull => Some(None)
    case JString(s) => Some(Some(s))
    case _ => None
  }

  /** An `Option<char>`: `null` is `None`, a string of exactly one character is `Some`. */
  function DeOptChar(v: Json): Option<Option<char>>
  {
    match v
    case JNull => Some(None)
    case JString(s) => if |s| == 1 then Some(Some(s[0])) else None
    case _ => None
  }

  /** An `Option<f32>`: `null` is `None`, any number is `Some` (rounding to f32 is not modelled). */
  function DeOptReal(v: Json): Option<Option<real>>
  {
    match v
    case JNull => Some(None)
    case JInt(i) => Some(Some(i as real))
    case JReal(r) => Some(Some(r))
    case _ => None
  }

  /** A `Vec<T>`: an array whose every item deserialises. */
  function DeSeq<T>(items: seq<Json>, de: Json -> Option<T>): (r: Option<seq<T>>)
    ensures r.Some? ==> |r.value| == |items| && forall i | 0 <= i < |items| :: de(items[i]) == Some(r.value[i])
    ensures r.None? ==> exists i | 0 <= i < |items| :: de(items[i]).None?
    decreases |items|
  {
    if items == [] then Some([])
    else match (de(items[0]), DeSeq(items[1..], de))
      case (Some(x), Some(xs)) =>
        assert forall i | 1 <= i < |items| :: items[i] == items[1..][i - 1];
        Some([x] + xs)
      case (None, _) => None
      case (_, None) =>
        var i :| 0 <= i < |items[1..]| && de(items[1..][i]).None?;
        assert de(items[i + 1]).None?;
        None
  }

  function DeVec<T>(v: Json, de: Json -> Option<T>): Option<seq<T>>
  {
    match v
    case JArray(items) => DeSeq(items, de)
    case _ => None
  }

  function DeStrings(v: Json): Option<seq<string>>
  {
    DeVec(v, DeString)
  }

  // What serde's serialisers write for the same types.

  function SerOptString(o: Option<string>): Json
  {
    match o
    case Some(s) => JString(s)
    case None => JNull
  }

  function SerOptChar(o: Option<char>): Json
  {
    match o
    case Some(c) => JString([c])
    case None => JNull
  }

  function SerOptReal(o: Option<real>): Json
  {
    match o
    case Some(r) => JReal(r)
    case None => JNull
  }

  function SerStrings(xs: seq<string>): Json
  {
    JArray(seq(|xs|, i requires 0 <= i < |xs| => JString(xs[i])))
  }

  /** Each scalar serialiser is undone by the matching deserialiser. */
  lemma ScalarRoundTrips(o: Option<string>, c: Option<char>, f: Option<real>, s: string, b: bool, i: int)
    ensures DeOptString(SerOptString(o)) == Some(o)
    ensures DeOptChar(SerOptChar(c)) == Some(c)
    ensures DeOptReal(SerOptReal(f)) == Some(f)
    ensures DeString(JString(s)) == Some(s) && DeBool(JBool(b)) == Some(b)
    ensures IsI32(i) ==> DeI32(JInt(i)) == Some(i) && I64AsI32(JInt(i)) == Some(i)
  {
  }

  /** The array of the serialised elements of `xs`. */
  function SerSeq<T>(xs: seq<T>, ser: T -> Json): Json
  {
    JArray(seq(|xs|, i requires 0 <= i < |xs| => ser(xs[i])))
  }

  /** A list whose every element survives `ser` then `de` survives as a whole. */
  lemma SeqRoundTrip<T>(xs: seq<T>, ser: T -> Json, de: Json -> Option<T>)
    requires forall i | 0 <= i < |xs| :: de(ser(xs[i])) == Some(xs[i])
    ensures DeVec(SerSeq(xs, ser), de) == Some(xs)
  {
    var items := SerSeq(xs, ser).items;
    assert forall i | 0 <= i < |items| :: de(items[i]) == Some(xs[i]);
    var r := DeSeq(items, de);
    assert r.Some?;
    assert r.value == xs;
  }

  /** A list of strings comes back as written. */
  lemma StringsRoundTrip(xs: seq<string>)
    ensures DeStrings(SerStrings(xs)) == Some(xs)
  {
    var items := SerStrings(xs).items;
    var r := DeSeq(items, DeString);
    assert forall i | 0 <= i < |items| :: DeString(items[i]) == Some(xs[i]);
    assert r.Some?;
    assert r.value == xs;
  }
}
