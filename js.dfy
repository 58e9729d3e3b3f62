/** The JavaScript values and exceptions the handlers observe: parsed JSON bodies of
    upstream replies, `undefined` (as `None`), member access with its TypeError on
    `undefined`/`null`, string conversion by `+` and template literals, and the
    runtime functions the handlers call but whose code is not part of this model. */
module Js {
  import opened Wrappers
  import opened Decimal

  /** A parsed JSON value. Numbers are integral; object members keep their order. */
  datatype Json =
    | JNull
    | JBool(b: bool)
    | JNumber(n: int)
    | JString(s: string)
    | JArray(items: seq<Json>)
    | JObject(fields: seq<(string, Json)>)

  /** An HTTP reply as axios exposes it: `response.status` and `response.data`. */
  datatype Reply = Reply(status: int, data: Json)

  /** The exceptions that reach the handlers' `catch` blocks. The model keeps which
      exception was thrown; `error.message` is its text on the wire. */
  datatype Thrown =
    | RequestFailed(message: string, response: Option<Reply>)  // an axios rejection
    | CannotReadProperty(property: string)                     // `x.p` with x undefined or null
    | CannotDestructure(property: string)                      // `const {p} = x` with x undefined or null
    | RendererThrew(message: string)                           // thrown inside `md.render`
    | CannotConvertToPrimitive                                 // `+` on an object with no callable conversion

  /** Functions of the runtime and of libraries that the handlers call:
      `md.render` on a string, `md.render` on any other value (which may return a
      string or throw), `JSON.stringify(v)` and `JSON.stringify(v, null, 2)`. */
  datatype Runtime = Runtime(
    render: string -> string,
    renderValue: Option<Json> -> Result<string, Thrown>,
    stringify: Json -> string,
    stringifyIndented: Json -> string)

  /** `${v}` in a template literal where `v` is a string or undefined. */
  function Interp(v: Option<string>): string {
    match v
    case Some(s) => s
    case None => "undefined"
  }

  /** The value of the first member named `key`, or undefined. */
  function Lookup(fields: seq<(string, Json)>, key: string): (r: Option<Json>)
    ensures r.Some? <==> exists i :: 0 <= i < |fields| && fields[i].0 == key
    ensures r.Some? ==> exists i :: 0 <= i < |fields| && fields[i] == (key, r.value)
  {
    if |fields| == 0 then None
    else if fields[0].0 == key then Some(fields[0].1)
    else
      var r := Lookup(fields[1..], key);
      assert forall i :: 1 <= i < |fields| ==> fields[i] == fields[1..][i - 1];
      r
  }

  predicate IsNullish(v: Option<Json>) {
    v == None || v == Some(JNull)
  }

  /** `v[key]` (also written `v.key`) for the own properties of parsed JSON values:
      object members, array elements and `length`, string characters and `length`.
      Reading any property of undefined or null throws a TypeError. A number or
      boolean has none of those properties. Names inherited from `Object.prototype`
      are not modelled; the handlers read only "choices", "0", "message" and "content". */
  function Member(v: Option<Json>, key: string): (r: Result<Option<Json>, Thrown>)
    ensures r.Failure? <==> IsNullish(v)
    ensures r.Failure? ==> r.error == CannotReadProperty(key)
    ensures r.Success? && r.value.Some? ==> v.value.JObject? || v.value.JArray? || v.value.JString?
  {
    match v
    case None => Failure(CannotReadProperty(key))
    case Some(JNull) => Failure(CannotReadProperty(key))
    case Some(JObject(fields)) => Success(Lookup(fields, key))
    case Some(JArray(items)) =>
      if key == "length" then Success(Some(JNumber(|items|)))
      else (match CanonicalIndex(key)
        case Some(i) => if i < |items| then Success(Some(items[i])) else Success(None)
        case None => Success(None))
    case Some(JString(s)) =>
      if key == "length" then Success(Some(JNumber(|s|)))
      else (match CanonicalIndex(key)
        case Some(i) => if i < |s| then Success(Some(JString([s[i]]))) else Success(None)
        case None => Success(None))
    case Some(_) => Success(None)
  }

  lemma ArrayElementRead(items: seq<Json>, i: nat)
    ensures Member(Some(JArray(items)), NatToString(i))
         == Success(if i < |items| then Some(items[i]) else None)
  {
    CanonicalIndexOfNumeral(i);
    assert NatToString(i) != "length";
  }

  function Join(parts: seq<string>, sep: string): string {
    if |parts| == 0 then ""
    else if |parts| == 1 then parts[0]
    else parts[0] + sep + Join(parts[1..], sep)
  }

  /** The string `+` concatenation makes of a JSON value (ECMAScript ToString after
      ToPrimitive). Arrays join their elements with "," (null elements as ""), and
      objects are "[object Object]". An object with an own member named `toString`
      has no callable conversion left (no JSON value is callable), so converting it,
      or an array holding it, throws a TypeError. */
  function ToJsString(v: Json): (r: Result<string, Thrown>)
    ensures r.Failure? ==> r.error == CannotConvertToPrimitive
    decreases v, 1
  {
    match v
    case JNull => Success("null")
    case JBool(b) => Success(if b then "true" else "false")
    case JNumber(n) => Success(IntToString(n))
    case JString(s) => Success(s)
    case JArray(items) =>
      var parts :- ElementStrings(items);
      Success(Join(parts, ","))
    case JObject(fields) =>
      if Lookup(fields, "toString").Some? then Failure(CannotConvertToPrimitive)
      else Success("[object Object]")
  }

  /** The strings `Array.prototype.join` makes of the elements, left to right. */
  function ElementStrings(items: seq<Json>): (r: Result<seq<string>, Thrown>)
    ensures r.Success? ==> |r.value| == |items|
    ensures r.Failure? ==> r.error == CannotConvertToPrimitive
    decreases items, 0
  {
    if |items| == 0 then Success([])
    else
      var head :- if items[0] == JNull then Success("") else ToJsString(items[0]);
      var tail :- ElementStrings(items[1..]);
      Success([head] + tail)
  }

  /** Some object in the value, at any depth of arrays, has an own `toString` member. */
  predicate HasOwnToString(v: Json) {
    match v
    case JObject(fields) => Lookup(fields, "toString").Some?
    case JArray(items) => exists i :: 0 <= i < |items| && HasOwnToString(items[i])
    case _ => false
  }

  /** The conversion throws exactly when some object in the value has an own
      `toString` member. */
  lemma {:induction false} ToJsStringThrowsExactly(v: Json)
    ensures ToJsString(v).Failure? <==> HasOwnToString(v)
    decreases v, 1
  {
    if v.JArray? {
      ElementStringsThrowExactly(v.items);
    }
  }

  lemma {:induction false} ElementStringsThrowExactly(items: seq<Json>)
    ensures ElementStrings(items).Failure? <==> exists i :: 0 <= i < |items| && HasOwnToString(items[i])
    decreases items, 0
  {
    if |items| > 0 {
      ToJsStringThrowsExactly(items[0]);
      ElementStringsThrowExactly(items[1..]);
      assert forall i :: 1 <= i < |items| ==> items[i] == items[1..][i - 1];
      if HasOwnToString(items[0]) {
        assert items[0] != JNull;
      }
    }
  }
}
