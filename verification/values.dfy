/**
 * Message parameters as the dispatcher receives them (decoded JSON held in
 * `Any`) and the Swift casts the handlers apply to them.
 *
 * A forced cast (`as!`) of a missing or ill-typed parameter traps; a
 * conditional cast (`as?`) yields `None`.
 */
module Params {
  import opened Wrappers

  datatype Value =
    | Number(n: real)
    | Boolean(b: bool)
    | Text(s: string)
    | List(items: seq<Value>)
    | Object(fields: map<string, Value>)
    | Null

  type Params = map<string, Value>

  /** Why the instrumented process stops (`fatalError`, a failed `as!`, a failed `!` or `precondition`). */
  datatype Fatal =
    | BadCast(key: string)
    | UnknownActionType(actionType: string)
    | ElementNotFound(identifier: string, frame: seq<real>)
    | FrameIndexOutOfRange
    | UnexpectedViewClass(identifier: string)
    | UnknownTrait(name: string)
    | InvalidUrl(url: string)
    | UnknownPayload
    | UnknownSpeed(speed: string)
    | UnexpectedHierarchyPath(path: string)
    | MissingIdentifier(view: nat)

  /** A message sent back to the driver, correlated by the request's `messageId`. */
  datatype Reply = Reply(action: string, params: Params, messageId: int)

  /** What `NSNumber` offers the handlers. */
  datatype NumberValue = NumberValue(doubleValue: real, boolValue: bool)

  /** `value as? NSNumber`: numbers and booleans both bridge to `NSNumber`. */
  function AsNumber(v: Value): (r: Option<NumberValue>)
    ensures r.Some? <==> v.Number? || v.Boolean?
    ensures v.Number? ==> r == Some(NumberValue(v.n, v.n != 0.0))
    ensures v.Boolean? ==> r.value.boolValue == v.b
  {
    match v
    case Number(n) => Some(NumberValue(n, n != 0.0))
    case Boolean(b) => Some(NumberValue(if b then 1.0 else 0.0, b))
    case _ => None
  }

  /** `value as? Bool`: a boolean, or a number that is exactly 0 or 1. */
  function AsBool(v: Value): Option<bool> {
    match v
    case Boolean(b) => Some(b)
    case Number(n) => if n == 0.0 then Some(false) else if n == 1.0 then Some(true) else None
    case _ => None
  }

  function AsString(v: Value): Option<string> {
    if v.Text? then Some(v.s) else None
  }

  /** `value as? [String]`. */
  function AsStrings(v: Value): (r: Option<seq<string>>)
    ensures r.Some? ==> v.List? && |r.value| == |v.items|
    ensures r.Some? ==> forall i | 0 <= i < |v.items| :: v.items[i] == Text(r.value[i])
    ensures v.List? && (forall i | 0 <= i < |v.items| :: v.items[i].Text?) ==> r.Some?
  {
    if v.List? && forall i | 0 <= i < |v.items| :: v.items[i].Text? then
      Some(seq(|v.items|, i requires 0 <= i < |v.items| => v.items[i].s))
    else
      None
  }

  /** `value as? [NSNumber]`, read through `doubleValue`. */
  function AsDoubles(v: Value): (r: Option<seq<real>>)
    ensures r.Some? ==> v.List? && |r.value| == |v.items|
    ensures r.Some? ==> forall i | 0 <= i < |v.items| ::
      AsNumber(v.items[i]).Some? && AsNumber(v.items[i]).value.doubleValue == r.value[i]
  {
    if v.List? && forall i | 0 <= i < |v.items| :: AsNumber(v.items[i]).Some? then
      Some(seq(|v.items|, i requires 0 <= i < |v.items| => AsNumber(v.items[i]).value.doubleValue))
    else
      None
  }

  /** `v as? [[String: Any]]`. */
  function AsObjects(v: Value): Option<seq<map<string, Value>>> {
    if v.List? && forall i | 0 <= i < |v.items| :: v.items[i].Object? then
      Some(seq(|v.items|, i requires 0 <= i < |v.items| => v.items[i].fields))
    else
      None
  }

  function Lookup(p: Params, key: string): Option<Value> {
    if key in p then Some(p[key]) else None
  }

  /** `p[key] as? String`. */
  function OptString(p: Params, key: string): (r: Option<string>)
    ensures r.Some? <==> key in p && p[key].Text?
  {
    if key in p then AsString(p[key]) else None
  }

  function OptNumber(p: Params, key: string): (r: Option<NumberValue>)
    ensures r.Some? ==> key in p
  {
    if key in p then AsNumber(p[key]) else None
  }

  function OptBool(p: Params, key: string): Option<bool> {
    if key in p then AsBool(p[key]) else None
  }

  function OptStrings(p: Params, key: string): Option<seq<string>> {
    if key in p then AsStrings(p[key]) else None
  }

  /** Turns a conditional cast into the forced cast of the same key. */
  function Force<T>(o: Option<T>, key: string): (r: Result<T, Fatal>)
    ensures r.Success? <==> o.Some?
    ensures r.Success? ==> r.value == o.value
    ensures r.Failure? ==> r.error == BadCast(key)
  {
    match o
    case Some(x) => Success(x)
    case None => Failure(BadCast(key))
  }

  function ForceString(p: Params, key: string): Result<string, Fatal> {
    Force(OptString(p, key), key)
  }

  function ForceNumber(p: Params, key: string): Result<NumberValue, Fatal> {
    Force(OptNumber(p, key), key)
  }

  function ForceBool(p: Params, key: string): Result<bool, Fatal> {
    Force(OptBool(p, key), key)
  }

  function ForceStrings(p: Params, key: string): Result<seq<string>, Fatal> {
    Force(OptStrings(p, key), key)
  }

  function ForceDoubles(p: Params, key: string): Result<seq<real>, Fatal> {
    Force(if key in p then AsDoubles(p[key]) else None, key)
  }

  function ForceObjects(p: Params, key: string): Result<seq<map<string, Value>>, Fatal> {
    Force(if key in p then AsObjects(p[key]) else None, key)
  }
}
