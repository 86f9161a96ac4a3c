/**
 * Values a handler can catch, their normalisation to an `Error`
 * (`ensureError`), and the two error-text helpers (`formatError`,
 * `formatApiError`).
 */
module Errors {
  import opened Wrappers
  import Text
  import Js
  import Json

  /** A value thrown in JavaScript, classified as far as `ensureError` looks at it. */
  datatype Thrown =
    | ErrorObject(message: string)            // an instance of Error (or a subclass)
    | StringValue(s: string)
    | ObjectValue(members: Json.JsObject)     // a non-null object that is not an array
    | ArrayValue(items: seq<Json.JsonValue>)
    | NullValue
    | UndefinedValue
    | BooleanValue(b: bool)
    | NumberValue(x: real)

  /** How a call ends: with a value, or by throwing. */
  datatype Outcome<T> = Returned(value: T) | Threw(error: Thrown)

  /** `String(value)` for a primitive. */
  function PrimitiveText(rt: Js.Runtime, v: Thrown): (r: string)
    requires v.NullValue? || v.UndefinedValue? || v.BooleanValue? || v.NumberValue?
  {
    match v
    case NullValue => "null"
    case UndefinedValue => "undefined"
    case BooleanValue(b) => if b then "true" else "false"
    case NumberValue(x) => Js.NumberToString(rt, x)
  }

  /** `ensureError`: every thrown value becomes an Error; the first matching test decides. */
  function EnsureError(rt: Js.Runtime, v: Thrown): (e: Thrown)
    ensures e.ErrorObject?
    ensures v.ErrorObject? ==> e == v
    ensures v.StringValue? ==> e == ErrorObject(v.s)
    ensures v.ObjectValue? ==>
      match Json.Field(v.members, "message")
      case Some(Some(JString(m))) => e == ErrorObject(m)
      case _ => e == ErrorObject(Json.StringifyObject(rt, v.members))
    ensures v.ArrayValue? ==> e == ErrorObject(Json.Stringify(rt, Json.JArray(v.items)))
    ensures v.NullValue? ==> e == ErrorObject("null")
    ensures v.UndefinedValue? ==> e == ErrorObject("undefined")
    ensures v.BooleanValue? ==> e == ErrorObject(if v.b then "true" else "false")
    ensures v.NumberValue? ==> e == ErrorObject(Js.NumberToString(rt, v.x))
  {
    match v
    case ErrorObject(_) => v
    case StringValue(s) => ErrorObject(s)
    case ObjectValue(members) =>
      (match Json.Field(members, "message")
       case Some(Some(JString(m))) => ErrorObject(m)
       case _ => ErrorObject(Json.StringifyObject(rt, members)))
    case ArrayValue(items) => ErrorObject(Json.Stringify(rt, Json.JArray(items)))
    case _ => ErrorObject(PrimitiveText(rt, v))
  }

  /** The message a handler's catch clause prints: `ensureError(error).message`. */
  function MessageOf(rt: Js.Runtime, v: Thrown): string
  {
    EnsureError(rt, v).message
  }

  /** Normalising twice changes nothing. */
  lemma EnsureErrorIdempotent(rt: Js.Runtime, v: Thrown)
    ensures EnsureError(rt, EnsureError(rt, v)) == EnsureError(rt, v)
  {
  }

  /** An object keeps its string message whatever its other members are. */
  lemma MessageMemberWins(rt: Js.Runtime, m: string, rest: Json.JsObject)
    ensures MessageOf(rt, ObjectValue([("message", Some(Json.JString(m)))] + rest)) == m
  {
    var obj := [("message", Some(Json.JString(m)))] + rest;
    assert obj[0].0 == "message";
  }

  /** An object whose `message` is missing or not a string is serialised instead. */
  lemma NonStringMessageSerialised(rt: Js.Runtime, members: Json.JsObject)
    requires forall m :: Json.Field(members, "message") != Some(Some(Json.JString(m)))
    ensures MessageOf(rt, ObjectValue(members)) == Json.StringifyObject(rt, members)
  {
  }

  /** `formatError`. */
  function FormatError(e: Thrown): (r: string)
    requires e.ErrorObject?
    ensures Text.StartsWith(r, "Error: ") && Text.EndsWith(r, e.message)
    ensures |r| == |"Error: "| + |e.message|
  {
    "Error: " + e.message
  }

  /** `formatApiError`: the status code in decimal, then the message. */
  function FormatApiError(statusCode: int, message: string): (r: string)
    ensures Text.StartsWith(r, "API Error (" + Text.IntToString(statusCode) + "): ")
    ensures Text.EndsWith(r, message)
    ensures |r| == 11 + |Text.IntToString(statusCode)| + 3 + |message|
  {
    "API Error (" + Text.IntToString(statusCode) + "): " + message
  }

  /** Distinct messages give distinct error texts. */
  lemma FormatErrorInjective(a: Thrown, b: Thrown)
    requires a.ErrorObject? && b.ErrorObject?
    requires FormatError(a) == FormatError(b)
    ensures a.message == b.message
  {
    assert a.message == FormatError(a)[|"Error: "|..];
    assert b.message == FormatError(b)[|"Error: "|..];
  }

  /** The status code and the message can both be read back from a `formatApiError` text. */
  lemma {:induction false} FormatApiErrorInjective(c1: int, m1: string, c2: int, m2: string)
    requires FormatApiError(c1, m1) == FormatApiError(c2, m2)
    ensures c1 == c2 && m1 == m2
  {
    var d1, d2 := Text.IntToString(c1), Text.IntToString(c2);
    var t1, t2 := d1 + ("): " + m1), d2 + ("): " + m2);
    ApiErrorTail(c1, m1);
    ApiErrorTail(c2, m2);
    Text.IntToStringAvoids(c1, ')');
    Text.IntToStringAvoids(c2, ')');
    Text.PrefixBeforeStop(d1, "): " + m1, d2, "): " + m2, ')');
    Text.IntToStringInjective(c1, c2);
    assert m1 == t1[|d1| + 3..];
    assert m2 == t2[|d2| + 3..];
  }

  /** What follows `API Error (` in a `formatApiError` text. */
  lemma ApiErrorTail(c: int, m: string)
    ensures FormatApiError(c, m)[11..] == Text.IntToString(c) + ("): " + m)
  {
    var t := Text.IntToString(c) + ("): " + m);
    assert FormatApiError(c, m) == "API Error (" + t;
  }

  /** Same message, different status codes: the texts differ. */
  lemma FormatApiErrorDistinguishesCodes(c1: int, c2: int, m: string)
    requires c1 != c2
    ensures FormatApiError(c1, m) != FormatApiError(c2, m)
  {
    if FormatApiError(c1, m) == FormatApiError(c2, m) {
      FormatApiErrorInjective(c1, m, c2, m);
    }
  }
}
