/**
 * JSON values as the API client sends and receives them, and `JSON.stringify`
 * as ECMAScript defines it (section 25.5.2 of ECMA-262): members whose value
 * is `undefined` are dropped from objects, strings are quoted with the
 * escapes of `QuoteJSONString`.
 */
module Json {
  import opened Wrappers
  import Text
  import Js

  datatype JsonValue =
    | JNull
    | JBool(b: bool)
    | JNumber(x: real)
    | JString(s: string)
    | JArray(items: seq<JsonValue>)
    | JObject(members: seq<(string, JsonValue)>)

  /**
   * A JavaScript object literal whose members may be `undefined`, such as the
   * request bodies the tools build from optional arguments.
   */
  type JsObject = seq<(string, Option<JsonValue>)>

  /** JavaScript truthiness of a parsed JSON value. */
  predicate Truthy(v: JsonValue)
  {
    match v
    case JNull => false
    case JBool(b) => b
    case JNumber(x) => x != 0.0
    case JString(s) => s != ""
    case JArray(_) => true
    case JObject(_) => true
  }

  /**
   * `obj[key]` on parsed members: `JSON.parse` keeps the last of duplicate
   * keys, so this is the value of the last member with that key, if any.
   */
  function Member(members: seq<(string, JsonValue)>, key: string): (r: Option<JsonValue>)
    ensures r.Some? <==> exists i :: 0 <= i < |members| && members[i].0 == key
    ensures r.Some? ==> exists i :: 0 <= i < |members| && members[i] == (key, r.value)
                                    && forall j :: i < j < |members| ==> members[j].0 != key
  {
    if |members| == 0 then None
    else if members[|members| - 1].0 == key then Some(members[|members| - 1].1)
    else
      var r := Member(members[..|members| - 1], key);
      assert forall i :: 0 <= i < |members| - 1 ==> members[..|members| - 1][i] == members[i];
      r
  }

  /** `obj[key]` on an object literal: `None` when the key is missing, `Some(None)` when it holds `undefined`. */
  function Field(obj: JsObject, key: string): (r: Option<Option<JsonValue>>)
    ensures r.Some? <==> exists i :: 0 <= i < |obj| && obj[i].0 == key
    ensures r.Some? ==> (key, r.value) in obj
  {
    if |obj| == 0 then None
    else if obj[0].0 == key then Some(obj[0].1)
    else Field(obj[1..], key)
  }

  /** The keys of an object literal, in order. */
  function Keys(obj: JsObject): (ks: seq<string>)
    ensures |ks| == |obj|
    ensures forall i :: 0 <= i < |obj| ==> ks[i] == obj[i].0
  {
    seq(|obj|, i requires 0 <= i < |obj| => obj[i].0)
  }

  /** A key the literal does not list looks up nothing. */
  lemma FieldAbsent(obj: JsObject, key: string)
    requires key !in Keys(obj)
    ensures Field(obj, key).None?
  {
  }

  /** No key occurs twice. */
  predicate Distinct(ks: seq<string>)
  {
    forall i, j :: 0 <= i < j < |ks| ==> ks[i] != ks[j]
  }

  /** In an object literal with distinct keys every key looks up its own value. */
  lemma {:induction false} FieldsOf(obj: JsObject)
    requires Distinct(Keys(obj))
    ensures forall i :: 0 <= i < |obj| ==> Field(obj, obj[i].0) == Some(obj[i].1)
  {
    if |obj| > 0 {
      assert Keys(obj[1..]) == Keys(obj)[1..];
      FieldsOf(obj[1..]);
      forall i | 0 < i < |obj|
        ensures Field(obj, obj[i].0) == Some(obj[i].1)
      {
        assert obj[1..][i - 1] == obj[i];
      }
    }
  }

  /** The i-th member of an object with distinct keys is what its key looks up. */
  lemma FieldAt(obj: JsObject, i: nat)
    requires i < |obj| && Distinct(Keys(obj))
    ensures Field(obj, obj[i].0) == Some(obj[i].1)
  {
    FieldsOf(obj);
  }

  /** The members of an object literal that `JSON.stringify` keeps: those not `undefined`. */
  function Defined(obj: JsObject): (r: seq<(string, JsonValue)>)
    ensures |r| <= |obj|
    ensures forall k, v :: (k, v) in r <==> (k, Some(v)) in obj
  {
    if |obj| == 0 then []
    else (if obj[0].1.Some? then [(obj[0].0, obj[0].1.value)] else []) + Defined(obj[1..])
  }

  function HexDigit(d: nat): (c: char)
    requires d < 16
  {
    if d < 10 then ('0' as int + d) as char else ('a' as int + d - 10) as char
  }

  /** The JSON escape of one character. */
  function EscapeChar(c: char): (r: string)
    ensures |r| >= 1
    ensures c != '"' && c != '\\' && c as int >= 0x20 ==> r == [c]
  {
    if c == '"' then "\\\""
    else if c == '\\' then "\\\\"
    else if c == '\U{8}' then "\\b"
    else if c == '\t' then "\\t"
    else if c == '\n' then "\\n"
    else if c == '\U{C}' then "\\f"
    else if c == '\r' then "\\r"
    else if c as int < 0x20 then "\\u00" + [HexDigit(c as int / 16), HexDigit(c as int % 16)]
    else [c]
  }

  function EscapeString(s: string): (r: string)
    ensures |r| >= |s|
  {
    if |s| == 0 then "" else EscapeChar(s[0]) + EscapeString(s[1..])
  }

  /** A string with nothing to escape. */
  predicate Plain(s: string)
  {
    forall i :: 0 <= i < |s| ==> s[i] != '"' && s[i] != '\\' && s[i] as int >= 0x20
  }

  lemma {:induction false} EscapePlain(s: string)
    requires Plain(s)
    ensures EscapeString(s) == s
  {
    if |s| > 0 {
      assert Plain(s[1..]) by {
        forall i | 0 <= i < |s[1..]|
          ensures s[1..][i] != '"' && s[1..][i] != '\\' && s[1..][i] as int >= 0x20
        {
          assert s[1..][i] == s[i + 1];
        }
      }
      EscapePlain(s[1..]);
    }
  }

  /** `QuoteJSONString`. */
  function Quote(s: string): (r: string)
    ensures |r| >= |s| + 2 && r[0] == '"' && r[|r| - 1] == '"'
  {
    "\"" + EscapeString(s) + "\""
  }

  /** A string with nothing to escape is quoted as itself between double quotes. */
  lemma QuotePlain(s: string)
    requires Plain(s)
    ensures Quote(s) == "\"" + s + "\""
  {
    EscapePlain(s);
  }

  function Stringify(rt: Js.Runtime, v: JsonValue): (r: string)
    decreases v
  {
    match v
    case JNull => "null"
    case JBool(b) => if b then "true" else "false"
    case JNumber(x) => Js.NumberToString(rt, x)
    case JString(s) => Quote(s)
    case JArray(items) =>
      "[" + Text.Join(seq(|items|, i requires 0 <= i < |items| => Stringify(rt, items[i])), ",") + "]"
    case JObject(members) =>
      "{" + Text.Join(seq(|members|, i requires 0 <= i < |members| =>
        Quote(members[i].0) + ":" + Stringify(rt, members[i].1)), ",") + "}"
  }

  /** `JSON.stringify` of an object literal: its `undefined` members are left out. */
  function StringifyObject(rt: Js.Runtime, obj: JsObject): string
  {
    Stringify(rt, JObject(Defined(obj)))
  }

  /** An optional string property of an object literal. */
  function OptString(o: Option<string>): (r: Option<JsonValue>)
    ensures o.None? <==> r.None?
    ensures o.Some? ==> r == Some(JString(o.value))
  {
    match o
    case None => None
    case Some(s) => Some(JString(s))
  }

  function OptBool(o: Option<bool>): (r: Option<JsonValue>)
    ensures o.None? <==> r.None?
    ensures o.Some? ==> r == Some(JBool(o.value))
  {
    match o
    case None => None
    case Some(b) => Some(JBool(b))
  }

  function OptNumber(o: Option<real>): (r: Option<JsonValue>)
    ensures o.None? <==> r.None?
    ensures o.Some? ==> r == Some(JNumber(o.value))
  {
    match o
    case None => None
    case Some(x) => Some(JNumber(x))
  }

  function OptStrings(o: Option<seq<string>>): (r: Option<JsonValue>)
    ensures o.None? <==> r.None?
    ensures o.Some? ==> r.value.JArray? && |r.value.items| == |o.value|
    ensures o.Some? ==> forall i :: 0 <= i < |o.value| ==> r.value.items[i] == JString(o.value[i])
  {
    match o
    case None => None
    case Some(items) => Some(JArray(seq(|items|, i requires 0 <= i < |items| => JString(items[i]))))
  }

  /** A `Record<string, string>` as a JSON object. */
  function OptStringMap(o: Option<seq<(string, string)>>): (r: Option<JsonValue>)
    ensures o.None? <==> r.None?
    ensures o.Some? ==> r.value.JObject? && |r.value.members| == |o.value|
    ensures o.Some? ==> forall i :: 0 <= i < |o.value| ==> r.value.members[i] == (o.value[i].0, JString(o.value[i].1))
  {
    match o
    case None => None
    case Some(entries) =>
      Some(JObject(seq(|entries|, i requires 0 <= i < |entries| => (entries[i].0, JString(entries[i].1)))))
  }
}
