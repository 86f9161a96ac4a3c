/**
 * The pieces of JavaScript semantics the tool renderers depend on: truthiness
 * tests, the `||` and `??` fallbacks, template-string interpolation of an
 * optional value, `String(number)` and `filter(Boolean).join(sep)`.
 *
 * A property that may be `undefined` is an `Option`. Numbers are `real`;
 * how a non-integer number is printed, and `Number.prototype.toFixed`, are
 * engine details that the model takes as a `Runtime` parameter.
 */
module Js {
  import opened Wrappers
  import Text

  /** The engine's number-to-text routines, which the model leaves uninterpreted. */
  datatype Runtime = Runtime(
    toFixed: (real, nat) -> string,   // x.toFixed(digits)
    numberText: real -> string)       // String(x) for a number that is not a small integer

  /** `if (s)` on an optional string: present and non-empty. */
  predicate Truthy(s: Option<string>)
  {
    s.Some? && s.value != ""
  }

  /** `if (b)` on an optional boolean: present and `true`. */
  predicate IsTrue(b: Option<bool>)
  {
    b == Some(true)
  }

  /** `if (x)` on an optional number: present and not zero. */
  predicate NonZero(x: Option<real>)
  {
    x.Some? && x.value != 0.0
  }

  /** `${s}` in a template string: an absent value prints as "undefined". */
  function Show(s: Option<string>): (r: string)
    ensures s.Some? ==> r == s.value
    ensures s.None? ==> r == "undefined"
  {
    match s
    case Some(v) => v
    case None => "undefined"
  }

  /** `a || b` on optional strings: `a` when it is truthy, otherwise `b`. */
  function Or(a: Option<string>, b: Option<string>): (r: Option<string>)
    ensures Truthy(a) ==> r == a
    ensures !Truthy(a) ==> r == b
  {
    if Truthy(a) then a else b
  }

  /** `a ?? b`: `a` unless it is absent; an empty string does not fall back. */
  function Coalesce<T>(a: Option<T>, b: T): (r: T)
    ensures a.Some? ==> r == a.value
    ensures a.None? ==> r == b
  {
    a.GetOr(b)
  }

  /** "Yes" exactly when the flag is `true`; "No" when it is `false` or absent. */
  function YesNo(b: Option<bool>): (r: string)
    ensures r == "Yes" <==> IsTrue(b)
    ensures r == "Yes" || r == "No"
  {
    if IsTrue(b) then "Yes" else "No"
  }

  /**
   * An integer no larger than 2^53 in magnitude. Its shortest round-trip digits
   * are all of its decimal digits, so `Number::toString` prints it exactly.
   */
  predicate IsSmallInteger(x: real)
  {
    x.Floor as real == x && -9007199254740992 <= x.Floor <= 9007199254740992
  }

  /**
   * `String(x)` for a number: an integer up to 2^53 in magnitude prints as its
   * plain decimal digits. Any other value, including a larger integer whose
   * shortest round-trip digits end in zeros, is printed by the engine.
   */
  function NumberToString(rt: Runtime, x: real): (r: string)
    ensures IsSmallInteger(x) ==> r == Text.IntToString(x.Floor)
    ensures !IsSmallInteger(x) ==> r == rt.numberText(x)
  {
    if IsSmallInteger(x) then Text.IntToString(x.Floor) else rt.numberText(x)
  }

  /** `x.toFixed(2)`. */
  function Money(rt: Runtime, x: real): string
  {
    rt.toFixed(x, 2)
  }

  /** The strings of `parts` that are truthy, in order. */
  function KeepTruthy(parts: seq<Option<string>>): (r: seq<string>)
    ensures |r| <= |parts|
    ensures forall s :: s in r ==> s != ""
  {
    if |parts| == 0 then []
    else (if Truthy(parts[0]) then [parts[0].value] else []) + KeepTruthy(parts[1..])
  }

  /** `filter(Boolean)` keeps exactly the present, non-empty strings. */
  lemma {:induction false} KeepTruthyMembers(parts: seq<Option<string>>, c: string)
    ensures c in KeepTruthy(parts) <==> c != "" && Some(c) in parts
  {
    if |parts| > 0 {
      KeepTruthyMembers(parts[1..], c);
      assert parts == [parts[0]] + parts[1..];
    }
  }

  /** `[a, b].filter(Boolean).join(sep)`. */
  function JoinTruthy(parts: seq<Option<string>>, sep: string): string
  {
    Text.Join(KeepTruthy(parts), sep)
  }

  /** The four cases of joining a first and a last name. */
  lemma JoinTwoTruthy(a: Option<string>, b: Option<string>, sep: string)
    ensures Truthy(a) && Truthy(b) ==> JoinTruthy([a, b], sep) == a.value + sep + b.value
    ensures Truthy(a) && !Truthy(b) ==> JoinTruthy([a, b], sep) == a.value
    ensures !Truthy(a) && Truthy(b) ==> JoinTruthy([a, b], sep) == b.value
    ensures !Truthy(a) && !Truthy(b) ==> JoinTruthy([a, b], sep) == ""
    ensures JoinTruthy([a, b], sep) == "" <==> !Truthy(a) && !Truthy(b)
  {
    assert [a, b][1..] == [b];
    assert [b][1..] == [];
    var kb := if Truthy(b) then [b.value] else [];
    assert KeepTruthy([b]) == kb;
    var ka := if Truthy(a) then [a.value] else [];
    assert KeepTruthy([a, b]) == ka + kb;
    if Truthy(a) && Truthy(b) {
      var parts := [a.value, b.value];
      assert ka + kb == parts;
      assert parts[1..] == [b.value];
      assert Text.Join(parts, sep) == a.value + sep + Text.Join([b.value], sep);
    }
  }
}
