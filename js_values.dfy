/**
 * JavaScript values as the chat client inspects them, JavaScript truthiness,
 * the rendering helper `safeRender`, the `x?._id || x` reference idiom and
 * `String.prototype.trim`.
 */
module JsValues {

  datatype Option<+T> = None | Some(value: T)

  /**
   * A JavaScript value, reduced to what the client looks at.
   * `Prim` is a number or a boolean: its truthiness and the text JSON.stringify
   * gives for it. `Obj` is an object: its `_id` field (Undefined when absent),
   * its `name` field when that is a string, and the text JSON.stringify gives
   * for it. JSON.stringify itself is not modelled; its result travels with the value.
   */
  datatype Value =
    | Null
    | Undefined
    | Str(s: string)
    | Prim(json: string, truthy: bool)
    | Obj(id: Value, name: Option<string>, json: string)

  /** JavaScript truthiness. */
  predicate Truthy(v: Value) {
    match v
    case Null => false
    case Undefined => false
    case Str(s) => s != ""
    case Prim(_, t) => t
    case Obj(_, _, _) => true
  }

  /** Truthiness of a string field that may be null or absent. */
  predicate Present(o: Option<string>) {
    o.Some? && o.value != ""
  }

  /** `x || null` for a string field that may be null or absent. */
  function OrNull(o: Option<string>): Option<string> {
    if Present(o) then o else None
  }

  /** The value of an optional string field, as a JavaScript value. */
  function OfOption(o: Option<string>): Value {
    match o
    case None => Null
    case Some(s) => Str(s)
  }

  const Unknown := "Unknown"

  /**
   * `safeRender(value, fallback)`: null and undefined give the fallback, a string
   * gives itself, an object with a truthy `name` gives that name, anything else
   * its JSON text.
   */
  function SafeRender(v: Value, fallback: string): string {
    match v
    case Null => fallback
    case Undefined => fallback
    case Str(s) => s
    case Prim(json, _) => json
    case Obj(_, name, json) => if Present(name) then name.value else json
  }

  /**
   * `safeRender(x?._id || x)`: the id of a reference that is either populated
   * (an object carrying `_id`) or a raw id.
   */
  function RefId(v: Value): string {
    SafeRender(if v.Obj? && Truthy(v.id) then v.id else v, Unknown)
  }

  lemma SafeRenderCases(v: Value, fallback: string)
    ensures v.Null? || v.Undefined? ==> SafeRender(v, fallback) == fallback
    ensures v.Str? ==> SafeRender(v, fallback) == v.s
    ensures v.Obj? && Present(v.name) ==> SafeRender(v, fallback) == v.name.value
  {
  }

  /** A populated reference and the raw id it stands for render to the same id. */
  lemma RefIdPopulated(u: string, name: Option<string>, json: string)
    requires u != ""
    ensures RefId(Obj(Str(u), name, json)) == RefId(Str(u)) == u
  {
  }

  /** The characters `String.prototype.trim` removes: ECMAScript WhiteSpace and LineTerminator. */
  predicate IsWhitespace(c: char) {
    c == '\t' || c == '\n' || c == '\U{000B}' || c == '\U{000C}' || c == '\r' || c == ' '
    || c == '\U{00A0}' || c == '\U{1680}' || ('\U{2000}' <= c <= '\U{200A}')
    || c == '\U{2028}' || c == '\U{2029}' || c == '\U{202F}' || c == '\U{205F}'
    || c == '\U{3000}' || c == '\U{FEFF}'
  }

  function TrimStart(s: string): (r: string)
    ensures |r| <= |s| && r == s[|s| - |r|..]
    ensures r != "" ==> !IsWhitespace(r[0])
  {
    if s != "" && IsWhitespace(s[0]) then TrimStart(s[1..]) else s
  }

  function TrimEnd(s: string): (r: string)
    ensures |r| <= |s| && r == s[..|r|]
    ensures r != "" ==> !IsWhitespace(r[|r| - 1])
  {
    if s != "" && IsWhitespace(s[|s| - 1]) then TrimEnd(s[..|s| - 1]) else s
  }

  /** `s.trim()` */
  function Trim(s: string): (r: string)
    ensures |r| <= |s|
    ensures r != "" ==> !IsWhitespace(r[0]) && !IsWhitespace(r[|r| - 1])
  {
    TrimEnd(TrimStart(s))
  }

  predicate Blank(s: string) {
    forall i :: 0 <= i < |s| ==> IsWhitespace(s[i])
  }

  lemma {:induction false} TrimStartEmpty(s: string)
    ensures TrimStart(s) == "" <==> Blank(s)
  {
    if s != "" {
      TrimStartEmpty(s[1..]);
      if IsWhitespace(s[0]) {
        assert Blank(s) <==> Blank(s[1..]) by {
          if Blank(s[1..]) {
            forall i | 0 <= i < |s| ensures IsWhitespace(s[i]) {
              if i > 0 { assert s[i] == s[1..][i - 1]; }
            }
          }
        }
      }
    }
  }

  lemma {:induction false} TrimEndKeeps(s: string)
    requires s != "" && !IsWhitespace(s[0])
    ensures TrimEnd(s) != ""
  {
    if IsWhitespace(s[|s| - 1]) {
      assert |s| > 1;
      TrimEndKeeps(s[..|s| - 1]);
    }
  }

  /** `!message.trim()` holds exactly when the draft consists of whitespace only. */
  lemma TrimEmptyIffBlank(s: string)
    ensures Trim(s) == "" <==> Blank(s)
  {
    TrimStartEmpty(s);
    var t := TrimStart(s);
    if t != "" {
      TrimEndKeeps(t);
    }
  }
}
