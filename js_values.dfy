/**
 * The JSON-decoded values the request handlers of index.js receive, and the
 * three JavaScript semantics they rely on: truthiness (the `!x` guards),
 * conversion to text (template-string interpolation and the argument of
 * `encodeURIComponent`) and property access on an object that may lack the
 * property.
 */
module JsValues {
  import opened Wrappers

  /**
   * A value from a parsed JSON request body.
   * A number is kept by its JavaScript rendering `String(n)`, so every zero,
   * including minus zero, is `Num("0")`. An object keeps its own members.
   */
  datatype JsValue =
    | Undefined
    | Null
    | Bool(b: bool)
    | Num(text: string)
    | Str(s: string)
    | Obj(fields: map<string, JsValue>)

  /** The falsy values of JavaScript that a JSON body can carry, listed one by one. */
  const FalsyValues: set<JsValue> :=
    {Undefined, Null, Bool(false), Num("0"), Num("NaN"), Str("")}

  /** JavaScript truthiness: what survives `!x` in a guard. */
  function Truthy(v: JsValue): (truthy: bool)
    ensures !truthy <==> v in FalsyValues
  {
    match v
    case Undefined => false
    case Null => false
    case Bool(b) => b
    case Num(t) => t != "0" && t != "NaN"
    case Str(s) => s != ""
    case Obj(_) => true
  }

  /** The values on which a property access throws a TypeError. */
  predicate IsNullish(v: JsValue) {
    v.Undefined? || v.Null?
  }

  /**
   * An object with a member of its own named `toString`. JSON cannot carry a
   * function, so that member is not callable, and the inherited `valueOf`
   * answers the object itself: converting such an object to text throws a
   * TypeError.
   */
  predicate HasOwnToString(v: JsValue) {
    v.Obj? && "toString" in v.fields
  }

  /**
   * `String(v)`, which is what `${v}` in a template string and the argument
   * conversion of `encodeURIComponent` produce; `None` when it throws.
   */
  function ToText(v: JsValue): (text: Option<string>)
    ensures text.None? <==> HasOwnToString(v)
    ensures v.Str? ==> text == Some(v.s)
    ensures v.Obj? && text.Some? ==> text.value == "[object Object]"
  {
    match v
    case Undefined => Some("undefined")
    case Null => Some("null")
    case Bool(b) => Some(if b then "true" else "false")
    case Num(t) => Some(t)
    case Str(s) => Some(s)
    case Obj(fields) => if "toString" in fields then None else Some("[object Object]")
  }

  /**
   * The account members the link reads. Neither `Object.prototype` nor the
   * prototypes of strings, numbers and booleans have a property of these
   * names, so only an object's own member can supply one.
   */
  const AccountMembers: set<string> := {"vpa", "name", "username"}

  /**
   * `v.key`, read without a check. An absent member reads as `undefined`;
   * only a nullish receiver makes the read throw, hence the precondition.
   */
  function Member(v: JsValue, key: string): (m: JsValue)
    requires !IsNullish(v)
    requires key in AccountMembers
    ensures m != Undefined ==> v.Obj? && key in v.fields
  {
    match v
    case Obj(fields) => if key in fields then fields[key] else Undefined
    case _ => Undefined
  }

  /** A truthy value can be read from without throwing. */
  lemma TruthyIsNotNullish(v: JsValue)
    requires Truthy(v)
    ensures !IsNullish(v)
  {
  }
}
