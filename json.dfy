/**
 * The JavaScript values that flow through the client and the bridge: parsed
 * JSON replies, option fields and execution snapshots. JSON arrays are not
 * modelled and numbers are integers.
 */
module Json {
  import opened Wrappers
  import Strings

  datatype Value =
    | Undefined
    | Null
    | Bool(b: bool)
    | Num(n: int)
    | Str(s: string)
    | Obj(fields: map<string, Value>)

  /** JavaScript truthiness: `false`, `0`, `""`, `null` and `undefined` are falsy, every object is truthy. */
  predicate Truthy(v: Value) {
    match v
    case Undefined => false
    case Null => false
    case Bool(b) => b
    case Num(n) => n != 0
    case Str(s) => s != ""
    case Obj(_) => true
  }

  /** `typeof v === 'object'`, which holds of `null` as well. */
  predicate IsObjectType(v: Value) {
    v.Obj? || v.Null?
  }

  /** The property `v[key]` of a value that is neither `null` nor `undefined`; primitives have none. */
  function Prop(v: Value, key: string): Value {
    if v.Obj? && key in v.fields then v.fields[key] else Undefined
  }

  /** Property access `v.key`: None stands for the TypeError thrown on `null` and `undefined`. */
  function Member(v: Value, key: string): (r: Option<Value>)
    ensures r.None? <==> v.Null? || v.Undefined?
    ensures r.Some? ==> r.value == Prop(v, key)
    ensures Truthy(v) ==> r.Some?
  {
    if v.Null? || v.Undefined? then None else Some(Prop(v, key))
  }

  /** The enumerable own keys a `for…in` loop visits. */
  function OwnKeys(v: Value): set<string> {
    if v.Obj? then v.fields.Keys else {}
  }

  /** The string a template literal `${v}` or `'…' + v` produces. */
  function JsString(v: Value): string {
    match v
    case Undefined => "undefined"
    case Null => "null"
    case Bool(b) => if b then "true" else "false"
    case Num(n) => Strings.IntToDecimal(n)
    case Str(s) => s
    case Obj(_) => "[object Object]"
  }

  /** A truthy value never turns into the empty string, so it stays truthy as a string. */
  lemma TruthyStringIsNonEmpty(v: Value)
    requires Truthy(v)
    ensures JsString(v) != ""
    ensures v.Str? ==> JsString(v) == v.s
  {
    if v.Num? {
      assert Strings.IntToDecimal(v.n) != "";
    }
  }
}
