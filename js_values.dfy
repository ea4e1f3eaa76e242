/**
  The part of JavaScript's value space that the account-process client inspects:
  truthiness (`!v`, `v && ...`), `typeof`, `Array.isArray`, reading a named
  property and spreading a value into an object literal.
 */
module JsValues {

  /** A JavaScript value. `Num` is a number other than NaN (so `-0` is `Num(0.0)`);
      `Date` is a `Date` instance holding milliseconds since the epoch;
      `Func` is any function value. */
  datatype JsValue =
    | Undefined
    | Null
    | Bool(b: bool)
    | Num(n: real)
    | NaN
    | Str(s: string)
    | Arr(elems: seq<JsValue>)
    | Obj(fields: map<string, JsValue>)
    | Date(time: int)
    | Func

  /** ECMAScript ToBoolean: what `if (v)`, `!v` and `v && w` test. */
  predicate Truthy(v: JsValue) {
    match v
    case Undefined => false
    case Null => false
    case Bool(b) => b
    case Num(n) => n != 0.0
    case NaN => false
    case Str(s) => s != ""
    case Arr(_) => true
    case Obj(_) => true
    case Date(_) => true
    case Func => true
  }

  /** The falsy values are exactly undefined, null, false, 0, NaN and the empty string. */
  lemma FalsyValues(v: JsValue)
    ensures !Truthy(v) <==> v in [Undefined, Null, Bool(false), Num(0.0), NaN, Str("")]
  {
  }

  /** The six results of `typeof` that values of this model can have. */
  datatype JsType = UndefinedType | ObjectType | BooleanType | NumberType | StringType | FunctionType {

    /** The string `typeof` returns. */
    function Name(): string {
      match this
      case UndefinedType => "undefined"
      case ObjectType => "object"
      case BooleanType => "boolean"
      case NumberType => "number"
      case StringType => "string"
      case FunctionType => "function"
    }
  }

  /** The `typeof` operator. Note `typeof null === 'object'` and that arrays and
      dates are objects too. */
  function TypeOf(v: JsValue): (t: JsType)
    ensures t == StringType <==> v.Str?
    ensures t == ObjectType <==> v.Null? || v.Arr? || v.Obj? || v.Date?
    ensures t == UndefinedType <==> v.Undefined?
  {
    match v
    case Undefined => UndefinedType
    case Null => ObjectType
    case Bool(_) => BooleanType
    case Num(_) => NumberType
    case NaN => NumberType
    case Str(_) => StringType
    case Arr(_) => ObjectType
    case Obj(_) => ObjectType
    case Date(_) => ObjectType
    case Func => FunctionType
  }

  /** Comparing `typeof v` with a type's name is comparing the types: the six
      names are different strings. */
  lemma TypeNamesDistinct(a: JsType, b: JsType)
    ensures a.Name() == b.Name() <==> a == b
  {
  }

  /** `Array.isArray(v)`. */
  predicate IsArray(v: JsValue) {
    v.Arr?
  }

  /** Reading the named property `v.key`. Only plain objects carry named own
      properties in this model; the names this library reads (`message`,
      `startDate`, `endDate`, `statusCode`, `body`) are not properties of strings,
      arrays, dates, functions or primitives, so reading them there gives
      `undefined`. Reading any property of `null` or `undefined` throws a
      TypeError, which the precondition excludes. */
  function Get(v: JsValue, key: string): JsValue
    requires !v.Undefined? && !v.Null?
  {
    if v.Obj? && key in v.fields then v.fields[key] else Undefined
  }

  /** The own enumerable properties that `...v` contributes to an object literal.
      Spreading a primitive, a date or a function contributes nothing. The
      precondition leaves out the values whose spread yields index keys (a
      non-empty string, an array), which this library never spreads. */
  function Spread(v: JsValue): map<string, JsValue>
    requires !(v.Str? && v.s != "") && !v.Arr?
  {
    if v.Obj? then v.fields else map[]
  }
}
