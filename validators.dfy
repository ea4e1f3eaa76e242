/** The standalone predicates of `lib/validators.js`. */
module Validators {

  import opened JsValues
  import opened HexPattern

  /** `typeof value === 'string'`. */
  predicate IsString(v: JsValue) {
    TypeOf(v) == StringType
  }

  /** `typeof value === 'string' && /^[0-9a-fA-F]{24}$/.test(value)`. */
  predicate IsObjectId(v: JsValue) {
    TypeOf(v) == StringType && MatchesObjectIdPattern(v.s)
  }

  /** `typeof value === 'object' && !Array.isArray(value)`. */
  predicate IsObject(v: JsValue) {
    TypeOf(v) == ObjectType && !IsArray(v)
  }

  lemma IsStringIff(v: JsValue)
    ensures IsString(v) <==> v.Str?
  {
  }

  /** Non-strings are never ObjectIds; a string is one exactly when it has 24
      characters, each a hex digit in either case. */
  lemma IsObjectIdIff(v: JsValue)
    ensures !v.Str? ==> !IsObjectId(v)
    ensures v.Str? ==> (IsObjectId(v) <==> |v.s| == 24 && AllHex(v.s))
  {
    if v.Str? {
      ObjectIdPatternIff(v.s);
    }
  }

  /** Plain objects and dates pass, arrays do not, and neither does any primitive
      except `null`, whose `typeof` is `'object'`. */
  lemma IsObjectIff(v: JsValue)
    ensures IsObject(v) <==> v.Null? || v.Obj? || v.Date?
  {
  }
}
