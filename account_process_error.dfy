/** `AccountProcessError`: the error thrown by the validator, and its code table. */
module AccountProcessErrors {

  import opened JsValues

  /** The three fields the constructor assigns. `message` and `code` hold
      whatever JavaScript value they were given. */
  datatype AccountProcessError = AccountProcessError(message: JsValue, code: JsValue, name: string)

  /** The static `codes` table. */
  function Codes(): map<string, int> {
    map[
      "SESSION_MISSING" := 1,
      "INVALID_ACCOUNTS_ID" := 2,
      "INVALID_PROCESS_NAME" := 3,
      "INVALID_STATUS" := 4,
      "INVALID_CONTENT" := 5,
      "INVALID_OPTIONS" := 6,
      "SERVICE_NAME_MISSING" := 7
    ]
  }

  /** The table's keys in the order in which they are declared. */
  const CodeNames: seq<string> := [
    "SESSION_MISSING", "INVALID_ACCOUNTS_ID", "INVALID_PROCESS_NAME",
    "INVALID_STATUS", "INVALID_CONTENT", "INVALID_OPTIONS", "SERVICE_NAME_MISSING"
  ]

  /** The table has exactly the seven declared names, numbered 1 to 7 in
      declaration order, so no two names share a code. */
  lemma CodesNumberedInOrder()
    ensures Codes().Keys == set i | 0 <= i < |CodeNames| :: CodeNames[i]
    ensures forall i :: 0 <= i < |CodeNames| ==> CodeNames[i] in Codes() && Codes()[CodeNames[i]] == i + 1
    ensures forall a, b :: a in Codes() && b in Codes() && a != b ==> Codes()[a] != Codes()[b]
  {
    var names := set i | 0 <= i < |CodeNames| :: CodeNames[i];
    assert CodeNames[0] in names && CodeNames[1] in names && CodeNames[2] in names;
    assert CodeNames[3] in names && CodeNames[4] in names && CodeNames[5] in names;
    assert CodeNames[6] in names;
  }

  /** `AccountProcessError.codes[name]`: the number for a key of the table,
      `undefined` for any other name that is not inherited from
      `Object.prototype`. */
  function Code(name: string): (c: JsValue)
    ensures name !in CodeNames ==> c == Undefined
    ensures forall i :: 0 <= i < |CodeNames| && CodeNames[i] == name ==> c == Num((i + 1) as real)
  {
    CodesNumberedInOrder();
    if name in Codes() then Num(Codes()[name] as real) else Undefined
  }

  /** `new AccountProcessError(err, code)`. `err.message` throws a TypeError when
      `err` is `null` or `undefined`; the precondition excludes that. */
  function New(err: JsValue, code: JsValue): (e: AccountProcessError)
    requires !err.Undefined? && !err.Null?
    ensures e.code == code
    ensures e.name == "AccountProcessError"
    ensures Truthy(Get(err, "message")) ==> e.message == Get(err, "message")
    ensures !Truthy(Get(err, "message")) ==> e.message == err
  {
    var m := Get(err, "message");
    AccountProcessError(if Truthy(m) then m else err, code, "AccountProcessError")
  }

  /** A string has no `message` property, so an error built from a string keeps
      the string itself as its message. */
  lemma NewFromString(text: string, code: JsValue)
    ensures New(Str(text), code) == AccountProcessError(Str(text), code, "AccountProcessError")
  {
  }

  /** `codes.NO_SESSION` names no key of the table: it is `undefined`, not the
      SESSION_MISSING code 1. */
  lemma NoSessionCodeIsUndefined()
    ensures Code("NO_SESSION") == Undefined
    ensures Code("NO_SESSION") != Code("SESSION_MISSING")
  {
  }
}
