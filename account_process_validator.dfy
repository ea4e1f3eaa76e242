/**
  `AccountProcessValidator`: the fail-fast chain of guards that `send` runs before
  it calls the commerce service. Each guard that fails throws an
  `AccountProcessError`; here the thrown error is the `Fail` outcome.
 */
module AccountProcessValidator {

  import opened Wrappers
  import opened JsValues
  import opened HexPattern
  import opened AccountProcessErrors
  import opened ProcessStatuses
  import Validators

  /** What `validateParams` does: return normally, or throw this error. */
  datatype Outcome = Pass | Fail(error: AccountProcessError)

  // The static predicates of the class, written out as the class writes them.

  /** `typeof value === 'string'`. */
  predicate IsString(v: JsValue) {
    TypeOf(v) == StringType
  }

  /** `typeof value === 'string' && /^[0-9a-fA-F]{24}$/.test(value)`. */
  predicate IsObjectId(v: JsValue) {
    TypeOf(v) == StringType && MatchesObjectIdPattern(v.s)
  }

  /** `typeof value === 'object' && !Array.isArray(value)`. */
  predicate IsObject(v: JsValue) {
    TypeOf(v) == ObjectType && !IsArray(v)
  }

  /** The class's static predicates and the standalone ones agree on every value. */
  lemma AgreesWithValidators(v: JsValue)
    ensures IsString(v) == Validators.IsString(v)
    ensures IsObjectId(v) == Validators.IsObjectId(v)
    ensures IsObject(v) == Validators.IsObject(v)
  {
  }

  // The error each guard throws, written out field by field;
  // `GuardErrorsAreConstructed` shows each is what the constructor builds.

  const NoSessionError := AccountProcessError(Str("No Session found"), Undefined, "AccountProcessError")
  const InvalidAccountIdError := AccountProcessError(Str("Invalid Account Id"), Num(2.0), "AccountProcessError")
  const InvalidProcessNameError := AccountProcessError(Str("Invalid Process Name"), Num(3.0), "AccountProcessError")
  const InvalidStatusError := AccountProcessError(Str("Invalid Status"), Num(4.0), "AccountProcessError")
  const InvalidContentError := AccountProcessError(Str("Invalid Content"), Num(5.0), "AccountProcessError")
  const InvalidOptionsError := AccountProcessError(Str("Invalid Options"), Num(6.0), "AccountProcessError")

  /** Each guard's error is `new AccountProcessError(message, AccountProcessError.codes.NAME)`
      for the guard's message and code name; the missing session uses the name
      `NO_SESSION`, which the table lacks. */
  lemma GuardErrorsAreConstructed()
    ensures NoSessionError == New(Str("No Session found"), Code("NO_SESSION"))
    ensures InvalidAccountIdError == New(Str("Invalid Account Id"), Code("INVALID_ACCOUNTS_ID"))
    ensures InvalidProcessNameError == New(Str("Invalid Process Name"), Code("INVALID_PROCESS_NAME"))
    ensures InvalidStatusError == New(Str("Invalid Status"), Code("INVALID_STATUS"))
    ensures InvalidContentError == New(Str("Invalid Content"), Code("INVALID_CONTENT"))
    ensures InvalidOptionsError == New(Str("Invalid Options"), Code("INVALID_OPTIONS"))
  {
    SessionAndAccountErrors();
    NameAndStatusErrors();
    ContentAndOptionsErrors();
  }

  lemma SessionAndAccountErrors()
    ensures NoSessionError == New(Str("No Session found"), Code("NO_SESSION"))
    ensures InvalidAccountIdError == New(Str("Invalid Account Id"), Code("INVALID_ACCOUNTS_ID"))
  {
  }

  lemma NameAndStatusErrors()
    ensures InvalidProcessNameError == New(Str("Invalid Process Name"), Code("INVALID_PROCESS_NAME"))
    ensures InvalidStatusError == New(Str("Invalid Status"), Code("INVALID_STATUS"))
  {
  }

  lemma ContentAndOptionsErrors()
    ensures InvalidContentError == New(Str("Invalid Content"), Code("INVALID_CONTENT"))
    ensures InvalidOptionsError == New(Str("Invalid Options"), Code("INVALID_OPTIONS"))
  {
  }

  /** `validateParams(session, accountId, processName, newStatus, content, options)`. */
  function ValidateParams(session: JsValue, accountId: JsValue, processName: JsValue,
                          newStatus: JsValue, content: JsValue, options: JsValue): Outcome
  {
    if !Truthy(session) then Fail(NoSessionError)
    else if !IsObjectId(accountId) then Fail(InvalidAccountIdError)
    else if !IsString(processName) then Fail(InvalidProcessNameError)
    else if !IsStatusValue(newStatus) then Fail(InvalidStatusError)
    else if Truthy(content) && !IsObject(content) then Fail(InvalidContentError)
    else if Truthy(options) && !IsObject(options) then Fail(InvalidOptionsError)
    else Pass
  }

  /** Soundness and completeness: validation passes exactly when the session is
      truthy, the account id is 24 hex digits, the process name is a string, the
      status is one of the statuses' strings, and truthy content and options are
      plain objects or dates. */
  lemma ValidateParamsPassIff(session: JsValue, accountId: JsValue, processName: JsValue,
                              newStatus: JsValue, content: JsValue, options: JsValue)
    ensures ValidateParams(session, accountId, processName, newStatus, content, options).Pass? <==>
      Truthy(session)
      && accountId.Str? && |accountId.s| == 24 && AllHex(accountId.s)
      && processName.Str?
      && (exists st: Status :: newStatus == Str(st.Value()))
      && (Truthy(content) ==> content.Obj? || content.Date?)
      && (Truthy(options) ==> options.Obj? || options.Date?)
  {
    IsObjectIdIff(accountId);
    IsStatusValueIff(newStatus);
  }

  lemma IsObjectIdIff(v: JsValue)
    ensures IsObjectId(v) <==> v.Str? && |v.s| == 24 && AllHex(v.s)
  {
    if v.Str? {
      ObjectIdPatternIff(v.s);
    }
  }

  // Fail-fast ordering, stated against an independent reference: the list of
  // guard conditions in the order they run, and the first one that fails.

  /** The six guard conditions, in the order they are checked. */
  function Checks(session: JsValue, accountId: JsValue, processName: JsValue,
                  newStatus: JsValue, content: JsValue, options: JsValue): seq<bool> {
    [ Truthy(session),
      IsObjectId(accountId),
      IsString(processName),
      IsStatusValue(newStatus),
      !Truthy(content) || IsObject(content),
      !Truthy(options) || IsObject(options) ]
  }

  /** The error of each guard, in the same order. */
  const GuardErrors: seq<AccountProcessError> := [
    NoSessionError, InvalidAccountIdError, InvalidProcessNameError,
    InvalidStatusError, InvalidContentError, InvalidOptionsError
  ]

  /** The position of the first false entry, if there is one. */
  function FirstFailing(checks: seq<bool>): (r: Option<nat>)
    ensures r.Some? ==> r.value < |checks| && !checks[r.value]
  {
    if checks == [] then None
    else if !checks[0] then Some(0)
    else match FirstFailing(checks[1..])
      case None => None
      case Some(i) => Some(i + 1)
  }

  /** `FirstFailing` finds the first false entry, and finds none exactly when all
      entries are true. */
  lemma {:induction false} FirstFailingIff(checks: seq<bool>)
    ensures FirstFailing(checks).None? <==> forall j :: 0 <= j < |checks| ==> checks[j]
    ensures FirstFailing(checks).Some? ==>
      var i := FirstFailing(checks).value;
      i < |checks| && !checks[i] && forall j :: 0 <= j < i ==> checks[j]
  {
    if checks != [] && checks[0] {
      var rest := checks[1..];
      FirstFailingIff(rest);
      assert forall j :: 1 <= j < |checks| ==> checks[j] == rest[j - 1];
    }
  }

  /** The outcome of `validateParams` is the error of the first guard that fails,
      and normal return when none fails. */
  lemma {:induction false} ValidateIsFirstFailure(session: JsValue, accountId: JsValue, processName: JsValue,
                                                  newStatus: JsValue, content: JsValue, options: JsValue)
    ensures
      var checks := Checks(session, accountId, processName, newStatus, content, options);
      ValidateParams(session, accountId, processName, newStatus, content, options) ==
        match FirstFailing(checks)
        case None => Pass
        case Some(i) => Fail(GuardErrors[i])
  {
    var checks := Checks(session, accountId, processName, newStatus, content, options);
    FirstFailingIff(checks);
    var r := ValidateParams(session, accountId, processName, newStatus, content, options);
    match FirstFailing(checks)
    case None =>
      assert checks[0] && checks[1] && checks[2] && checks[3] && checks[4] && checks[5];
    case Some(i) =>
      assert i < 6;
      if i == 0 { }
      else if i == 1 { assert checks[0]; }
      else if i == 2 { assert checks[0] && checks[1]; }
      else if i == 3 { assert checks[0] && checks[1] && checks[2]; }
      else if i == 4 { assert checks[0] && checks[1] && checks[2] && checks[3]; }
      else { assert checks[0] && checks[1] && checks[2] && checks[3] && checks[4]; }
  }

  /** A falsy session fails first, whatever the other arguments are, and its
      error carries the code `undefined`. */
  lemma NoSessionFailsFirst(session: JsValue, accountId: JsValue, processName: JsValue,
                            newStatus: JsValue, content: JsValue, options: JsValue)
    requires !Truthy(session)
    ensures ValidateParams(session, accountId, processName, newStatus, content, options) == Fail(NoSessionError)
    ensures NoSessionError.code == Undefined
  {
  }

  /** Any string passes the process-name guard, the empty string included;
      a non-string fails it. */
  lemma ProcessNameGuard(session: JsValue, accountId: JsValue, processName: JsValue,
                         newStatus: JsValue, content: JsValue, options: JsValue)
    requires Truthy(session) && IsObjectId(accountId)
    ensures ValidateParams(session, accountId, processName, newStatus, content, options) == Fail(InvalidProcessNameError)
            <==> !processName.Str?
  {
  }

  /** Once the earlier guards pass, the status guard fails exactly for values
      outside the status set. */
  lemma StatusGuard(session: JsValue, accountId: JsValue, processName: JsValue,
                    newStatus: JsValue, content: JsValue, options: JsValue)
    requires Truthy(session) && IsObjectId(accountId) && processName.Str?
    ensures ValidateParams(session, accountId, processName, newStatus, content, options) == Fail(InvalidStatusError)
            <==> !exists st: Status :: newStatus == Str(st.Value())
  {
    IsStatusValueIff(newStatus);
  }

  /** Falsy content skips its guard; truthy content fails it unless it is a
      plain object or a date. */
  lemma ContentGuard(session: JsValue, accountId: JsValue, processName: JsValue,
                     newStatus: JsValue, content: JsValue, options: JsValue)
    requires Truthy(session) && IsObjectId(accountId) && processName.Str? && IsStatusValue(newStatus)
    ensures ValidateParams(session, accountId, processName, newStatus, content, options) == Fail(InvalidContentError)
            <==> Truthy(content) && !content.Obj? && !content.Date?
  {
  }

  /** The same rule for options, the last guard. */
  lemma OptionsGuard(session: JsValue, accountId: JsValue, processName: JsValue,
                     newStatus: JsValue, content: JsValue, options: JsValue)
    requires Truthy(session) && IsObjectId(accountId) && processName.Str? && IsStatusValue(newStatus)
    requires !Truthy(content) || IsObject(content)
    ensures ValidateParams(session, accountId, processName, newStatus, content, options) == Fail(InvalidOptionsError)
            <==> Truthy(options) && !options.Obj? && !options.Date?
  {
  }

  /** When every guard's condition holds, validation returns normally. */
  lemma GuardsPass(session: JsValue, accountId: JsValue, processName: JsValue,
                   newStatus: JsValue, content: JsValue, options: JsValue)
    requires Truthy(session) && IsObjectId(accountId) && processName.Str? && IsStatusValue(newStatus)
    requires !Truthy(content) || content.Obj? || content.Date?
    requires !Truthy(options) || options.Obj? || options.Date?
    ensures ValidateParams(session, accountId, processName, newStatus, content, options) == Pass
  {
  }

  /** The six guard errors carry six different codes: 2 to 6 for the table's
      names, and `undefined` for the missing session. */
  lemma GuardErrorCodes()
    ensures GuardErrors[0].code == Undefined
    ensures forall i :: 1 <= i < |GuardErrors| ==> GuardErrors[i].code == Num((i + 1) as real)
    ensures forall i, j :: 0 <= i < j < |GuardErrors| ==> GuardErrors[i].code != GuardErrors[j].code
  {
  }
}
