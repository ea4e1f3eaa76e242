# account-process, modelled in Dafny

A model of the client library `@janiscommerce/account-process`. The library's
`AccountProcess.send(accountId, processName, newStatus, content, options)` reports
a new status of one of an account's processes to the commerce service's
`account-process / update` endpoint. It has three parts:

- **Validation.** `AccountProcessValidator.validateParams` runs six guards in
  order: a session is present, the account id is a 24-digit hex ObjectId, the
  process name is a string, the status is one of the known statuses, and content
  and options, when truthy, are non-array objects. The first guard that fails
  throws an `AccountProcessError` with its own code.
- **Request payload.** `formatRequestData` builds the request body from
  conditional spreads. Optional content is included, and so are a start date and
  an end date, where `true` means "now".
- **Calling the service.** `send` validates, issues exactly one call, and
  answers with the response's `statusCode` and `body`, whatever the status code.

The files:

- `js_values.dfy`: the JavaScript values the library inspects (`JsValue`), with
  truthiness, `typeof`, `Array.isArray`, property reads and object spread.
- `hex_pattern.dfy`: the regular expression `/^[0-9a-fA-F]{24}$/` as a character
  matcher, and its characterisation.
- `validators.dfy`: the standalone predicates `isString`, `isObjectId` and
  `isObject`.
- `account_process_error.dfy`: the `AccountProcessError` code table and its
  constructor.
- `process_statuses.dfy`: the status set and the `includes` scan over its
  values.
- `account_process_validator.dfy`: `validateParams` and the validator's static
  predicates. It also defines an independent reference for the fail-fast order:
  the first failing entry of the list of guard conditions.
- `account_process.dfy`: `formatRequestData` and `send`. The transport is a
  parameter: a function from the issued call to the response object it resolves
  with. The clock reading `now` is a parameter too.
- `account_process_scenarios.dfy`: every case of the repository's test suite as
  a lemma. The lemmas are stated for any truthy session, any valid account id,
  any string process name and any valid status. Small lemmas show that the
  tests' literal values are of those kinds.

## Model

| member | source | states |
|---|---|---|
| JsValues.Truthy | lib/helpers/account-process-validator.js:19 | ECMAScript ToBoolean, used by `!session`, `content && …` and `options && …`; characterised by FalsyValues |
| JsValues.FalsyValues | lib/helpers/account-process-validator.js:19 | `!v` holds exactly for undefined, null, false, 0, NaN and the empty string |
| JsValues.TypeOf | lib/validators.js:8 | `typeof` is `'string'` exactly for strings; `'object'` exactly for null, arrays, plain objects and dates; `'undefined'` only for undefined |
| JsValues.Get | lib/account-process-error.js:21 | reading a named property (`err.message`, `options.startDate`, `options.endDate`), `undefined` when absent |
| JsValues.Spread | lib/account-process.js:72-74 | the keys that `...v` contributes to an object literal: an object's own fields, nothing for falsy primitives |
| JsValues.IsArray | lib/helpers/account-process-validator.js:59 | `Array.isArray(v)`; its role in `isObject` is characterised by Validators.IsObjectIff |
| JsValues.TypeNamesDistinct | lib/validators.js:8 | comparing `typeof` strings is comparing types: the six names differ |
| HexPattern.MatchesHexRun | lib/validators.js:16 | the anchored pattern of n characters of the class `[0-9a-fA-F]`, matched character by character; characterised by MatchesHexRunIff |
| HexPattern.MatchesObjectIdPattern | lib/validators.js:16 | `/^[0-9a-fA-F]{24}$/.test(s)`; characterised by ObjectIdPatternIff |
| HexPattern.HexDigitClass | lib/validators.js:16 | the character class `[0-9a-fA-F]` is exactly the 22 hex digit characters of either case |
| HexPattern.MatchesHexRunIff | lib/validators.js:16 | the anchored pattern of n hex digits matches exactly the strings of length n made only of hex digits |
| HexPattern.ObjectIdPatternIff | lib/validators.js:16 | `/^[0-9a-fA-F]{24}$/` matches exactly the 24-character all-hex strings |
| Validators.IsString | lib/validators.js:7-9 | `typeof value === 'string'`; characterised by Validators.IsStringIff |
| Validators.IsObjectId | lib/validators.js:15-17 | `typeof value === 'string'` and the ObjectId pattern; characterised by Validators.IsObjectIdIff |
| Validators.IsObject | lib/validators.js:23-25 | `typeof value === 'object' && !Array.isArray(value)`; characterised by Validators.IsObjectIff |
| Validators.IsStringIff | lib/validators.js:7-9 | `isString(v)` holds exactly when v is a string |
| Validators.IsObjectIdIff | lib/validators.js:15-17 | `isObjectId` is false for every non-string; a string passes exactly when it has 24 characters, each a hex digit |
| Validators.IsObjectIff | lib/validators.js:23-25 | `isObject` holds exactly for null, plain objects and dates; arrays and other primitives fail |
| AccountProcessValidator.IsString | lib/helpers/account-process-validator.js:42-44 | the static `isString`; agrees with Validators.IsString by AgreesWithValidators |
| AccountProcessValidator.IsObjectId | lib/helpers/account-process-validator.js:50-52 | the static `isObjectId`; characterised by AccountProcessValidator.IsObjectIdIff |
| AccountProcessValidator.IsObject | lib/helpers/account-process-validator.js:58-60 | the static `isObject`; agrees with Validators.IsObject by AgreesWithValidators |
| AccountProcessValidator.AgreesWithValidators | lib/helpers/account-process-validator.js:42-60 | the validator's static `isString`, `isObjectId` and `isObject` agree pointwise with the standalone ones in lib/validators.js |
| AccountProcessValidator.IsObjectIdIff | lib/helpers/account-process-validator.js:50-52 | the static `isObjectId` holds exactly for 24-character all-hex strings |
| AccountProcessErrors.Codes | lib/account-process-error.js:5-16 | the static `codes` table; characterised by CodesNumberedInOrder |
| AccountProcessErrors.CodesNumberedInOrder | lib/account-process-error.js:5-16 | the code table has exactly the seven declared names, numbered 1 to 7 in declaration order, and no two names share a code |
| AccountProcessErrors.Code | lib/account-process-error.js:5-16 | `codes[name]` for the name at position i of the declared order is i + 1; a name that is neither declared nor inherited from `Object.prototype` gives `undefined` |
| AccountProcessErrors.New | lib/account-process-error.js:18-24 | the error stores `code` exactly as passed; `message` is `err.message` when that is truthy, else `err`; `name` is `'AccountProcessError'` |
| AccountProcessErrors.NewFromString | lib/account-process-error.js:21 | an error built from a string keeps the string as its message |
| AccountProcessErrors.NoSessionCodeIsUndefined | lib/account-process-error.js:7-15 | `codes.NO_SESSION` is `undefined`, which differs from SESSION_MISSING's code 1 |
| ProcessStatuses.Values | lib/helpers/account-process-validator.js:28 | `Object.values(processStatuses)`, the four status strings; characterised by IsStatusValueIff |
| ProcessStatuses.Includes | lib/helpers/account-process-validator.js:28 | `Array.prototype.includes` as a scan from the front; characterised by IncludesIff |
| ProcessStatuses.IsStatusValue | lib/helpers/account-process-validator.js:28 | `Object.values(processStatuses).includes(v)`; characterised by IsStatusValueIff |
| ProcessStatuses.IncludesIff | lib/helpers/account-process-validator.js:28 | the `includes` scan finds a value exactly when the value is an element of the list |
| ProcessStatuses.IsStatusValueIff | lib/helpers/account-process-validator.js:28 | `Object.values(processStatuses).includes(v)` holds exactly when v is the string of one of the statuses |
| ProcessStatuses.ValuesDistinct | lib/account-process.js:10-12 | the statuses' strings are pairwise different |
| AccountProcessValidator.ValidateParams | lib/helpers/account-process-validator.js:17-36 | the six guards in source order, each throwing its own error; its properties are ValidateParamsPassIff, ValidateIsFirstFailure and the per-guard lemmas below |
| AccountProcessValidator.GuardErrorsAreConstructed | lib/helpers/account-process-validator.js:19-35 | each guard's error is what the constructor builds from the guard's message and `codes[NAME]`; the session guard uses the missing name `NO_SESSION` |
| AccountProcessValidator.ValidateParamsPassIff | lib/helpers/account-process-validator.js:17-36 | validation returns normally exactly when the session is truthy, the id is 24 hex digits, the name is a string, the status is a status string, and truthy content and options are plain objects or dates (soundness and completeness) |
| AccountProcessValidator.FirstFailingIff | lib/helpers/account-process-validator.js:19-35 | the reference `FirstFailing` finds the first false guard condition, and finds none exactly when all hold |
| AccountProcessValidator.ValidateIsFirstFailure | lib/helpers/account-process-validator.js:19-35 | the thrown error is the error of the first guard, in source order, whose condition fails; normal return when none fails |
| AccountProcessValidator.NoSessionFailsFirst | lib/helpers/account-process-validator.js:19-20 | a falsy session fails first, whatever the other arguments, with code `undefined` |
| AccountProcessValidator.ProcessNameGuard | lib/helpers/account-process-validator.js:25-26 | after the first two guards pass, the process-name error is thrown exactly for non-strings; every string passes, the empty one included |
| AccountProcessValidator.StatusGuard | lib/helpers/account-process-validator.js:28-29 | after the earlier guards pass, the status error is thrown exactly for values outside the status set |
| AccountProcessValidator.ContentGuard | lib/helpers/account-process-validator.js:31-32 | after the earlier guards pass, the content error is thrown exactly for truthy content that is neither a plain object nor a date |
| AccountProcessValidator.OptionsGuard | lib/helpers/account-process-validator.js:34-35 | the same rule for options, once content has passed |
| AccountProcessValidator.GuardsPass | lib/helpers/account-process-validator.js:17-36 | when all six conditions hold, validation returns normally |
| AccountProcessValidator.GuardErrorCodes | lib/helpers/account-process-validator.js:19-35 | the six guard errors carry six different codes: `undefined`, then 2 to 6 |
| AccountProcess.ServiceName | lib/account-process.js:14-16 | the getter `serviceName`, `'commerce'`; Send's contract fixes it as the call's service |
| AccountProcess.ServiceNamespace | lib/account-process.js:18-20 | the getter `serviceNamespace`, `'account-process'`; Send's contract fixes it as the call's namespace |
| AccountProcess.ServiceMethod | lib/account-process.js:22-24 | the getter `serviceMethod`, `'update'`; Send's contract fixes it as the call's method |
| AccountProcess.OptionValue | lib/account-process.js:73-74 | `options && options[key]`; its effect on the payload is stated by FormatRequestData's contract |
| AccountProcess.DateEntry | lib/account-process.js:73-74 | the conditional `{ [key]: … }` or `{}` for one date option; its effect on the payload is stated by FormatRequestData's contract |
| AccountProcess.FormatRequestData | lib/account-process.js:68-76 | the payload's keys are among process, status, content, startDate and endDate; process and status are always the given values; content is present exactly when truthy and unchanged, so `{}` is included; each date is present exactly when options and that option are truthy, and is `now` for `true`, else the given value |
| AccountProcess.OptionalEntriesAreTruthy | lib/account-process.js:72-74 | every optional key present holds a truthy value; absent options are omitted, never sent as null |
| AccountProcess.UnknownOptionsIgnored | lib/account-process.js:73-74 | option keys other than startDate and endDate do not change the payload |
| AccountProcess.ValidatedPayload | lib/account-process.js:36-49 | after validation passes the payload has a string process, a status string, and content that is an object or date |
| AccountProcess.UpdateCall | lib/account-process.js:45-52 | the arguments of the one `safeCall`: the three getters, the payload, `null` and `{ id: accountId }`; Send's contract states them |
| AccountProcess.Field | lib/account-process.js:42-44 | destructuring one field of the response, `undefined` when absent; Send's contract states the result through it |
| AccountProcess.Send | lib/account-process.js:14-58 | invalid parameters: no call, and the validation error is the rejection; valid parameters: exactly one call, to `commerce / account-process / update`, with the payload, `null` and `{id: accountId}`; the result has exactly the keys statusCode and body, equal to the response's |
| AccountProcess.SendRejectsIffInvalid | lib/account-process.js:38-57 | `send` rejects exactly when validation fails, and issues no call exactly when it rejects |
| AccountProcessScenarios.ValidAccountIdIsObjectId | tests/account-process-test.js:26 | the tests' account id `5dea9fc691240d00084083f8` is an ObjectId |
| AccountProcessScenarios.PendingIsStatus | tests/account-process-test.js:75-79 | `'pending'` is a valid status |
| AccountProcessScenarios.TestingIsNotStatus | tests/account-process-test.js:57 | `'testing'` is not a status |
| AccountProcessScenarios.RejectsWithoutArguments | tests/account-process-test.js:38-52 | with no arguments: rejected with INVALID_ACCOUNTS_ID, no call |
| AccountProcessScenarios.RejectsWithOnlyAccountId | tests/account-process-test.js:38-52 | with only an account id: INVALID_PROCESS_NAME, no call |
| AccountProcessScenarios.RejectsWithoutStatus | tests/account-process-test.js:38-52 | with account id and process name only: INVALID_STATUS, no call |
| AccountProcessScenarios.RejectsNumericAccountId | tests/account-process-test.js:55 | account id `1`: INVALID_ACCOUNTS_ID, no call |
| AccountProcessScenarios.RejectsNumericProcessName | tests/account-process-test.js:56 | process name `1`: INVALID_PROCESS_NAME, no call |
| AccountProcessScenarios.RejectsUnknownStatus | tests/account-process-test.js:57 | status `'testing'`: INVALID_STATUS, no call |
| AccountProcessScenarios.RejectsStringContent | tests/account-process-test.js:58 | content `'Message'`: INVALID_CONTENT, no call |
| AccountProcessScenarios.RejectsBooleanOptions | tests/account-process-test.js:59 | options `true`: INVALID_OPTIONS, no call |
| AccountProcessScenarios.RejectsWithoutSession | tests/account-process-test.js:88-97 | without a session: the no-session error, code `undefined`, no call |
| AccountProcessScenarios.ResponsePassedThrough | tests/account-process-test.js:210-232 | the response's status code and body come back unchanged, 200, 404 and 500 alike |
| AccountProcessScenarios.MinimalPayload | tests/account-process-test.js:105-108 | without content and options the payload is just process and status |
| AccountProcessScenarios.MinimalCall | tests/account-process-test.js:99-109 | the one call issued for the basic parameters |
| AccountProcessScenarios.ContentPayload | tests/account-process-test.js:118-122 | content `{message: 'Ok'}` is sent as given |
| AccountProcessScenarios.ContentCall | tests/account-process-test.js:111-123 | the one call issued with content |
| AccountProcessScenarios.StartDateNowPayload | tests/account-process-test.js:125-137 | `startDate: true` sends the clock reading |
| AccountProcessScenarios.SpecificStartDateKept | tests/account-process-test.js:139-151 | an explicit start date is sent as it is |
| AccountProcessScenarios.EndDateNowPayload | tests/account-process-test.js:153-165 | `endDate: true` sends the clock reading |
| AccountProcessScenarios.SpecificEndDateKept | tests/account-process-test.js:167-179 | an explicit end date is sent as it is |
| AccountProcessScenarios.UnknownOptionPayload | tests/account-process-test.js:188-191 | the unknown option `makeMagic` leaves only process and status |
| AccountProcessScenarios.UnknownOptionCall | tests/account-process-test.js:181-192 | the one call issued with the unknown option |
| AccountProcessScenarios.FullPayload | tests/account-process-test.js:201-207 | content and both dates `true`: all five keys, both dates the clock reading |
| AccountProcessScenarios.FullCall | tests/account-process-test.js:194-208 | the one call issued with full fields |

## Left out

- The transport `safeCall` of `@janiscommerce/microservice-call` and `session.getSessionInstance` are foreign code. The transport is a parameter that maps the issued call to the response. The type of that parameter always yields an object, so a `safeCall` that resolves with `null` or `undefined` is not modelled; in the source the destructuring at lib/account-process.js:42-52 would then throw a TypeError, and `send` would reject. A failing transport (a rejected promise) and a truthy session without `getSessionInstance` are not modelled either.
- The asynchronous mechanics of `send` are not modelled. A rejection is the `Failure` result; resolution is the `Success` result.
- The clock is not modelled. `now` is a parameter, and the two `new Date()` readings for startDate and endDate are taken to be equal.
- `lib/helpers/process-statuses.json` is not part of this model. The status set is taken to be pending, processing, success and error.
- `lib/index.js` only re-exports the two classes.
- The regular-expression engine is not modelled. The one pattern used is written out as a character matcher.
- SERVICE_NAME_MISSING is in the code table but no shown code raises it.
- JavaScript numbers are reals plus a NaN value. `Num(real)` cannot hold `Infinity` or `-Infinity`. Floating-point rounding, `-0` versus `0`, BigInt and Symbol are not modelled.
- Key order of object literals is not modelled. The payload is a map.
- AccountProcessErrors.Code: names inherited from `Object.prototype` (such as `toString` or `constructor`) are not modelled and give `undefined`; the source reads only `NO_SESSION` and the declared names.
- JsValues.Get: only own named properties of plain objects are read. Inherited properties, and properties of arrays, strings and functions, read as `undefined`.
- AccountProcessErrors.New: `new AccountProcessError(null)` and `new AccountProcessError(undefined)` throw a TypeError in the source; the precondition excludes them. The `Error` superclass's own state (`super(err)`, the stack trace) is not modelled.
- JsValues.Spread: values whose spread yields index keys (non-empty strings, arrays) are excluded; the library never spreads them.
