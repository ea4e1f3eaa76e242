/**
  `AccountProcess`: builds the payload of the commerce service's
  `account-process / update` endpoint and sends it once the parameters pass
  validation.
 */
module AccountProcess {

  import opened Wrappers
  import opened JsValues
  import opened AccountProcessErrors
  import opened AccountProcessValidator
  import ProcessStatuses

  /** The getters `serviceName`, `serviceNamespace` and `serviceMethod`. */
  const ServiceName: string := "commerce"
  const ServiceNamespace: string := "account-process"
  const ServiceMethod: string := "update"

  /** The only keys a payload can have. */
  const PayloadKeys: set<string> := {"process", "status", "content", "startDate", "endDate"}

  /** `options && options[key]`: the option's value, or `options` itself when
      that is falsy. */
  function OptionValue(options: JsValue, key: string): JsValue {
    if Truthy(options) then Get(options, key) else options
  }

  /** `...options && options[key] ? { [key]: options[key] === true ? new Date() : options[key] } : {}`,
      with the clock reading `now` standing for `new Date()`. */
  function DateEntry(options: JsValue, key: string, now: int): JsValue {
    var v := OptionValue(options, key);
    if Truthy(v) then Obj(map[key := if v == Bool(true) then Date(now) else v]) else Obj(map[])
  }

  /** `formatRequestData(processName, newStatus, content, options)`, evaluated at
      clock reading `now`. */
  function FormatRequestData(processName: JsValue, newStatus: JsValue, content: JsValue,
                             options: JsValue, now: int): (payload: map<string, JsValue>)
    ensures payload.Keys <= PayloadKeys
    ensures "process" in payload && payload["process"] == processName
    ensures "status" in payload && payload["status"] == newStatus
    ensures "content" in payload <==> Truthy(content)
    ensures "content" in payload ==> payload["content"] == content
    ensures "startDate" in payload <==> Truthy(options) && Truthy(Get(options, "startDate"))
    ensures "startDate" in payload ==>
      payload["startDate"] == if Get(options, "startDate") == Bool(true) then Date(now) else Get(options, "startDate")
    ensures "endDate" in payload <==> Truthy(options) && Truthy(Get(options, "endDate"))
    ensures "endDate" in payload ==>
      payload["endDate"] == if Get(options, "endDate") == Bool(true) then Date(now) else Get(options, "endDate")
  {
    map["process" := processName, "status" := newStatus]
      + Spread(if Truthy(content) then Obj(map["content" := content]) else content)
      + Spread(DateEntry(options, "startDate", now))
      + Spread(DateEntry(options, "endDate", now))
  }

  /** Every optional key that is present holds a truthy value: absent options
      are omitted, never sent as `null`. */
  lemma OptionalEntriesAreTruthy(processName: JsValue, newStatus: JsValue, content: JsValue,
                                 options: JsValue, now: int)
    ensures var payload := FormatRequestData(processName, newStatus, content, options, now);
      forall k :: k in payload && k != "process" && k != "status" ==> Truthy(payload[k])
  {
  }

  /** Option keys other than `startDate` and `endDate` never reach the payload:
      changing them changes nothing. */
  lemma UnknownOptionsIgnored(processName: JsValue, newStatus: JsValue, content: JsValue,
                              fields: map<string, JsValue>, key: string, value: JsValue, now: int)
    requires key != "startDate" && key != "endDate"
    ensures FormatRequestData(processName, newStatus, content, Obj(fields[key := value]), now)
         == FormatRequestData(processName, newStatus, content, Obj(fields), now)
  {
    var changed := Obj(fields[key := value]);
    assert Get(changed, "startDate") == Get(Obj(fields), "startDate");
    assert Get(changed, "endDate") == Get(Obj(fields), "endDate");
    assert DateEntry(changed, "startDate", now) == DateEntry(Obj(fields), "startDate", now);
    assert DateEntry(changed, "endDate", now) == DateEntry(Obj(fields), "endDate", now);
  }

  /** After validation passes, the payload carries a string process name, one of
      the status strings, and content that is an object. */
  lemma ValidatedPayload(session: JsValue, accountId: JsValue, processName: JsValue,
                         newStatus: JsValue, content: JsValue, options: JsValue, now: int)
    requires ValidateParams(session, accountId, processName, newStatus, content, options).Pass?
    ensures var payload := FormatRequestData(processName, newStatus, content, options, now);
      && payload["process"].Str?
      && (exists st: ProcessStatuses.Status :: payload["status"] == Str(st.Value()))
      && ("content" in payload ==> payload["content"].Obj? || payload["content"].Date?)
  {
    ValidateParamsPassIff(session, accountId, processName, newStatus, content, options);
  }

  /** One call to `safeCall(service, namespace, method, requestData, requestHeaders, endpointParameters)`. */
  datatype Call = Call(serviceName: string, serviceNamespace: string, serviceMethod: string,
                       requestData: map<string, JsValue>, requestHeaders: JsValue,
                       endpointParameters: map<string, JsValue>)

  /** What `send` did: the calls it issued, in order, and what it resolved with
      (`Success`) or rejected with (`Failure`). */
  datatype SendOutcome = SendOutcome(calls: seq<Call>, result: Result<map<string, JsValue>, AccountProcessError>)

  /** The field `key` of a response object, `undefined` when it has none. */
  function Field(response: map<string, JsValue>, key: string): JsValue {
    if key in response then response[key] else Undefined
  }

  /** The call `send` issues for valid parameters. */
  function UpdateCall(accountId: JsValue, processName: JsValue, newStatus: JsValue,
                      content: JsValue, options: JsValue, now: int): Call {
    Call(ServiceName, ServiceNamespace, ServiceMethod,
         FormatRequestData(processName, newStatus, content, options, now),
         Null,
         map["id" := accountId])
  }

  /** `send(accountId, processName, newStatus, content, options)` on an instance
      whose session is `session`, at clock reading `now`. `safeCall` is the
      transport: the response object it resolves with for a given call. */
  function Send(session: JsValue, accountId: JsValue, processName: JsValue, newStatus: JsValue,
                content: JsValue, options: JsValue, now: int,
                safeCall: Call -> map<string, JsValue>): (o: SendOutcome)
    // Invalid parameters: no call, and the validation error is the rejection.
    ensures ValidateParams(session, accountId, processName, newStatus, content, options).Fail? ==>
      o.calls == [] &&
      o.result == Failure(ValidateParams(session, accountId, processName, newStatus, content, options).error)
    // Valid parameters: exactly one call with the fixed endpoint, the payload,
    // no headers and the account id as endpoint parameter.
    ensures ValidateParams(session, accountId, processName, newStatus, content, options).Pass? ==>
      o.result.Success? &&
      |o.calls| == 1 &&
      o.calls[0] == Call("commerce", "account-process", "update",
                         FormatRequestData(processName, newStatus, content, options, now),
                         Null, map["id" := accountId])
    // Exactly the response's statusCode and body, whatever the status code.
    ensures o.result.Success? ==>
      |o.calls| == 1 &&
      o.result.value.Keys == {"statusCode", "body"} &&
      o.result.value["statusCode"] == Field(safeCall(o.calls[0]), "statusCode") &&
      o.result.value["body"] == Field(safeCall(o.calls[0]), "body")
  {
    match ValidateParams(session, accountId, processName, newStatus, content, options)
    case Fail(e) => SendOutcome([], Failure(e))
    case Pass =>
      var call := UpdateCall(accountId, processName, newStatus, content, options, now);
      var response := safeCall(call);
      var statusCode, body := Field(response, "statusCode"), Field(response, "body");
      SendOutcome([call], Success(map["statusCode" := statusCode, "body" := body]))
  }

  /** `send` rejects exactly when validation fails, and issues a call exactly
      when it does not reject. */
  lemma SendRejectsIffInvalid(session: JsValue, accountId: JsValue, processName: JsValue, newStatus: JsValue,
                              content: JsValue, options: JsValue, now: int,
                              safeCall: Call -> map<string, JsValue>)
    ensures var o := Send(session, accountId, processName, newStatus, content, options, now, safeCall);
      (o.result.Failure? <==> ValidateParams(session, accountId, processName, newStatus, content, options).Fail?)
      && (o.calls == [] <==> o.result.Failure?)
  {
  }
}
