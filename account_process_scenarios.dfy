/** The behaviour the repository's test suite pins down, one lemma per test case.
    The lemmas hold for every truthy session (the tests use an `ApiSession`
    object), every valid account id, every string process name and every valid
    status; `ValidAccountIdIsObjectId`, `PendingIsStatus` and `TestingIsNotStatus`
    show that the literals the tests use are of the kinds required. */
module AccountProcessScenarios {

  import opened Wrappers
  import opened JsValues
  import opened HexPattern
  import opened AccountProcessValidator
  import opened AccountProcess
  import ProcessStatuses

  const ValidAccountId: JsValue := Str("5dea9fc691240d00084083f8")

  /** A transport stub that answers every call with the same response. */
  function Stub(statusCode: real, body: JsValue): Call -> map<string, JsValue> {
    _ => map["statusCode" := Num(statusCode), "body" := body]
  }

  lemma ValidAccountIdIsObjectId()
    ensures IsObjectId(ValidAccountId)
  {
    var s := ValidAccountId.s;
    forall i | 0 <= i < |s| ensures IsHexDigit(s[i]) {
      HexDigitClass(s[i]);
    }
    ObjectIdPatternIff(s);
  }

  /** `'pending'`, the status the tests send, passes the status guard. */
  lemma PendingIsStatus()
    ensures ProcessStatuses.IsStatusValue(Str("pending"))
  {
    ProcessStatuses.IsStatusValueIff(Str("pending"));
    assert Str("pending") == Str(ProcessStatuses.Status.Pending.Value());
  }

  /** `'testing'` is not a status. */
  lemma TestingIsNotStatus()
    ensures !ProcessStatuses.IsStatusValue(Str("testing"))
  {
    ProcessStatuses.IsStatusValueIff(Str("testing"));
  }

  // Missing parameters fail in guard order, before any call.

  lemma RejectsWithoutArguments(session: JsValue, now: int, safeCall: Call -> map<string, JsValue>)
    requires Truthy(session)
    ensures Send(session, Undefined, Undefined, Undefined, Undefined, Undefined, now, safeCall)
         == SendOutcome([], Failure(InvalidAccountIdError))
  {
    assert ValidateParams(session, Undefined, Undefined, Undefined, Undefined, Undefined) == Fail(InvalidAccountIdError);
  }

  lemma RejectsWithOnlyAccountId(session: JsValue, accountId: JsValue, now: int, safeCall: Call -> map<string, JsValue>)
    requires Truthy(session)
    requires IsObjectId(accountId)
    ensures Send(session, accountId, Undefined, Undefined, Undefined, Undefined, now, safeCall)
         == SendOutcome([], Failure(InvalidProcessNameError))
  {
    assert ValidateParams(session, accountId, Undefined, Undefined, Undefined, Undefined) == Fail(InvalidProcessNameError);
  }

  lemma RejectsWithoutStatus(session: JsValue, accountId: JsValue, processName: JsValue, now: int,
                             safeCall: Call -> map<string, JsValue>)
    requires Truthy(session)
    requires IsObjectId(accountId)
    requires processName.Str?
    ensures Send(session, accountId, processName, Undefined, Undefined, Undefined, now, safeCall)
         == SendOutcome([], Failure(InvalidStatusError))
  {
    ProcessStatuses.IsStatusValueIff(Undefined);
    assert ValidateParams(session, accountId, processName, Undefined, Undefined, Undefined) == Fail(InvalidStatusError);
  }

  // Each invalid parameter is rejected with its own error, before any call.

  lemma RejectsNumericAccountId(session: JsValue, processName: JsValue, status: JsValue, now: int,
                                safeCall: Call -> map<string, JsValue>)
    requires Truthy(session)
    ensures Send(session, Num(1.0), processName, status, Undefined, Undefined, now, safeCall)
         == SendOutcome([], Failure(InvalidAccountIdError))
  {
    assert ValidateParams(session, Num(1.0), processName, status, Undefined, Undefined) == Fail(InvalidAccountIdError);
  }

  lemma RejectsNumericProcessName(session: JsValue, accountId: JsValue, status: JsValue, now: int,
                                  safeCall: Call -> map<string, JsValue>)
    requires Truthy(session)
    requires IsObjectId(accountId)
    ensures Send(session, accountId, Num(1.0), status, Undefined, Undefined, now, safeCall)
         == SendOutcome([], Failure(InvalidProcessNameError))
  {
    assert ValidateParams(session, accountId, Num(1.0), status, Undefined, Undefined) == Fail(InvalidProcessNameError);
  }

  lemma RejectsUnknownStatus(session: JsValue, accountId: JsValue, processName: JsValue, now: int,
                             safeCall: Call -> map<string, JsValue>)
    requires Truthy(session)
    requires IsObjectId(accountId)
    requires processName.Str?
    ensures Send(session, accountId, processName, Str("testing"), Undefined, Undefined, now, safeCall)
         == SendOutcome([], Failure(InvalidStatusError))
  {
    TestingIsNotStatus();
    assert ValidateParams(session, accountId, processName, Str("testing"), Undefined, Undefined) == Fail(InvalidStatusError);
  }

  lemma RejectsStringContent(session: JsValue, accountId: JsValue, processName: JsValue, status: JsValue, now: int,
                             safeCall: Call -> map<string, JsValue>)
    requires Truthy(session)
    requires IsObjectId(accountId)
    requires processName.Str?
    requires ProcessStatuses.IsStatusValue(status)
    ensures Send(session, accountId, processName, status, Str("Message"), Undefined, now, safeCall)
         == SendOutcome([], Failure(InvalidContentError))
  {
    ContentGuard(session, accountId, processName, status, Str("Message"), Undefined);
    assert Truthy(Str("Message"));
    assert ValidateParams(session, accountId, processName, status, Str("Message"), Undefined) == Fail(InvalidContentError);
  }

  lemma RejectsBooleanOptions(session: JsValue, accountId: JsValue, processName: JsValue, status: JsValue, now: int,
                              safeCall: Call -> map<string, JsValue>)
    requires Truthy(session)
    requires IsObjectId(accountId)
    requires processName.Str?
    requires ProcessStatuses.IsStatusValue(status)
    ensures Send(session, accountId, processName, status, Null, Bool(true), now, safeCall)
         == SendOutcome([], Failure(InvalidOptionsError))
  {
    OptionsGuard(session, accountId, processName, status, Null, Bool(true));
  }

  /** An instance without a session rejects with code `undefined` and makes no call. */
  lemma RejectsWithoutSession(accountId: JsValue, processName: JsValue, status: JsValue, now: int,
                              safeCall: Call -> map<string, JsValue>)
    ensures Send(Undefined, accountId, processName, status, Undefined, Undefined, now, safeCall)
         == SendOutcome([], Failure(NoSessionError))
    ensures NoSessionError.code == Undefined
  {
    assert ValidateParams(Undefined, accountId, processName, status, Undefined, Undefined) == Fail(NoSessionError);
  }

  // Valid parameters: the call that is issued and what comes back.

  /** The response's status code and body come back unchanged, 200, 404 and 500 alike. */
  lemma ResponsePassedThrough(session: JsValue, accountId: JsValue, processName: JsValue, status: JsValue,
                              now: int, statusCode: real, body: JsValue)
    requires Truthy(session)
    requires IsObjectId(accountId)
    requires processName.Str?
    requires ProcessStatuses.IsStatusValue(status)
    ensures Send(session, accountId, processName, status, Undefined, Undefined, now, Stub(statusCode, body)).result
         == Success(map["statusCode" := Num(statusCode), "body" := body])
  {
    GuardsPass(session, accountId, processName, status, Undefined, Undefined);
  }

  /** Without content and options the payload is just `process` and `status`. */
  lemma MinimalPayload(processName: JsValue, status: JsValue, now: int)
    ensures FormatRequestData(processName, status, Undefined, Undefined, now)
         == map["process" := processName, "status" := status]
  {
    var p := FormatRequestData(processName, status, Undefined, Undefined, now);
    assert p.Keys == {"process", "status"};
  }

  lemma MinimalCall(session: JsValue, accountId: JsValue, processName: JsValue, status: JsValue, now: int,
                    safeCall: Call -> map<string, JsValue>)
    requires Truthy(session)
    requires IsObjectId(accountId)
    requires processName.Str?
    requires ProcessStatuses.IsStatusValue(status)
    ensures Send(session, accountId, processName, status, Undefined, Undefined, now, safeCall).calls
         == [Call("commerce", "account-process", "update",
                  map["process" := processName, "status" := status],
                  Null, map["id" := accountId])]
  {
    GuardsPass(session, accountId, processName, status, Undefined, Undefined);
    var o := Send(session, accountId, processName, status, Undefined, Undefined, now, safeCall);
    assert o.calls == [UpdateCall(accountId, processName, status, Undefined, Undefined, now)];
    MinimalPayload(processName, status, now);
  }

  /** An option key the library does not know leaves only `process` and `status`. */
  lemma UnknownOptionPayload(processName: JsValue, status: JsValue, now: int)
    ensures FormatRequestData(processName, status, Null, Obj(map["makeMagic" := Bool(true)]), now)
         == map["process" := processName, "status" := status]
  {
    var p := FormatRequestData(processName, status, Null, Obj(map["makeMagic" := Bool(true)]), now);
    assert p.Keys == {"process", "status"};
  }

  lemma UnknownOptionCall(session: JsValue, accountId: JsValue, processName: JsValue, status: JsValue, now: int,
                          safeCall: Call -> map<string, JsValue>)
    requires Truthy(session)
    requires IsObjectId(accountId)
    requires processName.Str?
    requires ProcessStatuses.IsStatusValue(status)
    ensures Send(session, accountId, processName, status, Null,
                 Obj(map["makeMagic" := Bool(true)]), now, safeCall).calls
         == [Call("commerce", "account-process", "update",
                  map["process" := processName, "status" := status],
                  Null, map["id" := accountId])]
  {
    var options := Obj(map["makeMagic" := Bool(true)]);
    GuardsPass(session, accountId, processName, status, Null, options);
    var o := Send(session, accountId, processName, status, Null, options, now, safeCall);
    assert o.calls == [UpdateCall(accountId, processName, status, Null, options, now)];
    UnknownOptionPayload(processName, status, now);
  }

  /** Content is sent as given. */
  lemma ContentPayload(processName: JsValue, status: JsValue, now: int)
    ensures
      var content := Obj(map["message" := Str("Ok")]);
      FormatRequestData(processName, status, content, Undefined, now)
        == map["process" := processName, "status" := status, "content" := content]
  {
    var content := Obj(map["message" := Str("Ok")]);
    var p := FormatRequestData(processName, status, content, Undefined, now);
    assert p.Keys == {"process", "status", "content"};
  }

  lemma ContentCall(session: JsValue, accountId: JsValue, processName: JsValue, status: JsValue, now: int,
                    safeCall: Call -> map<string, JsValue>)
    requires Truthy(session)
    requires IsObjectId(accountId)
    requires processName.Str?
    requires ProcessStatuses.IsStatusValue(status)
    ensures
      var content := Obj(map["message" := Str("Ok")]);
      Send(session, accountId, processName, status, content, Undefined, now, safeCall).calls
        == [Call("commerce", "account-process", "update",
                 map["process" := processName, "status" := status, "content" := content],
                 Null, map["id" := accountId])]
  {
    var content := Obj(map["message" := Str("Ok")]);
    GuardsPass(session, accountId, processName, status, content, Undefined);
    var o := Send(session, accountId, processName, status, content, Undefined, now, safeCall);
    assert o.calls == [UpdateCall(accountId, processName, status, content, Undefined, now)];
    ContentPayload(processName, status, now);
  }

  /** The full payload: content as given, both dates set to the clock reading. */
  lemma FullPayload(processName: JsValue, status: JsValue, now: int)
    ensures
      var content := Obj(map["message" := Str("Ok")]);
      var options := Obj(map["startDate" := Bool(true), "endDate" := Bool(true)]);
      FormatRequestData(processName, status, content, options, now)
        == map["process" := processName, "status" := status, "content" := content,
               "startDate" := Date(now), "endDate" := Date(now)]
  {
    var content := Obj(map["message" := Str("Ok")]);
    var options := Obj(map["startDate" := Bool(true), "endDate" := Bool(true)]);
    var p := FormatRequestData(processName, status, content, options, now);
    assert p.Keys == {"process", "status", "content", "startDate", "endDate"};
  }

  lemma FullCall(session: JsValue, accountId: JsValue, processName: JsValue, status: JsValue, now: int,
                 safeCall: Call -> map<string, JsValue>)
    requires Truthy(session)
    requires IsObjectId(accountId)
    requires processName.Str?
    requires ProcessStatuses.IsStatusValue(status)
    ensures
      var content := Obj(map["message" := Str("Ok")]);
      var options := Obj(map["startDate" := Bool(true), "endDate" := Bool(true)]);
      Send(session, accountId, processName, status, content, options, now, safeCall).calls
        == [Call("commerce", "account-process", "update",
                 map["process" := processName, "status" := status, "content" := content,
                     "startDate" := Date(now), "endDate" := Date(now)],
                 Null, map["id" := accountId])]
  {
    var content := Obj(map["message" := Str("Ok")]);
    var options := Obj(map["startDate" := Bool(true), "endDate" := Bool(true)]);
    GuardsPass(session, accountId, processName, status, content, options);
    var o := Send(session, accountId, processName, status, content, options, now, safeCall);
    assert o.calls == [UpdateCall(accountId, processName, status, content, options, now)];
    FullPayload(processName, status, now);
  }

  /** `startDate: true` alone sends the clock reading as the start date. */
  lemma StartDateNowPayload(processName: JsValue, status: JsValue, now: int)
    ensures FormatRequestData(processName, status, Null, Obj(map["startDate" := Bool(true)]), now)
         == map["process" := processName, "status" := status, "startDate" := Date(now)]
  {
    var p := FormatRequestData(processName, status, Null, Obj(map["startDate" := Bool(true)]), now);
    assert p.Keys == {"process", "status", "startDate"};
  }

  /** `endDate: true` alone sends the clock reading as the end date. */
  lemma EndDateNowPayload(processName: JsValue, status: JsValue, now: int)
    ensures FormatRequestData(processName, status, Null, Obj(map["endDate" := Bool(true)]), now)
         == map["process" := processName, "status" := status, "endDate" := Date(now)]
  {
    var p := FormatRequestData(processName, status, Null, Obj(map["endDate" := Bool(true)]), now);
    assert p.Keys == {"process", "status", "endDate"};
  }

  /** A start date given explicitly is sent as it is, not replaced by the clock reading. */
  lemma SpecificStartDateKept(processName: JsValue, status: JsValue, now: int, start: int)
    ensures FormatRequestData(processName, status, Null, Obj(map["startDate" := Date(start)]), now)
         == map["process" := processName, "status" := status, "startDate" := Date(start)]
  {
    var p := FormatRequestData(processName, status, Null, Obj(map["startDate" := Date(start)]), now);
    assert p.Keys == {"process", "status", "startDate"};
  }

  /** The same for an explicit end date. */
  lemma SpecificEndDateKept(processName: JsValue, status: JsValue, now: int, end: int)
    ensures FormatRequestData(processName, status, Null, Obj(map["endDate" := Date(end)]), now)
         == map["process" := processName, "status" := status, "endDate" := Date(end)]
  {
    var p := FormatRequestData(processName, status, Null, Obj(map["endDate" := Date(end)]), now);
    assert p.Keys == {"process", "status", "endDate"};
  }
}
