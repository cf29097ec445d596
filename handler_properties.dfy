/** What `handle` promises, stated over its specification `Handled`. */
module HandlerProperties {
  import opened Wrappers
  import opened Throwables
  import opened Values
  import opened ConfigMaps
  import opened Jobs
  import opened LambdaInvocation
  import opened LambdaJobHandler

  /** The three result keys are pairwise distinct, whatever the result name. */
  lemma ResultKeysDistinct(name: string)
    ensures name + "StatusCode" != name + "JsonString"
    ensures name + "StatusCode" != name && name + "JsonString" != name
  {
    assert (name + "StatusCode")[|name|] == 'S';
    assert (name + "JsonString")[|name|] == 'J';
  }

  /**
   * Without a `functionName` in any source, `handle` throws "Missing required
   * parameter: functionName" before its `try`: no request, no command.
   */
  lemma MissingFunctionNameEscapes(collab: Collaborators, respond: InvokeRequest -> Invocation, job: Job)
    requires FunctionNameParameter !in job.customHeaders
    requires FunctionNameParameter !in job.variables
    requires FunctionNameParameter !in collab.environment
    ensures Handled(collab, respond, job) == Trace([], [], Some(Other(MissingFunctionName)))
  {
  }

  /** The same when the overlay holds `functionName` as null or as an empty string. */
  lemma EmptyFunctionNameEscapes(collab: Collaborators, respond: InvokeRequest -> Invocation, job: Job)
    requires var config := OverlayOf(collab, job).config;
      FunctionNameParameter in config && config[FunctionNameParameter] in {Null, Str("")}
    ensures Handled(collab, respond, job) == Trace([], [], Some(Other(MissingFunctionName)))
  {
  }

  /**
   * The effective result name is the processed `resultName` when it is present
   * and non-empty, and the processed function name otherwise.
   */
  lemma ResultNameDefaultsToFunctionName(collab: Collaborators, maps: ConfigurationMaps, functionName: string)
    requires GetFunctionName(collab, maps) == Success(functionName)
    ensures GetString(maps, ResultNameParameter).None? ==> GetResultName(collab, maps) == Success(functionName)
    ensures GetString(maps, ResultNameParameter).Some? ==>
      GetResultName(collab, maps) == Process(collab, GetString(maps, ResultNameParameter).value, maps)
  {
  }

  /**
   * The payload: a String body is processed, another body serialised, and with
   * no body (or a null one) the whole overlay is serialised; an empty String
   * body still counts as a body. This holds when the overlay itself can be
   * serialised, which is evaluated in every case.
   */
  lemma PayloadChoice(collab: Collaborators, maps: ConfigurationMaps)
    requires collab.writeMap(maps.config).Some?
    ensures var c := maps.config;
      && (BodyParameter in c && c[BodyParameter].Str? ==>
            GetPayload(collab, maps) == Process(collab, c[BodyParameter].s, maps))
      && (BodyParameter in c && c[BodyParameter] != Null && !c[BodyParameter].Str? ==>
            GetPayload(collab, maps) == BodyToJson(collab, c[BodyParameter]))
      && (BodyParameter !in c || c[BodyParameter] == Null ==>
            GetPayload(collab, maps) == Success(collab.writeMap(c).value))
  {
  }

  /**
   * Because `orElse` evaluates its argument eagerly, a configured body does not
   * save `getPayload` from a failure to serialise the overlay.
   */
  lemma OverlaySerialisationAlwaysEvaluated(collab: Collaborators, maps: ConfigurationMaps)
    requires collab.writeMap(maps.config).None?
    ensures GetPayload(collab, maps).Failure?
  {
  }

  /**
   * A failure to serialise the payload is thrown outside the `try`: the Lambda
   * is not invoked and no command is sent. Without a body it is the overlay
   * that fails to serialise.
   */
  lemma SerialisationFailureEscapes(collab: Collaborators, respond: InvokeRequest -> Invocation, job: Job)
    requires GetFunctionName(collab, OverlayOf(collab, job)).Success?
    requires var c := OverlayOf(collab, job).config;
      (BodyParameter !in c || c[BodyParameter] == Null) && collab.writeMap(c).None?
    ensures var c := OverlayOf(collab, job).config;
      Handled(collab, respond, job) == Trace([], [], Some(Other(SerializeFailed + collab.mapText(c))))
  {
  }

  /** The same for a configured body that is not a String and cannot be serialised. */
  lemma BodySerialisationFailureEscapes(collab: Collaborators, respond: InvokeRequest -> Invocation, job: Job)
    requires GetFunctionName(collab, OverlayOf(collab, job)).Success?
    requires var c := OverlayOf(collab, job).config;
      && BodyParameter in c && c[BodyParameter] != Null && !c[BodyParameter].Str?
      && collab.writeValue(c[BodyParameter]).None?
    ensures var c := OverlayOf(collab, job).config;
      Handled(collab, respond, job) == Trace([], [], Some(Other(SerializeFailed + ValueOf(c[BodyParameter]))))
  {
  }

  /** The parameters `handle` derives before its `try`, when all three succeed. */
  predicate Derived(collab: Collaborators, job: Job, functionName: string, payload: string, resultName: string)
  {
    var maps := OverlayOf(collab, job);
    && GetFunctionName(collab, maps) == Success(functionName)
    && GetPayload(collab, maps) == Success(payload)
    && GetResultName(collab, maps) == Success(resultName)
  }

  /**
   * A declared function error with a configured error code becomes
   * `throwError` with that code, and `complete` (with no variables) follows.
   */
  lemma DeclaredErrorWithCode(collab: Collaborators, respond: InvokeRequest -> Invocation, job: Job,
                              functionName: string, payload: string, resultName: string,
                              answer: Option<string>, functionError: string, code: string)
    requires Derived(collab, job, functionName, payload, resultName)
    requires respond(InvokeRequest(functionName, payload)) == Returned(InvokeResult(answer, Some(functionError)))
    requires GetFunctionErrorCode(collab, OverlayOf(collab, job)) == Success(Some(code))
    ensures Handled(collab, respond, job) == Trace(
      [InvokeRequest(functionName, payload)],
      [ThrowError(job.key, code, FailureMessage(functionName, functionError, answer)), Complete(job.key, map[])],
      None)
  {
  }

  /** Without an error code, a declared function error becomes `fail` with one retry less. */
  lemma DeclaredErrorWithoutCode(collab: Collaborators, respond: InvokeRequest -> Invocation, job: Job,
                                 functionName: string, payload: string, resultName: string,
                                 answer: Option<string>, functionError: string)
    requires Derived(collab, job, functionName, payload, resultName)
    requires respond(InvokeRequest(functionName, payload)) == Returned(InvokeResult(answer, Some(functionError)))
    requires GetFunctionErrorCode(collab, OverlayOf(collab, job)) == Success(None)
    ensures Handled(collab, respond, job) == Trace(
      [InvokeRequest(functionName, payload)],
      [Fail(job.key, Decrement(job.retries), FailureMessage(functionName, functionError, answer)), Complete(job.key, map[])],
      None)
  {
  }

  /** Any other throwable in the `try` becomes `fail`, even when an error code is configured. */
  lemma OtherFailureFails(collab: Collaborators, respond: InvokeRequest -> Invocation, job: Job,
                          functionName: string, payload: string, resultName: string, code: Option<string>)
    requires Derived(collab, job, functionName, payload, resultName)
    requires var attempt := Attempt(collab, functionName, resultName, respond(InvokeRequest(functionName, payload)));
      attempt.thrown.Some? && attempt.thrown.value.Other?
    requires GetFunctionErrorCode(collab, OverlayOf(collab, job)) == Success(code)
    ensures var attempt := Attempt(collab, functionName, resultName, respond(InvokeRequest(functionName, payload)));
      Handled(collab, respond, job).commands
        == [Fail(job.key, Decrement(job.retries), attempt.thrown.value.message), Complete(job.key, attempt.entries)]
  {
  }

  /**
   * On success the error code is never consulted (its processing may even
   * fail): exactly the three result variables are completed.
   */
  lemma SuccessCompletesWithThreeVariables(collab: Collaborators, respond: InvokeRequest -> Invocation, job: Job,
                                           functionName: string, payload: string, resultName: string,
                                           resultString: string, envelope: LambdaResult, body: string, node: Value)
    requires Derived(collab, job, functionName, payload, resultName)
    requires respond(InvokeRequest(functionName, payload)) == Returned(InvokeResult(Some(resultString), None))
    requires collab.readResult(resultString) == Some(envelope) && envelope.body == Some(body)
    requires collab.readTree(body) == Some(node)
    ensures var variables := map[resultName + "StatusCode" := Num(envelope.statusCode),
                                 resultName + "JsonString" := Str(body),
                                 resultName := node];
      && Handled(collab, respond, job) == Trace([InvokeRequest(functionName, payload)], [Complete(job.key, variables)], None)
      && |variables.Keys| == 3
  {
    var variables := map[resultName + "StatusCode" := Num(envelope.statusCode),
                         resultName + "JsonString" := Str(body),
                         resultName := node];
    var request := InvokeRequest(functionName, payload);
    assert Classify(functionName, respond(request)) == Success(Some(resultString));
    assert Attempt(collab, functionName, resultName, respond(request)) == Parsed(variables, None);
    ThreeKeys(resultName, variables);
  }

  lemma ThreeKeys(resultName: string, variables: Config)
    requires variables.Keys == {resultName + "StatusCode", resultName + "JsonString", resultName}
    ensures |variables.Keys| == 3
  {
    ResultKeysDistinct(resultName);
  }

  /**
   * When the body of the envelope cannot be parsed, the first two variables
   * are already stored: `fail` is sent, then `complete` with those two.
   */
  lemma UnparsableBodyCompletesPartially(collab: Collaborators, respond: InvokeRequest -> Invocation, job: Job,
                                         functionName: string, payload: string, resultName: string,
                                         resultString: string, envelope: LambdaResult, code: Option<string>)
    requires Derived(collab, job, functionName, payload, resultName)
    requires respond(InvokeRequest(functionName, payload)) == Returned(InvokeResult(Some(resultString), None))
    requires collab.readResult(resultString) == Some(envelope)
    requires envelope.body.None? || collab.readTree(envelope.body.value).None?
    requires GetFunctionErrorCode(collab, OverlayOf(collab, job)) == Success(code)
    ensures Handled(collab, respond, job).commands == [
      Fail(job.key, Decrement(job.retries), ParseFailed),
      Complete(job.key, map[resultName + "StatusCode" := Num(envelope.statusCode),
                            resultName + "JsonString" := BodyValue(envelope.body)])]
  {
  }

  /**
   * Whenever `handle` returns normally, its last command is `complete` for the
   * job, preceded by at most one `throwError` or `fail`; when it throws, no
   * command was sent. At most one request reaches the Lambda client.
   */
  lemma CompleteUnlessEscaped(collab: Collaborators, respond: InvokeRequest -> Invocation, job: Job)
    ensures var trace := Handled(collab, respond, job);
      && |trace.requests| <= 1
      && (trace.escaped.Some? ==> trace.commands == [])
      && (trace.escaped.None? ==>
            && 1 <= |trace.commands| <= 2
            && trace.commands[|trace.commands| - 1].Complete?
            && trace.commands[|trace.commands| - 1].jobKey == job.key
            && (|trace.commands| == 2 ==> !trace.commands[0].Complete? && trace.commands[0].jobKey == job.key))
  {
  }

  /** `throwError` is sent only for a `LambdaInvocationError` with a configured code. */
  lemma ThrowErrorOnlyForDeclaredErrors(collab: Collaborators, job: Job, maps: ConfigurationMaps, attempt: Parsed)
    requires Reported(collab, job, maps, attempt).commands != []
    requires Reported(collab, job, maps, attempt).commands[0].ThrowError?
    ensures attempt.thrown.Some? && attempt.thrown.value.LambdaInvocationError?
    ensures GetFunctionErrorCode(collab, maps) == Success(Some(Reported(collab, job, maps, attempt).commands[0].errorCode))
  {
  }
}
