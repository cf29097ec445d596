/**
 * The job handler (`LambdaJobHandler`): derives the call parameters from the
 * overlay, invokes the function, stores the result variables and reports the
 * outcome to the job client.
 */
module LambdaJobHandler {
  import opened Wrappers
  import opened Throwables
  import opened Values
  import opened ConfigMaps
  import opened Jobs
  import opened LambdaInvocation
  import ConfigurationMapFactory

  const FunctionNameParameter := "functionName"
  const ResultNameParameter := "resultName"
  const FunctionErrorCodeParameter := "functionErrorCode"
  const BodyParameter := "body"

  const MissingFunctionName := "Missing required parameter: functionName"
  const SerializeFailed := "Failed to serialize request body to JSON: "
  const ParseFailed := "Could not parse result from Lambda function"

  /** The JSON envelope a Lambda function answers with (`LambdaResult`); `body` may be null. */
  datatype LambdaResult = LambdaResult(statusCode: int, body: Option<string>)

  /**
   * The injected collaborators whose code is not part of this model. Each is a
   * deterministic function; a `Failure` or `None` stands for an exception.
   */
  datatype Collaborators = Collaborators(
    environment: Config,                                // EnvironmentVariableProvider.getVariables()
    process: (string, Config) -> Result<string, string>, // PlaceholderProcessor.process (message when it throws)
    writeValue: Value -> Option<string>,                // ObjectMapper.writeValueAsString on a body value
    writeMap: Config -> Option<string>,                 // ObjectMapper.writeValueAsString on a map
    mapText: Config -> string,                          // HashMap.toString, in the JDK's hash order
    readResult: string -> Option<LambdaResult>,         // ObjectMapper.readValue(.., LambdaResult.class)
    readTree: string -> Option<Value>)                  // ObjectMapper.readTree

  /** The placeholder processor applied to a template against the whole overlay. */
  function Process(collab: Collaborators, template: string, maps: ConfigurationMaps): Result<string, Thrown>
  {
    match collab.process(template, GetConfig(maps))
    case Success(text) => Success(text)
    case Failure(message) => Failure(Other(message))
  }

  /** `getFunctionName`: required, placeholder-processed. */
  function GetFunctionName(collab: Collaborators, maps: ConfigurationMaps): (r: Result<string, Thrown>)
    ensures var c := maps.config;
      FunctionNameParameter !in c || c[FunctionNameParameter] in {Null, Str("")} ==>
        r == Failure(Other(MissingFunctionName))
    ensures var c := maps.config;
      FunctionNameParameter in c && c[FunctionNameParameter] !in {Null, Str("")} ==>
        r == Process(collab, ValueOf(c[FunctionNameParameter]), maps)
  {
    match GetString(maps, FunctionNameParameter)
    case Some(template) => Process(collab, template, maps)
    case None => Failure(Other(MissingFunctionName))
  }

  /**
   * `getResultName`: the processed `resultName`, else the function name. The
   * argument of `orElse` is evaluated first in any case, after the mapping.
   */
  function GetResultName(collab: Collaborators, maps: ConfigurationMaps): (r: Result<string, Thrown>)
    ensures r.Success? ==> GetFunctionName(collab, maps).Success?
    ensures GetString(maps, ResultNameParameter).None? ==> r == GetFunctionName(collab, maps)
    ensures GetString(maps, ResultNameParameter).Some? && GetFunctionName(collab, maps).Success? ==>
      r == Process(collab, GetString(maps, ResultNameParameter).value, maps)
  {
    var mapped := match GetString(maps, ResultNameParameter)
                  case Some(template) => Some(Process(collab, template, maps))
                  case None => None;
    if mapped.Some? && mapped.value.Failure? then mapped.value
    else
      var fallback := GetFunctionName(collab, maps);
      if fallback.Failure? then fallback
      else if mapped.Some? then mapped.value
      else fallback
  }

  /** `getFunctionErrorCode`: the processed code, or null. */
  function GetFunctionErrorCode(collab: Collaborators, maps: ConfigurationMaps): (r: Result<Option<string>, Thrown>)
    ensures r == Success(None) <==> GetString(maps, FunctionErrorCodeParameter).None?
    ensures GetString(maps, FunctionErrorCodeParameter).Some? ==>
      var processed := Process(collab, GetString(maps, FunctionErrorCodeParameter).value, maps);
      && (r.Success? <==> processed.Success?)
      && (r.Success? ==> r.value == Some(processed.value))
      && (r.Failure? ==> r.error == processed.error)
  {
    match GetString(maps, FunctionErrorCodeParameter)
    case None => Success(None)
    case Some(template) =>
      match Process(collab, template, maps)
      case Success(code) => Success(Some(code))
      case Failure(e) => Failure(e)
  }

  /** `bodyToJson` on a body value. */
  function BodyToJson(collab: Collaborators, body: Value): (r: Result<string, Thrown>)
    ensures r.Success? <==> collab.writeValue(body).Some?
    ensures r.Success? ==> r.value == collab.writeValue(body).value
    ensures r.Failure? ==> r.error.Other? && r.error.message == SerializeFailed + ValueOf(body)
  {
    match collab.writeValue(body)
    case Some(json) => Success(json)
    case None => Failure(Other(SerializeFailed + ValueOf(body)))
  }

  /** `bodyToJson` on the whole overlay map. */
  function ConfigToJson(collab: Collaborators, config: Config): Result<string, Thrown>
  {
    match collab.writeMap(config)
    case Some(json) => Success(json)
    case None => Failure(Other(SerializeFailed + collab.mapText(config)))
  }

  /**
   * `getPayload`: a String body is placeholder-processed, any other body is
   * serialised, and without a body the whole overlay is serialised. The
   * argument of `orElse` (the overlay's serialisation) is evaluated in any case,
   * after the mapping.
   */
  function GetPayload(collab: Collaborators, maps: ConfigurationMaps): (r: Result<string, Thrown>)
    ensures r.Success? ==> collab.writeMap(GetConfig(maps)).Some?
    ensures Get(maps, BodyParameter).None? ==> r == ConfigToJson(collab, GetConfig(maps))
  {
    var mapped := match Get(maps, BodyParameter)
                  case Some(body) =>
                    Some(if body.Str? then Process(collab, body.s, maps) else BodyToJson(collab, body))
                  case None => None;
    if mapped.Some? && mapped.value.Failure? then mapped.value
    else
      var fallback := ConfigToJson(collab, GetConfig(maps));
      if fallback.Failure? then fallback
      else if mapped.Some? then mapped.value
      else fallback
  }

  // ---------------------------------------------------------------------------
  // Storing the result

  /** The result variables of one job, filled in place. */
  class ResultVariables {
    var entries: Config

    constructor ()
      ensures entries == map[]
    {
      entries := map[];
    }

    method Put(key: string, value: Value)
      modifies this
      ensures entries == old(entries)[key := value]
    {
      entries := entries[key := value];
    }
  }

  /** What `processResult` writes, and what it throws. */
  datatype Parsed = Parsed(entries: Config, thrown: Option<Thrown>)

  function BodyValue(body: Option<string>): Value
  {
    match body
    case None => Null
    case Some(text) => Str(text)
  }

  /**
   * The specification of `processResult`. Jackson refuses null content (a null
   * result or a null body), which the wrapping `catch` turns into the same
   * parse failure as malformed text.
   */
  function ParseResult(collab: Collaborators, resultName: string, resultString: Option<string>): Parsed
  {
    var envelope := if resultString.Some? then collab.readResult(resultString.value) else None;
    match envelope
    case None => Parsed(map[], Some(Other(ParseFailed)))
    case Some(result) =>
      var stored := map[resultName + "StatusCode" := Num(result.statusCode),
                        resultName + "JsonString" := BodyValue(result.body)];
      var tree := if result.body.Some? then collab.readTree(result.body.value) else None;
      match tree
      case None => Parsed(stored, Some(Other(ParseFailed)))
      case Some(node) => Parsed(stored[resultName := node], None)
  }

  /** `processResult`: three `put`s into the result variables, any failure wrapped. */
  method ProcessResult(collab: Collaborators, resultName: string, resultVariables: ResultVariables,
                       resultString: Option<string>)
    returns (thrown: Option<Thrown>)
    modifies resultVariables
    ensures resultVariables.entries == old(resultVariables.entries) + ParseResult(collab, resultName, resultString).entries
    ensures thrown == ParseResult(collab, resultName, resultString).thrown
  {
    var envelope := if resultString.Some? then collab.readResult(resultString.value) else None;
    if envelope.None? {
      return Some(Other(ParseFailed));
    }
    var result := envelope.value;
    ghost var stored := map[resultName + "StatusCode" := Num(result.statusCode),
                            resultName + "JsonString" := BodyValue(result.body)];
    resultVariables.Put(resultName + "StatusCode", Num(result.statusCode));
    resultVariables.Put(resultName + "JsonString", BodyValue(result.body));
    assert resultVariables.entries == old(resultVariables.entries) + stored;
    var tree := if result.body.Some? then collab.readTree(result.body.value) else None;
    if tree.None? {
      return Some(Other(ParseFailed));
    }
    resultVariables.Put(resultName, tree.value);
    assert resultVariables.entries == old(resultVariables.entries) + stored[resultName := tree.value];
    thrown := None;
  }

  // ---------------------------------------------------------------------------
  // Handling a job

  /** The command the `catch` block sends for a throwable, given the error code. */
  function Route(job: Job, e: Thrown, functionErrorCode: Option<string>): Command
  {
    if e.LambdaInvocationError? && functionErrorCode.Some? then
      ThrowError(job.key, functionErrorCode.value, e.message)
    else
      Fail(job.key, Decrement(job.retries), e.message)
  }

  /** What the `try` block yields: the result variables written and the throwable, if any. */
  function Attempt(collab: Collaborators, functionName: string, resultName: string, answer: Invocation): Parsed
  {
    match Classify(functionName, answer)
    case Failure(e) => Parsed(map[], Some(e))
    case Success(result) => ParseResult(collab, resultName, result)
  }

  /** Everything one `handle` call does: Lambda requests, job commands, and what escapes it. */
  datatype Trace = Trace(requests: seq<InvokeRequest>, commands: seq<Command>, escaped: Option<Thrown>)

  function Escapes(e: Thrown): Trace
  {
    Trace([], [], Some(e))
  }

  function OverlayOf(collab: Collaborators, job: Job): ConfigurationMaps
  {
    ConfigurationMaps(ConfigurationMapFactory.Overlay(job, collab.environment, collab.writeMap))
  }

  /** The specification of `handle`, for a client that answers by `respond`. */
  function Handled(collab: Collaborators, respond: InvokeRequest -> Invocation, job: Job): Trace
  {
    var maps := OverlayOf(collab, job);
    match GetFunctionName(collab, maps)
    case Failure(e) => Escapes(e)
    case Success(functionName) =>
      match GetPayload(collab, maps)
      case Failure(e) => Escapes(e)
      case Success(payload) =>
        match GetResultName(collab, maps)
        case Failure(e) => Escapes(e)
        case Success(resultName) =>
          var request := InvokeRequest(functionName, payload);
          var reported := Reported(collab, job, maps, Attempt(collab, functionName, resultName, respond(request)));
          Trace([request], reported.commands, reported.escaped)
  }

  /** The commands sent after the `try` block, and what escapes the `catch`. */
  function Reported(collab: Collaborators, job: Job, maps: ConfigurationMaps, attempt: Parsed): Trace
  {
    match attempt.thrown
    case None => Trace([], [Complete(job.key, attempt.entries)], None)
    case Some(e) =>
      match GetFunctionErrorCode(collab, maps)
      case Failure(e') => Trace([], [], Some(e'))
      case Success(code) => Trace([], [Route(job, e, code), Complete(job.key, attempt.entries)], None)
  }

  /** The `catch` block and the final `complete`. */
  method Report(collab: Collaborators, jobClient: JobClient, job: Job, maps: ConfigurationMaps,
                thrown: Option<Thrown>, resultVariables: Config)
    returns (escaped: Option<Thrown>)
    modifies jobClient
    ensures jobClient.sent == old(jobClient.sent) + Reported(collab, job, maps, Parsed(resultVariables, thrown)).commands
    ensures escaped == Reported(collab, job, maps, Parsed(resultVariables, thrown)).escaped
  {
    if thrown.Some? {
      var functionErrorCode := GetFunctionErrorCode(collab, maps);
      if functionErrorCode.Failure? {
        return Some(functionErrorCode.error);
      }
      var e := thrown.value;
      if e.LambdaInvocationError? && functionErrorCode.value.Some? {
        jobClient.SendThrowError(job.key, functionErrorCode.value.value, e.message);
      } else {
        jobClient.SendFail(job.key, Decrement(job.retries), e.message);
      }
    }

    jobClient.SendComplete(job.key, resultVariables);
    escaped := None;
  }

  /**
   * `handle`. The function name, payload and result name are derived before
   * the `try`; the error code only inside the `catch`; `complete` follows the
   * `catch` and so is sent after a `throwError` or `fail` as well.
   */
  method Handle(collab: Collaborators, lambda: LambdaClient, jobClient: JobClient, job: Job)
    returns (escaped: Option<Thrown>)
    modifies lambda, jobClient
    ensures lambda.requests == old(lambda.requests) + Handled(collab, lambda.respond, job).requests
    ensures jobClient.sent == old(jobClient.sent) + Handled(collab, lambda.respond, job).commands
    ensures escaped == Handled(collab, lambda.respond, job).escaped
  {
    var maps := ConfigurationMapFactory.CreateConfigurationMap(job, collab.environment, collab.writeMap);
    var resultVariables := new ResultVariables();

    var functionName := GetFunctionName(collab, maps);
    if functionName.Failure? {
      return Some(functionName.error);
    }
    var payload := GetPayload(collab, maps);
    if payload.Failure? {
      return Some(payload.error);
    }
    var resultName := GetResultName(collab, maps);
    if resultName.Failure? {
      return Some(resultName.error);
    }

    // try
    var thrown: Option<Thrown>;
    var result := InvokeFunction(lambda, functionName.value, payload.value);
    if result.Failure? {
      thrown := Some(result.error);
    } else {
      thrown := ProcessResult(collab, resultName.value, resultVariables, result.value);
    }
    assert Parsed(resultVariables.entries, thrown)
        == Attempt(collab, functionName.value, resultName.value, lambda.respond(InvokeRequest(functionName.value, payload.value)));

    escaped := Report(collab, jobClient, job, maps, thrown, resultVariables.entries);
  }
}
