/**
 * Calling the Lambda function (`LambdaInvoicationHelper.invokeFunction`): the
 * request names the function and carries the payload; a function error in the
 * answer becomes a thrown `LambdaInvocationError`, otherwise the decoded
 * payload (possibly null) is returned.
 */
module LambdaInvocation {
  import opened Wrappers
  import opened Throwables

  datatype InvokeRequest = InvokeRequest(functionName: string, payload: string)

  /** What `invoke` answers; the payload is already decoded from UTF-8. */
  datatype InvokeResult = InvokeResult(payload: Option<string>, functionError: Option<string>)

  /** An answer, or the exception the AWS client threw instead. */
  datatype Invocation = Returned(result: InvokeResult) | Threw(message: string)

  /** The AWS client: answers by `respond` and records every request it receives. */
  class LambdaClient {
    const respond: InvokeRequest -> Invocation
    var requests: seq<InvokeRequest>

    constructor (respond: InvokeRequest -> Invocation)
      ensures this.respond == respond && requests == []
    {
      this.respond := respond;
      requests := [];
    }

    method Invoke(request: InvokeRequest) returns (answer: Invocation)
      modifies this
      ensures requests == old(requests) + [request]
      ensures answer == respond(request)
    {
      requests := requests + [request];
      answer := respond(request);
    }
  }

  const FailurePrefix := "Failure invoking Lambda '"

  /** Java's string concatenation renders a null reference as "null". */
  function TextOrNull(s: Option<string>): string
  {
    match s
    case None => "null"
    case Some(t) => t
  }

  /** The message of the `LambdaInvocationError` for a function error. */
  function FailureMessage(functionName: string, functionError: string, result: Option<string>): string
  {
    FailurePrefix + functionName + "':" + functionError + "': " + TextOrNull(result)
  }

  /**
   * What `invokeFunction` makes of the client's answer: a function error is
   * thrown as a `LambdaInvocationError` whatever the payload; otherwise the
   * payload is returned, null included; a client exception propagates.
   */
  function Classify(functionName: string, answer: Invocation): (r: Result<Option<string>, Thrown>)
    ensures (r.Failure? && r.error.LambdaInvocationError?)
        <==> (answer.Returned? && answer.result.functionError.Some?)
    ensures answer.Returned? && answer.result.functionError.None? ==> r == Success(answer.result.payload)
    ensures answer.Threw? ==> r == Failure(Other(answer.message))
    ensures answer.Returned? && answer.result.functionError.Some? ==>
      r.error.message == FailureMessage(functionName, answer.result.functionError.value, answer.result.payload)
  {
    match answer
    case Threw(message) => Failure(Other(message))
    case Returned(response) =>
      var result := response.payload;
      if response.functionError.Some? then
        Failure(LambdaInvocationError(FailureMessage(functionName, response.functionError.value, result)))
      else
        Success(result)
  }

  /** `invokeFunction`: one request carrying exactly the given name and payload. */
  method InvokeFunction(client: LambdaClient, functionName: string, payloadAsJson: string)
    returns (r: Result<Option<string>, Thrown>)
    modifies client
    ensures client.requests == old(client.requests) + [InvokeRequest(functionName, payloadAsJson)]
    ensures r == Classify(functionName, client.respond(InvokeRequest(functionName, payloadAsJson)))
  {
    var request := InvokeRequest(functionName, payloadAsJson);
    var answer := client.Invoke(request);
    r := Classify(functionName, answer);
  }
}
