# Zeebe Lambda connector: job handling, modelled in Dafny

This project models the job-processing pipeline of the Zeebe AWS Lambda connector. A Zeebe job worker receives an
activated job. It builds a configuration overlay from the job's custom headers, its workflow variables and the
environment variables. From that overlay it derives the Lambda call's parameters (`functionName`, `resultName`,
`functionErrorCode`, `body`). It then invokes the function and reports the outcome to the job client with
`throwError`, `fail` and `complete` commands.

Files and modules:

- `wrappers.dfy`: `Option`/`Result` (Java's `Optional`, and "returns or throws"), and `Throwables.Thrown`.
  `Thrown` tells a `LambdaInvocationError` apart from any other throwable and keeps its message.
- `values.dfy`: `Value`, the untyped Java objects held in the overlay, plus `ValueOf`. `ValueOf` is
  `String.valueOf` on those objects, including the decimal text of numbers and `[a, b]` / `{k=v}` for lists and maps.
- `json_escape.dfy`: the escaping Jackson's `JsonStringEncoder` applies, and a decoder for a JSON string body as
  section 7 of RFC 8259 defines it.
- `config_maps.dfy`: `ConfigurationMaps` with `get`, `getString` and `getConfig`.
- `config_map_factory.dfy`: `createConfigurationMap` as successive `putAll`/`put` updates. It is proved equal to
  `Overlay`, a key-by-key definition of the overlay. Lemmas about the overlay follow it.
- `jobs.dfy`: the activated job, the three job commands, and `JobClient`. `JobClient` is a class that records every
  command sent, in order.
- `lambda_invocation.dfy`: `LambdaClient` (the AWS client, recording requests) and `Classify`. `Classify` is what
  `invokeFunction` does with the answer: a function error is thrown, otherwise the payload is returned.
- `lambda_job_handler.dfy`: the parameter getters, `processResult` over a `ResultVariables` object filled in place,
  and `handle`. `handle` is proved to send exactly the commands of its specification function `Handled`.
- `handler_properties.dfy`: what `handle` promises, as lemmas over `Handled`.

Collaborators whose code is not part of this model are parameters: the placeholder processor, Jackson's
`writeValueAsString`/`readValue`/`readTree`, and the environment-variable provider. Each is a field of the
`Collaborators` datatype and is a deterministic function. A `Failure` or `None` result stands for an exception.

Points of the code's behaviour worth knowing, all of which the model keeps:

- Precedence is custom headers < workflow variables < environment variables, because the later `putAll` wins
  (src/main/java/io/zeebe/lambda/config/ConfigurationMapFactory.java:51-53).
- `complete` follows the `catch` (src/main/java/io/zeebe/lambda/LambdaJobHandler.java:109-111), so an error path
  sends `throwError` or `fail` first and then `complete`.
- A missing `functionName` is derived before the `try` (line 70): the exception leaves `handle` and no command is
  sent.
- A result that cannot be parsed does not stop the job. It is routed to `fail`, and then `complete` is sent with
  whatever variables were already stored.
- In `getResultName` and `getPayload`, the argument of `orElse` is evaluated even when the optional is present.
  `GetResultName` and `GetPayload` keep that order. For example, a body configured as a String still fails if the
  whole overlay cannot be serialised.

## Model

| member | source | states |
|---|---|---|
| `ConfigMaps.Get` | src/main/java/io/zeebe/lambda/config/ConfigurationMaps.java:29-31 | present exactly when the map holds a non-null value for the key, and then that value; a missing key and a null read alike |
| `ConfigMaps.GetString` | src/main/java/io/zeebe/lambda/config/ConfigurationMaps.java:33-35 | absent exactly when the key is missing, null or the empty string; otherwise the value's non-empty textual form, and a String value is returned unchanged |
| `ConfigMaps.GetConfig` | src/main/java/io/zeebe/lambda/config/ConfigurationMaps.java:37-39 | the very map the overlay was built from, holding a non-null value exactly where `get` finds one |
| `Values.ValueOf` | src/main/java/io/zeebe/lambda/config/ConfigurationMaps.java:34 | `String.valueOf`: "null" for null, a string unchanged, a number's text reading back as the number, "true" exactly for true, lists and maps bracketed |
| `Values.ValueOfEmpty` | src/main/java/io/zeebe/lambda/config/ConfigurationMaps.java:34 | only the empty string has an empty textual form, so only it is filtered out by `getString` |
| `Values.IntToStringRoundTrip` | src/main/java/io/zeebe/lambda/config/ConfigurationMaps.java:34 | the textual form of a number reads back as that number |
| `ConfigurationMapFactory.CreateConfigurationMap` | src/main/java/io/zeebe/lambda/config/ConfigurationMapFactory.java:45-67 | the map built by the successive `putAll`/`put` calls equals the key-by-key overlay |
| `ConfigurationMapFactory.Precedence` | src/main/java/io/zeebe/lambda/config/ConfigurationMapFactory.java:50-53 | on a non-synthetic key, environment beats variables, which beat headers; a key in no source is absent |
| `ConfigurationMapFactory.LaterNullHidesValue` | src/main/java/io/zeebe/lambda/config/ConfigurationMapFactory.java:51-53 | a null in a later source overwrites an earlier value, and the key then reads as absent through `get` |
| `ConfigurationMapFactory.JobKeysWin` | src/main/java/io/zeebe/lambda/config/ConfigurationMapFactory.java:55-56 | `jobKey` and `processInstanceKey` are the job's keys whatever the sources hold |
| `ConfigurationMapFactory.VariablesJson` | src/main/java/io/zeebe/lambda/config/ConfigurationMapFactory.java:59-61 | `variablesJson` is the serialised variables, and `variablesJsonEscaped` decodes back to it |
| `ConfigurationMapFactory.VariablesJsonIgnoresOtherSources` | src/main/java/io/zeebe/lambda/config/ConfigurationMapFactory.java:59-60 | `variablesJson` depends on the workflow variables only, not on headers or environment |
| `ConfigurationMapFactory.FailedSerialisationKeepsSources` | src/main/java/io/zeebe/lambda/config/ConfigurationMapFactory.java:58-64 | when serialisation throws, neither JSON key is written and a source's value under that name survives |
| `ConfigurationMapFactory.OverlayKeys` | src/main/java/io/zeebe/lambda/config/ConfigurationMapFactory.java:50-61 | the key set is exactly the sources' keys plus `jobKey`, `processInstanceKey` and, when serialisation succeeds, the two JSON keys |
| `JsonEscape.Quote` | src/main/java/io/zeebe/lambda/config/ConfigurationMapFactory.java:61 | the escaped text contains no character below U+0020 and is at least as long as the input |
| `JsonEscape.QuoteRoundTrip` | src/main/java/io/zeebe/lambda/config/ConfigurationMapFactory.java:61 | decoding the escaped text (section 7 of RFC 8259) gives back the original text |
| `JsonEscape.QuotePlain` | src/main/java/io/zeebe/lambda/config/ConfigurationMapFactory.java:61 | text without quotes, backslashes or control characters is not changed by escaping |
| `LambdaInvocation.Classify` | src/main/java/io/zeebe/lambda/LambdaInvoicationHelper.java:34-45 | a `LambdaInvocationError` exactly when the answer has a function error, with the message built from name, error and payload ("null" when absent); otherwise the payload, null included; a client exception propagates |
| `LambdaInvocation.InvokeFunction` | src/main/java/io/zeebe/lambda/LambdaInvoicationHelper.java:26-46 | exactly one request, carrying exactly the given name and payload, and the classified answer to it |
| `LambdaInvocation.LambdaClient.Invoke` | src/main/java/io/zeebe/lambda/LambdaInvoicationHelper.java:32 | the client answers the request and records it |
| `Jobs.Decrement` | src/main/java/io/zeebe/lambda/LambdaJobHandler.java:100-102 | `retries - 1` in Java `int` arithmetic: congruent to it modulo 2^32 and within the `int` range |
| `Jobs.JobClient.SendComplete` | src/main/java/io/zeebe/lambda/LambdaJobHandler.java:109-111 | appends `complete(jobKey, variables)` to the commands sent |
| `Jobs.JobClient.SendFail` | src/main/java/io/zeebe/lambda/LambdaJobHandler.java:101-104 | appends `fail(jobKey, retries, message)` to the commands sent |
| `Jobs.JobClient.SendThrowError` | src/main/java/io/zeebe/lambda/LambdaJobHandler.java:93-96 | appends `throwError(jobKey, code, message)` to the commands sent |
| `LambdaJobHandler.GetFunctionName` | src/main/java/io/zeebe/lambda/LambdaJobHandler.java:132-136 | with `functionName` missing, null or empty, fails with "Missing required parameter: functionName"; otherwise the placeholder-processed textual form of its value |
| `LambdaJobHandler.GetResultName` | src/main/java/io/zeebe/lambda/LambdaJobHandler.java:138-142 | succeeds only if the function name can be derived (the eager `orElse`); is the function name when no `resultName` is set, otherwise the processed `resultName` |
| `LambdaJobHandler.GetFunctionErrorCode` | src/main/java/io/zeebe/lambda/LambdaJobHandler.java:144-148 | null exactly when no non-empty `functionErrorCode` is set; otherwise the processed code, or the processor's failure |
| `LambdaJobHandler.GetPayload` | src/main/java/io/zeebe/lambda/LambdaJobHandler.java:150-163 | succeeds only if the whole overlay can be serialised (the eager `orElse`); with no or a null body it is the overlay's JSON |
| `LambdaJobHandler.BodyToJson` | src/main/java/io/zeebe/lambda/LambdaJobHandler.java:165-171 | the serialised body exactly when serialisation succeeds; otherwise fails with "Failed to serialize request body to JSON: " followed by the body's textual form |
| `LambdaJobHandler.ProcessResult` | src/main/java/io/zeebe/lambda/LambdaJobHandler.java:119-130 | the result variables gain what `ParseResult` stores (status code and body text before the tree is parsed), and a parse failure is thrown |
| `LambdaJobHandler.Report` | src/main/java/io/zeebe/lambda/LambdaJobHandler.java:84-111 | the `catch` block and the final `complete` send the commands `Reported` gives; a failing error-code lookup escapes with no command |
| `LambdaJobHandler.Handle` | src/main/java/io/zeebe/lambda/LambdaJobHandler.java:66-112 | the requests, the commands and the escaping exception are those of the specification `Handled` |
| `HandlerProperties.MissingFunctionNameEscapes` | src/main/java/io/zeebe/lambda/LambdaJobHandler.java:132-136 | with no `functionName` in any source, `handle` throws "Missing required parameter: functionName" with no request and no command |
| `HandlerProperties.EmptyFunctionNameEscapes` | src/main/java/io/zeebe/lambda/LambdaJobHandler.java:132-136 | the same when `functionName` is null or the empty string in the overlay |
| `HandlerProperties.ResultNameDefaultsToFunctionName` | src/main/java/io/zeebe/lambda/LambdaJobHandler.java:138-142 | the result name is the processed `resultName` when present and non-empty, otherwise the processed function name |
| `HandlerProperties.PayloadChoice` | src/main/java/io/zeebe/lambda/LambdaJobHandler.java:150-163 | a String body (the empty one included) is processed, another body serialised, and with no or a null body the whole overlay is serialised |
| `HandlerProperties.OverlaySerialisationAlwaysEvaluated` | src/main/java/io/zeebe/lambda/LambdaJobHandler.java:159-162 | if the overlay cannot be serialised, `getPayload` fails even with a body configured |
| `HandlerProperties.SerialisationFailureEscapes` | src/main/java/io/zeebe/lambda/LambdaJobHandler.java:165-171 | a failure to serialise the overlay as payload escapes `handle` with "Failed to serialize request body to JSON: ...", with no request and no command |
| `HandlerProperties.BodySerialisationFailureEscapes` | src/main/java/io/zeebe/lambda/LambdaJobHandler.java:153-158 | the same for a non-String body that cannot be serialised |
| `HandlerProperties.DeclaredErrorWithCode` | src/main/java/io/zeebe/lambda/LambdaJobHandler.java:84-96 | a function error with a configured code sends `throwError(jobKey, code, message)` and then `complete` with no variables |
| `HandlerProperties.DeclaredErrorWithoutCode` | src/main/java/io/zeebe/lambda/LambdaJobHandler.java:97-105 | a function error without a code sends `fail(jobKey, retries - 1, message)` and then `complete` |
| `HandlerProperties.OtherFailureFails` | src/main/java/io/zeebe/lambda/LambdaJobHandler.java:97-105 | any other throwable in the `try` sends `fail` even when a code is configured, then `complete` with the variables already stored |
| `HandlerProperties.ThrowErrorOnlyForDeclaredErrors` | src/main/java/io/zeebe/lambda/LambdaJobHandler.java:86-96 | `throwError` is sent only for a `LambdaInvocationError` and carries the processed error code |
| `HandlerProperties.SuccessCompletesWithThreeVariables` | src/main/java/io/zeebe/lambda/LambdaJobHandler.java:119-126 | on success, whatever the error-code configuration, one request and one `complete` with exactly `<name>StatusCode`, `<name>JsonString` and `<name>` |
| `HandlerProperties.ResultKeysDistinct` | src/main/java/io/zeebe/lambda/LambdaJobHandler.java:122-126 | the three result keys are pairwise distinct for every result name |
| `HandlerProperties.UnparsableBodyCompletesPartially` | src/main/java/io/zeebe/lambda/LambdaJobHandler.java:121-128 | a body that cannot be parsed sends `fail` with "Could not parse result from Lambda function", then `complete` with the status code and JSON string only |
| `HandlerProperties.CompleteUnlessEscaped` | src/main/java/io/zeebe/lambda/LambdaJobHandler.java:106-111 | when `handle` returns, its last command is `complete` for the job, preceded by at most one other command; when it throws, nothing was sent; at most one request is made |

## Left out

- The placeholder processor, Jackson and the environment-variable provider are not part of this model. They are
  function parameters with no property beyond determinism. The processor is assumed never to return null.
- UTF-8 decoding of the Lambda payload is left out: the payload is an already-decoded optional string.
- AWS client construction, credentials and region (`AwsConfig`) are left out. The client is a function from
  request to answer, or to a thrown message.
- Logging, Spring wiring, `send().join()` futures and concurrency across worker threads are left out. The job
  client never fails to send a command.
- Floating-point workflow variables are left out: `Value` has integers only, and Long/Integer are not told apart.
- A throwable whose `getMessage()` is null is left out: every message is a string.
- Strings are sequences of Unicode scalar values, so a Java string holding a lone UTF-16 surrogate is not
  represented. For such a workflow variable, Jackson's escaping at
  src/main/java/io/zeebe/lambda/config/ConfigurationMapFactory.java:61 throws after `variablesJson` was put, and the
  overlay holds `variablesJson` without `variablesJsonEscaped`. The model cannot reach that overlay, and
  `OverlayKeys` and `FailedSerialisationKeepsSources` do not describe it.
- JsonEscape.Unquote: decodes `\u` escapes of single characters but not surrogate pairs. Escaping never produces
  `\u` escapes above U+001F, so the round trip does not need them.
- `HashMap.toString` (the body text in the serialisation error message for the whole overlay) follows the JDK's hash
  order. It is the collaborator `mapText` rather than a definition.
