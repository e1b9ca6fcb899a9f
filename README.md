# argonaut-action build task, modelled in Dafny

The argonaut-action build task runs inside a CI job. It builds a container
image from a user's repository and publishes it to a container registry. It
then reports the outcome of the build run to the Argonaut control plane.
This project models the three core files of that task:

- `ci/build.go`: `build`, a fixed chain of steps that fills in a callback
  payload. The steps are the image tag, the build run, the build
  configuration, the build-time secrets, the registry access, the image name,
  `docker login`, the engine connection, and build and publish. The callback
  is deferred before the first step that can fail, so the callback is called
  exactly once, carrying the payload's final values. That one call can send
  its POST up to three times, because the client retries it. `getBuildArgs` turns the
  secrets into build arguments.
- `ci/argo_client.go`: the control-plane client. It covers how a reply is
  classified (`LogResponseErrorOrRequestCreationError`, `UnmarshalAndLog`),
  the retry policy (two retries, on request errors only), the API-token
  exchange (`getFEAuthInfo`), the four fetches, the callback, and the
  package-wide client (`InitializeArgoClient`, `GetArgoClient`).
- `ci/utils.go`: `ParseBasicAuth`. It drops a six-byte scheme, decodes
  standard Base64 (section 4 of RFC 4648), and splits the result at the first
  colon (section 2 of RFC 7617).

The files and their modules:

| file | module | form |
|---|---|---|
| `wrappers.dfy` | `Wrappers` | `Option`, `Result` |
| `errors.dfy` | `Errors` | the error values |
| `constants.dfy` | `Constants` | `BuildRunStatus` |
| `dto.dfy` | `Dto` | the records exchanged, and the callback payload as a class |
| `argo_client.dfy` | `ArgoClient` | classification and retry as functions; the client and the package state as classes |
| `build.dfy` | `BuildTask` | the build run as methods that update the payload, proved equal to a specification function |
| `base64.dfy` | `Base64` | `base64.StdEncoding`, encode and decode |
| `utils.dfy` | `Utils` | `strings.Cut` and `ParseBasicAuth` |

Everything outside the process is a parameter:

- The network is `Network = (Request, nat) -> Reply`: the reply to attempt
  `k` of a request.
- JSON decoding is one decoder per target type (`Codecs`).
- The host is a `Host` value. It holds `SHORT_SHA`, the clock,
  `docker login`, the engine connection, `filepath.Join`, and build and
  publish.
- The two service URLs are parameters of `InitializeArgoClient`.

Go's `defer` is modelled by splitting the run in two. `RunSteps` covers every
return path of the body. The single callback in `Build` comes after it. The
callbacks a client has posted are recorded in its ghost field `callbacks`.

Three behaviours of the code are worth noting; the model follows the code:

- The client's retry policy applies to the whole client, so the POST
  callback is retried too.
- The image name is put into the payload before `docker login`. A login
  failure, or any later failure, reports the image name in its callback.
- `InitializeArgoClient` replaces an existing shared client when it is
  called again.

## Model

| member | source | states |
|---|---|---|
| `Constants.WireInjective` | ci/constants.go:21-30 | distinct statuses have distinct wire strings |
| `Dto.BuildRunCallbackPayload.constructor` | ci/build.go:20-22 | a new payload has status Failed and empty tag, image and error |
| `ArgoClient.LogResponseErrorOrRequestCreationError` | ci/argo_client.go:171-183 | a request error is returned unchanged; otherwise an error status gives `ErrCodeInResponse`, and any other status gives no error |
| `ArgoClient.UnmarshalAndLog` | ci/argo_client.go:157-169 | succeeds exactly when there is no request error, no error status and the body decodes; the body is decoded only after the classification above found nothing |
| `ArgoClient.UnmarshalSkipsDecodingOnError` | ci/argo_client.go:157-161 | a failed request or an error status gives the same result whatever the decoder |
| `ArgoClient.IsError` | ci/argo_client.go:141 | every 4xx and 5xx status is an error, and no status below 400 is |
| `ArgoClient.RetryCondition` | ci/argo_client.go:92-121 | retry when the request itself failed, and never because of the response alone |
| `ArgoClient.NonPointerTarget` | ci/argo_client.go:42 | decoding into a map passed by value fails for every body: with the syntax error for a malformed body, otherwise with the invalid-target error |
| `ArgoClient.Attempt` | ci/argo_client.go:91-122 | the delivered reply is that of the last attempt made; every earlier attempt met the retry condition; stopping early means the condition rejected the reply; the number of attempts is at most one plus the retries left |
| `ArgoClient.Execute` | ci/argo_client.go:91-122 | between one attempt and one more than the retry count; the reply is that of the last attempt; every earlier attempt failed to complete; stopping before the budget is used means the last attempt completed |
| `ArgoClient.StatusAloneNeverRetries` | ci/argo_client.go:112-120 | a first attempt that completes is the only attempt, whatever its status |
| `ArgoClient.RetryBound` | ci/argo_client.go:91-122 | with two retries there are at most three attempts; every attempt but the last failed; a final request error means all three were used |
| `ArgoClient.AttemptDependsOnlyOnRequest` | ci/argo_client.go:91-122 | the retry loop depends on the network only through the replies to its own request |
| `ArgoClient.ExecuteAnswers` | ci/argo_client.go:91-122 | the retry loop followed by `UnmarshalAndLog` ends as `Answers` says: the first attempt that completes within the budget decides, whatever its status, and if none completes the last request error is returned |
| `ArgoClient.AnswersUnique` | ci/argo_client.go:91-122 | `Answers` fixes the result for every sequence of replies |
| `ArgoClient.GetFEAuthInfo` | ci/argo_client.go:130-155 | one POST of key and secret to the token path; a request error is returned as it is; an error status gives "authentication error : " followed by the body; otherwise the decoded token or the decoding error |
| `ArgoClient.FEAuthInfoAgreesWithUnmarshal` | ci/argo_client.go:130-155 | the token exchange classifies its reply like `UnmarshalAndLog`, except that an error status carries the response body |
| `ArgoClient.ArgoClientImpl.constructor` | ci/argo_client.go:71 | a new client has no base URL, no headers, no retries, no credentials and no callbacks |
| `ArgoClient.ArgoClientImpl.Fetch` | ci/argo_client.go:27-58 | `Answers` holds for the GET of the path: the first attempt within the retry budget that completes decides through `UnmarshalAndLog`, so a retried read can succeed on the second or third attempt; if no attempt completes, the last request error; an error status on the first attempt gives `ErrCodeInResponse` without a retry |
| `ArgoClient.ArgoClientImpl.FetchBuildRunInfo` | ci/argo_client.go:27-32 | `Answers` holds for GET /api/v1/build/run/{id} with its decoder: the first attempt that completes decides, whether it carries an error status, a body that fails to decode or a good body; if no attempt completes, the last request error |
| `ArgoClient.ArgoClientImpl.FetchBuildInfo` | ci/argo_client.go:34-39 | `Answers` holds for GET /api/v1/build/{id} with its decoder: the first attempt that completes decides, whether it carries an error status, a body that fails to decode or a good body; if no attempt completes, the last request error |
| `ArgoClient.ArgoClientImpl.FetchContainerRegistryAccess` | ci/argo_client.go:46-51 | `Answers` holds for GET /api/v1/registries/{id}/access with its decoder: the first attempt that completes decides, whether it carries an error status, a body that fails to decode or a good body; if no attempt completes, the last request error |
| `ArgoClient.ArgoClientImpl.FetchBuildTimeSecrets` | ci/argo_client.go:53-58 | `Answers` holds for GET /api/v1/build/{id}/secrets with its decoder: the first attempt that completes decides, whether it carries an error status, a body that fails to decode or a good body; if no attempt completes, the last request error |
| `ArgoClient.ArgoClientImpl.CallbackOutcome` | ci/argo_client.go:40-44 | `Answers` holds for POST /api/v1/build/run/{id}/callback with the payload as body, its reply decoded through a pointer: the first attempt that completes decides; if none completes, the last request error |
| `ArgoClient.ArgoClientImpl.CallbackOutcomeAsWritten` | ci/argo_client.go:40-44 | `Answers` holds for the same POST with the reply decoded into a map value, and so every outcome is an error |
| `ArgoClient.ArgoClientImpl.BuildRunCallback` | ci/argo_client.go:40-44 | appends exactly one record, the payload's current values, to the callbacks posted, and returns the error of the outcome as written, which is never absent |
| `ArgoClient.AcceptedCallbackReportsError` | ci/argo_client.go:42 | a callback accepted on the first attempt reports an error as written and none when corrected |
| `ArgoClient.OperationsTargetTheirPaths` | ci/argo_client.go:27-58 | each fetch depends on the network only through the replies to its own path |
| `ArgoClient.Package.constructor` | ci/argo_client.go:60 | the shared client starts unset |
| `ArgoClient.Package.GetArgoClient` | ci/argo_client.go:62-67 | returns the shared client, which must be set |
| `ArgoClient.Package.InitializeArgoClient` | ci/argo_client.go:69-128 | a missing key or secret gives "access to argonaut server is not configured"; a failed token exchange returns its error; in both cases the shared client is unchanged; on success a new client carries the token as Authorization header, the control-plane URL and two retries, and becomes the shared client |
| `BuildTask.Timestamp` | ci/build.go:32 | eight digits: month, day, hour on a 12-hour clock, and minute, two digits each |
| `BuildTask.Hour12` | ci/build.go:32 | the layout element "03": an hour from 1 to 12, equal to the 24-hour hour modulo 12 |
| `BuildTask.ImageTag` | ci/build.go:32 | the short SHA, a dash, then the timestamp |
| `BuildTask.TrimPrefix` | ci/build.go:61 | removes the prefix exactly when the text starts with it |
| `BuildTask.TrimPrefixOnce` | ci/build.go:61 | only one leading occurrence of the prefix is removed |
| `BuildTask.ComposeImage` | ci/build.go:61 | the registry URL without its https:// scheme, a slash, then the build name; never empty |
| `BuildTask.ComposeImageExample` | ci/build.go:61 | "https://registry.example.com" and "app" give "registry.example.com/app" |
| `BuildTask.BuildArgsOf` | ci/build.go:111-116 | one build argument per secret, in order, named by its key and carrying its value |
| `BuildTask.CollectBuildArgs` | ci/build.go:109-117 | the loop over the secrets builds exactly `BuildArgsOf`; no response gives no arguments |
| `BuildTask.GetBuildArgs` | ci/build.go:104-119 | a failed secrets fetch gives its error and no arguments; otherwise the arguments of the fetched secrets and no error |
| `BuildTask.BuildArgsExample` | ci/build.go:111-116 | two secrets become two arguments, in order |
| `BuildTask.Expected` | ci/build.go:16-102 | how `build` ends: an empty SHORT_SHA gives "image tag not generated", no calls and the initial payload; otherwise the tag is SHORT_SHA, a dash and the timestamp, and the first call fetches the build run |
| `BuildTask.FetchingRun` | ci/build.go:36-39 | the build run is fetched first, and the tag is kept |
| `BuildTask.FetchingConfig` | ci/build.go:43-46 | the next call fetches the configuration named by the build run, and the tag is kept |
| `BuildTask.FetchingSecrets` | ci/build.go:49-52 | the next call fetches the secrets of the configuration's id, and the tag is kept |
| `BuildTask.FetchingAccess` | ci/build.go:55-58 | the next call fetches the access of the configuration's registry, and the tag is kept |
| `BuildTask.Publishing` | ci/build.go:61-101 | the next call is `docker login` with the access's user and scheme-less URL; the image name is the composed name; the run is Completed when it ends without error, and keeps its status otherwise |
| `BuildTask.RunSteps` | ci/build.go:26-101 | the body of `build` returns the error, makes the calls and leaves the payload that `Expected` gives |
| `BuildTask.Prepare` | ci/build.go:49-101 | the secrets and registry-access steps agree with their specification |
| `BuildTask.Publish` | ci/build.go:61-101 | the image name, login, engine and publish steps agree with their specification, and set status Completed only after a successful publish |
| `BuildTask.Build` | ci/build.go:16-102 | returns the error and makes the calls that `Expected` gives, and posts exactly one callback carrying the run's final payload, whichever way the run ends |
| `BuildTask.PublishingSettled` | ci/build.go:61-101 | the last steps end a run as `Settled` says: a failed engine connection ends the run with its error, and a run goes past the engine only when the connection succeeded; it stops at the engine exactly when the connection failed or the configuration has no OCI details, with `NilDereference` in the latter case; a run that published has no error exactly when `host.publish` succeeded, and otherwise its error |
| `BuildTask.FetchingAccessSettled` | ci/build.go:55-58 | the access fetch uses the configuration's registry id; a failed access fetch ends the run with its error, the tag-only payload and no later call; otherwise the run ends as `Settled` says |
| `BuildTask.FetchingSecretsSettled` | ci/build.go:49-52 | the secrets fetch uses the configuration's id; a failed secrets fetch ends the run with its error and no later call; otherwise the run ends as `Settled` says |
| `BuildTask.FetchingConfigSettled` | ci/build.go:43-46 | the configuration fetch uses the build run's `buildConfigId`; a failed configuration fetch ends the run with its error and no later call; otherwise the run ends as `Settled` says |
| `BuildTask.ExpectedSettled` | ci/build.go:16-102 | every run is `Settled`: no error exactly when the callback reports Completed, and Failed otherwise; the calls follow the fixed order; the image name is reported exactly when the registry access was obtained; a failed engine connection ends the run with its error and no run goes past one; a run without error made all seven calls and `host.publish` succeeded under image:tag |
| `BuildTask.ExpectedChained` | ci/build.go:36-92 | each call uses what the calls before it returned: the configuration named by the build run, then that configuration's secrets and registry, then `docker login` with that access, then the engine connection, then the build of the configuration's context directory (joined to the repository location) and Dockerfile with the fetched secrets as build arguments, published under image:tag; the run stops at the first call that fails, with that call's error (a failed login gives its output), and it stops at the engine with `NilDereference` only when the connection succeeded and the configuration has no OCI details |
| `BuildTask.PublishingChained` | ci/build.go:64-92 | a run stops right after `docker login` exactly when the login failed, and then with its output as the error; it stops at the engine with the connection error when the connection failed, or with `NilDereference` when the configuration has no OCI details; it publishes only after a good connection, using the configuration's context directory and Dockerfile and the given build arguments |
| `BuildTask.LoginGatesEngine` | ci/build.go:61-81 | a failed `docker login` ends the run with its output as the error, before the engine is connected; the engine is reached exactly after a good login; the image name is set either way |
| `Base64.Symbol` | ci/utils.go:16 | every 6-bit value has a symbol in the standard alphabet |
| `Base64.Value` | ci/utils.go:16 | every symbol has a 6-bit value |
| `Base64.SymbolValue` | ci/utils.go:16 | value and symbol are inverse, one way |
| `Base64.ValueSymbol` | ci/utils.go:16 | value and symbol are inverse, the other way |
| `Base64.Encode` | ci/utils.go:16 | four symbols or pads per three bytes, rounded up |
| `Base64.SkipLineBreaks` | ci/utils.go:16 | the result has no CR or LF; a single CR or LF gives nothing and any other byte is kept |
| `Base64.SkipLineBreaksAppend` | ci/utils.go:16 | line breaks are removed piece by piece, so the result is the other bytes in order and with their repetitions |
| `Base64.DecodeQuanta` | ci/utils.go:16 | accepts only whole four-symbol quanta of symbols and padding, and yields three bytes per quantum, less up to two for padding |
| `Base64.Decode` | ci/utils.go:16 | accepts only symbols, padding and line breaks, and yields at most three bytes per four input bytes |
| `Base64.DecodeIgnoresLineBreak` | ci/utils.go:16 | a CR or LF anywhere in the input does not change the decoding |
| `Base64.DecodeEncode` | ci/utils.go:16 | decoding an encoding gives back the bytes |
| `Utils.Cut` | ci/utils.go:21 | splits at the first separator exactly when there is one; otherwise the whole text and nothing after it |
| `Utils.ParseBasicAuth` | ci/utils.go:10-26 | succeeds exactly when the text after six bytes is valid Base64 whose decoding contains a colon; then the user has no colon and user, colon, password is the decoding; a failure returns empty strings |
| `Utils.SchemeUnchecked` | ci/utils.go:11-16 | the six leading bytes are not looked at |
| `Utils.BasicAuthRoundTrip` | ci/utils.go:10-26 | any six bytes followed by the encoding of user, colon, password parse back to that user and password when the user has no colon |
| `Utils.DocExample` | ci/utils.go:9 | "Basic QWxhZGRpbjpvcGVuIHNlc2FtZQ==" gives ("Aladdin", "open sesame", true) |

## Left out

- Logging is not modelled: zap, `fmt.Printf`, the trace output of the retry condition, and `pretty.Color`.
- `EnableTrace`, `SetContentLength(true)` and the retry wait are not modelled. The wait is `SetRetryWaitTime(1000)`, a `time.Duration` of 1000 ns. None of them changes an outcome.
- JSON decoding is a decoder per target type, and the bodies are plain strings.
- The two service URLs are parameters rather than the constants of ci/constants.go.
- resty's trimming of a trailing slash from the base URL is not modelled.
- Setting `_EXPERIMENTAL_DAGGER_CACHE_CONFIG` is not modelled. Nothing in the model reads it.
- `defer client.Close()` on the engine is not modelled.
- `docker login` is one call that returns its exit status and combined output.
- `fmt.Errorf(out)` on a failed login becomes `New(out)`. The interpretation of `%` directives in the output is not modelled.
- `filepath.Join`, the engine's connection, and build and publish are parameters.
- A nil `OCIBuildDetails` makes Go panic. The model ends the run with `NilDereference`, and the deferred callback still runs.
- `BuildTask.CollectBuildArgs` has a nil-response branch. `getBuildArgs` never takes it, because the fetches always return a pointer.
- `ArgoClient.Package.GetArgoClient`: Go panics when the shared client is unset. The model makes that a precondition.
- The payload's `Error` field is never set by the code. It stays empty.
- ci/main.go is not part of this model. It calls functions with other signatures.
- The record types `BuildRun`, `BuildConfig`, `RegistryAccess`, `BuildSecretFetch` and `BuildRunCallbackPayload` are not defined in the files modelled here. Only the fields that `build` reads or writes are modelled.
- Base64 decoding follows Go's non-strict `StdEncoding`. It skips CR and LF, and it ignores the unused bits of a padded quantum.
- Go strings are byte strings. `ParseBasicAuth` and Base64 work on bytes, and the other strings are Dafny strings.
- `Utils.ParseBasicAuth`: Go panics on input shorter than six bytes. The model requires at least six.

## Findings

| source | as written | input that shows it | evidently intended | confidence | as-written member | corrected member |
|---|---|---|---|---|---|---|
| ci/argo_client.go:42 | the callback reply is decoded into `map[string]interface{}{}` passed by value, which `json.Unmarshal` always rejects, so `BuildRunCallback` returns an error even when the control plane accepted the callback | a first attempt answered with status 200 and body `{}` | decode into a pointer to the map, so an accepted callback reports no error | high, not executed; the deferred call discards the error, so `build` behaves the same either way, and `BuildRunCallback` keeps the as-written outcome | `ArgoClient.ArgoClientImpl.CallbackOutcomeAsWritten`, `ArgoClient.AcceptedCallbackReportsError` | `ArgoClient.ArgoClientImpl.CallbackOutcome` |
