/**
 * The control-plane client of ci/argo_client.go: how a reply is classified,
 * when a request is retried, the credential exchange, the five operations and
 * the package-wide client instance.
 *
 * The HTTP client is replaced by a network oracle: `net(req, k)` is the reply
 * to attempt `k` (counting from 0) of request `req`. JSON decoding is replaced
 * by one decoder oracle per target type.
 */
module ArgoClient {
  import opened Wrappers
  import opened Errors
  import opened Dto

  datatype Verb = Get | Post

  datatype RequestBody =
    | NoBody
    /** `ApiTokenConfigStruct{ClientID: key, ClientSecret: secret}` */
    | ApiToken(clientId: string, secret: string)
    /** The callback payload, dereferenced when the request is built. */
    | Callback(payload: CallbackBody)

  /** A request as the client sends it: its base URL, path, headers and body. */
  datatype Request = Request(verb: Verb, baseUrl: string, path: string, headers: map<string, string>, body: RequestBody)

  /** The status code and body of an HTTP response. */
  datatype Response = Response(status: int, body: string)

  /** The outcome of one attempt: the response and the request error, if any. */
  datatype Reply = Reply(response: Response, err: Option<Error>)

  /** `net(req, k)`: the reply to attempt `k` of `req`. */
  type Network = (Request, nat) -> Reply

  /** The `json.Unmarshal` outcome for each body, per target type. */
  datatype Codecs = Codecs(
    run: string -> Result<BuildRun, Error>,
    config: string -> Result<BuildConfig, Error>,
    access: string -> Result<RegistryAccess, Error>,
    secrets: string -> Result<BuildSecretFetch, Error>,
    token: string -> Result<TokenResponse, Error>,
    /** Decoding a callback reply into a map reached through a pointer. */
    ack: string -> Result<(), Error>,
    /** The syntax check `json.Unmarshal` makes before it looks at its target: the error for a malformed body. */
    wellFormed: string -> Option<Error>)

  /** A build-run callback as the control plane receives it. */
  datatype CallbackRecord = CallbackRecord(buildRunId: string, body: CallbackBody)

  /** resty's `IsError`: every 4xx and 5xx status is an error; informational, success and redirect statuses are not. */
  function IsError(resp: Response): (b: bool)
    ensures 400 <= resp.status < 600 ==> b
    ensures resp.status < 400 ==> !b
  {
    resp.status > 399
  }

  // ------------------------------------------------------------ classification

  /**
   * `LogResponseErrorOrRequestCreationError`: a request error wins and is
   * returned as it is; otherwise an error status becomes `ErrCodeInResponse`;
   * otherwise there is no error.
   */
  function LogResponseErrorOrRequestCreationError(resp: Response, err: Option<Error>): (r: Option<Error>)
    ensures err.Some? ==> r == err
    ensures err.None? ==> (r.Some? <==> IsError(resp))
    ensures r.Some? ==> r == err || r == Some(ErrCodeInResponse)
  {
    if err.Some? then err
    else if IsError(resp) then Some(ErrCodeInResponse)
    else None
  }

  /**
   * `UnmarshalAndLog`: the body is decoded only when the classification above
   * found nothing; a decoding failure is returned.
   */
  function UnmarshalAndLog<T>(resp: Response, decode: string -> Result<T, Error>, err: Option<Error>): (r: Result<T, Error>)
    ensures r.Success? <==> err.None? && !IsError(resp) && decode(resp.body).Success?
    ensures LogResponseErrorOrRequestCreationError(resp, err).Some? ==> r == Failure(LogResponseErrorOrRequestCreationError(resp, err).value)
    ensures LogResponseErrorOrRequestCreationError(resp, err).None? ==> r == decode(resp.body)
  {
    var e := LogResponseErrorOrRequestCreationError(resp, err);
    if e.Some? then Failure(e.value) else decode(resp.body)
  }

  /** Whatever decoder is supplied, a failed request or an error status gives the same result: the body is not decoded. */
  lemma UnmarshalSkipsDecodingOnError<T>(resp: Response, d1: string -> Result<T, Error>, d2: string -> Result<T, Error>, err: Option<Error>)
    requires err.Some? || IsError(resp)
    ensures UnmarshalAndLog(resp, d1, err) == UnmarshalAndLog(resp, d2, err)
    ensures err.None? ==> UnmarshalAndLog(resp, d1, err) == Failure(ErrCodeInResponse)
  {
  }

  /**
   * `json.Unmarshal` into a map passed by value: the syntax error for a
   * malformed body, else the invalid-target error.
   */
  function NonPointerTarget(wellFormed: string -> Option<Error>): (decode: string -> Result<(), Error>)
    ensures forall body :: decode(body).Failure?
  {
    body => if wellFormed(body).Some? then Failure(wellFormed(body).value)
            else Failure(Decode("json: Unmarshal(non-pointer map[string]interface {})"))
  }

  // ------------------------------------------------------------ retry

  /**
   * The retry condition installed on the client: retry when the request
   * itself failed, and never because of the response alone.
   */
  function RetryCondition(resp: Response, reqErr: Option<Error>): (retry: bool)
    ensures reqErr.Some? ==> retry
    ensures reqErr.None? ==> !retry
  {
    reqErr.Some?
  }

  /** `SetRetryCount(2)`: up to two retries after the first attempt. */
  const RetryCount: nat := 2

  /** The reply the client ends up with and how many attempts it took. */
  datatype Delivery = Delivery(reply: Reply, attempts: nat)

  /**
   * resty's retry loop from attempt `k` on, with `left` retries still allowed:
   * it stops at the first attempt the retry condition rejects, or when no
   * retry is left.
   */
  function Attempt(net: Network, req: Request, k: nat, left: nat): (d: Delivery)
    ensures k < d.attempts <= k + left + 1
    ensures d.reply == net(req, d.attempts - 1)
    ensures forall j :: k <= j < d.attempts - 1 ==> RetryCondition(net(req, j).response, net(req, j).err)
    ensures d.attempts < k + left + 1 ==> !RetryCondition(d.reply.response, d.reply.err)
    decreases left
  {
    var reply := net(req, k);
    if RetryCondition(reply.response, reply.err) && left > 0 then Attempt(net, req, k + 1, left - 1)
    else Delivery(reply, k + 1)
  }

  /** A request sent by a client configured with `retries` retries. */
  function Execute(net: Network, req: Request, retries: nat): (d: Delivery)
    ensures 1 <= d.attempts <= retries + 1
    ensures d.reply == net(req, d.attempts - 1)
    ensures forall j :: 0 <= j < d.attempts - 1 ==> RetryCondition(net(req, j).response, net(req, j).err)
    ensures d.attempts < retries + 1 ==> !RetryCondition(d.reply.response, d.reply.err)
  {
    Attempt(net, req, 0, retries)
  }

  /**
   * An error status never causes a retry: if the first attempt completed,
   * whatever its status, it is the only attempt.
   */
  lemma StatusAloneNeverRetries(net: Network, req: Request, retries: nat)
    requires net(req, 0).err.None?
    ensures Execute(net, req, retries) == Delivery(net(req, 0), 1)
  {
  }

  /**
   * Every attempt but the last failed to complete; the request stops early
   * only on a completed attempt, and with the client's two retries there are
   * at most three attempts.
   */
  lemma RetryBound(net: Network, req: Request)
    ensures var d := Execute(net, req, RetryCount);
      && d.attempts <= 3
      && (forall j :: 0 <= j < d.attempts - 1 ==> net(req, j).err.Some?)
      && (d.reply.err.Some? ==> d.attempts == 3)
  {
  }

  /** Two networks that answer a request alike give the same delivery: only that request's replies matter. */
  lemma {:induction false} AttemptDependsOnlyOnRequest(net1: Network, net2: Network, req: Request, k: nat, left: nat)
    requires forall j :: net1(req, j) == net2(req, j)
    ensures Attempt(net1, req, k, left) == Attempt(net2, req, k, left)
    decreases left
  {
    if left > 0 {
      AttemptDependsOnlyOnRequest(net1, net2, req, k + 1, left - 1);
    }
  }

  /**
   * How a request sent with `retries` retries and read by `UnmarshalAndLog`
   * with `decode` ends: the first attempt that completes decides; when none
   * completes within the budget, the request error of the last attempt.
   */
  ghost predicate Answers<T>(net: Network, req: Request, retries: nat, decode: string -> Result<T, Error>, r: Result<T, Error>) {
    && (forall k :: 0 <= k <= retries && net(req, k).err.None? && (forall j :: 0 <= j < k ==> net(req, j).err.Some?)
          ==> r == UnmarshalAndLog(net(req, k).response, decode, None))
    && ((forall k :: 0 <= k <= retries ==> net(req, k).err.Some?) ==> r == Failure(net(req, retries).err.value))
  }

  /** If some attempt up to `bound` completes, a first one does. */
  lemma {:induction false} FirstCompletion(net: Network, req: Request, bound: nat)
    requires exists k :: 0 <= k <= bound && net(req, k).err.None?
    ensures exists k :: 0 <= k <= bound && net(req, k).err.None? && forall j :: 0 <= j < k ==> net(req, j).err.Some?
    decreases bound
  {
    if bound > 0 && exists k :: 0 <= k <= bound - 1 && net(req, k).err.None? {
      FirstCompletion(net, req, bound - 1);
    } else {
      assert net(req, bound).err.None?;
      assert forall j :: 0 <= j < bound ==> net(req, j).err.Some?;
    }
  }

  /** `Answers` leaves exactly one result: every reply sequence decides the outcome. */
  lemma AnswersUnique<T>(net: Network, req: Request, retries: nat, decode: string -> Result<T, Error>, r1: Result<T, Error>, r2: Result<T, Error>)
    requires Answers(net, req, retries, decode, r1) && Answers(net, req, retries, decode, r2)
    ensures r1 == r2
  {
    if exists k :: 0 <= k <= retries && net(req, k).err.None? {
      FirstCompletion(net, req, retries);
    }
  }

  /** The retry loop followed by `UnmarshalAndLog` ends as `Answers` says. */
  lemma ExecuteAnswers<T>(net: Network, req: Request, retries: nat, decode: string -> Result<T, Error>)
    ensures var d := Execute(net, req, retries);
      Answers(net, req, retries, decode, UnmarshalAndLog(d.reply.response, decode, d.reply.err))
  {
    var d := Execute(net, req, retries);
  }

  // ------------------------------------------------------------ credential exchange

  const ApiTokenPath: string := "/identity/resources/auth/v1/api-token"

  /**
   * `getFEAuthInfo`: one POST of the key and secret to the identity service
   * (a fresh client, so no retry). A request error is returned as it is; an
   * error status becomes an authentication error carrying the body; otherwise
   * the decoded token or the decoding error.
   */
  function GetFEAuthInfo(key: string, secret: string, identityUrl: string, net: Network, decode: string -> Result<TokenResponse, Error>): (r: Result<TokenResponse, Error>)
    ensures var reply := net(Request(Post, identityUrl, ApiTokenPath, map[], ApiToken(key, secret)), 0);
      && (reply.err.Some? ==> r == Failure(reply.err.value))
      && (reply.err.None? && IsError(reply.response) ==> r == Failure(New("authentication error : " + reply.response.body)))
      && (reply.err.None? && !IsError(reply.response) ==> r == decode(reply.response.body))
  {
    var reply := Execute(net, Request(Post, identityUrl, ApiTokenPath, map[], ApiToken(key, secret)), 0).reply;
    if reply.err.Some? then Failure(reply.err.value)
    else if IsError(reply.response) then Failure(New("authentication error : " + reply.response.body))
    else decode(reply.response.body)
  }

  /**
   * The credential exchange classifies its reply like every other request,
   * except that an error status carries the response body instead of the
   * fixed `ErrCodeInResponse`.
   */
  lemma FEAuthInfoAgreesWithUnmarshal(key: string, secret: string, identityUrl: string, net: Network, decode: string -> Result<TokenResponse, Error>)
    ensures var reply := net(Request(Post, identityUrl, ApiTokenPath, map[], ApiToken(key, secret)), 0);
      GetFEAuthInfo(key, secret, identityUrl, net, decode)
        == if reply.err.None? && IsError(reply.response) then Failure(New("authentication error : " + reply.response.body))
           else UnmarshalAndLog(reply.response, decode, reply.err)
  {
  }

  // ------------------------------------------------------------ the client

  /** `ArgoClientImpl`: a resty client and the credentials it was built with. */
  class ArgoClientImpl {
    var baseUrl: string
    var headers: map<string, string>
    var retryCount: nat
    var clientAuthInfo: Option<TokenResponse>
    /** Every callback this client has posted, in order. */
    ghost var callbacks: seq<CallbackRecord>

    /** `&ArgoClientImpl{Client: resty.New()}`: no base URL, no headers, no retries. */
    constructor ()
      ensures baseUrl == "" && headers == map[] && retryCount == 0 && clientAuthInfo == None
      ensures callbacks == []
    {
      baseUrl, headers, retryCount, clientAuthInfo := "", map[], 0, None;
      callbacks := [];
    }

    /** The request `c.R()` builds for a verb, path and body. */
    function RequestFor(verb: Verb, path: string, body: RequestBody): Request
      reads this`baseUrl, this`headers
    {
      Request(verb, baseUrl, path, headers, body)
    }

    /**
     * A GET of `path` whose reply goes through `UnmarshalAndLog`: the first
     * attempt within the retry budget that completes decides the result,
     * whatever its status; if none completes, the last request error. An
     * error status on the first attempt ends the request with
     * `ErrCodeInResponse` and no retry.
     */
    function Fetch<T>(path: string, decode: string -> Result<T, Error>, net: Network): (r: Result<T, Error>)
      reads this`baseUrl, this`headers, this`retryCount
      ensures Answers(net, RequestFor(Get, path, NoBody), retryCount, decode, r)
      ensures var req := RequestFor(Get, path, NoBody);
        net(req, 0).err.None? && IsError(net(req, 0).response) ==> r == Failure(ErrCodeInResponse)
    {
      var req := RequestFor(Get, path, NoBody);
      ExecuteAnswers(net, req, retryCount, decode);
      var d := Execute(net, req, retryCount);
      UnmarshalAndLog(d.reply.response, decode, d.reply.err)
    }

    /** `FetchBuildRunInfo`: GET /api/v1/build/run/{id}. */
    function FetchBuildRunInfo(buildRunId: string, net: Network, codecs: Codecs): (r: Result<BuildRun, Error>)
      reads this`baseUrl, this`headers, this`retryCount
      ensures Answers(net, RequestFor(Get, "/api/v1/build/run/" + buildRunId, NoBody), retryCount, codecs.run, r)
    {
      Fetch("/api/v1/build/run/" + buildRunId, codecs.run, net)
    }

    /** `FetchBuildInfo`: GET /api/v1/build/{id}. */
    function FetchBuildInfo(buildId: string, net: Network, codecs: Codecs): (r: Result<BuildConfig, Error>)
      reads this`baseUrl, this`headers, this`retryCount
      ensures Answers(net, RequestFor(Get, "/api/v1/build/" + buildId, NoBody), retryCount, codecs.config, r)
    {
      Fetch("/api/v1/build/" + buildId, codecs.config, net)
    }

    /** `FetchContainerRegistryAccess`: GET /api/v1/registries/{id}/access. */
    function FetchContainerRegistryAccess(crId: string, net: Network, codecs: Codecs): (r: Result<RegistryAccess, Error>)
      reads this`baseUrl, this`headers, this`retryCount
      ensures Answers(net, RequestFor(Get, "/api/v1/registries/" + crId + "/access", NoBody), retryCount, codecs.access, r)
    {
      Fetch("/api/v1/registries/" + crId + "/access", codecs.access, net)
    }

    /** `FetchBuildTimeSecrets`: GET /api/v1/build/{id}/secrets. */
    function FetchBuildTimeSecrets(buildConfigId: string, net: Network, codecs: Codecs): (r: Result<BuildSecretFetch, Error>)
      reads this`baseUrl, this`headers, this`retryCount
      ensures Answers(net, RequestFor(Get, "/api/v1/build/" + buildConfigId + "/secrets", NoBody), retryCount, codecs.secrets, r)
    {
      Fetch("/api/v1/build/" + buildConfigId + "/secrets", codecs.secrets, net)
    }

    /**
     * The outcome of posting a callback: POST /api/v1/build/run/{id}/callback
     * with the payload as body, retried like every request of this client,
     * its reply decoded by `ack` into a map reached through a pointer.
     */
    function CallbackOutcome(buildRunId: string, body: CallbackBody, net: Network, ack: string -> Result<(), Error>): (r: Result<(), Error>)
      reads this`baseUrl, this`headers, this`retryCount
      ensures Answers(net, RequestFor(Post, "/api/v1/build/run/" + buildRunId + "/callback", Callback(body)), retryCount, ack, r)
    {
      var req := RequestFor(Post, "/api/v1/build/run/" + buildRunId + "/callback", Callback(body));
      ExecuteAnswers(net, req, retryCount, ack);
      var d := Execute(net, req, retryCount);
      UnmarshalAndLog(d.reply.response, ack, d.reply.err)
    }

    /**
     * The outcome as written: the reply is decoded into a map value rather
     * than a pointer, which `json.Unmarshal` rejects once the body's syntax
     * has been checked by `wellFormed`. Every outcome is an error.
     */
    function CallbackOutcomeAsWritten(buildRunId: string, body: CallbackBody, net: Network, wellFormed: string -> Option<Error>): (r: Result<(), Error>)
      reads this`baseUrl, this`headers, this`retryCount
      ensures Answers(net, RequestFor(Post, "/api/v1/build/run/" + buildRunId + "/callback", Callback(body)), retryCount, NonPointerTarget(wellFormed), r)
      ensures r.Failure?
    {
      var req := RequestFor(Post, "/api/v1/build/run/" + buildRunId + "/callback", Callback(body));
      ExecuteAnswers(net, req, retryCount, NonPointerTarget(wellFormed));
      var d := Execute(net, req, retryCount);
      UnmarshalAndLog(d.reply.response, NonPointerTarget(wellFormed), d.reply.err)
    }

    /**
     * `BuildRunCallback`: posts the payload's current field values and reports
     * the outcome as written, which is an error whatever the reply.
     */
    method BuildRunCallback(buildRunId: string, payload: BuildRunCallbackPayload, net: Network, codecs: Codecs) returns (err: Option<Error>)
      modifies this`callbacks
      ensures callbacks == old(callbacks) + [CallbackRecord(buildRunId, payload.Body())]
      ensures var r := CallbackOutcomeAsWritten(buildRunId, payload.Body(), net, codecs.wellFormed);
        err == if r.Success? then None else Some(r.error)
      ensures err.Some?
    {
      var r := CallbackOutcomeAsWritten(buildRunId, payload.Body(), net, codecs.wellFormed);
      callbacks := callbacks + [CallbackRecord(buildRunId, payload.Body())];
      err := if r.Success? then None else Some(r.error);
    }
  }

  /**
   * The callback as written reports an error even when the control plane
   * accepted it on the first attempt with a well-formed reply; the corrected
   * callback reports none in that case.
   */
  lemma AcceptedCallbackReportsError(client: ArgoClientImpl, buildRunId: string, body: CallbackBody, net: Network,
                                     ack: string -> Result<(), Error>, wellFormed: string -> Option<Error>)
    requires var req := client.RequestFor(Post, "/api/v1/build/run/" + buildRunId + "/callback", Callback(body));
      net(req, 0).err.None? && !IsError(net(req, 0).response) && ack(net(req, 0).response.body).Success?
    ensures client.CallbackOutcomeAsWritten(buildRunId, body, net, wellFormed).Failure?
    ensures client.CallbackOutcome(buildRunId, body, net, ack).Success?
  {
  }

  /** Each operation's result depends on the network only through the replies to its own request. */
  lemma OperationsTargetTheirPaths(client: ArgoClientImpl, id: string, net1: Network, net2: Network, codecs: Codecs)
    ensures (forall k :: net1(client.RequestFor(Get, "/api/v1/build/run/" + id, NoBody), k) == net2(client.RequestFor(Get, "/api/v1/build/run/" + id, NoBody), k))
      ==> client.FetchBuildRunInfo(id, net1, codecs) == client.FetchBuildRunInfo(id, net2, codecs)
    ensures (forall k :: net1(client.RequestFor(Get, "/api/v1/build/" + id, NoBody), k) == net2(client.RequestFor(Get, "/api/v1/build/" + id, NoBody), k))
      ==> client.FetchBuildInfo(id, net1, codecs) == client.FetchBuildInfo(id, net2, codecs)
    ensures (forall k :: net1(client.RequestFor(Get, "/api/v1/registries/" + id + "/access", NoBody), k) == net2(client.RequestFor(Get, "/api/v1/registries/" + id + "/access", NoBody), k))
      ==> client.FetchContainerRegistryAccess(id, net1, codecs) == client.FetchContainerRegistryAccess(id, net2, codecs)
    ensures (forall k :: net1(client.RequestFor(Get, "/api/v1/build/" + id + "/secrets", NoBody), k) == net2(client.RequestFor(Get, "/api/v1/build/" + id + "/secrets", NoBody), k))
      ==> client.FetchBuildTimeSecrets(id, net1, codecs) == client.FetchBuildTimeSecrets(id, net2, codecs)
  {
    var paths := ["/api/v1/build/run/" + id, "/api/v1/build/" + id, "/api/v1/registries/" + id + "/access", "/api/v1/build/" + id + "/secrets"];
    forall p | p in paths
      ensures (forall k :: net1(client.RequestFor(Get, p, NoBody), k) == net2(client.RequestFor(Get, p, NoBody), k))
        ==> Execute(net1, client.RequestFor(Get, p, NoBody), client.retryCount) == Execute(net2, client.RequestFor(Get, p, NoBody), client.retryCount)
    {
      if forall k :: net1(client.RequestFor(Get, p, NoBody), k) == net2(client.RequestFor(Get, p, NoBody), k) {
        AttemptDependsOnlyOnRequest(net1, net2, client.RequestFor(Get, p, NoBody), 0, client.retryCount);
      }
    }
  }

  // ------------------------------------------------------------ the package-wide instance

  const AuthorizationHeader: string := "Authorization"

  /** The package-level state of ci/argo_client.go: the shared client, unset until initialised. */
  class Package {
    var argoClientInstance: ArgoClientImpl?

    constructor ()
      ensures argoClientInstance == null
    {
      argoClientInstance := null;
    }

    /** `GetArgoClient`: the shared client; Go panics when it is unset, so callers must have initialised it. */
    method GetArgoClient() returns (c: ArgoClientImpl)
      requires argoClientInstance != null
      ensures c == argoClientInstance
    {
      c := argoClientInstance;
    }

    /**
     * `InitializeArgoClient`: with both credentials present, exchanges them for
     * an access token and, on success, configures a new client (the token as
     * Authorization header, the control-plane base URL, two retries on request
     * errors) and makes it the shared instance. Any failure leaves the shared
     * instance as it was.
     */
    method InitializeArgoClient(key: string, secret: string, identityUrl: string, controlPlaneUrl: string, net: Network, codecs: Codecs)
      returns (client: ArgoClientImpl?, err: Option<Error>)
      modifies this
      ensures key == "" || secret == "" ==>
        && err == Some(New("access to argonaut server is not configured"))
        && client == null && argoClientInstance == old(argoClientInstance)
      ensures key != "" && secret != "" ==>
        match GetFEAuthInfo(key, secret, identityUrl, net, codecs.token)
        case Failure(e) => err == Some(e) && client == null && argoClientInstance == old(argoClientInstance)
        case Success(info) =>
          && err == None && client != null && fresh(client) && argoClientInstance == client
          && client.headers == map[AuthorizationHeader := info.accessToken]
          && client.baseUrl == controlPlaneUrl && client.retryCount == RetryCount
          && client.clientAuthInfo == Some(info) && client.callbacks == []
    {
      var argoClient := new ArgoClientImpl();
      if key == "" || secret == "" {
        return null, Some(New("access to argonaut server is not configured"));
      }
      var info := GetFEAuthInfo(key, secret, identityUrl, net, codecs.token);
      if info.Failure? {
        return null, Some(info.error);
      }
      argoClient.clientAuthInfo := Some(info.value);
      argoClient.headers := argoClient.headers[AuthorizationHeader := info.value.accessToken];
      argoClient.baseUrl := controlPlaneUrl;
      argoClient.retryCount := RetryCount;
      argoClientInstance := argoClient;
      client, err := argoClient, None;
    }
  }
}
