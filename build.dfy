/**
 * The build task of ci/build.go: a fixed chain of steps (image tag, build
 * run, build configuration, secrets, registry access, image name, registry
 * login, build and publish) that fills in a callback payload, with the
 * callback deferred before the first step that can fail.
 *
 * Everything outside the process is an oracle: the environment variable
 * SHORT_SHA and the clock, `docker login`, the build engine (connect, then
 * build and publish), `filepath.Join`, and the control plane's network.
 */
module BuildTask {
  import opened Wrappers
  import opened Errors
  import opened Constants
  import opened Dto
  import opened ArgoClient

  // ------------------------------------------------------------ image tag

  type Month = m: int | 1 <= m <= 12 witness 1
  type Day = d: int | 1 <= d <= 31 witness 1
  type Hour = h: int | 0 <= h < 24
  type Minute = m: int | 0 <= m < 60

  /** The fields of `time.Now()` that the tag layout prints. */
  datatype Clock = Clock(month: Month, day: Day, hour: Hour, minute: Minute)

  function Digit(d: int): char
    requires 0 <= d < 10
  {
    ('0' as int + d) as char
  }

  /** A number below 100 printed with two digits, zero-padded. */
  function TwoDigits(n: int): string
    requires 0 <= n < 100
  {
    [Digit(n / 10), Digit(n % 10)]
  }

  /** The value of two decimal digits. */
  function DigitsValue(s: string): int
    requires |s| == 2
  {
    10 * (s[0] as int - '0' as int) + (s[1] as int - '0' as int)
  }

  /** The hour on a 12-hour clock, as the layout element "03" prints it. */
  function Hour12(h: Hour): (h12: int)
    ensures 1 <= h12 <= 12 && h12 % 12 == h % 12
  {
    if h % 12 == 0 then 12 else h % 12
  }

  /** `time.Now().Format("01020304")`: month, day, hour (12-hour clock), minute, two digits each. */
  function Timestamp(c: Clock): (ts: string)
    ensures |ts| == 8
    ensures forall i :: 0 <= i < |ts| ==> '0' <= ts[i] <= '9'
    ensures DigitsValue(ts[0..2]) == c.month && DigitsValue(ts[2..4]) == c.day
    ensures DigitsValue(ts[4..6]) == Hour12(c.hour) && DigitsValue(ts[6..8]) == c.minute
  {
    TwoDigits(c.month) + TwoDigits(c.day) + TwoDigits(Hour12(c.hour)) + TwoDigits(c.minute)
  }

  /** `fmt.Sprintf("%s-%s", shortSha, ts)`. */
  function ImageTag(shortSha: string, ts: string): (tag: string)
    ensures |tag| == |shortSha| + 1 + |ts|
    ensures tag[..|shortSha| + 1] == shortSha + "-" && tag[|shortSha| + 1..] == ts
  {
    shortSha + "-" + ts
  }

  // ------------------------------------------------------------ image name

  const HttpsPrefix: string := "https://"

  /** `strings.TrimPrefix`: `s` without `prefix` if it starts with it, `s` unchanged otherwise. */
  function TrimPrefix(s: string, prefix: string): (r: string)
    ensures prefix <= s ==> prefix + r == s
    ensures !(prefix <= s) ==> r == s
  {
    if prefix <= s then s[|prefix|..] else s
  }

  /** At most one leading occurrence is removed. */
  lemma TrimPrefixOnce(prefix: string, rest: string)
    ensures TrimPrefix(prefix + prefix + rest, prefix) == prefix + rest
  {
    assert prefix <= prefix + prefix + rest;
    assert (prefix + prefix + rest)[|prefix|..] == prefix + rest;
  }

  /** `fmt.Sprintf("%s/%s", strings.TrimPrefix(urlWithPrefix, "https://"), name)`. */
  function ComposeImage(urlWithPrefix: string, name: string): (image: string)
    ensures HttpsPrefix <= urlWithPrefix ==> HttpsPrefix + image == urlWithPrefix + "/" + name
    ensures !(HttpsPrefix <= urlWithPrefix) ==> image == urlWithPrefix + "/" + name
    ensures image != ""
  {
    TrimPrefix(urlWithPrefix, HttpsPrefix) + "/" + name
  }

  /** The registry URL loses its scheme before the image name is appended. */
  lemma ComposeImageExample()
    ensures ComposeImage("https://registry.example.com", "app") == "registry.example.com/app"
  {
    assert "https://registry.example.com" == HttpsPrefix + "registry.example.com";
  }

  // ------------------------------------------------------------ build arguments

  /** `dagger.BuildArg` */
  datatype BuildArg = BuildArg(name: string, value: string)

  /** One build argument per secret, in order, named by the secret's key. */
  function BuildArgsOf(secrets: seq<BuildSecret>): (args: seq<BuildArg>)
    ensures |args| == |secrets|
    ensures forall i :: 0 <= i < |args| ==> args[i] == BuildArg(secrets[i].key, secrets[i].value)
  {
    if secrets == [] then [] else [BuildArg(secrets[0].key, secrets[0].value)] + BuildArgsOf(secrets[1..])
  }

  /** The loop of `getBuildArgs` over a secrets response; a nil response gives no arguments. */
  method CollectBuildArgs(res: Option<BuildSecretFetch>) returns (buildArgs: seq<BuildArg>)
    ensures res.None? ==> buildArgs == []
    ensures res.Some? ==> |buildArgs| == |res.value.data|
    ensures res.Some? ==> forall i :: 0 <= i < |buildArgs| ==> buildArgs[i] == BuildArg(res.value.data[i].key, res.value.data[i].value)
  {
    buildArgs := [];
    if res.Some? {
      var data := res.value.data;
      for n := 0 to |data|
        invariant |buildArgs| == n
        invariant forall i :: 0 <= i < n ==> buildArgs[i] == BuildArg(data[i].key, data[i].value)
      {
        buildArgs := buildArgs + [BuildArg(data[n].key, data[n].value)];
      }
    }
  }

  /** `getBuildArgs`: the secrets of a build configuration as build arguments, or the fetch error and no arguments. */
  method GetBuildArgs(client: ArgoClientImpl, buildConfigId: string, net: Network, codecs: Codecs)
    returns (buildArgs: seq<BuildArg>, err: Option<Error>)
    ensures var res := client.FetchBuildTimeSecrets(buildConfigId, net, codecs);
      && (res.Failure? ==> buildArgs == [] && err == Some(res.error))
      && (res.Success? ==> err == None && buildArgs == BuildArgsOf(res.value.data))
  {
    var res := client.FetchBuildTimeSecrets(buildConfigId, net, codecs);
    if res.Failure? {
      return [], Some(res.error);
    }
    // The fetch always returns a pointer to its result, so `res != nil` holds here.
    buildArgs := CollectBuildArgs(Some(res.value));
    err := None;
  }

  /** The example pair of secrets maps to two arguments, keys and values in order. */
  lemma BuildArgsExample()
    ensures BuildArgsOf([BuildSecret("A", "1"), BuildSecret("B", "2")]) == [BuildArg("A", "1"), BuildArg("B", "2")]
  {
  }

  // ------------------------------------------------------------ the pipeline

  /** The exit status and combined output of `docker login`. */
  datatype LoginOutcome = LoginOutcome(ok: bool, output: string)

  /** What the task gets from outside the control plane. */
  datatype Host = Host(
    /** The environment variable SHORT_SHA. */
    shortSha: string,
    /** `time.Now()` */
    clock: Clock,
    /** `docker login --username u --password p host` */
    login: (string, string, string) -> LoginOutcome,
    /** The error of `dagger.Connect`, if any. */
    connect: Option<Error>,
    /** `filepath.Join` */
    join: (string, string) -> string,
    /** Build from a context directory, Dockerfile and build arguments, then publish under a reference. */
    publish: (string, string, seq<BuildArg>, string) -> Result<string, Error>)

  /** The external calls of a run, in the order they are made. */
  datatype Step =
    | FetchRunStep(buildRunId: string)
    | FetchConfigStep(buildId: string)
    | FetchSecretsStep(buildConfigId: string)
    | FetchAccessStep(registryId: string)
    | LoginStep(username: string, host: string)
    | ConnectStep
    | PublishStep(contextDir: string, dockerfile: string, args: seq<BuildArg>, ref: string)

  /** How a run ends: the error `build` returns, the payload the callback carries and the calls made. */
  datatype Run = Run(err: Option<Error>, body: CallbackBody, steps: seq<Step>)

  /** The payload as it is allocated: status Failed, nothing else set. */
  const InitialBody: CallbackBody := CallbackBody("", "", Failed, "")

  /** How `build` ends for the given control plane and host. */
  function Expected(client: ArgoClientImpl, buildRunId: string, userRepoLoc: string, host: Host, net: Network, codecs: Codecs): (run: Run)
    reads client`baseUrl, client`headers, client`retryCount
    ensures host.shortSha == "" ==> run == Run(Some(New("image tag not generated")), InitialBody, [])
    ensures host.shortSha != "" ==>
      && run.body.imageTag == host.shortSha + "-" + Timestamp(host.clock)
      && |run.steps| >= 1 && run.steps[0] == FetchRunStep(buildRunId)
  {
    if host.shortSha == "" then Run(Some(New("image tag not generated")), InitialBody, [])
    else
      var tagged := InitialBody.(imageTag := ImageTag(host.shortSha, Timestamp(host.clock)));
      FetchingRun(client, tagged, buildRunId, userRepoLoc, host, net, codecs)
  }

  /** The run from the build-run fetch on. */
  function FetchingRun(client: ArgoClientImpl, tagged: CallbackBody, buildRunId: string, userRepoLoc: string,
                       host: Host, net: Network, codecs: Codecs): (run: Run)
    reads client`baseUrl, client`headers, client`retryCount
    ensures |run.steps| >= 1 && run.steps[0] == FetchRunStep(buildRunId)
    ensures run.body.imageTag == tagged.imageTag
  {
    var steps := [FetchRunStep(buildRunId)];
    match client.FetchBuildRunInfo(buildRunId, net, codecs)
    case Failure(e) => Run(Some(e), tagged, steps)
    case Success(buildRunInfo) => FetchingConfig(client, tagged, steps, buildRunInfo, userRepoLoc, host, net, codecs)
  }

  /** The run from the build-configuration fetch on. */
  function FetchingConfig(client: ArgoClientImpl, tagged: CallbackBody, steps: seq<Step>, buildRunInfo: BuildRun,
                          userRepoLoc: string, host: Host, net: Network, codecs: Codecs): (run: Run)
    reads client`baseUrl, client`headers, client`retryCount
    ensures steps < run.steps && run.steps[|steps|] == FetchConfigStep(buildRunInfo.buildConfigId)
    ensures run.body.imageTag == tagged.imageTag
  {
    var s := steps + [FetchConfigStep(buildRunInfo.buildConfigId)];
    match client.FetchBuildInfo(buildRunInfo.buildConfigId, net, codecs)
    case Failure(e) => Run(Some(e), tagged, s)
    case Success(buildInfo) => FetchingSecrets(client, tagged, s, buildInfo, userRepoLoc, host, net, codecs)
  }

  /** The run from the secrets fetch on. */
  function FetchingSecrets(client: ArgoClientImpl, tagged: CallbackBody, steps: seq<Step>, buildInfo: BuildConfig,
                           userRepoLoc: string, host: Host, net: Network, codecs: Codecs): (run: Run)
    reads client`baseUrl, client`headers, client`retryCount
    ensures steps < run.steps && run.steps[|steps|] == FetchSecretsStep(buildInfo.id)
    ensures run.body.imageTag == tagged.imageTag
  {
    var s := steps + [FetchSecretsStep(buildInfo.id)];
    match client.FetchBuildTimeSecrets(buildInfo.id, net, codecs)
    case Failure(e) => Run(Some(e), tagged, s)
    case Success(secrets) => FetchingAccess(client, tagged, s, buildInfo, BuildArgsOf(secrets.data), userRepoLoc, host, net, codecs)
  }

  /** The run from the registry-access fetch on. */
  function FetchingAccess(client: ArgoClientImpl, tagged: CallbackBody, steps: seq<Step>, buildInfo: BuildConfig,
                          buildArgs: seq<BuildArg>, userRepoLoc: string, host: Host, net: Network, codecs: Codecs): (run: Run)
    reads client`baseUrl, client`headers, client`retryCount
    ensures steps < run.steps && run.steps[|steps|] == FetchAccessStep(buildInfo.artifactoryId)
    ensures run.body.imageTag == tagged.imageTag
  {
    var s := steps + [FetchAccessStep(buildInfo.artifactoryId)];
    match client.FetchContainerRegistryAccess(buildInfo.artifactoryId, net, codecs)
    case Failure(e) => Run(Some(e), tagged, s)
    case Success(crAccess) => Publishing(tagged, s, buildInfo, buildArgs, crAccess, userRepoLoc, host)
  }

  /** The run from the image name on: login, engine connection, build and publish. */
  function Publishing(tagged: CallbackBody, steps: seq<Step>, buildInfo: BuildConfig, buildArgs: seq<BuildArg>,
                      crAccess: RegistryAccess, userRepoLoc: string, host: Host): (run: Run)
    ensures steps < run.steps && run.steps[|steps|] == LoginStep(crAccess.username, TrimPrefix(crAccess.url, HttpsPrefix))
    ensures run.body.imageTag == tagged.imageTag && run.body.error == tagged.error
    ensures run.body.image == ComposeImage(crAccess.urlWithPrefix, buildInfo.name)
    ensures run.err.None? ==> run.body.status == Completed
    ensures run.err.Some? ==> run.body.status == tagged.status
  {
    var image := ComposeImage(crAccess.urlWithPrefix, buildInfo.name);
    var imaged := tagged.(image := image);
    var registry := TrimPrefix(crAccess.url, HttpsPrefix);
    var s5 := steps + [LoginStep(crAccess.username, registry)];
    var out := host.login(crAccess.username, crAccess.password, registry);
    if !out.ok then Run(Some(New(out.output)), imaged, s5)
    else
      var s6 := s5 + [ConnectStep];
      if host.connect.Some? then Run(host.connect, imaged, s6)
      else
        match buildInfo.details.ociBuildDetails
        case None => Run(Some(NilDereference), imaged, s6)
        case Some(oci) =>
          var contextDir := host.join(userRepoLoc, oci.workingDir);
          var ref := image + ":" + imaged.imageTag;
          var s7 := s6 + [PublishStep(contextDir, oci.dockerFilePath, buildArgs, ref)];
          match host.publish(contextDir, oci.dockerFilePath, buildArgs, ref)
          case Failure(e) => Run(Some(e), imaged, s7)
          case Success(_) => Run(None, imaged.(status := Completed), s7)
  }

  /**
   * The body of `build` up to each of its returns, filling in the payload as
   * it goes: the image tag, the build run and the build configuration. Every
   * `GetArgoClient()` inside a run returns the same `client`.
   */
  method RunSteps(client: ArgoClientImpl, payload: BuildRunCallbackPayload, buildRunId: string, userRepoLoc: string,
                  host: Host, net: Network, codecs: Codecs)
    returns (err: Option<Error>, ghost steps: seq<Step>)
    requires payload.Body() == InitialBody
    modifies payload
    ensures var run := Expected(client, buildRunId, userRepoLoc, host, net, codecs);
      err == run.err && steps == run.steps && payload.Body() == run.body
  {
    var shortSha := host.shortSha;
    if shortSha == "" {
      return Some(New("image tag not generated")), [];
    }
    payload.imageTag := ImageTag(shortSha, Timestamp(host.clock));

    steps := [FetchRunStep(buildRunId)];
    var buildRunInfo := client.FetchBuildRunInfo(buildRunId, net, codecs);
    if buildRunInfo.Failure? {
      return Some(buildRunInfo.error), steps;
    }

    steps := steps + [FetchConfigStep(buildRunInfo.value.buildConfigId)];
    var buildInfo := client.FetchBuildInfo(buildRunInfo.value.buildConfigId, net, codecs);
    if buildInfo.Failure? {
      return Some(buildInfo.error), steps;
    }

    err, steps := Prepare(client, payload, steps, buildInfo.value, userRepoLoc, host, net, codecs);
  }

  /** `build` once the build configuration is known: its secrets and its registry access. */
  method Prepare(client: ArgoClientImpl, payload: BuildRunCallbackPayload, ghost steps0: seq<Step>, buildInfo: BuildConfig,
                 userRepoLoc: string, host: Host, net: Network, codecs: Codecs)
    returns (err: Option<Error>, ghost steps: seq<Step>)
    modifies payload
    ensures var run := FetchingSecrets(client, old(payload.Body()), steps0, buildInfo, userRepoLoc, host, net, codecs);
      err == run.err && steps == run.steps && payload.Body() == run.body
  {
    steps := steps0 + [FetchSecretsStep(buildInfo.id)];
    var buildArgs, argsErr := GetBuildArgs(client, buildInfo.id, net, codecs);
    if argsErr.Some? {
      return argsErr, steps;
    }

    steps := steps + [FetchAccessStep(buildInfo.artifactoryId)];
    var crAccess := client.FetchContainerRegistryAccess(buildInfo.artifactoryId, net, codecs);
    if crAccess.Failure? {
      return Some(crAccess.error), steps;
    }

    err, steps := Publish(payload, steps, buildInfo, buildArgs, crAccess.value, userRepoLoc, host);
  }

  /** The rest of `build` once the registry access is known: image name, login, engine, publish. */
  method Publish(payload: BuildRunCallbackPayload, ghost steps0: seq<Step>, buildInfo: BuildConfig, buildArgs: seq<BuildArg>,
                 crAccess: RegistryAccess, userRepoLoc: string, host: Host)
    returns (err: Option<Error>, ghost steps: seq<Step>)
    modifies payload
    ensures var run := Publishing(old(payload.Body()), steps0, buildInfo, buildArgs, crAccess, userRepoLoc, host);
      err == run.err && steps == run.steps && payload.Body() == run.body
  {
    var image := ComposeImage(crAccess.urlWithPrefix, buildInfo.name);
    payload.image := image;

    var registry := TrimPrefix(crAccess.url, HttpsPrefix);
    steps := steps0 + [LoginStep(crAccess.username, registry)];
    var out := host.login(crAccess.username, crAccess.password, registry);
    if !out.ok {
      return Some(New(out.output)), steps;
    }

    steps := steps + [ConnectStep];
    if host.connect.Some? {
      return host.connect, steps;
    }

    if buildInfo.details.ociBuildDetails.None? {
      return Some(NilDereference), steps;
    }
    var oci := buildInfo.details.ociBuildDetails.value;
    var contextDir := host.join(userRepoLoc, oci.workingDir);
    var ref := image + ":" + payload.imageTag;
    steps := steps + [PublishStep(contextDir, oci.dockerFilePath, buildArgs, ref)];
    var published := host.publish(contextDir, oci.dockerFilePath, buildArgs, ref);
    if published.Failure? {
      return Some(published.error), steps;
    }

    payload.status := Completed;
    err := None;
  }

  /**
   * `build`: the payload is allocated with status Failed and its callback is
   * deferred before any step can fail, so whichever way the run ends exactly
   * one callback is posted, carrying the payload's final field values. The
   * callback's own outcome does not change what `build` returns.
   */
  method Build(pkg: Package, buildRunId: string, userRepoLoc: string, host: Host, net: Network, codecs: Codecs)
    returns (err: Option<Error>, ghost steps: seq<Step>)
    requires pkg.argoClientInstance != null
    modifies pkg.argoClientInstance`callbacks
    ensures var run := Expected(pkg.argoClientInstance, buildRunId, userRepoLoc, host, net, codecs);
      && err == run.err && steps == run.steps
      && pkg.argoClientInstance.callbacks == old(pkg.argoClientInstance.callbacks) + [CallbackRecord(buildRunId, run.body)]
  {
    var payload := new BuildRunCallbackPayload(Failed);
    var client := pkg.GetArgoClient();
    err, steps := RunSteps(client, payload, buildRunId, userRepoLoc, host, net, codecs);
    // the deferred call: it runs on every return path of the steps above
    var callbackErr := client.BuildRunCallback(buildRunId, payload, net, codecs);
  }

  // ------------------------------------------------------------ properties of a run

  /** The position of each kind of call in the fixed order of `build`. */
  function Position(step: Step): nat {
    match step
    case FetchRunStep(_) => 0
    case FetchConfigStep(_) => 1
    case FetchSecretsStep(_) => 2
    case FetchAccessStep(_) => 3
    case LoginStep(_, _) => 4
    case ConnectStep => 5
    case PublishStep(_, _, _, _) => 6
  }

  /** The calls made so far are a prefix of the fixed order: none skipped, none repeated. */
  predicate InOrder(steps: seq<Step>) {
    forall i :: 0 <= i < |steps| ==> Position(steps[i]) == i
  }

  /**
   * What every way of ending a run has in common. A run ending at the engine
   * connection carries the connection error, or `NilDereference` when the
   * connection succeeded; a failed connection ends the run; a run that published ends with no
   * error exactly when publishing succeeded, and otherwise with its error;
   * a run without error has published the image under `image:imageTag`.
   */
  ghost predicate Settled(run: Run, host: Host) {
    && (run.err.None? <==> run.body.status == Completed)
    && (run.body.status == Failed || run.body.status == Completed)
    && run.body.error == ""
    && InOrder(run.steps)
    && (run.body.image != "" <==> |run.steps| > 4)
    && (|run.steps| == 6 ==> (host.connect.Some? && run.err == host.connect) || (host.connect.None? && run.err == Some(NilDereference)))
    && (|run.steps| > 6 ==> host.connect.None?)
    && (|run.steps| == 7 ==>
          var p := run.steps[6];
          && p.PublishStep?
          && p.ref == run.body.image + ":" + run.body.imageTag
          && (run.err.None? <==> host.publish(p.contextDir, p.dockerfile, p.args, p.ref).Success?)
          && (run.err.Some? ==> run.err == Some(host.publish(p.contextDir, p.dockerfile, p.args, p.ref).error)))
    && (run.err.None? ==> |run.steps| == 7)
  }

  lemma PublishingSettled(tagged: CallbackBody, steps: seq<Step>, buildInfo: BuildConfig, buildArgs: seq<BuildArg>,
                          crAccess: RegistryAccess, userRepoLoc: string, host: Host)
    requires tagged.status == Failed && tagged.error == "" && tagged.image == ""
    requires InOrder(steps) && |steps| == 4
    ensures Settled(Publishing(tagged, steps, buildInfo, buildArgs, crAccess, userRepoLoc, host), host)
    ensures var run := Publishing(tagged, steps, buildInfo, buildArgs, crAccess, userRepoLoc, host);
      |run.steps| > 5 ==> (|run.steps| == 6 <==> host.connect.Some? || buildInfo.details.ociBuildDetails.None?)
  {
  }

  /** A failed registry-access fetch ends the run with its error; the fetch uses the configuration's registry id. */
  lemma FetchingAccessSettled(client: ArgoClientImpl, tagged: CallbackBody, steps: seq<Step>, buildInfo: BuildConfig,
                              buildArgs: seq<BuildArg>, userRepoLoc: string, host: Host, net: Network, codecs: Codecs)
    requires tagged.status == Failed && tagged.error == "" && tagged.image == ""
    requires InOrder(steps) && |steps| == 3
    ensures var run := FetchingAccess(client, tagged, steps, buildInfo, buildArgs, userRepoLoc, host, net, codecs);
      var res := client.FetchContainerRegistryAccess(buildInfo.artifactoryId, net, codecs);
      && Settled(run, host)
      && run.steps[3] == FetchAccessStep(buildInfo.artifactoryId)
      && (res.Failure? ==> run == Run(Some(res.error), tagged, steps + [FetchAccessStep(buildInfo.artifactoryId)]))
  {
    var s := steps + [FetchAccessStep(buildInfo.artifactoryId)];
    var res := client.FetchContainerRegistryAccess(buildInfo.artifactoryId, net, codecs);
    if res.Success? {
      PublishingSettled(tagged, s, buildInfo, buildArgs, res.value, userRepoLoc, host);
    }
  }

  /** A failed secrets fetch ends the run with its error; the fetch uses the configuration's id. */
  lemma FetchingSecretsSettled(client: ArgoClientImpl, tagged: CallbackBody, steps: seq<Step>, buildInfo: BuildConfig,
                               userRepoLoc: string, host: Host, net: Network, codecs: Codecs)
    requires tagged.status == Failed && tagged.error == "" && tagged.image == ""
    requires InOrder(steps) && |steps| == 2
    ensures var run := FetchingSecrets(client, tagged, steps, buildInfo, userRepoLoc, host, net, codecs);
      var res := client.FetchBuildTimeSecrets(buildInfo.id, net, codecs);
      && Settled(run, host)
      && run.steps[2] == FetchSecretsStep(buildInfo.id)
      && (res.Failure? ==> run == Run(Some(res.error), tagged, steps + [FetchSecretsStep(buildInfo.id)]))
  {
    var s := steps + [FetchSecretsStep(buildInfo.id)];
    var res := client.FetchBuildTimeSecrets(buildInfo.id, net, codecs);
    if res.Success? {
      FetchingAccessSettled(client, tagged, s, buildInfo, BuildArgsOf(res.value.data), userRepoLoc, host, net, codecs);
    }
  }

  /** A failed configuration fetch ends the run with its error; the fetch uses the build run's configuration id. */
  lemma FetchingConfigSettled(client: ArgoClientImpl, tagged: CallbackBody, steps: seq<Step>, buildRunInfo: BuildRun,
                              userRepoLoc: string, host: Host, net: Network, codecs: Codecs)
    requires tagged.status == Failed && tagged.error == "" && tagged.image == ""
    requires InOrder(steps) && |steps| == 1
    ensures var run := FetchingConfig(client, tagged, steps, buildRunInfo, userRepoLoc, host, net, codecs);
      var res := client.FetchBuildInfo(buildRunInfo.buildConfigId, net, codecs);
      && Settled(run, host)
      && run.steps[1] == FetchConfigStep(buildRunInfo.buildConfigId)
      && (res.Failure? ==> run == Run(Some(res.error), tagged, steps + [FetchConfigStep(buildRunInfo.buildConfigId)]))
  {
    var s := steps + [FetchConfigStep(buildRunInfo.buildConfigId)];
    var res := client.FetchBuildInfo(buildRunInfo.buildConfigId, net, codecs);
    if res.Success? {
      FetchingSecretsSettled(client, tagged, s, res.value, userRepoLoc, host, net, codecs);
    }
  }

  /**
   * Whichever way `build` ends: it returns no error exactly when the callback
   * reports Completed, and Failed otherwise; the calls it made follow the
   * fixed order; the image name is reported exactly when the registry access
   * was obtained; a run that reached the engine or publishing ends as
   * `Settled` says; and a run without error published.
   */
  lemma ExpectedSettled(client: ArgoClientImpl, buildRunId: string, userRepoLoc: string, host: Host, net: Network, codecs: Codecs)
    ensures Settled(Expected(client, buildRunId, userRepoLoc, host, net, codecs), host)
  {
    if host.shortSha != "" {
      var tagged := InitialBody.(imageTag := ImageTag(host.shortSha, Timestamp(host.clock)));
      var steps := [FetchRunStep(buildRunId)];
      var res := client.FetchBuildRunInfo(buildRunId, net, codecs);
      if res.Success? {
        FetchingConfigSettled(client, tagged, steps, res.value, userRepoLoc, host, net, codecs);
      }
    }
  }

  /**
   * Each call of a run uses what the calls before it returned, and the run
   * stops at the first call that fails, with that call's error: the build
   * run, then its configuration, then that configuration's secrets and
   * registry access, then `docker login` with that access, then the engine
   * connection (with `NilDereference` when it succeeded but the
   * configuration has no OCI details), then the build of the
   * configuration's context directory and Dockerfile with the secrets as
   * build arguments.
   */
  ghost predicate Chained(client: ArgoClientImpl, buildRunId: string, userRepoLoc: string, host: Host, net: Network, codecs: Codecs, run: Run)
    reads client`baseUrl, client`headers, client`retryCount
  {
    var bri := client.FetchBuildRunInfo(buildRunId, net, codecs);
    && (|run.steps| == 1 ==> bri.Failure? && run.err == Some(bri.error))
    && (|run.steps| > 1 ==>
          && bri.Success? && run.steps[1] == FetchConfigStep(bri.value.buildConfigId)
          && var bi := client.FetchBuildInfo(bri.value.buildConfigId, net, codecs);
          && (|run.steps| == 2 ==> bi.Failure? && run.err == Some(bi.error))
          && (|run.steps| > 2 ==>
                && bi.Success? && run.steps[2] == FetchSecretsStep(bi.value.id)
                && var sec := client.FetchBuildTimeSecrets(bi.value.id, net, codecs);
                && (|run.steps| == 3 ==> sec.Failure? && run.err == Some(sec.error))
                && (|run.steps| > 3 ==>
                      && sec.Success? && run.steps[3] == FetchAccessStep(bi.value.artifactoryId)
                      && var acc := client.FetchContainerRegistryAccess(bi.value.artifactoryId, net, codecs);
                      && (|run.steps| == 4 ==> acc.Failure? && run.err == Some(acc.error))
                      && (|run.steps| > 4 ==>
                            && acc.Success?
                            && var registry := TrimPrefix(acc.value.url, HttpsPrefix);
                            var out := host.login(acc.value.username, acc.value.password, registry);
                            && run.steps[4] == LoginStep(acc.value.username, registry)
                            && run.body.image == ComposeImage(acc.value.urlWithPrefix, bi.value.name)
                            && (|run.steps| == 5 ==> !out.ok && run.err == Some(New(out.output)))
                            && (|run.steps| > 5 ==> out.ok)
                            && (|run.steps| == 6 ==>
                                  || (host.connect.Some? && run.err == host.connect)
                                  || (host.connect.None? && bi.value.details.ociBuildDetails.None? && run.err == Some(NilDereference)))
                            && (|run.steps| > 6 ==>
                                  && host.connect.None?
                                  && bi.value.details.ociBuildDetails.Some?
                                  && var oci := bi.value.details.ociBuildDetails.value;
                                  run.steps[6] == PublishStep(host.join(userRepoLoc, oci.workingDir), oci.dockerFilePath,
                                                              BuildArgsOf(sec.value.data), run.body.image + ":" + run.body.imageTag))))))
  }

  /**
   * After `docker login`: the run stops there exactly when it failed; it
   * stops at the engine on a failed connection or on missing OCI details;
   * the build uses the configuration and the given arguments.
   */
  lemma PublishingChained(tagged: CallbackBody, steps: seq<Step>, buildInfo: BuildConfig, buildArgs: seq<BuildArg>,
                          crAccess: RegistryAccess, userRepoLoc: string, host: Host)
    requires |steps| == 4
    ensures var run := Publishing(tagged, steps, buildInfo, buildArgs, crAccess, userRepoLoc, host);
      var registry := TrimPrefix(crAccess.url, HttpsPrefix);
      var out := host.login(crAccess.username, crAccess.password, registry);
      && (|run.steps| == 5 ==> !out.ok && run.err == Some(New(out.output)))
      && (|run.steps| > 5 ==> out.ok)
      && (|run.steps| == 6 ==>
            || (host.connect.Some? && run.err == host.connect)
            || (host.connect.None? && buildInfo.details.ociBuildDetails.None? && run.err == Some(NilDereference)))
      && (|run.steps| > 6 ==>
            && host.connect.None?
            && buildInfo.details.ociBuildDetails.Some?
            && var oci := buildInfo.details.ociBuildDetails.value;
            run.steps[6] == PublishStep(host.join(userRepoLoc, oci.workingDir), oci.dockerFilePath, buildArgs,
                                        run.body.image + ":" + run.body.imageTag))
  {
  }

  /** The calls of a run are chained as `Chained` says. */
  lemma ExpectedChained(client: ArgoClientImpl, buildRunId: string, userRepoLoc: string, host: Host, net: Network, codecs: Codecs)
    ensures Chained(client, buildRunId, userRepoLoc, host, net, codecs, Expected(client, buildRunId, userRepoLoc, host, net, codecs))
  {
    if host.shortSha == "" {
      return;
    }
    var tagged := InitialBody.(imageTag := ImageTag(host.shortSha, Timestamp(host.clock)));
    var s1 := [FetchRunStep(buildRunId)];
    var bri := client.FetchBuildRunInfo(buildRunId, net, codecs);
    if bri.Success? {
      var s2 := s1 + [FetchConfigStep(bri.value.buildConfigId)];
      var bi := client.FetchBuildInfo(bri.value.buildConfigId, net, codecs);
      if bi.Success? {
        var s3 := s2 + [FetchSecretsStep(bi.value.id)];
        var sec := client.FetchBuildTimeSecrets(bi.value.id, net, codecs);
        if sec.Success? {
          var s4 := s3 + [FetchAccessStep(bi.value.artifactoryId)];
          var acc := client.FetchContainerRegistryAccess(bi.value.artifactoryId, net, codecs);
          if acc.Success? {
            PublishingChained(tagged, s4, bi.value, BuildArgsOf(sec.value.data), acc.value, userRepoLoc, host);
          }
        }
      }
    }
  }

  /**
   * A failed `docker login` ends the run with its output as the error, before
   * the engine is connected; the engine is reached only after a good login.
   */
  lemma LoginGatesEngine(tagged: CallbackBody, steps: seq<Step>, buildInfo: BuildConfig, buildArgs: seq<BuildArg>,
                         crAccess: RegistryAccess, userRepoLoc: string, host: Host)
    ensures var run := Publishing(tagged, steps, buildInfo, buildArgs, crAccess, userRepoLoc, host);
      var out := host.login(crAccess.username, crAccess.password, TrimPrefix(crAccess.url, HttpsPrefix));
      && (!out.ok ==> run.err == Some(New(out.output)) && ConnectStep !in run.steps[|steps|..])
      && (ConnectStep in run.steps[|steps|..] <==> out.ok)
      && run.body.image == ComposeImage(crAccess.urlWithPrefix, buildInfo.name)
  {
    var run := Publishing(tagged, steps, buildInfo, buildArgs, crAccess, userRepoLoc, host);
    var registry := TrimPrefix(crAccess.url, HttpsPrefix);
    var login := LoginStep(crAccess.username, registry);
    if host.login(crAccess.username, crAccess.password, registry).ok {
      assert run.steps[|steps|..][1] == ConnectStep;
    } else {
      assert run.steps[|steps|..] == [login];
    }
  }
}
