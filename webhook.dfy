/**
 * The GitHub release webhook endpoint: authenticate, decode, filter,
 * deploy, and map each outcome to an HTTP status and a
 * `{message, success}` body. The decision chain is a function; the
 * server and the deployment-script runner are objects, so that each
 * invocation of the script is recorded where it happens.
 */
module Webhook {

  import opened Wrappers
  import opened Hex
  import opened JsonValues
  import opened WebhookSignature
  import opened WebhookPayload

  /** The shared secret (as the bytes `secret.as_bytes()` yields) and the script to run. */
  datatype WebhookConfig = WebhookConfig(secret: seq<Byte>, deployScriptPath: string)

  /** Status code and the JSON body `{message, success}`. */
  datatype WebhookResponse = WebhookResponse(status: int, message: string, success: bool)

  const StatusOk := 200
  const StatusBadRequest := 400
  const StatusUnauthorized := 401
  const StatusInternalServerError := 500

  /** How the operating system reports the end of the script. */
  datatype ExitStatus = Exited(code: int) | Signaled(signal: int)

  /** What spawning the script and waiting for it produced; output already decoded as text. */
  datatype ProcessOutput =
    | SpawnFailed(reason: string)
    | Completed(status: ExitStatus, stdout: string, stderr: string)

  datatype Invocation = Invocation(program: string, args: seq<string>)

  /** The collaborators the endpoint does not implement itself. */
  datatype Collaborators = Collaborators(
    mac: MacScheme,
    parseJson: seq<Byte> -> Result<Json, string>,
    run: (string, seq<string>) -> ProcessOutput)

  /** `ExitStatus::success`: exit code zero, and not killed by a signal. */
  predicate Succeeded(s: ExitStatus) {
    s == Exited(0)
  }

  /** How `execute_deployment` reads the script's outcome. */
  function DeploymentResult(out: ProcessOutput): (r: Result<string, string>)
    ensures r.Success? <==> out.Completed? && Succeeded(out.status)
    ensures r.Success? ==> r.value == out.stdout
    ensures out.SpawnFailed? ==> r == Failure("Failed to execute deployment script: " + out.reason)
    ensures out.Completed? && !Succeeded(out.status) ==> r == Failure("Deployment script failed: " + out.stderr)
  {
    match out
    case SpawnFailed(reason) => Failure("Failed to execute deployment script: " + reason)
    case Completed(status, stdout, stderr) =>
      if Succeeded(status) then Success(stdout) else Failure("Deployment script failed: " + stderr)
  }

  predicate IsDeployAction(action: string) {
    action == "published" || action == "released"
  }

  /** The filter the endpoint applies to a decoded event, as one condition. */
  predicate ShouldDeploy(p: ReleasePayload) {
    IsDeployAction(p.action) && !p.release.draft && !p.release.prerelease
  }

  /** Where the early-return chain ends before any deployment, or the tag to deploy. */
  datatype Decision = Respond(response: WebhookResponse) | Deploy(tag: string)

  /**
   * The checks `github_webhook_handler` makes before the script runs, in
   * order. It deploys exactly the authentic, decodable, published or
   * released non-draft non-prerelease events, and the tag is the release's.
   */
  function Decide(config: WebhookConfig, c: Collaborators, headers: HeaderMap, body: seq<Byte>): (d: Decision)
    ensures d.Deploy? <==> DeployAllowed(config, c, headers, body)
    ensures d.Deploy? ==> d.tag == DecodeBody(c.parseJson, body).value.release.tagName
    ensures ValidateSignature(headers, body, config.secret, c.mac).Failure? ==>
      d.Respond? && d.response.status == StatusUnauthorized && !d.response.success
    ensures ValidateSignature(headers, body, config.secret, c.mac).Success? && DecodeBody(c.parseJson, body).Failure? ==>
      d.Respond? && d.response.status == StatusBadRequest && !d.response.success
    ensures d.Respond? && DecodeBody(c.parseJson, body).Success? && ValidateSignature(headers, body, config.secret, c.mac).Success? ==>
      d.response.status == StatusOk && d.response.success
  {
    match ValidateSignature(headers, body, config.secret, c.mac)
    case Failure(e) =>
      Respond(WebhookResponse(StatusUnauthorized, "Signature validation failed: " + Reason(e), false))
    case Success(_) =>
      match DecodeBody(c.parseJson, body)
      case Failure(e) =>
        Respond(WebhookResponse(StatusBadRequest, "Invalid payload: " + Describe(e), false))
      case Success(payload) =>
        if payload.action != "published" && payload.action != "released" then
          Respond(WebhookResponse(StatusOk, "Ignoring action: " + payload.action, true))
        else if payload.release.draft || payload.release.prerelease then
          Respond(WebhookResponse(StatusOk, "Ignoring draft or prerelease", true))
        else
          Deploy(payload.release.tagName)
  }

  /** The response `github_webhook_handler` gives once the script has run for `tag`. */
  function DeployResponse(tag: string, result: Result<string, string>): (r: WebhookResponse)
    ensures r.success <==> result.Success?
    ensures r.status == (if result.Success? then StatusOk else StatusInternalServerError)
  {
    match result
    case Success(_) => WebhookResponse(StatusOk, "Deployment triggered successfully for tag " + tag, true)
    case Failure(e) => WebhookResponse(StatusInternalServerError, "Deployment failed: " + e, false)
  }

  /** What one delivery produces: the response, and the script invocation if there was one. */
  datatype Handled = Handled(response: WebhookResponse, invocation: Option<Invocation>)

  /** Every request the handler deploys for is authentic, decodes, and passes the filter. */
  ghost predicate DeployAllowed(config: WebhookConfig, c: Collaborators, headers: HeaderMap, body: seq<Byte>) {
    && ValidateSignature(headers, body, config.secret, c.mac).Success?
    && DecodeBody(c.parseJson, body).Success?
    && ShouldDeploy(DecodeBody(c.parseJson, body).value)
  }

  /** `github_webhook_handler`. */
  function HandleWebhook(config: WebhookConfig, c: Collaborators, headers: HeaderMap, body: seq<Byte>): (h: Handled)
    ensures h.response.success <==> h.response.status == StatusOk
    ensures h.response.status in {StatusOk, StatusBadRequest, StatusUnauthorized, StatusInternalServerError}
    ensures h.invocation.Some? <==> DeployAllowed(config, c, headers, body)
    ensures h.invocation.Some? ==>
      h.invocation.value == Invocation(config.deployScriptPath, [DecodeBody(c.parseJson, body).value.release.tagName])
  {
    match Decide(config, c, headers, body)
    case Respond(response) => Handled(response, None)
    case Deploy(tag) =>
      var invocation := Invocation(config.deployScriptPath, [tag]);
      Handled(DeployResponse(tag, DeploymentResult(c.run(invocation.program, invocation.args))), Some(invocation))
  }

  /**
   * A failed signature check decides the response alone: the body is never
   * decoded and the script never runs, so neither the JSON parser nor the
   * process runner can change the outcome.
   */
  lemma SignatureCheckedFirst(config: WebhookConfig, c: Collaborators, c': Collaborators, headers: HeaderMap, body: seq<Byte>)
    requires c'.mac == c.mac
    requires ValidateSignature(headers, body, config.secret, c.mac).Failure?
    ensures HandleWebhook(config, c, headers, body) == HandleWebhook(config, c', headers, body)
    ensures var e := ValidateSignature(headers, body, config.secret, c.mac).error;
      HandleWebhook(config, c, headers, body)
        == Handled(WebhookResponse(StatusUnauthorized, "Signature validation failed: " + Reason(e), false), None)
  {
  }

  lemma MissingHeaderMessage()
    ensures "Signature validation failed: " + Reason(MissingHeader)
         == "Signature validation failed: Missing X-Hub-Signature-256 header"
  {
  }

  /** A request without the signature header fails with the missing-header reason. */
  lemma MissingSignatureHeader(config: WebhookConfig, c: Collaborators, headers: HeaderMap, body: seq<Byte>)
    requires forall i :: 0 <= i < |headers| ==> headers[i].name != SignatureHeaderName
    ensures HandleWebhook(config, c, headers, body).response
            == WebhookResponse(StatusUnauthorized, "Signature validation failed: Missing X-Hub-Signature-256 header", false)
  {
    UnsignedRequestIsMissingHeader(headers, body, config.secret, c.mac);
    SignatureCheckedFirst(config, c, c, headers, body);
    MissingHeaderMessage();
  }

  /** An authentic body that does not decode gets 400; the script never runs. */
  lemma UndecodableBodyRejected(config: WebhookConfig, c: Collaborators, headers: HeaderMap, body: seq<Byte>)
    requires ValidateSignature(headers, body, config.secret, c.mac).Success?
    requires DecodeBody(c.parseJson, body).Failure?
    ensures HandleWebhook(config, c, headers, body)
      == Handled(WebhookResponse(StatusBadRequest, "Invalid payload: " + Describe(DecodeBody(c.parseJson, body).error), false), None)
  {
  }

  /** Any action other than published/released is ignored by name, drafts included. */
  lemma OtherActionIgnored(config: WebhookConfig, c: Collaborators, headers: HeaderMap, body: seq<Byte>)
    requires ValidateSignature(headers, body, config.secret, c.mac).Success?
    requires DecodeBody(c.parseJson, body).Success?
    requires !IsDeployAction(DecodeBody(c.parseJson, body).value.action)
    ensures HandleWebhook(config, c, headers, body)
      == Handled(WebhookResponse(StatusOk, "Ignoring action: " + DecodeBody(c.parseJson, body).value.action, true), None)
  {
  }

  /** A published or released draft or prerelease is ignored, with success. */
  lemma DraftOrPrereleaseIgnored(config: WebhookConfig, c: Collaborators, headers: HeaderMap, body: seq<Byte>)
    requires ValidateSignature(headers, body, config.secret, c.mac).Success?
    requires DecodeBody(c.parseJson, body).Success?
    requires var p := DecodeBody(c.parseJson, body).value; IsDeployAction(p.action) && (p.release.draft || p.release.prerelease)
    ensures HandleWebhook(config, c, headers, body) == Handled(WebhookResponse(StatusOk, "Ignoring draft or prerelease", true), None)
  {
  }

  /** A deploying event runs the script once with the tag as its only argument and reports its outcome. */
  lemma DeploymentReported(config: WebhookConfig, c: Collaborators, headers: HeaderMap, body: seq<Byte>)
    requires DeployAllowed(config, c, headers, body)
    ensures var tag := DecodeBody(c.parseJson, body).value.release.tagName;
      var out := c.run(config.deployScriptPath, [tag]);
      var h := HandleWebhook(config, c, headers, body);
      && h.invocation == Some(Invocation(config.deployScriptPath, [tag]))
      && (out.Completed? && Succeeded(out.status) ==>
            h.response == WebhookResponse(StatusOk, "Deployment triggered successfully for tag " + tag, true))
      && (out.Completed? && !Succeeded(out.status) ==>
            h.response == WebhookResponse(StatusInternalServerError, "Deployment failed: " + ("Deployment script failed: " + out.stderr), false))
      && (out.SpawnFailed? ==>
            h.response == WebhookResponse(StatusInternalServerError, "Deployment failed: " + ("Failed to execute deployment script: " + out.reason), false))
  {
    var p := DecodeBody(c.parseJson, body).value;
    assert Decide(config, c, headers, body) == Deploy(p.release.tagName);
    var out := c.run(config.deployScriptPath, [p.release.tagName]);
    var h := HandleWebhook(config, c, headers, body);
    assert h == Handled(DeployResponse(p.release.tagName, DeploymentResult(out)),
                        Some(Invocation(config.deployScriptPath, [p.release.tagName])));
  }

  /**
   * End to end: a body signed with the secret that GitHub writes for a
   * published, non-draft, non-prerelease release is deployed under its tag.
   */
  lemma SignedPublishedReleaseDeploys(config: WebhookConfig, c: Collaborators, p: ReleasePayload, body: seq<Byte>, others: HeaderMap)
    requires c.mac.acceptsKey(config.secret)
    requires c.parseJson(body) == Success(PayloadToJson(p))
    requires ShouldDeploy(p)
    ensures HandleWebhook(config, c, [SignatureHeader(c.mac.tag(config.secret, body))] + others, body).invocation
            == Some(Invocation(config.deployScriptPath, [p.release.tagName]))
  {
    SignedRequestAccepted(config.secret, body, c.mac, others);
    DecodePayloadToJson(p);
  }

  /** Records every run of a program; what a run outputs is given by `run`. */
  class ScriptRunner {
    const run: (string, seq<string>) -> ProcessOutput
    var invocations: seq<Invocation>

    constructor (run: (string, seq<string>) -> ProcessOutput)
      ensures this.run == run && invocations == []
    {
      this.run := run;
      invocations := [];
    }

    /** `Command::new(program).args(args).output()`. */
    method Run(program: string, args: seq<string>) returns (out: ProcessOutput)
      modifies this
      ensures invocations == old(invocations) + [Invocation(program, args)]
      ensures out == run(program, args)
    {
      invocations := invocations + [Invocation(program, args)];
      out := run(program, args);
    }

    /** `execute_deployment`: the tag is the single argument of the script. */
    method ExecuteDeployment(scriptPath: string, tag: string) returns (r: Result<string, string>)
      modifies this
      ensures invocations == old(invocations) + [Invocation(scriptPath, [tag])]
      ensures r == DeploymentResult(run(scriptPath, [tag]))
    {
      var out := Run(scriptPath, [tag]);
      r := DeploymentResult(out);
    }
  }

  class WebhookServer {
    const config: WebhookConfig
    const mac: MacScheme
    const parseJson: seq<Byte> -> Result<Json, string>
    const runner: ScriptRunner

    constructor (config: WebhookConfig, mac: MacScheme, parseJson: seq<Byte> -> Result<Json, string>, runner: ScriptRunner)
      ensures this.config == config && this.mac == mac && this.parseJson == parseJson && this.runner == runner
    {
      this.config := config;
      this.mac := mac;
      this.parseJson := parseJson;
      this.runner := runner;
    }

    ghost function Services(): Collaborators
      reads this, runner
    {
      Collaborators(mac, parseJson, runner.run)
    }

    /** Handles one delivery: the script runs, and is recorded, exactly when the handler deploys. */
    method HandleGithubWebhook(headers: HeaderMap, body: seq<Byte>) returns (response: WebhookResponse)
      modifies runner
      ensures response == HandleWebhook(config, old(Services()), headers, body).response
      ensures runner.invocations == old(runner.invocations)
        + (if DeployAllowed(config, old(Services()), headers, body)
           then [Invocation(config.deployScriptPath, [DecodeBody(parseJson, body).value.release.tagName])] else [])
    {
      var decision := Decide(config, Collaborators(mac, parseJson, runner.run), headers, body);
      match decision {
        case Respond(r) =>
          response := r;
        case Deploy(tag) =>
          var result := runner.ExecuteDeployment(config.deployScriptPath, tag);
          response := DeployResponse(tag, result);
      }
    }
  }

  /** Delivering the same deploying event twice runs the script twice: nothing is deduplicated. */
  method DeliverTwice(server: WebhookServer, headers: HeaderMap, body: seq<Byte>)
    returns (first: WebhookResponse, second: WebhookResponse)
    requires DeployAllowed(server.config, server.Services(), headers, body)
    modifies server.runner
    ensures first == second
    ensures var inv := Invocation(server.config.deployScriptPath, [DecodeBody(server.parseJson, body).value.release.tagName]);
      server.runner.invocations == old(server.runner.invocations) + [inv, inv]
  {
    first := server.HandleGithubWebhook(headers, body);
    second := server.HandleGithubWebhook(headers, body);
  }
}
