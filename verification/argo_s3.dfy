/** The S3/Argo variant (workflows/argo_s3.go): the code archive is uploaded (unless a
    download URL was given), then an Argo workflow carrying the whole deployment as one
    base64 parameter is submitted and registered with a fresh webhook secret. */
module ArgoS3 {
  import opened Wrappers
  import opened StateTypes
  import opened StateManager
  import opened Checks
  import opened ArgoSpec
  import Base64
  import opened Renderers
  import opened Workflows
  import opened Deployments

  /** What the variant serialises into its `b64` parameter: the embedded deployment, the
      webhook secret, the token and the upload flag, which are tagged for JSON, and the
      environment variables. `argo_s3.go` reads and writes an `EnvVars` field that neither
      the variant nor `S3Deployment` declares; the model takes it as a field of the variant,
      marshalled like the others (untagged, under its Go name). */
  datatype S3Payload = S3Payload(
    deployment: S3Deployment,
    envVars: Option<map<string, string>>,
    webhookSecret: string,
    token: string,
    codeAlreadyUploaded: bool)

  /** The decoded request; a `token` field present in it replaces the constructor's token. */
  datatype S3Request = S3Request(deployment: S3Deployment, token: Option<string>)

  /** Names of the S3 templates: "dev" and "local" each have their own. */
  function S3ArgoNames(env: string): TemplateNames {
    if env == "dev" then TemplateNames("build-s3-dev", "genezio-build-s3-template-dev", "genezio-build-s3-dev-")
    else if env == "local" then TemplateNames("build-s3-local", "genezio-build-s3-template-local", "genezio-build-s3-local-")
    else TemplateNames("build-s3", "genezio-build-s3-template", "genezio-build-s3-")
  }

  /** Environment variables after a merge: the given ones win, the others are kept. */
  function Merged(current: map<string, string>, given: map<string, string>): (r: map<string, string>)
    ensures r.Keys == current.Keys + given.Keys
    ensures forall k | k in given :: r[k] == given[k]
    ensures forall k | k in current && k !in given :: r[k] == current[k]
  {
    map k | k in current.Keys + given.Keys :: if k in given then given[k] else current[k]
  }

  /** Writing one pending variable first and merging the rest gives the same result. */
  lemma MergeStep(vars: map<string, string>, pending: map<string, string>, key: string)
    requires key in pending
    ensures Merged(vars[key := pending[key]], pending - {key}) == Merged(vars, pending)
  {
    var l, r := Merged(vars[key := pending[key]], pending - {key}), Merged(vars, pending);
    assert l.Keys == r.Keys;
    forall k | k in l.Keys ensures l[k] == r[k] {
    }
  }

  lemma MergeNothing(vars: map<string, string>)
    ensures Merged(vars, map[]) == vars
  {
    assert Merged(vars, map[]).Keys == vars.Keys;
  }

  /** With an injective serialisation, equal `b64` parameters carry equal payloads. */
  lemma PayloadRecoverable(marshal: S3Payload -> seq<Base64.Byte>, p1: S3Payload, p2: S3Payload)
    requires forall x, y :: marshal(x) == marshal(y) ==> x == y
    requires Base64.Encode(marshal(p1)) == Base64.Encode(marshal(p2))
    ensures p1 == p2
  {
    Base64.EncodeInjective(marshal(p1), marshal(p2));
  }

  /** The download URL uploadCode ends with, or the first error on its way: the archive
      upload under the caller's token (giving the upload URL), the parsing of that URL's path, and the presigning
      of a download for the path, stripped of its leading slashes, in the regional bucket. */
  function UploadedUrl(d: S3Deployment, token: string, bucketBaseName: string,
                       uploadArchive: (S3Deployment, string) -> Result<string>,
                       urlPath: string -> Result<string>,
                       presign: (string, string, string) -> Result<string>): Result<string>
  {
    match uploadArchive(d, token)
    case Err(e) => Err(e)
    case Ok(uploadUrl) =>
      match urlPath(uploadUrl)
      case Err(e) => Err(e)
      case Ok(path) => presign(d.region, BucketName(bucketBaseName, d.region), TrimLeadingSlashes(path))
  }

  class S3DeploymentArgo {
    var deployment: S3Deployment
    /** Undeclared in the Go struct; assumed here as the variant's own field. */
    var envVars: Option<map<string, string>>
    var webhookSecret: string
    var token: string
    var codeAlreadyUploaded: bool
    /** The concrete store: the Go interface type of this field lacks the webhook-secret
        methods that Submit calls. */
    var stateManager: LocalStateManager?

    /** NewS3ArgoDeployment: only the token is set. */
    constructor (token: string)
      ensures this.token == token && deployment == EmptyS3Deployment && envVars == None
      ensures webhookSecret == "" && !codeAlreadyUploaded && stateManager == null
    {
      this.token := token;
      deployment := EmptyS3Deployment;
      envVars := None;
      webhookSecret := "";
      codeAlreadyUploaded := false;
      stateManager := null;
    }

    method AssignStateManager(state: LocalStateManager)
      modifies this`stateManager
      ensures stateManager == state
    {
      stateManager := state;
    }

    /** AssignEnvVarsFromStageID: with no variables yet the given map is adopted as it is;
        otherwise each given key is written over, one at a time. */
    method AssignEnvVarsFromStageID(given: Option<map<string, string>>)
      modifies this`envVars
      ensures old(envVars).None? ==> envVars == given
      ensures old(envVars).Some? ==> envVars == Some(Merged(old(envVars).value, given.GetOr(map[])))
    {
      if envVars.None? {
        envVars := given;
        return;
      }
      var vars := envVars.value;
      var pending := given.GetOr(map[]);
      ghost var all := pending;
      while pending != map[]
        invariant pending.Keys <= all.Keys && forall k | k in pending :: pending[k] == all[k]
        invariant Merged(vars, pending) == Merged(old(envVars).value, all)
        decreases |pending.Keys|
      {
        var key :| key in pending;
        MergeStep(vars, pending, key);
        vars := vars[key := pending[key]];
        pending := pending - {key};
      }
      MergeNothing(vars);
      envVars := Some(vars);
    }

    /** Validate: a decoding error is returned as is; otherwise the request is kept, the
        code counts as uploaded exactly when a download URL was given, and projectName,
        region, token and (for code not yet uploaded) the code map are checked in order. */
    method Validate(decoded: Result<S3Request>) returns (err: Option<string>)
      modifies this`deployment, this`token, this`codeAlreadyUploaded
      ensures decoded.Err? ==>
                err == Some(decoded.error) && deployment == old(deployment)
                && token == old(token) && codeAlreadyUploaded == old(codeAlreadyUploaded)
      ensures decoded.Ok? ==>
                && deployment == decoded.value.deployment
                && token == decoded.value.token.GetOr(old(token))
                && (codeAlreadyUploaded <==> deployment.s3DownloadUrl != "")
                && match FirstFailure(S3Checks(deployment, token))
                   case Pass => err == None
                   case Fail(e) => err == Some(e)
    {
      if decoded.Err? {
        return Some(decoded.error);
      }
      deployment := decoded.value.deployment;
      if decoded.value.token.Some? {
        token := decoded.value.token.value;
      }
      codeAlreadyUploaded := deployment.s3DownloadUrl != "";
      S3ValidationOrder(deployment, token);
      if deployment.projectName == "" {
        return Some("projectName is required");
      }
      if deployment.region == "" {
        return Some("region is required");
      }
      if token == "" {
        return Some("token is required");
      }
      if !codeAlreadyUploaded {
        if deployment.code.None? {
          return Some("if code has not been uploaded to s3 previously, codemap is required");
        }
      }
      return None;
    }

    /** The serialised form of the variant. */
    function Payload(): (p: S3Payload)
      reads this
      ensures p.webhookSecret == webhookSecret && p.token == token && p.deployment == deployment
    {
      S3Payload(deployment, envVars, webhookSecret, token, codeAlreadyUploaded)
    }

    /** RenderArgoTemplate: names by environment, the code archive fetched from the
        download URL, and one `b64` parameter whose decoding is the serialised variant. */
    function RenderArgoTemplate(env: string, marshal: S3Payload -> seq<Base64.Byte>): (w: ArgoWorkflow)
      reads this
      ensures WellShaped(w)
      ensures w.artifacts == [Artifact(ArchiveName, ArchivePath, ArchiveMode, deployment.s3DownloadUrl)]
      ensures ParameterNames(w.parameters) == ["b64"]
      ensures Lookup(w.parameters, "b64").Some?
      ensures Base64.Decode(Lookup(w.parameters, "b64").value) == Some(marshal(Payload()))
      ensures env == "dev" ==> w.templateName == "build-s3-dev" && w.templateRefName == "genezio-build-s3-template-dev"
                               && w.generateName == "genezio-build-s3-dev-"
      ensures env == "local" ==> w.templateName == "build-s3-local" && w.templateRefName == "genezio-build-s3-template-local"
                                 && w.generateName == "genezio-build-s3-local-"
      ensures env != "dev" && env != "local" ==>
                w.templateName == "build-s3" && w.templateRefName == "genezio-build-s3-template"
                && w.generateName == "genezio-build-s3-"
    {
      var encoded := Base64.Encode(marshal(Payload()));
      Base64.DecodeEncode(marshal(Payload()));
      Assemble(S3ArgoNames(env), [Artifact(ArchiveName, ArchivePath, ArchiveMode, deployment.s3DownloadUrl)],
               [Parameter("b64", encoded)])
    }

    /** uploadCode, run to its end: the download URL it stores, or the error it returns. */
    method UploadCode(bucketBaseName: string,
                      uploadArchive: (S3Deployment, string) -> Result<string>,
                      urlPath: string -> Result<string>,
                      presign: (string, string, string) -> Result<string>)
      returns (err: Option<string>)
      modifies this`deployment
      ensures var r := UploadedUrl(old(deployment), token, bucketBaseName, uploadArchive, urlPath, presign);
        && (r.Err? ==> err == Some(r.error) && deployment == old(deployment))
        && (r.Ok? ==> err == None && deployment == old(deployment).(s3DownloadUrl := r.value))
    {
      var uploaded := uploadArchive(deployment, token);
      if uploaded.Err? {
        return Some(uploaded.error);
      }
      var path := urlPath(uploaded.value);
      if path.Err? {
        return Some(path.error);
      }
      var uploadKey := TrimLeadingSlashes(path.value);
      var download := presign(deployment.region, BucketName(bucketBaseName, deployment.region), uploadKey);
      if download.Err? {
        return Some(download.error);
      }
      deployment := deployment.(s3DownloadUrl := download.value);
      return None;
    }

    /** Submit: uploads the code when it is not there yet (a failure returns before anything
        is registered), draws a fresh webhook secret, renders and submits the workflow, then
        attaches the secret to the workflow id and registers the job under the token on the
        "argo" engine, in that order; any failure returns "" with its error. */
    method Submit(env: string, bucketBaseName: string,
                  uploadArchive: (S3Deployment, string) -> Result<string>,
                  urlPath: string -> Result<string>,
                  presign: (string, string, string) -> Result<string>,
                  freshSecret: string,
                  marshal: S3Payload -> seq<Base64.Byte>,
                  submitWorkflow: ArgoWorkflow -> Result<string>,
                  now: int)
      returns (wfId: string, err: Option<string>)
      requires stateManager != null && stateManager.Valid()
      modifies this`deployment, this`webhookSecret
      modifies stateManager`userConcurrentBuilds, stateManager`buildMap, stateManager`webhookSecretRef
      ensures stateManager.Valid()
      ensures err.Some? ==> wfId == ""
      ensures var up := if old(codeAlreadyUploaded) then Ok(old(deployment).s3DownloadUrl)
                        else UploadedUrl(old(deployment), token, bucketBaseName, uploadArchive, urlPath, presign);
        && (up.Err? ==>
              err == Some(up.error) && deployment == old(deployment) && webhookSecret == old(webhookSecret)
              && unchanged(stateManager))
        && (up.Ok? ==> deployment == old(deployment).(s3DownloadUrl := up.value) && webhookSecret == freshSecret)
        && (up.Ok? ==>
              var submitted := submitWorkflow(RenderArgoTemplate(env, marshal));
              && (submitted.Err? ==> err == Some(submitted.error) && unchanged(stateManager))
              && (submitted.Ok? && submitted.value == "" ==> err == Some(ErrJobIdRequired) && unchanged(stateManager))
              && (submitted.Ok? && submitted.value != "" && freshSecret == "" ==>
                    err == Some(ErrSecretRequired) && unchanged(stateManager))
              && (submitted.Ok? && submitted.value != "" && freshSecret != "" ==>
                    && wfId == submitted.value && err == None
                    && stateManager.webhookSecretRef == old(stateManager.webhookSecretRef)[freshSecret := wfId]
                    && stateManager.buildMap == old(stateManager.buildMap)[wfId := Created(token, EngineArgo, now)]
                    && stateManager.userConcurrentBuilds
                       == old(stateManager.userConcurrentBuilds)[token := CountOf(old(stateManager.userConcurrentBuilds), token) + 1]))
      ensures old(stateManager.Balanced()) && wfId !in old(stateManager.buildMap) ==> stateManager.Balanced()
    {
      if !codeAlreadyUploaded {
        err := UploadCode(bucketBaseName, uploadArchive, urlPath, presign);
        if err.Some? {
          return "", err;
        }
      }
      webhookSecret := freshSecret;
      var rendered := RenderArgoTemplate(env, marshal);
      var submitted := submitWorkflow(rendered);
      if submitted.Err? {
        return "", Some(submitted.error);
      }
      wfId := submitted.value;
      err := stateManager.AttachJobIdToWebhookSecretRef(webhookSecret, wfId);
      if err.Some? {
        return "", err;
      }
      err := stateManager.CreateState(wfId, token, EngineArgo, now);
      if err.Some? {
        return "", err;
      }
    }
  }
}
