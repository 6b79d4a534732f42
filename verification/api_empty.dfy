/** The Empty/API variant (workflows/api_empty.go): the build machine itself clones the
    repository, creates the project entry over HTTP, zips and uploads the code, and records
    each step in the store. Clone, HTTP, zip and upload are given as functions. */
module ApiEmpty {
  import opened Wrappers
  import opened StateTypes
  import opened StateManager
  import opened Checks
  import opened Workflows

  /** The body of the project-creation request; a None stack is serialised as null. */
  datatype CreateProjectBody = CreateProjectBody(
    projectName: string, region: string, cloudProvider: string, stage: string, stack: Option<seq<string>>)

  datatype Header = Header(name: string, value: string)

  datatype HttpRequest = HttpRequest(verb: string, url: string, headers: seq<Header>, body: CreateProjectBody)

  /** A response: the numeric code and the status line. */
  datatype HttpResponse = HttpResponse(statusCode: int, status: string)

  /** The external calls of Submit. Each returns an error or success. */
  datatype Environment = Environment(
    backendUrl: string,
    clone: string -> Option<string>,
    send: HttpRequest -> Result<HttpResponse>,
    zip: () -> Option<string>,
    upload: (string, string, string, string) -> Option<string>)

  const StatusOk := 200

  /** The project-creation request: PUT <backend>/core/deployment with the bearer token,
      JSON content, CLI version 2.0.3 and the project on genezio-cloud, stage "prod". */
  function CreateProjectRequest(backendUrl: string, token: string, d: EmptyDeployment): (r: HttpRequest)
    ensures r.verb == "PUT" && r.url == backendUrl + "/core/deployment"
    ensures r.headers == [Header("Authorization", "Bearer " + token), Header("Content-Type", "application/json"),
                          Header("Accept-Version", "genezio-cli/2.0.3")]
    ensures r.body == CreateProjectBody(d.projectName, d.region, "genezio-cloud", "prod", d.stack)
  {
    HttpRequest("PUT", backendUrl + "/core/deployment",
                [Header("Authorization", "Bearer " + token), Header("Content-Type", "application/json"),
                 Header("Accept-Version", "genezio-cli/2.0.3")],
                CreateProjectBody(d.projectName, d.region, "genezio-cloud", "prod", d.stack))
  }

  const Pulling := Update("Cloning repository", StatusPullingCode)
  const Authenticating := Update("Auth and creating empty project entry", StatusAuth)
  const Packaging := Update("Started code packaging", StatusBuilding)
  const UploadFailed := Update("Project code upload fail ", StatusFailed)
  const UploadSucceeded := Update("Project code upload success", StatusSuccess)

  /** What Submit does after registering the job: the store updates it makes, in order,
      and the error it returns, if any. */
  function Script(env: Environment, token: string, d: EmptyDeployment): (seq<Update>, Option<string>) {
    match env.clone(d.repository)
    case Some(e) => ([Pulling], Some(e))
    case None =>
      match env.send(CreateProjectRequest(env.backendUrl, token, d))
      case Err(e) => ([Pulling, Authenticating], Some(e))
      case Ok(resp) =>
        if resp.statusCode != StatusOk then ([Pulling, Authenticating], Some("failed to create empty project: " + resp.status))
        else
          match env.zip()
          case Some(e) => ([Pulling, Authenticating, Packaging], Some(e))
          case None =>
            match env.upload(d.projectName, d.region, "prod", token)
            case Some(e) => ([Pulling, Authenticating, Packaging, UploadFailed], Some(e))
            case None => ([Pulling, Authenticating, Packaging, UploadSucceeded], None)
  }

  /** Only the last update of the script can be terminal, and it is terminal exactly when
      the upload was reached: SUCCESS with no error, or FAILED with the upload's error. */
  lemma ScriptShape(env: Environment, token: string, d: EmptyDeployment)
    ensures var (updates, err) := Script(env, token, d);
      && 1 <= |updates| <= 4
      && (forall i | 0 <= i < |updates| - 1 :: !IsTerminal(updates[i].status))
      && (IsTerminal(updates[|updates| - 1].status) <==> |updates| == 4)
      && (err.None? <==> updates[|updates| - 1].status == StatusSuccess)
      && (updates[|updates| - 1].status == StatusFailed ==> err == env.upload(d.projectName, d.region, "prod", token))
  {
  }

  /** On full success the job went PROCESSING -> PENDING -> PULLING_CODE -> AUTHENTICATING
      -> BUILDING -> SUCCESS and is closed. */
  lemma FullSuccessHistory(env: Environment, token: string, d: EmptyDeployment, now: int)
    requires Script(env, token, d).1.None?
    ensures var b := ApplyUpdates(Created(token, EngineAPI, now), Script(env, token, d).0, now);
      && Targets(b.state.transitions) == [StatusPending, StatusPullingCode, StatusAuth, StatusBuilding, StatusSuccess]
      && b.state.transitions[0].from == StatusProcessing
      && b.watcher.closed && b.state.buildStatus == StatusSuccess
  {
    var updates := Script(env, token, d).0;
    var b0 := Created(token, EngineAPI, now);
    ScriptShape(env, token, d);
    ApplyUpdatesTargets(b0, updates, now);
    ApplyUpdatesIsWellFormed(b0, updates, now);
    CreatedIsWellFormed(token, EngineAPI, now);
    assert Targets(b0.state.transitions) == [StatusPending];
    assert Statuses(updates) == [StatusPullingCode, StatusAuth, StatusBuilding, StatusSuccess];
  }

  /** A failure before the upload (clone, HTTP call, non-200 answer, zip) returns an error
      but leaves the job registered, open and still counted. */
  lemma EarlyFailureLeavesJobOpen(env: Environment, token: string, d: EmptyDeployment, now: int)
    requires Script(env, token, d).1.Some? && |Script(env, token, d).0| < 4
    ensures var b := ApplyUpdates(Created(token, EngineAPI, now), Script(env, token, d).0, now);
      && !b.watcher.closed && !IsTerminal(b.state.buildStatus) && WellFormed(b)
  {
    var updates := Script(env, token, d).0;
    ScriptShape(env, token, d);
    CreatedIsWellFormed(token, EngineAPI, now);
    ApplyUpdatesIsWellFormed(Created(token, EngineAPI, now), updates, now);
  }

  /** An upload failure is recorded as FAILED, which closes the job, before the error returns. */
  lemma UploadFailureClosesJob(env: Environment, token: string, d: EmptyDeployment, now: int)
    requires Script(env, token, d).1.Some? && |Script(env, token, d).0| == 4
    ensures var b := ApplyUpdates(Created(token, EngineAPI, now), Script(env, token, d).0, now);
      && b.watcher.closed && b.state.buildStatus == StatusFailed
  {
    var updates := Script(env, token, d).0;
    ScriptShape(env, token, d);
    CreatedIsWellFormed(token, EngineAPI, now);
    ApplyUpdatesIsWellFormed(Created(token, EngineAPI, now), updates, now);
    assert updates == updates[..3] + [updates[3]];
    ApplyUpdatesSnoc(Created(token, EngineAPI, now), updates[..3], updates[3], now);
  }

  /** The store after Submit has registered `jobId` as `created` over `builds` (with the
      owner's counter already raised in `counters`) and applied `done`: the job holds
      every update, and the counter came down exactly if the job closed. */
  ghost predicate Recorded(buildMap: map<string, Build>, userConcurrentBuilds: map<string, int>,
                           builds: map<string, Build>, counters: map<string, int>,
                           jobId: string, created: Build, done: seq<Update>, now: int) {
    && buildMap == builds[jobId := ApplyUpdates(created, done, now)]
    && userConcurrentBuilds == Released(counters, created, ApplyUpdates(created, done, now))
  }

  /** The decoded request: the deployment, and the value of a `token` key, which the
      decoding writes over the constructor's token. */
  datatype EmptyRequest = EmptyRequest(deployment: EmptyDeployment, token: Option<string>)

  class EmptyDeploymentAPI {
    var deployment: EmptyDeployment
    var token: string
    var stateManager: LocalStateManager?

    /** NewEmptyProjectAPIWorkflow: only the token is set. */
    constructor (token: string)
      ensures this.token == token && deployment == EmptyEmptyDeployment && stateManager == null
    {
      this.token := token;
      deployment := EmptyEmptyDeployment;
      stateManager := null;
    }

    method AssignStateManager(state: LocalStateManager)
      modifies this`stateManager
      ensures stateManager == state
    {
      stateManager := state;
    }

    /** Validate: a decoding error is returned as is; otherwise the request is kept, a
        `token` key replaces the token, and repository, projectName and region are checked
        in that order. */
    method Validate(decoded: Result<EmptyRequest>) returns (err: Option<string>)
      modifies this`deployment, this`token
      ensures decoded.Err? ==> err == Some(decoded.error) && deployment == old(deployment) && token == old(token)
      ensures decoded.Ok? ==> deployment == decoded.value.deployment && token == decoded.value.token.GetOr(old(token))
      ensures decoded.Ok? ==>
                var d := decoded.value.deployment;
                match FirstFailure(RepositoryChecks(d.repository, d.projectName, d.region))
                case Pass => err == None
                case Fail(e) => err == Some(e)
    {
      if decoded.Err? {
        return Some(decoded.error);
      }
      deployment := decoded.value.deployment;
      if decoded.value.token.Some? {
        token := decoded.value.token.value;
      }
      RepositoryValidationOrder(deployment.repository, deployment.projectName, deployment.region);
      if deployment.repository == "" {
        return Some("repository is required");
      }
      if deployment.projectName == "" {
        return Some("projectName is required");
      }
      if deployment.region == "" {
        return Some("region is required");
      }
      return None;
    }

    /** One UpdateState call of Submit, from a job that has received `done` so far. */
    method Record(jobId: string, u: Update, now: int,
                  ghost builds: map<string, Build>, ghost counters: map<string, int>, ghost done: seq<Update>)
      requires stateManager != null && stateManager.Valid()
      requires forall i | 0 <= i < |done| :: !IsTerminal(done[i].status)
      requires Recorded(stateManager.buildMap, stateManager.userConcurrentBuilds, builds, counters, jobId,
                        Created(token, EngineAPI, now), done, now)
      modifies stateManager`userConcurrentBuilds, stateManager`buildMap
      ensures stateManager.Valid()
      ensures Recorded(stateManager.buildMap, stateManager.userConcurrentBuilds, builds, counters, jobId,
                       Created(token, EngineAPI, now), done + [u], now)
    {
      ghost var created := Created(token, EngineAPI, now);
      ghost var current := ApplyUpdates(created, done, now);
      CreatedIsWellFormed(token, EngineAPI, now);
      ApplyUpdatesIsWellFormed(created, done, now);
      var _ := stateManager.UpdateState(jobId, u.reason, u.status, now);
      ApplyUpdatesSnoc(created, done, u, now);
    }

    /** Submit: registers the job (id `jobId`, engine "api") before anything else, then
        runs the script, recording each step with UpdateState; the job id is returned only
        on full success. */
    method Submit(jobId: string, env: Environment, now: int) returns (id: string, err: Option<string>)
      requires stateManager != null && stateManager.Valid()
      modifies stateManager`userConcurrentBuilds, stateManager`buildMap
      ensures stateManager.Valid()
      ensures var (updates, e) := Script(env, token, deployment);
        && err == e
        && (e.None? ==> id == jobId)
        && (e.Some? ==> id == "")
        && Recorded(stateManager.buildMap, stateManager.userConcurrentBuilds,
                    old(stateManager.buildMap),
                    old(stateManager.userConcurrentBuilds)[token := CountOf(old(stateManager.userConcurrentBuilds), token) + 1],
                    jobId, Created(token, EngineAPI, now), updates, now)
    {
      ghost var builds := stateManager.buildMap;
      ghost var counters := stateManager.userConcurrentBuilds[token := CountOf(stateManager.userConcurrentBuilds, token) + 1];
      err := stateManager.CreateState(jobId, token, EngineAPI, now);
      if err.Some? {
        return "", err;
      }
      ghost var created := Created(token, EngineAPI, now);
      ghost var done: seq<Update> := [];
      assert ApplyUpdates(created, done, now) == created;
      Record(jobId, Pulling, now, builds, counters, done);
      done := done + [Pulling];
      var cloneErr := env.clone(deployment.repository);
      if cloneErr.Some? {
        assert done == [Pulling];
        return "", cloneErr;
      }
      Record(jobId, Authenticating, now, builds, counters, done);
      done := done + [Authenticating];
      var sent := env.send(CreateProjectRequest(env.backendUrl, token, deployment));
      if sent.Err? {
        assert done == [Pulling, Authenticating];
        return "", Some(sent.error);
      }
      if sent.value.statusCode != StatusOk {
        assert done == [Pulling, Authenticating];
        return "", Some("failed to create empty project: " + sent.value.status);
      }
      Record(jobId, Packaging, now, builds, counters, done);
      done := done + [Packaging];
      var zipErr := env.zip();
      if zipErr.Some? {
        assert done == [Pulling, Authenticating, Packaging];
        return "", zipErr;
      }
      var uploadErr := env.upload(deployment.projectName, deployment.region, "prod", token);
      if uploadErr.Some? {
        Record(jobId, UploadFailed, now, builds, counters, done);
        done := done + [UploadFailed];
        assert done == [Pulling, Authenticating, Packaging, UploadFailed];
        return "", uploadErr;
      }
      Record(jobId, UploadSucceeded, now, builds, counters, done);
      done := done + [UploadSucceeded];
      assert done == [Pulling, Authenticating, Packaging, UploadSucceeded];
      return jobId, None;
    }
  }
}
