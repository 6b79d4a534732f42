/** The Git/Argo variant (workflows/argo_git.go): validation, rendering, submission and
    the status polling that follows a submission. */
module ArgoGit {
  import opened Wrappers
  import opened StateTypes
  import opened StateManager
  import opened Checks
  import opened ArgoSpec
  import opened Renderers
  import opened Workflows
  import opened Reconcile

  function BoolText(b: bool): string {
    if b then "true" else "false"
  }

  /** The eight parameters of the Git/Argo workflow, in order. */
  function GitArgoParameters(token: string, repo: string, region: string, projectName: string, basePath: Option<string>,
                             stackText: string, isNewProject: bool, stage: string): seq<Parameter> {
    RepositoryParameters(token, repo, region, projectName, basePath)
    + [Parameter("stack", stackText), Parameter("isNewProject", BoolText(isNewProject)), Parameter("stage", stage)]
  }

  lemma GitArgoParameterNames(token: string, repo: string, region: string, projectName: string, basePath: Option<string>,
                               stackText: string, isNewProject: bool, stage: string)
    ensures ParameterNames(GitArgoParameters(token, repo, region, projectName, basePath, stackText, isNewProject, stage))
         == ["token", "githubRepository", "region", "projectName", "basePath", "stack", "isNewProject", "stage"]
  {
  }

  lemma GitArgoParametersLookup(token: string, repo: string, region: string, projectName: string, basePath: Option<string>,
                                stackText: string, isNewProject: bool, stage: string)
    ensures var ps := GitArgoParameters(token, repo, region, projectName, basePath, stackText, isNewProject, stage);
      && Lookup(ps, "token") == Some(token) && Lookup(ps, "githubRepository") == Some(repo)
      && Lookup(ps, "region") == Some(region) && Lookup(ps, "projectName") == Some(projectName)
      && Lookup(ps, "basePath") == Some(basePath.GetOr(""))
      && Lookup(ps, "stack") == Some(stackText) && Lookup(ps, "isNewProject") == Some(BoolText(isNewProject))
      && Lookup(ps, "stage") == Some(stage)
  {
    var front := RepositoryParameters(token, repo, region, projectName, basePath);
    var back := [Parameter("stack", stackText), Parameter("isNewProject", BoolText(isNewProject)), Parameter("stage", stage)];
    RepositoryParametersLookup(token, repo, region, projectName, basePath);
    LookupAt(back, 0);
    LookupAt(back, 1);
    LookupAt(back, 2);
    LookupAbsent(front, "stack");
    LookupAbsent(front, "isNewProject");
    LookupAbsent(front, "stage");
    LookupAppend(front, back, "token");
    LookupAppend(front, back, "githubRepository");
    LookupAppend(front, back, "region");
    LookupAppend(front, back, "projectName");
    LookupAppend(front, back, "basePath");
    LookupAppend(front, back, "stack");
    LookupAppend(front, back, "isNewProject");
    LookupAppend(front, back, "stage");
  }

  /** The decoded request: the deployment, and the values of `token` and `stage` keys,
      which the decoding writes over the constructor's token and stage (JSON keys match
      these untagged fields without regard to case). */
  datatype GitRequest = GitRequest(deployment: GitDeployment, token: Option<string>, stage: Option<string>)

  class GitDeploymentArgo {
    var deployment: GitDeployment
    var token: string
    var stage: string
    var stateManager: LocalStateManager?

    /** NewGitArgoWorkflow: the caller's token and stage, nothing decoded yet, no store. */
    constructor (token: string, stage: string)
      ensures this.token == token && this.stage == stage
      ensures deployment == EmptyGitDeployment && stateManager == null
    {
      this.token := token;
      this.stage := stage;
      deployment := EmptyGitDeployment;
      stateManager := null;
    }

    method AssignStateManager(state: LocalStateManager)
      modifies this`stateManager
      ensures stateManager == state
    {
      stateManager := state;
    }

    /** Validate: a decoding error is returned as is; otherwise the decoded request is
        kept, `token` and `stage` keys replace the token and the stage, and repository,
        projectName and region are checked in that order. */
    method Validate(decoded: Result<GitRequest>) returns (err: Option<string>)
      modifies this`deployment, this`token, this`stage
      ensures decoded.Err? ==>
                err == Some(decoded.error) && deployment == old(deployment) && token == old(token) && stage == old(stage)
      ensures decoded.Ok? ==>
                && deployment == decoded.value.deployment
                && token == decoded.value.token.GetOr(old(token))
                && stage == decoded.value.stage.GetOr(old(stage))
      ensures decoded.Ok? ==>
                var d := decoded.value.deployment;
                match FirstFailure(RepositoryChecks(d.repository, d.projectName, d.region))
                case Pass => err == None
                case Fail(e) => err == Some(e)
    {
      if decoded.Err? {
        return Some(decoded.error);
      }
      deployment := decoded.value.deployment;
      if decoded.value.token.Some? {
        token := decoded.value.token.value;
      }
      if decoded.value.stage.Some? {
        stage := decoded.value.stage.value;
      }
      RepositoryValidationOrder(deployment.repository, deployment.projectName, deployment.region);
      if deployment.repository == "" {
        return Some("repository is required");
      }
      if deployment.projectName == "" {
        return Some("projectName is required");
      }
      if deployment.region == "" {
        return Some("region is required");
      }
      return None;
    }

    /** RenderArgoTemplate: eight parameters in a fixed order; a missing base path and a
        missing stack render as "", a present stack as its JSON text (`stackJson`);
        development names for "dev" and "local". */
    function RenderArgoTemplate(env: string, stackJson: seq<string> -> string): (w: ArgoWorkflow)
      reads this
      ensures WellShaped(w) && w.artifacts == []
      ensures ParameterNames(w.parameters)
           == ["token", "githubRepository", "region", "projectName", "basePath", "stack", "isNewProject", "stage"]
      ensures Lookup(w.parameters, "token") == Some(token)
      ensures Lookup(w.parameters, "githubRepository") == Some(deployment.repository)
      ensures Lookup(w.parameters, "region") == Some(deployment.region)
      ensures Lookup(w.parameters, "projectName") == Some(deployment.projectName)
      ensures deployment.basePath.None? ==> Lookup(w.parameters, "basePath") == Some("")
      ensures deployment.basePath.Some? ==> Lookup(w.parameters, "basePath") == Some(deployment.basePath.value)
      ensures deployment.stack.None? ==> Lookup(w.parameters, "stack") == Some("")
      ensures deployment.stack.Some? ==> Lookup(w.parameters, "stack") == Some(stackJson(deployment.stack.value))
      ensures Lookup(w.parameters, "isNewProject") == Some(if deployment.isNewProject then "true" else "false")
      ensures Lookup(w.parameters, "stage") == Some(stage)
      ensures IsDevEnv(env) ==> w.templateName == "build-git-dev" && w.templateRefName == "genezio-build-git-template-dev"
                                && w.generateName == "genezio-build-git-dev-"
      ensures !IsDevEnv(env) ==> w.templateName == "build-git" && w.templateRefName == "genezio-build-git-template"
                                 && w.generateName == "genezio-build-git-"
    {
      var d := deployment;
      var stackText := if d.stack.Some? then stackJson(d.stack.value) else "";
      GitArgoParameterNames(token, d.repository, d.region, d.projectName, d.basePath, stackText, d.isNewProject, stage);
      GitArgoParametersLookup(token, d.repository, d.region, d.projectName, d.basePath, stackText, d.isNewProject, stage);
      Assemble(GitNames(env), [], GitArgoParameters(token, d.repository, d.region, d.projectName, d.basePath, stackText, d.isNewProject, stage))
    }

    /** Submit: a rejected submission returns its error and registers nothing; otherwise the
        workflow id is registered under the caller's token on the "argo" engine and returned.
        The status polling the source starts in the background is PollWorkflowStatus. */
    method Submit(env: string, stackJson: seq<string> -> string, submitWorkflow: ArgoWorkflow -> Result<string>, now: int)
      returns (wfId: string, err: Option<string>)
      requires stateManager != null && stateManager.Valid()
      modifies stateManager`userConcurrentBuilds, stateManager`buildMap
      ensures stateManager.Valid()
      ensures var submitted := submitWorkflow(RenderArgoTemplate(env, stackJson));
        && (submitted.Err? ==>
              && wfId == "" && err == Some(submitted.error)
              && stateManager.buildMap == old(stateManager.buildMap)
              && stateManager.userConcurrentBuilds == old(stateManager.userConcurrentBuilds))
        && (submitted.Ok? ==>
              && wfId == submitted.value && err == None
              && stateManager.buildMap == old(stateManager.buildMap)[wfId := Created(token, EngineArgo, now)]
              && stateManager.userConcurrentBuilds
                 == old(stateManager.userConcurrentBuilds)[token := CountOf(old(stateManager.userConcurrentBuilds), token) + 1])
      ensures old(stateManager.Balanced()) && wfId !in old(stateManager.buildMap) ==> stateManager.Balanced()
    {
      var rendered := RenderArgoTemplate(env, stackJson);
      var submitted := submitWorkflow(rendered);
      if submitted.Err? {
        return "", Some(submitted.error);
      }
      wfId := submitted.value;
      err := stateManager.CreateState(wfId, token, EngineArgo, now);
      if err.Some? {
        return "", err;
      }
    }

    /** The polling goroutine started by Submit, run to its end over the given read
        outcomes: the job ends as Poll says, no other job changes, and the owner's counter
        drops by one exactly when the job closes. */
    method PollWorkflowStatus(wfId: string, outcomes: seq<ReadOutcome>) returns (end: PollEnd)
      requires stateManager != null && stateManager.Valid()
      modifies stateManager`userConcurrentBuilds, stateManager`buildMap
      ensures stateManager.Valid()
      ensures var start := Find(old(stateManager.buildMap), wfId);
        var (job, e) := Poll(start, outcomes, MaxRetries);
        && end == e
        && (start.None? ==>
              stateManager.buildMap == old(stateManager.buildMap)
              && stateManager.userConcurrentBuilds == old(stateManager.userConcurrentBuilds))
        && (start.Some? ==>
              && job.Some?
              && stateManager.buildMap == old(stateManager.buildMap)[wfId := job.value]
              && stateManager.userConcurrentBuilds
                 == Released(old(stateManager.userConcurrentBuilds), start.value, job.value))
      ensures old(stateManager.Balanced()) ==> stateManager.Balanced()
    {
      var sm := stateManager;
      ghost var start := Find(sm.buildMap, wfId);
      var retries: nat := MaxRetries;
      var k := 0;
      while true
        invariant 0 <= k <= |outcomes| && stateManager == sm
        invariant sm.Valid()
        invariant Poll(Find(sm.buildMap, wfId), outcomes[k..], retries) == Poll(start, outcomes, MaxRetries)
        invariant start.None? ==>
                    sm.buildMap == old(sm.buildMap) && sm.userConcurrentBuilds == old(sm.userConcurrentBuilds)
        invariant start.Some? ==> Tracks(old(sm.buildMap), old(sm.userConcurrentBuilds), sm.buildMap, sm.userConcurrentBuilds, wfId)
        invariant old(sm.Balanced()) ==> sm.Balanced()
        decreases |outcomes| - k
      {
        if retries == 0 {
          return BudgetExhausted;
        }
        if k == |outcomes| {
          return ReadsExhausted;
        }
        assert outcomes[k..][1..] == outcomes[k + 1..];
        match outcomes[k]
        case ReadFailed(_) =>
          retries := retries - 1;
          k := k + 1;
        case ReadOk(batch, at) =>
          var current := sm.GetState(wfId);
          if current.Err? {
            return StateMissing;
          }
          ghost var builds, counters := sm.buildMap, sm.userConcurrentBuilds;
          var batchEnd := ProcessBatch(wfId, current.value.transitions, batch, at);
          if start.Some? {
            TracksStep(old(sm.buildMap), old(sm.userConcurrentBuilds), builds, counters, wfId, sm.buildMap[wfId]);
          }
          if batchEnd == BatchStopped {
            return StatusReported;
          }
          if batchEnd == BatchPanicked {
            return Panicked;
          }
          k := k + 1;
      }
    }

    /** The processing of one batch: each entry whose status the snapshot has not seen is
        applied with UpdateState, a SUCCEEDED or FAILED entry returns, and an update sent
        to a closed watcher panics. */
    method ProcessBatch(wfId: string, snapshot: seq<StateTransition>, batch: seq<PodStatus>, at: int) returns (end: BatchEnd)
      requires stateManager != null && stateManager.Valid() && wfId in stateManager.buildMap
      modifies stateManager`userConcurrentBuilds, stateManager`buildMap
      ensures stateManager.Valid() && wfId in stateManager.buildMap
      ensures (stateManager.buildMap[wfId], end) == ApplyBatch(old(stateManager.buildMap[wfId]), snapshot, batch, at)
      ensures stateManager.buildMap == old(stateManager.buildMap)[wfId := stateManager.buildMap[wfId]]
      ensures stateManager.userConcurrentBuilds
           == Released(old(stateManager.userConcurrentBuilds), old(stateManager.buildMap[wfId]), stateManager.buildMap[wfId])
      ensures stateManager.buildMap[wfId].state.userToken == old(stateManager.buildMap[wfId]).state.userToken
      ensures old(stateManager.buildMap[wfId]).watcher.closed ==> stateManager.buildMap[wfId] == old(stateManager.buildMap[wfId])
      ensures old(stateManager.Balanced()) ==> stateManager.Balanced()
    {
      var sm := stateManager;
      ghost var before := sm.buildMap[wfId];
      var i := 0;
      while i < |batch|
        invariant 0 <= i <= |batch| && stateManager == sm
        invariant sm.Valid() && wfId in sm.buildMap
        invariant ApplyBatch(sm.buildMap[wfId], snapshot, batch[i..], at) == ApplyBatch(before, snapshot, batch, at)
        invariant Tracks(old(sm.buildMap), old(sm.userConcurrentBuilds), sm.buildMap, sm.userConcurrentBuilds, wfId)
        invariant old(sm.Balanced()) ==> sm.Balanced()
      {
        var e := batch[i];
        assert batch[i..][1..] == batch[i + 1..];
        var seen := Seen(snapshot, e.status);
        if !seen {
          if sm.buildMap[wfId].watcher.closed {
            return BatchPanicked;
          }
          ghost var builds, counters := sm.buildMap, sm.userConcurrentBuilds;
          var _ := sm.UpdateState(wfId, e.message, e.status, at);
          TracksStep(old(sm.buildMap), old(sm.userConcurrentBuilds), builds, counters, wfId, sm.buildMap[wfId]);
        }
        if StopsPolling(e.status) {
          return BatchStopped;
        }
        i := i + 1;
      }
      return BatchDone;
    }
  }

  /** The polled job is the only entry that changed, it is still present, and the owner's
      counter differs from the starting one exactly by the job's release. */
  ghost predicate Tracks(builds0: map<string, Build>, counters0: map<string, int>,
                         builds: map<string, Build>, counters: map<string, int>, wfId: string)
  {
    && wfId in builds0 && wfId in builds
    && builds == builds0[wfId := builds[wfId]]
    && counters == Released(counters0, builds0[wfId], builds[wfId])
    && builds[wfId].state.userToken == builds0[wfId].state.userToken
    && (builds0[wfId].watcher.closed ==> builds[wfId] == builds0[wfId])
  }

  /** A further change of the job that keeps its owner and cannot reopen it keeps the
      tracking relation, the release being counted once. */
  lemma TracksStep(builds0: map<string, Build>, counters0: map<string, int>,
                   builds: map<string, Build>, counters: map<string, int>, wfId: string, b1: Build)
    requires Tracks(builds0, counters0, builds, counters, wfId)
    requires builds[wfId].watcher.closed ==> b1 == builds[wfId]
    requires b1.state.userToken == builds[wfId].state.userToken
    ensures Tracks(builds0, counters0, builds[wfId := b1], Released(counters, builds[wfId], b1), wfId)
  {
  }
}
