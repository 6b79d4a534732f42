/** The git build pod (scripts/src/git.ts): it logs in, clones the repository, prepares
    the configuration and imports, optionally creates the project, installs dependencies
    when needed and deploys, reporting each step as a status. */
module PodGit {
  import opened Wrappers
  import opened PodUtils

  /** The decoded parameters as they arrive; a field the JSON lacks is None. */
  datatype RawParams = RawParams(
    token: Option<string>, githubRepository: Option<string>, projectName: Option<string>, region: Option<string>,
    basePath: Option<string>, isNewProject: bool, stack: Option<seq<string>>, stage: Option<string>,
    envVars: Option<map<string, string>>)

  /** The parameters of a run; the stack is always a list. */
  datatype InputParams = InputParams(
    token: Option<string>, githubRepository: Option<string>, projectName: Option<string>, region: Option<string>,
    basePath: Option<string>, isNewProject: bool, stack: seq<string>, stage: Option<string>,
    envVars: Option<map<string, string>>)

  /** parseArguments: a missing or null stack becomes the empty list; every other field is
      passed on untouched. */
  function ParseArguments(raw: RawParams): (p: InputParams)
    ensures raw.stack.None? ==> p.stack == []
    ensures raw.stack.Some? ==> p.stack == raw.stack.value
    ensures p.token == raw.token && p.githubRepository == raw.githubRepository && p.stage == raw.stage
    ensures p.projectName == raw.projectName && p.region == raw.region && p.basePath == raw.basePath
    ensures p.isNewProject == raw.isNewProject && p.envVars == raw.envVars
  {
    InputParams(raw.token, raw.githubRepository, raw.projectName, raw.region, raw.basePath, raw.isNewProject,
                raw.stack.GetOr([]), raw.stage, raw.envVars)
  }

  /** The arguments of `createNewProject`. */
  datatype CreateRequest = CreateRequest(token: string, projectName: Option<string>, region: Option<string>,
                                         stack: seq<string>, folder: string, stage: Option<string>)

  /** The world the git pod runs in: the temporary folder of the clone, the reachability
      check, the processes, whether genezio.yaml can be written, the YAML library, the
      project-creation call (its error, if any), the package.json reader and the name of
      the environment file, which stands for `writeEnvsToFile`, a function that no file
      of the repository defines. */
  datatype GitEnv = GitEnv(
    tmpDir: string,
    fetch: string -> Option<int>,
    run: Command -> ProcessResult,
    configWriteSucceeds: bool,
    yaml: YamlCodec,
    createProject: CreateRequest -> Option<string>,
    dependsOnNext: string -> Result<bool>,
    envFileName: string)

  /** The branch names that deploy to the "prod" stage. */
  predicate IsProdBranch(stage: Option<string>) {
    stage == Some("main") || stage == Some("master") || stage == Some("")
  }

  /** The stage after normalisation: "main", "master" and "" become "prod". */
  function NormalizeStage(stage: Option<string>): (r: Option<string>)
    ensures IsProdBranch(stage) ==> r == Some("prod")
    ensures !IsProdBranch(stage) ==> r == stage
  {
    if IsProdBranch(stage) then Some("prod") else stage
  }

  /** Normalising twice is normalising once, and the result is never a prod branch name. */
  lemma NormalizeStageIdempotent(stage: Option<string>)
    ensures NormalizeStage(NormalizeStage(stage)) == NormalizeStage(stage)
    ensures !IsProdBranch(NormalizeStage(stage))
  {
  }

  /** The deploy arguments: deploy --stage <stage>, then --env <file> only when there are
      environment variables. */
  function DeployArgs(stage: Option<string>, envVars: map<string, string>, envFileName: string): (r: seq<string>)
    ensures |r| >= 3 && r[..3] == ["deploy", "--stage", Text(stage)]
    ensures |envVars| == 0 <==> |r| == 3
    ensures |envVars| > 0 ==> r[3..] == ["--env", envFileName]
  {
    var args := ["deploy", "--stage", Text(stage)];
    if |envVars| > 0 then args + ["--env", envFileName] else args
  }

  function LoginCommand(token: string): Command {
    Command("genezio", ["login", token], ".")
  }

  /** deployFromGit up to the clone: SCHEDULED, the request check, AUTHENTICATING, the
      login, PULLING_CODE. */
  function GitFront(p: InputParams, env: GitEnv, r: Run, time: string): (s: Step)
    ensures s.thrown.None? <==>
              Truthy(p.token) && Truthy(p.githubRepository) && ExitedCleanly(env.run(LoginCommand(p.token.value)))
    ensures !Truthy(p.token) || !Truthy(p.githubRepository) ==>
              && s.thrown == Some(Thrown("Invalid request")) && s.run.spawned == r.spawned
              && s.run.entries == r.entries + [StatusEntry(StatusFor("SCHEDULED"), "Starting build from git flow", time)]
    ensures Truthy(p.token) && Truthy(p.githubRepository) && !ExitedCleanly(env.run(LoginCommand(p.token.value))) ==>
              && s.thrown == Some(Thrown("Authenticating failed: " + env.run(LoginCommand(p.token.value)).stderr))
              && s.run.spawned == r.spawned + [LoginCommand(p.token.value)]
  {
    var r1 := Added(r, StatusFor("SCHEDULED"), "Starting build from git flow", time);
    if !Truthy(p.token) || !Truthy(p.githubRepository) then Step(r1, Some(Thrown("Invalid request")))
    else
      var r2 := Added(r1, StatusFor("AUTHENTICATING"), "Authenticating with genezio", time);
      var login := LoginCommand(p.token.value);
      var r3 := Spawned(r2, login);
      if !ExitedCleanly(env.run(login)) then Step(r3, Some(Thrown("Authenticating failed: " + env.run(login).stderr)))
      else Step(Added(r3, StatusFor("PULLING_CODE"), "Pulling code from github", time), None)
  }

  /** The deploy process, run in the project folder. */
  function DeployCommand(stage: Option<string>, envVars: map<string, string>, envFileName: string, folder: string): Command {
    Command("genezio", DeployArgs(stage, envVars, envFileName), folder)
  }

  /** deployFromGit from DEPLOYING on: an absent envVars makes Object.keys throw; otherwise
      genezio deploy runs in the project folder and SUCCEEDED follows a clean exit. */
  function GitDeploy(p: InputParams, env: GitEnv, folder: string, stage: Option<string>, r: Run, time: string): Step {
    var r1 := Added(r, StatusFor("DEPLOYING"), "Deploying project", time);
    match p.envVars
    case None => Step(r1, Some("TypeError: Cannot convert undefined or null to object"))
    case Some(envVars) =>
      var deploy := DeployCommand(stage, envVars, env.envFileName, folder);
      var r2 := Spawned(r1, deploy);
      if !ExitedCleanly(env.run(deploy)) then Step(r2, Some(Thrown("Failed to deploy: " + env.run(deploy).stderr)))
      else Step(Added(r2, Succeeded, "Workflow completed successfully", time), None)
  }

  /** deployFromGit between the clone and the optional project creation: the
      configuration file, the stage normalisation, CREATING_PROJECT and the import rewrite. */
  function GitBuild(p: InputParams, env: GitEnv, folder: string, r: Run, time: string): Step {
    match ConfigWritten(r.files, folder, p.projectName, p.region, env.configWriteSucceeds)
    case Err(e) => Step(r, Some(e))
    case Ok(configured) =>
      var r1 := Added(r.(files := configured), StatusFor("CREATING_PROJECT"), "Creating project", time);
      match ImportsRewritten(r1.files, p.projectName, p.region, folder, env.yaml)
      case Err(e) => Step(r1, Some(e))
      case Ok(rewrite) =>
        GitCreate(p, env, folder, NormalizeStage(p.stage), r1.(files := rewrite.0, rewritten := r1.rewritten + rewrite.1), time)
  }

  /** deployFromGit from the optional project creation to DEPLOYING: CREATING_EMPTY_PROJECT
      and createNewProject for a new project, then the dependency check. */
  function GitCreate(p: InputParams, env: GitEnv, folder: string, stage: Option<string>, r: Run, time: string): Step {
    var r1 := if p.isNewProject then Added(r, StatusFor("CREATING_EMPTY_PROJECT"), "Creating new project", time) else r;
    var created := if p.isNewProject
                   then env.createProject(CreateRequest(Text(p.token), p.projectName, p.region, p.stack, folder, stage))
                   else None;
    if created.Some? then Step(r1, Some(Thrown("Failed to create new project " + Thrown(created.value))))
    else GitInstall(p, env, folder, stage, r1, time)
  }

  /** deployFromGit from the dependency check to the end. */
  function GitInstall(p: InputParams, env: GitEnv, folder: string, stage: Option<string>, r: Run, time: string): Step {
    var installed := InstallStep(r, folder, env.dependsOnNext, time);
    if installed.thrown.Some? then installed
    else GitDeploy(p, env, folder, stage, installed.run, time)
  }

  /** deployFromGit as a whole, from the run `r` whose entries are the array it appends to. */
  function GitFlow(p: InputParams, env: GitEnv, r: Run, time: string): Step {
    var front := GitFront(p, env, r, time);
    if front.thrown.Some? then front
    else GitClone(p, env, p.githubRepository.value, front.run, time)
  }

  /** deployFromGit from the clone on, for the repository the front checked. */
  function GitClone(p: InputParams, env: GitEnv, repository: string, r: Run, time: string): Step {
    var r1 := r.(spawned := r.spawned + CloneSpawns(repository, p.stage, env.tmpDir, env.fetch));
    match CloneOutcome(repository, p.basePath, p.stage, env.tmpDir, env.fetch, env.run)
    case Err(e) => Step(r1, Some(e))
    case Ok(folder) => GitBuild(p, env, folder, r1, time)
  }

  /** runGitFlow: the flow appends to a default array of its own; a thrown error is
      reported as FAILED on runGitFlow's separate, empty array, so the status file then
      holds that one entry. */
  function GitRun(raw: RawParams, env: GitEnv, r: Run, time: string): Run {
    var s := GitFlow(ParseArguments(raw), env, r.(entries := []), time);
    if s.thrown.None? then s.run
    else Added(s.run.(entries := []), Failed, s.thrown.value, time)
  }

  /** deployFromGit. */
  method DeployFromGit(pod: Pod, p: InputParams, env: GitEnv, statusArray: StatusArray, time: string)
    returns (thrown: Option<string>)
    modifies pod, statusArray
    ensures var s := GitFlow(p, env, old(pod.Current(statusArray)), time);
      pod.Current(statusArray) == s.run && thrown == s.thrown
  {
    pod.AddStatus(StatusFor("SCHEDULED"), "Starting build from git flow", time, statusArray);
    if p.token.None? || p.token.value == "" || p.githubRepository.None? || p.githubRepository.value == "" {
      return Some(Thrown("Invalid request"));
    }
    var token, githubRepository := p.token.value, p.githubRepository.value;
    pod.AddStatus(StatusFor("AUTHENTICATING"), "Authenticating with genezio", time, statusArray);
    var loginResult := pod.Spawn(Command("genezio", ["login", token], "."), env.run);
    if loginResult.code != Some(0) {
      return Some(Thrown("Authenticating failed: " + loginResult.stderr));
    }
    pod.AddStatus(StatusFor("PULLING_CODE"), "Pulling code from github", time, statusArray);
    assert GitFront(p, env, old(pod.Current(statusArray)), time) == Step(pod.Current(statusArray), None);
    var cloned := pod.CloneRepository(githubRepository, p.basePath, p.stage, env.tmpDir, env.fetch, env.run);
    if cloned.Err? {
      return Some(cloned.error);
    }
    var folder := cloned.value;
    thrown := BuildAndDeploy(pod, p, env, folder, statusArray, time);
  }

  /** The part of deployFromGit after the clone. */
  method BuildAndDeploy(pod: Pod, p: InputParams, env: GitEnv, folder: string, statusArray: StatusArray, time: string)
    returns (thrown: Option<string>)
    modifies pod, statusArray
    ensures var s := GitBuild(p, env, folder, old(pod.Current(statusArray)), time);
      pod.Current(statusArray) == s.run && thrown == s.thrown
  {
    var stage := p.stage;
    var err := pod.WriteConfigurationFileIfNeeded(folder, p.projectName, p.region, env.configWriteSucceeds);
    if err.Some? {
      return err;
    }
    if stage == Some("main") || stage == Some("master") || stage == Some("") {
      stage := Some("prod");
    }
    pod.AddStatus(StatusFor("CREATING_PROJECT"), "Creating project", time, statusArray);
    err := pod.ReplaceGenezioImports(p.projectName, p.region, folder, env.yaml);
    if err.Some? {
      return err;
    }
    thrown := CreateAndDeploy(pod, p, env, folder, stage, statusArray, time);
  }

  /** deployFromGit from the optional project creation on. */
  method CreateAndDeploy(pod: Pod, p: InputParams, env: GitEnv, folder: string, stage: Option<string>,
                         statusArray: StatusArray, time: string) returns (thrown: Option<string>)
    modifies pod, statusArray
    ensures var s := GitCreate(p, env, folder, stage, old(pod.Current(statusArray)), time);
      pod.Current(statusArray) == s.run && thrown == s.thrown
  {
    if p.isNewProject {
      pod.AddStatus(StatusFor("CREATING_EMPTY_PROJECT"), "Creating new project", time, statusArray);
      var created := env.createProject(CreateRequest(Text(p.token), p.projectName, p.region, p.stack, folder, stage));
      if created.Some? {
        return Some(Thrown("Failed to create new project " + Thrown(created.value)));
      }
    }
    var installed := pod.CheckAndInstallDeps(folder, statusArray, env.dependsOnNext, env.run, time);
    if installed.Err? {
      return Some(installed.error);
    }
    thrown := Deploy(pod, p, env, folder, stage, statusArray, time);
  }

  /** The deploy step of deployFromGit. */
  method Deploy(pod: Pod, p: InputParams, env: GitEnv, folder: string, stage: Option<string>,
                statusArray: StatusArray, time: string) returns (thrown: Option<string>)
    modifies pod, statusArray
    ensures var s := GitDeploy(p, env, folder, stage, old(pod.Current(statusArray)), time);
      pod.Current(statusArray) == s.run && thrown == s.thrown
  {
    pod.AddStatus(StatusFor("DEPLOYING"), "Deploying project", time, statusArray);
    if p.envVars.None? {
      return Some("TypeError: Cannot convert undefined or null to object");
    }
    var deployArgs := ["deploy", "--stage", Text(stage)];
    if |p.envVars.value| > 0 {
      deployArgs := deployArgs + ["--env"];
      deployArgs := deployArgs + [env.envFileName];
    }
    assert deployArgs == DeployArgs(stage, p.envVars.value, env.envFileName);
    var deployResult := pod.Spawn(Command("genezio", deployArgs, folder), env.run);
    if deployResult.code != Some(0) {
      return Some(Thrown("Failed to deploy: " + deployResult.stderr));
    }
    pod.AddStatus(Succeeded, "Workflow completed successfully", time, statusArray);
    return None;
  }

  /** runGitFlow. */
  method RunGitFlow(pod: Pod, raw: RawParams, env: GitEnv, time: string)
    modifies pod
    ensures var f := GitRun(raw, env, old(pod.State([])), time);
      pod.State(f.entries) == f
  {
    var input := ParseArguments(raw);
    var statusArray := new StatusArray();
    var defaultArray := new StatusArray();
    var thrown := DeployFromGit(pod, input, env, defaultArray, time);
    if thrown.Some? {
      pod.AddStatus(Failed, thrown.value, time, statusArray);
    }
  }
}

module PodGitProperties {
  import opened Wrappers
  import opened PodUtils
  import opened PodGit

  /** The statuses deployFromGit reports up to the clone. */
  function FrontEntries(time: string): seq<StatusEntry> {
    [StatusEntry(StatusFor("SCHEDULED"), "Starting build from git flow", time),
     StatusEntry(StatusFor("AUTHENTICATING"), "Authenticating with genezio", time),
     StatusEntry(StatusFor("PULLING_CODE"), "Pulling code from github", time)]
  }

  /** The statuses a successful run reports from DEPLOYING on. */
  function DeployEntries(time: string): seq<StatusEntry> {
    [StatusEntry(StatusFor("DEPLOYING"), "Deploying project", time),
     StatusEntry(Succeeded, "Workflow completed successfully", time)]
  }

  /** ... from the dependency check on, `install` telling whether it installs. */
  function InstallEntries(install: bool, time: string): seq<StatusEntry> {
    (if install then [StatusEntry(StatusFor("INSTALLING_DEPS"), "Installing dependencies for next", time)] else [])
    + DeployEntries(time)
  }

  /** ... from the optional project creation on. */
  function CreateEntries(isNewProject: bool, install: bool, time: string): seq<StatusEntry> {
    (if isNewProject then [StatusEntry(StatusFor("CREATING_EMPTY_PROJECT"), "Creating new project", time)] else [])
    + InstallEntries(install, time)
  }

  /** ... from the clone on. */
  function BuildEntries(isNewProject: bool, install: bool, time: string): seq<StatusEntry> {
    [StatusEntry(StatusFor("CREATING_PROJECT"), "Creating project", time)] + CreateEntries(isNewProject, install, time)
  }

  lemma FixedEntryCounts(time: string)
    ensures |FrontEntries(time)| == 3 && |DeployEntries(time)| == 2
  {
  }

  /** The statuses a successful git run reports, in order. */
  function GitSuccessEntries(isNewProject: bool, install: bool, time: string): seq<StatusEntry> {
    FrontEntries(time) + BuildEntries(isNewProject, install, time)
  }

  /** The step `s`, run from `r`, appended the first `k` entries of `E` and nothing else,
      completed `E` exactly when it threw nothing, and left the status file equal to the array. */
  ghost predicate StepsOf(s: Step, r: Run, E: seq<StatusEntry>, k: nat) {
    && k <= |E|
    && s.run.entries == r.entries + E[..k]
    && s.run.statusFile == s.run.entries
    && (s.thrown.None? <==> k == |E|)
  }

  /** Only the last status of a successful run is terminal, and it is SUCCEEDED; the
      list has one entry for each optional step taken. */
  lemma GitSuccessEntriesShape(isNewProject: bool, install: bool, time: string)
    ensures var r := GitSuccessEntries(isNewProject, install, time);
      && |r| == 6 + (if isNewProject then 1 else 0) + (if install then 1 else 0)
      && r[|r| - 1].status == Some("SUCCEEDED")
      && forall i | 0 <= i < |r| - 1 :: r[i].status != Succeeded && r[i].status != Failed
  {
    var r := GitSuccessEntries(isNewProject, install, time);
    var c := CreateEntries(isNewProject, install, time);
    var n := if isNewProject then 1 else 0;
    var m := if install then 1 else 0;
    assert |c| == n + m + 2;
    forall i | 0 <= i < |r| - 1 ensures r[i].status != Succeeded && r[i].status != Failed {
      if i < 3 {
        assert r[i] == FrontEntries(time)[i];
      } else if i == 3 {
        assert r[i].status == StatusFor("CREATING_PROJECT");
      } else if i < 4 + n {
        assert r[i] == c[0];
      } else if i < 4 + n + m {
        assert r[i] == InstallEntries(install, time)[0];
      } else {
        assert r[i] == DeployEntries(time)[0];
      }
    }
    assert r[|r| - 1] == DeployEntries(time)[1];
  }

  /** A step run from `mid`, which extends `r` by `h`, extends `r` by a prefix of `h + rest`. */
  lemma ComposeSteps(s: Step, r: Run, mid: Run, h: seq<StatusEntry>, rest: seq<StatusEntry>, e: seq<StatusEntry>, j: nat)
    requires e == h + rest && mid.entries == r.entries + h
    requires StepsOf(s, mid, rest, j)
    ensures StepsOf(s, r, e, |h| + j)
  {
    assert e[..|h| + j] == h + rest[..j];
  }


  lemma GitFrontSteps(p: InputParams, env: GitEnv, r: Run, time: string) returns (k: nat)
    ensures 1 <= k && StepsOf(GitFront(p, env, r, time), r, FrontEntries(time), k)
  {
    if !Truthy(p.token) || !Truthy(p.githubRepository) {
      k := 1;
    } else if !ExitedCleanly(env.run(LoginCommand(p.token.value))) {
      k := 2;
    } else {
      k := 3;
    }
  }

  lemma GitDeploySteps(p: InputParams, env: GitEnv, folder: string, stage: Option<string>, r: Run, time: string)
    returns (k: nat)
    ensures 1 <= k && StepsOf(GitDeploy(p, env, folder, stage, r, time), r, DeployEntries(time), k)
  {
    var d := GitDeploy(p, env, folder, stage, r, time);
    k := if d.thrown.None? then 2 else 1;
    assert DeployEntries(time)[..2] == DeployEntries(time);
  }

  /** The dependency step adds the INSTALLING_DEPS entry exactly when it installs. */
  lemma InstallStepEntries(r: Run, dir: string, dependsOnNext: string -> Result<bool>, time: string) returns (install: bool)
    requires r.statusFile == r.entries
    ensures install <==> NeedsInstall(r.files, dir, dependsOnNext) == Ok(true)
    ensures var s := InstallStep(r, dir, dependsOnNext, time);
      && s.run.statusFile == s.run.entries
      && s.run.entries == r.entries + (if install then [StatusEntry(StatusFor("INSTALLING_DEPS"), "Installing dependencies for next", time)] else [])
      && (s.thrown.Some? ==> s.run == r)
  {
    install := NeedsInstall(r.files, dir, dependsOnNext) == Ok(true);
  }

  lemma GitInstallSteps(p: InputParams, env: GitEnv, folder: string, stage: Option<string>, r: Run, time: string)
    returns (install: bool, k: nat)
    requires r.statusFile == r.entries
    ensures StepsOf(GitInstall(p, env, folder, stage, r, time), r, InstallEntries(install, time), k)
  {
    var installed := InstallStep(r, folder, env.dependsOnNext, time);
    var ran := InstallStepEntries(r, folder, env.dependsOnNext, time);
    if installed.thrown.Some? {
      install, k := false, 0;
      return;
    }
    install := ran;
    var h := if install then [StatusEntry(StatusFor("INSTALLING_DEPS"), "Installing dependencies for next", time)] else [];
    var j := GitDeploySteps(p, env, folder, stage, installed.run, time);
    assert GitInstall(p, env, folder, stage, r, time) == GitDeploy(p, env, folder, stage, installed.run, time);
    ComposeSteps(GitDeploy(p, env, folder, stage, installed.run, time), r, installed.run, h, DeployEntries(time),
                 InstallEntries(install, time), j);
    k := |h| + j;
  }

  lemma GitCreateSteps(p: InputParams, env: GitEnv, folder: string, stage: Option<string>, r: Run, time: string)
    returns (install: bool, k: nat)
    requires r.statusFile == r.entries
    ensures StepsOf(GitCreate(p, env, folder, stage, r, time), r, CreateEntries(p.isNewProject, install, time), k)
  {
    var n := p.isNewProject;
    var h := if n then [StatusEntry(StatusFor("CREATING_EMPTY_PROJECT"), "Creating new project", time)] else [];
    var r1 := if n then Added(r, StatusFor("CREATING_EMPTY_PROJECT"), "Creating new project", time) else r;
    assert r1.entries == r.entries + h && r1.statusFile == r1.entries;
    var created := if n then env.createProject(CreateRequest(Text(p.token), p.projectName, p.region, p.stack, folder, stage))
                   else None;
    if created.Some? {
      install, k := false, 1;
      assert CreateEntries(n, install, time)[..k] == h;
      return;
    }
    var j;
    install, j := GitInstallSteps(p, env, folder, stage, r1, time);
    assert GitCreate(p, env, folder, stage, r, time) == GitInstall(p, env, folder, stage, r1, time);
    ComposeSteps(GitInstall(p, env, folder, stage, r1, time), r, r1, h, InstallEntries(install, time),
                 CreateEntries(n, install, time), j);
    k := |h| + j;
  }

  lemma GitBuildSteps(p: InputParams, env: GitEnv, folder: string, r: Run, time: string) returns (install: bool, k: nat)
    requires r.statusFile == r.entries
    ensures StepsOf(GitBuild(p, env, folder, r, time), r, BuildEntries(p.isNewProject, install, time), k)
  {
    install := false;
    var configured := ConfigWritten(r.files, folder, p.projectName, p.region, env.configWriteSucceeds);
    if configured.Err? {
      k := 0;
      return;
    }
    var h := [StatusEntry(StatusFor("CREATING_PROJECT"), "Creating project", time)];
    var r1 := Added(r.(files := configured.value), StatusFor("CREATING_PROJECT"), "Creating project", time);
    var rewrite := ImportsRewritten(r1.files, p.projectName, p.region, folder, env.yaml);
    if rewrite.Err? {
      k := 1;
      assert BuildEntries(p.isNewProject, install, time)[..k] == h;
      return;
    }
    var r2 := r1.(files := rewrite.value.0, rewritten := r1.rewritten + rewrite.value.1);
    var j;
    install, j := GitCreateSteps(p, env, folder, NormalizeStage(p.stage), r2, time);
    assert GitBuild(p, env, folder, r, time) == GitCreate(p, env, folder, NormalizeStage(p.stage), r2, time);
    ComposeSteps(GitCreate(p, env, folder, NormalizeStage(p.stage), r2, time), r, r2, h,
                 CreateEntries(p.isNewProject, install, time), BuildEntries(p.isNewProject, install, time), j);
    k := |h| + j;
  }

  lemma GitCloneSteps(p: InputParams, env: GitEnv, repository: string, r: Run, time: string) returns (install: bool, k: nat)
    requires r.statusFile == r.entries
    ensures StepsOf(GitClone(p, env, repository, r, time), r, BuildEntries(p.isNewProject, install, time), k)
  {
    var r1 := r.(spawned := r.spawned + CloneSpawns(repository, p.stage, env.tmpDir, env.fetch));
    var cloned := CloneOutcome(repository, p.basePath, p.stage, env.tmpDir, env.fetch, env.run);
    if cloned.Err? {
      install, k := false, 0;
      return;
    }
    install, k := GitBuildSteps(p, env, cloned.value, r1, time);
  }

  /** A git run reports the steps of a successful run in order, up to the step that
      failed: the new entries are a prefix of the success list, the whole list exactly
      when nothing was thrown; the status file always holds the array. */
  lemma GitReportsStepsInOrder(p: InputParams, env: GitEnv, r: Run, time: string) returns (install: bool, k: nat)
    ensures 1 <= k && StepsOf(GitFlow(p, env, r, time), r, GitSuccessEntries(p.isNewProject, install, time), k)
  {
    var front := GitFront(p, env, r, time);
    if front.thrown.Some? {
      install := false;
      k := GitFrontSteps(p, env, r, time);
      assert GitSuccessEntries(p.isNewProject, install, time)[..k] == FrontEntries(time)[..k];
    } else {
      var k1 := GitFrontSteps(p, env, r, time);
      assert front.run.entries == r.entries + FrontEntries(time);
      var j;
      install, j := GitPastFrontSteps(p, env, p.githubRepository.value, r, front.run, time);
      k := |FrontEntries(time)| + j;
      FixedEntryCounts(time);
      assert GitFlow(p, env, r, time) == GitClone(p, env, p.githubRepository.value, front.run, time);
    }
  }

  /** From the clone on, a run whose array already holds the front statuses. */
  lemma GitPastFrontSteps(p: InputParams, env: GitEnv, repository: string, r: Run, mid: Run, time: string)
    returns (install: bool, j: nat)
    requires mid.entries == r.entries + FrontEntries(time) && mid.statusFile == mid.entries
    ensures StepsOf(GitClone(p, env, repository, mid, time), r, GitSuccessEntries(p.isNewProject, install, time),
                    |FrontEntries(time)| + j)
  {
    install, j := GitCloneSteps(p, env, repository, mid, time);
    ComposeSteps(GitClone(p, env, repository, mid, time), r, mid, FrontEntries(time),
                 BuildEntries(p.isNewProject, install, time), GitSuccessEntries(p.isNewProject, install, time), j);
  }

  /** runGitFlow: after a successful flow the status file holds the success list, ending in
      SUCCEEDED; after a thrown error it holds the single FAILED entry carrying the error,
      the flow's own statuses having been overwritten. */
  lemma GitRunStatusFile(raw: RawParams, env: GitEnv, r: Run, time: string)
    ensures var s := GitFlow(ParseArguments(raw), env, r.(entries := []), time);
      var f := GitRun(raw, env, r, time);
      && (s.thrown.None? ==> f.statusFile == f.entries && |f.entries| >= 6
                             && f.entries[|f.entries| - 1].status == Some("SUCCEEDED"))
      && (s.thrown.Some? ==> f.statusFile == [StatusEntry(Failed, s.thrown.value, time)])
  {
    var p := ParseArguments(raw);
    var s := GitFlow(p, env, r.(entries := []), time);
    var install, k := GitReportsStepsInOrder(p, env, r.(entries := []), time);
    FlowEndsSucceeded(s, r.(entries := []), p.isNewProject, install, k, time);
  }

  /** A step that completed the success list from an empty array ends in SUCCEEDED. */
  lemma FlowEndsSucceeded(s: Step, r: Run, isNewProject: bool, install: bool, k: nat, time: string)
    requires r.entries == [] && StepsOf(s, r, GitSuccessEntries(isNewProject, install, time), k)
    ensures s.thrown.None? ==> s.run.statusFile == s.run.entries && |s.run.entries| >= 6
                               && s.run.entries[|s.run.entries| - 1].status == Some("SUCCEEDED")
  {
    if s.thrown.None? {
      GitSuccessEntriesShape(isNewProject, install, time);
      assert s.run.entries == GitSuccessEntries(isNewProject, install, time);
    }
  }

  /** The processes a successful git run spawns, in order: the login, the clone of the
      branch named by the stage as given, `npm i` when the dependencies need installing,
      and the deploy with the normalised stage, both in the cloned project's folder. */
  function GitCommands(p: InputParams, env: GitEnv, install: bool): seq<Command> {
    [LoginCommand(Text(p.token)), CloneCommand(p, env)]
    + InstallCommands(install, CloneFolder(env.tmpDir, p.basePath))
    + [FinalDeploy(p, env)]
  }

  function InstallCommands(install: bool, folder: string): seq<Command> {
    if install then [Command("npm", ["i"], folder)] else []
  }

  /** The step `s`, run from `r`, spawned the first `j` commands of `C` and nothing else,
      and all of them exactly when it threw nothing. */
  ghost predicate SpawnsOf(s: Step, r: Run, C: seq<Command>, j: nat) {
    && j <= |C|
    && s.run.spawned == r.spawned + C[..j]
    && (s.thrown.None? ==> j == |C|)
  }

  /** A step run from `mid`, which spawned `h` after `r`, spawned a prefix of `h + rest`. */
  lemma ComposeSpawns(s: Step, r: Run, mid: Run, h: seq<Command>, rest: seq<Command>, C: seq<Command>, j: nat)
    requires C == h + rest && mid.spawned == r.spawned + h
    requires SpawnsOf(s, mid, rest, j)
    ensures SpawnsOf(s, r, C, |h| + j)
  {
    assert C[..|h| + j] == h + rest[..j];
  }

  lemma GitDeploySpawns(p: InputParams, env: GitEnv, folder: string, stage: Option<string>, r: Run, time: string)
    returns (j: nat)
    ensures var deploy := DeployCommand(stage, p.envVars.GetOr(map[]), env.envFileName, folder);
      var s := GitDeploy(p, env, folder, stage, r, time);
      && SpawnsOf(s, r, [deploy], j)
      && (s.thrown.None? ==> p.envVars.Some? && ExitedCleanly(env.run(deploy)))
  {
    j := if p.envVars.Some? then 1 else 0;
  }

  lemma GitInstallSpawns(p: InputParams, env: GitEnv, folder: string, stage: Option<string>, r: Run, time: string)
    returns (install: bool, j: nat)
    ensures var deploy := DeployCommand(stage, p.envVars.GetOr(map[]), env.envFileName, folder);
      var s := GitInstall(p, env, folder, stage, r, time);
      && SpawnsOf(s, r, InstallCommands(install, folder) + [deploy], j)
      && (s.thrown.None? ==> p.envVars.Some? && ExitedCleanly(env.run(deploy)))
  {
    var deploy := DeployCommand(stage, p.envVars.GetOr(map[]), env.envFileName, folder);
    var installed := InstallStep(r, folder, env.dependsOnNext, time);
    if installed.thrown.Some? {
      install, j := false, 0;
      return;
    }
    install := NeedsInstall(r.files, folder, env.dependsOnNext) == Ok(true);
    var h := InstallCommands(install, folder);
    assert installed.run.spawned == r.spawned + h;
    var k := GitDeploySpawns(p, env, folder, stage, installed.run, time);
    ComposeSpawns(GitDeploy(p, env, folder, stage, installed.run, time), r, installed.run, h, [deploy], h + [deploy], k);
    j := |h| + k;
  }

  lemma GitCreateSpawns(p: InputParams, env: GitEnv, folder: string, stage: Option<string>, r: Run, time: string)
    returns (install: bool, j: nat)
    ensures var deploy := DeployCommand(stage, p.envVars.GetOr(map[]), env.envFileName, folder);
      var s := GitCreate(p, env, folder, stage, r, time);
      && SpawnsOf(s, r, InstallCommands(install, folder) + [deploy], j)
      && (s.thrown.None? ==> p.envVars.Some? && ExitedCleanly(env.run(deploy)))
  {
    var r1 := if p.isNewProject then Added(r, StatusFor("CREATING_EMPTY_PROJECT"), "Creating new project", time) else r;
    var created := if p.isNewProject
                   then env.createProject(CreateRequest(Text(p.token), p.projectName, p.region, p.stack, folder, stage))
                   else None;
    if created.Some? {
      install, j := false, 0;
      return;
    }
    install, j := GitInstallSpawns(p, env, folder, stage, r1, time);
  }

  lemma GitBuildSpawns(p: InputParams, env: GitEnv, folder: string, r: Run, time: string)
    returns (install: bool, j: nat)
    ensures var deploy := DeployCommand(NormalizeStage(p.stage), p.envVars.GetOr(map[]), env.envFileName, folder);
      var s := GitBuild(p, env, folder, r, time);
      && SpawnsOf(s, r, InstallCommands(install, folder) + [deploy], j)
      && (s.thrown.None? ==> p.envVars.Some? && ExitedCleanly(env.run(deploy)))
  {
    install, j := false, 0;
    var configured := ConfigWritten(r.files, folder, p.projectName, p.region, env.configWriteSucceeds);
    if configured.Err? {
      return;
    }
    var r1 := Added(r.(files := configured.value), StatusFor("CREATING_PROJECT"), "Creating project", time);
    var rewrite := ImportsRewritten(r1.files, p.projectName, p.region, folder, env.yaml);
    if rewrite.Err? {
      return;
    }
    var r2 := r1.(files := rewrite.value.0, rewritten := r1.rewritten + rewrite.value.1);
    install, j := GitCreateSpawns(p, env, folder, NormalizeStage(p.stage), r2, time);
    assert GitBuild(p, env, folder, r, time) == GitCreate(p, env, folder, NormalizeStage(p.stage), r2, time);
  }

  /** The clone and the deploy of a git run, and the commands around them. */
  function CloneCommand(p: InputParams, env: GitEnv): Command {
    Command("git", CloneArgs(p.githubRepository.GetOr(""), p.stage), env.tmpDir)
  }

  function FinalDeploy(p: InputParams, env: GitEnv): Command {
    DeployCommand(NormalizeStage(p.stage), p.envVars.GetOr(map[]), env.envFileName, CloneFolder(env.tmpDir, p.basePath))
  }

  lemma GitCommandsShape(p: InputParams, env: GitEnv, install: bool)
    ensures var C := GitCommands(p, env, install);
      && C == [LoginCommand(Text(p.token))] + ([CloneCommand(p, env)]
                + (InstallCommands(install, CloneFolder(env.tmpDir, p.basePath)) + [FinalDeploy(p, env)]))
      && C[0] == LoginCommand(Text(p.token)) && C[1] == CloneCommand(p, env) && C[|C| - 1] == FinalDeploy(p, env)
  {
  }

  lemma GitCloneSpawns(p: InputParams, env: GitEnv, r: Run, time: string)
    returns (install: bool, j: nat)
    requires p.githubRepository.Some?
    ensures var rest := [CloneCommand(p, env)] + (InstallCommands(install, CloneFolder(env.tmpDir, p.basePath)) + [FinalDeploy(p, env)]);
      var s := GitClone(p, env, p.githubRepository.value, r, time);
      && SpawnsOf(s, r, rest, j)
      && (s.thrown.None? ==> ExitedCleanly(env.run(CloneCommand(p, env))) && p.envVars.Some? && ExitedCleanly(env.run(FinalDeploy(p, env))))
  {
    var repository := p.githubRepository.value;
    var clone := CloneCommand(p, env);
    var spawns := CloneSpawns(repository, p.stage, env.tmpDir, env.fetch);
    var r1 := r.(spawned := r.spawned + spawns);
    var cloned := CloneOutcome(repository, p.basePath, p.stage, env.tmpDir, env.fetch, env.run);
    if cloned.Err? {
      install := false;
      j := CloneFailureSpawns(p, env, r, time);
      return;
    }
    var folder := CloneFolder(env.tmpDir, p.basePath);
    assert cloned.value == folder && spawns == [clone];
    assert GitClone(p, env, repository, r, time) == GitBuild(p, env, folder, r1, time);
    var k;
    install, k := GitBuildSpawns(p, env, folder, r1, time);
    var tail := InstallCommands(install, folder) + [FinalDeploy(p, env)];
    ComposeSpawns(GitBuild(p, env, folder, r1, time), r, r1, [clone], tail, [clone] + tail, k);
    j := 1 + k;
  }

  /** A failed clone spawned the clone at most and threw. */
  lemma CloneFailureSpawns(p: InputParams, env: GitEnv, r: Run, time: string) returns (j: nat)
    requires p.githubRepository.Some?
    requires CloneOutcome(p.githubRepository.value, p.basePath, p.stage, env.tmpDir, env.fetch, env.run).Err?
    ensures var rest := [CloneCommand(p, env)] + (InstallCommands(false, CloneFolder(env.tmpDir, p.basePath)) + [FinalDeploy(p, env)]);
      SpawnsOf(GitClone(p, env, p.githubRepository.value, r, time), r, rest, j)
  {
    var spawns := CloneSpawns(p.githubRepository.value, p.stage, env.tmpDir, env.fetch);
    j := |spawns|;
    var rest := [CloneCommand(p, env)] + (InstallCommands(false, CloneFolder(env.tmpDir, p.basePath)) + [FinalDeploy(p, env)]);
    assert rest[..j] == spawns;
  }

  /** A git run spawns the processes of a successful run in order, up to the one that
      failed, and all of them exactly when nothing was thrown; it succeeds only when the
      login, the clone and the deploy exited cleanly and the variables were given. */
  lemma GitSpawnsInOrder(p: InputParams, env: GitEnv, r: Run, time: string) returns (install: bool, j: nat)
    ensures var C := GitCommands(p, env, install);
      var s := GitFlow(p, env, r, time);
      && SpawnsOf(s, r, C, j)
      && (s.thrown.None? ==>
            && Truthy(p.token) && Truthy(p.githubRepository) && p.envVars.Some?
            && ExitedCleanly(env.run(C[0])) && ExitedCleanly(env.run(C[1])) && ExitedCleanly(env.run(C[|C| - 1])))
  {
    var front := GitFront(p, env, r, time);
    if front.thrown.Some? {
      install := false;
      j := if Truthy(p.token) && Truthy(p.githubRepository) then 1 else 0;
      GitCommandsShape(p, env, install);
      return;
    }
    var k;
    install, k := GitCloneSpawns(p, env, front.run, time);
    GitCommandsShape(p, env, install);
    var login := LoginCommand(Text(p.token));
    var rest := [CloneCommand(p, env)] + (InstallCommands(install, CloneFolder(env.tmpDir, p.basePath)) + [FinalDeploy(p, env)]);
    assert front.run.spawned == r.spawned + [login];
    ComposeSpawns(GitClone(p, env, p.githubRepository.value, front.run, time), r, front.run, [login], rest, [login] + rest, k);
    assert GitFlow(p, env, r, time) == GitClone(p, env, p.githubRepository.value, front.run, time);
    j := 1 + k;
  }

  /** A missing token or repository ends the run right after SCHEDULED with
      "Error: Invalid request" and nothing spawned; a failed login ends it with the login's
      error output after the login alone. */
  lemma GitFailsEarly(p: InputParams, env: GitEnv, r: Run, time: string)
    ensures var s := GitFlow(p, env, r, time);
      && (!Truthy(p.token) || !Truthy(p.githubRepository) ==>
            && s.thrown == Some(Thrown("Invalid request"))
            && StatusesOf(s.run.entries) == StatusesOf(r.entries) + [Some("SCHEDULED")]
            && s.run.spawned == r.spawned && s.run.files == r.files)
      && (Truthy(p.token) && Truthy(p.githubRepository) && !ExitedCleanly(env.run(LoginCommand(p.token.value))) ==>
            && s.thrown == Some(Thrown("Authenticating failed: " + env.run(LoginCommand(p.token.value)).stderr))
            && s.run.spawned == r.spawned + [LoginCommand(p.token.value)] && s.run.files == r.files)
  {
    var e := StatusEntry(StatusFor("SCHEDULED"), "Starting build from git flow", time);
    assert StatusesOf(r.entries + [e]) == StatusesOf(r.entries) + [e.status];
  }
}
