/** The workflow inputs and the variant dispatch (workflows/workflow.go). Every variant
    offers Submit, GetState, Validate and AssignStateManager; the three classes modelling
    them are in their own modules. */
module Workflows {
  import opened Wrappers
  import opened Checks

  /** Input of the Git/Argo variant. A nil stack and a nil base path are None. */
  datatype GitDeployment = GitDeployment(
    repository: string,
    projectName: string,
    region: string,
    basePath: Option<string>,
    stack: Option<seq<string>>,
    isNewProject: bool)

  /** Input of the S3/Argo variant; a nil code map is None, which differs from an empty map. */
  datatype S3Deployment = S3Deployment(
    s3DownloadUrl: string,
    projectName: string,
    region: string,
    stage: Option<string>,
    basePath: Option<string>,
    code: Option<map<string, string>>)

  /** Input of the Empty/API variant; a nil stack is None, which is sent on as JSON null
      while an empty one is sent as []. */
  datatype EmptyDeployment = EmptyDeployment(
    repository: string,
    stack: Option<seq<string>>,
    projectName: string,
    region: string,
    basePath: Option<string>)

  const EmptyGitDeployment := GitDeployment("", "", "", None, None, false)
  const EmptyS3Deployment := S3Deployment("", "", "", None, None, None)
  const EmptyEmptyDeployment := EmptyDeployment("", None, "", "", None)

  /** The deployment tags the API accepts, in order. */
  const AvailableDeployments: seq<string> := ["git", "empty", "s3"]

  /** The variant a tag selects, constructed with the caller's token. */
  datatype Executor = GitArgo(token: string) | EmptyApi(token: string) | S3Argo(token: string)

  /** GetWorkflowExecutor: a switch on the tag; an unknown tag gives nil. */
  function GetWorkflowExecutor(workflow: string, token: string): (r: Option<Executor>)
    ensures r.Some? <==> workflow in AvailableDeployments
    ensures r.Some? ==> r.value.token == token
    ensures workflow == "git" <==> r == Some(GitArgo(token))
    ensures workflow == "empty" <==> r == Some(EmptyApi(token))
    ensures workflow == "s3" <==> r == Some(S3Argo(token))
  {
    match workflow
    case "git" => Some(GitArgo(token))
    case "empty" => Some(EmptyApi(token))
    case "s3" => Some(S3Argo(token))
    case _ => None
  }

  /** Each available tag selects a different variant. */
  lemma DispatchIsInjective(w1: string, w2: string, token: string)
    requires w1 in AvailableDeployments && w2 in AvailableDeployments && w1 != w2
    ensures GetWorkflowExecutor(w1, token) != GetWorkflowExecutor(w2, token)
  {
  }

  /** The checks GitDeploymentArgo.Validate and EmptyDeploymentAPI.Validate run after decoding. */
  function RepositoryChecks(repository: string, projectName: string, region: string): seq<Check> {
    [Check(repository != "", "repository is required"),
     Check(projectName != "", "projectName is required"),
     Check(region != "", "region is required")]
  }

  /** The checks S3DeploymentArgo.Validate runs; the code map is required only when no
      download URL was given. */
  function S3Checks(d: S3Deployment, token: string): seq<Check> {
    [Check(d.projectName != "", "projectName is required"),
     Check(d.region != "", "region is required"),
     Check(token != "", "token is required"),
     Check(d.s3DownloadUrl != "" || d.code.Some?,
           "if code has not been uploaded to s3 previously, codemap is required")]
  }

  /** The Git/Argo and Empty/API rules: repository, then projectName, then region; all
      three non-empty passes. */
  lemma RepositoryValidationOrder(repository: string, projectName: string, region: string)
    ensures FirstFailure(RepositoryChecks(repository, projectName, region)) == Pass
        <==> repository != "" && projectName != "" && region != ""
    ensures repository == "" ==> FirstFailure(RepositoryChecks(repository, projectName, region)) == Fail("repository is required")
    ensures repository != "" && projectName == "" ==>
              FirstFailure(RepositoryChecks(repository, projectName, region)) == Fail("projectName is required")
    ensures repository != "" && projectName != "" && region == "" ==>
              FirstFailure(RepositoryChecks(repository, projectName, region)) == Fail("region is required")
  {
    var c := RepositoryChecks(repository, projectName, region);
    if repository == "" {
      FirstFailureIgnoresLaterChecks([], c[0], c[1..]);
      assert [] + [c[0]] + c[1..] == c;
    } else if projectName == "" {
      FirstFailureIgnoresLaterChecks(c[..1], c[1], c[2..]);
      assert c[..1] + [c[1]] + c[2..] == c;
      assert !c[1].passes;
    } else {
      assert region == "" ==> !c[2].passes;
    }
  }

  /** The S3/Argo rules: projectName, region, token, then the code map when nothing was
      uploaded yet; an empty but present code map passes. */
  lemma S3ValidationOrder(d: S3Deployment, token: string)
    ensures FirstFailure(S3Checks(d, token)) == Pass
        <==> d.projectName != "" && d.region != "" && token != "" && (d.s3DownloadUrl == "" ==> d.code.Some?)
    ensures d.projectName == "" ==> FirstFailure(S3Checks(d, token)) == Fail("projectName is required")
    ensures d.projectName != "" && d.region == "" ==> FirstFailure(S3Checks(d, token)) == Fail("region is required")
    ensures d.projectName != "" && d.region != "" && token == "" ==> FirstFailure(S3Checks(d, token)) == Fail("token is required")
  {
    var c := S3Checks(d, token);
    if d.projectName == "" {
      FirstFailureIgnoresLaterChecks([], c[0], c[1..]);
      assert [] + [c[0]] + c[1..] == c;
    } else if d.region == "" {
      FirstFailureIgnoresLaterChecks(c[..1], c[1], c[2..]);
      assert c[..1] + [c[1]] + c[2..] == c;
    } else if token == "" {
      FirstFailureIgnoresLaterChecks(c[..2], c[2], c[3..]);
      assert c[..2] + [c[2]] + c[3..] == c;
      assert !c[2].passes;
    } else {
      assert d.s3DownloadUrl == "" && d.code.None? ==> !c[3].passes;
    }
  }
}
