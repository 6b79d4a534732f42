/** The stand-alone workflow renderers (workflows/git-workflow.go, workflows/empty-workflow.go,
    workflows/s3-workflow.go). The configured environment is a parameter. */
module Renderers {
  import opened Wrappers
  import opened ArgoSpec

  /** File mode 0755 of the downloaded code archive. */
  const ArchiveMode := 493
  const ArchivePath := "/tmp/projectCode.zip"
  const ArchiveName := "codeArchive"

  function GitNames(env: string): TemplateNames {
    if IsDevEnv(env) then TemplateNames("build-git-dev", "genezio-build-git-template-dev", "genezio-build-git-dev-")
    else TemplateNames("build-git", "genezio-build-git-template", "genezio-build-git-")
  }

  function EmptyNames(env: string): TemplateNames {
    if IsDevEnv(env) then TemplateNames("build-empty-dev", "genezio-build-empty-template-dev", "genezio-build-empty-dev-")
    else TemplateNames("build-empty", "genezio-build-empty-template", "genezio-build-empty-")
  }

  function S3Names(env: string): TemplateNames {
    if IsDevEnv(env) then TemplateNames("build-s3-dev", "genezio-build-s3-template-dev", "genezio-build-s3-dev-")
    else TemplateNames("build-s3", "genezio-build-s3-template", "genezio-build-s3-")
  }

  /** The five repository parameters shared by the Git and empty-project renderers. */
  function RepositoryParameters(token: string, repo: string, region: string, projectName: string, basePath: Option<string>): seq<Parameter> {
    [Parameter("token", token), Parameter("githubRepository", repo), Parameter("region", region),
     Parameter("projectName", projectName), Parameter("basePath", basePath.GetOr(""))]
  }

  lemma RepositoryParametersLookup(token: string, repo: string, region: string, projectName: string, basePath: Option<string>)
    ensures var ps := RepositoryParameters(token, repo, region, projectName, basePath);
      && Lookup(ps, "token") == Some(token) && Lookup(ps, "githubRepository") == Some(repo)
      && Lookup(ps, "region") == Some(region) && Lookup(ps, "projectName") == Some(projectName)
      && Lookup(ps, "basePath") == Some(basePath.GetOr(""))
  {
    var ps := RepositoryParameters(token, repo, region, projectName, basePath);
    LookupAt(ps, 0);
    LookupAt(ps, 1);
    LookupAt(ps, 2);
    LookupAt(ps, 3);
    LookupAt(ps, 4);
  }

  /** GitWorkflow: five parameters in a fixed order, a missing base path rendered as "",
      development names for "dev" and "local". */
  function GitWorkflow(token: string, repo: string, region: string, projectName: string, basePath: Option<string>, env: string): (w: ArgoWorkflow)
    ensures WellShaped(w) && w.artifacts == []
    ensures ParameterNames(w.parameters) == ["token", "githubRepository", "region", "projectName", "basePath"]
    ensures Lookup(w.parameters, "token") == Some(token)
    ensures Lookup(w.parameters, "githubRepository") == Some(repo)
    ensures Lookup(w.parameters, "region") == Some(region)
    ensures Lookup(w.parameters, "projectName") == Some(projectName)
    ensures basePath.None? ==> Lookup(w.parameters, "basePath") == Some("")
    ensures basePath.Some? ==> Lookup(w.parameters, "basePath") == Some(basePath.value)
    ensures IsDevEnv(env) ==> w.templateName == "build-git-dev" && w.templateRefName == "genezio-build-git-template-dev"
                              && w.generateName == "genezio-build-git-dev-"
    ensures !IsDevEnv(env) ==> w.templateName == "build-git" && w.templateRefName == "genezio-build-git-template"
                               && w.generateName == "genezio-build-git-"
  {
    RepositoryParametersLookup(token, repo, region, projectName, basePath);
    Assemble(GitNames(env), [], RepositoryParameters(token, repo, region, projectName, basePath))
  }

  /** EmptyWorkflow: the same five parameters under the build-empty names; the stack is
      accepted but not rendered. The base path is handed over as the pointer itself, not
      as the text it points to, so a present base path renders as that pointer's printed
      form, `pointerText`, and only a missing one as "". */
  function EmptyWorkflow(token: string, repo: string, region: string, projectName: string, basePath: Option<string>,
                         pointerText: string, stack: seq<string>, env: string): (w: ArgoWorkflow)
    ensures WellShaped(w) && w.artifacts == []
    ensures ParameterNames(w.parameters) == ["token", "githubRepository", "region", "projectName", "basePath"]
    ensures Lookup(w.parameters, "token") == Some(token)
    ensures Lookup(w.parameters, "githubRepository") == Some(repo)
    ensures Lookup(w.parameters, "region") == Some(region)
    ensures Lookup(w.parameters, "projectName") == Some(projectName)
    ensures basePath.None? ==> Lookup(w.parameters, "basePath") == Some("")
    ensures basePath.Some? ==> Lookup(w.parameters, "basePath") == Some(pointerText)
    ensures IsDevEnv(env) ==> w.templateName == "build-empty-dev" && w.templateRefName == "genezio-build-empty-template-dev"
                              && w.generateName == "genezio-build-empty-dev-"
    ensures !IsDevEnv(env) ==> w.templateName == "build-empty" && w.templateRefName == "genezio-build-empty-template"
                               && w.generateName == "genezio-build-empty-"
  {
    var rendered := if basePath.None? then None else Some(pointerText);
    RepositoryParametersLookup(token, repo, region, projectName, rendered);
    Assemble(EmptyNames(env), [], RepositoryParameters(token, repo, region, projectName, rendered))
  }

  /** The stack argument and the text a present base path points to have no influence on
      the rendered workflow. */
  lemma EmptyWorkflowIgnoresStack(token: string, repo: string, region: string, projectName: string,
                                  basePath1: Option<string>, basePath2: Option<string>, pointerText: string,
                                  stack1: seq<string>, stack2: seq<string>, env: string)
    requires basePath1.Some? <==> basePath2.Some?
    ensures EmptyWorkflow(token, repo, region, projectName, basePath1, pointerText, stack1, env)
         == EmptyWorkflow(token, repo, region, projectName, basePath2, pointerText, stack2, env)
  {
  }

  /** S3Workflow: the URL is both the archive's HTTP location and the codeURL parameter. */
  function S3Workflow(token: string, s3Url: string, env: string): (w: ArgoWorkflow)
    ensures WellShaped(w)
    ensures w.artifacts == [Artifact(ArchiveName, ArchivePath, ArchiveMode, s3Url)]
    ensures ParameterNames(w.parameters) == ["token", "codeURL"]
    ensures Lookup(w.parameters, "token") == Some(token)
    ensures Lookup(w.parameters, "codeURL") == Some(w.artifacts[0].url)
    ensures IsDevEnv(env) ==> w.templateName == "build-s3-dev" && w.templateRefName == "genezio-build-s3-template-dev"
                              && w.generateName == "genezio-build-s3-dev-"
    ensures !IsDevEnv(env) ==> w.templateName == "build-s3" && w.templateRefName == "genezio-build-s3-template"
                               && w.generateName == "genezio-build-s3-"
  {
    var ps := [Parameter("token", token), Parameter("codeURL", s3Url)];
    LookupAt(ps, 0);
    LookupAt(ps, 1);
    Assemble(S3Names(env), [Artifact(ArchiveName, ArchivePath, ArchiveMode, s3Url)], ps)
  }

  /** Two renderings of the Git workflow in the same environment are equal exactly when
      the inputs agree, a missing base path counting as "". */
  lemma GitWorkflowInjective(t1: string, r1: string, g1: string, p1: string, b1: Option<string>,
                             t2: string, r2: string, g2: string, p2: string, b2: Option<string>, env: string)
    ensures GitWorkflow(t1, r1, g1, p1, b1, env) == GitWorkflow(t2, r2, g2, p2, b2, env)
        <==> t1 == t2 && r1 == r2 && g1 == g2 && p1 == p2 && b1.GetOr("") == b2.GetOr("")
  {
    if GitWorkflow(t1, r1, g1, p1, b1, env) == GitWorkflow(t2, r2, g2, p2, b2, env) {
      assert RepositoryParameters(t1, r1, g1, p1, b1) == RepositoryParameters(t2, r2, g2, p2, b2);
      assert RepositoryParameters(t1, r1, g1, p1, b1)[4] == RepositoryParameters(t2, r2, g2, p2, b2)[4];
    }
  }
}
