# Genezio build machine: a Dafny model of its core

The build machine receives deployment requests over HTTP and turns each one into a build job. The controller validates the request body. A workflow variant is picked by its tag:

- **git**: an Argo workflow that clones a GitHub repository in a build pod.
- **s3**: an Argo workflow that unpacks an uploaded archive in a build pod.
- **empty**: a job that runs in the API process and creates an empty project.

Every job is registered in an in-memory job state store. The store keeps:

- the job's status and its append-only history of transitions;
- a watcher channel that receives every new state;
- a per-token counter of open builds;
- a map from webhook secrets to job ids.

For Git/Argo jobs, a background loop reads the status file the build pod writes and copies every status it has not seen into the store. The build pods run TypeScript scripts. Each step of a pod is reported as a status: it is pushed to an array, posted to a webhook and written to the status file.

The model follows the source file by file.

- **Values become datatypes and functions.** This covers:
  - the workflow inputs and the Argo workflows the renderers produce;
  - the controller's validation rules, its string rules and base64.
- **Objects that the source updates in place become classes.** These are:
  - the store (`StateManager.LocalStateManager`);
  - the three workflow variants (`ArgoGit.GitDeploymentArgo`, `ArgoS3.S3DeploymentArgo`, `ApiEmpty.EmptyDeploymentAPI`);
  - a build pod and its status array (`PodUtils.Pod`, `PodUtils.StatusArray`).
- **Methods are proved against specification functions.** Each method of these classes is proved equal to a pure function of the old state:
  - the store's methods against `Created` and `Updated`;
  - the polling goroutine against `Reconcile.Poll`;
  - the pod scripts against step functions over a `PodUtils.Run`.

  Properties of the source are then proved about those functions as lemmas.

The outside world becomes parameters: Argo, Kubernetes, S3, HTTP, git, child processes, the clock, the configured environment, JSON and YAML. Each is a value or a function-typed argument. A process is a function from the command to its result. A network check is a function from the URL to the status code.

Some behaviour of the code is reproduced as written:

- The store closes a job only on `SUCCESS` or `FAILED`. The build pods report success as `SUCCEEDED`. So a Git/Argo job that succeeds stays open and keeps its slot in the token's counter (`Reconcile.SucceededLeavesJobOpen`). The Empty/API variant reports `SUCCESS` and does close its job.
- `BuildStatus.PENDING` is not a key of the scripts' status table. The S3 pod's first status is therefore `undefined` (`PodUtils.StatusTable`).
- `runGitFlow` reports a thrown error on a new, empty array. Its status file then holds only the `FAILED` entry (`PodGitProperties.GitRunStatusFile`). `runS3Flow` reuses its array, so the earlier entries stay.
- The S3/Argo variant has a third set of template names for the `local` environment. The stand-alone renderers and the Git/Argo variant use the development names for both `dev` and `local`.
- The store's initial status, `PROCESSING`, is used by the store but is not among the statuses `state.go` declares.
- `empty-workflow.go` passes the base-path pointer itself, not the string it points to, to the parameter's string constructor. A present base path therefore renders as the pointer's printed form, a parameter of `Renderers.EmptyWorkflow`; an absent one renders as "".
- The request bodies of the Git/Argo and Empty/API variants are decoded into the whole variant. A body key `token` (or `stage`, for Git/Argo) matches the variant's untagged field of that name, ignoring case, and overwrites the token given at construction (`ArgoGit.GitDeploymentArgo.Validate`, `ApiEmpty.EmptyDeploymentAPI.Validate`).
- `argo_s3.go` (lines 33-40) reads and writes `d.EnvVars`, but neither `S3DeploymentArgo` (`argo_s3.go`:21-28) nor the `S3Deployment` it embeds (`workflow.go`:39-46) declares such a field. The model assumes it is a field of the variant, `ArgoS3.S3DeploymentArgo.envVars`, an optional map that `AssignEnvVarsFromStageID` sets or merges into, and that it is marshalled with the other fields into the `b64` payload (`ArgoS3.S3Payload.envVars`).
- `state.go` (lines 31-37) declares `State` without a `Watcher` field, yet `localStateManager.go` sets `Watcher` when it creates a job (line 57), sends on it (line 104) and closes it (line 108). The model takes that field as given: a job is `StateManager.Build(state, watcher)`, whose watcher is the sequence of delivered snapshots and a closed flag.
- The `StateManager` interface (`state.go`:39-44) has no `AttachJobIdToWebhookSecretRef` or `GetJobIdByWebhookSecretRef`, yet `argo_s3.go`:124 calls the first through the variant's interface-typed store field (`argo_s3.go`:27). The model types the store field of every variant as the concrete `StateManager.LocalStateManager`, which has both methods.
- `git.ts` imports and calls `writeEnvsToFile` (lines 11 and 152), but no file of the repository defines or exports it. Loaded as written, that import fails and neither pod flow starts. The model assumes a function that writes the variables into the folder and returns the file's name: the name is the parameter `PodGit.GitEnv.envFileName`, and the write itself has no effect on the pod's files.
- `workflow.go` calls `NewGitArgoWorkflow` with the token alone, while `argo_git.go` declares it with a token and a stage. The model follows `argo_git.go`: the constructor takes both, and the dispatch (`Workflows.GetWorkflowExecutor`) records only the token, as `workflow.go` does. The stage then comes from the constructor's argument or from the body's `stage` key.
- JavaScript's `replaceAll` expands `$$`, `$&`, `` $` `` and `$'` in the replacement text (section 22.1.3.19.1 of ECMA-262). `PodUtils.ReplaceAll` does so too, so a project name holding `$` is not written back as it is (`PodUtils.DollarNameIsRewritten`).
- The Empty/API variant sends a nil stack as JSON `null` and an empty one as `[]`; the model keeps the two apart (`ApiEmpty.CreateProjectRequest`).

## Model

| member | source | states |
|---|---|---|
| StateTypes.DeclaredStatusesAreDistinct | state_manager/state.go:7-17 | the nine declared statuses are pairwise distinct and PROCESSING is not one of them |
| StateTypes.TerminalStatuses | state_manager/localStateManager.go:106-109 | exactly SUCCESS and FAILED close a job; PROCESSING and the pods' SUCCEEDED do not |
| StateTypes.EngineTags | state_manager/state.go:19-22 | the two engine tags are "argo" and "api", and they differ |
| StateManager.Created | state_manager/localStateManager.go:51-66 | a new job is PENDING on the given engine and owned by the token; its history is the single PROCESSING -> PENDING transition with the fixed reason; its watcher is open and has received nothing |
| StateManager.Targets | state_manager/state.go:24-29 | the statuses a history moves to, in order |
| StateManager.Updated | state_manager/localStateManager.go:87-112 | (specification function) the job after UpdateState: one transition appended, the state broadcast, the watcher closed on a terminal status |
| StateManager.WellFormed | state_manager/localStateManager.go:45-112 | (invariant) the history starts PROCESSING to PENDING, is chained, ends at the current status, has a terminal status only last, and every update was broadcast in order |
| StateManager.CreatedIsWellFormed | state_manager/localStateManager.go:45-68 | a newly created job satisfies the store invariant |
| StateManager.UpdatedIsWellFormed | state_manager/localStateManager.go:87-112 | an update of an open job appends exactly one transition, from the old status to the new one; it sets the status and keeps the owner; the watcher closes iff the new status is terminal; the store invariant, which ties each delivered snapshot to the history, is kept |
| StateManager.ApplyUpdatesIsWellFormed | state_manager/localStateManager.go:87-112 | any run of updates in which only the last may be terminal keeps the invariant, the owner and the engine; the job closes iff the last update is terminal |
| StateManager.ApplyUpdatesTargets | state_manager/localStateManager.go:99-100 | after updates, the history's statuses are the old ones followed by the updates' statuses, in order |
| StateManager.ApplyUpdatesSnoc | state_manager/localStateManager.go:87-112 | one more update after a sequence is one more UpdateState call |
| StateManager.CreateKeepsAccounting | state_manager/localStateManager.go:45-49 | registering a fresh job id keeps each token's counter equal to that token's number of open jobs |
| StateManager.UpdateKeepsAccounting | state_manager/localStateManager.go:106-109 | updating an open job keeps the accounting; the owner's counter drops by one exactly when the job closes |
| StateManager.CountersNonNegative | state_manager/localStateManager.go:71-76 | under the accounting, no counter is negative, and a token with an open job has a positive counter |
| StateManager.LocalStateManager.constructor | state_manager/localStateManager.go:114-123 | the three maps start empty; the store invariant and the accounting hold |
| StateManager.LocalStateManager.GetJobIdByWebhookSecretRef | state_manager/localStateManager.go:20-26 | returns the attached job id, or the "job id not found" error for an unknown secret |
| StateManager.LocalStateManager.AttachJobIdToWebhookSecretRef | state_manager/localStateManager.go:29-39 | an empty job id is rejected first, then an empty secret; otherwise the secret maps to the job id and nothing else changes |
| StateManager.LocalStateManager.CreateState | state_manager/localStateManager.go:45-68 | the id maps to `Created(...)` (an existing entry is overwritten); the token's counter, 0 if absent, grows by one; never an error; the accounting is kept for a fresh id |
| StateManager.LocalStateManager.GetConcurrentBuilds | state_manager/localStateManager.go:71-76 | the token's counter, 0 for an unknown token; under the accounting, the token's number of open jobs |
| StateManager.LocalStateManager.GetState | state_manager/localStateManager.go:79-84 | a copy of the job's state, or "job doesn't exist" |
| StateManager.LocalStateManager.UpdateState | state_manager/localStateManager.go:87-112 | an unknown id gives "job doesn't exist" and changes nothing; otherwise the entry becomes `Updated(...)` and a terminal status releases the owner's counter; the invariant and the accounting are kept |
| Reconcile.Failures | workflows/argo_git.go:56-60 | the number of failed reads is at most the number of reads |
| Reconcile.ApplyBatchExtendsLog | workflows/argo_git.go:72-84 | processing a batch only appends to the job's history; it keeps the owner, the engine and the store invariant; a closed job is left untouched; a panic happens only on a closed watcher |
| Reconcile.ApplyBatchAppliesOnlyUnseen | workflows/argo_git.go:72-79 | every appended transition goes to a batch status that the snapshot had not seen; a batch processed to its end leaves every one of its statuses seen |
| Reconcile.RedeliveryIsIdempotent | workflows/argo_git.go:66-84 | reading the same batch again after it was processed to its end changes nothing |
| Reconcile.AllSeenIsNoop | workflows/argo_git.go:73-79 | a batch whose statuses are all seen, none of them SUCCEEDED or FAILED, changes nothing |
| Reconcile.PollExtendsLog | workflows/argo_git.go:47-86 | the whole loop only appends to the job's history and keeps the store invariant |
| Reconcile.Poll | workflows/argo_git.go:47-86 | (specification function) the polling loop over a sequence of reads: a failed read costs a retry, a missing job or a reported SUCCEEDED/FAILED ends it |
| Reconcile.ApplyBatch | workflows/argo_git.go:72-84 | (specification function) one batch: unseen statuses applied in order, stopping at SUCCEEDED or FAILED, panicking on a closed watcher |
| Reconcile.ExhaustionNeedsFailures | workflows/argo_git.go:53-60 | the loop gives up for lack of budget only after at least as many failed reads as its budget (35) |
| Reconcile.FailuresConsumeBudget | workflows/argo_git.go:53-60 | a budget's worth of failed reads in a row ends the loop with the job untouched |
| Reconcile.MissingJobStopsAtFirstRead | workflows/argo_git.go:66-70 | a job that is gone stays gone; the loop ends with "state missing" iff a successful read happens while budget remains |
| Reconcile.SucceededLeavesJobOpen | workflows/argo_git.go:77-83 | a pod reporting SUCCEEDED records that transition and ends the loop, but the job stays open |
| Reconcile.FailedClosesJob | workflows/argo_git.go:77-83 | a pod reporting FAILED closes the job and ends the loop, whatever follows in the batch |
| ArgoSpec.Assemble | workflows/git-workflow.go:35-85 | the one-step workflow: its entry point, template and step reference the same template name, with the given names, artifacts and parameters |
| ArgoSpec.ParameterNames | workflows/git-workflow.go:55-76 | the names of the parameters, in order |
| ArgoSpec.LookupSound | workflows/git-workflow.go:55-76 | a name is found iff it is among the parameter names; a found value belongs to a parameter with that name |
| ArgoSpec.LookupAppend | workflows/argo_git.go:177-209 | lookup in a concatenation looks in the first part, then the second |
| ArgoSpec.LookupAbsent | workflows/argo_git.go:177-209 | a name no parameter has is not found |
| ArgoSpec.LookupAt | workflows/git-workflow.go:55-76 | the first parameter with a name supplies its value |
| Renderers.RepositoryParametersLookup | workflows/git-workflow.go:16-24 | the five repository parameters carry token, repository, region, project name and base path; an absent base path is "" |
| Renderers.GitWorkflow | workflows/git-workflow.go:15-86 | the parameters are exactly token, githubRepository, region, projectName and basePath, in order, with the inputs' values; an absent base path is ""; for dev or local the generate name is genezio-build-git-dev-, the template name build-git-dev and the template ref genezio-build-git-template-dev, otherwise genezio-build-git-, build-git and genezio-build-git-template |
| Renderers.EmptyWorkflow | workflows/empty-workflow.go:10-81 | the same five parameters; an absent base path is "" and a present one is the pointer's printed form; for dev or local the names genezio-build-empty-dev-, build-empty-dev and genezio-build-empty-template-dev, otherwise genezio-build-empty-, build-empty and genezio-build-empty-template |
| Renderers.EmptyWorkflowIgnoresStack | workflows/empty-workflow.go:10-81 | neither the stack argument nor the string a present base path points to has any influence on the rendered workflow |
| Renderers.S3Workflow | workflows/s3-workflow.go:10-75 | one artifact codeArchive at /tmp/projectCode.zip with mode 0755, fetched from the URL; the parameters are token and codeURL, and codeURL is the artifact's URL; for dev or local the names genezio-build-s3-dev-, build-s3-dev and genezio-build-s3-template-dev, otherwise genezio-build-s3-, build-s3 and genezio-build-s3-template |
| Renderers.GitWorkflowInjective | workflows/git-workflow.go:15-86 | two Git renderings agree iff their inputs agree, an absent base path counting as "" |
| Workflows.GetWorkflowExecutor | workflows/workflow.go:56-67 | a variant is returned iff the tag is one of the available deployments; git, empty and s3 each select their variant with the caller's token; anything else gives nil |
| Workflows.DispatchIsInjective | workflows/workflow.go:23-27 | different available tags select different variants |
| Workflows.RepositoryValidationOrder | workflows/argo_git.go:99-111 | the Git/Argo and Empty/API rules pass iff repository, projectName and region are non-empty; the first missing one is reported, in that order |
| Workflows.S3ValidationOrder | workflows/argo_s3.go:55-75 | the S3/Argo rules pass iff projectName, region and token are non-empty and a code map is present when no download URL was given; the first failure is reported, in that order |
| Checks.FirstFailure | workflows/argo_git.go:99-111 | passes iff every check passes; otherwise it reports the error of the first failing check, every earlier check passing |
| Checks.FirstFailureIgnoresLaterChecks | api/controller/deployments.go:53-72 | the error of the first failing check is reported, whatever follows |
| ArgoGit.GitArgoParameterNames | workflows/argo_git.go:177-209 | the Git/Argo workflow has the eight parameters token, githubRepository, region, projectName, basePath, stack, isNewProject and stage, in order |
| ArgoGit.GitArgoParametersLookup | workflows/argo_git.go:157-209 | each of the eight parameters carries its input; an absent base path is "" and the flag is "true" or "false" |
| ArgoGit.GitDeploymentArgo.constructor | workflows/argo_git.go:114-122 | keeps the token and the stage; no deployment and no store yet |
| ArgoGit.GitDeploymentArgo.AssignStateManager | workflows/argo_git.go:25-27 | the variant uses the given store |
| ArgoGit.GitDeploymentArgo.Validate | workflows/argo_git.go:91-112 | a decoding error is returned and nothing changes; otherwise the decoded deployment is kept, a body token or stage replaces the one held, and the error is that of the repository, projectName, region rules |
| ArgoGit.GitDeploymentArgo.RenderArgoTemplate | workflows/argo_git.go:124-220 | each of the eight parameters carries its field; an absent stack and an absent base path are ""; the flag is "true" or "false"; for dev or local the names genezio-build-git-dev-, build-git-dev and genezio-build-git-template-dev, otherwise genezio-build-git-, build-git and genezio-build-git-template |
| ArgoGit.GitDeploymentArgo.Submit | workflows/argo_git.go:35-46 | a rejected submission returns its error and registers nothing; otherwise the workflow id is registered under the token on the argo engine and returned |
| ArgoGit.GitDeploymentArgo.PollWorkflowStatus | workflows/argo_git.go:47-86 | the loop ends as `Reconcile.Poll` says; a missing job changes nothing; otherwise only that job changes, and its owner's counter drops by one exactly when it closes |
| ArgoGit.GitDeploymentArgo.ProcessBatch | workflows/argo_git.go:72-84 | one batch as `Reconcile.ApplyBatch`: only that job changes; a closed job is untouched; the owner and the accounting are kept |
| ArgoGit.TracksStep | workflows/argo_git.go:72-84 | the loop's bookkeeping survives one more UpdateState on the polled job |
| ArgoS3.Merged | workflows/argo_s3.go:32-41 | the merged variables hold every key of both maps; a given value overrides the current one |
| ArgoS3.MergeStep | workflows/argo_s3.go:36-40 | setting one given variable and merging the rest is the whole merge |
| ArgoS3.MergeNothing | workflows/argo_s3.go:32-41 | merging no variables leaves them as they are |
| ArgoS3.PayloadRecoverable | workflows/argo_s3.go:162-167 | different payloads give different b64 parameters when the JSON encoding is injective |
| ArgoS3.S3DeploymentArgo.constructor | workflows/argo_s3.go:135-141 | keeps the token; no deployment, variables, webhook secret or store; nothing uploaded yet |
| ArgoS3.S3DeploymentArgo.AssignStateManager | workflows/argo_s3.go:44-46 | the variant uses the given store |
| ArgoS3.S3DeploymentArgo.AssignEnvVarsFromStageID | workflows/argo_s3.go:32-41 | with no variables yet, the given map (possibly nil) is taken; otherwise the given variables are merged in, overriding |
| ArgoS3.S3DeploymentArgo.Validate | workflows/argo_s3.go:49-76 | a decoding error is returned; otherwise the fields are kept, a token in the request replaces the constructor's, and the error is that of the projectName, region, token, code rules |
| ArgoS3.S3DeploymentArgo.Payload | workflows/argo_s3.go:162-164 | the serialised payload carries the webhook secret, the token and the deployment |
| ArgoS3.UploadedUrl | workflows/argo_s3.go:78-107 | (specification function) uploadCode's download URL or its first error: upload under the token, URL parsing, presigning |
| ArgoS3.S3DeploymentArgo.RenderArgoTemplate | workflows/argo_s3.go:143-216 | the archive artifact comes from the download URL; the single parameter b64 decodes back to the serialised payload; the names are genezio-build-s3-dev-, build-s3-dev and genezio-build-s3-template-dev for dev, genezio-build-s3-local-, build-s3-local and genezio-build-s3-template-local for local, and genezio-build-s3-, build-s3 and genezio-build-s3-template otherwise |
| ArgoS3.S3DeploymentArgo.UploadCode | workflows/argo_s3.go:78-107 | the archive is uploaded under the caller's token; the key without its leading slashes is presigned in the regional bucket; the resulting URL becomes the download URL, or an error is returned and nothing changes |
| ArgoS3.S3DeploymentArgo.Submit | workflows/argo_s3.go:110-133 | the code is uploaded unless already done, then rendered and submitted; an error returns no id; a submitted id is registered under the token on the argo engine, and the per-token counters stay balanced |
| ApiEmpty.CreateProjectRequest | workflows/api_empty.go:55-75 | a PUT to the backend's /core/deployment with bearer, JSON and CLI-version headers; the body carries the project, region, genezio-cloud, prod and the stack, a nil stack as null |
| ApiEmpty.ScriptShape | workflows/api_empty.go:42-101 | the updates are PULLING_CODE, AUTHENTICATING, BUILDING, then FAILED or SUCCESS, cut off at the first failure; only an upload failure records FAILED |
| ApiEmpty.FullSuccessHistory | workflows/api_empty.go:42-101 | a successful run leaves the job closed with the history PENDING, PULLING_CODE, AUTHENTICATING, BUILDING, SUCCESS |
| ApiEmpty.EarlyFailureLeavesJobOpen | workflows/api_empty.go:45-93 | a clone, request or zip failure returns an error and leaves the job open |
| ApiEmpty.UploadFailureClosesJob | workflows/api_empty.go:96-100 | an upload failure records FAILED and closes the job |
| ApiEmpty.EmptyDeploymentAPI.constructor | workflows/api_empty.go:135-139 | keeps the token; no deployment and no store yet |
| ApiEmpty.EmptyDeploymentAPI.AssignStateManager | workflows/api_empty.go:25-27 | the variant uses the given store |
| ApiEmpty.EmptyDeploymentAPI.Validate | workflows/api_empty.go:106-125 | a decoding error is returned and nothing changes; otherwise the decoded deployment is kept, a body token replaces the one held, and the error is that of the repository, projectName, region rules |
| ApiEmpty.EmptyDeploymentAPI.Record | workflows/api_empty.go:42-101 | one UpdateState of the run keeps the job's entry equal to the updates applied so far |
| ApiEmpty.EmptyDeploymentAPI.Submit | workflows/api_empty.go:35-103 | the job is created on the api engine and receives exactly the run's updates; the id is returned on success, the error otherwise |
| Deployments.S3BodyRules | api/controller/deployments.go:53-72 | an S3 body passes iff region, projectName and token are non-empty and the code map is non-empty; the first failure is reported, in that order |
| Deployments.RepositoryBodyRules | api/controller/deployments.go:137-156 | a GitHub or empty-project body passes iff repository and token are non-empty and projectName and region are present, even if empty; the first failure is reported, in that order |
| Deployments.StageOrDefault | api/controller/deployments.go:74-77 | the given stage, or "prod" |
| Deployments.TrimLeadingSlashes | api/controller/deployments.go:99 | the key is the path after a run of leading slashes, and it does not start with a slash |
| Deployments.TrimIdempotent | api/controller/deployments.go:99 | trimming twice is trimming once; a path without a leading slash is kept |
| Deployments.TrimRemovesAddedSlashes | api/controller/deployments.go:99 | any number of slashes put in front of a key are all removed |
| Deployments.BucketName | api/controller/deployments.go:101-102 | the bucket is the base name, a dash, then the region |
| Deployments.StackCsv | api/controller/deployments.go:224-231 | an empty stack gives nil; otherwise the names joined with commas |
| Deployments.StackCsvRoundTrip | api/controller/deployments.go:224-231 | splitting the joined stack at commas gives the stack back, when no name contains a comma |
| Base64.CharOf | workflows/argo_s3.go:166 | a value's character is never the pad |
| Base64.SextetOf | workflows/argo_s3.go:166 | a character's value encodes back to that character; the pad has none |
| Base64.Encode | workflows/argo_s3.go:166 | the encoding is a whole number of four-character groups, empty iff the input is empty |
| Base64.EncodeLength | workflows/argo_s3.go:166 | four characters for every started group of three bytes |
| Base64.Decode | workflows/argo_s3.go:166 | (specification function) standard padded base64 decoding, the inverse the b64 parameter is meant for |
| Base64.DecodeEncode | workflows/argo_s3.go:166 | decoding the encoding gives the bytes back |
| Base64.EncodeInjective | workflows/argo_s3.go:166 | different byte strings have different encodings |
| PodUtils.StatusTable | scripts/src/utils.ts:44-57 | SUCCESS reports SUCCEEDED, every other key reports itself, and PENDING is undefined |
| PodUtils.StatusesOf | scripts/src/utils.ts:11-15 | the statuses of the entries, in order |
| PodUtils.ReportUrl | scripts/src/utils.ts:573-578 | the webhook URL always ends in /report, so it is never empty |
| PodUtils.CloneArgs | scripts/src/utils.ts:359-361 | clone, then --branch and the branch only for a non-empty branch, then the repository and "." |
| PodUtils.TokenUrlSkipsReachability | scripts/src/utils.ts:345-355 | a URL carrying an access token is cloned whatever the network check would say |
| PodUtils.CloneOutcome | scripts/src/utils.ts:335-380 | (specification function) the folder cloneRepository returns, or its error: an unreachable URL without a token, then a failing clone |
| PodUtils.ConfigContent | scripts/src/utils.ts:389 | (specification function) the genezio.yaml written when none exists: name, region and yamlVersion 2, one per line |
| PodUtils.ConfigContentInjective | scripts/src/utils.ts:389 | the default genezio.yaml determines the name and region it was made from, if the name has no line break |
| PodUtils.Substitution | scripts/src/utils.ts:465-468 | (specification function) the replacement text as replaceAll inserts it: $$, $&, $` and $' expanded, every other character literal |
| PodUtils.SubstitutionLiteral | scripts/src/utils.ts:465-468 | a replacement text without $ is inserted literally |
| PodUtils.ReplaceAll | scripts/src/utils.ts:465-468 | (specification function) every non-overlapping occurrence, left to right, replaced by the substituted text; an empty pattern matches at every position |
| PodUtils.ReplaceAllSelf | scripts/src/utils.ts:465-468 | replacing a pattern holding no $ by itself changes nothing |
| PodUtils.ReplaceAllAbsent | scripts/src/utils.ts:465-468 | a text without the pattern is left as it is |
| PodUtils.DollarNameIsRewritten | scripts/src/utils.ts:465-468 | a pattern replaced by itself is not kept when it holds $$: "a$$b" becomes "a$b" |
| PodUtils.ApplyReplacements | scripts/src/utils.ts:465-468 | (specification function) the pairs applied in order, each with replaceAll, as the reduce does |
| PodUtils.IdentityReplacements | scripts/src/utils.ts:465-468 | pairs that replace each pattern by itself, with no $ in it, leave every text unchanged |
| PodUtils.SameNameOnlyRewritesConfig | scripts/src/utils.ts:423-450 | when genezio.yaml already has the project's name and that name holds no $, only genezio.yaml changes and no file is written back |
| PodUtils.ImportsRewritten | scripts/src/utils.ts:423-450 | (specification function) the files after replaceGenezioImports: a YAML error, or every file under the folder rewritten with the import pairs of the old and new names |
| PodUtils.NeedsInstall | scripts/src/utils.ts:529-546 | dependencies are needed iff a Next.js configuration exists or package.json depends on next; an unreadable package.json is an error |
| PodUtils.InstallStep | scripts/src/utils.ts:525-571 | (specification function) checkAndInstallDeps on a run: INSTALLING_DEPS reported and npm i spawned only when package.json needs it |
| PodUtils.StatusArray.constructor | scripts/src/utils.ts:11-15 | a status array starts empty |
| PodUtils.Added | scripts/src/utils.ts:202-232 | addStatus appends the entry to the array and posts it, and the status file becomes the array; files and processes are unchanged |
| PodUtils.ConfigWritten | scripts/src/utils.ts:382-398 | an existing genezio.yaml is kept; otherwise it is created or an error is raised; every existing file is kept |
| PodUtils.InstallReportsOnlyWhenNeeded | scripts/src/utils.ts:525-571 | INSTALLING_DEPS is the only status added, and only when the install is needed; files are untouched; an error only for an unreadable package.json |
| PodUtils.Pod.constructor | scripts/src/utils.ts:573-578 | a pod with its files, no statuses, posts or processes, and the webhook URL |
| PodUtils.Pod.AddStatus | scripts/src/utils.ts:202-232 | the pod and the array become `Added(...)` |
| PodUtils.Pod.Spawn | scripts/src/utils.ts:295-333 | the command is recorded and its result returned |
| PodUtils.Pod.CloneRepository | scripts/src/utils.ts:335-380 | the outcome is the reachability error, the clone error or the cloned folder; git runs only past the check |
| PodUtils.Pod.WriteConfigurationFileIfNeeded | scripts/src/utils.ts:382-398 | the files become those of `ConfigWritten`, or stay unchanged with its error |
| PodUtils.Pod.RecursiveReplace | scripts/src/utils.ts:452-474 | every file under the root gets the replacements; exactly the files whose content changed are written back; files outside the root are kept |
| PodUtils.Pod.ReplaceGenezioImports | scripts/src/utils.ts:423-450 | with a project name and region, genezio.yaml gets them and the old SDK import is rewritten throughout; any failure gives "Failed to update genezio.yaml" and changes nothing |
| PodUtils.Pod.CheckAndInstallDeps | scripts/src/utils.ts:525-571 | the pod becomes the install step's run; the answer is true unless package.json cannot be read |
| PodGit.ParseArguments | scripts/src/git.ts:39-71 | a missing stack becomes the empty list; every other field is passed on untouched |
| PodGit.NormalizeStage | scripts/src/git.ts:122-124 | main, master and the empty stage become prod; any other stage is kept |
| PodGit.NormalizeStageIdempotent | scripts/src/git.ts:122-124 | normalising twice is normalising once, and the result is never main, master or "" |
| PodGit.DeployArgs | scripts/src/git.ts:149-154 | deploy --stage and the stage, followed by --env and the file iff there are environment variables |
| PodGit.GitFront | scripts/src/git.ts:77-117 | nothing is thrown iff the token and repository are truthy and the login exits with code 0; a missing token or repository throws "Invalid request" after SCHEDULED alone, without spawning; a failed login throws "Authenticating failed: " with its stderr, after spawning only the login |
| PodGit.GitClone | scripts/src/git.ts:119-120 | (specification function) the clone with the stage as branch, then the configuration file, then the rest of the flow |
| PodGit.GitBuild | scripts/src/git.ts:122-131 | (specification function) the stage normalised, CREATING_PROJECT reported and the imports rewritten |
| PodGit.GitCreate | scripts/src/git.ts:133-140 | (specification function) for a new project, CREATING_EMPTY_PROJECT and the project's creation |
| PodGit.GitInstall | scripts/src/git.ts:142-143 | (specification function) the dependency check and install |
| PodGit.GitDeploy | scripts/src/git.ts:147-176 | (specification function) DEPLOYING, the deploy process with its arguments in the folder, then SUCCEEDED or the deploy error |
| PodGit.GitFlow | scripts/src/git.ts:73-181 | (specification function) the whole of deployFromGit, as the steps above in order |
| PodGit.GitRun | scripts/src/git.ts:27-37 | (specification function) runGitFlow: a thrown error reported as FAILED on a fresh array |
| PodGit.DeployFromGit | scripts/src/git.ts:73-181 | the pod and the array end as the step function `GitFlow` says, and the thrown error is its error |
| PodGit.BuildAndDeploy | scripts/src/git.ts:119-131 | the part after the clone, as `GitBuild` |
| PodGit.CreateAndDeploy | scripts/src/git.ts:133-143 | project creation and dependencies, as `GitCreate` |
| PodGit.Deploy | scripts/src/git.ts:147-176 | the deploy step, as `GitDeploy` |
| PodGit.RunGitFlow | scripts/src/git.ts:27-37 | the pod ends as `GitRun` says |
| PodGitProperties.GitSuccessEntriesShape | scripts/src/git.ts:77-176 | a successful run reports 6, 7 or 8 statuses, one for each optional step taken; only the last is terminal, and it is SUCCEEDED |
| PodGitProperties.GitFrontSteps | scripts/src/git.ts:77-117 | up to the clone, the run reports a prefix of SCHEDULED, AUTHENTICATING, PULLING_CODE; all three iff nothing was thrown |
| PodGitProperties.GitDeploySteps | scripts/src/git.ts:147-176 | the deploy step reports DEPLOYING, then SUCCEEDED iff nothing was thrown |
| PodGitProperties.InstallStepEntries | scripts/src/utils.ts:525-571 | the dependency step adds INSTALLING_DEPS iff the install is needed |
| PodGitProperties.GitInstallSteps | scripts/src/git.ts:142-176 | from the dependency check on, a prefix of the success statuses is reported; all of them iff nothing was thrown |
| PodGitProperties.GitCreateSteps | scripts/src/git.ts:133-176 | the same, from the optional project creation on |
| PodGitProperties.GitBuildSteps | scripts/src/git.ts:120-176 | the same, from the configuration file on |
| PodGitProperties.GitCloneSteps | scripts/src/git.ts:119-176 | the same, from the clone on |
| PodGitProperties.GitReportsStepsInOrder | scripts/src/git.ts:73-181 | a git run reports a non-empty prefix of the success statuses in order, all of them iff nothing was thrown; the status file always holds the array |
| PodGitProperties.GitPastFrontSteps | scripts/src/git.ts:119-176 | after the front statuses, the rest of the success statuses follow in order |
| PodGitProperties.GitDeploySpawns | scripts/src/git.ts:149-165 | the deploy spawns exactly genezio deploy --stage with the normalised stage, and --env with the env file when there are variables |
| PodGitProperties.GitInstallSpawns | scripts/src/git.ts:142-165 | npm i, when needed, comes before the deploy and nothing else is spawned |
| PodGitProperties.GitCreateSpawns | scripts/src/git.ts:133-165 | creating a new project spawns nothing of its own |
| PodGitProperties.GitBuildSpawns | scripts/src/git.ts:122-165 | rewriting the imports spawns nothing; the deploy uses the normalised stage |
| PodGitProperties.GitCommandsShape | scripts/src/git.ts:102-165 | the command list starts with the login and the clone and ends with the deploy |
| PodGitProperties.GitCloneSpawns | scripts/src/git.ts:119-165 | the clone is spawned with the stage as given as its branch, before the rest |
| PodGitProperties.CloneFailureSpawns | scripts/src/git.ts:119 | a failing clone stops after the clone command |
| PodGitProperties.GitSpawnsInOrder | scripts/src/git.ts:73-181 | the spawned processes are a prefix of login, clone on the stage as given, npm i when needed and deploy on the normalised stage; success means a truthy token and repository, environment variables present and clean exits of the login, the clone and the deploy |
| PodGitProperties.GitFailsEarly | scripts/src/git.ts:94-110 | an invalid request throws "Invalid request" after SCHEDULED alone and spawns nothing; a failed login throws "Authenticating failed" after spawning only the login; the files are unchanged in both |
| PodGitProperties.GitRunStatusFile | scripts/src/git.ts:27-37 | after a successful flow, the status file holds the success statuses, ending in SUCCEEDED; after a thrown error, it holds only the FAILED entry with the error |
| PodS3.ParseArguments | scripts/src/s3.ts:8-18 | parsing succeeds iff the token and the stage are non-empty; a missing token is reported before a missing stage |
| PodS3.DeployFromArchive | scripts/src/s3.ts:33-97 | the pod and the array end as the step function `S3Flow` says, and the thrown error is its error |
| PodS3.LoginAndDeploy | scripts/src/s3.ts:65-93 | the login and deploy part, as `S3Publish` |
| PodS3.RunS3Flow | scripts/src/s3.ts:20-31 | the pod ends as `S3Run` says; an argument error escapes and the flow does not start |
| PodS3.S3Flow | scripts/src/s3.ts:33-97 | (specification function) deployFromArchive: preparation, install, login and deploy, each stopping on failure |
| PodS3.S3Run | scripts/src/s3.ts:20-31 | (specification function) runS3Flow: a thrown error reported as FAILED on the same array |
| PodS3Properties.OutcomeOf | scripts/src/s3.ts:33-97 | (specification function) where a run stops, read off the token and the process results |
| PodS3Properties.ExpectedStatuses | scripts/src/s3.ts:33-97 | each outcome's status list starts with undefined; it ends in SUCCEEDED iff deployed, in FAILED otherwise; the number of FAILED entries is fixed per outcome |
| PodS3Properties.ExpectedSpawns | scripts/src/s3.ts:37-81 | one to four processes, starting with unzip; the last is genezio deploy --stage when the deploy was reached |
| PodS3Properties.FlowStatuses | scripts/src/s3.ts:20-97 | the statuses deployFromArchive reports itself are the expected ones, without the final FAILED that runS3Flow adds after a throw |
| PodS3Properties.ParsedTokenIsValid | scripts/src/s3.ts:11-13 | a parsed token is never empty, so the "Invalid token" branch is reached only by direct calls |
| PodS3Properties.PrepareExtends | scripts/src/s3.ts:35-43 | PENDING (undefined) and the unzip; with an empty token, FAILED "Invalid token" and a throw |
| PodS3Properties.InstallExtends | scripts/src/s3.ts:49-62 | INSTALLING_DEPS and npm i; a failed install throws without its own FAILED |
| PodS3Properties.LoginExtends | scripts/src/s3.ts:65-75 | AUTHENTICATING and the login; a failed login adds FAILED and throws |
| PodS3Properties.DeployExtends | scripts/src/s3.ts:79-93 | DEPLOYING and the deploy; failure adds FAILED and throws, success adds SUCCEEDED |
| PodS3Properties.PublishExtends | scripts/src/s3.ts:65-93 | the login and deploy together add the statuses and processes of their outcome |
| PodS3Properties.BuildExtends | scripts/src/s3.ts:49-93 | install, login and deploy together add the statuses and processes of their outcome |
| PodS3Properties.S3FlowExtends | scripts/src/s3.ts:33-97 | the flow adds exactly the statuses and processes of its outcome, posts every status, keeps the status file equal to the array and leaves the files alone |
| PodS3Properties.S3RunReports | scripts/src/s3.ts:20-97 | after a parsed run, the status file holds the expected statuses of the outcome (the final FAILED included), every status was posted, and the processes are the expected ones; a parse error changes nothing |

## Left out

- Concurrency. The polling goroutine of the Git/Argo submission is `ArgoGit.GitDeploymentArgo.PollWorkflowStatus`. It is a sequential method run after `Submit`, over a finite sequence of read outcomes. Interleavings with other requests and the lack of locking on the maps are not modelled.
- The watcher channel is a sequence of delivered snapshots and a closed flag. A send on a closed channel panics in Go. `UpdateState` therefore requires an open watcher, and the polling loop ends in `Panicked` where the goroutine would panic. The channel's capacity of 15 and blocking on a full channel are not modelled.
- `GetState` of the three workflow variants only panics with "unimplemented", so it has no model.
- Decoding of JSON request bodies, of the base64 argument of the git pod, of YAML and of package.json is not modelled. Each is an input of the model: a `Result` value or a function-typed parameter. JSON encoding is a function that the model assumes injective where that matters.
- Time is one clock value per call (`now`, `at`, `time`). Go's `time.Now()` and JavaScript's ISO timestamps are not distinguished within one call.
- The job id of the Empty/API variant, a random UUID, is a parameter.
- The Argo and Kubernetes clients, S3 uploads and presigning, HTTP requests, git clones and child processes are function-typed parameters. Zipping, temporary folders and file removal have no effect in the model.
- The configuration singleton: the environment name and the bucket base name are parameters.
- `path.join` is concatenation with "/", without normalisation of "..", "." or double slashes.
- The status file is written by an asynchronous `fs.writeFile` that is not awaited. The model takes each write as done before the next step, and a failed write as not happening.
- PodGitProperties.GitRunStatusFile: its success half (the status file ends in SUCCEEDED) rests on that simplification. In the source `git.ts`:180 calls `process.exit(0)` right after the SUCCEEDED status is added, without waiting for the pending write; only FAILED is followed by the 5-second sleep (`utils.ts`:225-230). So the final write is likely lost, and the file then need not end in SUCCEEDED.
- The 5-second sleep after a FAILED status, console logging and the webhook's authorization header are not modelled. The webhook's errors are swallowed, as in the source.
- The environment `{ CI: true }` given to the deploy process is not part of `PodUtils.Command`.
- Unpacking the S3 archive does not change the pod's files: the pod's files are taken as already unpacked.
- `writeEnvsToFile` is defined nowhere in the repository (see above). The model stands in for it with the file name `PodGit.GitEnv.envFileName`; what such a function would write, and any error it would throw, are not modelled.
- `createNewProject` and the empty-project creation of the pod are a function-typed parameter giving the error, if any.
- A JavaScript `null` string and a missing one are both `None`.
- The dispatch of scripts/src/index.ts on `process.argv[2]` is not modelled; each flow is entered directly.
- The legacy scripts under scripts/build-git, scripts/build-s3 and scripts/build-empty, the HTTP routes, the workflow service, and the AWS secrets and Kubernetes services are not part of this model.
- Reconcile.Poll: the loop runs over a finite sequence of read outcomes. Where the goroutine would poll forever, the model ends in `ReadsExhausted`.
- Go integers: the per-token counters are unbounded integers, so overflow is not modelled.
- PodUtils.ReplaceAllSelf: holds only for a pattern without `$`, because `replaceAll` expands `$` patterns in the replacement (`PodUtils.DollarNameIsRewritten` shows one that is not kept).
- PodUtils.IdentityReplacements: holds only for replacement texts without `$`, for the same reason.
- PodUtils.SameNameOnlyRewritesConfig: holds only for a project name without `$`, for the same reason.
- PodUtils.Pod.RecursiveReplace: the nested calls on a folder's entries are not awaited in the source. They contain no `await`, so they run to completion in order, as the model has them. A failing nested file read or write would escape `replaceGenezioImports`' error handling as an unhandled rejection; in the model file reads and writes do not fail.
- PodUtils.Pod.ReplaceGenezioImports: the same limits as `RecursiveReplace`, and the same `$` expansion in the new import names.
- Renderers.EmptyWorkflow: the printed form of the base-path pointer (an address) is a parameter; it is not derived from the pointer.
- PodUtils.Pod.CloneRepository: the clone's effect on the pod's files is not modelled. The repository's files are taken as already present in the folder the clone returns.
- ArgoS3.S3DeploymentArgo.AssignEnvVarsFromStageID: the `EnvVars` field it updates is not declared in the source (`argo_s3.go`:21-28, `workflow.go`:39-46); the model assumes it on the variant and marshals it into the `b64` payload, so what the payload holds for it is an assumption, not the source's.
- ArgoS3.S3DeploymentArgo.AssignEnvVarsFromStageID: the variant's map is a value, so the source's aliasing of the map it was given (later writes through one seen through the other) is not modelled.
- JSON decoding into a whole variant: only the `token` and `stage` keys that overwrite untagged fields are modelled. A body key naming the Argo client or the state manager, and the partial decoding Go leaves behind when a later key has the wrong type, are not.
