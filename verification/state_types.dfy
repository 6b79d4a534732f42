/** Types and constants of the job state store (state_manager/state.go). */
module StateTypes {

  /** A build status is a plain string: the store records whatever it is given. */
  type BuildStatus = string

  /** Initial `From` of every job. The store uses it although state.go does not declare it. */
  const StatusProcessing: BuildStatus := "PROCESSING"

  const StatusPending: BuildStatus := "PENDING"
  const StatusAuth: BuildStatus := "AUTHENTICATING"
  const StatusPullingCode: BuildStatus := "PULLING_CODE"
  const StatusInstallingDeps: BuildStatus := "INSTALLING_DEPS"
  const StatusBuilding: BuildStatus := "BUILDING"
  const StatusDeployingBackend: BuildStatus := "DEPLOYING_BACKEND"
  const StatusDeployingFrontend: BuildStatus := "DEPLOYING_FRONTEND"
  /** The store's success literal. The build pods report "SUCCEEDED" instead. */
  const StatusSuccess: BuildStatus := "SUCCESS"
  const StatusFailed: BuildStatus := "FAILED"

  /** The nine statuses state.go declares, in declaration order. */
  const DeclaredStatuses: seq<BuildStatus> :=
    [StatusPending, StatusAuth, StatusPullingCode, StatusInstallingDeps, StatusBuilding,
     StatusDeployingBackend, StatusDeployingFrontend, StatusSuccess, StatusFailed]

  /** The store's terminal test (localStateManager.go, UpdateState). */
  predicate IsTerminal(s: BuildStatus) {
    s == StatusSuccess || s == StatusFailed
  }

  /** The two build engines a job can run on. */
  const EngineArgo: string := "argo"
  const EngineAPI: string := "api"
  const Engines: seq<string> := [EngineArgo, EngineAPI]

  /** One entry of a job's append-only history; times are abstract clock values. */
  datatype StateTransition = StateTransition(from: BuildStatus, to: BuildStatus, transitionTime: int, reason: string)

  /** What the store tells about a job. */
  datatype State = State(
    buildEngine: string,
    buildStatus: BuildStatus,
    timestamp: int,
    userToken: string,
    transitions: seq<StateTransition>)

  /** Nine pairwise distinct statuses; PROCESSING is none of them. */
  lemma DeclaredStatusesAreDistinct()
    ensures |DeclaredStatuses| == 9
    ensures forall i, j :: 0 <= i < j < |DeclaredStatuses| ==> DeclaredStatuses[i] != DeclaredStatuses[j]
    ensures StatusProcessing !in DeclaredStatuses
  {
  }

  /** Exactly SUCCESS and FAILED are terminal; the pods' "SUCCEEDED" is not. */
  lemma TerminalStatuses()
    ensures forall i :: 0 <= i < |DeclaredStatuses| ==> (IsTerminal(DeclaredStatuses[i]) <==> i >= 7)
    ensures !IsTerminal(StatusProcessing)
    ensures !IsTerminal("SUCCEEDED")
  {
  }

  /** The engine tags are the two distinct strings "argo" and "api". */
  lemma EngineTags()
    ensures Engines == ["argo", "api"] && Engines[0] != Engines[1]
  {
  }
}
