/** The archive build pod (scripts/src/s3.ts): it unpacks the uploaded code, installs the
    dependencies, logs in and deploys, reporting each step as a status on one array that
    the failure handler also appends to. */
module PodS3 {
  import opened Wrappers
  import opened PodUtils

  /** The parameters of a run: argv[3] and argv[4]. */
  datatype InputParams = InputParams(token: string, stage: string)

  /** An argument JavaScript reads as falsy: missing or empty. */
  predicate MissingArg(argv: seq<string>, i: nat) {
    i >= |argv| || argv[i] == ""
  }

  /** parseArguments: the token is checked before the stage, and both must be non-empty. */
  function ParseArguments(argv: seq<string>): (r: Result<InputParams>)
    ensures r.Ok? <==> !MissingArg(argv, 3) && !MissingArg(argv, 4)
    ensures r.Ok? ==> r.value.token == argv[3] && r.value.stage == argv[4] && r.value.token != ""
    ensures MissingArg(argv, 3) ==> r == Err(Thrown("Token is required"))
    ensures !MissingArg(argv, 3) && MissingArg(argv, 4) ==> r == Err(Thrown("Stage is required"))
  {
    if MissingArg(argv, 3) then Err(Thrown("Token is required"))
    else if MissingArg(argv, 4) then Err(Thrown("Stage is required"))
    else Ok(InputParams(argv[3], argv[4]))
  }

  const CodeDir := "/tmp/projectCode"

  /** unzipArchive of /tmp/projectCode.zip into the code folder, run from the archive's folder. */
  const UnzipCommand := Command("unzip", ["-o", "/tmp/projectCode.zip", "-d", CodeDir], "/tmp")
  const InstallCommand := Command("npm", ["i"], CodeDir)

  function LoginCommand(token: string): Command {
    Command("genezio", ["login", token], CodeDir)
  }

  function DeployCommand(stage: string): Command {
    Command("genezio", ["deploy", "--stage", stage], CodeDir)
  }

  /** deployFromArchive up to the token check: PENDING (a key the status table lacks), the
      unzip, whose result is ignored, and FAILED with "Invalid request" for an empty token. */
  function S3Prepare(p: InputParams, r: Run, time: string): Step {
    var r1 := Spawned(Added(r, StatusFor("PENDING"), "Starting build from s3 flow", time), UnzipCommand);
    if p.token == "" then Step(Added(r1, Failed, "Invalid token", time), Some(Thrown("Invalid request")))
    else Step(r1, None)
  }

  /** INSTALLING_DEPS and npm i; a failed install throws without a FAILED of its own. */
  function S3Install(run: Command -> ProcessResult, r: Run, time: string): Step {
    var r1 := Spawned(Added(r, StatusFor("INSTALLING_DEPS"), "Installing dependencies", time), InstallCommand);
    var result := run(InstallCommand);
    if !ExitedCleanly(result) then Step(r1, Some(Thrown("Failed to install dependencies: " + result.stderr)))
    else Step(r1, None)
  }

  /** AUTHENTICATING and the login; a failed login reports FAILED and throws. */
  function S3Login(p: InputParams, run: Command -> ProcessResult, r: Run, time: string): Step {
    var r1 := Spawned(Added(r, StatusFor("AUTHENTICATING"), "Authenticating with genezio", time), LoginCommand(p.token));
    var result := run(LoginCommand(p.token));
    if !ExitedCleanly(result) then
      Step(Added(r1, Failed, "Failed to login " + result.stderr, time),
           Some(Thrown("Failed to login " + result.stdout + " " + result.stderr)))
    else Step(r1, None)
  }

  /** DEPLOYING and the deploy; a failed deploy reports FAILED and throws, a clean one SUCCEEDED. */
  function S3Deploy(p: InputParams, run: Command -> ProcessResult, r: Run, time: string): Step {
    var r1 := Spawned(Added(r, StatusFor("DEPLOYING"), "Deploying project", time), DeployCommand(p.stage));
    var result := run(DeployCommand(p.stage));
    if !ExitedCleanly(result) then
      Step(Added(r1, Failed, "Failed to deploy " + result.stderr, time),
           Some(Thrown("Failed to deploy " + result.stdout + " " + result.stderr)))
    else Step(Added(r1, Succeeded, "Workflow completed successfully", time), None)
  }

  /** deployFromArchive as a whole, from the run `r` whose entries are the array it appends to. */
  function S3Flow(p: InputParams, run: Command -> ProcessResult, r: Run, time: string): Step {
    var prepared := S3Prepare(p, r, time);
    if prepared.thrown.Some? then prepared else S3Build(p, run, prepared.run, time)
  }

  /** deployFromArchive from the dependency install on. */
  function S3Build(p: InputParams, run: Command -> ProcessResult, r: Run, time: string): Step {
    var installed := S3Install(run, r, time);
    if installed.thrown.Some? then installed else S3Publish(p, run, installed.run, time)
  }

  /** deployFromArchive from the login on. */
  function S3Publish(p: InputParams, run: Command -> ProcessResult, r: Run, time: string): Step {
    var loggedIn := S3Login(p, run, r, time);
    if loggedIn.thrown.Some? then loggedIn else S3Deploy(p, run, loggedIn.run, time)
  }

  /** runS3Flow: an argument error escapes before any status; otherwise the flow runs on a
      fresh array and a thrown error is reported as FAILED on that same array. */
  function S3Run(argv: seq<string>, run: Command -> ProcessResult, r: Run, time: string): Step {
    match ParseArguments(argv)
    case Err(e) => Step(r, Some(e))
    case Ok(p) =>
      var s := S3Flow(p, run, r.(entries := []), time);
      if s.thrown.None? then s
      else Step(Added(s.run, Failed, s.thrown.value, time), None)
  }

  /** deployFromArchive. */
  method DeployFromArchive(pod: Pod, p: InputParams, run: Command -> ProcessResult, statusArray: StatusArray, time: string)
    returns (thrown: Option<string>)
    modifies pod, statusArray
    ensures var s := S3Flow(p, run, old(pod.Current(statusArray)), time);
      pod.Current(statusArray) == s.run && thrown == s.thrown
  {
    pod.AddStatus(StatusFor("PENDING"), "Starting build from s3 flow", time, statusArray);
    var _ := pod.Spawn(Command("unzip", ["-o", "/tmp/projectCode.zip", "-d", CodeDir], "/tmp"), run);
    if p.token == "" {
      pod.AddStatus(Failed, "Invalid token", time, statusArray);
      return Some(Thrown("Invalid request"));
    }
    assert S3Prepare(p, old(pod.Current(statusArray)), time) == Step(pod.Current(statusArray), None);
    ghost var prepared := pod.Current(statusArray);

    pod.AddStatus(StatusFor("INSTALLING_DEPS"), "Installing dependencies", time, statusArray);
    var installResult := pod.Spawn(Command("npm", ["i"], CodeDir), run);
    if installResult.code != Some(0) {
      return Some(Thrown("Failed to install dependencies: " + installResult.stderr));
    }
    assert S3Install(run, prepared, time) == Step(pod.Current(statusArray), None);
    thrown := LoginAndDeploy(pod, p, run, statusArray, time);
  }

  /** The login and deploy steps of deployFromArchive. */
  method LoginAndDeploy(pod: Pod, p: InputParams, run: Command -> ProcessResult, statusArray: StatusArray, time: string)
    returns (thrown: Option<string>)
    modifies pod, statusArray
    ensures var s := S3Publish(p, run, old(pod.Current(statusArray)), time);
      pod.Current(statusArray) == s.run && thrown == s.thrown
  {
    pod.AddStatus(StatusFor("AUTHENTICATING"), "Authenticating with genezio", time, statusArray);
    var loginResult := pod.Spawn(Command("genezio", ["login", p.token], CodeDir), run);
    if loginResult.code != Some(0) {
      pod.AddStatus(Failed, "Failed to login " + loginResult.stderr, time, statusArray);
      return Some(Thrown("Failed to login " + loginResult.stdout + " " + loginResult.stderr));
    }
    assert S3Login(p, run, old(pod.Current(statusArray)), time) == Step(pod.Current(statusArray), None);

    pod.AddStatus(StatusFor("DEPLOYING"), "Deploying project", time, statusArray);
    var deployResult := pod.Spawn(Command("genezio", ["deploy", "--stage", p.stage], CodeDir), run);
    if deployResult.code != Some(0) {
      pod.AddStatus(Failed, "Failed to deploy " + deployResult.stderr, time, statusArray);
      return Some(Thrown("Failed to deploy " + deployResult.stdout + " " + deployResult.stderr));
    }
    pod.AddStatus(Succeeded, "Workflow completed successfully", time, statusArray);
    return None;
  }

  /** runS3Flow; the argument error, which the script does not catch, is returned. */
  method RunS3Flow(pod: Pod, argv: seq<string>, run: Command -> ProcessResult, time: string)
    returns (escaped: Option<string>)
    modifies pod
    ensures var s := S3Run(argv, run, old(pod.State([])), time);
      pod.State(s.run.entries) == s.run && escaped == s.thrown
  {
    var args := ParseArguments(argv);
    if args.Err? {
      return Some(args.error);
    }
    var statusArray := new StatusArray();
    var thrown := DeployFromArchive(pod, args.value, run, statusArray, time);
    if thrown.Some? {
      pod.AddStatus(Failed, thrown.value, time, statusArray);
    }
    return None;
  }
}

module PodS3Properties {
  import opened Wrappers
  import opened PodUtils
  import opened PodS3

  /** Where an archive run stops, read off the process results alone. */
  datatype ArchiveOutcome = InvalidToken | InstallFailed | LoginFailed | DeployFailed | Deployed

  function OutcomeOf(p: InputParams, run: Command -> ProcessResult): ArchiveOutcome {
    if p.token == "" then InvalidToken
    else if !ExitedCleanly(run(InstallCommand)) then InstallFailed
    else if !ExitedCleanly(run(LoginCommand(p.token))) then LoginFailed
    else if !ExitedCleanly(run(DeployCommand(p.stage))) then DeployFailed
    else Deployed
  }

  /** The statuses a run with that outcome leaves on its array: PENDING is undefined; the
      token, login and deploy failures report FAILED twice, the install failure once. */
  function ExpectedStatuses(o: ArchiveOutcome): (r: seq<Option<string>>)
    ensures |r| >= 3 && r[0] == None
    ensures r[|r| - 1] == Some("SUCCEEDED") <==> o == Deployed
    ensures o != Deployed ==> r[|r| - 1] == Some("FAILED")
    ensures Count(r, Some("FAILED")) == match o
      case Deployed => 0
      case InstallFailed => 1
      case _ => 2
  {
    match o
    case InvalidToken => [None, Some("FAILED"), Some("FAILED")]
    case InstallFailed => [None, Some("INSTALLING_DEPS"), Some("FAILED")]
    case LoginFailed => [None, Some("INSTALLING_DEPS"), Some("AUTHENTICATING"), Some("FAILED"), Some("FAILED")]
    case DeployFailed =>
      [None, Some("INSTALLING_DEPS"), Some("AUTHENTICATING"), Some("DEPLOYING"), Some("FAILED"), Some("FAILED")]
    case Deployed =>
      [None, Some("INSTALLING_DEPS"), Some("AUTHENTICATING"), Some("DEPLOYING"), Some("SUCCEEDED")]
  }

  function Count<T(==)>(xs: seq<T>, x: T): nat {
    if xs == [] then 0 else (if xs[0] == x then 1 else 0) + Count(xs[1..], x)
  }

  /** The processes a run with that outcome spawns, in order: the unzip, npm i, the login
      with the token, and genezio deploy --stage with the stage. */
  function ExpectedSpawns(p: InputParams, o: ArchiveOutcome): (r: seq<Command>)
    ensures 1 <= |r| <= 4 && r[0] == UnzipCommand
    ensures o == Deployed || o == DeployFailed ==> r[|r| - 1] == Command("genezio", ["deploy", "--stage", p.stage], CodeDir)
  {
    match o
    case InvalidToken => [UnzipCommand]
    case InstallFailed => [UnzipCommand, InstallCommand]
    case LoginFailed => [UnzipCommand, InstallCommand, LoginCommand(p.token)]
    case _ => [UnzipCommand, InstallCommand, LoginCommand(p.token), DeployCommand(p.stage)]
  }

  /** The statuses deployFromArchive itself reports: all but the FAILED runS3Flow adds. */
  function FlowStatuses(o: ArchiveOutcome): (r: seq<Option<string>>)
    ensures o == Deployed ==> r == ExpectedStatuses(o)
    ensures o != Deployed ==> r + [Some("FAILED")] == ExpectedStatuses(o)
  {
    match o
    case InvalidToken => [None, Some("FAILED")]
    case InstallFailed => [None, Some("INSTALLING_DEPS")]
    case LoginFailed => [None, Some("INSTALLING_DEPS"), Some("AUTHENTICATING"), Some("FAILED")]
    case DeployFailed => [None, Some("INSTALLING_DEPS"), Some("AUTHENTICATING"), Some("DEPLOYING"), Some("FAILED")]
    case Deployed => [None, Some("INSTALLING_DEPS"), Some("AUTHENTICATING"), Some("DEPLOYING"), Some("SUCCEEDED")]
  }

  /** A token that passed parseArguments is never rejected by deployFromArchive. */
  lemma ParsedTokenIsValid(argv: seq<string>, run: Command -> ProcessResult)
    requires ParseArguments(argv).Ok?
    ensures OutcomeOf(ParseArguments(argv).value, run) != InvalidToken
  {
  }
  /** `s` is `r` with entries of the given statuses appended to the array, each posted and
      the status file rewritten with the array, and the given processes spawned. */
  ghost predicate Extends(s: Run, r: Run, statuses: seq<Option<string>>, spawns: seq<Command>) {
    && |r.entries| <= |s.entries| && s.entries[..|r.entries|] == r.entries
    && StatusesOf(s.entries[|r.entries|..]) == statuses
    && s.statusFile == s.entries
    && s.posted == r.posted + s.entries[|r.entries|..]
    && s.spawned == r.spawned + spawns
    && s.files == r.files && s.rewritten == r.rewritten
  }

  lemma AddedExtends(r: Run, status: Option<string>, message: string, time: string)
    ensures Extends(Added(r, status, message, time), r, [status], [])
  {
    var a := Added(r, status, message, time);
    assert a.entries[|r.entries|..] == [StatusEntry(status, message, time)];
  }

  lemma SpawnedExtends(r: Run, c: Command)
    requires r.statusFile == r.entries
    ensures Extends(Spawned(r, c), r, [], [c])
  {
    assert r.entries[|r.entries|..] == [];
  }

  lemma StatusesAppend(x: seq<StatusEntry>, y: seq<StatusEntry>)
    ensures StatusesOf(x + y) == StatusesOf(x) + StatusesOf(y)
  {
    var l, rr := StatusesOf(x + y), StatusesOf(x) + StatusesOf(y);
    assert |l| == |rr|;
    forall i | 0 <= i < |l| ensures l[i] == rr[i] {
      if i < |x| {
        assert (x + y)[i] == x[i];
      } else {
        assert (x + y)[i] == y[i - |x|];
      }
    }
  }

  /** Two extensions of an array in a row extend it by both suffixes. */
  lemma EntriesTrans(a: seq<StatusEntry>, b: seq<StatusEntry>, c: seq<StatusEntry>)
    requires |a| <= |b| && b[..|a|] == a && |b| <= |c| && c[..|b|] == b
    ensures |a| <= |c| && c[..|a|] == a && c[|a|..] == b[|a|..] + c[|b|..]
  {
    assert c == b + c[|b|..];
    assert b == a + b[|a|..];
  }

  lemma ExtendsTrans(a: Run, b: Run, c: Run, st1: seq<Option<string>>, sp1: seq<Command>,
                     st2: seq<Option<string>>, sp2: seq<Command>)
    requires Extends(b, a, st1, sp1) && Extends(c, b, st2, sp2)
    ensures Extends(c, a, st1 + st2, sp1 + sp2)
  {
    var x, y := b.entries[|a.entries|..], c.entries[|b.entries|..];
    EntriesTrans(a.entries, b.entries, c.entries);
    StatusesAppend(x, y);
    Associative(a.posted, x, y);
    Associative(a.spawned, sp1, sp2);
  }

  lemma Associative<T>(u: seq<T>, v: seq<T>, w: seq<T>)
    ensures (u + v) + w == u + (v + w)
  {
  }

  lemma PrepareExtends(p: InputParams, r: Run, time: string)
    requires p.token != ""
    ensures S3Prepare(p, r, time).thrown.None?
    ensures Extends(S3Prepare(p, r, time).run, r, [None], [UnzipCommand])
  {
    var a := Added(r, StatusFor("PENDING"), "Starting build from s3 flow", time);
    AddedExtends(r, StatusFor("PENDING"), "Starting build from s3 flow", time);
    SpawnedExtends(a, UnzipCommand);
    ExtendsTrans(r, a, Spawned(a, UnzipCommand), [StatusFor("PENDING")], [], [], [UnzipCommand]);
    StatusTable();
  }

  lemma InstallExtends(run: Command -> ProcessResult, r: Run, time: string)
    ensures S3Install(run, r, time).thrown.None? <==> ExitedCleanly(run(InstallCommand))
    ensures Extends(S3Install(run, r, time).run, r, [Some("INSTALLING_DEPS")], [InstallCommand])
  {
    var a := Added(r, StatusFor("INSTALLING_DEPS"), "Installing dependencies", time);
    AddedExtends(r, StatusFor("INSTALLING_DEPS"), "Installing dependencies", time);
    SpawnedExtends(a, InstallCommand);
    ExtendsTrans(r, a, Spawned(a, InstallCommand), [StatusFor("INSTALLING_DEPS")], [], [], [InstallCommand]);
    StatusTable();
  }

  lemma LoginExtends(p: InputParams, run: Command -> ProcessResult, r: Run, time: string)
    ensures var clean := ExitedCleanly(run(LoginCommand(p.token)));
      && (S3Login(p, run, r, time).thrown.None? <==> clean)
      && Extends(S3Login(p, run, r, time).run, r,
                 [Some("AUTHENTICATING")] + (if clean then [] else [Some("FAILED")]), [LoginCommand(p.token)])
  {
    var result := run(LoginCommand(p.token));
    var a := Added(r, StatusFor("AUTHENTICATING"), "Authenticating with genezio", time);
    var b := Spawned(a, LoginCommand(p.token));
    AddedExtends(r, StatusFor("AUTHENTICATING"), "Authenticating with genezio", time);
    SpawnedExtends(a, LoginCommand(p.token));
    ExtendsTrans(r, a, b, [StatusFor("AUTHENTICATING")], [], [], [LoginCommand(p.token)]);
    StatusTable();
    if !ExitedCleanly(result) {
      AddedExtends(b, Failed, "Failed to login " + result.stderr, time);
      ExtendsTrans(r, b, Added(b, Failed, "Failed to login " + result.stderr, time),
                   [Some("AUTHENTICATING")], [LoginCommand(p.token)], [Failed], []);
    }
  }

  lemma DeployExtends(p: InputParams, run: Command -> ProcessResult, r: Run, time: string)
    ensures var clean := ExitedCleanly(run(DeployCommand(p.stage)));
      && (S3Deploy(p, run, r, time).thrown.None? <==> clean)
      && Extends(S3Deploy(p, run, r, time).run, r,
                 [Some("DEPLOYING"), if clean then Some("SUCCEEDED") else Some("FAILED")], [DeployCommand(p.stage)])
  {
    var result := run(DeployCommand(p.stage));
    var a := Added(r, StatusFor("DEPLOYING"), "Deploying project", time);
    var b := Spawned(a, DeployCommand(p.stage));
    AddedExtends(r, StatusFor("DEPLOYING"), "Deploying project", time);
    SpawnedExtends(a, DeployCommand(p.stage));
    ExtendsTrans(r, a, b, [StatusFor("DEPLOYING")], [], [], [DeployCommand(p.stage)]);
    StatusTable();
    var last := if ExitedCleanly(result) then Succeeded else Failed;
    var message := if ExitedCleanly(result) then "Workflow completed successfully" else "Failed to deploy " + result.stderr;
    AddedExtends(b, last, message, time);
    ExtendsTrans(r, b, Added(b, last, message, time), [Some("DEPLOYING")], [DeployCommand(p.stage)], [last], []);
  }

  /** The statuses from the login on, by whether the login and the deploy exit cleanly. */
  function PublishStatuses(loginOk: bool, deployOk: bool): seq<Option<string>> {
    if !loginOk then [Some("AUTHENTICATING"), Some("FAILED")]
    else [Some("AUTHENTICATING"), Some("DEPLOYING"), if deployOk then Some("SUCCEEDED") else Some("FAILED")]
  }

  function PublishSpawns(p: InputParams, loginOk: bool): seq<Command> {
    if !loginOk then [LoginCommand(p.token)] else [LoginCommand(p.token), DeployCommand(p.stage)]
  }

  lemma PublishExtends(p: InputParams, run: Command -> ProcessResult, r: Run, time: string)
    ensures var loginOk := ExitedCleanly(run(LoginCommand(p.token)));
      var deployOk := ExitedCleanly(run(DeployCommand(p.stage)));
      var s := S3Publish(p, run, r, time);
      && (s.thrown.None? <==> loginOk && deployOk)
      && Extends(s.run, r, PublishStatuses(loginOk, deployOk), PublishSpawns(p, loginOk))
  {
    var loggedIn := S3Login(p, run, r, time);
    LoginExtends(p, run, r, time);
    if loggedIn.thrown.None? {
      DeployExtends(p, run, loggedIn.run, time);
      var last := if ExitedCleanly(run(DeployCommand(p.stage))) then Some("SUCCEEDED") else Some("FAILED");
      ExtendsTrans(r, loggedIn.run, S3Deploy(p, run, loggedIn.run, time).run, [Some("AUTHENTICATING")], [LoginCommand(p.token)],
                   [Some("DEPLOYING"), last], [DeployCommand(p.stage)]);
    }
  }

  lemma BuildExtends(p: InputParams, run: Command -> ProcessResult, r: Run, time: string)
    ensures var installOk := ExitedCleanly(run(InstallCommand));
      var loginOk := ExitedCleanly(run(LoginCommand(p.token)));
      var deployOk := ExitedCleanly(run(DeployCommand(p.stage)));
      var s := S3Build(p, run, r, time);
      && (s.thrown.None? <==> installOk && loginOk && deployOk)
      && Extends(s.run, r, [Some("INSTALLING_DEPS")] + (if installOk then PublishStatuses(loginOk, deployOk) else []),
                 [InstallCommand] + (if installOk then PublishSpawns(p, loginOk) else []))
  {
    var installed := S3Install(run, r, time);
    InstallExtends(run, r, time);
    if installed.thrown.None? {
      var loginOk := ExitedCleanly(run(LoginCommand(p.token)));
      var deployOk := ExitedCleanly(run(DeployCommand(p.stage)));
      PublishExtends(p, run, installed.run, time);
      ExtendsTrans(r, installed.run, S3Publish(p, run, installed.run, time).run, [Some("INSTALLING_DEPS")], [InstallCommand],
                   PublishStatuses(loginOk, deployOk), PublishSpawns(p, loginOk));
    } else {
      assert [Some("INSTALLING_DEPS")] + [] == [Some("INSTALLING_DEPS")];
      assert [InstallCommand] + [] == [InstallCommand];
    }
  }

  /** deployFromArchive, from a parsed token, extends the run by the statuses of its
      outcome up to the FAILED runS3Flow adds, and throws exactly when it did not deploy. */
  lemma S3FlowExtends(p: InputParams, run: Command -> ProcessResult, r: Run, time: string)
    requires p.token != ""
    ensures var o := OutcomeOf(p, run);
      var s := S3Flow(p, run, r, time);
      && (s.thrown.None? <==> o == Deployed)
      && Extends(s.run, r, FlowStatuses(o), ExpectedSpawns(p, o))
  {
    var installOk := ExitedCleanly(run(InstallCommand));
    var loginOk := ExitedCleanly(run(LoginCommand(p.token)));
    var deployOk := ExitedCleanly(run(DeployCommand(p.stage)));
    var prepared := S3Prepare(p, r, time);
    PrepareExtends(p, r, time);
    BuildExtends(p, run, prepared.run, time);
    var st := [Some("INSTALLING_DEPS")] + (if installOk then PublishStatuses(loginOk, deployOk) else []);
    var sp := [InstallCommand] + (if installOk then PublishSpawns(p, loginOk) else []);
    ExtendsTrans(r, prepared.run, S3Build(p, run, prepared.run, time).run, [None], [UnzipCommand], st, sp);
    OutcomeLists(p, OutcomeOf(p, run), installOk, loginOk, deployOk);
    assert S3Flow(p, run, r, time) == S3Build(p, run, prepared.run, time);
  }

  /** The lists of an outcome, assembled stage by stage from the three exit checks. */
  lemma OutcomeLists(p: InputParams, o: ArchiveOutcome, installOk: bool, loginOk: bool, deployOk: bool)
    requires o == if !installOk then InstallFailed else if !loginOk then LoginFailed
                  else if !deployOk then DeployFailed else Deployed
    ensures FlowStatuses(o) == [None] + ([Some("INSTALLING_DEPS")] + (if installOk then PublishStatuses(loginOk, deployOk) else []))
    ensures ExpectedSpawns(p, o) == [UnzipCommand] + ([InstallCommand] + (if installOk then PublishSpawns(p, loginOk) else []))
  {
  }

  /** runS3Flow reports, on the array it shares with deployFromArchive, the statuses that
      the outcome determines, posts each of them, leaves the status file equal to the array
      and spawns the processes of that outcome; an argument error leaves the pod untouched. */
  lemma S3RunReports(argv: seq<string>, run: Command -> ProcessResult, r: Run, time: string)
    ensures ParseArguments(argv).Err? ==> S3Run(argv, run, r, time) == Step(r, Some(ParseArguments(argv).error))
    ensures ParseArguments(argv).Ok? ==>
      var p := ParseArguments(argv).value;
      var o := OutcomeOf(p, run);
      var f := S3Run(argv, run, r, time);
      && f.thrown.None?
      && StatusesOf(f.run.entries) == ExpectedStatuses(o)
      && f.run.statusFile == f.run.entries
      && f.run.posted == r.posted + f.run.entries
      && f.run.spawned == r.spawned + ExpectedSpawns(p, o)
      && f.run.files == r.files && f.run.rewritten == r.rewritten
  {
    if ParseArguments(argv).Ok? {
      var p := ParseArguments(argv).value;
      var o := OutcomeOf(p, run);
      var r0 := r.(entries := []);
      var s := S3Flow(p, run, r0, time);
      S3FlowExtends(p, run, r0, time);
      if o != Deployed {
        AddedExtends(s.run, Failed, s.thrown.value, time);
        StatusTable();
        ExtendsTrans(r0, s.run, Added(s.run, Failed, s.thrown.value, time), FlowStatuses(o), ExpectedSpawns(p, o), [Failed], []);
      }
      var f := S3Run(argv, run, r, time);
      assert f.run.entries[|r0.entries|..] == f.run.entries;
    }
  }
}
