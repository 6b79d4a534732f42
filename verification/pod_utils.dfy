/** Helpers shared by the build-pod scripts (scripts/src/utils.ts): the status table,
    status reporting, cloning, the default configuration file, the import rewrite and the
    dependency-install decision. The pod's observable state is a `Pod` object: its files,
    the status file, the webhook posts and the processes it spawned. */
module PodUtils {
  import opened Wrappers

  /** The `BuildStatus` table of the scripts: key -> reported text. The key SUCCESS
      reports "SUCCEEDED" and there is no PENDING key. */
  const BuildStatus: map<string, string> := map[
    "SCHEDULED" := "SCHEDULED",
    "AUTHENTICATING" := "AUTHENTICATING",
    "PULLING_CODE" := "PULLING_CODE",
    "CREATING_EMPTY_PROJECT" := "CREATING_EMPTY_PROJECT",
    "CREATING_PROJECT" := "CREATING_PROJECT",
    "INSTALLING_DEPS" := "INSTALLING_DEPS",
    "BUILDING" := "BUILDING",
    "DEPLOYING" := "DEPLOYING",
    "DEPLOYING_BACKEND" := "DEPLOYING_BACKEND",
    "DEPLOYING_FRONTEND" := "DEPLOYING_FRONTEND",
    "SUCCESS" := "SUCCEEDED",
    "FAILED" := "FAILED"]

  /** `BuildStatus.<key>`: None stands for JavaScript's `undefined` (a key the table lacks). */
  function StatusFor(key: string): Option<string> {
    if key in BuildStatus then Some(BuildStatus[key]) else None
  }

  /** The table reports every key as itself except SUCCESS, and PENDING is undefined. */
  lemma StatusTable()
    ensures StatusFor("SUCCESS") == Some("SUCCEEDED")
    ensures StatusFor("PENDING") == None
    ensures forall k | k in BuildStatus && k != "SUCCESS" :: BuildStatus[k] == k
  {
  }

  const Succeeded := StatusFor("SUCCESS")
  const Failed := StatusFor("FAILED")

  /** One entry of a status array; `status` is None when the script passed `undefined`. */
  datatype StatusEntry = StatusEntry(status: Option<string>, message: string, time: string)

  /** The statuses of a list of entries, in order. */
  function StatusesOf(entries: seq<StatusEntry>): (r: seq<Option<string>>)
    ensures |r| == |entries| && forall i | 0 <= i < |r| :: r[i] == entries[i].status
  {
    if entries == [] then [] else [entries[0].status] + StatusesOf(entries[1..])
  }

  /** A spawned process: program, arguments and working directory. */
  datatype Command = Command(program: string, args: seq<string>, cwd: string)

  /** What a finished process reports; `code` is None for a null exit code. */
  datatype ProcessResult = ProcessResult(code: Option<int>, stdout: string, stderr: string)

  predicate ExitedCleanly(r: ProcessResult) {
    r.code == Some(0)
  }

  /** `Error(message).toString()`. */
  function Thrown(message: string): string {
    "Error: " + message
  }

  /** A JavaScript template value of an optional string: absent renders as "undefined". */
  function Text(s: Option<string>): string {
    match s
    case Some(v) => v
    case None => "undefined"
  }

  /** JavaScript truthiness of an optional string. */
  predicate Truthy(s: Option<string>) {
    s.Some? && s.value != ""
  }

  /** The webhook URL: the build URL (possibly undefined) followed by "/report". It is
      never empty, so the script's "missing URL" branch cannot be taken. */
  function ReportUrl(buildUrl: Option<string>): (r: string)
    ensures |r| >= 7 && r[|r| - 7..] == "/report"
  {
    Text(buildUrl) + "/report"
  }

  /** `path.join(dir, name)`, without normalisation. */
  function Join(dir: string, name: string): string {
    dir + "/" + name
  }

  /** `p` occurs in `s` at index `i`. */
  predicate OccursAt(s: string, p: string, i: int) {
    0 <= i && i + |p| <= |s| && s[i..i + |p|] == p
  }

  /** `s.includes(p)`. */
  predicate Contains(s: string, p: string) {
    exists i | 0 <= i <= |s| :: OccursAt(s, p, i)
  }

  /** The git arguments of a clone: "--branch" and the branch only for a truthy branch. */
  function CloneArgs(repository: string, branch: Option<string>): (r: seq<string>)
    ensures |r| >= 3 && r[0] == "clone" && r[|r| - 2..] == [repository, "."]
    ensures Truthy(branch) ==> r == ["clone", "--branch", branch.value, repository, "."]
    ensures !Truthy(branch) ==> |r| == 3
  {
    if Truthy(branch) then ["clone", "--branch", branch.value, repository, "."] else ["clone", repository, "."]
  }

  /** The reachability check is skipped for URLs carrying an access token. */
  predicate ChecksReachability(repository: string) {
    !Contains(repository, "x-access-token")
  }

  /** The folder a clone ends up in: the base path is joined only when truthy. */
  function CloneFolder(tmpDir: string, basePath: Option<string>): string {
    if Truthy(basePath) then Join(tmpDir, basePath.value) else tmpDir
  }

  /** What `cloneRepository` returns: the reachability error (network failure or a status
      other than 200), the clone error, or the folder. */
  function CloneOutcome(repository: string, basePath: Option<string>, branch: Option<string>, tmpDir: string,
                        fetch: string -> Option<int>, run: Command -> ProcessResult): Result<string> {
    if ChecksReachability(repository) && fetch(repository) != Some(200) then
      Err(Thrown("Failed to fetch the repository. It may not exist or is private"))
    else
      var r := run(Command("git", CloneArgs(repository, branch), tmpDir));
      if !ExitedCleanly(r) then Err(Thrown("Failed to clone repository " + r.stdout + " " + r.stderr))
      else Ok(CloneFolder(tmpDir, basePath))
  }

  /** A repository URL with an access token is cloned without consulting the network check. */
  lemma TokenUrlSkipsReachability(repository: string, basePath: Option<string>, branch: Option<string>, tmpDir: string,
                                  fetch1: string -> Option<int>, fetch2: string -> Option<int>, run: Command -> ProcessResult)
    requires Contains(repository, "x-access-token")
    ensures CloneOutcome(repository, basePath, branch, tmpDir, fetch1, run)
         == CloneOutcome(repository, basePath, branch, tmpDir, fetch2, run)
  {
  }

  /** The default genezio.yaml. */
  function ConfigContent(projectName: Option<string>, region: Option<string>): string {
    "name: " + Text(projectName) + "\nregion: " + Text(region) + "\nyamlVersion: 2\n"
  }

  /** The default configuration determines the name and region it was made from, as long
      as neither holds a line break. */
  lemma {:induction false} ConfigContentInjective(n1: string, r1: string, n2: string, r2: string)
    requires '\n' !in n1 && '\n' !in n2
    requires ConfigContent(Some(n1), Some(r1)) == ConfigContent(Some(n2), Some(r2))
    ensures n1 == n2 && r1 == r2
  {
    var c1, c2 := ConfigContent(Some(n1), Some(r1)), ConfigContent(Some(n2), Some(r2));
    // the first line break sits right after the name in both
    assert c1[6 + |n1|] == '\n' == c2[6 + |n2|];
    assert |n1| == |n2|;
    assert n1 == c1[6..6 + |n1|] == c2[6..6 + |n2|] == n2;
    assert r1 == c1[6 + |n1| + 9..|c1| - 16] == c2[6 + |n2| + 9..|c2| - 16] == r2;
  }

  /** The text a string replacement stands for at one match (GetSubstitution, section
      22.1.3.19.1 of ECMA-262, for a string pattern, which has no captures): "$$" is "$",
      "$&" the match, "$`" the text before it and "$'" the text after it; any other
      character, a "$" starting anything else included, stands for itself. */
  function Substitution(v: string, matched: string, before: string, after: string): string
    decreases |v|
  {
    if v == [] then []
    else if |v| >= 2 && v[0] == '$' && v[1] == '$' then "$" + Substitution(v[2..], matched, before, after)
    else if |v| >= 2 && v[0] == '$' && v[1] == '&' then matched + Substitution(v[2..], matched, before, after)
    else if |v| >= 2 && v[0] == '$' && v[1] == '`' then before + Substitution(v[2..], matched, before, after)
    else if |v| >= 2 && v[0] == '$' && v[1] == '\'' then after + Substitution(v[2..], matched, before, after)
    else [v[0]] + Substitution(v[1..], matched, before, after)
  }

  /** A replacement without "$" stands for itself. */
  lemma {:induction false} SubstitutionLiteral(v: string, matched: string, before: string, after: string)
    requires '$' !in v
    ensures Substitution(v, matched, before, after) == v
    decreases |v|
  {
    if v != [] {
      assert v[0] != '$' && '$' !in v[1..];
      SubstitutionLiteral(v[1..], matched, before, after);
      assert v == [v[0]] + v[1..];
    }
  }

  /** `s.replaceAll(p, v)`: the occurrences of `p` in `s`, found left to right without
      overlap, each replaced by the substitution of `v` at it; an empty pattern matches
      before every character and at the end. */
  function ReplaceAll(s: string, p: string, v: string): string {
    if p == "" then ReplaceEmpty(s, v, 0) else ReplaceFrom(s, p, v, 0)
  }

  /** The substitution of `v` for the occurrence `s[i..j]`. */
  function Inserted(v: string, s: string, i: nat, j: nat): string
    requires i <= j <= |s|
  {
    Substitution(v, s[i..j], s[..i], s[j..])
  }

  /** replaceAll with the empty pattern, from index `i` of `s` on: the substitution before
      every character and at the end. */
  function ReplaceEmpty(s: string, v: string, i: nat): string
    requires i <= |s|
    decreases |s| - i
  {
    Substitution(v, "", s[..i], s[i..]) + (if i == |s| then "" else [s[i]] + ReplaceEmpty(s, v, i + 1))
  }

  /** replaceAll with a non-empty pattern, from index `i` of `s` on. */
  function ReplaceFrom(s: string, p: string, v: string, i: nat): string
    requires p != "" && i <= |s|
    decreases |s| - i
  {
    if |s| - i < |p| then s[i..]
    else if s[i..i + |p|] == p then Inserted(v, s, i, i + |p|) + ReplaceFrom(s, p, v, i + |p|)
    else [s[i]] + ReplaceFrom(s, p, v, i + 1)
  }

  /** Replacing a pattern by itself changes nothing, as long as the pattern holds no "$". */
  lemma ReplaceAllSelf(s: string, p: string)
    requires '$' !in p
    ensures ReplaceAll(s, p, p) == s
  {
    if p == "" {
      EmptyPatternKeeps(s, 0);
    } else {
      forall before, after ensures Substitution(p, p, before, after) == p {
        SubstitutionLiteral(p, p, before, after);
      }
      ReplaceFromSelf(s, p, p, 0);
    }
  }

  /** From `i` on, a replacement that substitutes to the pattern everywhere puts back what it finds. */
  lemma {:induction false} ReplaceFromSelf(s: string, p: string, v: string, i: nat)
    requires p != "" && i <= |s|
    requires forall before, after :: Substitution(v, p, before, after) == p
    ensures ReplaceFrom(s, p, v, i) == s[i..]
    decreases |s| - i
  {
    if |s| - i >= |p| {
      if s[i..i + |p|] == p {
        ReplaceFromSelf(s, p, v, i + |p|);
        MatchKept(s, p, v, i);
      } else {
        ReplaceFromSelf(s, p, v, i + 1);
        MismatchKept(s, p, v, i);
      }
    }
  }

  /** An occurrence put back, followed by the rest kept, keeps the text from `i`. */
  lemma MatchKept(s: string, p: string, v: string, i: nat)
    requires p != "" && i + |p| <= |s| && s[i..i + |p|] == p
    requires Inserted(v, s, i, i + |p|) == p
    requires ReplaceFrom(s, p, v, i + |p|) == s[i + |p|..]
    ensures ReplaceFrom(s, p, v, i) == s[i..]
  {
    assert s[i..] == s[i..i + |p|] + s[i + |p|..];
  }

  /** A character copied where the pattern does not occur, followed by the rest kept,
      keeps the text from `i`. */
  lemma MismatchKept(s: string, p: string, v: string, i: nat)
    requires p != "" && i + |p| <= |s| && s[i..i + |p|] != p
    requires ReplaceFrom(s, p, v, i + 1) == s[i + 1..]
    ensures ReplaceFrom(s, p, v, i) == s[i..]
  {
    assert s[i..] == [s[i]] + s[i + 1..];
  }

  /** The empty pattern replaced by itself inserts nothing. */
  lemma {:induction false} EmptyPatternKeeps(s: string, i: nat)
    requires i <= |s|
    ensures ReplaceEmpty(s, "", i) == s[i..]
    decreases |s| - i
  {
    if i < |s| {
      EmptyPatternKeeps(s, i + 1);
      assert s[i..] == [s[i]] + s[i + 1..];
    }
  }

  /** A name holding "$$" is not kept by replacing it with itself: "$$" becomes "$". */
  lemma DollarNameIsRewritten()
    ensures ReplaceAll("a$$b", "a$$b", "a$$b") == "a$b"
  {
    var s := "a$$b";
    assert s[0..4] == s;
    assert Substitution("b", s, "", "") == "b";
    assert Substitution("$$b", s, "", "") == "$b";
    assert ReplaceFrom(s, s, s, 4) == "";
  }

  /** A text without the (non-empty) pattern is left as it is, whatever the replacement. */
  lemma ReplaceAllAbsent(s: string, p: string, v: string)
    requires p != "" && !Contains(s, p)
    ensures ReplaceAll(s, p, v) == s
  {
    ReplaceFromAbsent(s, p, v, 0);
  }

  lemma {:induction false} ReplaceFromAbsent(s: string, p: string, v: string, i: nat)
    requires p != "" && !Contains(s, p) && i <= |s|
    ensures ReplaceFrom(s, p, v, i) == s[i..]
    decreases |s| - i
  {
    if |s| - i >= |p| {
      assert !OccursAt(s, p, i);
      ReplaceFromAbsent(s, p, v, i + 1);
      assert s[i..] == [s[i]] + s[i + 1..];
    }
  }

  /** The replacement pairs applied left to right, each with replaceAll. */
  function ApplyReplacements(content: string, pairs: seq<(string, string)>): string
    decreases |pairs|
  {
    if pairs == [] then content else ApplyReplacements(ReplaceAll(content, pairs[0].0, pairs[0].1), pairs[1..])
  }

  /** Pairs that replace each "$"-free pattern by itself leave every text unchanged. */
  lemma {:induction false} IdentityReplacements(content: string, pairs: seq<(string, string)>)
    requires forall i | 0 <= i < |pairs| :: pairs[i].0 == pairs[i].1 && '$' !in pairs[i].1
    ensures ApplyReplacements(content, pairs) == content
    decreases |pairs|
  {
    if pairs != [] {
      ReplaceAllSelf(content, pairs[0].0);
      IdentityReplacements(content, pairs[1..]);
    }
  }

  /** The files a recursive walk from `root` visits: `root` itself and everything below it. */
  predicate Under(root: string, path: string) {
    path == root || (|root| + 1 <= |path| && path[..|root| + 1] == root + "/")
  }

  /** The files after the replacements were applied to every file under `root`. */
  function Replaced(files: map<string, string>, root: string, pairs: seq<(string, string)>): map<string, string> {
    map k | k in files :: if Under(root, k) then ApplyReplacements(files[k], pairs) else files[k]
  }

  /** The files under `root` whose content the replacements change. */
  function Changed(files: map<string, string>, root: string, pairs: seq<(string, string)>): set<string> {
    set k | k in files && Under(root, k) && ApplyReplacements(files[k], pairs) != files[k]
  }

  /** The single pair `replaceGenezioImports` applies: the SDK import of the old name
      becomes the import of the new one. */
  function ImportPairs(oldName: string, projectName: string): seq<(string, string)> {
    [("@genezio-sdk/" + oldName, "@genezio-sdk/" + projectName)]
  }

  /** The YAML library, as functions: the name field of a genezio.yaml (an error when it
      does not parse; None when it has no name), and the document with name and region set. */
  datatype YamlCodec = YamlCodec(nameOf: string -> Result<Option<string>>, withNameRegion: (string, string, string) -> string)

  /** What `replaceGenezioImports` does to the files: the new files and the files the
      import rewrite wrote back, or its error. */
  function ImportsRewritten(files: map<string, string>, projectName: Option<string>, region: Option<string>,
                            dir: string, yaml: YamlCodec): Result<(map<string, string>, set<string>)> {
    var yamlPath := Join(dir, "genezio.yaml");
    if !(Truthy(projectName) && Truthy(region)) then Ok((files, {}))
    else if yamlPath !in files || yaml.nameOf(files[yamlPath]).Err? then Err(Thrown("Failed to update genezio.yaml"))
    else
      var oldName := Text(yaml.nameOf(files[yamlPath]).value);
      var updated := files[yamlPath := yaml.withNameRegion(files[yamlPath], projectName.value, region.value)];
      var pairs := ImportPairs(oldName, projectName.value);
      Ok((Replaced(updated, dir, pairs), Changed(updated, dir, pairs)))
  }

  /** When the configuration already carries the project's name, and that name holds no
      "$", only genezio.yaml can change. */
  lemma SameNameOnlyRewritesConfig(files: map<string, string>, projectName: string, region: string,
                                   dir: string, yaml: YamlCodec)
    requires projectName != "" && region != "" && '$' !in projectName
    requires Join(dir, "genezio.yaml") in files
    requires yaml.nameOf(files[Join(dir, "genezio.yaml")]) == Ok(Some(projectName))
    ensures ImportsRewritten(files, Some(projectName), Some(region), dir, yaml)
         == Ok((files[Join(dir, "genezio.yaml") := yaml.withNameRegion(files[Join(dir, "genezio.yaml")], projectName, region)], {}))
  {
    var yamlPath := Join(dir, "genezio.yaml");
    var f := files[yamlPath := yaml.withNameRegion(files[yamlPath], projectName, region)];
    var pairs := ImportPairs(projectName, projectName);
    assert '$' !in pairs[0].1 by {
      assert pairs[0].1 == "@genezio-sdk/" + projectName;
    }
    forall k | k in f ensures ApplyReplacements(f[k], pairs) == f[k] {
      IdentityReplacements(f[k], pairs);
    }
    assert Replaced(f, dir, pairs) == f;
    assert Changed(f, dir, pairs) == {};
  }

  /** Dependencies are installed when a Next.js configuration exists or package.json
      depends on next; an unreadable package.json is an error. */
  function NeedsInstall(files: map<string, string>, dir: string, dependsOnNext: string -> Result<bool>): Result<bool> {
    var pkg := Join(dir, "package.json");
    if pkg in files && dependsOnNext(files[pkg]).Err? then Err(dependsOnNext(files[pkg]).error)
    else Ok(Join(dir, "next.config.js") in files || Join(dir, "next.config.mjs") in files
            || (pkg in files && dependsOnNext(files[pkg]).value))
  }

  /** A status array of a script. */
  class StatusArray {
    var entries: seq<StatusEntry>

    constructor ()
      ensures entries == []
    {
      entries := [];
    }
  }

  /** Everything about a pod that a script run changes, as one value. */
  datatype Run = Run(files: map<string, string>, rewritten: set<string>, spawned: seq<Command>,
                     statusFile: seq<StatusEntry>, posted: seq<StatusEntry>, entries: seq<StatusEntry>)

  /** A run after `addStatus` on the array whose entries the run holds: the entry is
      appended, posted to the webhook, and the array becomes the status file. */
  function Added(r: Run, status: Option<string>, message: string, time: string): (r': Run)
    ensures r'.entries == r.entries + [StatusEntry(status, message, time)]
    ensures r'.posted == r.posted + [StatusEntry(status, message, time)]
    ensures r'.statusFile == r'.entries
    ensures r'.files == r.files && r'.rewritten == r.rewritten && r'.spawned == r.spawned
  {
    var e := StatusEntry(status, message, time);
    r.(entries := r.entries + [e], posted := r.posted + [e], statusFile := r.entries + [e])
  }

  function Spawned(r: Run, c: Command): Run {
    r.(spawned := r.spawned + [c])
  }

  /** A step of a script: the run after it and the error it threw, if any. */
  datatype Step = Step(run: Run, thrown: Option<string>)

  /** The processes `cloneRepository` spawns: none when the reachability check fails,
      otherwise the git clone into the temporary folder. */
  function CloneSpawns(repository: string, branch: Option<string>, tmpDir: string,
                       fetch: string -> Option<int>): seq<Command> {
    if ChecksReachability(repository) && fetch(repository) != Some(200) then []
    else [Command("git", CloneArgs(repository, branch), tmpDir)]
  }

  /** The files after `writeConfigurationFileIfNeeded`, or its error. */
  function ConfigWritten(files: map<string, string>, dir: string, projectName: Option<string>, region: Option<string>,
                         writeSucceeds: bool): (r: Result<map<string, string>>)
    ensures Join(dir, "genezio.yaml") in files ==> r == Ok(files)
    ensures r.Ok? ==> Join(dir, "genezio.yaml") in r.value
    ensures r.Ok? ==> forall k | k in files :: k in r.value && r.value[k] == files[k]
  {
    var yamlPath := Join(dir, "genezio.yaml");
    if yamlPath in files then Ok(files)
    else if !writeSucceeds then Err(Thrown("Failed to create genezio.yaml"))
    else Ok(files[yamlPath := ConfigContent(projectName, region)])
  }

  /** The run after `checkAndInstallDeps`, and its error. */
  function InstallStep(r: Run, dir: string, dependsOnNext: string -> Result<bool>, time: string): Step {
    match NeedsInstall(r.files, dir, dependsOnNext)
    case Err(e) => Step(r, Some(e))
    case Ok(false) => Step(r, None)
    case Ok(true) =>
      Step(Spawned(Added(r, StatusFor("INSTALLING_DEPS"), "Installing dependencies for next", time),
                   Command("npm", ["i"], dir)), None)
  }

  /** INSTALLING_DEPS is reported exactly when the install is needed, and nothing else is. */
  lemma InstallReportsOnlyWhenNeeded(r: Run, dir: string, dependsOnNext: string -> Result<bool>, time: string)
    ensures var s := InstallStep(r, dir, dependsOnNext, time);
      && s.run.files == r.files
      && (s.thrown.None? <==> NeedsInstall(r.files, dir, dependsOnNext).Ok?)
      && (NeedsInstall(r.files, dir, dependsOnNext) == Ok(true) ==>
            StatusesOf(s.run.entries) == StatusesOf(r.entries) + [Some("INSTALLING_DEPS")])
      && (NeedsInstall(r.files, dir, dependsOnNext) != Ok(true) ==> s.run == r)
  {
    var e := StatusEntry(StatusFor("INSTALLING_DEPS"), "Installing dependencies for next", time);
    assert StatusesOf(r.entries + [e]) == StatusesOf(r.entries) + [e.status];
  }

  /** A build pod: its file system (the cloned or unpacked project), the files the import
      rewrite wrote, the processes spawned, the status file and the webhook posts. */
  class Pod {
    var files: map<string, string>
    var rewritten: set<string>
    var spawned: seq<Command>
    var statusFile: seq<StatusEntry>
    var posted: seq<StatusEntry>
    const reportUrl: string

    constructor (files: map<string, string>, buildUrl: Option<string>)
      ensures this.files == files && rewritten == {} && spawned == [] && statusFile == [] && posted == []
      ensures reportUrl == ReportUrl(buildUrl)
    {
      this.files := files;
      rewritten := {};
      spawned := [];
      statusFile := [];
      posted := [];
      reportUrl := ReportUrl(buildUrl);
    }

    /** The pod together with the entries of a status array. */
    function State(entries: seq<StatusEntry>): Run
      reads this
    {
      Run(files, rewritten, spawned, statusFile, posted, entries)
    }

    /** The pod together with one status array. */
    function Current(statusArray: StatusArray): Run
      reads this, statusArray
    {
      State(statusArray.entries)
    }

    /** addStatus: push one entry, post it, rewrite the status file with the array. */
    method AddStatus(status: Option<string>, message: string, time: string, statusArray: StatusArray)
      modifies this`statusFile, this`posted, statusArray
      ensures Current(statusArray) == Added(old(Current(statusArray)), status, message, time)
    {
      var entry := StatusEntry(status, message, time);
      statusArray.entries := statusArray.entries + [entry];
      posted := posted + [entry];
      statusFile := statusArray.entries;
    }

    /** runNewProcessWithResult: the process is recorded and its result returned. */
    method Spawn(c: Command, run: Command -> ProcessResult) returns (r: ProcessResult)
      modifies this`spawned
      ensures spawned == old(spawned) + [c] && r == run(c)
    {
      spawned := spawned + [c];
      r := run(c);
    }

    /** cloneRepository: the reachability check unless the URL carries a token, then
        the clone into the temporary folder, then the base path. */
    method CloneRepository(repository: string, basePath: Option<string>, branch: Option<string>, tmpDir: string,
                           fetch: string -> Option<int>, run: Command -> ProcessResult) returns (r: Result<string>)
      modifies this`spawned
      ensures r == CloneOutcome(repository, basePath, branch, tmpDir, fetch, run)
      ensures spawned == old(spawned) + CloneSpawns(repository, branch, tmpDir, fetch)
    {
      var folder := tmpDir;
      if ChecksReachability(repository) {
        var status := fetch(repository);
        if status.None? || status.value != 200 {
          return Err(Thrown("Failed to fetch the repository. It may not exist or is private"));
        }
      }
      var args := if Truthy(branch) then ["clone", "--branch", branch.value, repository, "."]
                  else ["clone", repository, "."];
      assert args == CloneArgs(repository, branch);
      var result := Spawn(Command("git", args, folder), run);
      if result.code != Some(0) {
        return Err(Thrown("Failed to clone repository " + result.stdout + " " + result.stderr));
      }
      if basePath.Some? && |basePath.value| > 0 {
        folder := Join(folder, basePath.value);
      }
      return Ok(folder);
    }

    /** writeConfigurationFileIfNeeded: genezio.yaml is created only when absent. */
    method WriteConfigurationFileIfNeeded(dir: string, projectName: Option<string>, region: Option<string>,
                                          writeSucceeds: bool) returns (err: Option<string>)
      modifies this`files
      ensures match ConfigWritten(old(files), dir, projectName, region, writeSucceeds)
              case Ok(f) => files == f && err == None
              case Err(e) => files == old(files) && err == Some(e)
    {
      var yamlPath := Join(dir, "genezio.yaml");
      if yamlPath !in files {
        var content := "name: " + Text(projectName) + "\nregion: " + Text(region) + "\nyamlVersion: 2\n";
        if !writeSucceeds {
          return Some(Thrown("Failed to create genezio.yaml"));
        }
        files := files[yamlPath := content];
      }
      return None;
    }

    /** recursiveReplace: every file under `root` gets the pairs applied, and is written
        back only when its content changed. */
    method RecursiveReplace(root: string, pairs: seq<(string, string)>)
      modifies this`files, this`rewritten
      ensures files == Replaced(old(files), root, pairs)
      ensures rewritten == old(rewritten) + Changed(old(files), root, pairs)
    {
      ghost var files0, rewritten0 := files, rewritten;
      ghost var target, changed := Replaced(files, root, pairs), Changed(files, root, pairs);
      var pending := set k | k in files && Under(root, k);
      ghost var visited: set<string> := {};
      while pending != {}
        invariant pending + visited == set k | k in files0 && Under(root, k)
        invariant pending !! visited
        invariant files.Keys == files0.Keys
        invariant forall k | k in files :: files[k] == if k in visited then target[k] else files0[k]
        invariant rewritten == rewritten0 + changed * visited
        decreases pending
      {
        var path :| path in pending;
        var content := files[path];
        var newContent := ApplyReplacements(content, pairs);
        if newContent != content {
          files := files[path := newContent];
          rewritten := rewritten + {path};
        }
        pending := pending - {path};
        visited := visited + {path};
      }
      assert visited == set k | k in files0 && Under(root, k);
    }

    /** replaceGenezioImports: with a truthy project name and region, genezio.yaml gets the
        new name and region and the old SDK import is rewritten in every file of the project. */
    method ReplaceGenezioImports(projectName: Option<string>, region: Option<string>, dir: string, yaml: YamlCodec)
      returns (err: Option<string>)
      modifies this`files, this`rewritten
      ensures match ImportsRewritten(old(files), projectName, region, dir, yaml)
              case Ok(f) => files == f.0 && rewritten == old(rewritten) + f.1 && err == None
              case Err(e) => files == old(files) && rewritten == old(rewritten) && err == Some(e)
    {
      if Truthy(projectName) && Truthy(region) {
        var yamlPath := Join(dir, "genezio.yaml");
        if yamlPath !in files {
          return Some(Thrown("Failed to update genezio.yaml"));
        }
        var yamlContent := files[yamlPath];
        var parsed := yaml.nameOf(yamlContent);
        if parsed.Err? {
          return Some(Thrown("Failed to update genezio.yaml"));
        }
        var oldName := Text(parsed.value);
        files := files[yamlPath := yaml.withNameRegion(yamlContent, projectName.value, region.value)];
        RecursiveReplace(dir, [("@genezio-sdk/" + oldName, "@genezio-sdk/" + projectName.value)]);
      }
      return None;
    }

    /** checkAndInstallDeps: the flag is raised by a Next.js configuration file or by a
        next dependency in package.json; only then INSTALLING_DEPS is reported and npm runs.
        The install's own result is ignored and the answer is always true. */
    method CheckAndInstallDeps(dir: string, statusArray: StatusArray, dependsOnNext: string -> Result<bool>,
                               run: Command -> ProcessResult, time: string) returns (r: Result<bool>)
      modifies this`statusFile, this`posted, this`spawned, statusArray
      ensures var s := InstallStep(old(Current(statusArray)), dir, dependsOnNext, time);
        && Current(statusArray) == s.run
        && (s.thrown.Some? ==> r == Err(s.thrown.value))
        && (s.thrown.None? ==> r == Ok(true))
    {
      var shouldInstallDeps := false;
      if Join(dir, "next.config.js") in files || Join(dir, "next.config.mjs") in files {
        shouldInstallDeps := true;
      }
      if Join(dir, "package.json") in files {
        var packageJson := dependsOnNext(files[Join(dir, "package.json")]);
        if packageJson.Err? {
          return Err(packageJson.error);
        }
        if packageJson.value {
          shouldInstallDeps := true;
        }
      }
      if shouldInstallDeps {
        AddStatus(StatusFor("INSTALLING_DEPS"), "Installing dependencies for next", time, statusArray);
        var _ := Spawn(Command("npm", ["i"], dir), run);
      }
      return Ok(true);
    }
  }
}
