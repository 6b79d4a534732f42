/** Request validation and the small string rules of the HTTP controller
    (api/controller/deployments.go). Decoding, zipping, uploading and the calls into the
    workflow service are I/O and are not part of this model. */
module Deployments {
  import opened Wrappers
  import opened Checks

  /** Body of a deploy-from-S3 request; a nil code map is None. */
  datatype S3Body = S3Body(
    token: string,
    code: Option<map<string, string>>,
    projectName: string,
    region: string,
    stage: Option<string>,
    basePath: Option<string>)

  /** Body of a deploy-from-GitHub or empty-project request; projectName and region may
      be nil in the source, so presence and emptiness differ. */
  datatype RepositoryBody = RepositoryBody(
    token: string,
    repository: string,
    projectName: Option<string>,
    region: Option<string>,
    basePath: Option<string>,
    stack: seq<string>)

  /** Number of entries of a code map, a nil map having none. */
  function CodeSize(code: Option<map<string, string>>): nat {
    if code.None? then 0 else |code.value|
  }

  /** The checks of DeployFromS3Workflow: region, projectName, token, then a non-empty code map. */
  function S3BodyChecks(body: S3Body): seq<Check> {
    [Check(body.region != "", "region is required"),
     Check(body.projectName != "", "projectName is required"),
     Check(body.token != "", "token is required"),
     Check(CodeSize(body.code) != 0, "code is required")]
  }

  /** The checks of DeployFromGithubWorkflow and DeployEmptyProjectWorkflow: repository and
      token must be non-empty, projectName and region only present. */
  function RepositoryBodyChecks(body: RepositoryBody): seq<Check> {
    [Check(body.repository != "", "repository is required"),
     Check(body.token != "", "token is required"),
     Check(body.projectName.Some?, "projectName is required"),
     Check(body.region.Some?, "region is required")]
  }

  /** An S3 body passes exactly when all four fields are there, and an empty code map is
      rejected like a missing one. */
  lemma S3BodyRules(body: S3Body)
    ensures FirstFailure(S3BodyChecks(body)).Pass?
        <==> body.region != "" && body.projectName != "" && body.token != "" && body.code.Some? && body.code.value != map[]
    ensures body.region == "" ==> FirstFailure(S3BodyChecks(body)) == Fail("region is required")
    ensures body.region != "" && body.projectName == "" ==> FirstFailure(S3BodyChecks(body)) == Fail("projectName is required")
    ensures body.region != "" && body.projectName != "" && body.token == "" ==> FirstFailure(S3BodyChecks(body)) == Fail("token is required")
  {
    var c := S3BodyChecks(body);
    if body.region == "" {
      FirstFailureIgnoresLaterChecks([], c[0], c[1..]);
      assert [] + [c[0]] + c[1..] == c;
    } else if body.projectName == "" {
      FirstFailureIgnoresLaterChecks(c[..1], c[1], c[2..]);
      assert c[..1] + [c[1]] + c[2..] == c;
    } else if body.token == "" {
      FirstFailureIgnoresLaterChecks(c[..2], c[2], c[3..]);
      assert c[..2] + [c[2]] + c[3..] == c;
    } else {
      assert !c[3].passes <==> CodeSize(body.code) == 0;
      if body.code.Some? && |body.code.value| == 0 {
        assert body.code.value == map[];
      }
    }
  }

  /** A GitHub or empty-project body passes exactly when repository and token are
      non-empty and projectName and region are present, even as empty strings. */
  lemma RepositoryBodyRules(body: RepositoryBody)
    ensures FirstFailure(RepositoryBodyChecks(body)).Pass?
        <==> body.repository != "" && body.token != "" && body.projectName.Some? && body.region.Some?
    ensures body.repository == "" ==> FirstFailure(RepositoryBodyChecks(body)) == Fail("repository is required")
    ensures body.repository != "" && body.token == "" ==> FirstFailure(RepositoryBodyChecks(body)) == Fail("token is required")
    ensures body.repository != "" && body.token != "" && body.projectName.None? ==>
              FirstFailure(RepositoryBodyChecks(body)) == Fail("projectName is required")
  {
    var c := RepositoryBodyChecks(body);
    if body.repository == "" {
      FirstFailureIgnoresLaterChecks([], c[0], c[1..]);
      assert [] + [c[0]] + c[1..] == c;
    } else if body.token == "" {
      FirstFailureIgnoresLaterChecks(c[..1], c[1], c[2..]);
      assert c[..1] + [c[1]] + c[2..] == c;
    } else if body.projectName.None? {
      FirstFailureIgnoresLaterChecks(c[..2], c[2], c[3..]);
      assert c[..2] + [c[2]] + c[3..] == c;
    } else {
      assert body.region.None? ==> !c[3].passes;
    }
  }

  /** The stage of an S3 deployment: "prod" unless one was given. */
  function StageOrDefault(stage: Option<string>): (r: string)
    ensures stage.Some? ==> r == stage.value
    ensures stage.None? ==> r == "prod"
  {
    if stage.Some? then stage.value else "prod"
  }

  /** A run of n slashes. */
  function Slashes(n: nat): (r: string)
    ensures |r| == n && forall i | 0 <= i < n :: r[i] == '/'
  {
    if n == 0 then "" else "/" + Slashes(n - 1)
  }

  /** strings.TrimLeft(path, "/"): the path without any of its leading slashes. */
  function TrimLeadingSlashes(path: string): (r: string)
    ensures exists n: nat :: n <= |path| && path == Slashes(n) + r
    ensures r == [] || r[0] != '/'
    decreases |path|
  {
    if path != [] && path[0] == '/' then
      var r := TrimLeadingSlashes(path[1..]);
      ghost var n: nat :| n <= |path[1..]| && path[1..] == Slashes(n) + r;
      assert path == Slashes(n + 1) + r;
      r
    else
      assert path == Slashes(0) + path;
      path
  }

  /** Trimming twice is trimming once, and a path without a leading slash is kept. */
  lemma TrimIdempotent(path: string)
    ensures TrimLeadingSlashes(TrimLeadingSlashes(path)) == TrimLeadingSlashes(path)
    ensures (path == [] || path[0] != '/') ==> TrimLeadingSlashes(path) == path
  {
  }

  /** Leading slashes added in front of a key are all removed again. */
  lemma {:induction false} TrimRemovesAddedSlashes(n: nat, key: string)
    requires key == [] || key[0] != '/'
    ensures TrimLeadingSlashes(Slashes(n) + key) == key
  {
    if n > 0 {
      assert (Slashes(n) + key)[1..] == Slashes(n - 1) + key;
      TrimRemovesAddedSlashes(n - 1, key);
    }
  }

  /** The regional bucket: "<base>-<region>". */
  function BucketName(baseName: string, region: string): (r: string)
    ensures |r| == |baseName| + 1 + |region|
    ensures r[..|baseName|] == baseName && r[|baseName|] == '-' && r[|baseName| + 1..] == region
  {
    baseName + "-" + region
  }

  /** strings.Join(items, sep). */
  function Join(items: seq<string>, sep: char): string {
    if items == [] then ""
    else if |items| == 1 then items[0]
    else items[0] + [sep] + Join(items[1..], sep)
  }

  /** strings.Split(s, sep), which gives one item for the empty string. */
  function Split(s: string, sep: char): (r: seq<string>)
    ensures |r| >= 1
    decreases |s|
  {
    if s == [] then [""]
    else if s[0] == sep then [""] + Split(s[1..], sep)
    else
      var rest := Split(s[1..], sep);
      [[s[0]] + rest[0]] + rest[1..]
  }

  /** The stack sent to the empty-project workflow: the names joined with ",", or nothing
      for an empty stack. */
  function StackCsv(stack: seq<string>): (r: Option<string>)
    ensures r.None? <==> stack == []
  {
    if |stack| > 0 then Some(Join(stack, ',')) else None
  }

  /** Splitting the CSV gives the stack back when no name contains a comma. */
  lemma StackCsvRoundTrip(stack: seq<string>)
    requires stack != []
    requires forall i, j | 0 <= i < |stack| && 0 <= j < |stack[i]| :: stack[i][j] != ','
    ensures Split(StackCsv(stack).value, ',') == stack
  {
    SplitJoin(stack, ',');
  }

  lemma {:induction false} SplitJoin(items: seq<string>, sep: char)
    requires items != []
    requires forall i, j | 0 <= i < |items| && 0 <= j < |items[i]| :: items[i][j] != sep
    ensures Split(Join(items, sep), sep) == items
    decreases |items|
  {
    if |items| == 1 {
      SplitWithoutSeparator(items[0], sep, []);
      assert items[0] + [] == items[0];
      assert Join(items, sep) == items[0];
      assert [items[0]] == items;
    } else {
      SplitJoin(items[1..], sep);
      SplitWithoutSeparator(items[0], sep, [sep] + Join(items[1..], sep));
      assert items[0] + [sep] + Join(items[1..], sep) == items[0] + ([sep] + Join(items[1..], sep));
      assert [items[0]] + items[1..] == items;
    }
  }

  /** A separator-free prefix is glued onto the first piece of what follows it. */
  lemma {:induction false} SplitWithoutSeparator(word: string, sep: char, rest: string)
    requires forall j | 0 <= j < |word| :: word[j] != sep
    requires rest == [] || rest[0] == sep
    ensures rest == [] ==> Split(word + rest, sep) == [word]
    ensures rest != [] ==> Split(word + rest, sep) == [word] + Split(rest[1..], sep)
    decreases |word|
  {
    if word == [] {
      assert word + rest == rest;
    } else {
      SplitWithoutSeparator(word[1..], sep, rest);
      assert (word + rest)[1..] == word[1..] + rest;
      assert [word[0]] + word[1..] == word;
    }
  }
}
