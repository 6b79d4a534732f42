/** The part of an Argo Workflow object the build machine fills in: one template with one
    step that references a cluster template and passes parameters (and optionally an
    artifact). The Argo library type itself is not modelled. */
module ArgoSpec {
  import opened Wrappers

  const ServiceAccount := "argo-workflow"
  const StepName := "genezio-deploy"

  datatype Parameter = Parameter(name: string, value: string)

  /** An input artifact fetched over HTTP; `mode` is the file mode. */
  datatype Artifact = Artifact(name: string, path: string, mode: int, url: string)

  datatype ArgoWorkflow = ArgoWorkflow(
    generateName: string,
    entrypoint: string,
    serviceAccountName: string,
    templateName: string,
    stepName: string,
    templateRefName: string,
    templateRefTemplate: string,
    artifacts: seq<Artifact>,
    parameters: seq<Parameter>)

  /** The three names a renderer chooses by environment. */
  datatype TemplateNames = TemplateNames(templateName: string, templateRef: string, generateName: string)

  /** The environments that select the development templates. */
  predicate IsDevEnv(env: string) {
    env == "dev" || env == "local"
  }

  /** The workflow shape every renderer produces from its names: the entrypoint, the
      template and the referenced template are all the template name. */
  function Assemble(names: TemplateNames, artifacts: seq<Artifact>, parameters: seq<Parameter>): (w: ArgoWorkflow)
    ensures WellShaped(w) && w.templateName == names.templateName
    ensures w.templateRefName == names.templateRef && w.generateName == names.generateName
    ensures w.artifacts == artifacts && w.parameters == parameters
  {
    ArgoWorkflow(names.generateName, names.templateName, ServiceAccount, names.templateName, StepName,
                 names.templateRef, names.templateName, artifacts, parameters)
  }

  predicate WellShaped(w: ArgoWorkflow) {
    && w.entrypoint == w.templateName
    && w.templateRefTemplate == w.templateName
    && w.serviceAccountName == ServiceAccount
    && w.stepName == StepName
  }

  function ParameterNames(ps: seq<Parameter>): (r: seq<string>)
    ensures |r| == |ps| && forall i | 0 <= i < |ps| :: r[i] == ps[i].name
  {
    if ps == [] then [] else [ps[0].name] + ParameterNames(ps[1..])
  }

  /** The value of the first parameter with that name, as Argo resolves `{{inputs.parameters.x}}`. */
  function Lookup(ps: seq<Parameter>, name: string): Option<string> {
    if ps == [] then None
    else if ps[0].name == name then Some(ps[0].value)
    else Lookup(ps[1..], name)
  }

  /** Lookup finds a parameter exactly when one has that name, and then its value. */
  lemma {:induction false} LookupSound(ps: seq<Parameter>, name: string)
    ensures Lookup(ps, name).Some? <==> name in ParameterNames(ps)
    ensures Lookup(ps, name).Some? ==> Parameter(name, Lookup(ps, name).value) in ps
  {
    if ps != [] && ps[0].name != name {
      LookupSound(ps[1..], name);
      assert ParameterNames(ps) == [ps[0].name] + ParameterNames(ps[1..]);
    }
  }

  /** Lookup over a concatenation tries the first part, then the second. */
  lemma {:induction false} LookupAppend(a: seq<Parameter>, b: seq<Parameter>, name: string)
    ensures Lookup(a + b, name) == if Lookup(a, name).Some? then Lookup(a, name) else Lookup(b, name)
  {
    if a != [] {
      assert (a + b)[0] == a[0];
      assert (a + b)[1..] == a[1..] + b;
      LookupAppend(a[1..], b, name);
    } else {
      assert a + b == b;
    }
  }

  /** A name no parameter has is not found. */
  lemma {:induction false} LookupAbsent(ps: seq<Parameter>, name: string)
    requires forall j | 0 <= j < |ps| :: ps[j].name != name
    ensures Lookup(ps, name) == None
  {
    if ps != [] {
      assert forall j | 0 <= j < |ps| - 1 :: ps[1..][j] == ps[j + 1];
      LookupAbsent(ps[1..], name);
    }
  }

  /** A parameter whose name no earlier parameter has is what Lookup finds. */
  lemma {:induction false} LookupAt(ps: seq<Parameter>, i: nat)
    requires i < |ps| && forall j | 0 <= j < i :: ps[j].name != ps[i].name
    ensures Lookup(ps, ps[i].name) == Some(ps[i].value)
  {
    if i > 0 {
      assert ps[1..][i - 1] == ps[i];
      LookupAt(ps[1..], i - 1);
    }
  }
}
