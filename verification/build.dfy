/**
 The fleet build of builder.go: every deployment of the environment is
 resolved and built in turn, and each one that succeeds adds a line to the
 `deploy-all` script; the first failure stops the build and is returned.
 What building one deployment does on disk is an oracle: `io` maps a
 deployment id to the error its file operations report, if any.
 */
module Build {
  import opened Results
  import opened Model
  import opened Seqs
  import opened Text
  import opened Resolver

  // ------------------------------------------------------------ Chart.yaml

  /** The chart file of one deployment: `name: <id>`. */
  function ChartYaml(deploymentId: string): (r: string)
    ensures HasPrefix(r, "name: ")
    ensures r[6..] == deploymentId
  {
    "name: " + deploymentId
  }

  /** Read as YAML, the chart names the deployment (for an id on one line). */
  lemma {:induction false} ChartYamlReadBack(deploymentId: string)
    requires '\n' !in deploymentId
    ensures Lookup(ChartYaml(deploymentId), "name") == Some(deploymentId)
  {
    var text := ChartYaml(deploymentId);
    assert '\n' !in text;
    assert Split(text, '\n') == [text];
    LookupLineAt([text], "name", 0);
  }

  // ------------------------------------------------------ deploy-all script

  const DeployAllTail: string := " && ./deploy-stage && cd ..\n"

  /** The script line that deploys one stage from the tier directory. */
  function DeployAllLine(deploymentId: string): string {
    "cd " + deploymentId + DeployAllTail
  }

  /** The deployment a script line enters, if it is a deploy line. */
  function DeployedBy(line: string): Option<string> {
    if |line| >= 3 + |DeployAllTail| && line[..3] == "cd " && line[|line| - |DeployAllTail|..] == DeployAllTail
    then Some(line[3..|line| - |DeployAllTail|])
    else None
  }

  /** Every deploy line names the deployment it was written for. */
  lemma {:induction false} DeployAllLineRoundTrip(deploymentId: string)
    ensures DeployedBy(DeployAllLine(deploymentId)) == Some(deploymentId)
  {
    var line := DeployAllLine(deploymentId);
    assert line[..3] == "cd ";
    assert line[|line| - |DeployAllTail|..] == DeployAllTail;
    assert line[3..|line| - |DeployAllTail|] == deploymentId;
  }

  /** Deploy lines for different deployments differ. */
  lemma {:induction false} DeployAllLineInjective(a: string, b: string)
    requires DeployAllLine(a) == DeployAllLine(b)
    ensures a == b
  {
    DeployAllLineRoundTrip(a);
    DeployAllLineRoundTrip(b);
  }

  // ---------------------------------------------------------------- build

  /**
   `BuildDeployment`: resolve the deployment; if that succeeds, the outcome
   of its file operations decides.
   */
  function BuildDeployment(env: Environment, topology: Topology, deploymentId: string, io: string -> Option<string>)
    : (r: Result<NodeJsBuilder, BuildError>)
    ensures MakeBuilder(env, topology, deploymentId).Failure? ==> r == MakeBuilder(env, topology, deploymentId)
    ensures r.Success? <==> MakeBuilder(env, topology, deploymentId).Success? && io(deploymentId).None?
    ensures r.Failure? && MakeBuilder(env, topology, deploymentId).Success? ==> r.error == IoError(io(deploymentId).value)
  {
    var builder :- MakeBuilder(env, topology, deploymentId);
    if io(deploymentId).Some? then Failure(IoError(io(deploymentId).value)) else Success(builder)
  }

  predicate Builds(env: Environment, topology: Topology, deploymentId: string, io: string -> Option<string>) {
    BuildDeployment(env, topology, deploymentId, io).Success?
  }

  /** The error building a deployment reports, if any. */
  function BuildErrorOf(env: Environment, topology: Topology, deploymentId: string, io: string -> Option<string>)
    : (r: Option<BuildError>)
    ensures r.None? <==> Builds(env, topology, deploymentId, io)
    ensures r.Some? ==> r.value == BuildDeployment(env, topology, deploymentId, io).error
  {
    match BuildDeployment(env, topology, deploymentId, io)
    case Success(_) => None
    case Failure(e) => Some(e)
  }

  /** Deployment `k` of `order` is the first one whose build reports an error. */
  predicate FirstFailing(order: seq<string>, outcome: string -> Option<BuildError>, k: nat) {
    && k < |order|
    && outcome(order[k]).Some?
    && forall j :: 0 <= j < k ==> outcome(order[j]).None?
  }

  lemma {:induction false} ConcatSnoc(xs: seq<string>, x: string)
    ensures Concat(xs + [x]) == Concat(xs) + x
    decreases |xs|
  {
    if xs != [] {
      assert (xs + [x])[1..] == xs[1..] + [x];
      ConcatSnoc(xs[1..], x);
    }
  }

  /** The `deploy-all` script for deployments built in the order of `ids`. */
  function DeployAllScript(ids: seq<string>): string {
    Concat(Map(DeployAllLine, ids))
  }

  /** Building one more deployment appends its line to the script so far. */
  lemma {:induction false} ScriptStep(order: seq<string>, i: nat)
    requires i < |order|
    ensures DeployAllScript(order[..i + 1]) == DeployAllScript(order[..i]) + DeployAllLine(order[i])
  {
    assert order[..i + 1] == order[..i] + [order[i]];
    MapAppend(DeployAllLine, order[..i], [order[i]]);
    assert Map(DeployAllLine, [order[i]]) == [DeployAllLine(order[i])];
    ConcatSnoc(Map(DeployAllLine, order[..i]), DeployAllLine(order[i]));
  }

  /**
   The loop of `Build`: deployments are built in `order`, each success adds
   its deploy line, and the first error ends the loop and is returned.
   */
  method DeployAll(order: seq<string>, outcome: string -> Option<BuildError>) returns (r: Result<string, BuildError>)
    ensures r.Success? <==> forall j :: 0 <= j < |order| ==> outcome(order[j]).None?
    ensures r.Success? ==> r.value == DeployAllScript(order)
    ensures r.Failure? ==> exists k: nat :: FirstFailing(order, outcome, k) && r.error == outcome(order[k]).value
  {
    var script := "";
    var i := 0;
    while i < |order|
      invariant 0 <= i <= |order|
      invariant forall j :: 0 <= j < i ==> outcome(order[j]).None?
      invariant script == DeployAllScript(order[..i])
    {
      var failed := outcome(order[i]);
      if failed.Some? {
        assert FirstFailing(order, outcome, i);
        return Failure(failed.value);
      }
      ScriptStep(order, i);
      script := script + DeployAllLine(order[i]);
      i := i + 1;
    }
    assert order[..i] == order;
    return Success(script);
  }

  /**
   `Build` over the environment's deployments, visited in `order` (Go's map
   iteration order). It succeeds exactly when every deployment builds, with
   one deploy line per deployment in visiting order; otherwise it returns
   the error of the first deployment that fails.
   */
  method Build(env: Environment, topology: Topology, order: seq<string>, io: string -> Option<string>)
    returns (r: Result<string, BuildError>)
    requires Enumerates(order, env.deployments.Keys)
    ensures r.Success? <==> forall id :: id in env.deployments ==> Builds(env, topology, id, io)
    ensures r.Success? ==> r.value == DeployAllScript(order)
    ensures r.Failure? ==> exists k: nat ::
      && k < |order| && !Builds(env, topology, order[k], io)
      && (forall j :: 0 <= j < k ==> Builds(env, topology, order[j], io))
      && r.error == BuildDeployment(env, topology, order[k], io).error
  {
    var outcome := (id: string) => BuildErrorOf(env, topology, id, io);
    r := DeployAll(order, outcome);
    AllBuildIff(env, topology, order, io);
    if r.Failure? {
      var k: nat :| FirstFailing(order, outcome, k) && r.error == outcome(order[k]).value;
      assert !Builds(env, topology, order[k], io);
    }
  }

  /** Every deployment in `order` builds exactly when every deployment of the environment does. */
  lemma {:induction false} AllBuildIff(env: Environment, topology: Topology, order: seq<string>, io: string -> Option<string>)
    requires Enumerates(order, env.deployments.Keys)
    ensures (forall j :: 0 <= j < |order| ==> BuildErrorOf(env, topology, order[j], io).None?)
      <==> forall id :: id in env.deployments ==> Builds(env, topology, id, io)
  {
    EnumeratesMembers(order, env.deployments.Keys);
    if forall j :: 0 <= j < |order| ==> BuildErrorOf(env, topology, order[j], io).None? {
      forall id | id in env.deployments
        ensures Builds(env, topology, id, io)
      {
        var j :| 0 <= j < |order| && order[j] == id;
        assert BuildErrorOf(env, topology, order[j], io).None?;
      }
    }
  }

  /** A successful build's script has a deploy line for every deployment of the environment. */
  lemma {:induction false} ScriptDeploysEach(env: Environment, order: seq<string>, id: string)
    requires Enumerates(order, env.deployments.Keys)
    requires id in env.deployments
    ensures Contains(DeployAllScript(order), DeployAllLine(id))
  {
    EnumeratesMembers(order, env.deployments.Keys);
    var j :| 0 <= j < |order| && order[j] == id;
    ConcatHasElement(Map(DeployAllLine, order), j);
  }

  /** Another visiting order gives the same deploy lines, each deployment once. */
  lemma {:induction false} ScriptLinesOrderFree(env: Environment, order: seq<string>, others: seq<string>)
    requires Enumerates(order, env.deployments.Keys) && Enumerates(others, env.deployments.Keys)
    ensures multiset(Map(DeployAllLine, order)) == multiset(Map(DeployAllLine, others))
    ensures |Map(DeployAllLine, order)| == |env.deployments|
  {
    MapMultiset(DeployAllLine, order, others);
    assert |order| == |multiset(order)| == |multiset(env.deployments.Keys)| == |env.deployments.Keys|;
  }
}
