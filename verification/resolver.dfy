/**
 The deployment resolver (`Builder.MakeBuilder` in builder.go): one pass over
 a deployment's node list that checks every node exists and that platforms
 agree, then dispatches on the resolved platform. Only "node.js" has a
 builder.

 The pass keeps the platform of the previous node. A node is compared with
 it only when it is non-empty, so nodes whose platform is "" are accepted as
 long as no non-empty platform has been seen yet.
 */
module Resolver {
  import opened Results
  import opened Model

  datatype BuildError =
    | UnknownNode(nodeId: string, deploymentId: string)
    | MismatchedPlatforms(seen: string, found: string, deploymentId: string)
    | UnknownPlatform(platform: string)
    | IoError(message: string)

  const NodeJsPlatform: string := "node.js"

  /** The resolver loop from index `i`, with `platform` accumulated so far. */
  function ScanPlatforms(topology: Topology, deploymentId: string, nodes: seq<string>, i: nat, platform: string)
    : Result<string, BuildError>
    requires i <= |nodes|
    decreases |nodes| - i
  {
    if i == |nodes| then Success(platform)
    else if nodes[i] !in topology.nodes then Failure(UnknownNode(nodes[i], deploymentId))
    else
      var found := PlatformOf(topology, nodes[i]);
      if platform != "" && found != platform then Failure(MismatchedPlatforms(platform, found, deploymentId))
      else ScanPlatforms(topology, deploymentId, nodes, i + 1, found)
  }

  /** The platform the loop ends with, or the first error it meets. */
  function ResolvePlatform(topology: Topology, deploymentId: string, nodes: seq<string>): Result<string, BuildError> {
    ScanPlatforms(topology, deploymentId, nodes, 0, "")
  }

  /** Resolves a deployment and dispatches on its platform. */
  function MakeBuilder(env: Environment, topology: Topology, deploymentId: string): (r: Result<NodeJsBuilder, BuildError>)
    ensures r.Success? ==> r.value == NodeJsBuilder(deploymentId, DeploymentOf(env, deploymentId), topology, env)
    ensures r.Success? ==> forall i :: 0 <= i < |r.value.deployment.nodes| ==> r.value.deployment.nodes[i] in topology.nodes
  {
    var deployment := DeploymentOf(env, deploymentId);
    var platform :- ResolvePlatform(topology, deploymentId, deployment.nodes);
    ResolveSuccessAllKnown(topology, deploymentId, deployment.nodes);
    if platform == NodeJsPlatform then Success(NodeJsBuilder(deploymentId, deployment, topology, env))
    else Failure(UnknownPlatform(platform))
  }

  // ----- A declarative description of where the pass stops -----

  /** The platform accumulated before index `i` when no earlier node failed: the previous node's. */
  function Seen(topology: Topology, nodes: seq<string>, i: nat): string
    requires i <= |nodes|
  {
    if i == 0 then "" else PlatformOf(topology, nodes[i - 1])
  }

  predicate Missing(topology: Topology, nodes: seq<string>, i: nat)
    requires i < |nodes|
  {
    nodes[i] !in topology.nodes
  }

  predicate Mismatch(topology: Topology, nodes: seq<string>, i: nat)
    requires i < |nodes|
  {
    Seen(topology, nodes, i) != "" && PlatformOf(topology, nodes[i]) != Seen(topology, nodes, i)
  }

  predicate FailsAt(topology: Topology, nodes: seq<string>, i: nat)
    requires i < |nodes|
  {
    Missing(topology, nodes, i) || Mismatch(topology, nodes, i)
  }

  predicate NoFailureFrom(topology: Topology, nodes: seq<string>, i: nat) {
    forall j :: i <= j < |nodes| ==> !FailsAt(topology, nodes, j)
  }

  /** `k` is the first index at which the pass fails. */
  predicate FirstFailure(topology: Topology, nodes: seq<string>, k: nat) {
    k < |nodes| && FailsAt(topology, nodes, k) && forall j :: 0 <= j < k ==> !FailsAt(topology, nodes, j)
  }

  function ErrorAt(topology: Topology, deploymentId: string, nodes: seq<string>, k: nat): BuildError
    requires k < |nodes|
  {
    if Missing(topology, nodes, k) then UnknownNode(nodes[k], deploymentId)
    else MismatchedPlatforms(Seen(topology, nodes, k), PlatformOf(topology, nodes[k]), deploymentId)
  }

  /** Every node after a node with a non-empty platform has that same platform. */
  predicate HomogeneousAfterFirst(topology: Topology, nodes: seq<string>) {
    forall i, j :: 0 <= i <= j < |nodes| && PlatformOf(topology, nodes[i]) != "" ==>
      PlatformOf(topology, nodes[j]) == PlatformOf(topology, nodes[i])
  }

  // ----- The pass agrees with the description -----

  lemma {:induction false} ScanStopsAtFirstFailure(topology: Topology, deploymentId: string, nodes: seq<string>, i: nat, k: nat)
    requires i <= k < |nodes| && FailsAt(topology, nodes, k)
    requires forall j :: i <= j < k ==> !FailsAt(topology, nodes, j)
    ensures ScanPlatforms(topology, deploymentId, nodes, i, Seen(topology, nodes, i)) == Failure(ErrorAt(topology, deploymentId, nodes, k))
    decreases k - i
  {
    if i < k {
      assert !FailsAt(topology, nodes, i);
      assert Seen(topology, nodes, i + 1) == PlatformOf(topology, nodes[i]);
      ScanStopsAtFirstFailure(topology, deploymentId, nodes, i + 1, k);
    }
  }

  lemma {:induction false} ScanRunsThrough(topology: Topology, deploymentId: string, nodes: seq<string>, i: nat)
    requires i <= |nodes| && NoFailureFrom(topology, nodes, i)
    ensures ScanPlatforms(topology, deploymentId, nodes, i, Seen(topology, nodes, i)) == Success(Seen(topology, nodes, |nodes|))
    decreases |nodes| - i
  {
    if i < |nodes| {
      assert !FailsAt(topology, nodes, i);
      assert Seen(topology, nodes, i + 1) == PlatformOf(topology, nodes[i]);
      ScanRunsThrough(topology, deploymentId, nodes, i + 1);
    }
  }

  /** Any failing index has a first failing index at or before it. */
  lemma {:induction false} FirstFailureExists(topology: Topology, nodes: seq<string>, i: nat)
    requires i < |nodes| && FailsAt(topology, nodes, i)
    ensures exists k: nat :: k <= i && FirstFailure(topology, nodes, k)
    decreases i
  {
    if forall j :: 0 <= j < i ==> !FailsAt(topology, nodes, j) {
      assert FirstFailure(topology, nodes, i);
    } else {
      var j :| 0 <= j < i && FailsAt(topology, nodes, j);
      FirstFailureExists(topology, nodes, j);
    }
  }

  /** The resolver fails exactly with the error of the first failing node. */
  lemma {:induction false} ResolveFailsAtFirst(topology: Topology, deploymentId: string, nodes: seq<string>, k: nat)
    requires FirstFailure(topology, nodes, k)
    ensures ResolvePlatform(topology, deploymentId, nodes) == Failure(ErrorAt(topology, deploymentId, nodes, k))
  {
    ScanStopsAtFirstFailure(topology, deploymentId, nodes, 0, k);
  }

  /** Without a failing node the resolved platform is the last node's ("" for no nodes). */
  lemma {:induction false} ResolveSucceeds(topology: Topology, deploymentId: string, nodes: seq<string>)
    requires NoFailureFrom(topology, nodes, 0)
    ensures ResolvePlatform(topology, deploymentId, nodes) == Success(Seen(topology, nodes, |nodes|))
  {
    ScanRunsThrough(topology, deploymentId, nodes, 0);
  }

  /** The resolver succeeds exactly when no node fails. */
  lemma {:induction false} ResolveSuccessIff(topology: Topology, deploymentId: string, nodes: seq<string>)
    ensures ResolvePlatform(topology, deploymentId, nodes).Success? <==> NoFailureFrom(topology, nodes, 0)
  {
    if !NoFailureFrom(topology, nodes, 0) {
      var i :| 0 <= i < |nodes| && FailsAt(topology, nodes, i);
      FirstFailureExists(topology, nodes, i);
      var k: nat :| k <= i && FirstFailure(topology, nodes, k);
      ResolveFailsAtFirst(topology, deploymentId, nodes, k);
    } else {
      ResolveSucceeds(topology, deploymentId, nodes);
    }
  }

  lemma {:induction false} ResolveSuccessAllKnown(topology: Topology, deploymentId: string, nodes: seq<string>)
    ensures ResolvePlatform(topology, deploymentId, nodes).Success? ==>
      forall i :: 0 <= i < |nodes| ==> nodes[i] in topology.nodes
  {
    ResolveSuccessIff(topology, deploymentId, nodes);
    if ResolvePlatform(topology, deploymentId, nodes).Success? {
      forall i | 0 <= i < |nodes|
        ensures nodes[i] in topology.nodes
      {
        assert !FailsAt(topology, nodes, i);
      }
    }
  }

  /** A pass without failures leaves the deployment homogeneous after its first non-empty platform. */
  lemma {:induction false} NoFailureHomogeneous(topology: Topology, nodes: seq<string>)
    requires NoFailureFrom(topology, nodes, 0)
    ensures HomogeneousAfterFirst(topology, nodes)
  {
    forall i, j | 0 <= i <= j < |nodes| && PlatformOf(topology, nodes[i]) != ""
      ensures PlatformOf(topology, nodes[j]) == PlatformOf(topology, nodes[i])
    {
      SamePlatformUpTo(topology, nodes, i, j);
    }
  }

  lemma {:induction false} SamePlatformUpTo(topology: Topology, nodes: seq<string>, i: nat, j: nat)
    requires NoFailureFrom(topology, nodes, 0)
    requires i <= j < |nodes| && PlatformOf(topology, nodes[i]) != ""
    ensures PlatformOf(topology, nodes[j]) == PlatformOf(topology, nodes[i])
    decreases j - i
  {
    if i < j {
      SamePlatformUpTo(topology, nodes, i, j - 1);
      assert !FailsAt(topology, nodes, j);
      assert Seen(topology, nodes, j) == PlatformOf(topology, nodes[j - 1]);
    }
  }

  // ----- Properties of MakeBuilder -----

  /** A deployment that names a node the topology lacks never yields a builder. */
  lemma {:induction false} MakeBuilderUnknownNode(env: Environment, topology: Topology, deploymentId: string, i: nat)
    requires i < |DeploymentOf(env, deploymentId).nodes|
    requires DeploymentOf(env, deploymentId).nodes[i] !in topology.nodes
    ensures MakeBuilder(env, topology, deploymentId).Failure?
  {
    var nodes := DeploymentOf(env, deploymentId).nodes;
    assert FailsAt(topology, nodes, i);
    ResolveSuccessIff(topology, deploymentId, nodes);
  }

  /** The reported error names the first failing node and, for a mismatch, both platforms. */
  lemma {:induction false} MakeBuilderFirstError(env: Environment, topology: Topology, deploymentId: string, k: nat)
    requires FirstFailure(topology, DeploymentOf(env, deploymentId).nodes, k)
    ensures MakeBuilder(env, topology, deploymentId) == Failure(ErrorAt(topology, deploymentId, DeploymentOf(env, deploymentId).nodes, k))
  {
    ResolveFailsAtFirst(topology, deploymentId, DeploymentOf(env, deploymentId).nodes, k);
  }

  /**
   A mismatch error is returned exactly when the pass reaches a node whose
   platform differs from the non-empty platform accumulated before it.
   */
  lemma {:induction false} MakeBuilderMismatchIff(env: Environment, topology: Topology, deploymentId: string)
    ensures (MakeBuilder(env, topology, deploymentId).Failure? && MakeBuilder(env, topology, deploymentId).error.MismatchedPlatforms?)
      <==> exists k: nat :: FirstFailure(topology, DeploymentOf(env, deploymentId).nodes, k) && !Missing(topology, DeploymentOf(env, deploymentId).nodes, k)
  {
    var nodes := DeploymentOf(env, deploymentId).nodes;
    var r := MakeBuilder(env, topology, deploymentId);
    ResolveSuccessIff(topology, deploymentId, nodes);
    if NoFailureFrom(topology, nodes, 0) {
      ResolveSucceeds(topology, deploymentId, nodes);
      assert !r.Failure? || r.error.UnknownPlatform?;
    } else {
      var i :| 0 <= i < |nodes| && FailsAt(topology, nodes, i);
      FirstFailureExists(topology, nodes, i);
      var k: nat :| k <= i && FirstFailure(topology, nodes, k);
      ResolveFailsAtFirst(topology, deploymentId, nodes, k);
      forall k': nat | FirstFailure(topology, nodes, k')
        ensures k' == k
      {
      }
    }
  }

  /**
   A builder is returned exactly when the list is non-empty, no node fails
   and the last node's platform is "node.js"; the deployment is then
   homogeneous after its first non-empty platform, and every non-empty
   platform in it is "node.js".
   */
  lemma {:induction false} MakeBuilderSuccessIff(env: Environment, topology: Topology, deploymentId: string)
    ensures var nodes := DeploymentOf(env, deploymentId).nodes;
      MakeBuilder(env, topology, deploymentId).Success? <==>
        |nodes| > 0 && NoFailureFrom(topology, nodes, 0) && PlatformOf(topology, nodes[|nodes| - 1]) == NodeJsPlatform
    ensures var nodes := DeploymentOf(env, deploymentId).nodes;
      MakeBuilder(env, topology, deploymentId).Success? ==>
        && ResolvePlatform(topology, deploymentId, nodes) == Success(NodeJsPlatform)
        && HomogeneousAfterFirst(topology, nodes)
        && forall i :: 0 <= i < |nodes| ==> PlatformOf(topology, nodes[i]) in {"", NodeJsPlatform}
  {
    var nodes := DeploymentOf(env, deploymentId).nodes;
    ResolveSuccessIff(topology, deploymentId, nodes);
    if NoFailureFrom(topology, nodes, 0) {
      ResolveSucceeds(topology, deploymentId, nodes);
      NoFailureHomogeneous(topology, nodes);
      if MakeBuilder(env, topology, deploymentId).Success? {
        forall i | 0 <= i < |nodes|
          ensures PlatformOf(topology, nodes[i]) in {"", NodeJsPlatform}
        {
          if PlatformOf(topology, nodes[i]) != "" {
            assert PlatformOf(topology, nodes[|nodes| - 1]) == PlatformOf(topology, nodes[i]);
          }
        }
      }
    }
  }

  /** An empty deployment resolves to the empty platform, which has no builder. */
  lemma {:induction false} MakeBuilderEmpty(env: Environment, topology: Topology, deploymentId: string)
    requires DeploymentOf(env, deploymentId).nodes == []
    ensures MakeBuilder(env, topology, deploymentId) == Failure(UnknownPlatform(""))
  {
  }

  /**
   Whether a deployment resolves depends on node order: a node without a
   platform is accepted before a "node.js" node but rejected after it.
   */
  lemma {:induction false} ResolveDependsOnOrder()
    ensures var topology := Topology("t", map[
        "a" := Node([], [], Processor("", "./a.js", map[], map[])),
        "b" := Node([], [], Processor(NodeJsPlatform, "./b.js", map[], map[]))]);
      && ResolvePlatform(topology, "d", ["a", "b"]) == Success(NodeJsPlatform)
      && ResolvePlatform(topology, "d", ["b", "a"]) == Failure(MismatchedPlatforms(NodeJsPlatform, "", "d"))
  {
  }
}
