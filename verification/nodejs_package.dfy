/**
 Dependency aggregation and `package.json` generation of the node.js
 platform builder (nodejsPlatformBuilder.go). Dependencies are merged from
 every connection of the environment (in Go map order) and then from the
 processor of every deployment node (in list order); a later writer wins.
 */
module NodeJsPackage {
  import opened Model
  import opened Seqs
  import opened Sorting
  import opened Text

  function ConnectionDependencies(b: NodeJsBuilder, connectionId: string): map<string, string> {
    ConnectionOf(b.environment, connectionId).dependencies
  }

  function ProcessorDependencies(b: NodeJsBuilder, nodeId: string): map<string, string> {
    NodeOf(b.topology, nodeId).processor.dependencies
  }

  /** The dependency maps in the order the source writes them. */
  function DependencySources(b: NodeJsBuilder, connectionOrder: seq<string>): seq<map<string, string>> {
    Map((c: string) => ConnectionDependencies(b, c), connectionOrder)
      + Map((n: string) => ProcessorDependencies(b, n), b.deployment.nodes)
  }

  /** Some connection of the environment, touched by the deployment or not, declares `p`. */
  predicate DeclaredByConnection(b: NodeJsBuilder, p: string) {
    exists c :: c in b.environment.connections && p in b.environment.connections[c].dependencies
  }

  /** The processor of some deployment node declares `p`. */
  predicate DeclaredByProcessor(b: NodeJsBuilder, p: string) {
    exists i :: 0 <= i < |b.deployment.nodes| && p in ProcessorDependencies(b, b.deployment.nodes[i])
  }

  /**
   `collectDependencies`, with `connectionOrder` the order Go's map iteration
   visits the environment's connections in.
   */
  function CollectDependencies(b: NodeJsBuilder, connectionOrder: seq<string>): map<string, string>
    requires Enumerates(connectionOrder, b.environment.connections.Keys)
  {
    MergeAll(DependencySources(b, connectionOrder))
  }

  /**
   A package is collected exactly when some connection of the environment
   or the processor of some deployment node declares it.
   */
  lemma {:induction false} CollectDependenciesKeys(b: NodeJsBuilder, connectionOrder: seq<string>, p: string)
    requires Enumerates(connectionOrder, b.environment.connections.Keys)
    ensures p in CollectDependencies(b, connectionOrder) <==> DeclaredByConnection(b, p) || DeclaredByProcessor(b, p)
  {
    SourcesDeclare(b, connectionOrder, p);
  }

  /** Entry `i` of the sources: a connection's map first, then the nodes' maps. */
  lemma {:induction false} SourceAt(b: NodeJsBuilder, connectionOrder: seq<string>, i: nat)
    requires i < |connectionOrder| + |b.deployment.nodes|
    ensures |DependencySources(b, connectionOrder)| == |connectionOrder| + |b.deployment.nodes|
    ensures i < |connectionOrder| ==> DependencySources(b, connectionOrder)[i] == ConnectionDependencies(b, connectionOrder[i])
    ensures i >= |connectionOrder| ==>
      DependencySources(b, connectionOrder)[i] == ProcessorDependencies(b, b.deployment.nodes[i - |connectionOrder|])
  {
  }

  lemma {:induction false} SourcesDeclare(b: NodeJsBuilder, connectionOrder: seq<string>, p: string)
    requires Enumerates(connectionOrder, b.environment.connections.Keys)
    ensures var sources := DependencySources(b, connectionOrder);
      (exists i :: 0 <= i < |sources| && p in sources[i]) <==> DeclaredByConnection(b, p) || DeclaredByProcessor(b, p)
  {
    var sources := DependencySources(b, connectionOrder);
    if DeclaredByConnection(b, p) {
      SourceFromConnection(b, connectionOrder, p);
    }
    if DeclaredByProcessor(b, p) {
      SourceFromProcessor(b, connectionOrder, p);
    }
    if exists i :: 0 <= i < |sources| && p in sources[i] {
      var i :| 0 <= i < |sources| && p in sources[i];
      SourceDeclares(b, connectionOrder, i, p);
    }
  }

  lemma {:induction false} SourceFromConnection(b: NodeJsBuilder, connectionOrder: seq<string>, p: string)
    requires Enumerates(connectionOrder, b.environment.connections.Keys)
    requires DeclaredByConnection(b, p)
    ensures var sources := DependencySources(b, connectionOrder);
      exists i :: 0 <= i < |sources| && p in sources[i]
  {
    EnumeratesMembers(connectionOrder, b.environment.connections.Keys);
    var c :| c in b.environment.connections && p in b.environment.connections[c].dependencies;
    var i :| 0 <= i < |connectionOrder| && connectionOrder[i] == c;
    SourceAt(b, connectionOrder, i);
  }

  lemma {:induction false} SourceFromProcessor(b: NodeJsBuilder, connectionOrder: seq<string>, p: string)
    requires DeclaredByProcessor(b, p)
    ensures var sources := DependencySources(b, connectionOrder);
      exists i :: 0 <= i < |sources| && p in sources[i]
  {
    var i :| 0 <= i < |b.deployment.nodes| && p in ProcessorDependencies(b, b.deployment.nodes[i]);
    SourceAt(b, connectionOrder, |connectionOrder| + i);
  }

  lemma {:induction false} SourceDeclares(b: NodeJsBuilder, connectionOrder: seq<string>, i: nat, p: string)
    requires Enumerates(connectionOrder, b.environment.connections.Keys)
    requires i < |DependencySources(b, connectionOrder)| && p in DependencySources(b, connectionOrder)[i]
    ensures DeclaredByConnection(b, p) || DeclaredByProcessor(b, p)
  {
    EnumeratesMembers(connectionOrder, b.environment.connections.Keys);
    SourceAt(b, connectionOrder, i);
    if i < |connectionOrder| {
      assert connectionOrder[i] in b.environment.connections;
    } else {
      assert p in ProcessorDependencies(b, b.deployment.nodes[i - |connectionOrder|]);
    }
  }

  /** A processor dependency overrides connections and earlier nodes: the last declaring node wins. */
  lemma {:induction false} DependencyFromLastNode(b: NodeJsBuilder, connectionOrder: seq<string>, i: nat, p: string)
    requires Enumerates(connectionOrder, b.environment.connections.Keys)
    requires i < |b.deployment.nodes| && p in ProcessorDependencies(b, b.deployment.nodes[i])
    requires forall j :: i < j < |b.deployment.nodes| ==> p !in ProcessorDependencies(b, b.deployment.nodes[j])
    ensures p in CollectDependencies(b, connectionOrder)
    ensures CollectDependencies(b, connectionOrder)[p] == ProcessorDependencies(b, b.deployment.nodes[i])[p]
  {
    var sources := DependencySources(b, connectionOrder);
    var n := |connectionOrder|;
    assert sources[n + i] == ProcessorDependencies(b, b.deployment.nodes[i]);
    forall j | n + i < j < |sources|
      ensures p !in sources[j]
    {
      assert sources[j] == ProcessorDependencies(b, b.deployment.nodes[j - n]);
    }
    MergeAllLastWins(sources, n + i, p);
  }

  /** A package no deployment node declares takes the version of the last connection visited that declares it. */
  lemma {:induction false} DependencyFromLastConnection(b: NodeJsBuilder, connectionOrder: seq<string>, k: nat, p: string)
    requires Enumerates(connectionOrder, b.environment.connections.Keys)
    requires k < |connectionOrder| && p in ConnectionDependencies(b, connectionOrder[k])
    requires forall j :: k < j < |connectionOrder| ==> p !in ConnectionDependencies(b, connectionOrder[j])
    requires !DeclaredByProcessor(b, p)
    ensures p in CollectDependencies(b, connectionOrder)
    ensures CollectDependencies(b, connectionOrder)[p] == ConnectionDependencies(b, connectionOrder[k])[p]
  {
    var sources := DependencySources(b, connectionOrder);
    var n := |connectionOrder|;
    assert sources[k] == ConnectionDependencies(b, connectionOrder[k]);
    forall j | k < j < |sources|
      ensures p !in sources[j]
    {
      if j < n {
        assert sources[j] == ConnectionDependencies(b, connectionOrder[j]);
      } else {
        assert sources[j] == ProcessorDependencies(b, b.deployment.nodes[j - n]);
      }
    }
    MergeAllLastWins(sources, k, p);
  }

  /** One `"package":"version"` line of the dependencies object. */
  function DependencyLine(entry: (string, string)): string {
    "        \"" + entry.0 + "\":\"" + entry.1 + "\""
  }

  /**
   The collected dependency lines, one per entry, sorted; `entries` is the
   order Go's map iteration visits the collected dependencies in.
   */
  function DependencyLines(deps: map<string, string>, entries: seq<(string, string)>): (r: seq<string>)
    requires Enumerates(entries, deps.Items)
    ensures Sorted(r)
    ensures |r| == |deps|
  {
    assert |deps.Items| == |deps|;
    SortedImage(DependencyLine, entries, deps.Items)
  }

  /** Every collected dependency has its line. */
  lemma {:induction false} DependencyLinesCover(deps: map<string, string>, entries: seq<(string, string)>, p: string)
    requires Enumerates(entries, deps.Items)
    requires p in deps
    ensures DependencyLine((p, deps[p])) in DependencyLines(deps, entries)
  {
    assert (p, deps[p]) in deps.Items;
    SortedImageCovers(DependencyLine, entries, deps.Items, (p, deps[p]));
  }

  /** Every line is that of a collected dependency. */
  lemma {:induction false} DependencyLinesOnly(deps: map<string, string>, entries: seq<(string, string)>, line: string)
    requires Enumerates(entries, deps.Items)
    requires line in DependencyLines(deps, entries)
    ensures exists p :: p in deps && line == DependencyLine((p, deps[p]))
  {
    SortedImageOnly(DependencyLine, entries, deps.Items, line);
    var x :| x in deps.Items && line == DependencyLine(x);
    assert x.0 in deps && deps[x.0] == x.1;
  }

  /** The sorted lines do not depend on the order the map was visited in. */
  lemma {:induction false} DependencyLinesOrderFree(deps: map<string, string>, entries: seq<(string, string)>, others: seq<(string, string)>)
    requires Enumerates(entries, deps.Items) && Enumerates(others, deps.Items)
    ensures DependencyLines(deps, entries) == DependencyLines(deps, others)
  {
    SortedImageOrderFree(DependencyLine, entries, others, deps.Items);
  }

  /** A fixed entry of the template, written with a space after the colon. */
  function BaselineLine(name: string, version: string): string {
    "        \"" + name + "\": \"" + version + "\""
  }

  /** The four entries every generated manifest starts its dependencies with. */
  const BaselineDependencies: seq<string> := [
    BaselineLine("express", "^4.16.2"),
    BaselineLine("prom-client", "^10.2.2"),
    BaselineLine("request", "^2.83.0"),
    BaselineLine("topological", "^1.0.29")]

  /** The manifest up to and including the line that opens the dependencies object. */
  function PackageHead(deploymentId: string): string {
    Join([
      "{",
      "    \"name\": \"stage-" + deploymentId + "\",",
      "    \"version\": \"1.0.0\",",
      "    \"main\": \"stage.js\",",
      "    \"scripts\": {",
      "        \"start\": \"node stage.js\"",
      "    },",
      "    \"dependencies\": {",
      ""], "\n")
  }

  const PackageFoot: string := "\n    }\n}"

  /** The body of the dependencies object as the source writes it: baseline, a separator, the lines. */
  function DependencyBody(lines: seq<string>): string {
    Join(BaselineDependencies, ",\n") + ",\n" + Join(lines, ",\n")
  }

  /** The manifest around a dependencies body; the body can be cut back out of it. */
  function PackageText(deploymentId: string, body: string): (r: string)
    ensures HasPrefix(r, PackageHead(deploymentId))
    ensures |PackageHead(deploymentId)| + |body| + |PackageFoot| == |r|
    ensures r[|PackageHead(deploymentId)|..|r| - |PackageFoot|] == body
  {
    Framed(PackageHead(deploymentId), body, PackageFoot);
    PackageHead(deploymentId) + body + PackageFoot
  }

  /** `FillPackageJson`. */
  function FillPackageJson(b: NodeJsBuilder, connectionOrder: seq<string>, entries: seq<(string, string)>): (r: string)
    requires Enumerates(connectionOrder, b.environment.connections.Keys)
    requires Enumerates(entries, CollectDependencies(b, connectionOrder).Items)
    ensures HasPrefix(r, PackageHead(b.deploymentId))
  {
    PackageText(b.deploymentId, DependencyBody(DependencyLines(CollectDependencies(b, connectionOrder), entries)))
  }

  /** Two lists joined one after the other inside a frame. */
  function FramedLists(head: string, xs: seq<string>, ys: seq<string>, foot: string): string {
    head + (Join(xs, ",\n") + ",\n" + Join(ys, ",\n")) + foot
  }

  /** Every element of the first list occurs in the framed text. */
  lemma {:induction false} FramedFirstContains(head: string, xs: seq<string>, ys: seq<string>, foot: string, i: nat)
    requires i < |xs|
    ensures Contains(FramedLists(head, xs, ys, foot), xs[i])
  {
    var first := Join(xs, ",\n");
    var rest := ",\n" + Join(ys, ",\n") + foot;
    JoinHasElement(xs, ",\n", i);
    ContainsWithin(head, first, rest, xs[i]);
    assert head + first + rest == FramedLists(head, xs, ys, foot);
  }

  /** Every element of the second list occurs in the framed text. */
  lemma {:induction false} FramedSecondContains(head: string, xs: seq<string>, ys: seq<string>, foot: string, i: nat)
    requires i < |ys|
    ensures Contains(FramedLists(head, xs, ys, foot), ys[i])
  {
    var front := head + Join(xs, ",\n") + ",\n";
    var second := Join(ys, ",\n");
    JoinHasElement(ys, ",\n", i);
    ContainsWithin(front, second, foot, ys[i]);
    assert front + second + foot == FramedLists(head, xs, ys, foot);
  }

  /** Both lists occur element by element in the framed text. */
  lemma {:induction false} FramedListsContain(head: string, xs: seq<string>, ys: seq<string>, foot: string)
    ensures forall i :: 0 <= i < |xs| ==> Contains(FramedLists(head, xs, ys, foot), xs[i])
    ensures forall i :: 0 <= i < |ys| ==> Contains(FramedLists(head, xs, ys, foot), ys[i])
  {
    forall i | 0 <= i < |xs|
      ensures Contains(FramedLists(head, xs, ys, foot), xs[i])
    {
      FramedFirstContains(head, xs, ys, foot, i);
    }
    forall i | 0 <= i < |ys|
      ensures Contains(FramedLists(head, xs, ys, foot), ys[i])
    {
      FramedSecondContains(head, xs, ys, foot, i);
    }
  }

  /** A manifest built around `lines` holds the baseline entries and every line. */
  lemma {:induction false} PackageTextLists(head: string, lines: seq<string>)
    ensures forall i :: 0 <= i < |BaselineDependencies| ==>
      Contains(head + DependencyBody(lines) + PackageFoot, BaselineDependencies[i])
    ensures forall i :: 0 <= i < |lines| ==> Contains(head + DependencyBody(lines) + PackageFoot, lines[i])
  {
    FramedListsContain(head, BaselineDependencies, lines, PackageFoot);
    assert head + DependencyBody(lines) + PackageFoot == FramedLists(head, BaselineDependencies, lines, PackageFoot);
  }

  /** A manifest over any dependency map lists the baseline entries and one line per dependency. */
  lemma {:induction false} PackageListsDependencies(deploymentId: string, deps: map<string, string>, entries: seq<(string, string)>, p: string)
    requires Enumerates(entries, deps.Items)
    ensures forall i :: 0 <= i < |BaselineDependencies| ==>
      Contains(PackageText(deploymentId, DependencyBody(DependencyLines(deps, entries))), BaselineDependencies[i])
    ensures p in deps ==>
      Contains(PackageText(deploymentId, DependencyBody(DependencyLines(deps, entries))), DependencyLine((p, deps[p])))
  {
    var lines := DependencyLines(deps, entries);
    var head := PackageHead(deploymentId);
    assert PackageText(deploymentId, DependencyBody(lines)) == head + DependencyBody(lines) + PackageFoot;
    PackageTextLists(head, lines);
    if p in deps {
      DependencyLinesCover(deps, entries, p);
      var i :| 0 <= i < |lines| && lines[i] == DependencyLine((p, deps[p]));
    }
  }

  /**
   The generated manifest lists the four baseline entries and a
   `"package":"version"` line for every collected dependency.
   */
  lemma {:induction false} PackageJsonListsDependencies(b: NodeJsBuilder, connectionOrder: seq<string>, entries: seq<(string, string)>, p: string)
    requires Enumerates(connectionOrder, b.environment.connections.Keys)
    requires Enumerates(entries, CollectDependencies(b, connectionOrder).Items)
    ensures forall i :: 0 <= i < |BaselineDependencies| ==> Contains(FillPackageJson(b, connectionOrder, entries), BaselineDependencies[i])
    ensures p in CollectDependencies(b, connectionOrder) ==>
      Contains(FillPackageJson(b, connectionOrder, entries), DependencyLine((p, CollectDependencies(b, connectionOrder)[p])))
  {
    PackageListsDependencies(b.deploymentId, CollectDependencies(b, connectionOrder), entries, p);
  }

  /** Visiting the dependency map in another order yields the same text. */
  lemma {:induction false} FillPackageJsonOrderFree(b: NodeJsBuilder, connectionOrder: seq<string>, entries: seq<(string, string)>, others: seq<(string, string)>)
    requires Enumerates(connectionOrder, b.environment.connections.Keys)
    requires Enumerates(entries, CollectDependencies(b, connectionOrder).Items)
    requires Enumerates(others, CollectDependencies(b, connectionOrder).Items)
    ensures FillPackageJson(b, connectionOrder, entries) == FillPackageJson(b, connectionOrder, others)
  {
    DependencyLinesOrderFree(CollectDependencies(b, connectionOrder), entries, others);
  }

  /** Connections that declare the same package declare the same version of it. */
  predicate ConnectionsAgree(b: NodeJsBuilder) {
    forall c, d, p ::
      && c in b.environment.connections && d in b.environment.connections
      && p in b.environment.connections[c].dependencies && p in b.environment.connections[d].dependencies
      ==> b.environment.connections[c].dependencies[p] == b.environment.connections[d].dependencies[p]
  }

  /** A connection source holds the dependencies of an environment connection. */
  lemma {:induction false} ConnectionSourceIn(b: NodeJsBuilder, connectionOrder: seq<string>, r: nat)
    requires Enumerates(connectionOrder, b.environment.connections.Keys)
    requires r < |connectionOrder|
    ensures connectionOrder[r] in b.environment.connections
    ensures DependencySources(b, connectionOrder)[r] == b.environment.connections[connectionOrder[r]].dependencies
  {
    EnumeratesMembers(connectionOrder, b.environment.connections.Keys);
    SourceAt(b, connectionOrder, r);
  }

  /** The processor sources follow the connection sources, whatever the connection order. */
  lemma {:induction false} ProcessorSourcesShared(b: NodeJsBuilder, order: seq<string>, other: seq<string>)
    requires |order| == |other|
    ensures |DependencySources(b, order)| == |DependencySources(b, other)|
    ensures forall j :: |order| <= j < |DependencySources(b, order)| ==>
      DependencySources(b, order)[j] == DependencySources(b, other)[j]
  {
    forall j | |order| <= j < |DependencySources(b, order)|
      ensures DependencySources(b, order)[j] == DependencySources(b, other)[j]
    {
      SourceAt(b, order, j);
      SourceAt(b, other, j);
    }
  }

  /** A package no processor declares is held only by connection sources. */
  lemma {:induction false} HolderIsConnection(b: NodeJsBuilder, order: seq<string>, r: nat, p: string)
    requires !DeclaredByProcessor(b, p)
    requires r < |DependencySources(b, order)| && p in DependencySources(b, order)[r]
    ensures r < |order|
  {
    SourceAt(b, order, r);
  }

  /** A package some processor declares has the same last holder under both connection orders. */
  lemma {:induction false} ProcessorHolderShared(b: NodeJsBuilder, order: seq<string>, other: seq<string>, p: string, r1: nat, r2: nat)
    requires |order| == |other| && DeclaredByProcessor(b, p)
    requires var s := DependencySources(b, order);
      r1 < |s| && p in s[r1] && forall j :: r1 < j < |s| ==> p !in s[j]
    requires var s := DependencySources(b, other);
      r2 < |s| && p in s[r2] && forall j :: r2 < j < |s| ==> p !in s[j]
    ensures r1 == r2 && DependencySources(b, order)[r1] == DependencySources(b, other)[r2]
  {
    var j :| 0 <= j < |b.deployment.nodes| && p in ProcessorDependencies(b, b.deployment.nodes[j]);
    SourceAt(b, order, |order| + j);
    ProcessorSourcesShared(b, order, other);
    LastHolderInSharedTail(DependencySources(b, order), DependencySources(b, other), |order|, p, |order| + j, r1, r2);
  }

  /** A package only connections declare gets the one version they agree on, under any order. */
  lemma {:induction false} ConnectionHoldersAgree(b: NodeJsBuilder, order: seq<string>, other: seq<string>, p: string, r1: nat, r2: nat)
    requires Enumerates(order, b.environment.connections.Keys)
    requires Enumerates(other, b.environment.connections.Keys)
    requires ConnectionsAgree(b) && !DeclaredByProcessor(b, p)
    requires r1 < |DependencySources(b, order)| && p in DependencySources(b, order)[r1]
    requires r2 < |DependencySources(b, other)| && p in DependencySources(b, other)[r2]
    ensures DependencySources(b, order)[r1][p] == DependencySources(b, other)[r2][p]
  {
    HolderIsConnection(b, order, r1, p);
    HolderIsConnection(b, other, r2, p);
    ConnectionSourceIn(b, order, r1);
    ConnectionSourceIn(b, other, r2);
  }

  /**
   Under two visiting orders of the connections, a package collected under
   the first is collected under the second with the same version, provided
   the connections agree on versions.
   */
  lemma {:induction false} CollectedVersionsAgree(b: NodeJsBuilder, order: seq<string>, other: seq<string>, p: string)
    requires Enumerates(order, b.environment.connections.Keys)
    requires Enumerates(other, b.environment.connections.Keys)
    requires ConnectionsAgree(b)
    requires p in CollectDependencies(b, order)
    ensures p in CollectDependencies(b, other)
    ensures CollectDependencies(b, order)[p] == CollectDependencies(b, other)[p]
  {
    assert |other| == |order| by {
      assert |order| == |multiset(order)| == |multiset(other)| == |other|;
    }
    CollectDependenciesKeys(b, order, p);
    CollectDependenciesKeys(b, other, p);
    var r1 := LastMerged(DependencySources(b, order), p);
    var r2 := LastMerged(DependencySources(b, other), p);
    if DeclaredByProcessor(b, p) {
      ProcessorHolderShared(b, order, other, p, r1, r2);
    } else {
      ConnectionHoldersAgree(b, order, other, p, r1, r2);
    }
  }

  /** When connections agree on versions, the collected map does not depend on their visiting order. */
  lemma {:induction false} CollectDependenciesOrderFree(b: NodeJsBuilder, order: seq<string>, other: seq<string>)
    requires Enumerates(order, b.environment.connections.Keys)
    requires Enumerates(other, b.environment.connections.Keys)
    requires ConnectionsAgree(b)
    ensures CollectDependencies(b, order) == CollectDependencies(b, other)
  {
    var m1 := CollectDependencies(b, order);
    var m2 := CollectDependencies(b, other);
    forall p | p in m1
      ensures p in m2 && m1[p] == m2[p]
    {
      CollectedVersionsAgree(b, order, other, p);
    }
    forall p | p in m2
      ensures p in m1
    {
      CollectedVersionsAgree(b, other, order, p);
    }
    assert m1.Keys == m2.Keys;
  }

  /**
   When connections agree on versions, `package.json` depends neither on the
   order the connections are visited in nor on the order the collected
   dependencies are visited in.
   */
  lemma {:induction false} FillPackageJsonConnectionOrderFree(b: NodeJsBuilder, order: seq<string>, other: seq<string>,
                                                             entries: seq<(string, string)>, others: seq<(string, string)>)
    requires Enumerates(order, b.environment.connections.Keys)
    requires Enumerates(other, b.environment.connections.Keys)
    requires ConnectionsAgree(b)
    requires Enumerates(entries, CollectDependencies(b, order).Items)
    requires Enumerates(others, CollectDependencies(b, other).Items)
    ensures FillPackageJson(b, order, entries) == FillPackageJson(b, other, others)
  {
    CollectDependenciesOrderFree(b, order, other);
    DependencyLinesOrderFree(CollectDependencies(b, order), entries, others);
  }

  /** Two connections declaring `kafka` at versions "1" and "2", and a node with no dependencies. */
  const DisagreeingConnections: NodeJsBuilder :=
    NodeJsBuilder(
      "d",
      ZeroDeployment.(nodes := ["n"]),
      Topology("t", map["n" := ZeroNode]),
      Environment("", "", "", "", "",
        map["c1" := Connection(map["kafka" := "1"], map[]), "c2" := Connection(map["kafka" := "2"], map[])],
        map[], map[]))

  /**
   Connections that disagree on a version: the one visited last wins, so the
   emitted version follows Go's map iteration order.
   */
  lemma {:induction false} ConnectionOrderDecidesVersion()
    ensures var b := DisagreeingConnections;
      && Enumerates(["c1", "c2"], b.environment.connections.Keys)
      && Enumerates(["c2", "c1"], b.environment.connections.Keys)
      && "kafka" in CollectDependencies(b, ["c1", "c2"]) && CollectDependencies(b, ["c1", "c2"])["kafka"] == "2"
      && "kafka" in CollectDependencies(b, ["c2", "c1"]) && CollectDependencies(b, ["c2", "c1"])["kafka"] == "1"
  {
    var b := DisagreeingConnections;
    assert b.environment.connections.Keys == {"c1", "c2"};
    assert multiset(["c1", "c2"]) == multiset{"c1", "c2"} == multiset(["c2", "c1"]);
    assert multiset(b.environment.connections.Keys) == multiset{"c1", "c2"};
    assert !DeclaredByProcessor(b, "kafka") by {
      assert ProcessorDependencies(b, "n") == map[];
    }
    DependencyFromLastConnection(b, ["c1", "c2"], 1, "kafka");
    DependencyFromLastConnection(b, ["c2", "c1"], 1, "kafka");
  }

  /**
   As written, a deployment with no dependencies beyond the baseline gets a
   dependencies object whose last entry is followed by a comma.
   */
  lemma {:induction false} PackageJsonTrailingComma(b: NodeJsBuilder, connectionOrder: seq<string>, entries: seq<(string, string)>)
    requires Enumerates(connectionOrder, b.environment.connections.Keys)
    requires Enumerates(entries, CollectDependencies(b, connectionOrder).Items)
    requires CollectDependencies(b, connectionOrder) == map[]
    ensures var body := DependencyBody(DependencyLines(CollectDependencies(b, connectionOrder), entries));
      |body| >= 2 && body[|body| - 2..] == ",\n"
  {
    var lines := DependencyLines(CollectDependencies(b, connectionOrder), entries);
    assert |lines| == 0;
  }

  /** The text ends with a closing quote, as every entry does. */
  predicate EndsWithQuote(s: string) {
    |s| > 0 && s[|s| - 1] == '"'
  }

  /** The list is empty or its last line ends with a closing quote. */
  predicate LastEndsWithQuote(lines: seq<string>) {
    lines != [] ==> EndsWithQuote(lines[|lines| - 1])
  }

  /** The dependencies object with separators only between entries. */
  function DependencyBodyFixed(lines: seq<string>): (r: string)
    requires LastEndsWithQuote(lines)
    ensures EndsWithQuote(r)
    ensures lines != [] ==> r == DependencyBody(lines)
  {
    var all := BaselineDependencies + lines;
    JoinEndsWithLast(all, ",\n");
    assert EndsWithQuote(BaselineDependencies[3]);
    assert all[|all| - 1] == if lines == [] then BaselineDependencies[3] else lines[|lines| - 1];
    assert lines != [] ==> Join(all, ",\n") == DependencyBody(lines) by {
      if lines != [] {
        JoinAppend(BaselineDependencies, lines, ",\n");
      }
    }
    Join(all, ",\n")
  }

  lemma {:induction false} DependencyLinesEndWithQuote(deps: map<string, string>, entries: seq<(string, string)>)
    requires Enumerates(entries, deps.Items)
    ensures LastEndsWithQuote(DependencyLines(deps, entries))
  {
    var lines := DependencyLines(deps, entries);
    if lines != [] {
      var last := lines[|lines| - 1];
      DependencyLinesOnly(deps, entries, last);
      var p :| p in deps && last == DependencyLine((p, deps[p]));
      DependencyLineEndsWithQuote((p, deps[p]));
    }
  }

  lemma {:induction false} DependencyLineEndsWithQuote(entry: (string, string))
    ensures EndsWithQuote(DependencyLine(entry))
  {
  }

  /** The manifest with separators only between entries, for any dependency map. */
  function PackageTextFixed(deploymentId: string, deps: map<string, string>, entries: seq<(string, string)>): (r: string)
    requires Enumerates(entries, deps.Items)
    ensures |PackageHead(deploymentId)| + |PackageFoot| < |r|
    ensures EndsWithQuote(r[|PackageHead(deploymentId)|..|r| - |PackageFoot|])
    ensures deps != map[] ==> r == PackageText(deploymentId, DependencyBody(DependencyLines(deps, entries)))
  {
    var lines := DependencyLines(deps, entries);
    DependencyLinesEndWithQuote(deps, entries);
    var body := DependencyBodyFixed(lines);
    PackageText(deploymentId, body)
  }

  /**
   `FillPackageJson` corrected: the dependencies object always ends with an
   entry, never with a separator, and equals the source's text whenever
   there is at least one collected dependency.
   */
  function FillPackageJsonFixed(b: NodeJsBuilder, connectionOrder: seq<string>, entries: seq<(string, string)>): (r: string)
    requires Enumerates(connectionOrder, b.environment.connections.Keys)
    requires Enumerates(entries, CollectDependencies(b, connectionOrder).Items)
    ensures |PackageHead(b.deploymentId)| + |PackageFoot| < |r|
    ensures EndsWithQuote(r[|PackageHead(b.deploymentId)|..|r| - |PackageFoot|])
    ensures CollectDependencies(b, connectionOrder) != map[] ==> r == FillPackageJson(b, connectionOrder, entries)
  {
    PackageTextFixed(b.deploymentId, CollectDependencies(b, connectionOrder), entries)
  }
}
