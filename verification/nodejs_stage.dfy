/**
 The pieces of a node.js stage's `stage.js` (nodejsPlatformBuilder.go):
 the `require` declarations, one instantiation per touched connection and per
 node processor, and one `new Node(...)` expression per deployment node.
 Connection-side lists are built by iterating Go maps and then sorted;
 processor imports and node expressions follow the deployment's node list.
 */
module NodeJsStage {
  import opened Model
  import opened Seqs
  import opened Sorting
  import opened Text

  /** The node reads from or writes to connection `c`. */
  predicate ListsConnection(node: Node, c: string) {
    c in node.inputs || c in node.outputs
  }

  /** The connections `nodes` read from or write to, gathered node by node. */
  function TouchedConnections(topology: Topology, nodes: seq<string>): set<string>
    decreases |nodes|
  {
    if nodes == [] then {}
    else
      var node := NodeOf(topology, nodes[|nodes| - 1]);
      TouchedConnections(topology, nodes[..|nodes| - 1]) + set c | c in node.inputs + node.outputs
  }

  /** A connection is gathered exactly when one of the nodes lists it as an input or an output. */
  lemma {:induction false} TouchedConnectionsIff(topology: Topology, nodes: seq<string>, c: string)
    ensures c in TouchedConnections(topology, nodes) <==>
      exists i :: 0 <= i < |nodes| && ListsConnection(NodeOf(topology, nodes[i]), c)
    decreases |nodes|
  {
    if nodes != [] {
      var front := nodes[..|nodes| - 1];
      var last := NodeOf(topology, nodes[|nodes| - 1]);
      TouchedConnectionsIff(topology, front, c);
      assert c in last.inputs + last.outputs <==> ListsConnection(last, c);
      if exists i :: 0 <= i < |front| && ListsConnection(NodeOf(topology, front[i]), c) {
        var i :| 0 <= i < |front| && ListsConnection(NodeOf(topology, front[i]), c);
        assert front[i] == nodes[i];
      }
      if exists i :: 0 <= i < |nodes| && ListsConnection(NodeOf(topology, nodes[i]), c) {
        var i :| 0 <= i < |nodes| && ListsConnection(NodeOf(topology, nodes[i]), c);
        if i < |front| {
          assert front[i] == nodes[i];
        }
      }
    }
  }

  /** `consolidateDeploymentConnections`. */
  function ConsolidateDeploymentConnections(b: NodeJsBuilder): set<string> {
    TouchedConnections(b.topology, b.deployment.nodes)
  }

  /** Each input and output of a deployment node is a touched connection. */
  lemma {:induction false} NodeConnectionTouched(b: NodeJsBuilder, i: nat, c: string)
    requires i < |b.deployment.nodes|
    requires c in NodeOf(b.topology, b.deployment.nodes[i]).inputs || c in NodeOf(b.topology, b.deployment.nodes[i]).outputs
    ensures c in ConsolidateDeploymentConnections(b)
  {
    TouchedConnectionsIff(b.topology, b.deployment.nodes, c);
    assert ListsConnection(NodeOf(b.topology, b.deployment.nodes[i]), c);
  }

  /** Reordering the deployment's nodes does not change which connections it touches. */
  lemma {:induction false} ConsolidatedOrderFree(topology: Topology, nodes: seq<string>, others: seq<string>)
    requires multiset(nodes) == multiset(others)
    ensures TouchedConnections(topology, nodes) == TouchedConnections(topology, others)
  {
    forall c
      ensures c in TouchedConnections(topology, nodes) <==> c in TouchedConnections(topology, others)
    {
      TouchedConnectionsIff(topology, nodes, c);
      TouchedConnectionsIff(topology, others, c);
      if exists i :: 0 <= i < |nodes| && ListsConnection(NodeOf(topology, nodes[i]), c) {
        var i :| 0 <= i < |nodes| && ListsConnection(NodeOf(topology, nodes[i]), c);
        assert nodes[i] in multiset(others);
        var k :| 0 <= k < |others| && others[k] == nodes[i];
      }
      if exists i :: 0 <= i < |others| && ListsConnection(NodeOf(topology, others[i]), c) {
        var i :| 0 <= i < |others| && ListsConnection(NodeOf(topology, others[i]), c);
        assert others[i] in multiset(nodes);
        var k :| 0 <= k < |nodes| && nodes[k] == others[i];
      }
    }
  }

  // ---------------------------------------------------------------- imports

  /** Every (touched connection, package it depends on) pair. */
  function ImportPairs(b: NodeJsBuilder): set<(string, string)> {
    set c, p | c in ConsolidateDeploymentConnections(b) && p in ConnectionOf(b.environment, c).dependencies :: (c, p)
  }

  function ConnectionImport(pair: (string, string)): string {
    "    " + pair.0 + "ConnectionClass = require('" + pair.1 + "')"
  }

  function ProcessorImport(nodeId: string, file: string): string {
    "    " + nodeId + "ProcessorClass = require('" + file + "')"
  }

  /**
   The connection `require` declarators, sorted; `pairs` is the order the
   nested Go map iterations visit the pairs in.
   */
  function ConnectionImports(b: NodeJsBuilder, pairs: seq<(string, string)>): (r: seq<string>)
    requires Enumerates(pairs, ImportPairs(b))
    ensures Sorted(r)
    ensures |r| == |ImportPairs(b)|
  {
    SortedImage(ConnectionImport, pairs, ImportPairs(b))
  }

  /** A touched connection gets one declarator per package it depends on. */
  lemma {:induction false} ConnectionImportsCover(b: NodeJsBuilder, pairs: seq<(string, string)>, c: string, p: string)
    requires Enumerates(pairs, ImportPairs(b))
    requires c in ConsolidateDeploymentConnections(b) && p in ConnectionOf(b.environment, c).dependencies
    ensures ConnectionImport((c, p)) in ConnectionImports(b, pairs)
  {
    assert (c, p) in ImportPairs(b);
    SortedImageCovers(ConnectionImport, pairs, ImportPairs(b), (c, p));
  }

  /** Every connection declarator occurs in the declarators after any head. */
  lemma {:induction false} BodyHasConnection(head: string, connectionLines: seq<string>, processorLines: seq<string>, i: nat)
    requires i < |connectionLines|
    ensures Contains(head + ImportsBody(connectionLines, processorLines), connectionLines[i])
  {
    var rest := ",\n" + Join(processorLines, ",\n") + ";";
    JoinHasElement(connectionLines, ",\n", i);
    ContainsWithin(head, Join(connectionLines, ",\n"), rest, connectionLines[i]);
    assert ImportsBody(connectionLines, processorLines) == Join(connectionLines, ",\n") + rest;
    assert head + ImportsBody(connectionLines, processorLines) == head + Join(connectionLines, ",\n") + rest;
  }

  /**
   A touched connection that depends on `p` has its class declared in the
   generated declaration: `<c>ConnectionClass = require('<p>')` occurs in it.
   */
  lemma {:induction false} ConnectionClassDeclared(b: NodeJsBuilder, pairs: seq<(string, string)>, c: string, p: string)
    requires Enumerates(pairs, ImportPairs(b))
    requires c in ConsolidateDeploymentConnections(b) && p in ConnectionOf(b.environment, c).dependencies
    ensures Contains(FillImports(b, pairs), ConnectionImport((c, p)))
  {
    var lines := ConnectionImports(b, pairs);
    ConnectionImportsCover(b, pairs, c, p);
    var i :| 0 <= i < |lines| && lines[i] == ConnectionImport((c, p));
    BodyHasConnection(ImportsHead, lines, ProcessorImports(b), i);
  }

  /** Every connection declarator requires a package that a touched connection depends on. */
  lemma {:induction false} ConnectionImportsOnly(b: NodeJsBuilder, pairs: seq<(string, string)>, line: string)
    requires Enumerates(pairs, ImportPairs(b))
    requires line in ConnectionImports(b, pairs)
    ensures exists c, p ::
      && c in ConsolidateDeploymentConnections(b)
      && p in ConnectionOf(b.environment, c).dependencies
      && line == ConnectionImport((c, p))
  {
    SortedImageOnly(ConnectionImport, pairs, ImportPairs(b), line);
    var pair :| pair in ImportPairs(b) && line == ConnectionImport(pair);
    assert pair.0 in ConsolidateDeploymentConnections(b) && pair.1 in ConnectionOf(b.environment, pair.0).dependencies;
  }

  /** The file a node's processor is loaded from (empty for a node the topology lacks). */
  function ProcessorFile(topology: Topology, id: string): string {
    NodeOf(topology, id).processor.file
  }

  /** The `require` declarator of node `n`'s processor class. */
  function NodeProcessorImport(b: NodeJsBuilder, n: string): string {
    ProcessorImport(n, ProcessorFile(b.topology, n))
  }

  /** The processor `require` declarators, one per deployment node, in node order. */
  function ProcessorImports(b: NodeJsBuilder): (r: seq<string>)
    ensures |r| == |b.deployment.nodes|
    ensures forall i :: 0 <= i < |r| ==> r[i] == NodeProcessorImport(b, b.deployment.nodes[i])
  {
    Map((n: string) => NodeProcessorImport(b, n), b.deployment.nodes)
  }

  /** The fixed declarators the generated stage starts with, each line ending in a separator. */
  const ImportsHead: string := Join([
    "const { Node, Topology } = require('topological'),",
    "    express = require('express'),",
    "    app = express(),",
    "    server = require('http').createServer(app),",
    "    promClient = require('prom-client'),",
    ""], "\n")

  /** What follows the preamble as the source writes it: connections, a separator, processors, `;`. */
  function ImportsBody(connectionLines: seq<string>, processorLines: seq<string>): string {
    Join(connectionLines, ",\n") + ",\n" + Join(processorLines, ",\n") + ";"
  }

  /** The declaration statement: the preamble, then the declarators. */
  function ImportsText(connectionLines: seq<string>, processorLines: seq<string>): (r: string)
    ensures HasPrefix(r, ImportsHead)
    ensures r[|r| - 1] == ';'
  {
    PrefixBehind(ImportsHead, ImportsBody(connectionLines, processorLines), "");
    ImportsHead + ImportsBody(connectionLines, processorLines)
  }

  /** `FillImports`. */
  function FillImports(b: NodeJsBuilder, pairs: seq<(string, string)>): (r: string)
    requires Enumerates(pairs, ImportPairs(b))
    ensures HasPrefix(r, ImportsHead)
    ensures r[|r| - 1] == ';'
  {
    ImportsText(ConnectionImports(b, pairs), ProcessorImports(b))
  }

  /** Visiting the connection and dependency maps in another order yields the same text. */
  lemma {:induction false} FillImportsOrderFree(b: NodeJsBuilder, pairs: seq<(string, string)>, others: seq<(string, string)>)
    requires Enumerates(pairs, ImportPairs(b)) && Enumerates(others, ImportPairs(b))
    ensures FillImports(b, pairs) == FillImports(b, others)
  {
    SortedImageOrderFree(ConnectionImport, pairs, others, ImportPairs(b));
  }

  /** Where the `i`th processor declarator starts inside `ImportsText`. */
  function ProcessorImportOffset(connectionLines: seq<string>, processorLines: seq<string>, i: nat): nat
    requires i < |processorLines|
  {
    |ImportsHead| + |Join(connectionLines, ",\n")| + 2 + JoinOffset(processorLines, ",\n", i)
  }

  /** After any preamble, the `i`th processor line sits after the connections and the separator. */
  lemma {:induction false} BodyProcessorAt(head: string, connectionLines: seq<string>, processorLines: seq<string>, i: nat)
    requires i < |processorLines|
    ensures OccursAt(head + ImportsBody(connectionLines, processorLines), processorLines[i],
      |head| + |Join(connectionLines, ",\n")| + 2 + JoinOffset(processorLines, ",\n", i))
  {
    var k := JoinOffset(processorLines, ",\n", i);
    JoinContains(processorLines, ",\n", i);
    OccursWithin(Join(connectionLines, ",\n") + ",\n", Join(processorLines, ",\n"), ";", processorLines[i], k);
    OccursBehind(head, ImportsBody(connectionLines, processorLines), processorLines[i],
      |Join(connectionLines, ",\n")| + 2 + k);
  }

  /** In the whole text, the `i`th processor line sits at `ProcessorImportOffset`. */
  lemma {:induction false} ProcessorImportAt(connectionLines: seq<string>, processorLines: seq<string>, i: nat)
    requires i < |processorLines|
    ensures OccursAt(ImportsText(connectionLines, processorLines), processorLines[i],
      ProcessorImportOffset(connectionLines, processorLines, i))
  {
    BodyProcessorAt(ImportsHead, connectionLines, processorLines, i);
  }

  /** Processor declarators appear verbatim and in node order. */
  lemma {:induction false} ProcessorImportsInOrder(connectionLines: seq<string>, processorLines: seq<string>, i: nat, j: nat)
    requires i < j < |processorLines|
    ensures OccursAt(ImportsText(connectionLines, processorLines), processorLines[i], ProcessorImportOffset(connectionLines, processorLines, i))
    ensures OccursAt(ImportsText(connectionLines, processorLines), processorLines[j], ProcessorImportOffset(connectionLines, processorLines, j))
    ensures ProcessorImportOffset(connectionLines, processorLines, i) + |processorLines[i]|
      < ProcessorImportOffset(connectionLines, processorLines, j)
  {
    JoinInOrder(processorLines, ",\n", i, j);
    ProcessorImportAt(connectionLines, processorLines, i);
    ProcessorImportAt(connectionLines, processorLines, j);
  }

  /** The `require` of node `i` precedes that of every later node in the generated declarations. */
  lemma {:induction false} FillImportsProcessorOrder(b: NodeJsBuilder, pairs: seq<(string, string)>, i: nat, j: nat)
    requires Enumerates(pairs, ImportPairs(b))
    requires i < j < |b.deployment.nodes|
    ensures var lines := ProcessorImports(b); var connections := ConnectionImports(b, pairs);
      && OccursAt(FillImports(b, pairs), lines[i], ProcessorImportOffset(connections, lines, i))
      && OccursAt(FillImports(b, pairs), lines[j], ProcessorImportOffset(connections, lines, j))
      && ProcessorImportOffset(connections, lines, i) + |lines[i]| < ProcessorImportOffset(connections, lines, j)
  {
    ProcessorImportsInOrder(ConnectionImports(b, pairs), ProcessorImports(b), i, j);
  }

  /** With no connection declarators the text continues the preamble with a bare separator. */
  lemma {:induction false} ImportsTextEmptyDeclarator(processorLines: seq<string>)
    ensures HasPrefix(ImportsText([], processorLines), ImportsHead + ",\n")
  {
    var body := ImportsBody([], processorLines);
    assert body[..2] == ",\n";
    PrefixBehind(ImportsHead, body, ",\n");
  }

  /**
   As written, when no touched connection has a dependency the declarator
   list continues the preamble with a bare `,`: an empty declarator.
   */
  lemma {:induction false} ImportsEmptyDeclarator(b: NodeJsBuilder, pairs: seq<(string, string)>)
    requires Enumerates(pairs, ImportPairs(b))
    requires ImportPairs(b) == {}
    ensures HasPrefix(FillImports(b, pairs), ImportsHead + ",\n")
  {
    assert ConnectionImports(b, pairs) == [];
    ImportsTextEmptyDeclarator(ProcessorImports(b));
  }

  predicate Indented(line: string) {
    HasPrefix(line, "    ")
  }

  /** The list is empty or its first line is indented. */
  predicate FirstIndented(lines: seq<string>) {
    lines != [] ==> Indented(lines[0])
  }

  /** The declarators as one list with separators only between them. */
  function ImportsBodyFixed(connectionLines: seq<string>, processorLines: seq<string>): (r: string)
    ensures connectionLines != [] && processorLines != [] ==> r == ImportsBody(connectionLines, processorLines)
    ensures connectionLines + processorLines != [] && FirstIndented(connectionLines + processorLines) ==>
      HasPrefix(r, "    ")
  {
    var all := connectionLines + processorLines;
    var r := Join(all, ",\n") + ";";
    assert all != [] && FirstIndented(all) ==> HasPrefix(r, "    ") by {
      if all != [] && FirstIndented(all) {
        JoinStartsWithFirst(all, ",\n");
        assert r[..4] == all[0][..4];
      }
    }
    assert connectionLines != [] && processorLines != [] ==> r == ImportsBody(connectionLines, processorLines) by {
      if connectionLines != [] && processorLines != [] {
        JoinAppend(connectionLines, processorLines, ",\n");
      }
    }
    r
  }

  /** One declarator list with separators only between declarators. */
  function ImportsTextFixed(connectionLines: seq<string>, processorLines: seq<string>): (r: string)
    ensures connectionLines != [] && processorLines != [] ==> r == ImportsText(connectionLines, processorLines)
    ensures connectionLines + processorLines != [] && FirstIndented(connectionLines + processorLines) ==>
      HasPrefix(r, ImportsHead + "    ")
  {
    var body := ImportsBodyFixed(connectionLines, processorLines);
    assert HasPrefix(body, "    ") ==> HasPrefix(ImportsHead + body, ImportsHead + "    ") by {
      if HasPrefix(body, "    ") {
        PrefixBehind(ImportsHead, body, "    ");
      }
    }
    ImportsHead + body
  }

  /** There are connection declarators exactly when some touched connection has a dependency. */
  lemma {:induction false} ConnectionImportsEmpty(b: NodeJsBuilder, pairs: seq<(string, string)>)
    requires Enumerates(pairs, ImportPairs(b))
    ensures ConnectionImports(b, pairs) == [] <==> ImportPairs(b) == {}
  {
    if ImportPairs(b) != {} {
      var pair :| pair in ImportPairs(b);
      assert |ImportPairs(b)| > 0;
    }
  }

  /** The first declarator of the combined list is indented like the preamble's. */
  lemma {:induction false} ImportsIndented(b: NodeJsBuilder, pairs: seq<(string, string)>)
    requires Enumerates(pairs, ImportPairs(b))
    ensures FirstIndented(ConnectionImports(b, pairs) + ProcessorImports(b))
  {
    var lines := ConnectionImports(b, pairs);
    var all := lines + ProcessorImports(b);
    if lines != [] {
      SortedImageOnly(ConnectionImport, pairs, ImportPairs(b), lines[0]);
      var pair :| pair in ImportPairs(b) && lines[0] == ConnectionImport(pair);
      ConnectionImportIndented(pair);
      assert all[0] == lines[0];
    } else if b.deployment.nodes != [] {
      ProcessorImportsIndented(b, 0);
      assert all[0] == ProcessorImports(b)[0];
    }
  }

  lemma {:induction false} ProcessorImportsIndented(b: NodeJsBuilder, i: nat)
    requires i < |b.deployment.nodes|
    ensures Indented(ProcessorImports(b)[i])
  {
    var n := b.deployment.nodes[i];
    ProcessorImportIndented(n, ProcessorFile(b.topology, n));
  }

  lemma {:induction false} ConnectionImportIndented(pair: (string, string))
    ensures Indented(ConnectionImport(pair))
  {
    assert ConnectionImport(pair)[..4] == "    ";
  }

  lemma {:induction false} ProcessorImportIndented(nodeId: string, file: string)
    ensures Indented(ProcessorImport(nodeId, file))
  {
    assert ProcessorImport(nodeId, file)[..4] == "    ";
  }

  /**
   `FillImports` corrected: a single list of declarators with separators only
   between them.
   */
  function FillImportsFixed(b: NodeJsBuilder, pairs: seq<(string, string)>): string
    requires Enumerates(pairs, ImportPairs(b))
  {
    ImportsTextFixed(ConnectionImports(b, pairs), ProcessorImports(b))
  }

  /** The corrected text is the source's whenever both declarator lists are non-empty. */
  lemma {:induction false} FillImportsFixedAgrees(b: NodeJsBuilder, pairs: seq<(string, string)>)
    requires Enumerates(pairs, ImportPairs(b))
    requires ImportPairs(b) != {} && b.deployment.nodes != []
    ensures FillImportsFixed(b, pairs) == FillImports(b, pairs)
  {
    ConnectionImportsEmpty(b, pairs);
  }

  /** With at least one node, the corrected list starts straight with a real declarator. */
  lemma {:induction false} FillImportsFixedNoEmptyDeclarator(b: NodeJsBuilder, pairs: seq<(string, string)>)
    requires Enumerates(pairs, ImportPairs(b))
    requires b.deployment.nodes != []
    ensures HasPrefix(FillImportsFixed(b, pairs), ImportsHead + "    ")
  {
    ImportsIndented(b, pairs);
    assert |ProcessorImports(b)| > 0;
  }

  // ------------------------------------------------------- instantiations

  /** `{}` for an empty configuration, the marshaller's rendering otherwise. */
  function ConfigJson(marshal: Config -> string, config: Config): string {
    if |config| > 0 then marshal(config) else "{}"
  }

  /** `let <name> = new <className>({"id": ..., "config": ...});`, which declares `name`. */
  function Instantiation(name: string, className: string, id: string, json: string): (r: string)
    ensures Declares(r, name)
  {
    var r := "let " + name + " = new " + className + "({\n    \"id\": \"" + id + "\",\n    \"config\": " + json + "\n});";
    assert r[..|"let " + name + " = "|] == "let " + name + " = ";
    r
  }

  /** The statement binding connection `c`'s instance variable. */
  function ConnectionInstantiation(b: NodeJsBuilder, marshal: Config -> string, c: string): string {
    Instantiation(c + "Connection", c + "ConnectionClass", c, ConfigJson(marshal, ConnectionOf(b.environment, c).config))
  }

  /** The statement binding node `n`'s processor variable. */
  function ProcessorInstantiation(b: NodeJsBuilder, marshal: Config -> string, n: string): string {
    Instantiation(n + "Processor", n + "ProcessorClass", n, ConfigJson(marshal, ProcessorConfigOf(b.environment, n)))
  }

  /** Some statement of `statements` declares `name`. */
  predicate DeclaredIn(statements: seq<string>, name: string) {
    exists s :: s in statements && Declares(s, name)
  }

  /** `let <name> = ...`: the statement declares `name`. */
  predicate Declares(statement: string, name: string) {
    HasPrefix(statement, "let " + name + " = ")
  }

  /**
   One instantiation per touched connection, sorted; `order` is the order
   Go's map iteration visits the touched set in.
   */
  function ConnectionInstantiations(b: NodeJsBuilder, marshal: Config -> string, order: seq<string>): (r: seq<string>)
    requires Enumerates(order, ConsolidateDeploymentConnections(b))
    ensures Sorted(r)
    ensures |r| == |ConsolidateDeploymentConnections(b)|
  {
    SortedImage((c: string) => ConnectionInstantiation(b, marshal, c), order, ConsolidateDeploymentConnections(b))
  }

  /** `FillConnections`. */
  function FillConnections(b: NodeJsBuilder, marshal: Config -> string, order: seq<string>): (r: string)
    requires Enumerates(order, ConsolidateDeploymentConnections(b))
    ensures ConsolidateDeploymentConnections(b) == {} <==> r == ""
  {
    var xs := ConnectionInstantiations(b, marshal, order);
    assert xs != [] ==> Join(xs, "\n\n") != "" by {
      if xs != [] {
        JoinStartsWithFirst(xs, "\n\n");
        SortedImageOnly((c: string) => ConnectionInstantiation(b, marshal, c), order, ConsolidateDeploymentConnections(b), xs[0]);
        var c :| c in ConsolidateDeploymentConnections(b) && xs[0] == ConnectionInstantiation(b, marshal, c);
      }
    }
    Join(xs, "\n\n")
  }

  /** The connection block does not depend on Go's map iteration order. */
  lemma {:induction false} FillConnectionsOrderFree(b: NodeJsBuilder, marshal: Config -> string, order: seq<string>, others: seq<string>)
    requires Enumerates(order, ConsolidateDeploymentConnections(b))
    requires Enumerates(others, ConsolidateDeploymentConnections(b))
    ensures FillConnections(b, marshal, order) == FillConnections(b, marshal, others)
  {
    SortedImageOrderFree((c: string) => ConnectionInstantiation(b, marshal, c), order, others, ConsolidateDeploymentConnections(b));
  }

  /** Every touched connection is instantiated in the block, an unconfigured one with `{}`. */
  lemma {:induction false} FillConnectionsInstantiatesEach(b: NodeJsBuilder, marshal: Config -> string, order: seq<string>, c: string)
    requires Enumerates(order, ConsolidateDeploymentConnections(b))
    requires c in ConsolidateDeploymentConnections(b)
    ensures Contains(FillConnections(b, marshal, order), ConnectionInstantiation(b, marshal, c))
    ensures |ConnectionOf(b.environment, c).config| == 0 ==>
      Contains(FillConnections(b, marshal, order), Instantiation(c + "Connection", c + "ConnectionClass", c, "{}"))
  {
    var xs := ConnectionInstantiations(b, marshal, order);
    ConnectionInstantiationsCover(b, marshal, order, c);
    var i :| 0 <= i < |xs| && xs[i] == ConnectionInstantiation(b, marshal, c);
    JoinHasElement(xs, "\n\n", i);
  }

  /** One instantiation per deployment node, sorted. */
  function ProcessorInstantiations(b: NodeJsBuilder, marshal: Config -> string): (r: seq<string>)
    ensures Sorted(r)
    ensures multiset(r) == multiset(Map((n: string) => ProcessorInstantiation(b, marshal, n), b.deployment.nodes))
    ensures forall i :: 0 <= i < |b.deployment.nodes| ==> ProcessorInstantiation(b, marshal, b.deployment.nodes[i]) in r
  {
    var xs := Map((n: string) => ProcessorInstantiation(b, marshal, n), b.deployment.nodes);
    var r := Sort(xs);
    forall i | 0 <= i < |b.deployment.nodes|
      ensures ProcessorInstantiation(b, marshal, b.deployment.nodes[i]) in r
    {
      assert xs[i] in multiset(r);
    }
    r
  }

  /** `FillProcessors`. */
  function FillProcessors(b: NodeJsBuilder, marshal: Config -> string): (r: string)
    ensures b.deployment.nodes == [] <==> r == ""
  {
    var xs := ProcessorInstantiations(b, marshal);
    assert |xs| == |multiset(xs)| == |b.deployment.nodes|;
    assert xs != [] ==> Join(xs, "\n\n") != "" by {
      if xs != [] {
        JoinStartsWithFirst(xs, "\n\n");
        assert xs[0] in multiset(xs);
        var i :| 0 <= i < |b.deployment.nodes| && xs[0] == ProcessorInstantiation(b, marshal, b.deployment.nodes[i]);
      }
    }
    Join(xs, "\n\n")
  }

  /** The processor block depends only on which nodes are deployed, not on their order. */
  lemma {:induction false} FillProcessorsOrderFree(b: NodeJsBuilder, marshal: Config -> string, others: seq<string>)
    requires multiset(others) == multiset(b.deployment.nodes)
    ensures FillProcessors(b.(deployment := b.deployment.(nodes := others)), marshal) == FillProcessors(b, marshal)
  {
    var b' := b.(deployment := b.deployment.(nodes := others));
    var f := (n: string) => ProcessorInstantiation(b, marshal, n);
    assert forall n :: ProcessorInstantiation(b', marshal, n) == f(n);
    assert Map((n: string) => ProcessorInstantiation(b', marshal, n), others) == Map(f, others);
    MapMultiset(f, others, b.deployment.nodes);
    SortedUnique(ProcessorInstantiations(b', marshal), ProcessorInstantiations(b, marshal));
  }

  // ---------------------------------------------------------------- nodes

  /** `buildConnectionInstanceNamesFromIds`. */
  function BuildConnectionInstanceNamesFromIds(ids: seq<string>): (r: seq<string>)
    ensures |r| == |ids|
    ensures forall i :: 0 <= i < |ids| ==> r[i] == ids[i] + "Connection"
  {
    Map((c: string) => c + "Connection", ids)
  }

  const InstanceSuffix: string := "Connection"

  predicate IsInstanceName(name: string) {
    |InstanceSuffix| <= |name| && name[|name| - |InstanceSuffix|..] == InstanceSuffix
  }

  /** Strips the instance suffix: the connection id an instance variable stands for. */
  function ConnectionIdsFromInstanceNames(names: seq<string>): (r: seq<string>)
    requires forall i :: 0 <= i < |names| ==> IsInstanceName(names[i])
    ensures |r| == |names|
    ensures forall i :: 0 <= i < |names| ==> r[i] + InstanceSuffix == names[i]
  {
    seq(|names|, i requires 0 <= i < |names| => StripSuffix(names[i]))
  }

  function StripSuffix(name: string): (id: string)
    requires IsInstanceName(name)
    ensures id + InstanceSuffix == name
  {
    var id := name[..|name| - |InstanceSuffix|];
    assert name == id + name[|name| - |InstanceSuffix|..];
    id
  }

  /** Instance names carry the connection ids and can be read back to them, and the other way round. */
  lemma {:induction false} InstanceNamesRoundTrip(ids: seq<string>, names: seq<string>)
    requires forall i :: 0 <= i < |names| ==> IsInstanceName(names[i])
    ensures var built := BuildConnectionInstanceNamesFromIds(ids);
      (forall i :: 0 <= i < |built| ==> IsInstanceName(built[i])) && ConnectionIdsFromInstanceNames(built) == ids
    ensures BuildConnectionInstanceNamesFromIds(ConnectionIdsFromInstanceNames(names)) == names
  {
    var built := BuildConnectionInstanceNamesFromIds(ids);
    forall i | 0 <= i < |built|
      ensures IsInstanceName(built[i])
    {
      assert built[i][|built[i]| - |InstanceSuffix|..] == InstanceSuffix;
    }
    var back := ConnectionIdsFromInstanceNames(built);
    forall i | 0 <= i < |ids|
      ensures back[i] == ids[i]
    {
      assert back[i] + InstanceSuffix == ids[i] + InstanceSuffix;
      assert back[i] == (back[i] + InstanceSuffix)[..|back[i]|];
    }
  }

  /** The bracketed list of instance names a node expression carries. */
  function InstanceList(ids: seq<string>): string {
    Join(BuildConnectionInstanceNamesFromIds(ids), ",")
  }

  /** The list of a node's connections reads back to its connection ids when no id holds a comma. */
  lemma {:induction false} InstanceListRoundTrip(ids: seq<string>)
    requires ids != []
    requires forall i :: 0 <= i < |ids| ==> ',' !in ids[i]
    ensures var names := Split(InstanceList(ids), ',');
      (forall i :: 0 <= i < |names| ==> IsInstanceName(names[i])) && ConnectionIdsFromInstanceNames(names) == ids
  {
    var names := BuildConnectionInstanceNamesFromIds(ids);
    forall i | 0 <= i < |names|
      ensures ',' !in names[i]
    {
      assert names[i] == ids[i] + "Connection";
    }
    SplitJoin(names, ',');
    InstanceNamesRoundTrip(ids, []);
  }

  /** The `new Node(...)` expression for node `id`. */
  function NodeExpression(id: string, node: Node): string {
    "new Node({\n            id: '" + id + "',\n            inputs: [" + InstanceList(node.inputs)
      + "],\n            processor: " + id + "Processor,\n            outputs: [" + InstanceList(node.outputs)
      + "]\n        })"
  }

  /** The `new Node(...)` expression for deployment node `n` as the topology describes it. */
  function NodeExpressionOf(b: NodeJsBuilder, n: string): string {
    NodeExpression(n, NodeOf(b.topology, n))
  }

  function NodeExpressions(b: NodeJsBuilder): (r: seq<string>)
    ensures |r| == |b.deployment.nodes|
    ensures forall i :: 0 <= i < |r| ==> r[i] == NodeExpressionOf(b, b.deployment.nodes[i])
  {
    Map((n: string) => NodeExpressionOf(b, n), b.deployment.nodes)
  }

  /** `FillNodes`. */
  function FillNodes(b: NodeJsBuilder): (r: string)
    ensures b.deployment.nodes == [] <==> r == ""
  {
    var xs := NodeExpressions(b);
    assert xs != [] ==> Join(xs, ",\n") != "" by {
      if xs != [] {
        JoinStartsWithFirst(xs, ",\n");
      }
    }
    Join(xs, ",\n")
  }

  /** Node expressions appear verbatim and in the deployment's node order. */
  lemma {:induction false} FillNodesInOrder(b: NodeJsBuilder, i: nat, j: nat)
    requires i < j < |b.deployment.nodes|
    ensures var xs := NodeExpressions(b);
      && OccursAt(FillNodes(b), xs[i], JoinOffset(xs, ",\n", i))
      && OccursAt(FillNodes(b), xs[j], JoinOffset(xs, ",\n", j))
      && JoinOffset(xs, ",\n", i) + |xs[i]| < JoinOffset(xs, ",\n", j)
  {
    JoinInOrder(NodeExpressions(b), ",\n", i, j);
  }

  /** The connection instance variables a node expression names, inputs first. */
  function ReferencedInstances(node: Node): seq<string> {
    BuildConnectionInstanceNamesFromIds(node.inputs) + BuildConnectionInstanceNamesFromIds(node.outputs)
  }

  /**
   Every variable a node expression refers to is declared by the generated
   stage: each input and output instance by a connection instantiation, the
   processor by a processor instantiation.
   */
  lemma {:induction false} NodeReferencesDeclared(b: NodeJsBuilder, marshal: Config -> string, order: seq<string>, i: nat)
    requires Enumerates(order, ConsolidateDeploymentConnections(b))
    requires i < |b.deployment.nodes|
    ensures forall k :: 0 <= k < |ReferencedInstances(NodeOf(b.topology, b.deployment.nodes[i]))| ==>
      DeclaredIn(ConnectionInstantiations(b, marshal, order), ReferencedInstances(NodeOf(b.topology, b.deployment.nodes[i]))[k])
    ensures DeclaredIn(ProcessorInstantiations(b, marshal), b.deployment.nodes[i] + "Processor")
  {
    var n := b.deployment.nodes[i];
    var node := NodeOf(b.topology, n);
    var ins := BuildConnectionInstanceNamesFromIds(node.inputs);
    var outs := BuildConnectionInstanceNamesFromIds(node.outputs);
    var names := ReferencedInstances(node);
    assert names == ins + outs;
    forall k | 0 <= k < |names|
      ensures DeclaredIn(ConnectionInstantiations(b, marshal, order), names[k])
    {
      var c := if k < |ins| then node.inputs[k] else node.outputs[k - |ins|];
      assert names[k] == c + "Connection";
      assert c in node.inputs || c in node.outputs;
      NodeConnectionTouched(b, i, c);
      ConnectionDeclared(b, marshal, order, c);
    }
    assert ProcessorInstantiation(b, marshal, n) in ProcessorInstantiations(b, marshal);
  }

  /** A touched connection's instance variable is declared by the connection block. */
  lemma {:induction false} ConnectionDeclared(b: NodeJsBuilder, marshal: Config -> string, order: seq<string>, c: string)
    requires Enumerates(order, ConsolidateDeploymentConnections(b))
    requires c in ConsolidateDeploymentConnections(b)
    ensures DeclaredIn(ConnectionInstantiations(b, marshal, order), c + "Connection")
  {
    ConnectionInstantiationsCover(b, marshal, order, c);
  }

  /** Each touched connection has its instantiation in the list. */
  lemma {:induction false} ConnectionInstantiationsCover(b: NodeJsBuilder, marshal: Config -> string, order: seq<string>, c: string)
    requires Enumerates(order, ConsolidateDeploymentConnections(b))
    requires c in ConsolidateDeploymentConnections(b)
    ensures ConnectionInstantiation(b, marshal, c) in ConnectionInstantiations(b, marshal, order)
  {
    SortedImageCovers((c: string) => ConnectionInstantiation(b, marshal, c), order, ConsolidateDeploymentConnections(b), c);
  }

  /** Every connection instantiation is that of a touched connection. */
  lemma {:induction false} ConnectionInstantiationsOnly(b: NodeJsBuilder, marshal: Config -> string, order: seq<string>, line: string)
    requires Enumerates(order, ConsolidateDeploymentConnections(b))
    requires line in ConnectionInstantiations(b, marshal, order)
    ensures exists c :: c in ConsolidateDeploymentConnections(b) && line == ConnectionInstantiation(b, marshal, c)
  {
    SortedImageOnly((c: string) => ConnectionInstantiation(b, marshal, c), order, ConsolidateDeploymentConnections(b), line);
  }
}
