/**
 The secret / environment-variable mapper of builder.go. Every string value
 of a connection or processor config that a deployment touches names a
 secret; the secret is bound to an environment variable whose name is the
 secret upper-cased with '-' replaced by '_'. The bindings are rendered as
 the `env:` entries of the Kubernetes deployment template, each read from
 the secret store entry of the same name.
 */
module Secrets {
  import opened Results
  import opened Model
  import opened Seqs
  import opened Text

  /** Secret name to environment-variable name. */
  type SecretMappings = map<string, string>

  /** `strings.ToUpper(strings.Replace(secret, "-", "_", -1))`. */
  function EnvVarName(secret: string): (r: string)
    ensures |r| == |secret|
    ensures forall i :: 0 <= i < |r| ==> r[i] != '-' && !IsLowerAscii(r[i])
    ensures forall i :: 0 <= i < |r| ==> (secret[i] == '-' ==> r[i] == '_')
    ensures forall i :: 0 <= i < |r| ==> (secret[i] != '-' ==> r[i] == UpperAscii(secret[i]))
  {
    ToUpperAscii(ReplaceChar(secret, '-', '_'))
  }

  /** Deriving a name from a derived name changes nothing. */
  lemma {:induction false} EnvVarNameIdempotent(secret: string)
    ensures EnvVarName(EnvVarName(secret)) == EnvVarName(secret)
  {
    var once := EnvVarName(secret);
    assert forall i :: 0 <= i < |once| ==> EnvVarName(once)[i] == once[i];
  }

  /** Derivation neither adds nor removes line breaks. */
  lemma {:induction false} EnvVarNameKeepsNewlines(secret: string)
    ensures '\n' in EnvVarName(secret) <==> '\n' in secret
  {
    var r := EnvVarName(secret);
    if '\n' in secret {
      var i :| 0 <= i < |secret| && secret[i] == '\n';
      assert r[i] == '\n';
    }
    if '\n' in r {
      var i :| 0 <= i < |r| && r[i] == '\n';
      assert secret[i] == '\n';
    }
  }

  /** `db-pass` and `db_pass` both derive `DB_PASS`. */
  lemma {:induction false} DbPassNames()
    ensures EnvVarName("db-pass") == EnvVarName("db_pass") == "DB_PASS"
  {
    var a := EnvVarName("db-pass");
    var b := EnvVarName("db_pass");
    assert a[0] == b[0] == 'D' && a[1] == b[1] == 'B' && a[2] == b[2] == '_' && a[3] == b[3] == 'P';
    assert a[4] == b[4] == 'A' && a[5] == b[5] == 'S' && a[6] == b[6] == 'S';
  }

  /** Distinct secrets may derive the same variable; both stay bound, neither is dropped. */
  lemma {:induction false} CollidingSecretsBothBound()
    ensures EnvVarName("db-pass") == EnvVarName("db_pass") == "DB_PASS"
    ensures var m := AddSecretEnvVarMappings(map[], map["a" := "db-pass", "b" := "db_pass"]);
      m == map["db-pass" := "DB_PASS", "db_pass" := "DB_PASS"]
  {
    DbPassNames();
    var config := map["a" := "db-pass", "b" := "db_pass"];
    assert config["a"] == "db-pass" && config["b"] == "db_pass";
    assert config.Values == {"db-pass", "db_pass"};
    var m := AddSecretEnvVarMappings(map[], config);
    assert m.Keys == {"db-pass", "db_pass"};
  }

  predicate WellNamed(mappings: SecretMappings) {
    forall s :: s in mappings ==> mappings[s] == EnvVarName(s)
  }

  /** `addSecretEnvVarMappings`: binds every value of `config` to its derived variable. */
  function AddSecretEnvVarMappings(mappings: SecretMappings, config: Config): (r: SecretMappings)
    ensures r.Keys == mappings.Keys + config.Values
    ensures forall s :: s in config.Values ==> r[s] == EnvVarName(s)
    ensures forall s :: s in mappings && s !in config.Values ==> r[s] == mappings[s]
  {
    mappings + map s | s in config.Values :: EnvVarName(s)
  }

  /** `s` is a value of some config in `configs`. */
  predicate InSomeConfig(configs: seq<Config>, s: string) {
    exists j :: 0 <= j < |configs| && s in configs[j].Values
  }

  /** Applies `AddSecretEnvVarMappings` for each config in turn. */
  function AddAll(mappings: SecretMappings, configs: seq<Config>): (r: SecretMappings)
    ensures forall s :: s in r <==> s in mappings || InSomeConfig(configs, s)
    ensures WellNamed(mappings) ==> WellNamed(r)
    decreases |configs|
  {
    if configs == [] then mappings
    else
      var r := AddAll(AddSecretEnvVarMappings(mappings, configs[0]), configs[1..]);
      assert forall s :: InSomeConfig(configs, s) <==> s in configs[0].Values || InSomeConfig(configs[1..], s) by {
        forall s ensures InSomeConfig(configs, s) <==> s in configs[0].Values || InSomeConfig(configs[1..], s) {
          InSomeConfigSplit(configs, s);
        }
      }
      r
  }

  lemma {:induction false} InSomeConfigSplit(configs: seq<Config>, s: string)
    requires configs != []
    ensures InSomeConfig(configs, s) <==> s in configs[0].Values || InSomeConfig(configs[1..], s)
  {
    if InSomeConfig(configs, s) {
      var j :| 0 <= j < |configs| && s in configs[j].Values;
      if j > 0 {
        assert configs[1..][j - 1] == configs[j];
      }
    }
    if InSomeConfig(configs[1..], s) {
      var j :| 0 <= j < |configs[1..]| && s in configs[1..][j].Values;
      assert configs[j + 1] == configs[1..][j];
    }
  }

  lemma {:induction false} InSomeConfigAppend(xs: seq<Config>, ys: seq<Config>, s: string)
    ensures InSomeConfig(xs + ys, s) <==> InSomeConfig(xs, s) || InSomeConfig(ys, s)
  {
    var all := xs + ys;
    if InSomeConfig(all, s) {
      var j :| 0 <= j < |all| && s in all[j].Values;
      if j >= |xs| {
        assert ys[j - |xs|] == all[j];
      }
    }
    if InSomeConfig(xs, s) {
      var j :| 0 <= j < |xs| && s in xs[j].Values;
      assert all[j] == xs[j];
    }
    if InSomeConfig(ys, s) {
      var j :| 0 <= j < |ys| && s in ys[j].Values;
      assert all[|xs| + j] == ys[j];
    }
  }

  /** The config of connection `c` (empty when the environment has none). */
  function ConfigOf(env: Environment, c: string): Config {
    ConnectionOf(env, c).config
  }

  function ConnectionConfigs(env: Environment, connections: seq<string>): seq<Config> {
    Map((c: string) => ConfigOf(env, c), connections)
  }

  lemma {:induction false} ConnectionConfigsValues(env: Environment, connections: seq<string>, s: string)
    ensures InSomeConfig(ConnectionConfigs(env, connections), s)
      <==> exists c :: c in connections && s in ConfigOf(env, c).Values
  {
    var cs := ConnectionConfigs(env, connections);
    if InSomeConfig(cs, s) {
      var j :| 0 <= j < |cs| && s in cs[j].Values;
      assert connections[j] in connections;
    }
    if exists c :: c in connections && s in ConfigOf(env, c).Values {
      var c :| c in connections && s in ConfigOf(env, c).Values;
      var j :| 0 <= j < |connections| && connections[j] == c;
      assert s in cs[j].Values;
    }
  }

  /** The configs a node contributes, in visiting order: inputs, outputs, then its processor. */
  function NodeConfigs(env: Environment, node: Node, nodeId: string): seq<Config> {
    ConnectionConfigs(env, node.inputs) + ConnectionConfigs(env, node.outputs) + [ProcessorConfigOf(env, nodeId)]
  }

  /** `s` is a string value of a config that node `nodeId` touches. */
  predicate NodeReferences(env: Environment, topology: Topology, nodeId: string, s: string) {
    var node := NodeOf(topology, nodeId);
    || (exists c :: c in node.inputs && s in ConfigOf(env, c).Values)
    || (exists c :: c in node.outputs && s in ConfigOf(env, c).Values)
    || s in ProcessorConfigOf(env, nodeId).Values
  }

  /** `s` is a string value of a config that some node of `nodes` touches. */
  predicate Referenced(env: Environment, topology: Topology, nodes: seq<string>, s: string) {
    exists i :: 0 <= i < |nodes| && NodeReferences(env, topology, nodes[i], s)
  }

  /** A value is in one of the configs a node contributes exactly when the node touches it. */
  lemma {:induction false} NodeConfigsValues(env: Environment, topology: Topology, nodeId: string, s: string)
    requires nodeId in topology.nodes
    ensures InSomeConfig(NodeConfigs(env, topology.nodes[nodeId], nodeId), s) <==> NodeReferences(env, topology, nodeId, s)
  {
    var node := topology.nodes[nodeId];
    var ins := ConnectionConfigs(env, node.inputs);
    var outs := ConnectionConfigs(env, node.outputs);
    var own: seq<Config> := [ProcessorConfigOf(env, nodeId)];
    InSomeConfigAppend(ins + outs, own, s);
    InSomeConfigAppend(ins, outs, s);
    ConnectionConfigsValues(env, node.inputs, s);
    ConnectionConfigsValues(env, node.outputs, s);
    assert InSomeConfig(own, s) <==> s in own[0].Values;
  }

  /** The loop of `collectEnvVarSecretMappings`: nothing at the first unknown node. */
  function CollectFrom(env: Environment, topology: Topology, nodes: seq<string>, acc: SecretMappings): (r: Option<SecretMappings>)
    ensures r.None? <==> exists i :: 0 <= i < |nodes| && nodes[i] !in topology.nodes
    ensures r.Some? ==> forall s :: s in r.value <==> s in acc || Referenced(env, topology, nodes, s)
    ensures r.Some? && WellNamed(acc) ==> WellNamed(r.value)
    decreases |nodes|
  {
    if nodes == [] then Some(acc)
    else if nodes[0] !in topology.nodes then None
    else
      var next := AddAll(acc, NodeConfigs(env, topology.nodes[nodes[0]], nodes[0]));
      var r := CollectFrom(env, topology, nodes[1..], next);
      assert forall i :: 0 <= i < |nodes[1..]| ==> nodes[1..][i] == nodes[i + 1];
      ReferencedSplit(env, topology, nodes);
      forall s
        ensures s in next <==> s in acc || NodeReferences(env, topology, nodes[0], s)
      {
        NodeConfigsValues(env, topology, nodes[0], s);
      }
      r
  }

  lemma {:induction false} ReferencedSplit(env: Environment, topology: Topology, nodes: seq<string>)
    requires nodes != []
    ensures forall s :: Referenced(env, topology, nodes, s) <==>
      NodeReferences(env, topology, nodes[0], s) || Referenced(env, topology, nodes[1..], s)
  {
    forall s
      ensures Referenced(env, topology, nodes, s) <==>
        NodeReferences(env, topology, nodes[0], s) || Referenced(env, topology, nodes[1..], s)
    {
      if Referenced(env, topology, nodes, s) {
        var i :| 0 <= i < |nodes| && NodeReferences(env, topology, nodes[i], s);
        if i > 0 {
          assert nodes[1..][i - 1] == nodes[i];
        }
      }
      if Referenced(env, topology, nodes[1..], s) {
        var i :| 0 <= i < |nodes[1..]| && NodeReferences(env, topology, nodes[1..][i], s);
        assert nodes[i + 1] == nodes[1..][i];
      }
    }
  }

  /**
   `collectEnvVarSecretMappings`: nothing if a node of the deployment is
   unknown; otherwise exactly the touched string values, each bound to its
   derived variable.
   */
  function CollectEnvVarSecretMappings(env: Environment, topology: Topology, deploymentId: string): (r: Option<SecretMappings>)
    ensures var nodes := DeploymentOf(env, deploymentId).nodes;
      r.None? <==> exists i :: 0 <= i < |nodes| && nodes[i] !in topology.nodes
    ensures r.Some? ==> forall s :: s in r.value <==> Referenced(env, topology, DeploymentOf(env, deploymentId).nodes, s)
    ensures r.Some? ==> WellNamed(r.value)
  {
    CollectFrom(env, topology, DeploymentOf(env, deploymentId).nodes, map[])
  }

  // ----- Rendering -----

  const BlockHead: string := "\n" + "        - name: "
  const BlockMiddle: string := "\n" + "          valueFrom:\n            secretKeyRef:\n              name: "
  const BlockTail: string := "\n" + "              key: "

  /** `buildEnvVarSecretBlock`: one `env:` entry reading `envVar` from the secret `secret`. */
  function BuildEnvVarSecretBlock(secret: string, envVar: string): string {
    BlockHead + envVar + BlockMiddle + secret + BlockTail + envVar
  }

  /** What follows `prefix` in `s`, if `s` starts with it. */
  function AfterPrefix(s: string, prefix: string): Option<string> {
    if HasPrefix(s, prefix) then Some(s[|prefix|..]) else None
  }

  /** `s` split before its first line break, if it has one. */
  function UpToNewline(s: string): Option<(string, string)> {
    if '\n' in s then Some((s[..FirstIndex(s, '\n')], s[FirstIndex(s, '\n')..])) else None
  }

  /**
   Reads `head`, a variable up to the line break, `middle`, a secret up to
   the line break, `tail`, and the same variable again.
   */
  function ParseEntry(block: string, head: string, middle: string, tail: string): Option<(string, string)> {
    var afterHead :- AfterPrefix(block, head);
    var varLine :- UpToNewline(afterHead);
    var afterMiddle :- AfterPrefix(varLine.1, middle);
    var secretLine :- UpToNewline(afterMiddle);
    var key :- AfterPrefix(secretLine.1, tail);
    if key == varLine.0 then Some((secretLine.0, varLine.0)) else None
  }

  /** Reads back the secret and variable of an entry written by `BuildEnvVarSecretBlock`. */
  function ParseEnvVarSecretBlock(block: string): Option<(string, string)> {
    ParseEntry(block, BlockHead, BlockMiddle, BlockTail)
  }

  lemma {:induction false} AfterPrefixOf(prefix: string, rest: string)
    ensures AfterPrefix(prefix + rest, prefix) == Some(rest)
  {
    assert (prefix + rest)[..|prefix|] == prefix;
    assert (prefix + rest)[|prefix|..] == rest;
  }

  lemma {:induction false} UpToNewlineOf(line: string, rest: string)
    requires '\n' !in line && rest != [] && rest[0] == '\n'
    ensures UpToNewline(line + rest) == Some((line, rest))
  {
    FirstIndexAfter(line, rest, '\n');
    assert (line + rest)[..|line|] == line;
    assert (line + rest)[|line|..] == rest;
  }

  /** Any entry whose separators begin new lines reads back its one-line fields. */
  lemma {:induction false} ParseEntryRoundTrip(head: string, middle: string, tail: string, secret: string, envVar: string)
    requires middle != [] && middle[0] == '\n' && tail != [] && tail[0] == '\n'
    requires '\n' !in secret && '\n' !in envVar
    ensures ParseEntry(head + envVar + middle + secret + tail + envVar, head, middle, tail) == Some((secret, envVar))
  {
    var afterSecret := secret + (tail + envVar);
    var afterHead := envVar + (middle + afterSecret);
    assert head + envVar + middle + secret + tail + envVar == head + afterHead;
    AfterPrefixOf(head, afterHead);
    UpToNewlineOf(envVar, middle + afterSecret);
    AfterPrefixOf(middle, afterSecret);
    UpToNewlineOf(secret, tail + envVar);
    AfterPrefixOf(tail, envVar);
  }

  /** An entry names its variable twice and its secret once, and can be read back. */
  lemma {:induction false} EnvVarSecretBlockRoundTrip(secret: string, envVar: string)
    requires '\n' !in secret && '\n' !in envVar
    ensures ParseEnvVarSecretBlock(BuildEnvVarSecretBlock(secret, envVar)) == Some((secret, envVar))
  {
    assert BlockMiddle[0] == '\n' && BlockTail[0] == '\n';
    ParseEntryRoundTrip(BlockHead, BlockMiddle, BlockTail, secret, envVar);
  }

  /** The bindings of a deployment; a deployment with an unknown node has none. */
  function MappingsOrEmpty(env: Environment, topology: Topology, deploymentId: string): SecretMappings {
    CollectEnvVarSecretMappings(env, topology, deploymentId).GetOr(map[])
  }

  function SecretBlocks(entries: seq<(string, string)>): seq<string> {
    Map((e: (string, string)) => BuildEnvVarSecretBlock(e.0, e.1), entries)
  }

  /** One entry per binding of `m`, visited in `entries` order, and nothing else. */
  lemma {:induction false} SecretBlocksOf(m: SecretMappings, entries: seq<(string, string)>)
    requires WellNamed(m) && Enumerates(entries, m.Items)
    ensures |SecretBlocks(entries)| == |m|
    ensures forall s :: s in m ==> BuildEnvVarSecretBlock(s, EnvVarName(s)) in SecretBlocks(entries)
    ensures forall i :: 0 <= i < |entries| ==>
      entries[i].0 in m && SecretBlocks(entries)[i] == BuildEnvVarSecretBlock(entries[i].0, EnvVarName(entries[i].0))
  {
    EnumeratesMembers(entries, m.Items);
    assert |m.Items| == |m|;
    forall s | s in m
      ensures BuildEnvVarSecretBlock(s, EnvVarName(s)) in SecretBlocks(entries)
    {
      assert (s, m[s]) in m.Items;
      var i :| 0 <= i < |entries| && entries[i] == (s, m[s]);
      assert SecretBlocks(entries)[i] == BuildEnvVarSecretBlock(s, EnvVarName(s));
    }
    forall i | 0 <= i < |entries|
      ensures entries[i].0 in m && entries[i].1 == EnvVarName(entries[i].0)
    {
      assert entries[i] in m.Items;
    }
  }

  /** The entries of one deployment: one per binding, each for a touched secret. */
  lemma {:induction false} SecretBlocksOnePerBinding(env: Environment, topology: Topology, deploymentId: string, entries: seq<(string, string)>)
    requires Enumerates(entries, MappingsOrEmpty(env, topology, deploymentId).Items)
    ensures |SecretBlocks(entries)| == |MappingsOrEmpty(env, topology, deploymentId)|
    ensures forall s :: s in MappingsOrEmpty(env, topology, deploymentId) ==>
      BuildEnvVarSecretBlock(s, EnvVarName(s)) in SecretBlocks(entries)
    ensures forall i :: 0 <= i < |entries| ==>
      && Referenced(env, topology, DeploymentOf(env, deploymentId).nodes, entries[i].0)
      && SecretBlocks(entries)[i] == BuildEnvVarSecretBlock(entries[i].0, EnvVarName(entries[i].0))
  {
    var m := MappingsOrEmpty(env, topology, deploymentId);
    assert WellNamed(m);
    SecretBlocksOf(m, entries);
  }

  lemma {:induction false} BlockNonEmpty(secret: string, envVar: string)
    ensures BuildEnvVarSecretBlock(secret, envVar) != ""
  {
    assert BlockHead != "";
  }

  /** Different visiting orders give the same entries, possibly rearranged. */
  lemma {:induction false} SecretBlocksOrderFree(env: Environment, topology: Topology, deploymentId: string, entries: seq<(string, string)>, others: seq<(string, string)>)
    requires Enumerates(entries, MappingsOrEmpty(env, topology, deploymentId).Items)
    requires Enumerates(others, MappingsOrEmpty(env, topology, deploymentId).Items)
    ensures multiset(SecretBlocks(entries)) == multiset(SecretBlocks(others))
  {
    MapMultiset((e: (string, string)) => BuildEnvVarSecretBlock(e.0, e.1), entries, others);
  }

  /**
   `buildDeploymentSecretsEnvVarBlock`: the entries concatenated in map
   order; empty exactly when the deployment has no bindings.
   */
  function BuildDeploymentSecretsEnvVarBlock(env: Environment, topology: Topology, deploymentId: string, entries: seq<(string, string)>): (r: string)
    requires Enumerates(entries, MappingsOrEmpty(env, topology, deploymentId).Items)
    ensures r == "" <==> MappingsOrEmpty(env, topology, deploymentId) == map[]
  {
    var m := MappingsOrEmpty(env, topology, deploymentId);
    assert WellNamed(m);
    SecretsBlockOf(m, entries)
  }

  /** The rendered `env:` text holds the entry of every binding of the deployment. */
  lemma {:induction false} EnvVarBlockHasEachBinding(env: Environment, topology: Topology, deploymentId: string, entries: seq<(string, string)>, secret: string)
    requires Enumerates(entries, MappingsOrEmpty(env, topology, deploymentId).Items)
    requires secret in MappingsOrEmpty(env, topology, deploymentId)
    ensures Contains(BuildDeploymentSecretsEnvVarBlock(env, topology, deploymentId, entries),
                     BuildEnvVarSecretBlock(secret, EnvVarName(secret)))
  {
    SecretBlocksOnePerBinding(env, topology, deploymentId, entries);
    var blocks := SecretBlocks(entries);
    var i :| 0 <= i < |blocks| && blocks[i] == BuildEnvVarSecretBlock(secret, EnvVarName(secret));
    ConcatHasElement(blocks, i);
    assert BuildDeploymentSecretsEnvVarBlock(env, topology, deploymentId, entries) == Concat(blocks);
  }

  /** The entries of `m` concatenated in `entries` order; empty exactly when `m` is. */
  function SecretsBlockOf(m: SecretMappings, entries: seq<(string, string)>): (r: string)
    requires WellNamed(m) && Enumerates(entries, m.Items)
    ensures r == "" <==> m == map[]
  {
    SecretBlocksOf(m, entries);
    var blocks := SecretBlocks(entries);
    assert forall i :: 0 <= i < |blocks| ==> blocks[i] != "" by {
      forall i | 0 <= i < |blocks| ensures blocks[i] != "" {
        BlockNonEmpty(entries[i].0, entries[i].1);
      }
    }
    assert |m| == 0 <==> m == map[];
    Concat(blocks)
  }
}
