# topological-cli build core, modelled in Dafny

topological-cli turns two JSON documents into per-deployment build trees:
- a *topology*: nodes, each with input and output connections and a processor;
- an *environment*: connections with their package dependencies and configs, processor configs, and named deployments that group nodes.

This project models the generator at the centre of that tool as pure
functions, and proves what each one produces. The parts modelled are:

- **Deployment resolution** (`Builder.MakeBuilder`). One pass over a deployment's nodes checks that every node exists and that platforms agree. It then dispatches on the platform; only `node.js` has a builder.
- **Secret / environment-variable mapping.** Every string value of a config a deployment touches names a secret. The secret is bound to an environment variable whose name is the secret with `-` replaced by `_`, upper-cased. The bindings are rendered as Kubernetes `env:` entries read from the secret store.
- **The node.js stage generator.** This covers `package.json` dependency aggregation, the `require` declaration block, the connection and processor instantiation blocks, the topology wiring expressions, `values.yaml`, and the base name under which a processor file is copied.
- **The build fold** (`Builder.Build`). Every deployment is built in map order. Each success appends a line to the `deploy-all` script, and the first failure stops the run. This includes the `Chart.yaml` of each deployment.

Modules, in dependency order:

| file | module | contents |
|---|---|---|
| results.dfy | Results | `Option`, `Result` |
| seqs.dfy | Seqs | mapping, concatenation, last-writer-wins map merging, enumerations |
| sorting.dfy | Sorting | byte-wise string order, insertion sort, uniqueness of the sorted arrangement |
| text.dfy | Text | `strings.Join`/`Split`/`Replace`/`ToUpper`, `%d`, a `key: value` line reader |
| model.dfy | Model | topology, environment, deployment, builder state; zero-value lookups |
| resolver.dfy | Resolver | `MakeBuilder` and a declarative account of where its pass stops |
| secrets.dfy | Secrets | secret collection and the `env:` block |
| nodejs_package.dfy | NodeJsPackage | `collectDependencies`, `FillPackageJson` |
| nodejs_stage.dfy | NodeJsStage | connection consolidation, imports, instantiations, wiring |
| nodejs_deploy.dfy | NodeJsDeploy | `FillValuesYaml`, the processor file base name |
| build.dfy | Build | `Chart.yaml`, `BuildDeployment`, the `Build` loop and its script |

Go's map iteration order is unspecified, so every loop over a Go map takes an explicit sequence `xs` that *enumerates* the map: `multiset(xs) == multiset(keys)`. Every sorted output is proved not to depend on which enumeration is supplied, with one exception: the version `package.json` emits for a package can depend on the order the connections are visited in (see below). A read of a missing map key yields the Go zero value; `NodeOf`, `ConnectionOf`, `ProcessorConfigOf` and `DeploymentOf` model those reads.

Some of what the code does is easy to miss:

- **Resolution depends on node order.** A node whose platform is `""` is accepted as long as no non-empty platform has been seen before it, because each node is compared only with the platform of the node before it. So `["a" (no platform), "b" (node.js)]` resolves, while the reverse order is a mismatch (`Resolver.ResolveDependsOnOrder`).
- **Colliding secret names keep both bindings.** Two secrets that derive the same variable name, such as `db-pass` and `db_pass`, are both kept, because the mapping is keyed by secret and not by variable name (`Secrets.CollidingSecretsBothBound`). The deployment then gets two `env:` entries for the same variable.
- **Dependencies come from every connection of the environment.** `package.json` dependencies are collected from all of the environment's connections, not only those the deployment touches.
- **A later writer wins, so versions can depend on order.** When several processors declare one package, the version of the *last* such node in deployment order wins (`NodeJsPackage.DependencyFromLastNode`). When only connections declare it, the last connection visited wins (`NodeJsPackage.DependencyFromLastConnection`), and connections are visited in Go's map order. So two connections declaring `kafka` at `1` and `2` can yield either version (`NodeJsPackage.ConnectionOrderDecidesVersion`). When connections that share a package agree on its version, `package.json` is the same under every visiting order (`NodeJsPackage.FillPackageJsonConnectionOrderFree`).
- **Config values are not rewritten.** Connection and processor configs are inlined as marshalled JSON, secrets included. The secret bindings only add `env:` entries to the deployment manifest.
- **Baseline and collected entries differ in spacing.** Baseline dependency entries are written `"express": "^4.16.2"`, with a space after the colon. Collected entries are written `"name":"version"`, with none.
- **Dependency lines are sorted as whole lines**, not by package name.
- **Connection classes follow the dependencies.** A `<id>ConnectionClass` declarator is written once per package of a touched connection (`NodeJsStage.ConnectionClassDeclared`). A touched connection with two packages therefore gets two declarators of the same class. One with no package gets none, although its instantiation still names `<id>ConnectionClass`.
- **The tests expect older output.** The expectations in `nodejsPlatformBuilder_test.go` (no processor declarators in the imports, a comma after `"start"`, `topological` `^1.0.28`) are not what the current code produces. The model follows the code.
- **The environment has more fields than its type declares.** `environment.go` does not declare the `PullSecret` and `Processors` fields that the code reads. The model's `Environment` has them.

## Model

| member | source | states |
|---|---|---|
| Resolver.MakeBuilder | builder.go:150-187 | a successful resolution yields the builder for exactly this deployment id, deployment, topology and environment, and every node of that deployment exists in the topology |
| Resolver.ScanStopsAtFirstFailure | builder.go:156-171 | the node loop, entered at `i`, returns exactly the error of the first failing node at or after `i`: unknown node, or mismatch with the previous node's platform |
| Resolver.ScanRunsThrough | builder.go:156-171 | when no node from `i` on fails, the loop ends with the last node's platform |
| Resolver.FirstFailureExists | builder.go:156-171 | if any node fails the check, there is a first one |
| Resolver.ResolveFailsAtFirst | builder.go:156-171 | resolution reports the error of the first failing node |
| Resolver.ResolveSucceeds | builder.go:156-171 | with no failing node, resolution yields the last node's platform |
| Resolver.ResolveSuccessIff | builder.go:156-171 | resolution succeeds exactly when no node fails the existence and agreement checks |
| Resolver.ResolveSuccessAllKnown | builder.go:158-163 | a successful resolution implies every node of the deployment is in the topology |
| Resolver.NoFailureHomogeneous | builder.go:165-170 | if resolution passes, every node after one with a non-empty platform has that same platform |
| Resolver.SamePlatformUpTo | builder.go:165-170 | the platform of a node with a non-empty platform carries to every later node when the pass succeeds |
| Resolver.MakeBuilderUnknownNode | builder.go:158-163 | a deployment listing a node the topology lacks cannot produce a builder |
| Resolver.MakeBuilderFirstError | builder.go:150-171 | `MakeBuilder` fails with the unknown-node or mismatched-platforms error of the first failing node, naming the deployment |
| Resolver.MakeBuilderMismatchIff | builder.go:165-167 | `MakeBuilder` reports mismatched platforms exactly when the first failing node exists in the topology |
| Resolver.MakeBuilderSuccessIff | builder.go:173-186 | a builder is produced exactly when the deployment has nodes, the pass succeeds and the last node's platform is `node.js`; then every node's platform is `node.js` or empty |
| Resolver.MakeBuilderEmpty | builder.go:173-184 | a deployment with no nodes resolves to the empty platform and fails as an unknown platform |
| Resolver.ResolveDependsOnOrder | builder.go:165-170 | concrete witness: the same two nodes resolve in one order and mismatch in the other |
| Secrets.EnvVarName | builder.go:191 | the derived name has the secret's length; each `-` becomes `_`, every other character is upper-cased, and no `-` or lower-case ASCII letter remains |
| Secrets.EnvVarNameIdempotent | builder.go:191 | deriving a name from a derived name changes nothing |
| Secrets.EnvVarNameKeepsNewlines | builder.go:191 | the derivation neither adds nor removes line breaks |
| Secrets.DbPassNames | builder.go:191 | `db-pass` and `db_pass` both derive `DB_PASS` |
| Secrets.CollidingSecretsBothBound | builder.go:189-195 | two secrets deriving one variable are both bound to it; neither binding is dropped |
| Secrets.AddSecretEnvVarMappings | builder.go:189-195 | the mapping gains every value of the config, each bound to its derived name; earlier bindings of other secrets are kept |
| Secrets.AddAll | builder.go:211-221 | after adding a sequence of configs, a secret is bound exactly when it was bound before or is a value of one of the configs; well-named bindings stay well named |
| Secrets.ConnectionConfigsValues | builder.go:211-219 | a value is in the configs of a connection list exactly when some listed connection's config holds it |
| Secrets.NodeConfigsValues | builder.go:211-221 | a value is in one of the configs a node contributes (inputs, outputs, processor) exactly when the node touches it |
| Secrets.CollectFrom | builder.go:203-222 | the node loop yields nothing at the first unknown node; otherwise exactly the earlier bindings plus every value touched by the nodes, each well named |
| Secrets.ReferencedSplit | builder.go:203-222 | a value is touched by a node list exactly when the first node or the rest touch it |
| Secrets.CollectEnvVarSecretMappings | builder.go:197-225 | the result is nil exactly when some node of the deployment is unknown; otherwise it binds exactly the touched values, each to its derived name |
| Secrets.ParseEntryRoundTrip | builder.go:227-234 | an entry whose separators start new lines reads back its one-line secret and variable |
| Secrets.EnvVarSecretBlockRoundTrip | builder.go:227-234 | an `env:` entry names its variable and reads it from the secret store entry of the secret; both can be read back from the text |
| Secrets.SecretBlocksOf | builder.go:240-242 | one entry per binding, each entry for a bound secret and its derived name, in the enumeration's order |
| Secrets.SecretBlocksOnePerBinding | builder.go:236-245 | the entries of a deployment are one per binding, each for a secret the deployment touches |
| Secrets.BlockNonEmpty | builder.go:227-234 | an entry is never empty |
| Secrets.SecretBlocksOrderFree | builder.go:240-242 | another map order gives the same entries, possibly rearranged |
| Secrets.BuildDeploymentSecretsEnvVarBlock | builder.go:236-245 | the block is empty exactly when the deployment has no bindings, including when it has an unknown node |
| Secrets.SecretsBlockOf | builder.go:240-242 | the concatenated entries are empty exactly when the mapping is |
| Secrets.EnvVarBlockHasEachBinding | builder.go:236-245 | the rendered `env:` text contains, for every secret the deployment binds, the entry reading that secret into its derived variable |
| NodeJsPackage.CollectDependenciesKeys | nodejsPlatformBuilder.go:49-65 | a package is collected exactly when some environment connection or some deployment node's processor declares it |
| NodeJsPackage.SourceAt | nodejsPlatformBuilder.go:51-62 | sources are visited connections first, then processors in node order |
| NodeJsPackage.SourcesDeclare | nodejsPlatformBuilder.go:51-62 | a package is in some source exactly when a connection or a deployment processor declares it |
| NodeJsPackage.SourceFromConnection | nodejsPlatformBuilder.go:51-55 | a package any environment connection declares is in some source |
| NodeJsPackage.SourceFromProcessor | nodejsPlatformBuilder.go:57-62 | a package a deployment processor declares is in some source |
| NodeJsPackage.SourceDeclares | nodejsPlatformBuilder.go:51-62 | every package of a source is declared by a connection or a deployment processor |
| NodeJsPackage.DependencyFromLastNode | nodejsPlatformBuilder.go:57-62 | a package declared by processors takes the version of the last such node in deployment order |
| NodeJsPackage.DependencyFromLastConnection | nodejsPlatformBuilder.go:51-55 | a package no processor declares takes the version of the last connection visited that declares it |
| Seqs.MergeAll | nodejsPlatformBuilder.go:50-62 | a key is in the merged map exactly when one of the maps holds it |
| Seqs.MergeAllLastWins | nodejsPlatformBuilder.go:53 | a merged key takes its value from the last map that holds it |
| NodeJsPackage.DependencyLines | nodejsPlatformBuilder.go:69-74 | the dependency lines are sorted, one per collected package |
| NodeJsPackage.DependencyLinesCover | nodejsPlatformBuilder.go:70-72 | every collected package has its `"name":"version"` line |
| NodeJsPackage.DependencyLinesOnly | nodejsPlatformBuilder.go:70-72 | every line is the line of a collected package |
| NodeJsPackage.DependencyLinesOrderFree | nodejsPlatformBuilder.go:70-74 | the sorted lines do not depend on map order |
| NodeJsPackage.PackageText | nodejsPlatformBuilder.go:76-92 | the document is the fixed head naming `stage-<id>`, then the dependency body verbatim, then the closing braces |
| NodeJsPackage.FillPackageJson | nodejsPlatformBuilder.go:67-93 | the document starts with the head naming the stage after the deployment |
| NodeJsPackage.FramedListsContain | nodejsPlatformBuilder.go:84-92 | every line of both comma-separated lists occurs in the framed document |
| NodeJsPackage.PackageTextLists | nodejsPlatformBuilder.go:84-92 | the document holds every baseline entry and every given dependency line |
| NodeJsPackage.PackageListsDependencies | nodejsPlatformBuilder.go:70-92 | the document lists every baseline entry and the line of every collected package |
| NodeJsPackage.PackageJsonListsDependencies | nodejsPlatformBuilder.go:67-93 | `FillPackageJson` lists the four baseline packages and every collected package with its version |
| NodeJsPackage.FillPackageJsonOrderFree | nodejsPlatformBuilder.go:70-74 | `package.json` does not depend on the order the dependency map is visited in |
| NodeJsPackage.CollectedVersionsAgree | nodejsPlatformBuilder.go:49-65 | when connections that declare the same package agree on its version, a package collected under one connection order is collected under any other with the same version |
| NodeJsPackage.CollectDependenciesOrderFree | nodejsPlatformBuilder.go:49-65 | when connections agree on versions, the collected dependency map does not depend on the order the connections are visited in |
| NodeJsPackage.FillPackageJsonConnectionOrderFree | nodejsPlatformBuilder.go:49-93 | when connections agree on versions, `package.json` depends neither on the connection order nor on the order the collected map is visited in |
| NodeJsPackage.ConnectionOrderDecidesVersion | nodejsPlatformBuilder.go:51-55 | concrete witness: with connections declaring `kafka` at `1` and `2`, visiting them in one order collects `2` and in the other `1` |
| NodeJsPackage.PackageJsonTrailingComma | nodejsPlatformBuilder.go:84-89 | as written, with no collected package the dependency body ends in `,` and a line break, so the object has a trailing comma |
| NodeJsPackage.DependencyBodyFixed | nodejsPlatformBuilder.go:84-88 | corrected body: ends with a quoted entry, and equals the written body whenever there are dependency lines |
| NodeJsPackage.DependencyLinesEndWithQuote | nodejsPlatformBuilder.go:71 | the last dependency line ends with a quote |
| NodeJsPackage.DependencyLineEndsWithQuote | nodejsPlatformBuilder.go:71 | a dependency line ends with a quote |
| NodeJsPackage.PackageTextFixed | nodejsPlatformBuilder.go:76-92 | corrected document: its dependency body always ends with a quoted entry; it equals the written document when packages were collected |
| NodeJsPackage.FillPackageJsonFixed | nodejsPlatformBuilder.go:67-93 | corrected `FillPackageJson`: never a trailing comma, and the same text as the original whenever packages were collected |
| NodeJsStage.TouchedConnectionsIff | nodejsPlatformBuilder.go:95-109 | a connection is in the set exactly when some deployment node lists it as an input or output |
| NodeJsStage.NodeConnectionTouched | nodejsPlatformBuilder.go:98-106 | every input and output of every deployment node is consolidated |
| NodeJsStage.ConsolidatedOrderFree | nodejsPlatformBuilder.go:95-109 | reordering the deployment's nodes does not change the consolidated set |
| NodeJsStage.ConnectionImports | nodejsPlatformBuilder.go:114-123 | connection declarators are sorted, one per (touched connection, dependency package) pair |
| NodeJsStage.ConnectionImportsCover | nodejsPlatformBuilder.go:115-120 | every package of every touched connection has its `<id>ConnectionClass = require('<package>')` declarator |
| NodeJsStage.ConnectionImportsOnly | nodejsPlatformBuilder.go:114-123 | every connection declarator requires a package that a touched connection depends on |
| NodeJsStage.ConnectionClassDeclared | nodejsPlatformBuilder.go:111-140 | for every package of a touched connection, the generated declaration contains `<id>ConnectionClass = require('<package>')` |
| NodeJsStage.ConnectionImportsEmpty | nodejsPlatformBuilder.go:114-121 | there are no connection declarators exactly when no touched connection has a dependency |
| NodeJsStage.ProcessorImports | nodejsPlatformBuilder.go:125-131 | one processor declarator per deployment node, in node order, requiring that node's processor file |
| NodeJsStage.ImportsText | nodejsPlatformBuilder.go:133-139 | the declaration starts with the fixed preamble and ends with `;` |
| NodeJsStage.FillImports | nodejsPlatformBuilder.go:111-140 | `FillImports` starts with the fixed preamble and ends with `;` |
| NodeJsStage.FillImportsOrderFree | nodejsPlatformBuilder.go:115-123 | the declaration does not depend on map order |
| NodeJsStage.BodyProcessorAt | nodejsPlatformBuilder.go:138-139 | after the preamble, processor declarator `i` sits after the connection declarators and the separator |
| NodeJsStage.ProcessorImportAt | nodejsPlatformBuilder.go:133-139 | processor declarator `i` occurs verbatim at its computed offset |
| NodeJsStage.ProcessorImportsInOrder | nodejsPlatformBuilder.go:133-139 | processor declarators appear verbatim, each ending before the next begins |
| NodeJsStage.FillImportsProcessorOrder | nodejsPlatformBuilder.go:125-139 | in the generated declaration, the `require` of an earlier node precedes that of every later node |
| NodeJsStage.ImportsTextEmptyDeclarator | nodejsPlatformBuilder.go:137-138 | with no connection declarators, the preamble is followed by a bare `,` |
| NodeJsStage.ImportsEmptyDeclarator | nodejsPlatformBuilder.go:111-140 | as written, when no touched connection has a dependency, the declaration holds an empty declarator |
| NodeJsStage.ImportsBodyFixed | nodejsPlatformBuilder.go:138-139 | corrected declarators: one list with separators only between entries; equal to the written one when both parts are non-empty |
| NodeJsStage.ImportsTextFixed | nodejsPlatformBuilder.go:133-139 | the corrected declaration continues the preamble with an indented declarator, never a bare `,` |
| NodeJsStage.ImportsIndented | nodejsPlatformBuilder.go:118-129 | the first declarator of the combined list is indented |
| NodeJsStage.ProcessorImportsIndented | nodejsPlatformBuilder.go:129 | every processor declarator is indented |
| NodeJsStage.ConnectionImportIndented | nodejsPlatformBuilder.go:118 | a connection declarator is indented |
| NodeJsStage.ProcessorImportIndented | nodejsPlatformBuilder.go:129 | a processor declarator is indented |
| NodeJsStage.FillImportsFixedAgrees | nodejsPlatformBuilder.go:111-140 | the corrected `FillImports` produces the original text whenever both declarator lists are non-empty |
| NodeJsStage.FillImportsFixedNoEmptyDeclarator | nodejsPlatformBuilder.go:111-140 | the corrected `FillImports` never has an empty declarator |
| NodeJsStage.Instantiation | nodejsPlatformBuilder.go:156-159 | an instantiation declares its instance name with `let` |
| NodeJsStage.ConnectionInstantiations | nodejsPlatformBuilder.go:147-163 | connection instantiations are sorted, one per touched connection |
| NodeJsStage.FillConnections | nodejsPlatformBuilder.go:142-166 | the block is empty exactly when the deployment touches no connection |
| NodeJsStage.FillConnectionsOrderFree | nodejsPlatformBuilder.go:147-165 | the block does not depend on map order |
| NodeJsStage.FillConnectionsInstantiatesEach | nodejsPlatformBuilder.go:147-165 | each touched connection is instantiated, with `{}` as config when its config is empty |
| NodeJsStage.ConnectionInstantiationsCover | nodejsPlatformBuilder.go:147-163 | every touched connection has its instantiation in the list |
| NodeJsStage.ConnectionInstantiationsOnly | nodejsPlatformBuilder.go:147-163 | every connection instantiation is that of a touched connection |
| NodeJsStage.ConnectionDeclared | nodejsPlatformBuilder.go:156 | every touched connection's instance is declared |
| NodeJsStage.ProcessorInstantiations | nodejsPlatformBuilder.go:171-187 | processor instantiations are sorted, a permutation of one per node in node order |
| NodeJsStage.FillProcessors | nodejsPlatformBuilder.go:168-190 | the block is empty exactly when the deployment has no nodes |
| NodeJsStage.FillProcessorsOrderFree | nodejsPlatformBuilder.go:171-189 | reordering the deployment's nodes does not change the block |
| NodeJsStage.BuildConnectionInstanceNamesFromIds | nodejsPlatformBuilder.go:209-216 | one instance name per id, in order, each the id followed by `Connection` |
| NodeJsStage.ConnectionIdsFromInstanceNames | nodejsPlatformBuilder.go:209-216 | inverse naming: each id followed by `Connection` gives back the name |
| NodeJsStage.StripSuffix | nodejsPlatformBuilder.go:212 | removing the `Connection` suffix is undone by appending it |
| NodeJsStage.InstanceNamesRoundTrip | nodejsPlatformBuilder.go:209-216 | naming and stripping are mutually inverse |
| NodeJsStage.InstanceListRoundTrip | nodejsPlatformBuilder.go:224-232 | the comma-joined instance list of a node reads back as its connection ids |
| NodeJsStage.NodeExpressions | nodejsPlatformBuilder.go:221-235 | one wiring expression per deployment node, in node order |
| NodeJsStage.FillNodes | nodejsPlatformBuilder.go:218-238 | the wiring is empty exactly when the deployment has no nodes |
| NodeJsStage.FillNodesInOrder | nodejsPlatformBuilder.go:218-238 | node expressions appear verbatim in deployment order |
| NodeJsStage.NodeReferencesDeclared | nodejsPlatformBuilder.go:224-232 | every connection instance and the processor instance a node's wiring references is declared by the instantiation blocks |
| NodeJsDeploy.EffectiveCpu | nodejsPlatformBuilder.go:294-297 | the CPU setting is the deployment's own when set, `250m` otherwise, never empty |
| NodeJsDeploy.EffectiveMemory | nodejsPlatformBuilder.go:299-302 | the memory setting is the deployment's own when set, `250Mi` otherwise, never empty |
| NodeJsDeploy.FillValuesYaml | nodejsPlatformBuilder.go:293-312 | the document opens with the service name |
| NodeJsDeploy.ValuesYamlReadBack | nodejsPlatformBuilder.go:293-312 | read as YAML lines, the document gives the quoted deployment id, quoted namespace, port 80, the minimum replica count, the pull secret, and the effective CPU and memory |
| NodeJsDeploy.ValuesLinesKeys | nodejsPlatformBuilder.go:304-311 | each key's first line carries that key's value |
| NodeJsDeploy.ServiceKeys | nodejsPlatformBuilder.go:304-306 | `serviceName`, `serviceNamespace` and `servicePort` read back |
| NodeJsDeploy.SettingKeys | nodejsPlatformBuilder.go:307-311 | `replicas`, `imagePullSecrets`, `cpu` and `memory` read back |
| NodeJsDeploy.ReplicasKey | nodejsPlatformBuilder.go:307 | `replicas` reads back as the decimal minimum |
| NodeJsDeploy.PullSecretsKey | nodejsPlatformBuilder.go:309 | `imagePullSecrets` reads back as the pull secret |
| NodeJsDeploy.CpuKey | nodejsPlatformBuilder.go:310 | `cpu` reads back as the quoted effective CPU |
| NodeJsDeploy.MemoryKey | nodejsPlatformBuilder.go:311 | `memory` reads back as the quoted effective memory |
| NodeJsDeploy.ValuesLinesSingle | nodejsPlatformBuilder.go:304-311 | no setting spans two lines when its inputs hold no line break |
| NodeJsDeploy.BaseName | nodejsPlatformBuilder.go:196-197 | the copied file name has no `/`, ends the path, and is preceded by `/` when shorter than the path |
| NodeJsDeploy.BaseNameOfPlainFile | nodejsPlatformBuilder.go:196-197 | a path without `/` is its own base name |
| NodeJsDeploy.BaseNameAfterDirectory | nodejsPlatformBuilder.go:196-197 | `dir/name` copies as `name` |
| Text.JoinContains | nodejsPlatformBuilder.go:92 | each element occurs verbatim at its offset in the join |
| Text.JoinInOrder | nodejsPlatformBuilder.go:237 | joined elements appear in list order, separated |
| Text.JoinAppend | nodejsPlatformBuilder.go:138-139 | joining two non-empty lists puts exactly one separator between their joins |
| Text.Split | nodejsPlatformBuilder.go:196 | `strings.Split` on one character: at least one part, no part holds the character, and joining the parts with it restores the string |
| Text.SplitJoin | nodejsPlatformBuilder.go:196 | splitting on a character undoes joining with it when no element holds it |
| Text.ConcatHasElement | builder.go:240-242 | every string appended in a `+=` loop occurs verbatim in the result |
| Text.DecimalRoundTrip | nodejsPlatformBuilder.go:307 | the `%d` rendering of an integer reads back as that integer |
| Sorting.Sort | nodejsPlatformBuilder.go:74 | `sort.Strings` yields a sorted permutation of its input |
| Sorting.SortIgnoresOrder | nodejsPlatformBuilder.go:74 | permutations sort to the same list |
| Sorting.SortedUnique | nodejsPlatformBuilder.go:74 | a multiset of strings has exactly one sorted arrangement |
| Sorting.SortedImage | nodejsPlatformBuilder.go:69-74 | lines built from a map's entries and then sorted: sorted, one line per entry |
| Sorting.SortedImageCovers | nodejsPlatformBuilder.go:115-123 | every element's line is in the sorted lines |
| Sorting.SortedImageOnly | nodejsPlatformBuilder.go:115-123 | only elements' lines are in the sorted lines |
| Sorting.SortedImageOrderFree | nodejsPlatformBuilder.go:115-123 | the sorted lines do not depend on the enumeration |
| Build.ChartYaml | builder.go:281 | the chart document is `name: ` followed by the deployment id |
| Build.ChartYamlReadBack | builder.go:40 | read as YAML, the chart names the deployment |
| Build.DeployAllLineRoundTrip | builder.go:337 | a deploy line names the deployment it was written for |
| Build.DeployAllLineInjective | builder.go:337 | deploy lines for different deployments differ |
| Build.BuildDeployment | builder.go:252-304 | a resolution error is returned unchanged; otherwise the build succeeds exactly when the file operations report no error, and fails with that error |
| Build.ScriptStep | builder.go:337 | building one more deployment appends its deploy line to the script |
| Build.DeployAll | builder.go:330-338 | the loop succeeds exactly when every deployment in visiting order builds, with one deploy line per deployment in that order; otherwise it returns the error of the first that fails |
| Build.Build | builder.go:330-342 | the build succeeds exactly when every deployment of the environment builds; the script then has their deploy lines in visiting order; otherwise the error returned is that of the first deployment in visiting order that fails |
| Build.AllBuildIff | builder.go:331 | every deployment in the visiting order builds exactly when every deployment of the environment does |
| Build.ScriptDeploysEach | builder.go:331-337 | the script of a successful build has a deploy line for every deployment of the environment |
| Build.ScriptLinesOrderFree | builder.go:331-337 | another visiting order gives the same deploy lines, one per deployment |

## Left out

- File system, process and network effects are left out: the `Load*` readers, `CopyFile`, `os.Mkdir`, `os.RemoveAll` and `ioutil.WriteFile`, the `main.go` entry point, and the fixed Dockerfile, `start-stage` and `deploy-stage` texts. In `BuildDeployment` they collapse into an oracle that maps a deployment id to the error its file operations report, if any. The tier directory set-up before the loop in `Build` is not modelled.
- `json.Marshal` is an opaque function parameter. Its output format is not modelled, and neither is its error, which the code discards.
- Configs are maps from string to string. The code's `secret.(string)` type assertion panics on other value types; that panic is not modelled.
- Error messages are modelled as structured error values (`UnknownNode`, `MismatchedPlatforms`, `UnknownPlatform`, `IoError`) carrying the same fields as the formatted texts, not as the texts themselves.
- Secrets.EnvVarName: upper-cases ASCII letters only. Go's `strings.ToUpper` also maps other Unicode letters.
- The deployment-manifest template, the service template, `FillTopology` and `FillStage` are fixed texts around the modelled blocks and are not modelled. The `PlatformBuilder` interface has one implementation and is not modelled.
- `Builder.FillValuesYAML` (builder.go:247-250) is used only inside `BuildDeployment`, whose outputs are abstracted. The node.js `FillValuesYaml` is modelled instead.
- NodeJsDeploy.FillValuesYaml: the `replicas` minimum is an unbounded integer; Go's integer width is not modelled.
- NodeJsStage.FillImportsFixedNoEmptyDeclarator: it assumes the deployment has nodes. With no nodes, `MakeBuilder` already fails, so no builder reaches this code.

## Findings

| source | as written | input that shows it | evidently intended | confidence | as-written member | corrected member |
|---|---|---|---|---|---|---|
| nodejsPlatformBuilder.go:84-89 | the four baseline entries each end in `,` and are followed by the joined collected entries | a deployment whose connections and processors declare no dependencies: the `dependencies` object ends with `"topological": "^1.0.29",` and an empty line, a trailing comma that JSON rejects | separators only between entries | not executed | NodeJsPackage.PackageJsonTrailingComma | NodeJsPackage.FillPackageJsonFixed |
| nodejsPlatformBuilder.go:133-139 | connection declarators, a `,` line break, then processor declarators | a deployment whose touched connections declare no dependencies: the preamble's trailing `,` is followed by another `,`, an empty declarator that is a JavaScript syntax error | separators only between declarators | not executed | NodeJsStage.ImportsEmptyDeclarator | NodeJsStage.FillImportsFixedNoEmptyDeclarator |
