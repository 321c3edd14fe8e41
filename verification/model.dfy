/**
 The two input documents as immutable values: the processing-graph
 Topology and the deployment Environment, plus the state a platform builder
 is created with. Go reads of a missing map key yield the zero value of the
 element type; the `...Of` lookups below give exactly those zero values.
 */
module Model {

  /** Node and connection configuration; values are restricted to strings. */
  type Config = map<string, string>

  /** Go's `uint32`. */
  type Uint32 = x: int | 0 <= x < 0x1_0000_0000

  datatype Processor = Processor(
    platform: string,
    file: string,
    dependencies: map<string, string>,
    config: Config)

  datatype Node = Node(inputs: seq<string>, outputs: seq<string>, processor: Processor)

  datatype Topology = Topology(name: string, nodes: map<string, Node>)

  datatype Connection = Connection(dependencies: map<string, string>, config: Config)

  /** Environment-scoped settings of one node. */
  datatype ProcessorEnv = ProcessorEnv(config: Config)

  datatype CpuSpec = CpuSpec(request: string, limit: string)

  datatype MemorySpec = MemorySpec(request: string, limit: string)

  datatype ReplicaSpec = ReplicaSpec(min: int, max: int, cpu: string, memory: string)

  datatype Deployment = Deployment(
    instances: Uint32,
    concurrency: Uint32,
    cpu: CpuSpec,
    logSeverity: string,
    memory: MemorySpec,
    nodes: seq<string>,
    replicas: ReplicaSpec)

  datatype Environment = Environment(
    target: string,
    tier: string,
    namespace: string,
    containerRepo: string,
    pullSecret: string,
    connections: map<string, Connection>,
    processors: map<string, ProcessorEnv>,
    deployments: map<string, Deployment>)

  /** The state a node.js platform builder is created with. */
  datatype NodeJsBuilder = NodeJsBuilder(
    deploymentId: string,
    deployment: Deployment,
    topology: Topology,
    environment: Environment)

  const ZeroNode: Node := Node([], [], Processor("", "", map[], map[]))

  const ZeroDeployment: Deployment :=
    Deployment(0, 0, CpuSpec("", ""), "", MemorySpec("", ""), [], ReplicaSpec(0, 0, "", ""))

  function NodeOf(topology: Topology, id: string): (n: Node)
    ensures id in topology.nodes ==> n == topology.nodes[id]
    ensures id !in topology.nodes ==> n == ZeroNode
  {
    if id in topology.nodes then topology.nodes[id] else ZeroNode
  }

  function PlatformOf(topology: Topology, id: string): string {
    NodeOf(topology, id).processor.platform
  }

  function ConnectionOf(env: Environment, id: string): (c: Connection)
    ensures id in env.connections ==> c == env.connections[id]
    ensures id !in env.connections ==> c == Connection(map[], map[])
  {
    if id in env.connections then env.connections[id] else Connection(map[], map[])
  }

  function ProcessorConfigOf(env: Environment, id: string): (c: Config)
    ensures id in env.processors ==> c == env.processors[id].config
    ensures id !in env.processors ==> c == map[]
  {
    if id in env.processors then env.processors[id].config else map[]
  }

  function DeploymentOf(env: Environment, id: string): (d: Deployment)
    ensures id in env.deployments ==> d == env.deployments[id]
    ensures id !in env.deployments ==> d == ZeroDeployment
  {
    if id in env.deployments then env.deployments[id] else ZeroDeployment
  }
}
