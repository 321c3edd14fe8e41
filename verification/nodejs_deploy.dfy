/**
 The deployment-side text of the node.js platform builder
 (nodejsPlatformBuilder.go): the Helm values file, whose CPU and memory
 settings fall back to defaults when the deployment leaves them empty, and
 the base name a processor file is staged under.
 */
module NodeJsDeploy {
  import opened Results
  import opened Model
  import opened Text

  const DefaultCpu: string := "250m"
  const DefaultMemory: string := "250Mi"

  /** The deployment's CPU setting, or the default when it is empty. */
  function EffectiveCpu(replicas: ReplicaSpec): (r: string)
    ensures r != ""
    ensures r == replicas.cpu || (replicas.cpu == "" && r == DefaultCpu)
  {
    if replicas.cpu != "" then replicas.cpu else DefaultCpu
  }

  /** The deployment's memory setting, or the default when it is empty. */
  function EffectiveMemory(replicas: ReplicaSpec): (r: string)
    ensures r != ""
    ensures r == replicas.memory || (replicas.memory == "" && r == DefaultMemory)
  {
    if replicas.memory != "" then replicas.memory else DefaultMemory
  }

  function Quoted(s: string): string {
    "\"" + s + "\""
  }

  /** One `key: value` line. */
  function Setting(key: string, value: string): string {
    key + ": " + value
  }

  lemma {:induction false} SettingSingle(key: string, value: string)
    requires '\n' !in key && '\n' !in value
    ensures '\n' !in Setting(key, value)
  {
  }

  /** The eight `key: value` lines of the values file, in the order they are written. */
  function ValuesLines(deploymentId: string, namespace: string, replicas: ReplicaSpec, pullSecret: string): seq<string> {
    [ Setting("serviceName", Quoted(deploymentId)),
      Setting("serviceNamespace", Quoted(namespace)),
      Setting("servicePort", "80"),
      Setting("replicas", Decimal(replicas.min)),
      Setting("imagePullPolicy", Quoted("Always")),
      Setting("imagePullSecrets", pullSecret),
      Setting("cpu", Quoted(EffectiveCpu(replicas))),
      Setting("memory", Quoted(EffectiveMemory(replicas))) ]
  }

  /** `FillValuesYaml`. */
  function FillValuesYaml(b: NodeJsBuilder): (r: string)
    ensures HasPrefix(r, "serviceName: ")
  {
    var lines := ValuesLines(b.deploymentId, b.environment.namespace, b.deployment.replicas, b.environment.pullSecret);
    JoinStartsWithFirst(lines, "\n");
    Join(lines, "\n")
  }

  /** A line whose first character differs from the key's is not that key's line. */
  lemma {:induction false} OtherKey(line: string, key: string)
    requires |line| > 0 && |key| > 0 && line[0] != key[0]
    ensures !HasPrefix(line, key + ": ")
  {
    assert (key + ": ")[0] == key[0];
  }

  /** A line made of `key: ` and a value is read back as that value. */
  lemma {:induction false} KeyLine(key: string, value: string)
    ensures HasPrefix(Setting(key, value), key + ": ")
    ensures Setting(key, value)[|key| + 2..] == value
  {
    assert Setting(key, value)[..|key| + 2] == key + ": ";
  }

  /**
   Reading the values file back: every setting is found under its key, the
   replica count parses back to the deployment's minimum, and CPU and
   memory carry the effective values. Values must be single lines for the
   file to be read line by line.
   */
  lemma {:induction false} ValuesYamlReadBack(b: NodeJsBuilder)
    requires '\n' !in b.deploymentId && '\n' !in b.environment.namespace && '\n' !in b.environment.pullSecret
    requires '\n' !in b.deployment.replicas.cpu && '\n' !in b.deployment.replicas.memory
    ensures Lookup(FillValuesYaml(b), "serviceName") == Some(Quoted(b.deploymentId))
    ensures Lookup(FillValuesYaml(b), "serviceNamespace") == Some(Quoted(b.environment.namespace))
    ensures Lookup(FillValuesYaml(b), "servicePort") == Some("80")
    ensures Lookup(FillValuesYaml(b), "imagePullSecrets") == Some(b.environment.pullSecret)
    ensures Lookup(FillValuesYaml(b), "cpu") == Some(Quoted(EffectiveCpu(b.deployment.replicas)))
    ensures Lookup(FillValuesYaml(b), "memory") == Some(Quoted(EffectiveMemory(b.deployment.replicas)))
    ensures var count := Lookup(FillValuesYaml(b), "replicas");
      count.Some? && ParseDecimal(count.value) == b.deployment.replicas.min
  {
    var replicas := b.deployment.replicas;
    var lines := ValuesLines(b.deploymentId, b.environment.namespace, replicas, b.environment.pullSecret);
    ValuesLinesSingle(b.deploymentId, b.environment.namespace, replicas, b.environment.pullSecret);
    SplitJoin(lines, '\n');
    assert Split(FillValuesYaml(b), '\n') == lines;
    ValuesLinesKeys(b.deploymentId, b.environment.namespace, replicas, b.environment.pullSecret);
    DecimalRoundTrip(replicas.min);
  }

  /** No line of the values file spans two lines. */
  lemma {:induction false} ValuesLinesSingle(deploymentId: string, namespace: string, replicas: ReplicaSpec, pullSecret: string)
    requires '\n' !in deploymentId && '\n' !in namespace && '\n' !in pullSecret
    requires '\n' !in replicas.cpu && '\n' !in replicas.memory
    ensures var lines := ValuesLines(deploymentId, namespace, replicas, pullSecret);
      forall i :: 0 <= i < |lines| ==> '\n' !in lines[i]
  {
    SettingSingle("serviceName", Quoted(deploymentId));
    SettingSingle("serviceNamespace", Quoted(namespace));
    SettingSingle("servicePort", "80");
    SettingSingle("replicas", Decimal(replicas.min));
    SettingSingle("imagePullPolicy", Quoted("Always"));
    SettingSingle("imagePullSecrets", pullSecret);
    SettingSingle("cpu", Quoted(EffectiveCpu(replicas)));
    SettingSingle("memory", Quoted(EffectiveMemory(replicas)));
  }

  /** Each key is found on its own line: `LookupLine` over the eight lines. */
  lemma {:induction false} ValuesLinesKeys(deploymentId: string, namespace: string, replicas: ReplicaSpec, pullSecret: string)
    ensures var lines := ValuesLines(deploymentId, namespace, replicas, pullSecret);
      && LookupLine(lines, "serviceName") == Some(Quoted(deploymentId))
      && LookupLine(lines, "serviceNamespace") == Some(Quoted(namespace))
      && LookupLine(lines, "servicePort") == Some("80")
      && LookupLine(lines, "replicas") == Some(Decimal(replicas.min))
      && LookupLine(lines, "imagePullSecrets") == Some(pullSecret)
      && LookupLine(lines, "cpu") == Some(Quoted(EffectiveCpu(replicas)))
      && LookupLine(lines, "memory") == Some(Quoted(EffectiveMemory(replicas)))
  {
    ServiceKeys(deploymentId, namespace, replicas, pullSecret);
    SettingKeys(deploymentId, namespace, replicas, pullSecret);
  }

  lemma {:induction false} ServiceKeys(deploymentId: string, namespace: string, replicas: ReplicaSpec, pullSecret: string)
    ensures var lines := ValuesLines(deploymentId, namespace, replicas, pullSecret);
      && LookupLine(lines, "serviceName") == Some(Quoted(deploymentId))
      && LookupLine(lines, "serviceNamespace") == Some(Quoted(namespace))
      && LookupLine(lines, "servicePort") == Some("80")
  {
    var lines := ValuesLines(deploymentId, namespace, replicas, pullSecret);
    FoundAt(lines, "serviceName", Quoted(deploymentId), 0);
    assert !HasPrefix(lines[0], "serviceNamespace: ") by {
      assert lines[0][11] == ':';
    }
    FoundAt(lines, "serviceNamespace", Quoted(namespace), 1);
    assert !HasPrefix(lines[0], "servicePort: ") by {
      assert lines[0][7] == 'N';
    }
    assert !HasPrefix(lines[1], "servicePort: ") by {
      assert lines[1][7] == 'N';
    }
    FoundAt(lines, "servicePort", "80", 2);
  }

  lemma {:induction false} SettingKeys(deploymentId: string, namespace: string, replicas: ReplicaSpec, pullSecret: string)
    ensures var lines := ValuesLines(deploymentId, namespace, replicas, pullSecret);
      && LookupLine(lines, "replicas") == Some(Decimal(replicas.min))
      && LookupLine(lines, "imagePullSecrets") == Some(pullSecret)
      && LookupLine(lines, "cpu") == Some(Quoted(EffectiveCpu(replicas)))
      && LookupLine(lines, "memory") == Some(Quoted(EffectiveMemory(replicas)))
  {
    ReplicasKey(deploymentId, namespace, replicas, pullSecret);
    PullSecretsKey(deploymentId, namespace, replicas, pullSecret);
    CpuKey(deploymentId, namespace, replicas, pullSecret);
    MemoryKey(deploymentId, namespace, replicas, pullSecret);
  }

  lemma {:induction false} ReplicasKey(deploymentId: string, namespace: string, replicas: ReplicaSpec, pullSecret: string)
    ensures LookupLine(ValuesLines(deploymentId, namespace, replicas, pullSecret), "replicas") == Some(Decimal(replicas.min))
  {
    var lines := ValuesLines(deploymentId, namespace, replicas, pullSecret);
    FirstCharsDiffer(lines, "replicas", 3);
    FoundAt(lines, "replicas", Decimal(replicas.min), 3);
  }

  lemma {:induction false} PullSecretsKey(deploymentId: string, namespace: string, replicas: ReplicaSpec, pullSecret: string)
    ensures LookupLine(ValuesLines(deploymentId, namespace, replicas, pullSecret), "imagePullSecrets") == Some(pullSecret)
  {
    var lines := ValuesLines(deploymentId, namespace, replicas, pullSecret);
    FirstCharsDiffer(lines, "imagePullSecrets", 4);
    assert !HasPrefix(lines[4], "imagePullSecrets: ") by {
      assert lines[4][9] == 'P';
    }
    FoundAt(lines, "imagePullSecrets", pullSecret, 5);
  }

  lemma {:induction false} CpuKey(deploymentId: string, namespace: string, replicas: ReplicaSpec, pullSecret: string)
    ensures LookupLine(ValuesLines(deploymentId, namespace, replicas, pullSecret), "cpu") == Some(Quoted(EffectiveCpu(replicas)))
  {
    var lines := ValuesLines(deploymentId, namespace, replicas, pullSecret);
    FirstCharsDiffer(lines, "cpu", 6);
    FoundAt(lines, "cpu", Quoted(EffectiveCpu(replicas)), 6);
  }

  lemma {:induction false} MemoryKey(deploymentId: string, namespace: string, replicas: ReplicaSpec, pullSecret: string)
    ensures LookupLine(ValuesLines(deploymentId, namespace, replicas, pullSecret), "memory") == Some(Quoted(EffectiveMemory(replicas)))
  {
    var lines := ValuesLines(deploymentId, namespace, replicas, pullSecret);
    FirstCharsDiffer(lines, "memory", 7);
    FoundAt(lines, "memory", Quoted(EffectiveMemory(replicas)), 7);
  }

  /** No line before `i` starts with the key's first character. */
  lemma {:induction false} FirstCharsDiffer(lines: seq<string>, key: string, i: nat)
    requires i <= |lines| && |key| > 0
    requires forall j :: 0 <= j < i ==> |lines[j]| > 0 && lines[j][0] != key[0]
    ensures forall j :: 0 <= j < i ==> !HasPrefix(lines[j], key + ": ")
  {
    forall j | 0 <= j < i
      ensures !HasPrefix(lines[j], key + ": ")
    {
      OtherKey(lines[j], key);
    }
  }

  /** Line `i` is `key: value` and no earlier line holds the key. */
  lemma {:induction false} FoundAt(lines: seq<string>, key: string, value: string, i: nat)
    requires i < |lines| && lines[i] == Setting(key, value)
    requires forall j :: 0 <= j < i ==> !HasPrefix(lines[j], key + ": ")
    ensures LookupLine(lines, key) == Some(value)
  {
    KeyLine(key, value);
    LookupLineAt(lines, key, i);
  }

  // ----------------------------------------------------------- base name

  /** The last `/`-separated segment of a processor file path. */
  function BaseName(file: string): (r: string)
    ensures '/' !in r
    ensures |r| <= |file| && file[|file| - |r|..] == r
    ensures |r| < |file| ==> file[|file| - |r| - 1] == '/'
  {
    var parts := Split(file, '/');
    var last := parts[|parts| - 1];
    assert '/' !in last;
    JoinEndsWithLast(parts, "/");
    assert |last| < |file| ==> file[|file| - |last| - 1] == '/' by {
      if |parts| > 1 {
        var front := parts[..|parts| - 1];
        assert parts == front + [last];
        JoinAppend(front, [last], "/");
        assert file == Join(front, "/") + "/" + last;
      }
    }
    last
  }

  /** Every character of a string's tail occurs in that tail. */
  lemma {:induction false} SuffixHolds(s: string, t: string, j: int)
    requires |t| <= |s| && s[|s| - |t|..] == t
    requires |s| - |t| <= j < |s|
    ensures s[j] in t
  {
    assert t[j - (|s| - |t|)] == s[j];
  }

  /** A path with no directory part is its own base name. */
  lemma {:induction false} BaseNameOfPlainFile(file: string)
    requires '/' !in file
    ensures BaseName(file) == file
  {
  }

  /** The base name is the longest suffix without a `/`: exactly what follows the last `/`. */
  lemma {:induction false} BaseNameAfterDirectory(directory: string, name: string)
    requires '/' !in name
    ensures BaseName(directory + "/" + name) == name
  {
    var file := directory + "/" + name;
    var r := BaseName(file);
    var slash := |directory|;
    assert file[slash] == '/';
    if |r| > |name| {
      SuffixHolds(file, r, slash);
    }
    assert file[|file| - |name|..] == name;
  }
}
