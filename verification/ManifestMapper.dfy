/** From a manifest to desired hosts, with a warning for everything that is left out. */
module ManifestMapper {
  import opened Counting
  import opened Text
  import opened Wrappers
  import opened Numerals
  import opened DriftDomain
  import opened Manifest

  datatype MapError =
    | IsRequired(key: string)
    | BadValue(key: string)
    | InvalidHost(missing: seq<string>)
    | ContainerNotFound(containerId: string)
    | InvalidPort
    | InvalidVersion
    | InvalidWorkload(missing: seq<string>)

  // Normalising values

  /** `None` is the error for an unsupported type. */
  function NormalizeString(v: Value): Option<string> {
    match v
    case Str(text) => Some(Trim(text))
    case Number(n) => Some(FormatInt(n))
    case Fraction(text) => Some(text)
    case Bool(b) => Some(if b then "true" else "false")
    case Null => Some("")
    case Other => None
  }

  function NormalizeBool(v: Value): Option<bool> {
    match v
    case Bool(b) => Some(b)
    case Str(text) =>
      var t := Normalize(text);
      if t in ["true", "1", "yes", "y"] then Some(true)
      else if t in ["false", "0", "no", "n"] then Some(false)
      else None
    case Number(n) => if n == 1 then Some(true) else if n == 0 then Some(false) else None
    case _ => None
  }

  function NormalizeInt(v: Value): Option<int> {
    match v
    case Number(n) => Some(n)
    case Str(text) => if Trim(text) == "" then None else Atoi(Trim(text))
    case _ => None
  }

  // What the values mean

  const POSITIVE := ["true", "1", "yes", "y"]
  const NEGATIVE := ["false", "0", "no", "n"]

  predicate MeansTrue(v: Value) {
    v == Bool(true) || v == Number(1) || (v.Str? && exists k :: 0 <= k < |POSITIVE| && SameText(v.text, POSITIVE[k]))
  }

  predicate MeansFalse(v: Value) {
    v == Bool(false) || v == Number(0) || (v.Str? && exists k :: 0 <= k < |NEGATIVE| && SameText(v.text, NEGATIVE[k]))
  }

  predicate MeansInt(v: Value, n: int) {
    v == Number(n) || (v.Str? && Reads(Trim(v.text), n))
  }

  ghost predicate MeansText(v: Value, text: string) {
    match v
    case Str(t) => IsCutOut(t, text)
    case Number(n) => Writes(text, n)
    case Fraction(t) => text == t
    case Bool(b) => text == if b then "true" else "false"
    case Null => text == ""
    case Other => false
  }

  lemma WordsAreNormal(w: string)
    requires w in ["true", "1", "yes", "y"] || w in ["false", "0", "no", "n"]
    ensures Normalize(w) == w
  {
    assert Trimmed(w);
    TrimOfTrimmed(w);
    assert Lower(w) == w;
  }

  lemma WordsMean(text: string)
    ensures Normalize(text) in ["true", "1", "yes", "y"] <==>
              exists k :: 0 <= k < |POSITIVE| && SameText(text, POSITIVE[k])
    ensures Normalize(text) in ["false", "0", "no", "n"] <==>
              exists k :: 0 <= k < |NEGATIVE| && SameText(text, NEGATIVE[k])
  {
    forall k | 0 <= k < 4 ensures SameText(text, POSITIVE[k]) <==> Normalize(text) == POSITIVE[k] {
      WordsAreNormal(POSITIVE[k]);
    }
    forall k | 0 <= k < 4 ensures SameText(text, NEGATIVE[k]) <==> Normalize(text) == NEGATIVE[k] {
      WordsAreNormal(NEGATIVE[k]);
    }
  }

  /** What counts as a truth value, and as which. */
  lemma NormalizeBoolMeans(v: Value)
    ensures NormalizeBool(v) == Some(true) <==> MeansTrue(v)
    ensures NormalizeBool(v) == Some(false) <==> MeansFalse(v)
  {
    if v.Str? {
      WordsMean(v.text);
      WordsDiffer(Normalize(v.text));
    }
  }

  lemma WordsDiffer(w: string)
    ensures !(w in ["true", "1", "yes", "y"] && w in ["false", "0", "no", "n"])
  {
    if w in ["true", "1", "yes", "y"] { assert w[0] in "t1y"; }
    if w in ["false", "0", "no", "n"] { assert w[0] in "f0n"; }
  }

  lemma NormalizeIntMeans(v: Value, n: int)
    ensures NormalizeInt(v) == Some(n) <==> MeansInt(v, n)
  {
    if v.Str? { AtoiMeans(Trim(v.text), n); }
  }

  /** What text a value stands for. Only values of unsupported types have none. */
  lemma NormalizeStringMeans(v: Value)
    ensures NormalizeString(v).None? <==> v.Other?
    ensures NormalizeString(v).Some? ==> MeansText(v, NormalizeString(v).value)
  {
    match v
    case Str(text) => TrimCutsOut(text);
    case Number(n) => FormatIntWrites(n);
    case _ =>
  }

  function RequiredString(properties: Properties, key: string): Result<string, MapError> {
    if key !in properties then Failure(IsRequired(key))
    else match NormalizeString(properties[key])
         case None => Failure(BadValue(key))
         case Some(s) => if s == "" then Failure(IsRequired(key)) else Success(s)
  }

  /** Callers ignore the error of an optional property. */
  function OptionalString(properties: Properties, key: string): string {
    if key !in properties then ""
    else match NormalizeString(properties[key]) case None => "" case Some(s) => s
  }

  function RequiredBool(properties: Properties, key: string): Result<bool, MapError> {
    if key !in properties then Failure(IsRequired(key))
    else match NormalizeBool(properties[key])
         case None => Failure(BadValue(key))
         case Some(b) => Success(b)
  }

  // Labels

  predicate HasPrefix(s: string, prefix: string) {
    prefix <= s
  }

  predicate IsLabelKey(key: string) {
    !HasPrefix(key, "structurizr.") && key !in {"host_id", "fqdn", "ip", "env", "managed_by", "purpose"}
  }

  function LabelText(v: Value): string {
    match NormalizeString(v) case None => "" case Some(s) => s
  }

  function With(labels: map<string, string>, key: string, value: string): map<string, string> {
    if value != "" then labels[key := value] else labels
  }

  function Labels(properties: Properties, env: string, managedBy: string, purpose: string): map<string, string> {
    var own := map key | key in properties && IsLabelKey(key) && LabelText(properties[key]) != ""
                 :: LabelText(properties[key]);
    With(With(With(own, "env", env), "managed_by", managedBy), "purpose", purpose)
  }

  /** The loop over the properties, in whatever order the map yields them. */
  method ExtractLabels(properties: Properties, env: string, managedBy: string, purpose: string)
    returns (labels: map<string, string>)
    ensures labels == Labels(properties, env, managedBy, purpose)
  {
    labels := map[];
    var left := properties.Keys;
    while left != {}
      invariant left <= properties.Keys
      invariant labels == map key | key in properties && key !in left && IsLabelKey(key)
                                    && LabelText(properties[key]) != ""
                            :: LabelText(properties[key])
      decreases |left|
    {
      var key :| key in left;
      left := left - {key};
      if !IsLabelKey(key) { continue; }
      var normalized := NormalizeString(properties[key]);
      if normalized.None? || normalized.value == "" { continue; }
      labels := labels[key := normalized.value];
    }
    if env != "" { labels := labels["env" := env]; }
    if managedBy != "" { labels := labels["managed_by" := managedBy]; }
    if purpose != "" { labels := labels["purpose" := purpose]; }
  }

  // Containers

  function AllContainers(systems: seq<SoftwareSystem>): seq<Container> {
    if systems == [] then [] else AllContainers(systems[..|systems| - 1]) + systems[|systems| - 1].containers
  }

  /** The last container with this id, once trimmed. */
  function LastContainer(containers: seq<Container>, id: string): Option<Container> {
    Last(containers, (c: Container) => Trim(c.id) == id)
  }

  ghost predicate NamesContainers(names: map<string, string>, containers: seq<Container>) {
    forall id :: (id in names <==> id != "" && LastContainer(containers, id).Some?)
                 && (id in names ==> names[id] == Trim(LastContainer(containers, id).value.name))
  }

  method BuildContainerMap(manifest: Manifest) returns (names: map<string, string>)
    ensures NamesContainers(names, AllContainers(manifest.systems))
  {
    names := map[];
    var systems := manifest.systems;
    for i := 0 to |systems|
      invariant NamesContainers(names, AllContainers(systems[..i]))
    {
      OneMoreSystem(systems, i);
      ghost var before := AllContainers(systems[..i]);
      var containers := systems[i].containers;
      assert before + containers[..0] == before;
      for j := 0 to |containers|
        invariant NamesContainers(names, before + containers[..j])
      {
        assert before + containers[..j + 1] == (before + containers[..j]) + [containers[j]];
        NamesGrow(names, before + containers[..j], containers[j]);
        var id := Trim(containers[j].id);
        if id == "" { continue; }
        names := names[id := Trim(containers[j].name)];
      }
      assert containers[..|containers|] == containers;
    }
    assert systems[..|systems|] == systems;
  }

  lemma OneMoreSystem(systems: seq<SoftwareSystem>, i: nat)
    requires i < |systems|
    ensures AllContainers(systems[..i + 1]) == AllContainers(systems[..i]) + systems[i].containers
  {
    assert systems[..i + 1][..i] == systems[..i];
  }

  lemma NamesGrow(names: map<string, string>, containers: seq<Container>, c: Container)
    requires NamesContainers(names, containers)
    ensures NamesContainers(if Trim(c.id) == "" then names else names[Trim(c.id) := Trim(c.name)], containers + [c])
  {
    assert (containers + [c])[..|containers|] == containers;
  }

  // Hosts

  function MissingHostFields(h: Host): seq<string> {
    (if Trim(h.hostId) == "" then ["host_id"] else [])
    + (if Trim(h.fqdn) == "" then ["fqdn"] else [])
    + (if Trim(h.env) == "" then ["env"] else [])
    + (if Trim(h.managedBy) == "" then ["managed_by"] else [])
    + (if Trim(h.purpose) == "" then ["purpose"] else [])
  }

  predicate ValidHost(h: Host) {
    MissingHostFields(h) == []
  }

  /** The host of a node, still without workloads. */
  function MapHost(node: DeploymentNode): Result<Host, MapError> {
    var p := node.properties;
    var hostId, fqdn := RequiredString(p, "host_id"), RequiredString(p, "fqdn");
    var env, managedBy := RequiredString(p, "env"), RequiredString(p, "managed_by");
    var purpose := RequiredString(p, "purpose");
    if hostId.Failure? then Failure(hostId.error)
    else if fqdn.Failure? then Failure(fqdn.error)
    else if env.Failure? then Failure(env.error)
    else if managedBy.Failure? then Failure(managedBy.error)
    else if purpose.Failure? then Failure(purpose.error)
    else
      var host := Host(hostId.value, fqdn.value, OptionalString(p, "ip"), env.value, managedBy.value, purpose.value,
                       Labels(p, env.value, managedBy.value, purpose.value), []);
      if ValidHost(host) then Success(host) else Failure(InvalidHost(MissingHostFields(host)))
  }

  const REQUIRED_HOST_KEYS := ["host_id", "fqdn", "env", "managed_by", "purpose"]

  predicate HasText(p: Properties, key: string) {
    key in p && NormalizeString(p[key]).Some? && Trim(NormalizeString(p[key]).value) != ""
  }

  /** A node is a host exactly when it has text for the five required properties, and then every
      field and every label is the normalised property of its own name. */
  lemma HostCarriesItsProperties(node: DeploymentNode)
    ensures MapHost(node).Success? <==>
              forall k :: 0 <= k < |REQUIRED_HOST_KEYS| ==> HasText(node.properties, REQUIRED_HOST_KEYS[k])
    ensures MapHost(node).Success? ==>
              var p, h := node.properties, MapHost(node).value;
              && NormalizeString(p["host_id"]) == Some(h.hostId) && NormalizeString(p["fqdn"]) == Some(h.fqdn)
              && NormalizeString(p["env"]) == Some(h.env) && NormalizeString(p["managed_by"]) == Some(h.managedBy)
              && NormalizeString(p["purpose"]) == Some(h.purpose) && h.workloads == []
              && h.ip == (if "ip" in p then LabelText(p["ip"]) else "")
              && LabelsComeFrom(h.labels, p)
  {
    var p, keys := node.properties, REQUIRED_HOST_KEYS;
    assert keys[0] == "host_id" && keys[1] == "fqdn" && keys[2] == "env";
    assert keys[3] == "managed_by" && keys[4] == "purpose";
    TextIsRequired(p, "host_id");
    TextIsRequired(p, "fqdn");
    TextIsRequired(p, "env");
    TextIsRequired(p, "managed_by");
    TextIsRequired(p, "purpose");
    if MapHost(node).Success? {
      var h := MapHost(node).value;
      LabelsAreProperties(p, h.env, h.managedBy, h.purpose);
    }
  }

  /** Every label is the normalised property of its name, and there are no others to be had. */
  ghost predicate LabelsComeFrom(labels: map<string, string>, p: Properties) {
    && (forall key :: key in labels ==> key in p && NormalizeString(p[key]) == Some(labels[key]))
    && (forall key :: key in labels <==>
          key in {"env", "managed_by", "purpose"}
          || (!("structurizr." <= key) && key !in {"host_id", "fqdn", "ip"} && key in p && LabelText(p[key]) != ""))
  }

  lemma LabelsAreProperties(p: Properties, env: string, managedBy: string, purpose: string)
    requires env != "" && managedBy != "" && purpose != "" && "env" in p && "managed_by" in p && "purpose" in p
    requires NormalizeString(p["env"]) == Some(env) && NormalizeString(p["managed_by"]) == Some(managedBy)
    requires NormalizeString(p["purpose"]) == Some(purpose)
    ensures LabelsComeFrom(Labels(p, env, managedBy, purpose), p)
  {
  }

  lemma TextIsRequired(p: Properties, key: string)
    ensures HasText(p, key) <==> RequiredString(p, key).Success? && Trim(RequiredString(p, key).value) != ""
    ensures RequiredString(p, key).Success? ==>
              && key in p && NormalizeString(p[key]) == Some(RequiredString(p, key).value)
              && RequiredString(p, key).value != ""
  {
    BlankTrims();
  }

  lemma BlankTrims()
    ensures Trim("") == ""
  {
  }

  // Workloads

  function MissingWorkloadFields(w: DesiredWorkload): seq<string> {
    (if Trim(w.name) == "" then ["name"] else [])
    + (if Trim(w.deploymentMode) == "" then ["deployment_mode"] else [])
    + (if Normalize(w.deploymentMode) == "container" && Trim(w.image) == "" then ["image"] else [])
  }

  predicate ValidWorkload(w: DesiredWorkload) {
    MissingWorkloadFields(w) == []
  }

  function MapWorkload(instance: ContainerInstance, names: map<string, string>): Result<DesiredWorkload, MapError> {
    var p, id := instance.properties, Trim(instance.containerId);
    if id !in names || Trim(names[id]) == "" then Failure(ContainerNotFound(id))
    else
      var enabled, mode := RequiredBool(p, "enabled"), RequiredString(p, "deployment_mode");
      if enabled.Failure? then Failure(enabled.error)
      else if mode.Failure? then Failure(mode.error)
      else if "port" in p && NormalizeInt(p["port"]).None? then Failure(InvalidPort)
      else if "version" in p && NormalizeString(p["version"]).None? then Failure(InvalidVersion)
      else
        var port := if "port" in p then NormalizeInt(p["port"]) else None;
        var version := if "version" in p && NormalizeString(p["version"]) != Some("") then NormalizeString(p["version"])
                       else None;
        var image := OptionalString(p, "image");
        var workload := DesiredWorkload(names[id], enabled.value, mode.value, image, version, port);
        if ValidWorkload(workload) then Success(workload) else Failure(InvalidWorkload(MissingWorkloadFields(workload)))
  }

  /** What an instance must have: a named container, a truth value for `enabled`, text for
      `deployment_mode`, a port and a version that can be read if they are there, and text for `image`
      if it is to be deployed as a container. */
  ghost predicate Maps(instance: ContainerInstance, names: map<string, string>) {
    var p, id := instance.properties, Trim(instance.containerId);
    && id in names && Trim(names[id]) != ""
    && "enabled" in p && (MeansTrue(p["enabled"]) || MeansFalse(p["enabled"]))
    && HasText(p, "deployment_mode")
    && ("port" in p ==> exists n :: MeansInt(p["port"], n))
    && ("version" in p ==> !p["version"].Other?)
    && (SameText(NormalizeString(p["deployment_mode"]).value, "container") ==> HasText(p, "image"))
  }

  /** When an instance maps to a workload, and what the workload is made of. */
  lemma WorkloadCarriesItsProperties(instance: ContainerInstance, names: map<string, string>)
    ensures MapWorkload(instance, names).Success? <==> Maps(instance, names)
    ensures MapWorkload(instance, names).Success? ==>
              var p, w := instance.properties, MapWorkload(instance, names).value;
              && w.name == names[Trim(instance.containerId)]
              && (w.enabled <==> MeansTrue(p["enabled"])) && (!w.enabled <==> MeansFalse(p["enabled"]))
              && NormalizeString(p["deployment_mode"]) == Some(w.deploymentMode)
              && w.image == (if "image" in p then LabelText(p["image"]) else "")
              && (w.port.Some? <==> "port" in p) && (w.port.Some? ==> MeansInt(p["port"], w.port.value))
              && (w.version.Some? ==>
                    "version" in p && NormalizeString(p["version"]) == w.version && w.version != Some(""))
              && (w.version.None? ==> "version" in p ==> NormalizeString(p["version"]) == Some(""))
  {
    var p := instance.properties;
    BlankTrims();
    assert Normalize("container") == "container" by {
      assert Trim("container") == "container" && Lower("container") == "container";
    }
    if "enabled" in p { NormalizeBoolMeans(p["enabled"]); }
    if "port" in p {
      forall n ensures NormalizeInt(p["port"]) == Some(n) <==> MeansInt(p["port"], n) {
        NormalizeIntMeans(p["port"], n);
      }
    }
    if "version" in p { NormalizeStringMeans(p["version"]); }
    assert HasText(p, "deployment_mode") ==> RequiredString(p, "deployment_mode").Success?;
    assert HasText(p, "image") <==> Trim(OptionalString(p, "image")) != "";
  }

  function WithPort(instance: ContainerInstance, port: Value): ContainerInstance {
    instance.(properties := instance.properties["port" := port])
  }

  /** A port may be written as a number or, with any space around it, as its decimal text. */
  lemma PortAsTextIsPortAsNumber(instance: ContainerInstance, names: map<string, string>, n: int, text: string)
    requires MIN_INT <= n <= MAX_INT && Trim(text) == FormatInt(n)
    ensures MapWorkload(WithPort(instance, Str(text)), names) == MapWorkload(WithPort(instance, Number(n)), names)
  {
    FormatThenAtoi(n);
    ParseFormattedNat(if n < 0 then -n else n);
    assert NormalizeInt(Str(text)) == Some(n) == NormalizeInt(Number(n));
    SamePort(instance, names, Str(text), Number(n));
  }

  lemma SamePort(instance: ContainerInstance, names: map<string, string>, v: Value, v': Value)
    requires NormalizeInt(v) == NormalizeInt(v')
    ensures MapWorkload(WithPort(instance, v), names) == MapWorkload(WithPort(instance, v'), names)
  {
    var p, q := WithPort(instance, v).properties, WithPort(instance, v').properties;
    assert "port" != "enabled" && "port" != "version" && "port" != "image" && "port" != "deployment_mode";
    assert RequiredBool(p, "enabled") == RequiredBool(q, "enabled");
    assert RequiredString(p, "deployment_mode") == RequiredString(q, "deployment_mode");
    assert OptionalString(p, "image") == OptionalString(q, "image");
    assert "version" in p <==> "version" in q;
    assert "version" in p ==> p["version"] == q["version"];
  }

  datatype Warning =
    | NodeSkipped(file: string, nodeId: string, error: MapError)
    | WorkloadSkipped(file: string, nodeId: string, hostId: string, instanceId: string, error: MapError)

  /** The instances of a node that map, in order. */
  function GoodWorkloads(instances: seq<ContainerInstance>, names: map<string, string>): seq<DesiredWorkload> {
    if instances == [] then []
    else
      GoodWorkloads(instances[..|instances| - 1], names) + WorkloadOf(instances[|instances| - 1], names)
  }

  function WorkloadOf(instance: ContainerInstance, names: map<string, string>): seq<DesiredWorkload> {
    match MapWorkload(instance, names) case Success(w) => [w] case Failure(_) => []
  }

  function WorkloadWarningOf(instance: ContainerInstance, names: map<string, string>, file: string, nodeId: string,
                             hostId: string): seq<Warning> {
    match MapWorkload(instance, names)
    case Success(_) => []
    case Failure(e) => [WorkloadSkipped(file, nodeId, hostId, instance.id, e)]
  }

  function BadWorkloads(instances: seq<ContainerInstance>, names: map<string, string>, file: string, nodeId: string,
                        hostId: string): seq<Warning> {
    if instances == [] then []
    else
      BadWorkloads(instances[..|instances| - 1], names, file, nodeId, hostId)
      + WorkloadWarningOf(instances[|instances| - 1], names, file, nodeId, hostId)
  }

  // One node, and a list of nodes

  function HostsOf(node: DeploymentNode, names: map<string, string>): seq<Host> {
    match MapHost(node)
    case Failure(_) => []
    case Success(host) => [host.(workloads := GoodWorkloads(node.instances, names))]
  }

  function WarningsOf(node: DeploymentNode, names: map<string, string>, file: string): seq<Warning> {
    match MapHost(node)
    case Failure(e) => [NodeSkipped(file, node.id, e)]
    case Success(host) => BadWorkloads(node.instances, names, file, node.id, host.hostId)
  }

  function HostsOfAll(nodes: seq<DeploymentNode>, names: map<string, string>): seq<Host> {
    if nodes == [] then [] else HostsOf(nodes[0], names) + HostsOfAll(nodes[1..], names)
  }

  function WarningsOfAll(nodes: seq<DeploymentNode>, names: map<string, string>, file: string): seq<Warning> {
    if nodes == [] then [] else WarningsOf(nodes[0], names, file) + WarningsOfAll(nodes[1..], names, file)
  }

  lemma {:induction false} HostsOfConcat(a: seq<DeploymentNode>, b: seq<DeploymentNode>, names: map<string, string>)
    ensures HostsOfAll(a + b, names) == HostsOfAll(a, names) + HostsOfAll(b, names)
  {
    if a == [] {
      assert a + b == b;
    } else {
      assert (a + b)[1..] == a[1..] + b;
      HostsOfConcat(a[1..], b, names);
      ConcatIsAssociative(HostsOf(a[0], names), HostsOfAll(a[1..], names), HostsOfAll(b, names));
    }
  }

  lemma {:induction false} WarningsOfConcat(a: seq<DeploymentNode>, b: seq<DeploymentNode>,
                                            names: map<string, string>, file: string)
    ensures WarningsOfAll(a + b, names, file) == WarningsOfAll(a, names, file) + WarningsOfAll(b, names, file)
  {
    if a == [] {
      assert a + b == b;
    } else {
      assert (a + b)[1..] == a[1..] + b;
      WarningsOfConcat(a[1..], b, names, file);
      ConcatIsAssociative(WarningsOf(a[0], names, file), WarningsOfAll(a[1..], names, file),
                          WarningsOfAll(b, names, file));
    }
  }

  function WorkloadCount(hosts: seq<Host>): nat {
    if hosts == [] then 0 else WorkloadCount(hosts[..|hosts| - 1]) + |hosts[|hosts| - 1].workloads|
  }

  lemma {:induction false} WorkloadCountOfConcat(a: seq<Host>, b: seq<Host>)
    ensures WorkloadCount(a + b) == WorkloadCount(a) + WorkloadCount(b)
  {
    if b == [] {
      assert a + b == a;
    } else {
      assert (a + b)[..|a + b| - 1] == a + b[..|b| - 1];
      WorkloadCountOfConcat(a, b[..|b| - 1]);
    }
  }

  // The walk

  /** What the walk appends to. */
  class MapResult {
    var hosts: seq<Host>
    var warnings: seq<Warning>
    var workloads: nat

    constructor ()
      ensures hosts == [] && warnings == [] && workloads == 0
    {
      hosts, warnings, workloads := [], [], 0;
    }
  }

  /** What was there before, and then everything that `nodes` yield. */
  ghost predicate Added(hosts: seq<Host>, warnings: seq<Warning>, workloads: nat, before: MapState,
                        nodes: seq<DeploymentNode>, names: map<string, string>, file: string)
  {
    && hosts == before.hosts + HostsOfAll(nodes, names)
    && warnings == before.warnings + WarningsOfAll(nodes, names, file)
    && workloads == before.workloads + WorkloadCount(HostsOfAll(nodes, names))
  }

  datatype MapState = MapState(hosts: seq<Host>, warnings: seq<Warning>, workloads: nat)

  lemma AddedMore(hosts: seq<Host>, warnings: seq<Warning>, workloads: nat, middle: MapState, before: MapState,
                  a: seq<DeploymentNode>, b: seq<DeploymentNode>, names: map<string, string>, file: string)
    requires Added(middle.hosts, middle.warnings, middle.workloads, before, a, names, file)
    requires Added(hosts, warnings, workloads, middle, b, names, file)
    ensures Added(hosts, warnings, workloads, before, a + b, names, file)
  {
    assert hosts == before.hosts + HostsOfAll(a + b, names) by {
      HostsOfConcat(a, b, names);
      ConcatIsAssociative(before.hosts, HostsOfAll(a, names), HostsOfAll(b, names));
    }
    assert warnings == before.warnings + WarningsOfAll(a + b, names, file) by {
      WarningsOfConcat(a, b, names, file);
      ConcatIsAssociative(before.warnings, WarningsOfAll(a, names, file), WarningsOfAll(b, names, file));
    }
    HostsOfConcat(a, b, names);
    WorkloadCountOfConcat(HostsOfAll(a, names), HostsOfAll(b, names));
  }

  lemma DoneOneMore(node: DeploymentNode, children: seq<DeploymentNode>, i: nat)
    requires i < |children|
    ensures [node] + PreorderAll(children[..i + 1]) == ([node] + PreorderAll(children[..i])) + Preorder(children[i])
  {
    PreorderOfOneMore(children, i);
    ConcatIsAssociative([node], PreorderAll(children[..i]), Preorder(children[i]));
  }

  /** The walk below a node adds what the nodes of its preorder yield, invalid nodes included. */
  method WalkDeploymentNode(node: DeploymentNode, file: string, names: map<string, string>, result: MapResult)
    modifies result
    ensures Added(result.hosts, result.warnings, result.workloads,
                  MapState(old(result.hosts), old(result.warnings), old(result.workloads)), Preorder(node), names, file)
    decreases node
  {
    ghost var before := MapState(result.hosts, result.warnings, result.workloads);
    MapNode(node, file, names, result);
    NodeAlone(node, names, file);
    var children := ChildNodes(node);
    ghost var done := [node];
    assert done == [node] + PreorderAll(children[..0]);
    for i := 0 to |children|
      invariant done == [node] + PreorderAll(children[..i])
      invariant Added(result.hosts, result.warnings, result.workloads, before, done, names, file)
    {
      DoneOneMore(node, children, i);
      ghost var middle := MapState(result.hosts, result.warnings, result.workloads);
      WalkDeploymentNode(children[i], file, names, result);
      AddedMore(result.hosts, result.warnings, result.workloads, middle, before, done, Preorder(children[i]), names,
                file);
      done := done + Preorder(children[i]);
    }
    assert children[..|children|] == children;
    PreorderByChildNodes(node);
  }

  lemma PreorderOfOneMore(nodes: seq<DeploymentNode>, i: nat)
    requires i < |nodes|
    ensures PreorderAll(nodes[..i + 1]) == PreorderAll(nodes[..i]) + Preorder(nodes[i])
  {
    assert nodes[..i + 1] == nodes[..i] + [nodes[i]];
    PreorderOfConcat(nodes[..i], [nodes[i]]);
    assert PreorderAll([nodes[i]]) == Preorder(nodes[i]);
  }

  lemma NodeAlone(node: DeploymentNode, names: map<string, string>, file: string)
    ensures HostsOfAll([node], names) == HostsOf(node, names)
    ensures WarningsOfAll([node], names, file) == WarningsOf(node, names, file)
  {
  }

  /** The node itself: its host with its workloads, or a warning. */
  method MapNode(node: DeploymentNode, file: string, names: map<string, string>, result: MapResult)
    modifies result
    ensures result.hosts == old(result.hosts) + HostsOf(node, names)
    ensures result.warnings == old(result.warnings) + WarningsOf(node, names, file)
    ensures result.workloads == old(result.workloads) + WorkloadCount(HostsOf(node, names))
  {
    var mapped := MapHost(node);
    if mapped.Failure? {
      result.warnings := result.warnings + [NodeSkipped(file, node.id, mapped.error)];
      return;
    }
    var host, instances := mapped.value, node.instances;
    for i := 0 to |instances|
      invariant host == mapped.value.(workloads := GoodWorkloads(instances[..i], names))
      invariant result.hosts == old(result.hosts)
      invariant result.warnings
             == old(result.warnings) + BadWorkloads(instances[..i], names, file, node.id, host.hostId)
      invariant result.workloads == old(result.workloads) + |host.workloads|
    {
      OneMoreInstance(instances, i, names, file, node.id, host.hostId);
      host := MapInstance(host, node.id, instances[i], file, names, result);
      ConcatIsAssociative(old(result.warnings), BadWorkloads(instances[..i], names, file, node.id, host.hostId),
                          WorkloadWarningOf(instances[i], names, file, node.id, host.hostId));
    }
    assert instances[..|instances|] == instances;
    result.hosts := result.hosts + [host];
    WorkloadCountOfOne(host);
  }

  lemma OneMoreInstance(instances: seq<ContainerInstance>, i: nat, names: map<string, string>, file: string,
                        nodeId: string, hostId: string)
    requires i < |instances|
    ensures GoodWorkloads(instances[..i + 1], names)
         == GoodWorkloads(instances[..i], names) + WorkloadOf(instances[i], names)
    ensures BadWorkloads(instances[..i + 1], names, file, nodeId, hostId) ==
            BadWorkloads(instances[..i], names, file, nodeId, hostId)
            + WorkloadWarningOf(instances[i], names, file, nodeId, hostId)
  {
    assert instances[..i + 1][..i] == instances[..i];
  }

  lemma WorkloadCountOfOne(host: Host)
    ensures WorkloadCount([host]) == |host.workloads|
  {
    assert [host][..0] == [];
  }

  /** One turn of the loop over the container instances. */
  method MapInstance(host: Host, nodeId: string, instance: ContainerInstance, file: string, names: map<string, string>,
                     result: MapResult) returns (grown: Host)
    modifies result
    ensures grown == host.(workloads := host.workloads + WorkloadOf(instance, names))
    ensures result.hosts == old(result.hosts)
    ensures result.warnings == old(result.warnings) + WorkloadWarningOf(instance, names, file, nodeId, host.hostId)
    ensures result.workloads == old(result.workloads) + |WorkloadOf(instance, names)|
  {
    var workload := MapWorkload(instance, names);
    if workload.Failure? {
      result.warnings := result.warnings + [WorkloadSkipped(file, nodeId, host.hostId, instance.id, workload.error)];
      return host;
    }
    result.workloads := result.workloads + 1;
    return host.(workloads := host.workloads + [workload.value]);
  }

  method MapManifest(manifest: Manifest, file: string) returns (result: MapResult, ghost names: map<string, string>)
    ensures fresh(result) && NamesContainers(names, AllContainers(manifest.systems))
    ensures result.hosts == HostsOfAll(PreorderAll(manifest.deploymentNodes), names)
    ensures result.warnings == WarningsOfAll(PreorderAll(manifest.deploymentNodes), names, file)
    ensures result.workloads == WorkloadCount(result.hosts)
  {
    var containerNames := BuildContainerMap(manifest);
    names := containerNames;
    result := new MapResult();
    var nodes := manifest.deploymentNodes;
    ghost var empty := MapState([], [], 0);
    for i := 0 to |nodes|
      invariant Added(result.hosts, result.warnings, result.workloads, empty, PreorderAll(nodes[..i]), names, file)
    {
      PreorderOfOneMore(nodes, i);
      ghost var middle := MapState(result.hosts, result.warnings, result.workloads);
      WalkDeploymentNode(nodes[i], file, containerNames, result);
      AddedMore(result.hosts, result.warnings, result.workloads, middle, empty,
                PreorderAll(nodes[..i]), Preorder(nodes[i]), names, file);
    }
    assert nodes[..|nodes|] == nodes;
  }

  /** The container map of a manifest is unique, so `MapManifest` is a function of its input. */
  lemma NamesAreUnique(a: map<string, string>, b: map<string, string>, containers: seq<Container>)
    requires NamesContainers(a, containers) && NamesContainers(b, containers)
    ensures a == b
  {
    assert forall id :: id in a <==> id in b;
    forall id | id in a ensures a[id] == b[id] {}
  }

  // What the counts conserve

  function NodeWarnings(ws: seq<Warning>): nat {
    if ws == [] then 0 else NodeWarnings(ws[..|ws| - 1]) + if ws[|ws| - 1].NodeSkipped? then 1 else 0
  }

  lemma {:induction false} NodeWarningsOfConcat(a: seq<Warning>, b: seq<Warning>)
    ensures NodeWarnings(a + b) == NodeWarnings(a) + NodeWarnings(b)
  {
    if b == [] {
      assert a + b == a;
    } else {
      assert (a + b)[..|a + b| - 1] == a + b[..|b| - 1];
      NodeWarningsOfConcat(a, b[..|b| - 1]);
    }
  }

  lemma {:induction false} EachInstanceCounts(instances: seq<ContainerInstance>, names: map<string, string>,
                                              file: string, nodeId: string, hostId: string)
    ensures |GoodWorkloads(instances, names)| + |BadWorkloads(instances, names, file, nodeId, hostId)| == |instances|
    ensures NodeWarnings(BadWorkloads(instances, names, file, nodeId, hostId)) == 0
    ensures forall i :: 0 <= i < |GoodWorkloads(instances, names)| ==> ValidWorkload(GoodWorkloads(instances, names)[i])
  {
    if instances != [] {
      var front := instances[..|instances| - 1];
      EachInstanceCounts(front, names, file, nodeId, hostId);
      InstanceCountsOnce(instances[|instances| - 1], names, file, nodeId, hostId);
      NodeWarningsOfConcat(BadWorkloads(front, names, file, nodeId, hostId),
                           WorkloadWarningOf(instances[|instances| - 1], names, file, nodeId, hostId));
    }
  }

  lemma InstanceCountsOnce(instance: ContainerInstance, names: map<string, string>, file: string, nodeId: string,
                           hostId: string)
    ensures |WorkloadOf(instance, names)| + |WorkloadWarningOf(instance, names, file, nodeId, hostId)| == 1
    ensures NodeWarnings(WorkloadWarningOf(instance, names, file, nodeId, hostId)) == 0
    ensures forall i :: 0 <= i < |WorkloadOf(instance, names)| ==> ValidWorkload(WorkloadOf(instance, names)[i])
  {
    var warnings := WorkloadWarningOf(instance, names, file, nodeId, hostId);
    assert warnings != [] ==> warnings[..|warnings| - 1] == [];
  }

  /** Instances on the nodes that are valid hosts. */
  function InstancesOnValidNodes(nodes: seq<DeploymentNode>): nat {
    if nodes == [] then 0
    else (if MapHost(nodes[0]).Success? then |nodes[0].instances| else 0) + InstancesOnValidNodes(nodes[1..])
  }

  predicate AllValid(hosts: seq<Host>) {
    forall i :: 0 <= i < |hosts| ==>
      ValidHost(hosts[i]) && forall j :: 0 <= j < |hosts[i].workloads| ==> ValidWorkload(hosts[i].workloads[j])
  }

  /** Nothing is lost silently: every node becomes a host or a warning, every instance on a valid
      node a workload or a warning, and everything emitted passes the validator. */
  lemma {:induction false} NothingIsLost(nodes: seq<DeploymentNode>, names: map<string, string>, file: string)
    ensures var hosts, warnings := HostsOfAll(nodes, names), WarningsOfAll(nodes, names, file);
            && |hosts| + NodeWarnings(warnings) == |nodes|
            && WorkloadCount(hosts) + (|warnings| - NodeWarnings(warnings)) == InstancesOnValidNodes(nodes)
            && AllValid(hosts)
  {
    if nodes != [] {
      NothingIsLost(nodes[1..], names, file);
      NodeIsNotLost(nodes[0], names, file);
      NodeWarningsOfConcat(WarningsOf(nodes[0], names, file), WarningsOfAll(nodes[1..], names, file));
      WorkloadCountOfConcat(HostsOf(nodes[0], names), HostsOfAll(nodes[1..], names));
    }
  }

  lemma NodeIsNotLost(node: DeploymentNode, names: map<string, string>, file: string)
    ensures var hosts, warnings := HostsOf(node, names), WarningsOf(node, names, file);
            && |hosts| + NodeWarnings(warnings) == 1
            && WorkloadCount(hosts) + (|warnings| - NodeWarnings(warnings))
               == (if MapHost(node).Success? then |node.instances| else 0)
            && AllValid(hosts)
  {
    if MapHost(node).Success? {
      EachInstanceCounts(node.instances, names, file, node.id, MapHost(node).value.hostId);
      WorkloadCountOfOne(HostsOf(node, names)[0]);
    } else {
      assert WarningsOf(node, names, file)[..0] == [];
    }
  }

  /** The counts for a whole tree: hosts and skipped nodes make up all its nodes. */
  lemma TreeIsAccountedFor(nodes: seq<DeploymentNode>, names: map<string, string>, file: string)
    ensures |HostsOfAll(PreorderAll(nodes), names)| + NodeWarnings(WarningsOfAll(PreorderAll(nodes), names, file))
         == NodeCountAll(nodes)
  {
    NothingIsLost(PreorderAll(nodes), names, file);
    PreorderAllVisitsAll(nodes);
  }
}
