/** What the mapping of manifests keeps in order, which error it reports, and what its warnings name. */
module ManifestLaws {
  import opened Counting
  import opened Text
  import opened Wrappers
  import opened DriftDomain
  import opened Manifest
  import opened ManifestMapper
  import opened DesiredStateLoader

  // Order

  /** How many containers the first `i` systems have. */
  function ContainersBefore(systems: seq<SoftwareSystem>, i: nat): nat
    requires i <= |systems|
  {
    if i == 0 then 0 else ContainersBefore(systems, i - 1) + |systems[i - 1].containers|
  }

  lemma {:induction false} ContainersOfFirst(systems: seq<SoftwareSystem>, i: nat, n: nat)
    requires i <= n <= |systems|
    ensures ContainersBefore(systems[..n], i) == ContainersBefore(systems, i)
  {
    if i > 0 { ContainersOfFirst(systems, i - 1, n); }
  }

  /** The containers of all systems, system by system and in the order of each. */
  lemma {:induction false} AllContainersInOrder(systems: seq<SoftwareSystem>, i: nat, j: nat)
    requires i < |systems| && j < |systems[i].containers|
    ensures |AllContainers(systems)| == ContainersBefore(systems, |systems|)
    ensures ContainersBefore(systems, i) + j < |AllContainers(systems)|
    ensures AllContainers(systems)[ContainersBefore(systems, i) + j] == systems[i].containers[j]
  {
    var n := |systems| - 1;
    var front := systems[..n];
    AllContainersCount(front);
    ContainersOfFirst(systems, n, n);
    if i < n {
      AllContainersInOrder(front, i, j);
      ContainersOfFirst(systems, i, n);
    }
  }

  lemma {:induction false} AllContainersCount(systems: seq<SoftwareSystem>)
    ensures |AllContainers(systems)| == ContainersBefore(systems, |systems|)
  {
    if systems != [] {
      AllContainersCount(systems[..|systems| - 1]);
      ContainersOfFirst(systems, |systems| - 1, |systems| - 1);
    }
  }

  /** Children first, then deployment nodes, each in order. */
  lemma ChildNodesInOrder(node: DeploymentNode)
    ensures |ChildNodes(node)| == |node.children| + |node.deploymentNodes|
    ensures forall i :: 0 <= i < |node.children| ==> ChildNodes(node)[i] == node.children[i]
    ensures forall i :: 0 <= i < |node.deploymentNodes| ==>
              ChildNodes(node)[|node.children| + i] == node.deploymentNodes[i]
  {
  }

  /** Workloads and warnings follow the order of the instances. */
  lemma {:induction false} InstancesInOrder(a: seq<ContainerInstance>, b: seq<ContainerInstance>,
                                            names: map<string, string>, file: string, nodeId: string, hostId: string)
    ensures GoodWorkloads(a + b, names) == GoodWorkloads(a, names) + GoodWorkloads(b, names)
    ensures BadWorkloads(a + b, names, file, nodeId, hostId)
         == BadWorkloads(a, names, file, nodeId, hostId) + BadWorkloads(b, names, file, nodeId, hostId)
  {
    if b == [] {
      assert a + b == a;
    } else {
      var n := |b| - 1;
      assert (a + b)[..|a + b| - 1] == a + b[..n] && (a + b)[|a + b| - 1] == b[n];
      InstancesInOrder(a, b[..n], names, file, nodeId, hostId);
      ConcatIsAssociative(GoodWorkloads(a, names), GoodWorkloads(b[..n], names), WorkloadOf(b[n], names));
      ConcatIsAssociative(BadWorkloads(a, names, file, nodeId, hostId),
                          BadWorkloads(b[..n], names, file, nodeId, hostId),
                          WorkloadWarningOf(b[n], names, file, nodeId, hostId));
    }
  }

  /** What is mapped from several files follows their order, and bad files yield nothing. */
  lemma {:induction false} FilesInOrder(a: seq<File>, b: seq<File>)
    ensures MappedHosts(a + b) == MappedHosts(a) + MappedHosts(b)
    ensures forall i :: 0 <= i < |b| && !Loads(b[i]) ==> MappedHosts([b[i]]) == []
    ensures forall i :: 0 <= i < |b| && Loads(b[i]) ==> MappedHosts([b[i]]) == HostsIn(b[i].manifest)
  {
    forall i | 0 <= i < |b| ensures MappedHosts([b[i]]) == if Loads(b[i]) then HostsIn(b[i].manifest) else [] {
      assert [b[i]][..0] == [];
    }
    if b == [] {
      assert a + b == a;
    } else {
      var n := |b| - 1;
      assert (a + b)[..|a + b| - 1] == a + b[..n] && (a + b)[|a + b| - 1] == b[n];
      FilesInOrder(a, b[..n]);
      ConcatIsAssociative(MappedHosts(a), MappedHosts(b[..n]), if Loads(b[n]) then HostsIn(b[n].manifest) else []);
    }
  }

  /** The ids of the merged hosts ascend character by character. */
  lemma MergedIdsAscend(hosts: seq<Host>, mapped: seq<Host>)
    requires Merges(hosts, mapped)
    ensures forall i, j :: 0 <= i < j < |hosts| ==> ComesFirst(hosts[i].hostId, hosts[j].hostId)
  {
    forall i, j | 0 <= i < j < |hosts| ensures ComesFirst(hosts[i].hostId, hosts[j].hostId) {
      LessIsLexicographic(hosts[i].hostId, hosts[j].hostId);
    }
  }

  // Errors

  /** The property is missing, has no text, or is of an unsupported type. */
  ghost predicate PropertyError(p: Properties, key: string, e: MapError) {
    if key !in p then e == IsRequired(key)
    else if p[key].Other? then e == BadValue(key)
    else MeansText(p[key], "") && e == IsRequired(key)
  }

  ghost predicate PropertyFits(p: Properties, key: string) {
    key in p && exists text :: text != "" && MeansText(p[key], text) && NormalizeString(p[key]) == Some(text)
  }

  lemma RequiredStringErrs(p: Properties, key: string)
    ensures RequiredString(p, key).Success? <==> PropertyFits(p, key)
    ensures RequiredString(p, key).Failure? ==> PropertyError(p, key, RequiredString(p, key).error)
  {
    if key in p { NormalizeStringMeans(p[key]); }
  }

  /** A node that is no host fails at the first required property that does not fit; if all of them have
      text, at those that are blank. */
  lemma HostErrorIsFirst(node: DeploymentNode)
    requires MapHost(node).Failure?
    ensures FailsAtFirst(node.properties, MapHost(node).error) || FailsAtBlank(node.properties, MapHost(node).error)
  {
    if MapHost(node).error.InvalidHost? {
      BlankFieldsAreMissing(node);
      AllFit(node.properties);
    } else {
      var k := FirstThatFails(node);
      FirstMisfit(node.properties, k);
    }
  }

  ghost predicate FailsAtFirst(p: Properties, e: MapError) {
    exists k :: 0 <= k < |REQUIRED_HOST_KEYS| && PropertyError(p, REQUIRED_HOST_KEYS[k], e) && FitsBefore(p, k)
  }

  ghost predicate FitsBefore(p: Properties, k: nat)
    requires k <= |REQUIRED_HOST_KEYS|
  {
    forall j :: 0 <= j < k ==> PropertyFits(p, REQUIRED_HOST_KEYS[j])
  }

  ghost predicate FailsAtBlank(p: Properties, e: MapError) {
    e.InvalidHost? && FitsBefore(p, |REQUIRED_HOST_KEYS|)
    && forall key :: key in e.missing <==> key in REQUIRED_HOST_KEYS && !HasText(p, key)
  }

  lemma AllFit(p: Properties)
    requires forall k :: 0 <= k < |REQUIRED_HOST_KEYS| ==> RequiredString(p, REQUIRED_HOST_KEYS[k]).Success?
    ensures FitsBefore(p, |REQUIRED_HOST_KEYS|)
  {
    forall k | 0 <= k < |REQUIRED_HOST_KEYS| ensures PropertyFits(p, REQUIRED_HOST_KEYS[k]) {
      RequiredStringErrs(p, REQUIRED_HOST_KEYS[k]);
    }
  }

  lemma FirstMisfit(p: Properties, k: nat)
    requires k < |REQUIRED_HOST_KEYS| && RequiredString(p, REQUIRED_HOST_KEYS[k]).Failure?
    requires forall j :: 0 <= j < k ==> RequiredString(p, REQUIRED_HOST_KEYS[j]).Success?
    ensures FailsAtFirst(p, RequiredString(p, REQUIRED_HOST_KEYS[k]).error)
  {
    RequiredStringErrs(p, REQUIRED_HOST_KEYS[k]);
    forall j | 0 <= j < k ensures PropertyFits(p, REQUIRED_HOST_KEYS[j]) {
      RequiredStringErrs(p, REQUIRED_HOST_KEYS[j]);
    }
  }

  lemma FirstThatFails(node: DeploymentNode) returns (k: nat)
    requires MapHost(node).Failure? && !MapHost(node).error.InvalidHost?
    ensures k < |REQUIRED_HOST_KEYS|
    ensures RequiredString(node.properties, REQUIRED_HOST_KEYS[k]) == Failure(MapHost(node).error)
    ensures forall j :: 0 <= j < k ==> RequiredString(node.properties, REQUIRED_HOST_KEYS[j]).Success?
  {
    var p, keys := node.properties, REQUIRED_HOST_KEYS;
    assert keys[0] == "host_id" && keys[1] == "fqdn" && keys[2] == "env" && keys[3] == "managed_by";
    assert keys[4] == "purpose";
    k := if RequiredString(p, "host_id").Failure? then 0
         else if RequiredString(p, "fqdn").Failure? then 1
         else if RequiredString(p, "env").Failure? then 2
         else if RequiredString(p, "managed_by").Failure? then 3
         else 4;
    assert RequiredString(p, keys[k]) == Failure(MapHost(node).error);
  }

  /** A node with text for all properties may still have blank text for some. */
  lemma BlankFieldsAreMissing(node: DeploymentNode)
    requires MapHost(node).Failure? && MapHost(node).error.InvalidHost?
    ensures forall k :: 0 <= k < |REQUIRED_HOST_KEYS| ==>
              RequiredString(node.properties, REQUIRED_HOST_KEYS[k]).Success?
    ensures forall key :: key in MapHost(node).error.missing <==>
                            key in REQUIRED_HOST_KEYS && !HasText(node.properties, key)
  {
    var p, keys := node.properties, REQUIRED_HOST_KEYS;
    assert keys[0] == "host_id" && keys[1] == "fqdn" && keys[2] == "env" && keys[3] == "managed_by";
    assert keys[4] == "purpose";
    NoInvalidHostFrom(p, "host_id");
    NoInvalidHostFrom(p, "fqdn");
    NoInvalidHostFrom(p, "env");
    NoInvalidHostFrom(p, "managed_by");
    NoInvalidHostFrom(p, "purpose");
    TextIsRequired(p, "host_id");
    TextIsRequired(p, "fqdn");
    TextIsRequired(p, "env");
    TextIsRequired(p, "managed_by");
    TextIsRequired(p, "purpose");
    var missing := MapHost(node).error.missing;
    assert forall key :: key in keys <==>
             key == keys[0] || key == keys[1] || key == keys[2] || key == keys[3] || key == keys[4];
    BlankFields(p, missing);
  }

  lemma NoInvalidHostFrom(p: Properties, key: string)
    ensures RequiredString(p, key).Failure? ==> !RequiredString(p, key).error.InvalidHost?
  {
  }

  lemma BlankFields(p: Properties, missing: seq<string>)
    requires RequiredString(p, "host_id").Success? && RequiredString(p, "fqdn").Success?
    requires RequiredString(p, "env").Success? && RequiredString(p, "managed_by").Success?
    requires RequiredString(p, "purpose").Success?
    requires missing == (if Trim(RequiredString(p, "host_id").value) == "" then ["host_id"] else [])
                        + (if Trim(RequiredString(p, "fqdn").value) == "" then ["fqdn"] else [])
                        + (if Trim(RequiredString(p, "env").value) == "" then ["env"] else [])
                        + (if Trim(RequiredString(p, "managed_by").value) == "" then ["managed_by"] else [])
                        + (if Trim(RequiredString(p, "purpose").value) == "" then ["purpose"] else [])
    ensures forall key :: key in missing <==>
              (key == "host_id" || key == "fqdn" || key == "env" || key == "managed_by" || key == "purpose")
              && Trim(RequiredString(p, key).value) == ""
  {
  }

  /** An instance that does not map fails at the first of: its container, `enabled`, `deployment_mode`,
      `port`, `version`, and at last blank text. */
  lemma WorkloadErrorIsFirst(instance: ContainerInstance, names: map<string, string>)
    requires MapWorkload(instance, names).Failure?
    ensures var p, id, e := instance.properties, Trim(instance.containerId), MapWorkload(instance, names).error;
            if id !in names || Trim(names[id]) == "" then e == ContainerNotFound(id)
            else if "enabled" !in p then e == IsRequired("enabled")
            else if !MeansTrue(p["enabled"]) && !MeansFalse(p["enabled"]) then e == BadValue("enabled")
            else if !PropertyFits(p, "deployment_mode") then PropertyError(p, "deployment_mode", e)
            else if "port" in p && !exists n :: MeansInt(p["port"], n) then e == InvalidPort
            else if "version" in p && p["version"].Other? then e == InvalidVersion
            else e.InvalidWorkload?
  {
    var p := instance.properties;
    if "enabled" in p { NormalizeBoolMeans(p["enabled"]); }
    if "port" in p { PortMeans(p["port"]); }
    if "version" in p { NormalizeStringMeans(p["version"]); }
    RequiredStringErrs(p, "deployment_mode");
  }

  /** The blank text is that of the deployment mode, or of the image of a container. */
  lemma BlankWorkloadFields(instance: ContainerInstance, names: map<string, string>)
    requires MapWorkload(instance, names).Failure? && MapWorkload(instance, names).error.InvalidWorkload?
    ensures var p, missing := instance.properties, MapWorkload(instance, names).error.missing;
            && PropertyFits(p, "deployment_mode")
            && ("deployment_mode" in missing <==> !HasText(p, "deployment_mode"))
            && ("image" in missing <==>
                  SameText(NormalizeString(p["deployment_mode"]).value, "container") && !HasText(p, "image"))
            && forall key :: key in missing ==> key == "deployment_mode" || key == "image"
  {
    var p := instance.properties;
    RequiredStringErrs(p, "deployment_mode");
    TextIsRequired(p, "deployment_mode");
    BlankTrims();
    assert Trim("container") == "container" && Lower("container") == "container";
    assert HasText(p, "image") <==> Trim(OptionalString(p, "image")) != "";
    MissingKeys(p, MapWorkload(instance, names).error.missing, OptionalString(p, "image"));
  }

  lemma MissingKeys(p: Properties, missing: seq<string>, image: string)
    requires RequiredString(p, "deployment_mode").Success?
    requires var mode := RequiredString(p, "deployment_mode").value;
             missing == (if Trim(mode) == "" then ["deployment_mode"] else [])
                        + (if Normalize(mode) == "container" && Trim(image) == "" then ["image"] else [])
    ensures var mode := RequiredString(p, "deployment_mode").value;
            forall key :: key in missing <==>
              (key == "deployment_mode" && Trim(mode) == "")
              || (key == "image" && Normalize(mode) == "container" && Trim(image) == "")
  {
  }

  lemma PortMeans(v: Value)
    ensures NormalizeInt(v).Some? <==> exists n :: MeansInt(v, n)
  {
    forall n ensures NormalizeInt(v) == Some(n) <==> MeansInt(v, n) { NormalizeIntMeans(v, n); }
    if NormalizeInt(v).Some? { assert MeansInt(v, NormalizeInt(v).value); }
  }

  // Warnings

  /** A warning about an instance that does not map. */
  ghost predicate IsSkip(w: Warning, instance: ContainerInstance, names: map<string, string>, file: string,
                         nodeId: string, hostId: string) {
    MapWorkload(instance, names).Failure?
    && w == WorkloadSkipped(file, nodeId, hostId, instance.id, MapWorkload(instance, names).error)
  }

  /** A warning about a node that is no host, or about an instance that does not map. */
  ghost predicate WarnsOf(w: Warning, node: DeploymentNode, names: map<string, string>, file: string) {
    match MapHost(node)
    case Failure(e) => w == NodeSkipped(file, node.id, e)
    case Success(host) =>
      exists i :: 0 <= i < |node.instances| && IsSkip(w, node.instances[i], names, file, node.id, host.hostId)
  }

  lemma OneBadWorkload(w: Warning, instance: ContainerInstance, names: map<string, string>, file: string,
                       nodeId: string, hostId: string)
    ensures w in BadWorkloads([instance], names, file, nodeId, hostId)
            <==> IsSkip(w, instance, names, file, nodeId, hostId)
  {
    assert [instance][..0] == [];
  }

  lemma {:induction false} BadWorkloadsName(instances: seq<ContainerInstance>, names: map<string, string>, file: string,
                                            nodeId: string, hostId: string, w: Warning)
    ensures w in BadWorkloads(instances, names, file, nodeId, hostId)
            <==> exists i :: 0 <= i < |instances| && IsSkip(w, instances[i], names, file, nodeId, hostId)
  {
    if instances != [] {
      var front, last := instances[..|instances| - 1], instances[|instances| - 1];
      BadWorkloadsName(front, names, file, nodeId, hostId, w);
      assert instances == front + [last];
      InstancesInOrder(front, [last], names, file, nodeId, hostId);
      OneBadWorkload(w, last, names, file, nodeId, hostId);
    }
  }

  /** The warnings are exactly those of the nodes and their instances, each with its file and ids. */
  lemma {:induction false} WarningsNameTheirNodes(nodes: seq<DeploymentNode>, names: map<string, string>, file: string,
                                                  w: Warning)
    ensures w in WarningsOfAll(nodes, names, file)
            <==> exists i :: 0 <= i < |nodes| && WarnsOf(w, nodes[i], names, file)
  {
    if nodes != [] {
      WarningsNameTheirNodes(nodes[1..], names, file, w);
      NodeWarns(nodes[0], names, file, w);
      assert forall i :: 0 < i < |nodes| ==> nodes[i] == nodes[1..][i - 1];
    }
  }

  lemma NodeWarns(node: DeploymentNode, names: map<string, string>, file: string, w: Warning)
    ensures w in WarningsOf(node, names, file) <==> WarnsOf(w, node, names, file)
  {
    if MapHost(node).Success? {
      BadWorkloadsName(node.instances, names, file, node.id, MapHost(node).value.hostId, w);
    }
  }
}
