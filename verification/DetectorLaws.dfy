/** What the detectors decide and command, and which actual host they look at, read off the fetched states. */
module DetectorLaws {
  import opened Text
  import opened Wrappers
  import opened DriftDomain
  import opened Detectors
  import opened DetectionCycle

  // The desired workload

  /** The first workload with this name, up to case and space. */
  ghost predicate IsWorkload(ws: seq<DesiredWorkload>, component: string, w: DesiredWorkload) {
    exists i :: 0 <= i < |ws| && ws[i] == w && SameText(ws[i].name, component)
                && forall j :: 0 <= j < i ==> !SameText(ws[j].name, component)
  }

  lemma ComponentIsNormal(component: string)
    requires component == CADVISOR || component == NODE_EXPORTER
    ensures Normalize(component) == Lower(component)
  {
    assert Trim(CADVISOR) == CADVISOR && Trim(NODE_EXPORTER) == NODE_EXPORTER;
  }

  lemma FoundWorkload(ws: seq<DesiredWorkload>, component: string, w: DesiredWorkload)
    requires component == CADVISOR || component == NODE_EXPORTER
    ensures FindWorkload(ws, component) == Some(w) <==> IsWorkload(ws, component, w)
  {
    ComponentIsNormal(component);
    var found := FindWorkload(ws, component);
    if found.Some? {
      var i :| 0 <= i < |ws| && found.value == ws[i] && Names(ws[i].name, component)
               && forall j :: 0 <= j < i ==> !Names(ws[j].name, component);
      assert IsWorkload(ws, component, found.value);
      if IsWorkload(ws, component, w) {
        var k :| 0 <= k < |ws| && ws[k] == w && SameText(ws[k].name, component)
                 && forall j :: 0 <= j < k ==> !SameText(ws[j].name, component);
        assert Names(ws[k].name, component);
      }
    } else {
      forall i | 0 <= i < |ws| ensures !SameText(ws[i].name, component) {
        assert !Names(ws[i].name, component);
      }
    }
  }

  /** A component is required where its workload is enabled and deployed as a container. */
  lemma RequirementMeans(desired: DesiredHost, component: string)
    requires component == CADVISOR || component == NODE_EXPORTER
    ensures RequiresContainer(desired, component) <==>
              exists w :: IsWorkload(desired.workloads, component, w) && w.enabled
                          && SameText(w.deploymentMode, "container")
  {
    assert Trim("container") == "container" && Lower("container") == "container";
    forall w
      ensures FindWorkload(desired.workloads, component) == Some(w) <==> IsWorkload(desired.workloads, component, w)
    {
      FoundWorkload(desired.workloads, component, w);
    }
    if RequiresContainer(desired, component) {
      assert IsWorkload(desired.workloads, component, FindWorkload(desired.workloads, component).value);
    }
  }

  /** A component is seen where the enabled source cadvisor is ok and reports a workload with its name. */
  lemma SightMeans(actual: ActualHost, component: string)
    requires component == CADVISOR || component == NODE_EXPORTER
    ensures IsSourceHealthy(actual, CADVISOR) <==>
              "cadvisor" in actual.sourceStatus && actual.sourceStatus["cadvisor"].enabled
              && SameText(actual.sourceStatus["cadvisor"].status, "ok")
    ensures HasWorkload(actual, component) <==>
              exists i :: 0 <= i < |actual.workloads| && SameText(actual.workloads[i], component)
  {
    assert Trim("ok") == "ok" && Lower("ok") == "ok";
    ComponentIsNormal(component);
    if i :| 0 <= i < |actual.workloads| && SameText(actual.workloads[i], component) {
      assert Names(actual.workloads[i], component);
    }
    if HasWorkload(actual, component) {
      var i :| 0 <= i < |actual.workloads| && Names(actual.workloads[i], component);
      assert SameText(actual.workloads[i], component);
    }
  }

  // The command

  /** The image without surrounding space unless it is blank, the port if there is one, and nothing else. */
  ghost predicate Carries(parameters: map<string, Parameter>, component: string, w: DesiredWorkload) {
    var image, port := component + "_image", component + "_port";
    && (image in parameters <==> !Blank(w.image))
    && (image in parameters ==> parameters[image].ImageParameter? && IsCutOut(w.image, parameters[image].image))
    && (port in parameters <==> w.port.Some?)
    && (port in parameters ==> parameters[port] == PortParameter(w.port.value))
    && forall key :: key in parameters ==> key == image || key == port
  }

  /** The first of the two texts that is not blank, without surrounding space. */
  ghost predicate FirstText(text: string, first: string, second: string) {
    if !Blank(first) then IsCutOut(first, text) else IsCutOut(second, text)
  }

  lemma ParametersCarry(component: string, w: DesiredWorkload)
    ensures Carries(Parameters(component, w), component, w)
  {
    var image, port := component + "_image", component + "_port";
    assert image[|component| + 1] == 'i' && port[|component| + 1] == 'p';
    BlankByTrim(w.image);
    TrimMeans(w.image, Trim(w.image));
  }

  lemma AddressIsFirstText(desired: DesiredHost, actual: ActualHost)
    ensures FirstText(ResolveTargetFqdn(desired, actual), desired.fqdn, actual.fqdn)
    ensures FirstText(ResolveHostId(desired, actual), desired.hostId, actual.hostId)
  {
    BlankByTrim(desired.fqdn);
    BlankByTrim(desired.hostId);
    TrimMeans(desired.fqdn, Trim(desired.fqdn));
    TrimMeans(actual.fqdn, Trim(actual.fqdn));
    TrimMeans(desired.hostId, Trim(desired.hostId));
    TrimMeans(actual.hostId, Trim(actual.hostId));
  }

  /** A drift commands what the workload asks for: its image and its port go to the desired host, or, for
      the part of the address that is blank, to the actual one. */
  lemma CommandCarriesWorkload(cycleId: string, desired: DesiredHost, actual: ActualHost, component: string, c: Command)
    requires component == CADVISOR || component == NODE_EXPORTER
    requires Judge(BOTH_DETECTORS, cycleId, desired, actual, component) == Drifted(c)
    ensures exists w :: IsWorkload(desired.workloads, component, w) && Carries(c.parameters, component, w)
    ensures FirstText(c.fqdn, desired.fqdn, actual.fqdn) && FirstText(c.hostId, desired.hostId, actual.hostId)
    ensures c.component == component && c.correlationId == cycleId + ":" + component + ":" + Normalize(c.fqdn)
  {
    DriftedCommand(cycleId, desired, actual, component);
    var w := FindWorkload(desired.workloads, component).value;
    FoundWorkload(desired.workloads, component, w);
    ParametersCarry(component, w);
    AddressIsFirstText(desired, actual);
  }

  lemma DriftedCommand(cycleId: string, desired: DesiredHost, actual: ActualHost, component: string)
    requires component == CADVISOR || component == NODE_EXPORTER
    ensures var v := Judge(BOTH_DETECTORS, cycleId, desired, actual, component);
            var found := FindWorkload(desired.workloads, component);
            v.Drifted? ==> found.Some? && v.command == CommandFor(cycleId, component, found.value, desired, actual)
  {
    assert NODE_EXPORTER[0] != CADVISOR[0];
    if component == CADVISOR {
      assert BOTH_DETECTORS[component] == DetectCadvisor;
    } else {
      assert BOTH_DETECTORS[component] == DetectNodeExporter;
    }
  }

  /** Why a component drifts, or why nothing can be said. */
  lemma ReasonsMean(cycleId: string, desired: DesiredHost, actual: ActualHost)
    ensures var c, n := DetectCadvisor(cycleId, desired, actual), DetectNodeExporter(cycleId, desired, actual);
            var healthy := IsSourceHealthy(actual, CADVISOR);
            && (c.drift ==> c.finding.value.reason
                            == if healthy then "component is required in desired state but missing in actual state"
                               else "cadvisor source is not healthy, bootstrap reconcile is required")
            && (c.drift ==> c.skipReason == if healthy then "drift detected for cadvisor"
                                            else "bootstrap reconcile requested for cadvisor")
            && (n.drift ==> n.finding.value.reason
                            == "component is required in desired state but missing in actual state")
            && (n.drift ==> n.skipReason == "drift detected for node_exporter")
            && (n.missingActualData ==> n.skipReason == "cadvisor source data is not healthy")
            && (!c.drift ==> c.skipReason == "") && (!n.drift && !n.missingActualData ==> n.skipReason == "")
  {
    CadvisorIsCoherent(cycleId, desired, actual);
    NodeExporterIsCoherent(cycleId, desired, actual);
  }

  // The actual host

  /** The last host with this id, which is not blank. */
  ghost predicate IsLastWithId(hosts: seq<ActualHost>, id: string, i: nat) {
    i < |hosts| && !Blank(id) && SameText(hosts[i].hostId, id)
    && forall j :: i < j < |hosts| ==> !SameText(hosts[j].hostId, id)
  }

  ghost predicate IsLastWithFqdn(hosts: seq<ActualHost>, fqdn: string, i: nat) {
    i < |hosts| && !Blank(fqdn) && SameText(hosts[i].fqdn, fqdn)
    && forall j :: i < j < |hosts| ==> !SameText(hosts[j].fqdn, fqdn)
  }

  /** Up to case and space, the last host with the desired id; if there is none, the last with the desired
      FQDN; and if there is none of those either, nothing. Blank text matches nothing. */
  lemma FoundHostMeans(d: DesiredHost, hosts: seq<ActualHost>, h: ActualHost)
    ensures FindHost(d, hosts) == Some(h) <==>
              exists i: nat :: i < |hosts| && hosts[i] == h
                               && (IsLastWithId(hosts, d.hostId, i)
                                   || (IsLastWithFqdn(hosts, d.fqdn, i)
                                       && forall k: nat :: !IsLastWithId(hosts, d.hostId, k)))
  {
    BlankByTrim(d.hostId);
    BlankByTrim(d.fqdn);
    LastIdFound(hosts, d.hostId);
    LastFqdnFound(hosts, d.fqdn);
    if FindHost(d, hosts) == Some(h) {
      if i: nat :| IsLastWithId(hosts, d.hostId, i) {
        assert hosts[i] == h;
      } else {
        var i: nat :| IsLastWithFqdn(hosts, d.fqdn, i) && hosts[i] == h;
      }
    }
  }

  lemma LastIdFound(hosts: seq<ActualHost>, id: string)
    requires Normalize(id) == "" <==> Blank(id)
    ensures !Blank(id) && LastWithId(hosts, Normalize(id)).Some? ==>
              exists i: nat :: IsLastWithId(hosts, id, i) && hosts[i] == LastWithId(hosts, Normalize(id)).value
    ensures forall i: nat :: IsLastWithId(hosts, id, i) ==> LastWithId(hosts, Normalize(id)) == Some(hosts[i])
  {
    var found := LastWithId(hosts, Normalize(id));
    if !Blank(id) && found.Some? {
      var i :| 0 <= i < |hosts| && found.value == hosts[i] && SameText(hosts[i].hostId, id)
               && forall j :: i < j < |hosts| ==> !SameText(hosts[j].hostId, id);
      assert IsLastWithId(hosts, id, i);
    }
  }

  lemma LastFqdnFound(hosts: seq<ActualHost>, fqdn: string)
    requires Normalize(fqdn) == "" <==> Blank(fqdn)
    ensures !Blank(fqdn) && LastWithFqdn(hosts, Normalize(fqdn)).Some? ==>
              exists i: nat :: IsLastWithFqdn(hosts, fqdn, i) && hosts[i] == LastWithFqdn(hosts, Normalize(fqdn)).value
    ensures forall i: nat :: IsLastWithFqdn(hosts, fqdn, i) ==> LastWithFqdn(hosts, Normalize(fqdn)) == Some(hosts[i])
  {
    var found := LastWithFqdn(hosts, Normalize(fqdn));
    if !Blank(fqdn) && found.Some? {
      var i :| 0 <= i < |hosts| && found.value == hosts[i] && SameText(hosts[i].fqdn, fqdn)
               && forall j :: i < j < |hosts| ==> !SameText(hosts[j].fqdn, fqdn);
      assert IsLastWithFqdn(hosts, fqdn, i);
    }
  }
}
