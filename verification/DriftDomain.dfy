/** Desired and actual state as the drift detector sees them. */
module DriftDomain {
  import opened Text
  import opened Wrappers

  const NODE_EXPORTER := "node_exporter"
  const CADVISOR := "cadvisor"

  /** The only spellings `ParseComponent` accepts are those of the two components, up to case and space. */
  function ParseComponent(value: string): (r: Option<string>)
    ensures r.Some? <==> SameText(value, NODE_EXPORTER) || SameText(value, CADVISOR)
    ensures r.Some? ==> r.value == Normalize(value)
  {
    assert Trim(NODE_EXPORTER) == NODE_EXPORTER && Trim(CADVISOR) == CADVISOR;
    assert Lower(NODE_EXPORTER) == NODE_EXPORTER && Lower(CADVISOR) == CADVISOR;
    var v := Normalize(value);
    if v == NODE_EXPORTER then Some(NODE_EXPORTER)
    else if v == CADVISOR then Some(CADVISOR)
    else None
  }

  datatype DesiredWorkload = DesiredWorkload(
    name: string, enabled: bool, deploymentMode: string, image: string, version: Option<string>, port: Option<int>)

  datatype DesiredHost = DesiredHost(
    hostId: string, fqdn: string, labels: map<string, string>, workloads: seq<DesiredWorkload>)

  datatype DesiredState = DesiredState(hosts: seq<DesiredHost>, ready: bool, readyReason: string)

  datatype SourceStatus = SourceStatus(source: string, enabled: bool, status: string, error: string)

  datatype ActualHost = ActualHost(
    hostId: string, fqdn: string, labels: map<string, string>, status: string, workloads: seq<string>,
    sourceStatus: map<string, SourceStatus>)

  datatype ActualState = ActualState(hosts: seq<ActualHost>, isPartial: bool)

  predicate Names(name: string, component: string) {
    Normalize(name) == Lower(component)
  }

  function FindWorkload(workloads: seq<DesiredWorkload>, component: string): (r: Option<DesiredWorkload>)
    ensures r.None? ==> forall i :: 0 <= i < |workloads| ==> !Names(workloads[i].name, component)
    ensures r.Some? ==>
              exists i :: 0 <= i < |workloads| && r.value == workloads[i] && Names(workloads[i].name, component)
                          && forall j :: 0 <= j < i ==> !Names(workloads[j].name, component)
  {
    if workloads == [] then None
    else if Names(workloads[0].name, component) then Some(workloads[0])
    else
      assert forall i :: 0 < i < |workloads| ==> workloads[i] == workloads[1..][i - 1];
      FindWorkload(workloads[1..], component)
  }

  predicate HasWorkload(host: ActualHost, component: string) {
    exists i :: 0 <= i < |host.workloads| && Names(host.workloads[i], component)
  }

  predicate IsSourceHealthy(host: ActualHost, source: string) {
    source in host.sourceStatus && host.sourceStatus[source].enabled
    && Normalize(host.sourceStatus[source].status) == "ok"
  }

  datatype Parameter = ImageParameter(image: string) | PortParameter(port: int)

  datatype Command = Command(
    hostId: string, fqdn: string, component: string, correlationId: string, parameters: map<string, Parameter>)

  datatype Finding = Finding(component: string, hostId: string, fqdn: string, reason: string)

  datatype DetectorResult = DetectorResult(
    component: string, applicable: bool, missingActualData: bool, drift: bool, skipReason: string,
    finding: Option<Finding>, command: Option<Command>)
}

/** The two detectors and their registry. */
module Detectors {
  import opened Text
  import opened Wrappers
  import opened DriftDomain

  type Detector = (string, DesiredHost, ActualHost) -> DetectorResult

  /** By component. */
  type Registry = map<string, Detector>

  function ResolveTargetFqdn(desired: DesiredHost, actual: ActualHost): string {
    if Trim(desired.fqdn) != "" then Trim(desired.fqdn) else Trim(actual.fqdn)
  }

  function ResolveHostId(desired: DesiredHost, actual: ActualHost): string {
    if Trim(desired.hostId) != "" then Trim(desired.hostId) else Trim(actual.hostId)
  }

  function CorrelationId(cycleId: string, component: string, fqdn: string): string {
    cycleId + ":" + component + ":" + Normalize(fqdn)
  }

  function Parameters(component: string, workload: DesiredWorkload): map<string, Parameter> {
    var text := Trim(workload.image);
    var image := if text != "" then map[component + "_image" := ImageParameter(text)] else map[];
    match workload.port
    case None => image
    case Some(port) => image[component + "_port" := PortParameter(port)]
  }

  function CommandFor(cycleId: string, component: string, workload: DesiredWorkload, desired: DesiredHost,
                      actual: ActualHost): Command
  {
    var fqdn := ResolveTargetFqdn(desired, actual);
    Command(ResolveHostId(desired, actual), fqdn, component, CorrelationId(cycleId, component, fqdn),
            Parameters(component, workload))
  }

  /** A workload that this host must run, as a container. */
  predicate RequiresContainer(desired: DesiredHost, component: string) {
    var w := FindWorkload(desired.workloads, component);
    w.Some? && w.value.enabled && Normalize(w.value.deploymentMode) == "container"
  }

  function NothingFound(component: string): DetectorResult {
    DetectorResult(component, false, false, false, "", None, None)
  }

  function DriftResult(component: string, command: Command, reason: string, skipReason: string): DetectorResult {
    DetectorResult(component, true, false, true, skipReason,
                   Some(Finding(component, command.hostId, command.fqdn, reason)), Some(command))
  }

  const NO_SOURCE := "cadvisor source is not healthy, bootstrap reconcile is required"
  const BOOTSTRAP := "bootstrap reconcile requested for cadvisor"
  const MISSING := "component is required in desired state but missing in actual state"

  /** Without healthy data the detector asks for cadvisor all the same, to bootstrap the host. */
  function DetectCadvisor(cycleId: string, desired: DesiredHost, actual: ActualHost): DetectorResult {
    var found := FindWorkload(desired.workloads, CADVISOR);
    if found.None? || !found.value.enabled then NothingFound(CADVISOR)
    else if Normalize(found.value.deploymentMode) != "container" then NothingFound(CADVISOR)
    else
      var command := CommandFor(cycleId, CADVISOR, found.value, desired, actual);
      if !IsSourceHealthy(actual, CADVISOR) then
        DriftResult(CADVISOR, command, NO_SOURCE, BOOTSTRAP)
      else if HasWorkload(actual, CADVISOR) then NothingFound(CADVISOR).(applicable := true)
      else DriftResult(CADVISOR, command, MISSING, "drift detected for cadvisor")
  }

  /** Without healthy cadvisor data the detector cannot tell, and says so. */
  function DetectNodeExporter(cycleId: string, desired: DesiredHost, actual: ActualHost): DetectorResult {
    var found := FindWorkload(desired.workloads, NODE_EXPORTER);
    if found.None? || !found.value.enabled then NothingFound(NODE_EXPORTER)
    else if Normalize(found.value.deploymentMode) != "container" then NothingFound(NODE_EXPORTER)
    else if !IsSourceHealthy(actual, CADVISOR) then
      NothingFound(NODE_EXPORTER).(applicable := true, missingActualData := true,
                                   skipReason := "cadvisor source data is not healthy")
    else if HasWorkload(actual, NODE_EXPORTER) then NothingFound(NODE_EXPORTER).(applicable := true)
    else DriftResult(NODE_EXPORTER, CommandFor(cycleId, NODE_EXPORTER, found.value, desired, actual), MISSING,
                     "drift detected for node_exporter")
  }

  /** Where a command goes, and what it may carry. */
  ghost predicate Addresses(c: Command, cycleId: string, component: string, desired: DesiredHost) {
    && c.component == component && c.correlationId == cycleId + ":" + component + ":" + Normalize(c.fqdn)
    && (Trim(desired.fqdn) != "" ==> c.fqdn == Trim(desired.fqdn))
    && (Trim(desired.hostId) != "" ==> c.hostId == Trim(desired.hostId))
    && forall key :: key in c.parameters ==> key == component + "_image" || key == component + "_port"
  }

  /** Finding and command come together, exactly with a drift, and name one component on one host. */
  ghost predicate Coherent(r: DetectorResult, cycleId: string, component: string, desired: DesiredHost) {
    && (r.drift <==> r.command.Some?) && (r.drift <==> r.finding.Some?)
    && (r.drift || r.missingActualData ==> r.applicable) && !(r.drift && r.missingActualData)
    && (r.applicable <==> RequiresContainer(desired, component))
    && (r.drift ==>
          var c, f := r.command.value, r.finding.value;
          && Addresses(c, cycleId, component, desired)
          && f.component == component && f.hostId == c.hostId && f.fqdn == c.fqdn)
  }

  lemma CommandAddresses(cycleId: string, component: string, workload: DesiredWorkload, desired: DesiredHost,
                         actual: ActualHost)
    ensures Addresses(CommandFor(cycleId, component, workload, desired, actual), cycleId, component, desired)
  {
  }

  lemma DriftIsCoherent(cycleId: string, component: string, desired: DesiredHost, actual: ActualHost)
    requires RequiresContainer(desired, component)
    ensures var workload := FindWorkload(desired.workloads, component).value;
            var command := CommandFor(cycleId, component, workload, desired, actual);
            forall reason, skipReason ::
              Coherent(DriftResult(component, command, reason, skipReason), cycleId, component, desired)
  {
    CommandAddresses(cycleId, component, FindWorkload(desired.workloads, component).value, desired, actual);
  }

  lemma CadvisorIsCoherent(cycleId: string, desired: DesiredHost, actual: ActualHost)
    ensures Coherent(DetectCadvisor(cycleId, desired, actual), cycleId, CADVISOR, desired)
  {
    if !RequiresContainer(desired, CADVISOR) {
      assert DetectCadvisor(cycleId, desired, actual) == NothingFound(CADVISOR);
    } else if SeenRunning(actual, CADVISOR) {
      assert DetectCadvisor(cycleId, desired, actual) == NothingFound(CADVISOR).(applicable := true);
    } else {
      var command := CommandFor(cycleId, CADVISOR, FindWorkload(desired.workloads, CADVISOR).value, desired, actual);
      DriftIsCoherent(cycleId, CADVISOR, desired, actual);
      if IsSourceHealthy(actual, CADVISOR) {
        assert DetectCadvisor(cycleId, desired, actual)
            == DriftResult(CADVISOR, command, MISSING, "drift detected for cadvisor");
      } else {
        assert DetectCadvisor(cycleId, desired, actual) == DriftResult(CADVISOR, command, NO_SOURCE, BOOTSTRAP);
      }
    }
  }

  lemma NodeExporterIsCoherent(cycleId: string, desired: DesiredHost, actual: ActualHost)
    ensures Coherent(DetectNodeExporter(cycleId, desired, actual), cycleId, NODE_EXPORTER, desired)
  {
    if !RequiresContainer(desired, NODE_EXPORTER) {
      assert DetectNodeExporter(cycleId, desired, actual) == NothingFound(NODE_EXPORTER);
    } else if IsSourceHealthy(actual, CADVISOR) && !HasWorkload(actual, NODE_EXPORTER) {
      DriftIsCoherent(cycleId, NODE_EXPORTER, desired, actual);
    }
  }

  const BOTH_DETECTORS: Registry := map[NODE_EXPORTER := DetectNodeExporter, CADVISOR := DetectCadvisor]

  /** What a detector result makes the cycle do. */
  datatype Verdict =
    | NoDetector(component: string)
    | NotApplicable
    | NoData(component: string, fqdn: string, reason: string)
    | InSync
    | NoCommand(component: string)
    | Drifted(command: Command)

  function Judge(registry: Registry, cycleId: string, desired: DesiredHost, actual: ActualHost,
                 component: string): Verdict {
    if component !in registry then NoDetector(component)
    else
      var r := registry[component](cycleId, desired, actual);
      if !r.applicable then NotApplicable
      else if r.missingActualData then NoData(component, desired.fqdn, r.skipReason)
      else if !r.drift then InSync
      else if r.command.None? then NoCommand(component)
      else Drifted(r.command.value)
  }

  /** Whether the host can be seen to run the component. */
  predicate SeenRunning(actual: ActualHost, component: string) {
    IsSourceHealthy(actual, CADVISOR) && HasWorkload(actual, component)
  }

  /** The two detectors side by side: an unhealthy host is asked for cadvisor and nothing else. */
  lemma JudgeByCases(cycleId: string, desired: DesiredHost, actual: ActualHost, component: string)
    requires component == CADVISOR || component == NODE_EXPORTER
    ensures var v := Judge(BOTH_DETECTORS, cycleId, desired, actual, component);
            && (v == NotApplicable <==> !RequiresContainer(desired, component))
            && (v == InSync <==> RequiresContainer(desired, component) && SeenRunning(actual, component))
            && (v.NoData? <==> RequiresContainer(desired, component) && component == NODE_EXPORTER
                                 && !IsSourceHealthy(actual, CADVISOR))
            && (v.Drifted? <==> RequiresContainer(desired, component) && !SeenRunning(actual, component)
                                  && (component == CADVISOR || IsSourceHealthy(actual, CADVISOR)))
            && (v.Drifted? ==> v.command.component == component && v.command.fqdn == ResolveTargetFqdn(desired, actual))
  {
    assert NODE_EXPORTER[0] != CADVISOR[0];
    if component == CADVISOR {
      assert BOTH_DETECTORS[component] == DetectCadvisor;
    } else {
      assert BOTH_DETECTORS[component] == DetectNodeExporter;
    }
  }
}
