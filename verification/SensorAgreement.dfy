/** From the containers on a host to the detectors' verdict about it. */
module SensorAgreement {
  import opened Text
  import opened InventoryDomain
  import opened InventorySync
  import opened CadvisorMapper
  import DriftDomain
  import Detectors

  function StatusText(status: HostStatus): string {
    match status
    case HostOk => "ok"
    case HostPartial => "partial"
    case HostError => "error"
    case BootstrapOnly => "bootstrap_only"
  }

  function StateText(state: SourceState): string {
    match state
    case SourceOk => "ok"
    case SourceError => "error"
    case SourceDisabled => "disabled"
  }

  /** A host of the inventory as the drift detector receives it. */
  function ActualHostOf(h: HostValue): DriftDomain.ActualHost {
    DriftDomain.ActualHost(
      h.id, h.fqdn, h.labels, StatusText(h.status),
      seq(|h.workloads|, i requires 0 <= i < |h.workloads| => h.workloads[i].name),
      map name | name in h.sourceStatus ::
        var s := h.sourceStatus[name];
        DriftDomain.SourceStatus(s.source, s.enabled, StateText(s.state), s.error))
  }

  /** Source `k` is cAdvisor; the other sources have other names and deliver nothing. */
  ghost predicate OnlyCadvisorDelivers(sources: seq<Source>, cs: nat -> Collected, k: nat) {
    && k < |sources| && sources[k] == Source(SOURCE_NAME, true)
    && forall j :: 0 <= j < |sources| && j != k ==> sources[j].name != SOURCE_NAME && !Succeeded(sources[j], cs(j))
  }

  lemma {:induction false} WorkloadsFromMembers(sources: seq<Source>, cs: nat -> Collected, w: WorkloadValue)
    ensures w in WorkloadsFrom(sources, cs)
            <==> exists k :: 0 <= k < |sources| && Succeeded(sources[k], cs(k)) && w in cs(k).workloads
  {
    if sources != [] {
      var front := sources[..|sources| - 1];
      WorkloadsFromMembers(front, cs, w);
      assert forall k :: 0 <= k < |front| ==> front[k] == sources[k];
    }
  }

  lemma {:induction false} StatusOfLastNamesake(sources: seq<Source>, cs: nat -> Collected, k: nat)
    requires k < |sources| && forall j :: k < j < |sources| ==> sources[j].name != sources[k].name
    ensures sources[k].name in StatusesFrom(sources, cs)
    ensures StatusesFrom(sources, cs)[sources[k].name] == StatusFrom(sources[k], cs(k))
  {
    var front := sources[..|sources| - 1];
    if k < |front| {
      assert forall j :: 0 <= j < |front| ==> front[j] == sources[j];
      StatusOfLastNamesake(front, cs, k);
    }
  }

  /** Some container that survives the collection has this component as its picked name. */
  ghost predicate Contains(response: seq<Container>, includeSystemWorkloads: bool, component: string) {
    exists c :: c in response && Survives(c, includeSystemWorkloads)
                && DriftDomain.Names(PickWorkloadName(Trim(c.name), c.aliases), component)
  }

  lemma HasWorkloadByValue(h: HostValue, component: string)
    ensures DriftDomain.HasWorkload(ActualHostOf(h), component)
            <==> exists w :: w in h.workloads && DriftDomain.Names(w.name, component)
  {
    var host := ActualHostOf(h);
    if DriftDomain.HasWorkload(host, component) {
      var i :| 0 <= i < |host.workloads| && DriftDomain.Names(host.workloads[i], component);
      assert h.workloads[i] in h.workloads;
    }
    if w :| w in h.workloads && DriftDomain.Names(w.name, component) {
      var i :| 0 <= i < |h.workloads| && h.workloads[i] == w;
      assert host.workloads[i] == w.name;
    }
  }

  lemma HealthFollowsCollection(h: HostValue, seed: Seed, sources: seq<Source>, cs: nat -> Collected, k: nat)
    requires IsSynced(h, seed, sources, cs) && OnlyCadvisorDelivers(sources, cs, k)
    ensures DriftDomain.IsSourceHealthy(ActualHostOf(h), DriftDomain.CADVISOR) <==> cs(k).CollectOk?
  {
    StatusOfLastNamesake(sources, cs, k);
    assert Trim("ok") == "ok" && Lower("ok") == "ok";
    var error := Normalize("error");
    assert Trim("error") == "error" && error[0] == 'e';
  }

  /** After a successful collection the detector sees a component exactly when some container that
      survives the filter has it as its picked name, up to case and surrounding space. */
  lemma SensorMeetsDetector(h: HostValue, seed: Seed, sources: seq<Source>, cs: nat -> Collected, k: nat,
                            response: seq<Container>, includeSystemWorkloads: bool, component: string)
    requires IsSynced(h, seed, sources, cs) && OnlyCadvisorDelivers(sources, cs, k)
    requires cs(k).CollectOk? && CollectedFrom(cs(k).workloads, response, includeSystemWorkloads)
    ensures DriftDomain.IsSourceHealthy(ActualHostOf(h), DriftDomain.CADVISOR)
    ensures DriftDomain.HasWorkload(ActualHostOf(h), component)
            <==> Contains(response, includeSystemWorkloads, component)
  {
    HealthFollowsCollection(h, seed, sources, cs, k);
    HasWorkloadByValue(h, component);
    forall w ensures w in h.workloads <==> w in cs(k).workloads { WorkloadsFromMembers(sources, cs, w); }
    forall w ensures w in cs(k).workloads
                     <==> exists c :: c in response && Survives(c, includeSystemWorkloads) && w == WorkloadOf(c)
    {
      CollectedMembers(cs(k).workloads, response, includeSystemWorkloads, w);
    }
    if c :| c in response && Survives(c, includeSystemWorkloads)
            && DriftDomain.Names(PickWorkloadName(Trim(c.name), c.aliases), component) {
      assert WorkloadOf(c) in h.workloads;
    }
  }

  /** From containers to verdict: a required component is in sync where such a container runs, and
      drifted otherwise. Where the collection failed, cadvisor drifts and node_exporter has no data. */
  lemma VerdictFollowsContainers(h: HostValue, seed: Seed, sources: seq<Source>, cs: nat -> Collected, k: nat,
                                 response: seq<Container>, includeSystemWorkloads: bool,
                                 cycleId: string, desired: DriftDomain.DesiredHost, component: string)
    requires IsSynced(h, seed, sources, cs) && OnlyCadvisorDelivers(sources, cs, k)
    requires cs(k).CollectOk? ==> CollectedFrom(cs(k).workloads, response, includeSystemWorkloads)
    requires component == DriftDomain.CADVISOR || component == DriftDomain.NODE_EXPORTER
    ensures var v := Detectors.Judge(Detectors.BOTH_DETECTORS, cycleId, desired, ActualHostOf(h), component);
            && (v == Detectors.NotApplicable <==> !Detectors.RequiresContainer(desired, component))
            && (Detectors.RequiresContainer(desired, component) && cs(k).CollectOk? ==>
                  if Contains(response, includeSystemWorkloads, component) then v == Detectors.InSync else v.Drifted?)
            && (Detectors.RequiresContainer(desired, component) && cs(k).CollectFailed? ==>
                  if component == DriftDomain.CADVISOR then v.Drifted? else v.NoData?)
  {
    HealthFollowsCollection(h, seed, sources, cs, k);
    if cs(k).CollectOk? {
      SensorMeetsDetector(h, seed, sources, cs, k, response, includeSystemWorkloads, component);
    }
    Detectors.JudgeByCases(cycleId, desired, ActualHostOf(h), component);
    assert DriftDomain.NODE_EXPORTER[0] != DriftDomain.CADVISOR[0];
  }
}
