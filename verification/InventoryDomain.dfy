/** The inventory model with its references. Go's maps, slices and time pointers are objects that
    several values may share; `Clone` must copy every one of them. */
module InventoryDomain {
  import opened Wrappers

  // Values, without references

  datatype HostStatus = HostOk | HostPartial | HostError | BootstrapOnly

  datatype SourceState = SourceOk | SourceError | SourceDisabled

  datatype WorkloadValue = WorkloadValue(
    id: string, name: string, image: string, runtime: string, source: string, lastSeenAt: Option<int>)

  datatype StatusValue = StatusValue(
    source: string, enabled: bool, state: SourceState, observedAt: Option<int>, error: string)

  datatype HostValue = HostValue(
    id: string, fqdn: string, labels: map<string, string>, workloads: seq<WorkloadValue>, lastObservedAt: Option<int>,
    status: HostStatus, sourceStatus: map<string, StatusValue>, errors: seq<string>)

  datatype MetadataValue = MetadataValue(
    isPartial: bool, totalHosts: nat, failedHosts: nat, lastSyncAt: Option<int>, lastSuccessfulSyncAt: Option<int>,
    lastFullSyncAt: Option<int>, lastPartialSyncAt: Option<int>, durationMs: int)

  datatype SnapshotValue = SnapshotValue(hosts: seq<HostValue>, metadata: MetadataValue)

  const EMPTY_SNAPSHOT := SnapshotValue([], MetadataValue(false, 0, 0, None, None, None, None, 0))

  // Objects

  /** What a `*time.Time` points to. */
  class Time {
    var value: int
    constructor (value: int) ensures this.value == value { this.value := value; }
  }

  class LabelMap {
    var entries: map<string, string>
    constructor (entries: map<string, string>) ensures this.entries == entries { this.entries := entries; }
  }

  class StatusMap {
    var entries: map<string, Status>
    constructor (entries: map<string, Status>) ensures this.entries == entries { this.entries := entries; }
  }

  class Slice<T> {
    var items: seq<T>
    constructor (items: seq<T>) ensures this.items == items { this.items := items; }
  }

  datatype Workload = Workload(
    id: string, name: string, image: string, runtime: string, source: string, lastSeenAt: Time?)

  datatype Status = Status(source: string, enabled: bool, state: SourceState, observedAt: Time?, error: string)

  datatype Host = Host(
    id: string, fqdn: string, labels: LabelMap, workloads: Slice<Workload>, lastObservedAt: Time?,
    status: HostStatus, sourceStatus: StatusMap, errors: Slice<string>)

  datatype Metadata = Metadata(
    isPartial: bool, totalHosts: nat, failedHosts: nat, lastSyncAt: Time?, lastSuccessfulSyncAt: Time?,
    lastFullSyncAt: Time?, lastPartialSyncAt: Time?, durationMs: int)

  datatype Snapshot = Snapshot(hosts: Slice<Host>, metadata: Metadata)

  function TimeWorth(t: Time?): Option<int>
    reads t
  {
    if t == null then None else Some(t.value)
  }

  // What a reference is worth. `within` covers everything that can be reached from it.

  ghost predicate TimeIs(t: Time?, v: Option<int>, within: set<object>)
    reads within
  {
    if t == null then v == None else t in within && v == Some(t.value)
  }

  ghost predicate WorkloadIs(w: Workload, v: WorkloadValue, within: set<object>)
    reads within
  {
    w.id == v.id && w.name == v.name && w.image == v.image && w.runtime == v.runtime && w.source == v.source
    && TimeIs(w.lastSeenAt, v.lastSeenAt, within)
  }

  ghost predicate WorkloadsAre(ws: seq<Workload>, vs: seq<WorkloadValue>, within: set<object>)
    reads within
  {
    |ws| == |vs| && forall i :: 0 <= i < |ws| ==> WorkloadIs(ws[i], vs[i], within)
  }

  ghost predicate StatusIs(s: Status, v: StatusValue, within: set<object>)
    reads within
  {
    s.source == v.source && s.enabled == v.enabled && s.state == v.state && s.error == v.error
    && TimeIs(s.observedAt, v.observedAt, within)
  }

  ghost predicate StatusesAre(m: map<string, Status>, v: map<string, StatusValue>, within: set<object>)
    reads within
  {
    m.Keys == v.Keys && forall k :: k in m ==> StatusIs(m[k], v[k], within)
  }

  ghost predicate HostIs(h: Host, v: HostValue, within: set<object>)
    reads within
  {
    && h.id == v.id && h.fqdn == v.fqdn && h.status == v.status
    && h.labels in within && h.labels.entries == v.labels
    && h.workloads in within && WorkloadsAre(h.workloads.items, v.workloads, within)
    && TimeIs(h.lastObservedAt, v.lastObservedAt, within)
    && h.sourceStatus in within && StatusesAre(h.sourceStatus.entries, v.sourceStatus, within)
    && h.errors in within && h.errors.items == v.errors
  }

  ghost predicate HostsAre(hs: seq<Host>, vs: seq<HostValue>, within: set<object>)
    reads within
  {
    |hs| == |vs| && forall i :: 0 <= i < |hs| ==> HostIs(hs[i], vs[i], within)
  }

  ghost predicate MetadataIs(m: Metadata, v: MetadataValue, within: set<object>)
    reads within
  {
    && m.isPartial == v.isPartial && m.totalHosts == v.totalHosts && m.failedHosts == v.failedHosts
    && m.durationMs == v.durationMs
    && TimeIs(m.lastSyncAt, v.lastSyncAt, within) && TimeIs(m.lastSuccessfulSyncAt, v.lastSuccessfulSyncAt, within)
    && TimeIs(m.lastFullSyncAt, v.lastFullSyncAt, within) && TimeIs(m.lastPartialSyncAt, v.lastPartialSyncAt, within)
  }

  ghost predicate SnapshotIs(s: Snapshot, v: SnapshotValue, within: set<object>)
    reads within
  {
    s.hosts in within && HostsAre(s.hosts.items, v.hosts, within) && MetadataIs(s.metadata, v.metadata, within)
  }

  /** A host is worth one value only, so the value is a fact about the objects. */
  lemma HostWorthIsUnique(h: Host, v: HostValue, v': HostValue, within: set<object>, within': set<object>)
    requires HostIs(h, v, within) && HostIs(h, v', within')
    ensures v == v'
  {
    assert forall i :: 0 <= i < |v.workloads| ==>
      && WorkloadIs(h.workloads.items[i], v.workloads[i], within)
      && WorkloadIs(h.workloads.items[i], v'.workloads[i], within');
    assert v.workloads == v'.workloads;
    assert forall k :: k in v.sourceStatus ==>
      && StatusIs(h.sourceStatus.entries[k], v.sourceStatus[k], within)
      && StatusIs(h.sourceStatus.entries[k], v'.sourceStatus[k], within');
    assert v.sourceStatus == v'.sourceStatus;
  }

  lemma SnapshotWorthIsUnique(s: Snapshot, v: SnapshotValue, v': SnapshotValue, within: set<object>,
                              within': set<object>)
    requires SnapshotIs(s, v, within) && SnapshotIs(s, v', within')
    ensures v == v'
  {
    forall i | 0 <= i < |v.hosts| ensures v.hosts[i] == v'.hosts[i] {
      HostWorthIsUnique(s.hosts.items[i], v.hosts[i], v'.hosts[i], within, within');
    }
    assert v.hosts == v'.hosts;
  }

  lemma HostIsWithinMore(h: Host, v: HostValue, within: set<object>, more: set<object>)
    requires HostIs(h, v, within) && within <= more
    ensures HostIs(h, v, more)
  {
    assert forall i :: 0 <= i < |h.workloads.items| ==> WorkloadIs(h.workloads.items[i], v.workloads[i], within);
    assert forall k :: k in h.sourceStatus.entries ==> StatusIs(h.sourceStatus.entries[k], v.sourceStatus[k], within);
  }

  lemma SnapshotIsWithinMore(s: Snapshot, v: SnapshotValue, within: set<object>, more: set<object>)
    requires SnapshotIs(s, v, within) && within <= more
    ensures SnapshotIs(s, v, more)
  {
    forall i | 0 <= i < |v.hosts| ensures HostIs(s.hosts.items[i], v.hosts[i], more) {
      HostIsWithinMore(s.hosts.items[i], v.hosts[i], within, more);
    }
  }

  // Cloning: the copy is worth the same, within fresh objects

  method CloneTime(t: Time?, ghost v: Option<int>, ghost within: set<object>) returns (c: Time?, ghost own: set<object>)
    requires TimeIs(t, v, within)
    ensures fresh(own) && TimeIs(c, v, own)
  {
    c, own := null, {};
    if t != null {
      c := new Time(t.value);
      own := {c};
    }
  }

  method CloneWorkloads(ws: seq<Workload>, ghost vs: seq<WorkloadValue>, ghost within: set<object>)
    returns (c: seq<Workload>, ghost own: set<object>)
    requires WorkloadsAre(ws, vs, within)
    ensures fresh(own) && WorkloadsAre(c, vs, own)
  {
    c, own := [], {};
    for i := 0 to |ws|
      invariant fresh(own) && WorkloadsAre(c, vs[..i], own)
    {
      assert WorkloadIs(ws[i], vs[i], within);
      var seen, cells := CloneTime(ws[i].lastSeenAt, vs[i].lastSeenAt, within);
      own := own + cells;
      c := c + [ws[i].(lastSeenAt := seen)];
    }
    assert vs[..|ws|] == vs;
  }

  method CloneStatuses(m: map<string, Status>, ghost v: map<string, StatusValue>, ghost within: set<object>)
    returns (c: map<string, Status>, ghost own: set<object>)
    requires StatusesAre(m, v, within)
    ensures fresh(own) && StatusesAre(c, v, own)
  {
    c, own := map[], {};
    var left := m.Keys;
    while left != {}
      invariant left <= m.Keys && c.Keys == m.Keys - left
      invariant fresh(own) && forall k :: k in c ==> StatusIs(c[k], v[k], own)
      decreases |left|
    {
      var k :| k in left;
      left := left - {k};
      assert StatusIs(m[k], v[k], within);
      var observed, cells := CloneTime(m[k].observedAt, v[k].observedAt, within);
      own := own + cells;
      c := c[k := m[k].(observedAt := observed)];
    }
  }

  method CloneLabels(m: map<string, string>) returns (c: map<string, string>)
    ensures c == m
  {
    c := map[];
    var left := m.Keys;
    while left != {}
      invariant left <= m.Keys && c == map k | k in m && k !in left :: m[k]
      decreases |left|
    {
      var k :| k in left;
      left := left - {k};
      c := c[k := m[k]];
    }
  }

  method CloneHost(h: Host, ghost v: HostValue, ghost within: set<object>) returns (c: Host, ghost own: set<object>)
    requires HostIs(h, v, within)
    ensures fresh(own) && HostIs(c, v, own)
  {
    var entries := CloneLabels(h.labels.entries);
    var statuses, own1 := CloneStatuses(h.sourceStatus.entries, v.sourceStatus, within);
    var ws, own2 := CloneWorkloads(h.workloads.items, v.workloads, within);
    var observed, own3 := CloneTime(h.lastObservedAt, v.lastObservedAt, within);
    var labels := new LabelMap(entries);
    var sourceStatus := new StatusMap(statuses);
    var workloads := new Slice(ws);
    var errors := new Slice(h.errors.items);
    own := own1 + own2 + own3 + {labels, sourceStatus, workloads, errors};
    c := Host(h.id, h.fqdn, labels, workloads, observed, h.status, sourceStatus, errors);
    forall i | 0 <= i < |ws| ensures WorkloadIs(ws[i], v.workloads[i], own) {
      assert WorkloadIs(ws[i], v.workloads[i], own2);
    }
    forall k | k in statuses ensures StatusIs(statuses[k], v.sourceStatus[k], own) {
      assert StatusIs(statuses[k], v.sourceStatus[k], own1);
    }
  }

  lemma OneMoreHost(hs: seq<Host>, vs: seq<HostValue>, within: set<object>, h: Host, v: HostValue, more: set<object>)
    requires HostsAre(hs, vs, within) && HostIs(h, v, more)
    ensures HostsAre(hs + [h], vs + [v], within + more)
  {
    forall k | 0 <= k < |hs| ensures HostIs(hs[k], vs[k], within + more) {
      HostIsWithinMore(hs[k], vs[k], within, within + more);
    }
    HostIsWithinMore(h, v, more, within + more);
  }

  method CloneHosts(hs: seq<Host>, ghost vs: seq<HostValue>, ghost within: set<object>)
    returns (c: seq<Host>, ghost own: set<object>)
    requires HostsAre(hs, vs, within)
    ensures fresh(own) && HostsAre(c, vs, own)
  {
    c, own := [], {};
    for i := 0 to |hs|
      invariant fresh(own) && HostsAre(c, vs[..i], own)
    {
      assert HostIs(hs[i], vs[i], within);
      var h, cells := CloneHost(hs[i], vs[i], within);
      OneMoreHost(c, vs[..i], own, h, vs[i], cells);
      assert vs[..i] + [vs[i]] == vs[..i + 1];
      own := own + cells;
      c := c + [h];
    }
    assert vs[..|hs|] == vs;
  }

  method CloneMetadata(m: Metadata, ghost v: MetadataValue, ghost within: set<object>)
    returns (c: Metadata, ghost own: set<object>)
    requires MetadataIs(m, v, within)
    ensures fresh(own) && MetadataIs(c, v, own)
  {
    var sync, own1 := CloneTime(m.lastSyncAt, v.lastSyncAt, within);
    var successful, own2 := CloneTime(m.lastSuccessfulSyncAt, v.lastSuccessfulSyncAt, within);
    var full, own3 := CloneTime(m.lastFullSyncAt, v.lastFullSyncAt, within);
    var part, own4 := CloneTime(m.lastPartialSyncAt, v.lastPartialSyncAt, within);
    own := own1 + own2 + own3 + own4;
    c := m.(lastSyncAt := sync, lastSuccessfulSyncAt := successful, lastFullSyncAt := full, lastPartialSyncAt := part);
  }

  method CloneSnapshot(s: Snapshot, ghost v: SnapshotValue, ghost within: set<object>)
    returns (c: Snapshot, ghost own: set<object>)
    requires SnapshotIs(s, v, within)
    ensures fresh(own) && SnapshotIs(c, v, own)
  {
    var items, own1 := CloneHosts(s.hosts.items, v.hosts, within);
    var metadata, own2 := CloneMetadata(s.metadata, v.metadata, within);
    var hosts := new Slice(items);
    own := own1 + own2 + {hosts};
    c := Snapshot(hosts, metadata);
    forall i | 0 <= i < |items| ensures HostIs(items[i], v.hosts[i], own) {
      assert HostIs(items[i], v.hosts[i], own1);
      HostIsWithinMore(items[i], v.hosts[i], own1, own);
    }
  }
}
