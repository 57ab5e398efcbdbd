/** The check that the list of provisioned hosts must pass. */
module SelfProvisioning {
  import opened Text
  import opened Wrappers

  /** `labels` is `None` where the file has no labels at all. */
  datatype HostSeed = HostSeed(id: string, fqdn: string, labels: Option<map<string, string>>)

  const REQUIRED_LABELS := ["managed_by", "purpose", "env"]

  datatype SeedError =
    | NoHosts
    | IdRequired(host: nat)
    | IdDuplicated(host: nat, id: string)
    | FqdnRequired(host: nat)
    | FqdnDuplicated(host: nat, fqdn: string)
    | LabelsRequired(host: nat)
    | LabelRequired(host: nat, labelName: string)

  predicate HasLabel(seed: HostSeed, labelName: string) {
    seed.labels.Some? && labelName in seed.labels.value && Trim(seed.labels.value[labelName]) != ""
  }

  ghost predicate GoodSeed(seeds: seq<HostSeed>, i: nat)
    requires i < |seeds|
  {
    && Trim(seeds[i].id) != "" && Trim(seeds[i].fqdn) != ""
    && (forall j :: 0 <= j < i ==> Trim(seeds[j].id) != Trim(seeds[i].id) && Trim(seeds[j].fqdn) != Trim(seeds[i].fqdn))
    && forall k :: 0 <= k < |REQUIRED_LABELS| ==> HasLabel(seeds[i], REQUIRED_LABELS[k])
  }

  /** What is wrong with a list. */
  ghost predicate IsFault(e: SeedError, seeds: seq<HostSeed>) {
    match e
    case NoHosts => seeds == []
    case IdRequired(i) => i < |seeds| && Trim(seeds[i].id) == ""
    case IdDuplicated(i, id) =>
      i < |seeds| && id == Trim(seeds[i].id) && id != "" && exists j :: 0 <= j < i && Trim(seeds[j].id) == id
    case FqdnRequired(i) => i < |seeds| && Trim(seeds[i].fqdn) == ""
    case FqdnDuplicated(i, fqdn) =>
      i < |seeds| && fqdn == Trim(seeds[i].fqdn) && fqdn != "" && exists j :: 0 <= j < i && Trim(seeds[j].fqdn) == fqdn
    case LabelsRequired(i) => i < |seeds| && seeds[i].labels.None?
    case LabelRequired(i, labelName) => i < |seeds| && LabelMissing(seeds[i], labelName)
  }

  ghost predicate LabelMissing(seed: HostSeed, labelName: string) {
    seed.labels.Some? && labelName in REQUIRED_LABELS && !HasLabel(seed, labelName)
  }

  /** Reports exactly what is wrong, and passes exactly the non-empty lists whose trimmed ids and FQDNs
      are non-empty and pairwise distinct and whose required labels are there and not blank. */
  method Validate(seeds: seq<HostSeed>) returns (errs: seq<SeedError>)
    ensures errs == [] <==> seeds != [] && forall i :: 0 <= i < |seeds| ==> GoodSeed(seeds, i)
    ensures forall e :: e in errs <==> IsFault(e, seeds)
  {
    if |seeds| == 0 { return [NoHosts]; }
    var seenIds: set<string>, seenFqdns: set<string> := {}, {};
    errs := [];
    for i := 0 to |seeds|
      invariant forall s :: s in seenIds <==> s != "" && exists j :: 0 <= j < i && Trim(seeds[j].id) == s
      invariant forall s :: s in seenFqdns <==> s != "" && exists j :: 0 <= j < i && Trim(seeds[j].fqdn) == s
      invariant errs == [] <==> forall j :: 0 <= j < i ==> GoodSeed(seeds, j)
      invariant forall e :: e in errs <==> IsFault(e, seeds) && !e.NoHosts? && e.host < i
    {
      var seedErrs := CheckSeed(seeds, i, seenIds, seenFqdns);
      errs := errs + seedErrs;
      if Trim(seeds[i].id) != "" { seenIds := seenIds + {Trim(seeds[i].id)}; }
      if Trim(seeds[i].fqdn) != "" { seenFqdns := seenFqdns + {Trim(seeds[i].fqdn)}; }
    }
  }

  lemma GoodSeedByNames(seeds: seq<HostSeed>, i: nat, seenIds: set<string>, seenFqdns: set<string>)
    requires i < |seeds|
    requires forall s :: s in seenIds <==> s != "" && exists j :: 0 <= j < i && Trim(seeds[j].id) == s
    requires forall s :: s in seenFqdns <==> s != "" && exists j :: 0 <= j < i && Trim(seeds[j].fqdn) == s
    ensures var id, fqdn := Trim(seeds[i].id), Trim(seeds[i].fqdn);
            GoodSeed(seeds, i) <==> id != "" && id !in seenIds && fqdn != "" && fqdn !in seenFqdns
                                    && forall k :: 0 <= k < |REQUIRED_LABELS| ==> HasLabel(seeds[i], REQUIRED_LABELS[k])
  {
  }

  method CheckSeed(seeds: seq<HostSeed>, i: nat, seenIds: set<string>, seenFqdns: set<string>)
    returns (errs: seq<SeedError>)
    requires i < |seeds|
    requires forall s :: s in seenIds <==> s != "" && exists j :: 0 <= j < i && Trim(seeds[j].id) == s
    requires forall s :: s in seenFqdns <==> s != "" && exists j :: 0 <= j < i && Trim(seeds[j].fqdn) == s
    ensures errs == [] <==> GoodSeed(seeds, i)
    ensures forall e :: e in errs <==> IsFault(e, seeds) && !e.NoHosts? && e.host == i
  {
    var id, fqdn := Trim(seeds[i].id), Trim(seeds[i].fqdn);
    var idErrs := CheckName(id, seenIds, IdRequired(i), IdDuplicated(i, id));
    var fqdnErrs := CheckName(fqdn, seenFqdns, FqdnRequired(i), FqdnDuplicated(i, fqdn));
    var labelErrs := CheckLabels(seeds[i], i);
    errs := idErrs + fqdnErrs + labelErrs;
    GoodSeedByNames(seeds, i, seenIds, seenFqdns);
    forall e ensures e in errs <==> IsFault(e, seeds) && !e.NoHosts? && e.host == i {
      FaultsByNames(seeds, i, seenIds, seenFqdns, e);
    }
  }

  lemma FaultsByNames(seeds: seq<HostSeed>, i: nat, seenIds: set<string>, seenFqdns: set<string>, e: SeedError)
    requires i < |seeds|
    requires forall s :: s in seenIds <==> s != "" && exists j :: 0 <= j < i && Trim(seeds[j].id) == s
    requires forall s :: s in seenFqdns <==> s != "" && exists j :: 0 <= j < i && Trim(seeds[j].fqdn) == s
    ensures var id, fqdn := Trim(seeds[i].id), Trim(seeds[i].fqdn);
            IsFault(e, seeds) && !e.NoHosts? && e.host == i <==>
              || (e == IdRequired(i) && id == "") || (e == IdDuplicated(i, id) && id in seenIds)
              || (e == FqdnRequired(i) && fqdn == "") || (e == FqdnDuplicated(i, fqdn) && fqdn in seenFqdns)
              || (e == LabelsRequired(i) && seeds[i].labels.None?)
              || (e.LabelRequired? && e.host == i && LabelMissing(seeds[i], e.labelName))
  {
  }

  method CheckName(name: string, seen: set<string>, required: SeedError, duplicated: SeedError)
    returns (errs: seq<SeedError>)
    ensures errs == if name == "" then [required] else if name in seen then [duplicated] else []
  {
    errs := [];
    if name == "" {
      errs := errs + [required];
    } else if name in seen {
      errs := errs + [duplicated];
    }
  }

  method CheckLabels(seed: HostSeed, i: nat) returns (errs: seq<SeedError>)
    ensures errs == [] <==> forall k :: 0 <= k < |REQUIRED_LABELS| ==> HasLabel(seed, REQUIRED_LABELS[k])
    ensures forall e :: e in errs <==> (e == LabelsRequired(i) && seed.labels.None?)
                                       || (e.LabelRequired? && e.host == i && LabelMissing(seed, e.labelName))
  {
    if seed.labels.None? {
      assert !HasLabel(seed, REQUIRED_LABELS[0]);
      return [LabelsRequired(i)];
    }
    errs := [];
    for k := 0 to |REQUIRED_LABELS|
      invariant errs == [] <==> forall j :: 0 <= j < k ==> HasLabel(seed, REQUIRED_LABELS[j])
      invariant forall e :: e in errs <==> e.LabelRequired? && e.host == i && e.labelName in REQUIRED_LABELS[..k]
                                           && !HasLabel(seed, e.labelName)
    {
      var labelName := REQUIRED_LABELS[k];
      if labelName !in seed.labels.value || Trim(seed.labels.value[labelName]) == "" {
        errs := errs + [LabelRequired(i, labelName)];
      }
    }
  }
}

/** Inventory syncs: what one sync stores, and what the metadata says over any history. */
module InventorySync {
  import opened Text
  import opened Wrappers
  import opened SelfProvisioning
  import opened InventoryDomain
  import opened InventoryStore

  datatype Seed = Seed(id: string, fqdn: string, labels: map<string, string>)

  datatype Source = Source(name: string, enabled: bool)

  /** What collecting one host from one source gives. */
  datatype Collected = CollectFailed(error: string) | CollectOk(workloads: seq<WorkloadValue>, observedAt: int)

  function LabelsOf(seed: HostSeed): map<string, string> {
    if seed.labels.None? then map[] else seed.labels.value
  }

  function NormalizedSeed(seed: HostSeed): Seed {
    Seed(Trim(seed.id), Trim(seed.fqdn), LabelsOf(seed))
  }

  function NormalizedSeeds(seeds: seq<HostSeed>): (r: seq<Seed>)
    ensures |r| == |seeds| && forall i :: 0 <= i < |seeds| ==> r[i] == NormalizedSeed(seeds[i])
  {
    seq(|seeds|, i requires 0 <= i < |seeds| => NormalizedSeed(seeds[i]))
  }

  // One host, over the sources

  predicate Succeeded(source: Source, c: Collected) {
    source.enabled && c.CollectOk?
  }

  predicate Failed(source: Source, c: Collected) {
    source.enabled && c.CollectFailed?
  }

  function CountOk(sources: seq<Source>, cs: nat -> Collected): nat {
    if sources == [] then 0
    else CountOk(sources[..|sources| - 1], cs) + if Succeeded(sources[|sources| - 1], cs(|sources| - 1)) then 1 else 0
  }

  function CountFailed(sources: seq<Source>, cs: nat -> Collected): nat {
    if sources == [] then 0
    else CountFailed(sources[..|sources| - 1], cs) + if Failed(sources[|sources| - 1], cs(|sources| - 1)) then 1 else 0
  }

  /** The workloads of the successful sources, in order. */
  function WorkloadsFrom(sources: seq<Source>, cs: nat -> Collected): seq<WorkloadValue> {
    if sources == [] then []
    else WorkloadsFrom(sources[..|sources| - 1], cs)
         + if Succeeded(sources[|sources| - 1], cs(|sources| - 1)) then cs(|sources| - 1).workloads else []
  }

  function ErrorsFrom(sources: seq<Source>, cs: nat -> Collected): seq<string> {
    if sources == [] then []
    else
      var k := |sources| - 1;
      ErrorsFrom(sources[..k], cs) + if Failed(sources[k], cs(k)) then [sources[k].name + ": " + cs(k).error] else []
  }

  function StatusFrom(source: Source, c: Collected): StatusValue {
    if !source.enabled then StatusValue(source.name, false, SourceDisabled, None, "")
    else match c
         case CollectFailed(error) => StatusValue(source.name, true, SourceError, None, error)
         case CollectOk(_, at) => StatusValue(source.name, true, SourceOk, Some(at), "")
  }

  /** By source name; of two sources with one name the later one counts. */
  function StatusesFrom(sources: seq<Source>, cs: nat -> Collected): map<string, StatusValue> {
    if sources == [] then map[]
    else
      var k := |sources| - 1;
      StatusesFrom(sources[..k], cs)[sources[k].name := StatusFrom(sources[k], cs(k))]
  }

  /** The latest observation among the successful sources, if there is one. */
  ghost predicate IsLatest(at: Option<int>, sources: seq<Source>, cs: nat -> Collected) {
    match at
    case None => forall k :: 0 <= k < |sources| ==> !Succeeded(sources[k], cs(k))
    case Some(t) =>
      && (exists k :: 0 <= k < |sources| && Succeeded(sources[k], cs(k)) && cs(k).observedAt == t)
      && forall k :: 0 <= k < |sources| && Succeeded(sources[k], cs(k)) ==> cs(k).observedAt <= t
  }

  function StatusOfHost(ok: nat, failed: nat): HostStatus {
    if ok == 0 && failed == 0 then BootstrapOnly
    else if failed == 0 then HostOk
    else if ok > 0 then HostPartial
    else HostError
  }

  /** Everything one sync says about a host. */
  ghost predicate IsSynced(h: HostValue, seed: Seed, sources: seq<Source>, cs: nat -> Collected) {
    && h.id == seed.id && h.fqdn == seed.fqdn && h.labels == seed.labels
    && h.workloads == WorkloadsFrom(sources, cs)
    && IsLatest(h.lastObservedAt, sources, cs)
    && h.status == StatusOfHost(CountOk(sources, cs), CountFailed(sources, cs))
    && h.sourceStatus == StatusesFrom(sources, cs)
    && h.errors == ErrorsFrom(sources, cs)
  }

  /** The inner loop of `Sync`. `failed` says whether the host counts as failed. */
  method SyncHost(seed: Seed, sources: seq<Source>, cs: nat -> Collected) returns (host: HostValue, failed: bool)
    ensures IsSynced(host, seed, sources, cs)
    ensures failed <==> host.status == HostPartial || host.status == HostError
  {
    host := HostValue(seed.id, seed.fqdn, seed.labels, [], None, BootstrapOnly, map[], []);
    var enabledSources, successfulSources, failedSources := 0, 0, 0;
    for k := 0 to |sources|
      invariant host.id == seed.id && host.fqdn == seed.fqdn && host.labels == seed.labels
      invariant host.workloads == WorkloadsFrom(sources[..k], cs) && host.errors == ErrorsFrom(sources[..k], cs)
      invariant IsLatest(host.lastObservedAt, sources[..k], cs) && host.sourceStatus == StatusesFrom(sources[..k], cs)
      invariant successfulSources == CountOk(sources[..k], cs) && failedSources == CountFailed(sources[..k], cs)
      invariant enabledSources == successfulSources + failedSources
    {
      OneMoreSource(sources, cs, k);
      var source := sources[k];
      LatestGrows(host.lastObservedAt, sources, cs, k);
      host := host.(sourceStatus := host.sourceStatus[source.name := StatusFrom(source, cs(k))]);
      if !source.enabled { continue; }
      enabledSources := enabledSources + 1;
      var data := cs(k);
      if data.CollectFailed? {
        failedSources := failedSources + 1;
        host := host.(errors := host.errors + [source.name + ": " + data.error]);
        continue;
      }
      successfulSources := successfulSources + 1;
      host := host.(workloads := host.workloads + data.workloads);
      if host.lastObservedAt.None? || data.observedAt > host.lastObservedAt.value {
        host := host.(lastObservedAt := Some(data.observedAt));
      }
    }
    assert sources[..|sources|] == sources;
    failed := false;
    if enabledSources == 0 {
      host := host.(status := BootstrapOnly);
    } else if failedSources > 0 && successfulSources > 0 {
      host, failed := host.(status := HostPartial), true;
    } else if failedSources > 0 && successfulSources == 0 {
      host, failed := host.(status := HostError), true;
    } else {
      host := host.(status := HostOk);
    }
  }

  lemma OneMoreSource(sources: seq<Source>, cs: nat -> Collected, k: nat)
    requires k < |sources|
    ensures var before, now, source, c := sources[..k], sources[..k + 1], sources[k], cs(k);
            && CountOk(now, cs) == CountOk(before, cs) + (if Succeeded(source, c) then 1 else 0)
            && CountFailed(now, cs) == CountFailed(before, cs) + (if Failed(source, c) then 1 else 0)
            && WorkloadsFrom(now, cs) == WorkloadsFrom(before, cs) + (if Succeeded(source, c) then c.workloads else [])
            && ErrorsFrom(now, cs)
               == ErrorsFrom(before, cs) + (if Failed(source, c) then [source.name + ": " + c.error] else [])
            && StatusesFrom(now, cs) == StatusesFrom(before, cs)[source.name := StatusFrom(source, c)]
  {
    assert sources[..k + 1][..k] == sources[..k];
  }

  lemma LatestGrows(at: Option<int>, sources: seq<Source>, cs: nat -> Collected, k: nat)
    requires k < |sources| && IsLatest(at, sources[..k], cs)
    ensures var c := cs(k);
            var later := Succeeded(sources[k], c) && (at.None? || c.observedAt > at.value);
            IsLatest(if later then Some(c.observedAt) else at,
                     sources[..k + 1], cs)
  {
    var before, now := sources[..k], sources[..k + 1];
    assert forall j :: 0 <= j < k ==> now[j] == before[j];
    assert now[k] == sources[k];
    if at.Some? {
      var j :| 0 <= j < |before| && Succeeded(before[j], cs(j)) && cs(j).observedAt == at.value;
      assert Succeeded(now[j], cs(j));
    }
  }

  // One sync

  function CountStatus(hosts: seq<HostValue>, status: HostStatus): nat {
    if hosts == [] then 0
    else CountStatus(hosts[..|hosts| - 1], status) + if hosts[|hosts| - 1].status == status then 1 else 0
  }

  function FailedHosts(hosts: seq<HostValue>): nat {
    CountStatus(hosts, HostPartial) + CountStatus(hosts, HostError)
  }

  /** Every host is ok, failed or known from the bootstrap list only. */
  lemma {:induction false} StatusesPartitionHosts(hosts: seq<HostValue>)
    ensures CountStatus(hosts, HostOk) + FailedHosts(hosts) + CountStatus(hosts, BootstrapOnly) == |hosts|
  {
    if hosts != [] { StatusesPartitionHosts(hosts[..|hosts| - 1]); }
  }

  function NextMetadata(previous: MetadataValue, hosts: seq<HostValue>, finishedAt: int,
                        durationMs: int): MetadataValue {
    var partial := FailedHosts(hosts) > 0;
    MetadataValue(
      partial, |hosts|, FailedHosts(hosts), Some(finishedAt),
      if |hosts| > 0 then Some(finishedAt) else previous.lastSuccessfulSyncAt,
      if partial then previous.lastFullSyncAt else Some(finishedAt),
      if partial then Some(finishedAt) else previous.lastPartialSyncAt,
      durationMs)
  }

  /** The hosts of one sync over all seeds; `collect(i)(k)` is what source k gives for host i. */
  ghost predicate AreSynced(hosts: seq<HostValue>, seeds: seq<Seed>, sources: seq<Source>,
                            collect: nat -> nat -> Collected) {
    |hosts| == |seeds| && forall i :: 0 <= i < |seeds| ==> IsSynced(hosts[i], seeds[i], sources, collect(i))
  }

  datatype SyncError = NoError | Cancelled

  class Service {
    const store: Store
    const sources: seq<Source>
    const bootstrapHosts: seq<Seed>

    constructor (store: Store, sources: seq<Source>, seeds: seq<HostSeed>)
      ensures this.store == store && this.sources == sources && bootstrapHosts == NormalizedSeeds(seeds)
    {
      this.store, this.sources, bootstrapHosts := store, sources, NormalizedSeeds(seeds);
    }

    /** `cancelled(i)` is whether the context is seen to be done before host i. */
    method Sync(collect: nat -> nat -> Collected, cancelled: nat -> bool, finishedAt: int, durationMs: int)
      returns (err: SyncError)
      requires store.Valid()
      modifies store
      ensures store.Valid()
      ensures err == Cancelled <==> exists i :: 0 <= i < |bootstrapHosts| && cancelled(i)
      ensures err == Cancelled ==> unchanged(store)
      ensures err == NoError ==>
                AreSynced(store.contents.hosts, bootstrapHosts, sources, collect)
                && store.contents.metadata
                   == NextMetadata(old(store.contents.metadata), store.contents.hosts, finishedAt, durationMs)
    {
      var previous, own := store.GetSnapshot();
      var hosts, failedHosts, cancelledEarly := CollectHosts(collect, cancelled);
      if cancelledEarly { return Cancelled; }
      var metadata := BuildMetadata(previous.metadata, store.contents.metadata, own, hosts, failedHosts, finishedAt,
                                    durationMs);
      var snapshot, cells := MakeSnapshot(SnapshotValue(hosts, metadata));
      store.Replace(snapshot, SnapshotValue(hosts, metadata), cells);
      err := NoError;
    }

    /** The loop over the hosts, which a cancelled context leaves early. */
    method CollectHosts(collect: nat -> nat -> Collected, cancelled: nat -> bool)
      returns (hosts: seq<HostValue>, failedHosts: nat, cancelledEarly: bool)
      ensures cancelledEarly <==> exists i :: 0 <= i < |bootstrapHosts| && cancelled(i)
      ensures !cancelledEarly ==>
                AreSynced(hosts, bootstrapHosts, sources, collect) && failedHosts == FailedHosts(hosts)
    {
      hosts, failedHosts := [], 0;
      for i := 0 to |bootstrapHosts|
        invariant |hosts| == i && forall j :: 0 <= j < i ==> IsSynced(hosts[j], bootstrapHosts[j], sources, collect(j))
        invariant failedHosts == FailedHosts(hosts)
        invariant forall j :: 0 <= j < i ==> !cancelled(j)
      {
        if cancelled(i) { return hosts, failedHosts, true; }
        var host, failed := SyncHost(bootstrapHosts[i], sources, collect(i));
        if failed { failedHosts := failedHosts + 1; }
        assert (hosts + [host])[..i] == hosts;
        hosts := hosts + [host];
      }
      cancelledEarly := false;
    }

    method BuildMetadata(previous: Metadata, ghost before: MetadataValue, ghost own: set<object>, hosts: seq<HostValue>,
                         failedHosts: nat, finishedAt: int, durationMs: int) returns (m: MetadataValue)
      requires MetadataIs(previous, before, own) && failedHosts == FailedHosts(hosts)
      ensures m == NextMetadata(before, hosts, finishedAt, durationMs)
    {
      m := MetadataValue(failedHosts > 0, |hosts|, failedHosts, Some(finishedAt), None, None, None, durationMs);
      if |hosts| > 0 {
        m := m.(lastSuccessfulSyncAt := Some(finishedAt));
      } else {
        m := m.(lastSuccessfulSyncAt := TimeWorth(previous.lastSuccessfulSyncAt));
      }
      if m.isPartial {
        m := m.(lastPartialSyncAt := Some(finishedAt), lastFullSyncAt := TimeWorth(previous.lastFullSyncAt));
      } else {
        m := m.(lastFullSyncAt := Some(finishedAt), lastPartialSyncAt := TimeWorth(previous.lastPartialSyncAt));
      }
    }
  }

  // Any history of syncs

  /** One sync as the metadata sees it. */
  datatype SyncRecord = CancelledSync | CompletedSync(hosts: seq<HostValue>, finishedAt: int, durationMs: int)

  function Advance(before: MetadataValue, record: SyncRecord): MetadataValue {
    if record.CancelledSync? then before else NextMetadata(before, record.hosts, record.finishedAt, record.durationMs)
  }

  function MetadataAfter(history: seq<SyncRecord>): MetadataValue {
    if history == [] then EMPTY_SNAPSHOT.metadata
    else Advance(MetadataAfter(history[..|history| - 1]), history[|history| - 1])
  }

  predicate FullSync(s: SyncRecord) {
    s.CompletedSync? && FailedHosts(s.hosts) == 0
  }

  predicate PartialSync(s: SyncRecord) {
    s.CompletedSync? && FailedHosts(s.hosts) > 0
  }

  /** `at` is when the last sync that satisfies `p` finished, or `None` if there was none. */
  ghost predicate LastFinish(history: seq<SyncRecord>, p: SyncRecord -> bool, at: Option<int>) {
    match at
    case None => forall i :: 0 <= i < |history| && history[i].CompletedSync? ==> !p(history[i])
    case Some(t) => exists i ::
                      0 <= i < |history| && history[i].CompletedSync? && p(history[i]) && history[i].finishedAt == t
                      && forall j :: i < j < |history| && history[j].CompletedSync? ==> !p(history[j])
  }

  lemma LastFinishGrows(history: seq<SyncRecord>, p: SyncRecord -> bool, at: Option<int>)
    requires history != [] && LastFinish(history[..|history| - 1], p, at)
    ensures var last := history[|history| - 1];
            LastFinish(history, p, if last.CompletedSync? && p(last) then Some(last.finishedAt) else at)
  {
    var front, last := history[..|history| - 1], history[|history| - 1];
    if !(last.CompletedSync? && p(last)) && at.Some? {
      var i :| 0 <= i < |front| && front[i].CompletedSync? && p(front[i]) && front[i].finishedAt == at.value
               && forall j :: i < j < |front| && front[j].CompletedSync? ==> !p(front[j]);
      assert history[i] == front[i];
      forall j | i < j < |history| && history[j].CompletedSync? ensures !p(history[j]) {
        if j < |front| { assert history[j] == front[j]; }
      }
    }
  }

  /** The four times of the metadata, over any history. `lastSuccessfulSyncAt` asks for hosts, not for
      success: a sync in which every host failed sets it too. */
  lemma {:induction false} SyncTimesAreExact(history: seq<SyncRecord>)
    ensures var m := MetadataAfter(history);
            && LastFinish(history, s => true, m.lastSyncAt)
            && LastFinish(history, FullSync, m.lastFullSyncAt)
            && LastFinish(history, PartialSync, m.lastPartialSyncAt)
            && LastFinish(history, (s: SyncRecord) => s.CompletedSync? && s.hosts != [], m.lastSuccessfulSyncAt)
            && (m.lastSyncAt.Some? ==> m.lastSyncAt == if m.isPartial then m.lastPartialSyncAt else m.lastFullSyncAt)
  {
    if history != [] {
      var front := history[..|history| - 1];
      SyncTimesAreExact(front);
      var m := MetadataAfter(front);
      LastFinishGrows(history, s => true, m.lastSyncAt);
      LastFinishGrows(history, FullSync, m.lastFullSyncAt);
      LastFinishGrows(history, PartialSync, m.lastPartialSyncAt);
      LastFinishGrows(history, (s: SyncRecord) => s.CompletedSync? && s.hosts != [], m.lastSuccessfulSyncAt);
    }
  }

  /** What one call of `Sync` meets. */
  datatype Round = Round(collect: nat -> nat -> Collected, cancelled: nat -> bool, finishedAt: int, durationMs: int)

  ghost predicate Records(record: SyncRecord, round: Round, seeds: seq<Seed>, sources: seq<Source>) {
    && (record.CancelledSync? <==> exists i :: 0 <= i < |seeds| && round.cancelled(i))
    && (record.CompletedSync? ==> record.finishedAt == round.finishedAt && record.durationMs == round.durationMs
                                  && AreSynced(record.hosts, seeds, sources, round.collect))
  }

  /** Syncs in a row, from a fresh store: the stored metadata is that of their history. */
  method RunSyncs(service: Service, rounds: seq<Round>) returns (ghost history: seq<SyncRecord>)
    requires service.store.Valid() && service.store.contents == EMPTY_SNAPSHOT
    modifies service.store
    ensures service.store.Valid() && service.store.contents.metadata == MetadataAfter(history)
    ensures |history| == |rounds|
    ensures forall i :: 0 <= i < |rounds| ==> Records(history[i], rounds[i], service.bootstrapHosts, service.sources)
  {
    history := [];
    for i := 0 to |rounds|
      invariant service.store.Valid() && service.store.contents.metadata == MetadataAfter(history)
      invariant |history| == i
      invariant forall j :: 0 <= j < i ==> Records(history[j], rounds[j], service.bootstrapHosts, service.sources)
    {
      ghost var record := SyncOnce(service, rounds[i]);
      AfterOneMore(history, record);
      history := history + [record];
    }
  }

  lemma AfterOneMore(history: seq<SyncRecord>, record: SyncRecord)
    ensures MetadataAfter(history + [record]) == Advance(MetadataAfter(history), record)
  {
    assert (history + [record])[..|history|] == history;
  }

  method SyncOnce(service: Service, round: Round) returns (ghost record: SyncRecord)
    requires service.store.Valid()
    modifies service.store
    ensures service.store.Valid()
    ensures service.store.contents.metadata == Advance(old(service.store.contents.metadata), record)
    ensures Records(record, round, service.bootstrapHosts, service.sources)
  {
    var err := service.Sync(round.collect, round.cancelled, round.finishedAt, round.durationMs);
    record := if err == Cancelled then CancelledSync
              else CompletedSync(service.store.contents.hosts, round.finishedAt, round.durationMs);
  }

  // From a validated list to the store

  /** Linear search. */
  function FirstWithId(hosts: seq<HostValue>, id: string): Option<HostValue> {
    if hosts == [] then None else if hosts[0].id == id then Some(hosts[0]) else FirstWithId(hosts[1..], id)
  }

  function Ids(hosts: seq<HostValue>): set<string> {
    if hosts == [] then {} else Ids(hosts[..|hosts| - 1]) + {hosts[|hosts| - 1].id}
  }

  lemma {:induction false} IdsMembers(hosts: seq<HostValue>, id: string)
    ensures id in Ids(hosts) <==> LastWithId(hosts, id).Some?
  {
    if hosts != [] { IdsMembers(hosts[..|hosts| - 1], id); }
  }

  ghost predicate DistinctIds(hosts: seq<HostValue>) {
    forall i, j :: 0 <= i < j < |hosts| ==> hosts[i].id != hosts[j].id
  }

  lemma {:induction false} IdsCount(hosts: seq<HostValue>)
    requires DistinctIds(hosts)
    ensures |Ids(hosts)| == |hosts|
  {
    if hosts != [] {
      var front, id := hosts[..|hosts| - 1], hosts[|hosts| - 1].id;
      IdsCount(front);
      IdsMembers(front, id);
      assert LastWithId(front, id).None?;
    }
  }

  /** Where ids are distinct, there is one host to find. */
  lemma FoundIsUnique(hosts: seq<HostValue>, i: nat)
    requires DistinctIds(hosts) && i < |hosts|
    ensures LastWithId(hosts, hosts[i].id) == Some(hosts[i]) && FirstWithId(hosts, hosts[i].id) == Some(hosts[i])
  {
    FirstIsSome(hosts, hosts[i].id);
  }

  lemma SearchesAgree(hosts: seq<HostValue>, id: string)
    requires DistinctIds(hosts)
    ensures LastWithId(hosts, id) == FirstWithId(hosts, id)
  {
    if i :| 0 <= i < |hosts| && hosts[i].id == id {
      FoundIsUnique(hosts, i);
    } else {
      FirstIsSome(hosts, id);
    }
  }

  lemma {:induction false} FirstIsSome(hosts: seq<HostValue>, id: string)
    ensures FirstWithId(hosts, id).None? ==> forall i :: 0 <= i < |hosts| ==> hosts[i].id != id
    ensures FirstWithId(hosts, id).Some? ==>
              exists i :: 0 <= i < |hosts| && hosts[i] == FirstWithId(hosts, id).value && hosts[i].id == id
  {
    if hosts != [] && hosts[0].id != id {
      FirstIsSome(hosts[1..], id);
      assert forall i :: 0 < i < |hosts| ==> hosts[i] == hosts[1..][i - 1];
    }
  }

  /** After a sync of a validated list, looking a host up is searching the snapshot, every seed is
      found under its id, and the index has one entry per host. */
  lemma LookupAgreesWithSearch(seeds: seq<HostSeed>, sources: seq<Source>, collect: nat -> nat -> Collected,
                               hosts: seq<HostValue>, index: map<string, Host>, within: set<object>)
    requires forall i :: 0 <= i < |seeds| ==> GoodSeed(seeds, i)
    requires AreSynced(hosts, NormalizedSeeds(seeds), sources, collect) && IndexIs(index, hosts, within)
    ensures forall id :: LastWithId(hosts, id) == FirstWithId(hosts, id)
    ensures forall i :: 0 <= i < |seeds| ==> LastWithId(hosts, Trim(seeds[i].id)) == Some(hosts[i])
    ensures |index| == |hosts| == |seeds|
  {
    SyncedIdsAreDistinct(seeds, sources, collect, hosts);
    forall id ensures LastWithId(hosts, id) == FirstWithId(hosts, id) { SearchesAgree(hosts, id); }
    forall i | 0 <= i < |seeds| ensures LastWithId(hosts, Trim(seeds[i].id)) == Some(hosts[i]) {
      FoundIsUnique(hosts, i);
    }
    IndexHasOneEntryPerHost(hosts, index, within);
  }

  lemma IndexHasOneEntryPerHost(hosts: seq<HostValue>, index: map<string, Host>, within: set<object>)
    requires DistinctIds(hosts) && IndexIs(index, hosts, within)
    ensures |index| == |hosts|
  {
    forall id ensures id in index.Keys <==> id in Ids(hosts) { IdsMembers(hosts, id); }
    assert index.Keys == Ids(hosts);
    IdsCount(hosts);
  }

  lemma SyncedIdsAreDistinct(seeds: seq<HostSeed>, sources: seq<Source>, collect: nat -> nat -> Collected,
                             hosts: seq<HostValue>)
    requires forall i :: 0 <= i < |seeds| ==> GoodSeed(seeds, i)
    requires AreSynced(hosts, NormalizedSeeds(seeds), sources, collect)
    ensures forall i :: 0 <= i < |hosts| ==> hosts[i].id == Trim(seeds[i].id)
    ensures DistinctIds(hosts)
  {
    forall i | 0 <= i < |hosts| ensures hosts[i].id == Trim(seeds[i].id) {
      assert IsSynced(hosts[i], NormalizedSeeds(seeds)[i], sources, collect(i));
    }
    forall i, j | 0 <= i < j < |hosts| ensures hosts[i].id != hosts[j].id { assert GoodSeed(seeds, j); }
  }
}
