/** What a sync stores, in terms of the seeds, the sources and what each source gave. */
module SyncLaws {
  import opened Counting
  import opened Text
  import opened Wrappers
  import opened SelfProvisioning
  import opened InventoryDomain
  import opened InventorySync

  // One host

  ghost predicate SomeEnabled(sources: seq<Source>) {
    exists k :: 0 <= k < |sources| && sources[k].enabled
  }

  ghost predicate SomeFailed(sources: seq<Source>, cs: nat -> Collected) {
    exists k :: 0 <= k < |sources| && sources[k].enabled && cs(k).CollectFailed?
  }

  ghost predicate SomeSucceeded(sources: seq<Source>, cs: nat -> Collected) {
    exists k :: 0 <= k < |sources| && sources[k].enabled && cs(k).CollectOk?
  }

  lemma {:induction false} CountsArePositive(sources: seq<Source>, cs: nat -> Collected)
    ensures CountOk(sources, cs) > 0 <==> SomeSucceeded(sources, cs)
    ensures CountFailed(sources, cs) > 0 <==> SomeFailed(sources, cs)
  {
    if sources != [] {
      var front := sources[..|sources| - 1];
      CountsArePositive(front, cs);
      assert forall k :: 0 <= k < |front| ==> front[k] == sources[k];
    }
  }

  lemma EnabledSourcesEnd(sources: seq<Source>, cs: nat -> Collected)
    ensures SomeEnabled(sources) <==> SomeFailed(sources, cs) || SomeSucceeded(sources, cs)
  {
    if k :| 0 <= k < |sources| && sources[k].enabled {
      assert cs(k).CollectFailed? || cs(k).CollectOk?;
    }
  }

  /** The status of a host says which of its enabled sources failed and succeeded: none there, none
      failed, some but not all failed, all failed. */
  lemma StatusMeans(h: HostValue, seed: Seed, sources: seq<Source>, cs: nat -> Collected)
    requires IsSynced(h, seed, sources, cs)
    ensures h.status == BootstrapOnly <==> !SomeEnabled(sources)
    ensures h.status == HostOk <==> SomeEnabled(sources) && !SomeFailed(sources, cs)
    ensures h.status == HostPartial <==> SomeFailed(sources, cs) && SomeSucceeded(sources, cs)
    ensures h.status == HostError <==> SomeFailed(sources, cs) && !SomeSucceeded(sources, cs)
  {
    CountsArePositive(sources, cs);
    EnabledSourcesEnd(sources, cs);
  }

  /** Workloads come source by source; `rest` is what the later sources give. */
  lemma {:induction false} WorkloadsInOrder(a: seq<Source>, b: seq<Source>, cs: nat -> Collected,
                                            rest: nat -> Collected)
    requires forall k :: 0 <= k < |b| ==> rest(k) == cs(|a| + k)
    ensures WorkloadsFrom(a + b, cs) == WorkloadsFrom(a, cs) + WorkloadsFrom(b, rest)
  {
    if b == [] {
      assert a + b == a;
    } else {
      var n := |b| - 1;
      assert (a + b)[..|a + b| - 1] == a + b[..n] && (a + b)[|a + b| - 1] == b[n];
      WorkloadsInOrder(a, b[..n], cs, rest);
      ConcatIsAssociative(WorkloadsFrom(a, cs), WorkloadsFrom(b[..n], rest),
                          if Succeeded(b[n], rest(n)) then rest(n).workloads else []);
    }
  }

  lemma {:induction false} ErrorsInOrder(a: seq<Source>, b: seq<Source>, cs: nat -> Collected, rest: nat -> Collected)
    requires forall k :: 0 <= k < |b| ==> rest(k) == cs(|a| + k)
    ensures ErrorsFrom(a + b, cs) == ErrorsFrom(a, cs) + ErrorsFrom(b, rest)
  {
    if b == [] {
      assert a + b == a;
    } else {
      var n := |b| - 1;
      assert (a + b)[..|a + b| - 1] == a + b[..n] && (a + b)[|a + b| - 1] == b[n];
      ErrorsInOrder(a, b[..n], cs, rest);
      ConcatIsAssociative(ErrorsFrom(a, cs), ErrorsFrom(b[..n], rest),
                          if Failed(b[n], rest(n)) then [b[n].name + ": " + rest(n).error] else []);
    }
  }

  /** One source gives its workloads if it succeeds, one message if it fails, and nothing if it is disabled. */
  lemma OneSource(source: Source, cs: nat -> Collected)
    ensures WorkloadsFrom([source], cs) == if source.enabled && cs(0).CollectOk? then cs(0).workloads else []
    ensures ErrorsFrom([source], cs)
         == if source.enabled && cs(0).CollectFailed? then [source.name + ": " + cs(0).error] else []
  {
    assert [source][..0] == [];
  }

  /** A host carries its seed, and under each source's name what the last source with that name gave. */
  lemma HostCarriesItsSeed(h: HostValue, seeds: seq<HostSeed>, i: nat, sources: seq<Source>, cs: nat -> Collected)
    requires i < |seeds| && IsSynced(h, NormalizedSeeds(seeds)[i], sources, cs)
    ensures IsCutOut(seeds[i].id, h.id) && IsCutOut(seeds[i].fqdn, h.fqdn)
    ensures h.labels == if seeds[i].labels.Some? then seeds[i].labels.value else map[]
  {
    TrimMeans(seeds[i].id, h.id);
    TrimMeans(seeds[i].fqdn, h.fqdn);
  }

  ghost predicate IsStatusOf(s: StatusValue, source: Source, c: Collected) {
    && s.source == source.name && s.enabled == source.enabled
    && (s.state == SourceDisabled <==> !source.enabled)
    && (s.state == SourceError <==> source.enabled && c.CollectFailed?)
    && (s.state == SourceOk <==> source.enabled && c.CollectOk?)
    && (forall at :: s.observedAt == Some(at) <==> source.enabled && c.CollectOk? && c.observedAt == at)
    && s.error == if source.enabled && c.CollectFailed? then c.error else ""
  }

  ghost predicate LastNamed(sources: seq<Source>, name: string, k: nat) {
    k < |sources| && sources[k].name == name && forall j :: k < j < |sources| ==> sources[j].name != name
  }

  /** `s` is what the last source with this name gave. */
  ghost predicate IsLastStatus(s: StatusValue, sources: seq<Source>, cs: nat -> Collected, name: string) {
    exists k: nat :: LastNamed(sources, name, k) && IsStatusOf(s, sources[k], cs(k))
  }

  lemma LastStatusStays(s: StatusValue, sources: seq<Source>, cs: nat -> Collected, name: string)
    requires sources != [] && sources[|sources| - 1].name != name
    requires IsLastStatus(s, sources[..|sources| - 1], cs, name)
    ensures IsLastStatus(s, sources, cs, name)
  {
    var front := sources[..|sources| - 1];
    var k: nat :| LastNamed(front, name, k) && IsStatusOf(s, front[k], cs(k));
    assert forall j :: 0 <= j < |front| ==> front[j] == sources[j];
    assert LastNamed(sources, name, k);
  }

  lemma OneStatus(source: Source, c: Collected)
    ensures IsStatusOf(StatusFrom(source, c), source, c)
  {
  }

  lemma {:induction false} SourceStatusMeans(sources: seq<Source>, cs: nat -> Collected, name: string)
    ensures name in StatusesFrom(sources, cs) <==> exists k :: 0 <= k < |sources| && sources[k].name == name
    ensures name in StatusesFrom(sources, cs) ==> IsLastStatus(StatusesFrom(sources, cs)[name], sources, cs, name)
  {
    if sources != [] {
      var n := |sources| - 1;
      SourceStatusMeans(sources[..n], cs, name);
      assert forall k :: 0 <= k < n ==> sources[..n][k] == sources[k];
      if sources[n].name == name {
        assert LastNamed(sources, name, n);
        OneStatus(sources[n], cs(n));
      } else if name in StatusesFrom(sources[..n], cs) {
        LastStatusStays(StatusesFrom(sources, cs)[name], sources, cs, name);
      }
    }
  }

  // All hosts

  /** How many of the first `n` hosts have an enabled source that failed. */
  ghost function HostsWithFailure(sources: seq<Source>, collect: nat -> nat -> Collected, n: nat): nat {
    if n == 0 then 0
    else HostsWithFailure(sources, collect, n - 1) + if SomeFailed(sources, collect(n - 1)) then 1 else 0
  }

  lemma {:induction false} FailedHostsMean(hosts: seq<HostValue>, seeds: seq<Seed>, sources: seq<Source>,
                                           collect: nat -> nat -> Collected)
    requires AreSynced(hosts, seeds, sources, collect)
    ensures FailedHosts(hosts) == HostsWithFailure(sources, collect, |seeds|)
  {
    if hosts != [] {
      var n := |hosts| - 1;
      FailedHostsMean(hosts[..n], seeds[..n], sources, collect);
      StatusMeans(hosts[n], seeds[n], sources, collect(n));
    }
  }

  lemma {:induction false} SomeHostFailed(sources: seq<Source>, collect: nat -> nat -> Collected, n: nat)
    ensures HostsWithFailure(sources, collect, n) > 0 <==> exists i :: 0 <= i < n && SomeFailed(sources, collect(i))
  {
    if n > 0 { SomeHostFailed(sources, collect, n - 1); }
  }

  /** The counts in the metadata: every seed is a host, a failed host is one with an enabled source that
      failed, and a sync is partial if there is such a host. */
  lemma MetadataMeans(hosts: seq<HostValue>, seeds: seq<Seed>, sources: seq<Source>,
                      collect: nat -> nat -> Collected, before: MetadataValue, finishedAt: int, durationMs: int)
    requires AreSynced(hosts, seeds, sources, collect)
    ensures var m := NextMetadata(before, hosts, finishedAt, durationMs);
            && m.totalHosts == |seeds|
            && m.failedHosts == HostsWithFailure(sources, collect, |seeds|)
            && (m.isPartial <==> exists i :: 0 <= i < |seeds| && SomeFailed(sources, collect(i)))
            && m.durationMs == durationMs
  {
    FailedHostsMean(hosts, seeds, sources, collect);
    SomeHostFailed(sources, collect, |seeds|);
  }

  // Over any history

  ghost predicate CountsOf(m: MetadataValue, record: SyncRecord) {
    record.CompletedSync? && m.totalHosts == |record.hosts| && m.failedHosts == FailedHosts(record.hosts)
    && m.durationMs == record.durationMs && (m.isPartial <==> FailedHosts(record.hosts) > 0)
  }

  ghost predicate NoSyncFrom(history: seq<SyncRecord>, i: nat) {
    forall j :: i <= j < |history| ==> history[j].CancelledSync?
  }

  ghost predicate CountsOfLast(m: MetadataValue, history: seq<SyncRecord>) {
    exists i: nat :: i < |history| && CountsOf(m, history[i]) && NoSyncFrom(history, i + 1)
  }

  lemma LastStays(m: MetadataValue, history: seq<SyncRecord>)
    requires history != [] && history[|history| - 1].CancelledSync?
    requires CountsOfLast(m, history[..|history| - 1])
    ensures CountsOfLast(m, history)
  {
    var front := history[..|history| - 1];
    var i: nat :| i < |front| && CountsOf(m, front[i]) && NoSyncFrom(front, i + 1);
    assert forall j :: 0 <= j < |front| ==> front[j] == history[j];
    assert CountsOf(m, history[i]) && NoSyncFrom(history, i + 1);
  }

  lemma NextCounts(before: MetadataValue, record: SyncRecord)
    requires record.CompletedSync?
    ensures CountsOf(Advance(before, record), record)
  {
  }

  /** The stored counts are those of the last completed sync, or zero if there was none. */
  lemma {:induction false} CountsAreOfLastSync(history: seq<SyncRecord>)
    ensures var m := MetadataAfter(history);
            if NoSyncFrom(history, 0) then m == EMPTY_SNAPSHOT.metadata else CountsOfLast(m, history)
  {
    if history != [] {
      var n := |history| - 1;
      CountsAreOfLastSync(history[..n]);
      assert forall i :: 0 <= i < n ==> history[..n][i] == history[i];
      if history[n].CompletedSync? {
        NextCounts(MetadataAfter(history[..n]), history[n]);
        assert NoSyncFrom(history, n + 1);
      } else if !NoSyncFrom(history[..n], 0) {
        LastStays(MetadataAfter(history), history);
      }
    }
  }
}
