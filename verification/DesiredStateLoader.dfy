/** Many manifest files merged into one desired state: the last host with an id wins, and the
    order in which a map yields its entries does not show. */
module DesiredStateLoader {
  import opened Text
  import opened Wrappers
  import opened Manifest
  import opened ManifestMapper

  /** What reading and decoding a file gives. */
  datatype File = Unreadable | Undecodable | Decoded(path: string, manifest: Manifest)

  /** A decoded manifest without deployment nodes is broken too. */
  predicate Loads(file: File) {
    file.Decoded? && file.manifest.deploymentNodes != []
  }

  function LoadedFiles(files: seq<File>): nat {
    if files == [] then 0 else LoadedFiles(files[..|files| - 1]) + if Loads(files[|files| - 1]) then 1 else 0
  }

  /** The hosts that one manifest is mapped to. */
  ghost function HostsIn(manifest: Manifest): seq<Host> {
    HostsOfAll(PreorderAll(manifest.deploymentNodes), ContainerNames(AllContainers(manifest.systems)))
  }

  ghost function ContainerNames(containers: seq<Container>): (names: map<string, string>)
    ensures NamesContainers(names, containers)
  {
    if containers == [] then map[]
    else
      var front, last := containers[..|containers| - 1], containers[|containers| - 1];
      assert containers == front + [last];
      var names := ContainerNames(front);
      NamesGrow(names, front, last);
      if Trim(last.id) == "" then names else names[Trim(last.id) := Trim(last.name)]
  }

  /** Everything mapped from all good files, in file order. */
  ghost function MappedHosts(files: seq<File>): seq<Host> {
    if files == [] then []
    else
      MappedHosts(files[..|files| - 1])
      + if Loads(files[|files| - 1]) then HostsIn(files[|files| - 1].manifest) else []
  }

  /** The last host with this id. */
  function LastHost(hosts: seq<Host>, id: string): Option<Host> {
    Last(hosts, (h: Host) => h.hostId == id)
  }

  ghost predicate MapsLast(byId: map<string, Host>, hosts: seq<Host>) {
    forall id :: (id in byId <==> LastHost(hosts, id).Some?) && (id in byId ==> LastHost(hosts, id) == Some(byId[id]))
  }

  lemma MapsOneMore(byId: map<string, Host>, hosts: seq<Host>, host: Host)
    requires MapsLast(byId, hosts)
    ensures MapsLast(byId[host.hostId := host], hosts + [host])
  {
    assert (hosts + [host])[..|hosts|] == hosts;
  }

  predicate Ascending(hosts: seq<Host>) {
    forall i, j :: 0 <= i < j < |hosts| ==> Less(hosts[i].hostId, hosts[j].hostId)
  }

  /** The merge of `mapped`: exactly the last host of every id, in ascending order of ids. */
  ghost predicate Merges(hosts: seq<Host>, mapped: seq<Host>) {
    && Ascending(hosts)
    && forall h :: h in hosts <==> LastHost(mapped, h.hostId) == Some(h)
  }

  /** There is only one merge, so the order of map iteration cannot show. */
  lemma {:induction false} MergeIsUnique(a: seq<Host>, b: seq<Host>, mapped: seq<Host>)
    requires Merges(a, mapped) && Merges(b, mapped)
    ensures a == b
  {
    assert forall h :: h in a <==> h in b;
    AscendingIsUnique(a, b);
  }

  lemma {:induction false} AscendingIsUnique(a: seq<Host>, b: seq<Host>)
    requires Ascending(a) && Ascending(b) && forall h :: h in a <==> h in b
    ensures a == b
  {
    NoMembers(a);
    NoMembers(b);
    if a != [] {
      SmallestIsFirst(a, b);
      TailMembers(a);
      TailMembers(b);
      AscendingIsUnique(a[1..], b[1..]);
      assert a == [a[0]] + a[1..] && b == [b[0]] + b[1..];
    }
  }

  lemma NoMembers(a: seq<Host>)
    ensures a == [] <==> forall h :: h !in a
  {
    if a != [] { assert a[0] in a; }
  }

  lemma TailMembers(a: seq<Host>)
    requires Ascending(a) && a != []
    ensures Ascending(a[1..]) && forall h :: h in a[1..] <==> h in a && h != a[0]
  {
    LessIsIrreflexive(a[0].hostId);
    assert a == [a[0]] + a[1..];
  }

  lemma SmallestIsFirst(a: seq<Host>, b: seq<Host>)
    requires Ascending(a) && Ascending(b) && a != [] && b != [] && forall h :: h in a <==> h in b
    ensures a[0] == b[0]
  {
    assert a[0] in b && b[0] in a;
    var i :| 0 <= i < |b| && b[i] == a[0];
    var j :| 0 <= j < |a| && a[j] == b[0];
    if i > 0 && j > 0 {
      LessIsTransitive(a[0].hostId, b[0].hostId, a[0].hostId);
      LessIsIrreflexive(a[0].hostId);
    }
  }

  /** Inserts one host into its place. */
  method Insert(hosts: seq<Host>, host: Host) returns (r: seq<Host>)
    requires Ascending(hosts) && forall i :: 0 <= i < |hosts| ==> hosts[i].hostId != host.hostId
    ensures Ascending(r) && |r| == |hosts| + 1 && forall h :: h in r <==> h in hosts || h == host
  {
    var i := |hosts|;
    while i > 0 && Less(host.hostId, hosts[i - 1].hostId)
      invariant 0 <= i <= |hosts| && forall k :: i <= k < |hosts| ==> Less(host.hostId, hosts[k].hostId)
    {
      i := i - 1;
    }
    forall k | 0 <= k < i ensures Less(hosts[k].hostId, host.hostId) {
      LessIsTotal(hosts[i - 1].hostId, host.hostId);
      if k < i - 1 { LessIsTransitive(hosts[k].hostId, hosts[i - 1].hostId, host.hostId); }
    }
    r := hosts[..i] + [host] + hosts[i..];
    InsertedMembers(hosts, host, i);
  }

  lemma InsertedMembers(hosts: seq<Host>, host: Host, i: nat)
    requires i <= |hosts|
    ensures forall h :: h in hosts[..i] + [host] + hosts[i..] <==> h in hosts || h == host
  {
    assert hosts == hosts[..i] + hosts[i..];
  }

  /** The values of the map, taken in any order, and sorted. */
  method SortedHosts(byId: map<string, Host>) returns (hosts: seq<Host>)
    requires forall id :: id in byId ==> byId[id].hostId == id
    ensures Ascending(hosts) && |hosts| == |byId|
    ensures forall h :: h in hosts <==> h.hostId in byId && byId[h.hostId] == h
  {
    hosts := [];
    var left := byId.Keys;
    while left != {}
      invariant left <= byId.Keys && Ascending(hosts) && |hosts| + |left| == |byId|
      invariant forall h :: h in hosts <==> h.hostId in byId && h.hostId !in left && byId[h.hostId] == h
      decreases |left|
    {
      var id :| id in left;
      left := left - {id};
      assert forall i :: 0 <= i < |hosts| ==> hosts[i] in hosts;
      hosts := Insert(hosts, byId[id]);
    }
  }

  datatype Metadata = Metadata(
    mode: string, path: string, filesTotal: nat, filesLoaded: nat, filesBroken: nat, filesIgnored: nat,
    hostsTotal: nat, workloadsTotal: nat, ready: bool, readyReason: string)

  datatype Snapshot = Snapshot(hosts: seq<Host>, metadata: Metadata)

  const NOT_READY := "no valid manifest files were loaded"

  method LoadDesiredState(files: seq<File>, mode: string, path: string, ignoredFiles: nat) returns (snapshot: Snapshot)
    ensures Merges(snapshot.hosts, MappedHosts(files))
    ensures var m := snapshot.metadata;
            && m.mode == mode && m.path == path && m.filesIgnored == ignoredFiles
            && m.filesLoaded == LoadedFiles(files)
            && m.filesTotal == m.filesLoaded + m.filesBroken + m.filesIgnored == |files| + ignoredFiles
            && m.hostsTotal == |snapshot.hosts| && m.workloadsTotal == WorkloadCount(snapshot.hosts)
            && (m.ready <==> exists i :: 0 <= i < |files| && Loads(files[i]))
            && m.readyReason == if m.ready then "" else NOT_READY
  {
    var hostsById, loadedFiles, brokenFiles := ReadFiles(files);
    var hosts := SortedHosts(hostsById);
    assert Merges(hosts, MappedHosts(files));
    var workloadsTotal := CountWorkloads(hosts);
    var ready := loadedFiles > 0;
    snapshot := Snapshot(hosts, Metadata(mode, path, |files| + ignoredFiles, loadedFiles, brokenFiles, ignoredFiles,
                                         |hosts|, workloadsTotal, ready, if ready then "" else NOT_READY));
  }

  lemma OneMoreFile(files: seq<File>, i: nat)
    requires i < |files|
    ensures LoadedFiles(files[..i + 1]) == LoadedFiles(files[..i]) + if Loads(files[i]) then 1 else 0
    ensures MappedHosts(files[..i + 1]) ==
            if Loads(files[i]) then MappedHosts(files[..i]) + HostsIn(files[i].manifest) else MappedHosts(files[..i])
  {
    assert files[..i + 1][..i] == files[..i];
  }

  /** The loop over the files. */
  method ReadFiles(files: seq<File>) returns (hostsById: map<string, Host>, loadedFiles: nat, brokenFiles: nat)
    ensures loadedFiles == LoadedFiles(files) && loadedFiles + brokenFiles == |files|
    ensures loadedFiles > 0 <==> exists k :: 0 <= k < |files| && Loads(files[k])
    ensures MapsLast(hostsById, MappedHosts(files))
  {
    brokenFiles, loadedFiles, hostsById := 0, 0, map[];
    for i := 0 to |files|
      invariant loadedFiles == LoadedFiles(files[..i]) && loadedFiles + brokenFiles == i
      invariant MapsLast(hostsById, MappedHosts(files[..i]))
    {
      OneMoreFile(files, i);
      if !files[i].Decoded? {
        brokenFiles := brokenFiles + 1;
        continue;
      }
      if |files[i].manifest.deploymentNodes| == 0 {
        brokenFiles := brokenFiles + 1;
        continue;
      }
      hostsById := LoadManifest(files[i].path, files[i].manifest, hostsById, MappedHosts(files[..i]));
      loadedFiles := loadedFiles + 1;
    }
    assert files[..|files|] == files;
    LoadedIfAny(files);
  }

  lemma {:induction false} LoadedIfAny(files: seq<File>)
    ensures LoadedFiles(files) > 0 <==> exists k :: 0 <= k < |files| && Loads(files[k])
  {
    if files != [] {
      var front := files[..|files| - 1];
      LoadedIfAny(front);
      assert forall k :: 0 <= k < |front| ==> front[k] == files[k];
    }
  }

  method LoadManifest(path: string, manifest: Manifest, byId: map<string, Host>, ghost earlier: seq<Host>)
    returns (r: map<string, Host>)
    requires MapsLast(byId, earlier)
    ensures MapsLast(r, earlier + HostsIn(manifest))
  {
    var mapped, names := MapManifest(manifest, path);
    NamesAreUnique(names, ContainerNames(AllContainers(manifest.systems)), AllContainers(manifest.systems));
    r := Merge(byId, mapped.hosts, earlier);
  }

  method CountWorkloads(hosts: seq<Host>) returns (total: nat)
    ensures total == WorkloadCount(hosts)
  {
    total := 0;
    for i := 0 to |hosts|
      invariant total == WorkloadCount(hosts[..i])
    {
      assert hosts[..i + 1][..i] == hosts[..i];
      total := total + |hosts[i].workloads|;
    }
    assert hosts[..|hosts|] == hosts;
  }

  /** The hosts of one file go into the map, replacing earlier hosts with the same id. */
  method Merge(byId: map<string, Host>, hosts: seq<Host>, ghost earlier: seq<Host>) returns (r: map<string, Host>)
    requires MapsLast(byId, earlier)
    ensures MapsLast(r, earlier + hosts)
  {
    r := byId;
    assert earlier + hosts[..0] == earlier;
    for i := 0 to |hosts|
      invariant MapsLast(r, earlier + hosts[..i])
    {
      MapsOneMore(r, earlier + hosts[..i], hosts[i]);
      assert (earlier + hosts[..i]) + [hosts[i]] == earlier + hosts[..i + 1];
      r := r[hosts[i].hostId := hosts[i]];
    }
    assert hosts[..|hosts|] == hosts;
  }

  /** What a merge keeps of the mapping: every merged host comes from a good file and is valid. */
  lemma MergedHostsAreMapped(hosts: seq<Host>, files: seq<File>, i: nat)
    requires Merges(hosts, MappedHosts(files)) && i < |hosts|
    ensures hosts[i] in MappedHosts(files) && AllValid([hosts[i]])
  {
    assert hosts[i] in hosts;
    MappedHostsAreValid(files);
  }

  lemma {:induction false} MappedHostsAreValid(files: seq<File>)
    ensures AllValid(MappedHosts(files))
  {
    if files != [] {
      MappedHostsAreValid(files[..|files| - 1]);
      var last := files[|files| - 1];
      if Loads(last) {
        NothingIsLost(PreorderAll(last.manifest.deploymentNodes), ContainerNames(AllContainers(last.manifest.systems)),
                      last.path);
      }
    }
  }
}
