/** The in-memory store: a snapshot, an index that agrees with it, and no objects shared with callers. */
module InventoryStore {
  import opened Wrappers
  import opened InventoryDomain

  /** The last host of a snapshot with this id. */
  function LastWithId(hosts: seq<HostValue>, id: string): Option<HostValue> {
    Last(hosts, (h: HostValue) => h.id == id)
  }

  ghost predicate IndexIs(index: map<string, Host>, hosts: seq<HostValue>, within: set<object>)
    reads within
  {
    && (forall id :: id in index <==> LastWithId(hosts, id).Some?)
    && forall id :: id in index ==>
         LastWithId(hosts, id).Some? && HostIs(index[id], LastWithId(hosts, id).value, within)
  }

  lemma IndexIsWithinMore(index: map<string, Host>, hosts: seq<HostValue>, within: set<object>, more: set<object>)
    requires IndexIs(index, hosts, within) && within <= more
    ensures IndexIs(index, hosts, more)
  {
    forall id | id in index ensures HostIs(index[id], LastWithId(hosts, id).value, more) {
      HostIsWithinMore(index[id], LastWithId(hosts, id).value, within, more);
    }
  }

  method BuildIndex(hosts: seq<Host>, ghost vs: seq<HostValue>, ghost within: set<object>)
    returns (index: map<string, Host>, ghost own: set<object>)
    requires HostsAre(hosts, vs, within)
    ensures fresh(own) && IndexIs(index, vs, own)
  {
    index, own := map[], {};
    for i := 0 to |hosts|
      invariant fresh(own) && IndexIs(index, vs[..i], own)
    {
      assert HostIs(hosts[i], vs[i], within) && vs[..i + 1][..i] == vs[..i];
      var h, cells := CloneHost(hosts[i], vs[i], within);
      forall id | id in index ensures HostIs(index[id], LastWithId(vs[..i], id).value, own + cells) {
        HostIsWithinMore(index[id], LastWithId(vs[..i], id).value, own, own + cells);
      }
      HostIsWithinMore(h, vs[i], cells, own + cells);
      own := own + cells;
      index := index[hosts[i].id := h];
    }
    assert vs[..|hosts|] == vs;
  }

  /** A snapshot and an index of one value. */
  ghost predicate Agree(s: Snapshot, index: map<string, Host>, v: SnapshotValue, within: set<object>)
    reads within
  {
    SnapshotIs(s, v, within) && IndexIs(index, v.hosts, within)
  }

  method CloneWithIndex(s: Snapshot, ghost v: SnapshotValue, ghost within: set<object>)
    returns (c: Snapshot, index: map<string, Host>, ghost own: set<object>)
    requires SnapshotIs(s, v, within)
    ensures fresh(own) && Agree(c, index, v, own)
  {
    ghost var cells, more;
    c, cells := CloneSnapshot(s, v, within);
    index, more := BuildIndex(c.hosts.items, v.hosts, cells);
    own := cells + more;
    SnapshotIsWithinMore(c, v, cells, own);
    IndexIsWithinMore(index, v.hosts, more, own);
  }

  class Store {
    var snapshot: Snapshot
    var hostsById: map<string, Host>

    /** What the snapshot is worth, and all objects behind it and behind the index. */
    ghost var contents: SnapshotValue
    ghost var repr: set<object>

    ghost predicate Valid()
      reads this, repr
    {
      this !in repr && Agree(snapshot, hostsById, contents, repr)
    }

    constructor ()
      ensures Valid() && fresh(repr) && contents == EMPTY_SNAPSHOT
    {
      var hosts := new Slice<Host>([]);
      snapshot := Snapshot(hosts, Metadata(false, 0, 0, null, null, null, null, 0));
      hostsById := map[];
      contents, repr := EMPTY_SNAPSHOT, {hosts};
    }

    /** Stores a copy. Whatever objects the argument is made of, none of them is kept. */
    method Replace(s: Snapshot, ghost v: SnapshotValue, ghost within: set<object>)
      requires SnapshotIs(s, v, within)
      modifies this
      ensures Valid() && contents == v && fresh(repr)
    {
      var cloned, index, own := CloneWithIndex(s, v, within);
      Install(cloned, index, v, own);
    }

    /** The copy replaces what was stored. */
    method Install(cloned: Snapshot, index: map<string, Host>, ghost v: SnapshotValue, ghost own: set<object>)
      requires this !in own && Agree(cloned, index, v, own)
      modifies this
      ensures Valid() && contents == v && repr == own
    {
      snapshot, hostsById, contents, repr := cloned, index, v, own;
      assert unchanged(own);
      assert old(Agree(cloned, index, v, own));
      assert Agree(cloned, index, v, own);
    }

    /** Hands out a copy made of fresh objects. */
    method GetSnapshot() returns (s: Snapshot, ghost own: set<object>)
      requires Valid()
      ensures fresh(own) && SnapshotIs(s, contents, own)
    {
      s, own := CloneSnapshot(snapshot, contents, repr);
    }

    method GetHost(id: string) returns (h: Option<Host>, ghost own: set<object>)
      requires Valid()
      ensures h.Some? <==> LastWithId(contents.hosts, id).Some?
      ensures fresh(own) && (h.Some? ==> HostIs(h.value, LastWithId(contents.hosts, id).value, own))
    {
      h, own := None, {};
      if id in hostsById {
        var c, cells := CloneHost(hostsById[id], LastWithId(contents.hosts, id).value, repr);
        h, own := Some(c), cells;
      }
    }
  }

  // Objects for a value

  method MakeTime(v: Option<int>) returns (t: Time?, ghost own: set<object>)
    ensures fresh(own) && TimeIs(t, v, own)
  {
    t, own := null, {};
    if v.Some? {
      t := new Time(v.value);
      own := {t};
    }
  }

  method MakeWorkloads(vs: seq<WorkloadValue>) returns (ws: seq<Workload>, ghost own: set<object>)
    ensures fresh(own) && WorkloadsAre(ws, vs, own)
  {
    ws, own := [], {};
    for i := 0 to |vs|
      invariant fresh(own) && WorkloadsAre(ws, vs[..i], own)
    {
      var seen, cells := MakeTime(vs[i].lastSeenAt);
      own := own + cells;
      ws := ws + [Workload(vs[i].id, vs[i].name, vs[i].image, vs[i].runtime, vs[i].source, seen)];
    }
    assert vs[..|vs|] == vs;
  }

  method MakeStatuses(v: map<string, StatusValue>) returns (m: map<string, Status>, ghost own: set<object>)
    ensures fresh(own) && StatusesAre(m, v, own)
  {
    m, own := map[], {};
    var left := v.Keys;
    while left != {}
      invariant left <= v.Keys && m.Keys == v.Keys - left
      invariant fresh(own) && forall k :: k in m ==> StatusIs(m[k], v[k], own)
      decreases |left|
    {
      var k :| k in left;
      left := left - {k};
      var observed, cells := MakeTime(v[k].observedAt);
      own := own + cells;
      m := m[k := Status(v[k].source, v[k].enabled, v[k].state, observed, v[k].error)];
    }
  }

  method MakeHost(v: HostValue) returns (h: Host, ghost own: set<object>)
    ensures fresh(own) && HostIs(h, v, own)
  {
    var statuses, own1 := MakeStatuses(v.sourceStatus);
    var ws, own2 := MakeWorkloads(v.workloads);
    var observed, own3 := MakeTime(v.lastObservedAt);
    var labels := new LabelMap(v.labels);
    var sourceStatus := new StatusMap(statuses);
    var workloads := new Slice(ws);
    var errors := new Slice(v.errors);
    own := own1 + own2 + own3 + {labels, sourceStatus, workloads, errors};
    h := Host(v.id, v.fqdn, labels, workloads, observed, v.status, sourceStatus, errors);
    forall i | 0 <= i < |ws| ensures WorkloadIs(ws[i], v.workloads[i], own) {
      assert WorkloadIs(ws[i], v.workloads[i], own2);
    }
    forall k | k in statuses ensures StatusIs(statuses[k], v.sourceStatus[k], own) {
      assert StatusIs(statuses[k], v.sourceStatus[k], own1);
    }
  }

  method MakeSnapshot(v: SnapshotValue) returns (s: Snapshot, ghost own: set<object>)
    ensures fresh(own) && SnapshotIs(s, v, own)
  {
    var items, own1 := MakeHosts(v.hosts);
    var m := v.metadata;
    var sync, own2 := MakeTime(m.lastSyncAt);
    var successful, own3 := MakeTime(m.lastSuccessfulSyncAt);
    var full, own4 := MakeTime(m.lastFullSyncAt);
    var part, own5 := MakeTime(m.lastPartialSyncAt);
    var hosts := new Slice(items);
    own := own1 + own2 + own3 + own4 + own5 + {hosts};
    var metadata := Metadata(m.isPartial, m.totalHosts, m.failedHosts, sync, successful, full, part, m.durationMs);
    s := Snapshot(hosts, metadata);
    forall i | 0 <= i < |items| ensures HostIs(items[i], v.hosts[i], own) {
      assert HostIs(items[i], v.hosts[i], own1);
      HostIsWithinMore(items[i], v.hosts[i], own1, own);
    }
  }

  method MakeHosts(vs: seq<HostValue>) returns (hs: seq<Host>, ghost own: set<object>)
    ensures fresh(own) && HostsAre(hs, vs, own)
  {
    hs, own := [], {};
    for i := 0 to |vs|
      invariant fresh(own) && HostsAre(hs, vs[..i], own)
    {
      var h, cells := MakeHost(vs[i]);
      OneMoreHost(hs, vs[..i], own, h, vs[i], cells);
      assert vs[..i] + [vs[i]] == vs[..i + 1];
      own := own + cells;
      hs := hs + [h];
    }
    assert vs[..|vs|] == vs;
  }
}

/** A client that may do anything to the objects it holds. */
module StoreIsolation {
  import opened Wrappers
  import opened InventoryDomain
  import opened InventoryStore

  // Any objects are worth something, however they share their parts

  function Cell(t: Time?): set<object> {
    if t == null then {} else {t}
  }

  lemma WorkloadsWorth(ws: seq<Workload>) returns (vs: seq<WorkloadValue>, within: set<object>)
    ensures WorkloadsAre(ws, vs, within)
  {
    vs, within := [], {};
    if ws != [] {
      var w := ws[|ws| - 1];
      var front, cells := WorkloadsWorth(ws[..|ws| - 1]);
      vs := front + [WorkloadValue(w.id, w.name, w.image, w.runtime, w.source, TimeWorth(w.lastSeenAt))];
      within := cells + Cell(w.lastSeenAt);
    }
  }

  lemma StatusesWorth(m: map<string, Status>) returns (v: map<string, StatusValue>, within: set<object>)
    ensures StatusesAre(m, v, within)
  {
    within := set k | k in m && m[k].observedAt != null :: m[k].observedAt;
    v := map k | k in m :: StatusValue(m[k].source, m[k].enabled, m[k].state, TimeWorth(m[k].observedAt), m[k].error);
  }

  lemma HostWorth(h: Host) returns (v: HostValue, within: set<object>)
    ensures HostIs(h, v, within)
  {
    var ws, own1 := WorkloadsWorth(h.workloads.items);
    var statuses, own2 := StatusesWorth(h.sourceStatus.entries);
    within := own1 + own2 + Cell(h.lastObservedAt) + {h.labels, h.workloads, h.sourceStatus, h.errors};
    v := HostValue(h.id, h.fqdn, h.labels.entries, ws, TimeWorth(h.lastObservedAt), h.status, statuses, h.errors.items);
    forall i | 0 <= i < |ws| ensures WorkloadIs(h.workloads.items[i], ws[i], within) {
      assert WorkloadIs(h.workloads.items[i], ws[i], own1);
    }
    forall k | k in statuses ensures StatusIs(h.sourceStatus.entries[k], statuses[k], within) {
      assert StatusIs(h.sourceStatus.entries[k], statuses[k], own2);
    }
  }

  lemma HostsWorth(hs: seq<Host>) returns (vs: seq<HostValue>, within: set<object>)
    ensures HostsAre(hs, vs, within)
  {
    vs, within := [], {};
    if hs != [] {
      var n := |hs| - 1;
      var front, own1 := HostsWorth(hs[..n]);
      var last, own2 := HostWorth(hs[n]);
      vs, within := front + [last], own1 + own2;
      OneMoreHost(hs[..n], front, own1, hs[n], last, own2);
      assert hs[..n] + [hs[n]] == hs;
    }
  }

  lemma SnapshotWorth(s: Snapshot) returns (v: SnapshotValue, within: set<object>)
    ensures SnapshotIs(s, v, within)
  {
    var m := s.metadata;
    var hosts, own := HostsWorth(s.hosts.items);
    within := own + {s.hosts} + Cell(m.lastSyncAt) + Cell(m.lastSuccessfulSyncAt) + Cell(m.lastFullSyncAt)
              + Cell(m.lastPartialSyncAt);
    v := SnapshotValue(hosts, MetadataValue(
      m.isPartial, m.totalHosts, m.failedHosts, TimeWorth(m.lastSyncAt), TimeWorth(m.lastSuccessfulSyncAt),
      TimeWorth(m.lastFullSyncAt), TimeWorth(m.lastPartialSyncAt), m.durationMs));
    forall i | 0 <= i < |hosts| ensures HostIs(s.hosts.items[i], hosts[i], within) {
      HostIsWithinMore(s.hosts.items[i], hosts[i], own, within);
    }
  }

  /** `PutBack` takes one of the snapshots that the client has put or been given before, in whatever
      state its objects are by then. */
  datatype Action = PutSnapshot(v: SnapshotValue) | PutBack(pick: nat) | TakeSnapshot | TakeHost(id: string) | Scribble

  /** The value of the last snapshot put, or what was there before; `worths[i]` is what the objects
      put back by action i were worth then. */
  function LastPut(actions: seq<Action>, worths: seq<SnapshotValue>, before: SnapshotValue): SnapshotValue
    requires |worths| == |actions|
  {
    if actions == [] then before
    else
      var n := |actions| - 1;
      match actions[n]
      case PutSnapshot(v) => v
      case PutBack(_) => worths[n]
      case _ => LastPut(actions[..n], worths[..n], before)
  }

  lemma LastPutGrows(actions: seq<Action>, worths: seq<SnapshotValue>, before: SnapshotValue, i: nat,
                     worth: SnapshotValue)
    requires i < |actions| && |worths| == i
    ensures LastPut(actions[..i + 1], worths + [worth], before) ==
            match actions[i]
            case PutSnapshot(v) => v
            case PutBack(_) => worth
            case _ => LastPut(actions[..i], worths, before)
  {
    assert actions[..i + 1][..i] == actions[..i] && (worths + [worth])[..i] == worths;
  }

  /** Changes any fields of any objects in the set; callers learn nothing about how. */
  method ScribbleOn(ghost objects: set<object>)
    modifies objects
  {
  }

  /** Puts, takes and arbitrary changes to everything passed in or handed out, in any order, and puts
      of what has been changed and shared that way: the store holds the worth of what was last put,
      and its index still agrees with it. */
  method RunClient(store: Store, actions: seq<Action>) returns (ghost worths: seq<SnapshotValue>)
    requires store.Valid()
    modifies store
    ensures |worths| == |actions|
    ensures store.Valid() && store.contents == LastPut(actions, worths, old(store.contents))
  {
    var s, own := MakeSnapshot(EMPTY_SNAPSHOT);
    var hands := [s];
    ghost var held: set<object> := own;
    worths := [];
    for i := 0 to |actions|
      invariant |worths| == i && store.Valid()
      invariant store.contents == LastPut(actions[..i], worths, old(store.contents))
      invariant hands != [] && fresh(held) && store !in held && held !! store.repr
    {
      ghost var worth := EMPTY_SNAPSHOT;
      match actions[i] {
        case PutSnapshot(v) =>
          s, own := MakeSnapshot(v);
          store.Replace(s, v, own);
          held, hands := held + own, hands + [s];
        case PutBack(pick) =>
          s := hands[pick % |hands|];
          ghost var cells;
          worth, cells := SnapshotWorth(s);
          store.Replace(s, worth, cells);
        case TakeSnapshot =>
          s, own := store.GetSnapshot();
          held, hands := held + own, hands + [s];
        case TakeHost(id) =>
          var _, cells := store.GetHost(id);
          held := held + cells;
        case Scribble =>
          ScribbleOn(held);
      }
      LastPutGrows(actions, worths, old(store.contents), i, worth);
      worths := worths + [worth];
    }
    assert actions[..|actions|] == actions;
  }
}
