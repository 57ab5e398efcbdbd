/** One detection cycle as a pure fold. The fold keeps a ledger: the cooldown map, how much of the
    outside world was used, and an entry for everything that happened, in order. What a cycle
    reports is counted off the entries. */
module DetectionCycle {
  import opened Text
  import opened Wrappers
  import opened DriftDomain
  import opened Detectors
  import opened Cooldown

  // Finding the actual host of a desired one

  /** The last host with this normalised id. */
  function LastWithId(hosts: seq<ActualHost>, id: string): Option<ActualHost> {
    Last(hosts, (h: ActualHost) => Normalize(h.hostId) == id)
  }

  function LastWithFqdn(hosts: seq<ActualHost>, fqdn: string): Option<ActualHost> {
    Last(hosts, (h: ActualHost) => Normalize(h.fqdn) == fqdn)
  }

  /** By id if the desired host has one that matches, otherwise by FQDN. */
  function FindHost(desired: DesiredHost, hosts: seq<ActualHost>): Option<ActualHost> {
    var id, fqdn := Normalize(desired.hostId), Normalize(desired.fqdn);
    if id != "" && LastWithId(hosts, id).Some? then LastWithId(hosts, id)
    else if fqdn != "" then LastWithFqdn(hosts, fqdn)
    else None
  }

  // The outside world

  /** The k-th reading of the clock and the outcome of the k-th send. */
  datatype World = World(clock: nat -> int, accepts: nat -> bool)

  datatype Config = Config(registry: Registry, components: seq<string>, cooldown: int)

  datatype Entry =
    | HostMissing(hostId: string, fqdn: string)
    | HostCompared
    | DetectorMissing(component: string)
    | DataMissing(component: string, fqdn: string, reason: string)
    | CommandMissing(component: string)
    | Suppressed(command: Command, now: int)
    | SendFailed(command: Command, now: int)
    | SendAccepted(command: Command, now: int)

  datatype Ledger = Ledger(lastSent: map<string, int>, readings: nat, calls: seq<Command>, entries: seq<Entry>)

  function Note(l: Ledger, e: Entry): Ledger {
    l.(entries := l.entries + [e])
  }

  function KeyOf(command: Command): string {
    BuildKey(command.component, command.fqdn)
  }

  function Dispatch(w: World, cooldown: int, l: Ledger, command: Command): Ledger {
    var now := w.clock(l.readings);
    var read := l.(readings := l.readings + 1);
    if !MaySend(l.lastSent, KeyOf(command), now, cooldown) then Note(read, Suppressed(command, now))
    else
      var called := read.(calls := l.calls + [command]);
      if !w.accepts(|l.calls|) then Note(called, SendFailed(command, now))
      else Note(called.(lastSent := l.lastSent[KeyOf(command) := now]), SendAccepted(command, now))
  }

  function DispatchEntry(w: World, cooldown: int, l: Ledger, command: Command): Entry {
    var now := w.clock(l.readings);
    if !MaySend(l.lastSent, KeyOf(command), now, cooldown) then Suppressed(command, now)
    else if w.accepts(|l.calls|) then SendAccepted(command, now)
    else SendFailed(command, now)
  }

  /** A command leaves one entry, and at most one call. */
  lemma DispatchLeavesOneEntry(w: World, cooldown: int, l: Ledger, command: Command)
    ensures var m := Dispatch(w, cooldown, l, command);
            && m.entries == l.entries + [DispatchEntry(w, cooldown, l, command)]
            && (m.calls == l.calls || m.calls == l.calls + [command])
  {
  }

  function Settle(w: World, cooldown: int, l: Ledger, v: Verdict): Ledger {
    match v
    case NoDetector(c) => Note(l, DetectorMissing(c))
    case NotApplicable => l
    case NoData(c, fqdn, reason) => Note(l, DataMissing(c, fqdn, reason))
    case InSync => l
    case NoCommand(c) => Note(l, CommandMissing(c))
    case Drifted(command) => Dispatch(w, cooldown, l, command)
  }

  function SettleAll(w: World, cooldown: int, l: Ledger, vs: seq<Verdict>): Ledger {
    if vs == [] then l else Settle(w, cooldown, SettleAll(w, cooldown, l, vs[..|vs| - 1]), vs[|vs| - 1])
  }

  function Verdicts(cfg: Config, cycleId: string, desired: DesiredHost, actual: ActualHost): (vs: seq<Verdict>)
    ensures |vs| == |cfg.components|
  {
    seq(|cfg.components|, i requires 0 <= i < |cfg.components| =>
      Judge(cfg.registry, cycleId, desired, actual, cfg.components[i]))
  }

  function VisitHost(cfg: Config, w: World, cycleId: string, actual: seq<ActualHost>, l: Ledger,
                     desired: DesiredHost): Ledger {
    match FindHost(desired, actual)
    case None => Note(l, HostMissing(desired.hostId, desired.fqdn))
    case Some(host) => SettleAll(w, cfg.cooldown, Note(l, HostCompared), Verdicts(cfg, cycleId, desired, host))
  }

  function VisitAll(cfg: Config, w: World, cycleId: string, actual: seq<ActualHost>, l: Ledger,
                    desired: seq<DesiredHost>): Ledger {
    if desired == [] then l
    else VisitHost(cfg, w, cycleId, actual, VisitAll(cfg, w, cycleId, actual, l, desired[..|desired| - 1]),
                   desired[|desired| - 1])
  }

  lemma OneMoreVisit(cfg: Config, w: World, cycleId: string, actual: seq<ActualHost>, l: Ledger,
                     desired: seq<DesiredHost>, i: nat)
    requires i < |desired|
    ensures VisitAll(cfg, w, cycleId, actual, l, desired[..i + 1]) ==
            VisitHost(cfg, w, cycleId, actual, VisitAll(cfg, w, cycleId, actual, l, desired[..i]), desired[i])
  {
    assert desired[..i + 1][..i] == desired[..i];
  }

  // Counting entries

  function Count(es: seq<Entry>, p: Entry -> bool): nat {
    if es == [] then 0 else Count(es[..|es| - 1], p) + if p(es[|es| - 1]) then 1 else 0
  }

  lemma CountAppend(es: seq<Entry>, e: Entry, p: Entry -> bool)
    ensures Count(es + [e], p) == Count(es, p) + if p(e) then 1 else 0
  {
    assert (es + [e])[..|es|] == es;
  }

  /** Whether the host being compared has already had a detector without data. */
  function DataMissingYet(es: seq<Entry>): bool {
    es != [] && !es[|es| - 1].HostMissing? && !es[|es| - 1].HostCompared?
    && (es[|es| - 1].DataMissing? || DataMissingYet(es[..|es| - 1]))
  }

  /** Compared hosts with at least one detector without data. */
  function HostsWithoutData(es: seq<Entry>): nat {
    if es == [] then 0
    else
      var front := es[..|es| - 1];
      HostsWithoutData(front) + if es[|es| - 1].DataMissing? && !DataMissingYet(front) then 1 else 0
  }

  datatype Stats = Stats(
    desiredHosts: nat, comparedHosts: nat, skippedNoActualHost: nat, skippedNoActualData: nat,
    driftsFound: nat, reconcileSent: nat, reconcileSuppressed: nat, errors: nat)

  const IS_COMPARED := (e: Entry) => e.HostCompared?
  const IS_HOST_MISSING := (e: Entry) => e.HostMissing?
  const IS_DATA_MISSING := (e: Entry) => e.DataMissing?
  const IS_DRIFT := (e: Entry) => e.CommandMissing? || e.Suppressed? || e.SendFailed? || e.SendAccepted?
  const IS_ACCEPTED := (e: Entry) => e.SendAccepted?
  const IS_SUPPRESSED := (e: Entry) => e.Suppressed?
  const IS_FAILED := (e: Entry) => e.SendFailed?
  const IS_COMMAND_MISSING := (e: Entry) => e.CommandMissing?
  const IS_ERROR := (e: Entry) => e.DetectorMissing? || e.CommandMissing? || e.SendFailed?

  function Tally(desiredHosts: nat, es: seq<Entry>): Stats {
    Stats(desiredHosts, Count(es, IS_COMPARED), Count(es, IS_HOST_MISSING), HostsWithoutData(es),
          Count(es, IS_DRIFT), Count(es, IS_ACCEPTED), Count(es, IS_SUPPRESSED), Count(es, IS_ERROR))
  }

  datatype Warning =
    | InventoryPartial
    | ParserNotReady(reason: string)
    | ActualHostMissing(hostId: string, fqdn: string)
    | DetectionSkipped(component: string, fqdn: string, reason: string)

  datatype ErrorMessage =
    | InventoryFetchFailed
    | ParserFetchFailed
    | DetectorNotFound(component: string)
    | DriftWithoutCommand(component: string)
    | ReconcileSendFailed(component: string, fqdn: string)

  function WarningFor(e: Entry): seq<Warning> {
    match e
    case HostMissing(id, fqdn) => [ActualHostMissing(id, fqdn)]
    case DataMissing(c, fqdn, reason) => if Trim(reason) != "" then [DetectionSkipped(c, fqdn, reason)] else []
    case _ => []
  }

  function WarningsFor(es: seq<Entry>): seq<Warning> {
    if es == [] then [] else WarningsFor(es[..|es| - 1]) + WarningFor(es[|es| - 1])
  }

  function ErrorFor(e: Entry): seq<ErrorMessage> {
    match e
    case DetectorMissing(c) => [DetectorNotFound(c)]
    case CommandMissing(c) => [DriftWithoutCommand(c)]
    case SendFailed(command, _) => [ReconcileSendFailed(command.component, command.fqdn)]
    case _ => []
  }

  function ErrorsFor(es: seq<Entry>): seq<ErrorMessage> {
    if es == [] then [] else ErrorsFor(es[..|es| - 1]) + ErrorFor(es[|es| - 1])
  }

  datatype CycleResult = CycleResult(
    cycleId: string, trigger: string, partial: bool, inventoryMarkedPartial: bool, parserReady: bool,
    stats: Stats, warnings: seq<Warning>, errorMessages: seq<ErrorMessage>)

  function MetadataWarnings(inventory: ActualState, parser: DesiredState): seq<Warning> {
    (if inventory.isPartial then [InventoryPartial] else [])
    + if parser.ready then []
      else [ParserNotReady(if Trim(parser.readyReason) != "" then parser.readyReason else "")]
  }

  /** What a cycle reports once both fetches have succeeded and `es` has happened. */
  function Report(cycleId: string, trigger: string, inventory: ActualState, parser: DesiredState,
                  es: seq<Entry>): CycleResult {
    CycleResult(
      cycleId, trigger,
      inventory.isPartial || !parser.ready || Count(es, IS_HOST_MISSING) > 0 || Count(es, IS_DATA_MISSING) > 0,
      inventory.isPartial, parser.ready, Tally(|parser.hosts|, es),
      MetadataWarnings(inventory, parser) + WarningsFor(es), ErrorsFor(es))
  }

  function FailedReport(cycleId: string, trigger: string, message: ErrorMessage): CycleResult {
    CycleResult(cycleId, trigger, false, false, false, Stats(0, 0, 0, 0, 0, 0, 0, 1), [], [message])
  }

  // What the counters conserve

  function DriftVerdicts(vs: seq<Verdict>): nat {
    if vs == [] then 0
    else DriftVerdicts(vs[..|vs| - 1]) + if vs[|vs| - 1].Drifted? || vs[|vs| - 1].NoCommand? then 1 else 0
  }

  /** Pairs of a compared host and a component that have drifted. */
  function DriftedPairs(cfg: Config, cycleId: string, actual: seq<ActualHost>, desired: seq<DesiredHost>): nat {
    if desired == [] then 0
    else
      DriftedPairs(cfg, cycleId, actual, desired[..|desired| - 1])
      + match FindHost(desired[|desired| - 1], actual)
        case None => 0
        case Some(host) => DriftVerdicts(Verdicts(cfg, cycleId, desired[|desired| - 1], host))
  }

  predicate AnyWithoutData(vs: seq<Verdict>) {
    exists v :: v in vs && v.NoData?
  }

  /** Compared hosts for which some detector has no data. */
  function BlindHosts(cfg: Config, cycleId: string, actual: seq<ActualHost>, desired: seq<DesiredHost>): nat {
    if desired == [] then 0
    else
      BlindHosts(cfg, cycleId, actual, desired[..|desired| - 1])
      + match FindHost(desired[|desired| - 1], actual)
        case None => 0
        case Some(host) =>
          if AnyWithoutData(Verdicts(cfg, cycleId, desired[|desired| - 1], host)) then 1 else 0
  }

  function UnmatchedHosts(actual: seq<ActualHost>, desired: seq<DesiredHost>): nat {
    if desired == [] then 0
    else UnmatchedHosts(actual, desired[..|desired| - 1])
         + if FindHost(desired[|desired| - 1], actual).None? then 1 else 0
  }

  predicate SameHostCounts(es: seq<Entry>, fs: seq<Entry>) {
    Count(es, IS_COMPARED) == Count(fs, IS_COMPARED) && Count(es, IS_HOST_MISSING) == Count(fs, IS_HOST_MISSING)
  }

  lemma NoteCounts(l: Ledger, e: Entry)
    ensures var es, fs := l.entries, Note(l, e).entries;
            && Count(fs, IS_COMPARED) == Count(es, IS_COMPARED) + (if e.HostCompared? then 1 else 0)
            && Count(fs, IS_HOST_MISSING) == Count(es, IS_HOST_MISSING) + (if e.HostMissing? then 1 else 0)
            && Count(fs, IS_DATA_MISSING) == Count(es, IS_DATA_MISSING) + (if e.DataMissing? then 1 else 0)
            && Count(fs, IS_DRIFT) == Count(es, IS_DRIFT) + (if IS_DRIFT(e) then 1 else 0)
            && HostsWithoutData(fs) == HostsWithoutData(es) + (if e.DataMissing? && !DataMissingYet(es) then 1 else 0)
            && (DataMissingYet(fs) <==> e.DataMissing? || (!e.HostMissing? && !e.HostCompared? && DataMissingYet(es)))
  {
    CountAppend(l.entries, e, IS_COMPARED);
    CountAppend(l.entries, e, IS_HOST_MISSING);
    CountAppend(l.entries, e, IS_DATA_MISSING);
    CountAppend(l.entries, e, IS_DRIFT);
    assert (l.entries + [e])[..|l.entries|] == l.entries;
  }

  /** Each verdict adds at most one entry. */
  lemma SettleNotes(w: World, cooldown: int, l: Ledger, v: Verdict) returns (e: Entry)
    ensures var m := Settle(w, cooldown, l, v);
            if v == NotApplicable || v == InSync then m == l
            else m.entries == Note(l, e).entries
                 && !e.HostCompared? && !e.HostMissing?
                 && (e.DataMissing? <==> v.NoData?) && (IS_DRIFT(e) <==> v.Drifted? || v.NoCommand?)
                 && (e.DetectorMissing? <==> v.NoDetector?) && (e.CommandMissing? <==> v.NoCommand?)
  {
    var m := Settle(w, cooldown, l, v);
    e := if m.entries == l.entries then HostCompared else m.entries[|m.entries| - 1];
  }

  lemma AnyWithoutDataGrows(vs: seq<Verdict>)
    requires vs != []
    ensures AnyWithoutData(vs) <==> AnyWithoutData(vs[..|vs| - 1]) || vs[|vs| - 1].NoData?
  {
    assert forall v :: v in vs <==> v in vs[..|vs| - 1] || v == vs[|vs| - 1];
  }

  /** One verdict's share. */
  lemma SettleCounts(w: World, cooldown: int, l: Ledger, v: Verdict)
    ensures var es, fs := l.entries, Settle(w, cooldown, l, v).entries;
            && SameHostCounts(es, fs)
            && Count(fs, IS_DRIFT) == Count(es, IS_DRIFT) + (if v.Drifted? || v.NoCommand? then 1 else 0)
            && Count(fs, IS_DATA_MISSING) == Count(es, IS_DATA_MISSING) + (if v.NoData? then 1 else 0)
            && DataMissingYet(fs) == (DataMissingYet(es) || v.NoData?)
            && HostsWithoutData(fs) == HostsWithoutData(es) + (if v.NoData? && !DataMissingYet(es) then 1 else 0)
  {
    var e := SettleNotes(w, cooldown, l, v);
    NoteCounts(l, e);
  }

  lemma {:induction false} SettleAllCounts(w: World, cooldown: int, l: Ledger, vs: seq<Verdict>)
    ensures var es, fs := l.entries, SettleAll(w, cooldown, l, vs).entries;
            && SameHostCounts(es, fs)
            && Count(fs, IS_DRIFT) == Count(es, IS_DRIFT) + DriftVerdicts(vs)
            && (Count(fs, IS_DATA_MISSING) > 0 <==> Count(es, IS_DATA_MISSING) > 0 || AnyWithoutData(vs))
            && (DataMissingYet(fs) <==> DataMissingYet(es) || AnyWithoutData(vs))
            && HostsWithoutData(fs)
               == HostsWithoutData(es) + (if !DataMissingYet(es) && AnyWithoutData(vs) then 1 else 0)
  {
    if vs != [] {
      var front, last := vs[..|vs| - 1], vs[|vs| - 1];
      SettleAllCounts(w, cooldown, l, front);
      SettleCounts(w, cooldown, SettleAll(w, cooldown, l, front), last);
      AnyWithoutDataGrows(vs);
    }
  }

  /** Where the counters come from: hosts are compared or missing, and each drifted pair, each host
      without data and each unmatched host is counted once. */
  lemma {:induction false} CountersAreExact(cfg: Config, w: World, cycleId: string, actual: seq<ActualHost>,
                                            start: Ledger, desired: seq<DesiredHost>)
    requires start.entries == []
    ensures var es := VisitAll(cfg, w, cycleId, actual, start, desired).entries;
            && Count(es, IS_COMPARED) + Count(es, IS_HOST_MISSING) == |desired|
            && Count(es, IS_HOST_MISSING) == UnmatchedHosts(actual, desired)
            && Count(es, IS_DRIFT) == DriftedPairs(cfg, cycleId, actual, desired)
            && HostsWithoutData(es) == BlindHosts(cfg, cycleId, actual, desired)
            && (Count(es, IS_DATA_MISSING) > 0 <==> BlindHosts(cfg, cycleId, actual, desired) > 0)
  {
    if desired != [] {
      var front, last := desired[..|desired| - 1], desired[|desired| - 1];
      CountersAreExact(cfg, w, cycleId, actual, start, front);
      VisitCounts(cfg, w, cycleId, actual, VisitAll(cfg, w, cycleId, actual, start, front), last);
      OneHost(cfg, cycleId, actual, desired);
    }
  }

  /** The share of the last host. */
  lemma OneHost(cfg: Config, cycleId: string, actual: seq<ActualHost>, desired: seq<DesiredHost>)
    requires desired != []
    ensures var front, d := desired[..|desired| - 1], desired[|desired| - 1];
            && UnmatchedHosts(actual, desired) == UnmatchedHosts(actual, front) + UnmatchedHosts(actual, [d])
            && DriftedPairs(cfg, cycleId, actual, desired)
                 == DriftedPairs(cfg, cycleId, actual, front) + DriftedPairs(cfg, cycleId, actual, [d])
            && BlindHosts(cfg, cycleId, actual, desired)
                 == BlindHosts(cfg, cycleId, actual, front) + BlindHosts(cfg, cycleId, actual, [d])
  {
    var d := desired[|desired| - 1];
    assert [d][..0] == [];
  }

  /** What one host adds to the counters. */
  lemma VisitCounts(cfg: Config, w: World, cycleId: string, actual: seq<ActualHost>, l: Ledger, d: DesiredHost)
    ensures var es, fs := l.entries, VisitHost(cfg, w, cycleId, actual, l, d).entries;
            && Count(fs, IS_HOST_MISSING) == Count(es, IS_HOST_MISSING) + UnmatchedHosts(actual, [d])
            && Count(fs, IS_COMPARED) == Count(es, IS_COMPARED) + 1 - UnmatchedHosts(actual, [d])
            && Count(fs, IS_DRIFT) == Count(es, IS_DRIFT) + DriftedPairs(cfg, cycleId, actual, [d])
            && HostsWithoutData(fs) == HostsWithoutData(es) + BlindHosts(cfg, cycleId, actual, [d])
            && (Count(fs, IS_DATA_MISSING) > 0
                <==> Count(es, IS_DATA_MISSING) > 0 || BlindHosts(cfg, cycleId, actual, [d]) > 0)
  {
    match FindHost(d, actual)
    case None => NoteCounts(l, HostMissing(d.hostId, d.fqdn));
    case Some(host) =>
      NoteCounts(l, HostCompared);
      SettleAllCounts(w, cfg.cooldown, Note(l, HostCompared), Verdicts(cfg, cycleId, d, host));
  }

  lemma {:induction false} DriftEntriesAddUp(es: seq<Entry>)
    ensures Count(es, IS_DRIFT)
         == Count(es, IS_ACCEPTED) + Count(es, IS_SUPPRESSED) + Count(es, IS_FAILED) + Count(es, IS_COMMAND_MISSING)
    ensures Count(es, IS_ERROR) == |ErrorsFor(es)|
  {
    if es != [] { DriftEntriesAddUp(es[..|es| - 1]); }
  }

  /** The conservation laws of one cycle, and when exactly it calls itself partial. */
  lemma CountersConserve(cfg: Config, w: World, cycleId: string, trigger: string, start: Ledger,
                         inventory: ActualState, parser: DesiredState)
    requires start.entries == []
    ensures var l := VisitAll(cfg, w, cycleId, inventory.hosts, start, parser.hosts);
            var r := Report(cycleId, trigger, inventory, parser, l.entries);
            && r.stats.desiredHosts == r.stats.comparedHosts + r.stats.skippedNoActualHost
            && r.stats.driftsFound == DriftedPairs(cfg, cycleId, inventory.hosts, parser.hosts)
            && r.stats.driftsFound == r.stats.reconcileSent + r.stats.reconcileSuppressed
                                      + Count(l.entries, IS_FAILED) + Count(l.entries, IS_COMMAND_MISSING)
            && r.stats.errors == |r.errorMessages|
            && (r.partial <==> inventory.isPartial || !parser.ready
                               || (exists d :: d in parser.hosts && FindHost(d, inventory.hosts).None?)
                               || r.stats.skippedNoActualData > 0)
            && r.stats.skippedNoActualData == BlindHosts(cfg, cycleId, inventory.hosts, parser.hosts)
  {
    CountersAreExact(cfg, w, cycleId, inventory.hosts, start, parser.hosts);
    DriftEntriesAddUp(VisitAll(cfg, w, cycleId, inventory.hosts, start, parser.hosts).entries);
    UnmatchedIfAny(inventory.hosts, parser.hosts);
  }

  lemma {:induction false} UnmatchedIfAny(actual: seq<ActualHost>, desired: seq<DesiredHost>)
    ensures UnmatchedHosts(actual, desired) > 0 <==> exists d :: d in desired && FindHost(d, actual).None?
  {
    if desired != [] {
      var front, last := desired[..|desired| - 1], desired[|desired| - 1];
      UnmatchedIfAny(actual, front);
      assert forall d :: d in desired <==> d in front || d == last;
    }
  }
}
