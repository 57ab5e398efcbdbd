/** The service that runs detection cycles, and its proof against the fold. */
module DetectionService {
  import opened Counting
  import opened Text
  import opened Wrappers
  import opened DriftDomain
  import opened Detectors
  import Cooldown
  import opened DetectionCycle

  // Indexing the actual hosts

  ghost predicate IndexesIds(byId: map<string, ActualHost>, hosts: seq<ActualHost>) {
    forall id :: (id in byId <==> id != "" && LastWithId(hosts, id).Some?)
                 && (id in byId ==> LastWithId(hosts, id) == Some(byId[id]))
  }

  ghost predicate IndexesFqdns(byFqdn: map<string, ActualHost>, hosts: seq<ActualHost>) {
    forall fqdn :: (fqdn in byFqdn <==> fqdn != "" && LastWithFqdn(hosts, fqdn).Some?)
                   && (fqdn in byFqdn ==> LastWithFqdn(hosts, fqdn) == Some(byFqdn[fqdn]))
  }

  lemma IdIndexGrows(byId: map<string, ActualHost>, hosts: seq<ActualHost>, host: ActualHost)
    requires IndexesIds(byId, hosts)
    ensures var id := Normalize(host.hostId);
            IndexesIds(if id != "" then byId[id := host] else byId, hosts + [host])
  {
    assert (hosts + [host])[..|hosts|] == hosts;
  }

  lemma FqdnIndexGrows(byFqdn: map<string, ActualHost>, hosts: seq<ActualHost>, host: ActualHost)
    requires IndexesFqdns(byFqdn, hosts)
    ensures var fqdn := Normalize(host.fqdn);
            IndexesFqdns(if fqdn != "" then byFqdn[fqdn := host] else byFqdn, hosts + [host])
  {
    assert (hosts + [host])[..|hosts|] == hosts;
  }

  method IndexActualHosts(hosts: seq<ActualHost>)
    returns (byId: map<string, ActualHost>, byFqdn: map<string, ActualHost>)
    ensures IndexesIds(byId, hosts) && IndexesFqdns(byFqdn, hosts)
  {
    byId, byFqdn := map[], map[];
    for i := 0 to |hosts|
      invariant IndexesIds(byId, hosts[..i])
      invariant IndexesFqdns(byFqdn, hosts[..i])
    {
      assert hosts[..i + 1] == hosts[..i] + [hosts[i]];
      IdIndexGrows(byId, hosts[..i], hosts[i]);
      FqdnIndexGrows(byFqdn, hosts[..i], hosts[i]);
      var id := Normalize(hosts[i].hostId);
      if id != "" { byId := byId[id := hosts[i]]; }
      var fqdn := Normalize(hosts[i].fqdn);
      if fqdn != "" { byFqdn := byFqdn[fqdn := hosts[i]]; }
    }
    assert hosts[..|hosts|] == hosts;
  }

  function LookupActualHost(desired: DesiredHost, byId: map<string, ActualHost>,
                            byFqdn: map<string, ActualHost>): Option<ActualHost> {
    var id, fqdn := Normalize(desired.hostId), Normalize(desired.fqdn);
    if id != "" && id in byId then Some(byId[id])
    else if fqdn != "" && fqdn in byFqdn then Some(byFqdn[fqdn])
    else None
  }

  /** Looking up in the two maps is searching the list. */
  lemma LookupIsSearch(desired: DesiredHost, hosts: seq<ActualHost>, byId: map<string, ActualHost>,
                       byFqdn: map<string, ActualHost>)
    requires IndexesIds(byId, hosts) && IndexesFqdns(byFqdn, hosts)
    ensures LookupActualHost(desired, byId, byFqdn) == FindHost(desired, hosts)
  {
    var id, fqdn := Normalize(desired.hostId), Normalize(desired.fqdn);
    assert id in byId <==> id != "" && LastWithId(hosts, id).Some?;
    assert fqdn in byFqdn <==> fqdn != "" && LastWithFqdn(hosts, fqdn).Some?;
  }

  method FindActualHost(desired: DesiredHost, ghost hosts: seq<ActualHost>, byId: map<string, ActualHost>,
                        byFqdn: map<string, ActualHost>) returns (found: Option<ActualHost>)
    requires IndexesIds(byId, hosts) && IndexesFqdns(byFqdn, hosts)
    ensures found == FindHost(desired, hosts)
  {
    LookupIsSearch(desired, hosts, byId, byFqdn);
    found := LookupActualHost(desired, byId, byFqdn);
  }

  // What one more entry does to the report

  /** The fetched states and the names of a cycle, which its report repeats. */
  datatype Context = Context(cycleId: string, trigger: string, inventory: ActualState, parser: DesiredState)

  function ReportOf(c: Context, l: Ledger): CycleResult {
    Report(c.cycleId, c.trigger, c.inventory, c.parser, l.entries)
  }

  /** The report after one more entry; `seen` is whether the host has already lacked data. */
  function Extend(r: CycleResult, e: Entry, seen: bool): CycleResult {
    r.(partial := r.partial || e.HostMissing? || e.DataMissing?,
       stats := ExtendStats(r.stats, e, seen),
       warnings := r.warnings + WarningFor(e),
       errorMessages := r.errorMessages + ErrorFor(e))
  }

  function ExtendStats(s: Stats, e: Entry, seen: bool): Stats {
    match e
    case HostCompared => s.(comparedHosts := s.comparedHosts + 1)
    case HostMissing(_, _) => s.(skippedNoActualHost := s.skippedNoActualHost + 1)
    case DataMissing(_, _, _) => if seen then s else s.(skippedNoActualData := s.skippedNoActualData + 1)
    case DetectorMissing(_) => s.(errors := s.errors + 1)
    case CommandMissing(_) => s.(driftsFound := s.driftsFound + 1, errors := s.errors + 1)
    case Suppressed(_, _) => s.(driftsFound := s.driftsFound + 1, reconcileSuppressed := s.reconcileSuppressed + 1)
    case SendFailed(_, _) => s.(driftsFound := s.driftsFound + 1, errors := s.errors + 1)
    case SendAccepted(_, _) => s.(driftsFound := s.driftsFound + 1, reconcileSent := s.reconcileSent + 1)
  }

  lemma TallyExtends(desiredHosts: nat, l: Ledger, e: Entry)
    ensures Tally(desiredHosts, Note(l, e).entries)
         == ExtendStats(Tally(desiredHosts, l.entries), e, DataMissingYet(l.entries))
  {
    NoteCounts(l, e);
    CountAppend(l.entries, e, IS_ACCEPTED);
    CountAppend(l.entries, e, IS_SUPPRESSED);
    CountAppend(l.entries, e, IS_ERROR);
  }

  lemma MessagesExtend(l: Ledger, e: Entry)
    ensures WarningsFor(Note(l, e).entries) == WarningsFor(l.entries) + WarningFor(e)
    ensures ErrorsFor(Note(l, e).entries) == ErrorsFor(l.entries) + ErrorFor(e)
  {
    assert (l.entries + [e])[..|l.entries|] == l.entries;
  }

  lemma ReportExtends(c: Context, l: Ledger, e: Entry)
    ensures ReportOf(c, Note(l, e)) == Extend(ReportOf(c, l), e, DataMissingYet(l.entries))
    ensures DataMissingYet(Note(l, e).entries)
            <==> e.DataMissing? || (!e.HostMissing? && !e.HostCompared? && DataMissingYet(l.entries))
  {
    NoteCounts(l, e);
    TallyExtends(|c.parser.hosts|, l, e);
    MessagesExtend(l, e);
    ConcatIsAssociative(MetadataWarnings(c.inventory, c.parser), WarningsFor(l.entries), WarningFor(e));
  }

  /** The entry that a verdict leads to, if any. */
  function SettleEntry(w: World, cooldown: int, l: Ledger, v: Verdict): Option<Entry> {
    match v
    case NotApplicable => None
    case InSync => None
    case NoDetector(c) => Some(DetectorMissing(c))
    case NoData(c, fqdn, reason) => Some(DataMissing(c, fqdn, reason))
    case NoCommand(c) => Some(CommandMissing(c))
    case Drifted(command) => Some(DispatchEntry(w, cooldown, l, command))
  }

  function ExtendIf(r: CycleResult, e: Option<Entry>, seen: bool): CycleResult {
    if e.None? then r else Extend(r, e.value, seen)
  }

  lemma ReportAfterSettle(c: Context, w: World, cooldown: int, l: Ledger, v: Verdict)
    ensures var m, seen := Settle(w, cooldown, l, v), DataMissingYet(l.entries);
            && ReportOf(c, m) == ExtendIf(ReportOf(c, l), SettleEntry(w, cooldown, l, v), seen)
            && DataMissingYet(m.entries) == (seen || v.NoData?)
  {
    var m, e := Settle(w, cooldown, l, v), SettleEntry(w, cooldown, l, v);
    if e.Some? {
      assert m.entries == Note(l, e.value).entries;
      ReportExtends(c, l, e.value);
    }
  }

  lemma OneMoreVerdict(w: World, cooldown: int, l: Ledger, vs: seq<Verdict>, j: nat)
    requires j < |vs|
    ensures SettleAll(w, cooldown, l, vs[..j + 1]) == Settle(w, cooldown, SettleAll(w, cooldown, l, vs[..j]), vs[j])
  {
    assert vs[..j + 1][..j] == vs[..j];
  }

  // The service

  /** The clock and the reconciler client, with what has been asked of them. */
  class Environment {
    const world: World
    var readings: nat
    var calls: seq<Command>

    constructor (world: World)
      ensures this.world == world && readings == 0 && calls == []
    {
      this.world, readings, calls := world, 0, [];
    }

    method Now() returns (now: int)
      modifies this`readings
      ensures now == world.clock(old(readings)) && readings == old(readings) + 1
    {
      now := world.clock(readings);
      readings := readings + 1;
    }

    method SendReconcile(command: Command) returns (accepted: bool)
      modifies this`calls
      ensures accepted == world.accepts(|old(calls)|) && calls == old(calls) + [command]
    {
      accepted := world.accepts(|calls|);
      calls := calls + [command];
    }
  }

  datatype CycleError = NoError | CycleAlreadyRunning | InventoryError | ParserError

  class Service {
    const registry: Registry
    const components: seq<string>
    const cooldown: int
    const store: Cooldown.Store
    const env: Environment
    var running: bool
    var ready: bool
    var lastResult: CycleResult
    var hasResult: bool

    constructor (registry: Registry, components: seq<string>, cooldown: int, store: Cooldown.Store, env: Environment)
      ensures this.registry == registry && this.components == components && this.cooldown == cooldown
      ensures this.store == store && this.env == env && !running && !ready && !hasResult
    {
      this.registry, this.components, this.cooldown, this.store, this.env := registry, components, cooldown, store, env;
      running, ready, hasResult := false, false, false;
      lastResult := FailedReport("", "", InventoryFetchFailed);
    }

    function Settings(): Config {
      Config(registry, components, cooldown)
    }

    /** The state of the outside world and the store, as a ledger without entries. */
    ghost function Now(): Ledger
      reads store, env
    {
      Ledger(store.lastSent, env.readings, env.calls, [])
    }

    ghost predicate Holds(l: Ledger)
      reads store, env
    {
      store.lastSent == l.lastSent && env.readings == l.readings && env.calls == l.calls
    }

    method BeginCycle() returns (ok: bool)
      modifies this`running
      ensures ok == !old(running) && running
    {
      if running { return false; }
      running := true;
      return true;
    }

    method FinishCycle()
      modifies this`running
      ensures !running
    {
      running := false;
    }

    method PersistResult(result: CycleResult, markReady: bool)
      modifies this`lastResult, this`hasResult, this`ready
      ensures lastResult == result && hasResult && ready == (old(ready) || markReady)
    {
      lastResult := result;
      hasResult := true;
      if markReady { ready := true; }
    }

    /** `inventory` and `parser` are the outcomes of the two fetches; `None` is a failed one. */
    method RunCycle(cycleId: string, trigger: string, inventory: Option<ActualState>, parser: Option<DesiredState>)
      returns (result: Option<CycleResult>, err: CycleError)
      modifies this, store, env
      ensures old(running) ==>
                result == None && err == CycleAlreadyRunning
                && unchanged(this) && unchanged(store) && unchanged(env)
      ensures !old(running) ==>
                && !running && hasResult && result == Some(lastResult)
                && ready == (old(ready) || err == NoError)
                && Ran(old(Now()), cycleId, trigger, inventory, parser, lastResult, err)
    {
      var ok := BeginCycle();
      if !ok { return None, CycleAlreadyRunning; }
      var r, e := RunCycleBody(cycleId, trigger, inventory, parser);
      PersistResult(r, e == NoError);
      FinishCycle();
      return Some(r), e;
    }

    /** What a cycle that was let in leaves behind, in terms of the fold. */
    ghost predicate Ran(before: Ledger, cycleId: string, trigger: string, inventory: Option<ActualState>,
                        parser: Option<DesiredState>, result: CycleResult, err: CycleError)
      reads store, env
    {
      if inventory.None? then
        Holds(before) && err == InventoryError && result == FailedReport(cycleId, trigger, InventoryFetchFailed)
      else if parser.None? then
        Holds(before) && err == ParserError && result == FailedReport(cycleId, trigger, ParserFetchFailed)
      else
        var l := VisitAll(Settings(), env.world, cycleId, inventory.value.hosts, before, parser.value.hosts);
        Holds(l) && err == NoError && result == Report(cycleId, trigger, inventory.value, parser.value, l.entries)
    }

    /** The report as it stands after the two fetches. */
    method StartReport(cycleId: string, trigger: string, actualState: ActualState, desiredState: DesiredState)
      returns (result: CycleResult)
      ensures result == Report(cycleId, trigger, actualState, desiredState, [])
    {
      result := CycleResult(cycleId, trigger, false, actualState.isPartial, desiredState.ready,
                            Stats(0, 0, 0, 0, 0, 0, 0, 0), [], []);
      if actualState.isPartial {
        result := result.(partial := true, warnings := result.warnings + [InventoryPartial]);
      }
      if !desiredState.ready {
        var reason := if Trim(desiredState.readyReason) != "" then desiredState.readyReason else "";
        result := result.(partial := true, warnings := result.warnings + [ParserNotReady(reason)]);
      }
      result := result.(stats := result.stats.(desiredHosts := |desiredState.hosts|));
    }

    method RunCycleBody(cycleId: string, trigger: string, inventory: Option<ActualState>, parser: Option<DesiredState>)
      returns (result: CycleResult, err: CycleError)
      modifies store, env
      ensures Ran(old(Now()), cycleId, trigger, inventory, parser, result, err)
    {
      result := CycleResult(cycleId, trigger, false, false, false, Stats(0, 0, 0, 0, 0, 0, 0, 0), [], []);
      if inventory.None? {
        result := result.(stats := result.stats.(errors := 1), errorMessages := [InventoryFetchFailed]);
        return result, InventoryError;
      }
      if parser.None? {
        result := result.(stats := result.stats.(errors := 1), errorMessages := [ParserFetchFailed]);
        return result, ParserError;
      }
      result := StartReport(cycleId, trigger, inventory.value, parser.value);
      result := CompareHosts(Context(cycleId, trigger, inventory.value, parser.value), result);
      err := NoError;
    }

    /** The outer loop: every desired host. */
    method CompareHosts(c: Context, soFar: CycleResult) returns (result: CycleResult)
      requires soFar == ReportOf(c, Now())
      modifies store, env
      ensures var l := VisitAll(Settings(), env.world, c.cycleId, c.inventory.hosts, old(Now()), c.parser.hosts);
              Holds(l) && result == ReportOf(c, l)
    {
      result := soFar;
      var byId, byFqdn := IndexActualHosts(c.inventory.hosts);
      ghost var hosts, l := c.parser.hosts, Now();
      for i := 0 to |c.parser.hosts|
        invariant l == VisitAll(Settings(), env.world, c.cycleId, c.inventory.hosts, old(Now()), hosts[..i])
        invariant Holds(l) && result == ReportOf(c, l)
      {
        OneMoreVisit(Settings(), env.world, c.cycleId, c.inventory.hosts, old(Now()), hosts, i);
        var found := FindActualHost(c.parser.hosts[i], c.inventory.hosts, byId, byFqdn);
        l, result := VisitDesiredHost(c, c.parser.hosts[i], found, l, result);
      }
      assert hosts[..|hosts|] == hosts;
    }

    method VisitDesiredHost(c: Context, desiredHost: DesiredHost, found: Option<ActualHost>, ghost before: Ledger,
                            soFar: CycleResult)
      returns (ghost l: Ledger, result: CycleResult)
      requires Holds(before) && soFar == ReportOf(c, before) && found == FindHost(desiredHost, c.inventory.hosts)
      modifies store, env
      ensures l == VisitHost(Settings(), env.world, c.cycleId, c.inventory.hosts, before, desiredHost)
      ensures Holds(l) && result == ReportOf(c, l)
    {
      if found.None? {
        ReportExtends(c, before, HostMissing(desiredHost.hostId, desiredHost.fqdn));
        l := Note(before, HostMissing(desiredHost.hostId, desiredHost.fqdn));
        result := soFar.(
          partial := true,
          stats := soFar.stats.(skippedNoActualHost := soFar.stats.skippedNoActualHost + 1),
          warnings := soFar.warnings + [ActualHostMissing(desiredHost.hostId, desiredHost.fqdn)]);
        return;
      }
      ReportExtends(c, before, HostCompared);
      result := soFar.(stats := soFar.stats.(comparedHosts := soFar.stats.comparedHosts + 1));
      l, result := CompareHost(c, desiredHost, found.value, Note(before, HostCompared), result);
    }

    /** The inner loop: every enabled component of one host. */
    method CompareHost(c: Context, desiredHost: DesiredHost, actualHost: ActualHost, ghost before: Ledger,
                       soFar: CycleResult)
      returns (ghost l: Ledger, result: CycleResult)
      requires Holds(before) && soFar == ReportOf(c, before) && !DataMissingYet(before.entries)
      modifies store, env
      ensures l == SettleAll(env.world, cooldown, before, Verdicts(Settings(), c.cycleId, desiredHost, actualHost))
      ensures Holds(l) && result == ReportOf(c, l)
    {
      ghost var vs := Verdicts(Settings(), c.cycleId, desiredHost, actualHost);
      var hostSkippedNoData := false;
      l, result := before, soFar;
      for j := 0 to |components|
        invariant l == SettleAll(env.world, cooldown, before, vs[..j])
        invariant Holds(l) && result == ReportOf(c, l)
        invariant hostSkippedNoData == DataMissingYet(l.entries)
      {
        OneMoreVerdict(env.world, cooldown, before, vs, j);
        assert vs[j] == Judge(registry, c.cycleId, desiredHost, actualHost, components[j]);
        ReportAfterSettle(c, env.world, cooldown, l, vs[j]);
        l, result, hostSkippedNoData :=
          CompareComponent(c, desiredHost, actualHost, components[j], hostSkippedNoData, l, result);
      }
      assert vs[..|components|] == vs;
    }

    /** One turn of the inner loop, with its five ways to end early. */
    method CompareComponent(c: Context, desiredHost: DesiredHost, actualHost: ActualHost, component: string,
                            skipped: bool, ghost before: Ledger, soFar: CycleResult)
      returns (ghost l: Ledger, result: CycleResult, hostSkippedNoData: bool)
      requires Holds(before)
      modifies store, env
      ensures var v := Judge(registry, c.cycleId, desiredHost, actualHost, component);
              && l == Settle(env.world, cooldown, before, v) && Holds(l)
              && result == ExtendIf(soFar, SettleEntry(env.world, cooldown, before, v), skipped)
              && hostSkippedNoData == (skipped || v.NoData?)
    {
      l, result, hostSkippedNoData := before, soFar, skipped;
      if component !in registry {
        l := Note(before, DetectorMissing(component));
        result := result.(stats := result.stats.(errors := result.stats.errors + 1),
                          errorMessages := result.errorMessages + [DetectorNotFound(component)]);
        return;
      }
      var detection := registry[component](c.cycleId, desiredHost, actualHost);
      if !detection.applicable { return; }
      if detection.missingActualData {
        l := Note(before, DataMissing(component, desiredHost.fqdn, detection.skipReason));
        result, hostSkippedNoData := SkipForData(component, desiredHost.fqdn, detection.skipReason, skipped, result);
        return;
      }
      if !detection.drift { return; }
      if detection.command.None? {
        l := Note(before, CommandMissing(component));
        var stats := result.stats.(driftsFound := result.stats.driftsFound + 1, errors := result.stats.errors + 1);
        result := result.(stats := stats, errorMessages := result.errorMessages + [DriftWithoutCommand(component)]);
        return;
      }
      l, result := SendCommand(detection.command.value, before, soFar);
    }

    method SkipForData(component: string, fqdn: string, skipReason: string, skipped: bool, soFar: CycleResult)
      returns (result: CycleResult, hostSkippedNoData: bool)
      ensures result == Extend(soFar, DataMissing(component, fqdn, skipReason), skipped) && hostSkippedNoData
    {
      result, hostSkippedNoData := soFar.(partial := true), skipped;
      if !hostSkippedNoData {
        result := result.(stats := result.stats.(skippedNoActualData := result.stats.skippedNoActualData + 1));
        hostSkippedNoData := true;
      }
      if Trim(skipReason) != "" {
        result := result.(warnings := result.warnings + [DetectionSkipped(component, fqdn, skipReason)]);
      }
    }

    /** One drift with a command: suppressed, failed or accepted. */
    method SendCommand(command: Command, ghost before: Ledger, soFar: CycleResult)
      returns (ghost l: Ledger, result: CycleResult)
      requires Holds(before)
      modifies store, env
      ensures l == Dispatch(env.world, cooldown, before, command) && Holds(l)
      ensures forall seen :: result == Extend(soFar, DispatchEntry(env.world, cooldown, before, command), seen)
    {
      l := Dispatch(env.world, cooldown, before, command);
      result := soFar.(stats := soFar.stats.(driftsFound := soFar.stats.driftsFound + 1));
      var key := Cooldown.BuildKey(command.component, command.fqdn);
      var now := env.Now();
      var canSend, _ := store.CanSend(key, now, cooldown);
      if !canSend {
        result := result.(stats := result.stats.(reconcileSuppressed := result.stats.reconcileSuppressed + 1));
        return;
      }
      var accepted := env.SendReconcile(command);
      if !accepted {
        var failure := ReconcileSendFailed(command.component, command.fqdn);
        result := result.(stats := result.stats.(errors := result.stats.errors + 1),
                          errorMessages := result.errorMessages + [failure]);
        return;
      }
      store.MarkSent(key, now);
      result := result.(stats := result.stats.(reconcileSent := result.stats.reconcileSent + 1));
    }
  }
}
