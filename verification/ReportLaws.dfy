/** What a report says about a cycle, in terms of the fetched states, the registered detectors and what
    the cycle did to the outside world. */
module ReportLaws {
  import opened Counting
  import opened Wrappers
  import opened Text
  import opened DriftDomain
  import opened Detectors
  import opened Cooldown
  import opened DetectionCycle
  import opened DetectionSpacing
  import opened Convergence

  // The counters

  /** How many of these calls the world accepts. */
  function AcceptedCalls(w: World, first: nat, end: nat): nat
    requires first <= end
  {
    if first == end then 0 else AcceptedCalls(w, first, end - 1) + if w.accepts(end - 1) then 1 else 0
  }

  /** The detector's result for a registered component. */
  function Result(cfg: Config, cycleId: string, d: DesiredHost, host: ActualHost, component: string): DetectorResult
    requires component in cfg.registry
  {
    cfg.registry[component](cycleId, d, host)
  }

  predicate LacksData(cfg: Config, cycleId: string, d: DesiredHost, host: ActualHost, component: string) {
    component in cfg.registry
    && Result(cfg, cycleId, d, host, component).applicable && Result(cfg, cycleId, d, host, component).missingActualData
  }

  predicate HasDrift(cfg: Config, cycleId: string, d: DesiredHost, host: ActualHost, component: string) {
    component in cfg.registry
    && Result(cfg, cycleId, d, host, component).applicable
    && !Result(cfg, cycleId, d, host, component).missingActualData
    && Result(cfg, cycleId, d, host, component).drift
  }

  predicate LacksCommand(cfg: Config, cycleId: string, d: DesiredHost, host: ActualHost, component: string) {
    HasDrift(cfg, cycleId, d, host, component) && Result(cfg, cycleId, d, host, component).command.None?
  }

  /** What the cycle makes of a detector's result. */
  lemma JudgeMeans(cfg: Config, cycleId: string, d: DesiredHost, host: ActualHost, component: string)
    ensures var v := Judge(cfg.registry, cycleId, d, host, component);
            && (v.NoDetector? <==> component !in cfg.registry)
            && (v.NoDetector? ==> v.component == component)
            && (v.NoData? <==> LacksData(cfg, cycleId, d, host, component))
            && (v.NoData? ==> v == NoData(component, d.fqdn, Result(cfg, cycleId, d, host, component).skipReason))
            && (v.Drifted? || v.NoCommand? <==> HasDrift(cfg, cycleId, d, host, component))
            && (v.NoCommand? <==> LacksCommand(cfg, cycleId, d, host, component))
            && (v.NoCommand? ==> v.component == component)
            && (v.Drifted? ==> Result(cfg, cycleId, d, host, component).command == Some(v.command))
  {
  }

  predicate Faulty(v: Verdict) {
    v.NoDetector? || v.NoCommand?
  }

  function FaultyVerdicts(vs: seq<Verdict>): nat {
    if vs == [] then 0 else FaultyVerdicts(vs[..|vs| - 1]) + if Faulty(vs[|vs| - 1]) then 1 else 0
  }

  /** Pairs of a compared host and a component without detector, or with a drift without command. */
  function FaultyPairs(cfg: Config, cycleId: string, actual: seq<ActualHost>, desired: seq<DesiredHost>): nat {
    if desired == [] then 0
    else
      FaultyPairs(cfg, cycleId, actual, desired[..|desired| - 1])
      + match FindHost(desired[|desired| - 1], actual)
        case None => 0
        case Some(host) => FaultyVerdicts(Verdicts(cfg, cycleId, desired[|desired| - 1], host))
  }

  /** Since `start`, `commands` commands were to be sent and `faults` pairs were faulty; the clock was
      read once for each command, every call is an accepted or a failed send, and every command without a
      call was suppressed. */
  ghost predicate Told(w: World, start: Ledger, l: Ledger, commands: nat, faults: nat) {
    && start.calls <= l.calls && l.readings == start.readings + commands
    && Count(l.entries, IS_ACCEPTED) == AcceptedCalls(w, |start.calls|, |l.calls|)
    && Count(l.entries, IS_ACCEPTED) + Count(l.entries, IS_FAILED) == |l.calls| - |start.calls|
    && Count(l.entries, IS_SUPPRESSED) + (|l.calls| - |start.calls|) == commands
    && Count(l.entries, IS_ERROR) == Count(l.entries, IS_FAILED) + faults
    && |MarksFor(l.entries)| == Count(l.entries, IS_ACCEPTED)
  }

  lemma CountsAfterNote(l: Ledger, e: Entry)
    ensures var es, fs := l.entries, Note(l, e).entries;
            && Count(fs, IS_ACCEPTED) == Count(es, IS_ACCEPTED) + (if e.SendAccepted? then 1 else 0)
            && Count(fs, IS_FAILED) == Count(es, IS_FAILED) + (if e.SendFailed? then 1 else 0)
            && Count(fs, IS_SUPPRESSED) == Count(es, IS_SUPPRESSED) + (if e.Suppressed? then 1 else 0)
            && Count(fs, IS_ERROR) == Count(es, IS_ERROR) + (if IS_ERROR(e) then 1 else 0)
            && |MarksFor(fs)| == |MarksFor(es)| + (if e.SendAccepted? then 1 else 0)
  {
    CountAppend(l.entries, e, IS_ACCEPTED);
    CountAppend(l.entries, e, IS_FAILED);
    CountAppend(l.entries, e, IS_SUPPRESSED);
    CountAppend(l.entries, e, IS_ERROR);
    MarksAfterNote(l, e);
  }

  lemma DispatchIsTold(w: World, cooldown: int, start: Ledger, l: Ledger, command: Command, commands: nat, faults: nat)
    requires Told(w, start, l, commands, faults)
    ensures Told(w, start, Dispatch(w, cooldown, l, command), commands + 1, faults)
  {
    DispatchLeavesOneEntry(w, cooldown, l, command);
    CountsAfterNote(l, DispatchEntry(w, cooldown, l, command));
  }

  lemma SettleIsTold(w: World, cooldown: int, start: Ledger, l: Ledger, v: Verdict, commands: nat, faults: nat)
    requires Told(w, start, l, commands, faults)
    ensures Told(w, start, Settle(w, cooldown, l, v), commands + |CommandOf(v)|, faults + if Faulty(v) then 1 else 0)
  {
    match v
    case Drifted(command) => DispatchIsTold(w, cooldown, start, l, command, commands, faults);
    case NoDetector(c) => CountsAfterNote(l, DetectorMissing(c));
    case NoData(c, fqdn, reason) => CountsAfterNote(l, DataMissing(c, fqdn, reason));
    case NoCommand(c) => CountsAfterNote(l, CommandMissing(c));
    case _ =>
  }

  lemma {:induction false} SettleAllIsTold(w: World, cooldown: int, start: Ledger, l: Ledger, vs: seq<Verdict>,
                                           commands: nat, faults: nat)
    requires Told(w, start, l, commands, faults)
    ensures Told(w, start, SettleAll(w, cooldown, l, vs), commands + |CommandsIn(vs)|, faults + FaultyVerdicts(vs))
  {
    if vs != [] {
      var front, last := vs[..|vs| - 1], vs[|vs| - 1];
      SettleAllIsTold(w, cooldown, start, l, front, commands, faults);
      SettleIsTold(w, cooldown, start, SettleAll(w, cooldown, l, front), last,
                   commands + |CommandsIn(front)|, faults + FaultyVerdicts(front));
    }
  }

  lemma VisitIsTold(cfg: Config, w: World, cycleId: string, actual: seq<ActualHost>, start: Ledger, l: Ledger,
                    d: DesiredHost, commands: nat, faults: nat)
    requires Told(w, start, l, commands, faults)
    ensures Told(w, start, VisitHost(cfg, w, cycleId, actual, l, d),
                 commands + |CommandsForHost(cfg, cycleId, actual, d)|,
                 faults + match FindHost(d, actual)
                          case None => 0
                          case Some(host) => FaultyVerdicts(Verdicts(cfg, cycleId, d, host)))
  {
    match FindHost(d, actual)
    case None => CountsAfterNote(l, HostMissing(d.hostId, d.fqdn));
    case Some(host) =>
      CountsAfterNote(l, HostCompared);
      SettleAllIsTold(w, cfg.cooldown, start, Note(l, HostCompared), Verdicts(cfg, cycleId, d, host), commands, faults);
  }

  lemma {:induction false} CycleIsTold(cfg: Config, w: World, cycleId: string, actual: seq<ActualHost>, start: Ledger,
                                       desired: seq<DesiredHost>)
    requires start.entries == []
    ensures Told(w, start, VisitAll(cfg, w, cycleId, actual, start, desired),
                 |CommandsForAll(cfg, cycleId, actual, desired)|, FaultyPairs(cfg, cycleId, actual, desired))
  {
    if desired != [] {
      var front, last := desired[..|desired| - 1], desired[|desired| - 1];
      CycleIsTold(cfg, w, cycleId, actual, start, front);
      VisitIsTold(cfg, w, cycleId, actual, start, VisitAll(cfg, w, cycleId, actual, start, front), last,
                  |CommandsForAll(cfg, cycleId, actual, front)|, FaultyPairs(cfg, cycleId, actual, front));
    }
  }

  /** Every counter of a report, and the other facts it repeats. Sent are the calls that the world
      accepted, each of them marked once; suppressed are the commands that led to no call; errors are the
      failed calls and the faulty pairs. */
  lemma CountersMean(cfg: Config, w: World, cycleId: string, trigger: string, start: Ledger,
                     inventory: ActualState, parser: DesiredState)
    requires start.entries == []
    ensures var l := VisitAll(cfg, w, cycleId, inventory.hosts, start, parser.hosts);
            var r := Report(cycleId, trigger, inventory, parser, l.entries);
            && start.calls <= l.calls
            && l.readings == start.readings + |CommandsForAll(cfg, cycleId, inventory.hosts, parser.hosts)|
            && var calls := |l.calls| - |start.calls|;
            && r.stats.desiredHosts == |parser.hosts|
            && r.stats.skippedNoActualHost == UnmatchedHosts(inventory.hosts, parser.hosts)
            && r.stats.comparedHosts == |parser.hosts| - UnmatchedHosts(inventory.hosts, parser.hosts)
            && r.stats.skippedNoActualData == BlindHosts(cfg, cycleId, inventory.hosts, parser.hosts)
            && r.stats.driftsFound == DriftedPairs(cfg, cycleId, inventory.hosts, parser.hosts)
            && r.stats.reconcileSent == AcceptedCalls(w, |start.calls|, |l.calls|) == |MarksFor(l.entries)|
            && r.stats.reconcileSuppressed == |CommandsForAll(cfg, cycleId, inventory.hosts, parser.hosts)| - calls
            && r.stats.errors == FaultyPairs(cfg, cycleId, inventory.hosts, parser.hosts)
                                 + calls - r.stats.reconcileSent
            && r.cycleId == cycleId && r.trigger == trigger
            && r.parserReady == parser.ready && r.inventoryMarkedPartial == inventory.isPartial
  {
    CountersAreExact(cfg, w, cycleId, inventory.hosts, start, parser.hosts);
    CycleIsTold(cfg, w, cycleId, inventory.hosts, start, parser.hosts);
  }

  /** A cycle that fails at a fetch reports that one error and nothing else. */
  lemma FailedReportMeans(cycleId: string, trigger: string, message: ErrorMessage)
    ensures var r := FailedReport(cycleId, trigger, message);
            && r.errorMessages == [message] && r.warnings == [] && r.stats.errors == 1 && !r.partial
            && r.stats.(errors := 0) == Tally(0, []) && r.cycleId == cycleId && r.trigger == trigger
            && !r.parserReady && !r.inventoryMarkedPartial
  {
  }

  // The messages

  /** What a cycle notes about a host for reasons of its own, whatever the world does. */
  predicate Static(e: Entry) {
    e.HostMissing? || e.DataMissing? || e.DetectorMissing? || e.CommandMissing?
  }

  ghost predicate ArisesFrom(v: Verdict, e: Entry) {
    match v
    case NoDetector(c) => e == DetectorMissing(c)
    case NoData(c, fqdn, reason) => e == DataMissing(c, fqdn, reason)
    case NoCommand(c) => e == CommandMissing(c)
    case _ => false
  }

  ghost predicate ArisesAmong(vs: seq<Verdict>, e: Entry) {
    exists i :: 0 <= i < |vs| && ArisesFrom(vs[i], e)
  }

  ghost predicate ArisesOn(cfg: Config, cycleId: string, actual: seq<ActualHost>, d: DesiredHost, e: Entry) {
    match FindHost(d, actual)
    case None => e == HostMissing(d.hostId, d.fqdn)
    case Some(host) => ArisesAmong(Verdicts(cfg, cycleId, d, host), e)
  }

  lemma SettleEntries(w: World, cooldown: int, l: Ledger, v: Verdict, e: Entry)
    requires Static(e)
    ensures e in Settle(w, cooldown, l, v).entries <==> e in l.entries || ArisesFrom(v, e)
  {
    if v.Drifted? { DispatchLeavesOneEntry(w, cooldown, l, v.command); }
  }

  lemma {:induction false} SettleAllEntries(w: World, cooldown: int, l: Ledger, vs: seq<Verdict>, e: Entry)
    requires Static(e)
    ensures e in SettleAll(w, cooldown, l, vs).entries <==> e in l.entries || ArisesAmong(vs, e)
  {
    if vs != [] {
      var n := |vs| - 1;
      SettleAllEntries(w, cooldown, l, vs[..n], e);
      SettleEntries(w, cooldown, SettleAll(w, cooldown, l, vs[..n]), vs[n], e);
      AmongOneMore(vs, e);
    }
  }

  lemma AmongOneMore(vs: seq<Verdict>, e: Entry)
    requires vs != []
    ensures ArisesAmong(vs, e) <==> ArisesAmong(vs[..|vs| - 1], e) || ArisesFrom(vs[|vs| - 1], e)
  {
    assert forall i :: 0 <= i < |vs| - 1 ==> vs[..|vs| - 1][i] == vs[i];
  }

  lemma VisitEntries(cfg: Config, w: World, cycleId: string, actual: seq<ActualHost>, l: Ledger, d: DesiredHost,
                     e: Entry)
    requires Static(e)
    ensures e in VisitHost(cfg, w, cycleId, actual, l, d).entries
            <==> e in l.entries || ArisesOn(cfg, cycleId, actual, d, e)
  {
    match FindHost(d, actual)
    case None =>
    case Some(host) =>
      SettleAllEntries(w, cfg.cooldown, Note(l, HostCompared), Verdicts(cfg, cycleId, d, host), e);
  }

  ghost predicate Arises(cfg: Config, cycleId: string, actual: seq<ActualHost>, desired: seq<DesiredHost>, e: Entry) {
    Any(desired, (d: DesiredHost) => ArisesOn(cfg, cycleId, actual, d, e))
  }

  lemma {:induction false} CycleEntries(cfg: Config, w: World, cycleId: string, actual: seq<ActualHost>, start: Ledger,
                                        desired: seq<DesiredHost>, e: Entry)
    requires Static(e) && start.entries == []
    ensures e in VisitAll(cfg, w, cycleId, actual, start, desired).entries <==> Arises(cfg, cycleId, actual, desired, e)
  {
    if desired != [] {
      var n := |desired| - 1;
      CycleEntries(cfg, w, cycleId, actual, start, desired[..n], e);
      VisitEntries(cfg, w, cycleId, actual, VisitAll(cfg, w, cycleId, actual, start, desired[..n]), desired[n], e);
      ArisesOneMore(cfg, cycleId, actual, desired, e);
    }
  }

  lemma ArisesOneMore(cfg: Config, cycleId: string, actual: seq<ActualHost>, desired: seq<DesiredHost>, e: Entry)
    requires desired != []
    ensures Arises(cfg, cycleId, actual, desired, e)
            <==> Arises(cfg, cycleId, actual, desired[..|desired| - 1], e)
                 || ArisesOn(cfg, cycleId, actual, desired[|desired| - 1], e)
  {
    AnyOneMore(desired, (d: DesiredHost) => ArisesOn(cfg, cycleId, actual, d, e));
  }

  lemma {:induction false} WarningsCome(es: seq<Entry>, m: Warning)
    ensures m in WarningsFor(es) <==> exists e :: e in es && m in WarningFor(e)
  {
    if es != [] {
      WarningsCome(es[..|es| - 1], m);
      assert es == es[..|es| - 1] + [es[|es| - 1]];
    }
  }

  lemma {:induction false} ErrorsCome(es: seq<Entry>, m: ErrorMessage)
    ensures m in ErrorsFor(es) <==> exists e :: e in es && m in ErrorFor(e)
  {
    if es != [] {
      ErrorsCome(es[..|es| - 1], m);
      assert es == es[..|es| - 1] + [es[|es| - 1]];
    }
  }

  // Each message in terms of hosts and detectors

  ghost predicate SomeUnmatched(actual: seq<ActualHost>, desired: seq<DesiredHost>, id: string, fqdn: string) {
    exists i :: 0 <= i < |desired| && FindHost(desired[i], actual).None?
                && desired[i].hostId == id && desired[i].fqdn == fqdn
  }

  ghost predicate SomePair(cfg: Config, actual: seq<ActualHost>, desired: seq<DesiredHost>,
                           p: (DesiredHost, ActualHost, string) -> bool, component: string)
  {
    component in cfg.components
    && exists i :: 0 <= i < |desired| && FindHost(desired[i], actual).Some?
                   && p(desired[i], FindHost(desired[i], actual).value, component)
  }

  lemma VerdictsByComponent(cfg: Config, cycleId: string, d: DesiredHost, host: ActualHost, e: Entry)
    ensures ArisesAmong(Verdicts(cfg, cycleId, d, host), e) <==>
            exists c :: c in cfg.components && ArisesFrom(Judge(cfg.registry, cycleId, d, host, c), e)
  {
    var vs := Verdicts(cfg, cycleId, d, host);
    if i :| 0 <= i < |vs| && ArisesFrom(vs[i], e) {
      assert cfg.components[i] in cfg.components;
    }
    if c :| c in cfg.components && ArisesFrom(Judge(cfg.registry, cycleId, d, host, c), e) {
      var i :| 0 <= i < |cfg.components| && cfg.components[i] == c;
      assert ArisesFrom(vs[i], e);
    }
  }

  lemma PairOfEntry(cfg: Config, cycleId: string, actual: seq<ActualHost>, desired: seq<DesiredHost>, e: Entry,
                    c: string, p: (DesiredHost, ActualHost, string) -> bool)
    requires !e.HostMissing?
    requires forall d, host, c' ::
               ArisesFrom(Judge(cfg.registry, cycleId, d, host, c'), e) <==> c' == c && p(d, host, c')
    ensures Arises(cfg, cycleId, actual, desired, e) <==> SomePair(cfg, actual, desired, p, c)
  {
    forall i | 0 <= i < |desired| && FindHost(desired[i], actual).Some?
      ensures ArisesOn(cfg, cycleId, actual, desired[i], e)
              <==> c in cfg.components && p(desired[i], FindHost(desired[i], actual).value, c)
    {
      VerdictsByComponent(cfg, cycleId, desired[i], FindHost(desired[i], actual).value, e);
    }
  }

  lemma MissingArises(cfg: Config, cycleId: string, actual: seq<ActualHost>, desired: seq<DesiredHost>,
                      id: string, fqdn: string)
    ensures Arises(cfg, cycleId, actual, desired, HostMissing(id, fqdn)) <==> SomeUnmatched(actual, desired, id, fqdn)
  {
    forall i | 0 <= i < |desired|
      ensures ArisesOn(cfg, cycleId, actual, desired[i], HostMissing(id, fqdn))
              <==> FindHost(desired[i], actual).None? && desired[i].hostId == id && desired[i].fqdn == fqdn
    {
    }
  }

  /** A message that one entry alone leads to. */
  lemma OneWarning(es: seq<Entry>, e: Entry, m: Warning)
    requires forall e' :: m in WarningFor(e') ==> e' == e
    ensures m in WarningsFor(es) <==> e in es && m in WarningFor(e)
  {
    WarningsCome(es, m);
  }

  lemma OneError(es: seq<Entry>, e: Entry, m: ErrorMessage)
    requires forall e' :: m in ErrorFor(e') <==> e' == e
    ensures m in ErrorsFor(es) <==> e in es
  {
    ErrorsCome(es, m);
  }

  /** Some compared host has no data for the component, and the detector gives this reason. */
  ghost predicate SomeSkipped(cfg: Config, cycleId: string, actual: seq<ActualHost>, desired: seq<DesiredHost>,
                              c: string, fqdn: string, reason: string)
  {
    SomePair(cfg, actual, desired,
             (d, host, c') => LacksData(cfg, cycleId, d, host, c') && d.fqdn == fqdn
                              && Result(cfg, cycleId, d, host, c').skipReason == reason, c)
  }

  lemma SkippedArises(cfg: Config, cycleId: string, actual: seq<ActualHost>, desired: seq<DesiredHost>,
                      c: string, fqdn: string, reason: string)
    ensures Arises(cfg, cycleId, actual, desired, DataMissing(c, fqdn, reason))
            <==> SomeSkipped(cfg, cycleId, actual, desired, c, fqdn, reason)
  {
    var p := (d, host, c') => LacksData(cfg, cycleId, d, host, c') && d.fqdn == fqdn
                              && Result(cfg, cycleId, d, host, c').skipReason == reason;
    var e := DataMissing(c, fqdn, reason);
    forall d, host, c' ensures ArisesFrom(Judge(cfg.registry, cycleId, d, host, c'), e) <==> c' == c && p(d, host, c') {
      JudgeMeans(cfg, cycleId, d, host, c');
    }
    PairOfEntry(cfg, cycleId, actual, desired, e, c, p);
  }

  /** Why a cycle past its fetches has this warning. */
  ghost predicate WarningReason(cfg: Config, cycleId: string, inventory: ActualState, parser: DesiredState,
                                m: Warning) {
    match m
    case InventoryPartial => inventory.isPartial
    case ParserNotReady(reason) =>
      !parser.ready && reason == if Trim(parser.readyReason) != "" then parser.readyReason else ""
    case ActualHostMissing(id, fqdn) => SomeUnmatched(inventory.hosts, parser.hosts, id, fqdn)
    case DetectionSkipped(c, fqdn, reason) =>
      Trim(reason) != "" && SomeSkipped(cfg, cycleId, inventory.hosts, parser.hosts, c, fqdn, reason)
  }

  lemma MetadataReasons(inventory: ActualState, parser: DesiredState, m: Warning)
    ensures m in MetadataWarnings(inventory, parser) <==>
            (m == InventoryPartial && inventory.isPartial)
            || (!parser.ready && m == ParserNotReady(if Trim(parser.readyReason) != "" then parser.readyReason else ""))
  {
  }

  lemma {:induction false} NoMetadataWarnings(es: seq<Entry>)
    ensures forall m :: m in WarningsFor(es) ==> m.ActualHostMissing? || m.DetectionSkipped?
  {
    if es != [] { NoMetadataWarnings(es[..|es| - 1]); }
  }

  lemma WarningsHaveReasons(cfg: Config, w: World, cycleId: string, start: Ledger, inventory: ActualState,
                            parser: DesiredState, m: Warning)
    requires start.entries == []
    ensures var es := VisitAll(cfg, w, cycleId, inventory.hosts, start, parser.hosts).entries;
            m in MetadataWarnings(inventory, parser) || m in WarningsFor(es)
            <==> WarningReason(cfg, cycleId, inventory, parser, m)
  {
    var es := VisitAll(cfg, w, cycleId, inventory.hosts, start, parser.hosts).entries;
    MetadataReasons(inventory, parser, m);
    match m
    case InventoryPartial => NoMetadataWarnings(es);
    case ParserNotReady(_) => NoMetadataWarnings(es);
    case ActualHostMissing(id, fqdn) =>
      CycleEntries(cfg, w, cycleId, inventory.hosts, start, parser.hosts, HostMissing(id, fqdn));
      MissingArises(cfg, cycleId, inventory.hosts, parser.hosts, id, fqdn);
      OneWarning(es, HostMissing(id, fqdn), m);
    case DetectionSkipped(c, fqdn, reason) =>
      CycleEntries(cfg, w, cycleId, inventory.hosts, start, parser.hosts, DataMissing(c, fqdn, reason));
      SkippedArises(cfg, cycleId, inventory.hosts, parser.hosts, c, fqdn, reason);
      OneWarning(es, DataMissing(c, fqdn, reason), m);
  }

  /** The warnings of a report, each exactly when there is reason for it. */
  lemma WarningsMean(cfg: Config, w: World, cycleId: string, trigger: string, start: Ledger,
                     inventory: ActualState, parser: DesiredState, m: Warning)
    requires start.entries == []
    ensures var es := VisitAll(cfg, w, cycleId, inventory.hosts, start, parser.hosts).entries;
            m in Report(cycleId, trigger, inventory, parser, es).warnings
            <==> WarningReason(cfg, cycleId, inventory, parser, m)
  {
    ReportMessages(cycleId, trigger, inventory, parser,
                   VisitAll(cfg, w, cycleId, inventory.hosts, start, parser.hosts).entries);
    WarningsHaveReasons(cfg, w, cycleId, start, inventory, parser, m);
  }

  /** Some call since `start` that the world did not accept was for this component and FQDN. */
  ghost predicate SomeFailed(w: World, start: Ledger, l: Ledger, component: string, fqdn: string) {
    exists k :: |start.calls| <= k < |l.calls| && !w.accepts(k)
                && l.calls[k].component == component && l.calls[k].fqdn == fqdn
  }

  ghost predicate FailuresTold(w: World, start: Ledger, l: Ledger, component: string, fqdn: string) {
    && start.calls <= l.calls
    && (ReconcileSendFailed(component, fqdn) in ErrorsFor(l.entries) <==> SomeFailed(w, start, l, component, fqdn))
  }

  lemma NoteErrors(l: Ledger, e: Entry, m: ErrorMessage)
    ensures m in ErrorsFor(Note(l, e).entries) <==> m in ErrorsFor(l.entries) || m in ErrorFor(e)
  {
    assert (l.entries + [e])[..|l.entries|] == l.entries;
  }

  lemma DispatchTellsFailures(w: World, cooldown: int, start: Ledger, l: Ledger, command: Command, c: string, f: string)
    requires FailuresTold(w, start, l, c, f)
    ensures FailuresTold(w, start, Dispatch(w, cooldown, l, command), c, f)
  {
    var m, n := Dispatch(w, cooldown, l, command), |l.calls|;
    DispatchLeavesOneEntry(w, cooldown, l, command);
    NoteErrors(l, DispatchEntry(w, cooldown, l, command), ReconcileSendFailed(c, f));
    if m.calls == l.calls + [command] {
      assert m.calls[n] == command && forall k :: 0 <= k < n ==> m.calls[k] == l.calls[k];
      assert SomeFailed(w, start, m, c, f)
             <==> SomeFailed(w, start, l, c, f) || (!w.accepts(n) && command.component == c && command.fqdn == f);
    }
  }

  lemma {:induction false} SettleAllTellsFailures(w: World, cooldown: int, start: Ledger, l: Ledger, vs: seq<Verdict>,
                                                  c: string, f: string)
    requires FailuresTold(w, start, l, c, f)
    ensures FailuresTold(w, start, SettleAll(w, cooldown, l, vs), c, f)
  {
    if vs != [] {
      SettleAllTellsFailures(w, cooldown, start, l, vs[..|vs| - 1], c, f);
      SettleTellsFailures(w, cooldown, start, SettleAll(w, cooldown, l, vs[..|vs| - 1]), vs[|vs| - 1], c, f);
    }
  }

  lemma SettleTellsFailures(w: World, cooldown: int, start: Ledger, l: Ledger, v: Verdict, c: string, f: string)
    requires FailuresTold(w, start, l, c, f)
    ensures FailuresTold(w, start, Settle(w, cooldown, l, v), c, f)
  {
    var m := ReconcileSendFailed(c, f);
    match v
    case Drifted(command) => DispatchTellsFailures(w, cooldown, start, l, command, c, f);
    case NoDetector(c') => NoteErrors(l, DetectorMissing(c'), m);
    case NoData(c', fqdn, reason) => NoteErrors(l, DataMissing(c', fqdn, reason), m);
    case NoCommand(c') => NoteErrors(l, CommandMissing(c'), m);
    case _ =>
  }

  lemma {:induction false} CycleTellsFailures(cfg: Config, w: World, cycleId: string, actual: seq<ActualHost>,
                                              start: Ledger, desired: seq<DesiredHost>, c: string, f: string)
    requires start.entries == []
    ensures FailuresTold(w, start, VisitAll(cfg, w, cycleId, actual, start, desired), c, f)
  {
    if desired != [] {
      var front := desired[..|desired| - 1];
      CycleTellsFailures(cfg, w, cycleId, actual, start, front, c, f);
      VisitTellsFailures(cfg, w, cycleId, actual, start, VisitAll(cfg, w, cycleId, actual, start, front),
                         desired[|desired| - 1], c, f);
    }
  }

  lemma VisitTellsFailures(cfg: Config, w: World, cycleId: string, actual: seq<ActualHost>, start: Ledger, l: Ledger,
                           d: DesiredHost, c: string, f: string)
    requires FailuresTold(w, start, l, c, f)
    ensures FailuresTold(w, start, VisitHost(cfg, w, cycleId, actual, l, d), c, f)
  {
    match FindHost(d, actual)
    case None => NoteErrors(l, HostMissing(d.hostId, d.fqdn), ReconcileSendFailed(c, f));
    case Some(host) =>
      NoteErrors(l, HostCompared, ReconcileSendFailed(c, f));
      SettleAllTellsFailures(w, cfg.cooldown, start, Note(l, HostCompared), Verdicts(cfg, cycleId, d, host), c, f);
  }

  /** Some host is compared for a component that has no detector. */
  ghost predicate SomeUnregistered(cfg: Config, actual: seq<ActualHost>, desired: seq<DesiredHost>, c: string) {
    SomePair(cfg, actual, desired, (d, host, c') => c' !in cfg.registry, c)
  }

  /** Some detector reports a drift without a command. */
  ghost predicate SomeWithoutCommand(cfg: Config, cycleId: string, actual: seq<ActualHost>, desired: seq<DesiredHost>,
                                     c: string)
  {
    SomePair(cfg, actual, desired, (d, host, c') => LacksCommand(cfg, cycleId, d, host, c'), c)
  }

  lemma DetectorMissingArises(cfg: Config, cycleId: string, actual: seq<ActualHost>, desired: seq<DesiredHost>,
                              c: string)
    ensures Arises(cfg, cycleId, actual, desired, DetectorMissing(c))
            <==> SomeUnregistered(cfg, actual, desired, c)
  {
    var e, p := DetectorMissing(c), (d: DesiredHost, host: ActualHost, c': string) => c' !in cfg.registry;
    forall d, host, c' ensures ArisesFrom(Judge(cfg.registry, cycleId, d, host, c'), e) <==> c' == c && p(d, host, c') {
      JudgeMeans(cfg, cycleId, d, host, c');
    }
    PairOfEntry(cfg, cycleId, actual, desired, e, c, p);
  }

  lemma CommandMissingArises(cfg: Config, cycleId: string, actual: seq<ActualHost>, desired: seq<DesiredHost>,
                             c: string)
    ensures Arises(cfg, cycleId, actual, desired, CommandMissing(c))
            <==> SomeWithoutCommand(cfg, cycleId, actual, desired, c)
  {
    var e, p := CommandMissing(c),
                (d: DesiredHost, host: ActualHost, c': string) => LacksCommand(cfg, cycleId, d, host, c');
    forall d, host, c' ensures ArisesFrom(Judge(cfg.registry, cycleId, d, host, c'), e) <==> c' == c && p(d, host, c') {
      JudgeMeans(cfg, cycleId, d, host, c');
    }
    PairOfEntry(cfg, cycleId, actual, desired, e, c, p);
  }

  /** Why a cycle past its fetches has this error message. */
  ghost predicate ErrorReason(cfg: Config, w: World, cycleId: string, actual: seq<ActualHost>, start: Ledger,
                              desired: seq<DesiredHost>, m: ErrorMessage)
  {
    match m
    case InventoryFetchFailed => false
    case ParserFetchFailed => false
    case DetectorNotFound(c) => SomeUnregistered(cfg, actual, desired, c)
    case DriftWithoutCommand(c) => SomeWithoutCommand(cfg, cycleId, actual, desired, c)
    case ReconcileSendFailed(c, fqdn) =>
      SomeFailed(w, start, VisitAll(cfg, w, cycleId, actual, start, desired), c, fqdn)
  }

  lemma {:induction false} NoFetchErrors(es: seq<Entry>)
    ensures InventoryFetchFailed !in ErrorsFor(es) && ParserFetchFailed !in ErrorsFor(es)
  {
    if es != [] { NoFetchErrors(es[..|es| - 1]); }
  }

  lemma ErrorsHaveReasons(cfg: Config, w: World, cycleId: string, actual: seq<ActualHost>, start: Ledger,
                          desired: seq<DesiredHost>, m: ErrorMessage)
    requires start.entries == []
    ensures m in ErrorsFor(VisitAll(cfg, w, cycleId, actual, start, desired).entries)
            <==> ErrorReason(cfg, w, cycleId, actual, start, desired, m)
  {
    NoFetchErrors(VisitAll(cfg, w, cycleId, actual, start, desired).entries);
    match m
    case InventoryFetchFailed =>
    case ParserFetchFailed =>
    case DetectorNotFound(c) => UnregisteredIsTold(cfg, w, cycleId, actual, start, desired, c);
    case DriftWithoutCommand(c) => WithoutCommandIsTold(cfg, w, cycleId, actual, start, desired, c);
    case ReconcileSendFailed(c, fqdn) => CycleTellsFailures(cfg, w, cycleId, actual, start, desired, c, fqdn);
  }

  lemma ReportMessages(cycleId: string, trigger: string, inventory: ActualState, parser: DesiredState, es: seq<Entry>)
    ensures Report(cycleId, trigger, inventory, parser, es).errorMessages == ErrorsFor(es)
    ensures Report(cycleId, trigger, inventory, parser, es).warnings
         == MetadataWarnings(inventory, parser) + WarningsFor(es)
  {
  }

  /** The error messages of a cycle past its fetches, each exactly when there is reason for it. */
  lemma ErrorsMean(cfg: Config, w: World, cycleId: string, trigger: string, start: Ledger,
                   inventory: ActualState, parser: DesiredState, m: ErrorMessage)
    requires start.entries == []
    ensures var es := VisitAll(cfg, w, cycleId, inventory.hosts, start, parser.hosts).entries;
            m in Report(cycleId, trigger, inventory, parser, es).errorMessages
            <==> ErrorReason(cfg, w, cycleId, inventory.hosts, start, parser.hosts, m)
  {
    var es := VisitAll(cfg, w, cycleId, inventory.hosts, start, parser.hosts).entries;
    ReportMessages(cycleId, trigger, inventory, parser, es);
    ErrorsHaveReasons(cfg, w, cycleId, inventory.hosts, start, parser.hosts, m);
  }

  lemma UnregisteredIsTold(cfg: Config, w: World, cycleId: string, actual: seq<ActualHost>, start: Ledger,
                           desired: seq<DesiredHost>, c: string)
    requires start.entries == []
    ensures DetectorNotFound(c) in ErrorsFor(VisitAll(cfg, w, cycleId, actual, start, desired).entries)
            <==> SomeUnregistered(cfg, actual, desired, c)
  {
    CycleEntries(cfg, w, cycleId, actual, start, desired, DetectorMissing(c));
    DetectorMissingArises(cfg, cycleId, actual, desired, c);
    OneError(VisitAll(cfg, w, cycleId, actual, start, desired).entries, DetectorMissing(c), DetectorNotFound(c));
  }

  lemma WithoutCommandIsTold(cfg: Config, w: World, cycleId: string, actual: seq<ActualHost>, start: Ledger,
                             desired: seq<DesiredHost>, c: string)
    requires start.entries == []
    ensures DriftWithoutCommand(c) in ErrorsFor(VisitAll(cfg, w, cycleId, actual, start, desired).entries)
            <==> SomeWithoutCommand(cfg, cycleId, actual, desired, c)
  {
    CycleEntries(cfg, w, cycleId, actual, start, desired, CommandMissing(c));
    CommandMissingArises(cfg, cycleId, actual, desired, c);
    OneError(VisitAll(cfg, w, cycleId, actual, start, desired).entries, CommandMissing(c), DriftWithoutCommand(c));
  }

  // Order

  /** Hosts are visited in order: a cycle over two lists is one over the first, then one over the second. */
  lemma {:induction false} VisitsInOrder(cfg: Config, w: World, cycleId: string, actual: seq<ActualHost>, l: Ledger,
                                         a: seq<DesiredHost>, b: seq<DesiredHost>)
    ensures VisitAll(cfg, w, cycleId, actual, l, a + b)
         == VisitAll(cfg, w, cycleId, actual, VisitAll(cfg, w, cycleId, actual, l, a), b)
  {
    if b == [] {
      assert a + b == a;
    } else {
      var n := |b| - 1;
      assert (a + b)[..|a + b| - 1] == a + b[..n] && (a + b)[|a + b| - 1] == b[n];
      VisitsInOrder(cfg, w, cycleId, actual, l, a, b[..n]);
    }
  }

  /** So are the components of a host, in the order of the configuration. */
  lemma {:induction false} ComponentsInOrder(w: World, cooldown: int, l: Ledger, a: seq<Verdict>, b: seq<Verdict>)
    ensures SettleAll(w, cooldown, l, a + b) == SettleAll(w, cooldown, SettleAll(w, cooldown, l, a), b)
  {
    if b == [] {
      assert a + b == a;
    } else {
      var n := |b| - 1;
      assert (a + b)[..|a + b| - 1] == a + b[..n] && (a + b)[|a + b| - 1] == b[n];
      ComponentsInOrder(w, cooldown, l, a, b[..n]);
    }
  }
}
