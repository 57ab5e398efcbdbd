/** The closed loop: detection rounds alternate with an environment that installs what was
    commanded. The fleet runs everything it should after two rounds. */
module Convergence {
  import opened Counting
  import opened Text
  import opened DriftDomain
  import opened Detectors
  import opened Cooldown
  import opened DetectionCycle

  // One round sends a command for everything that has drifted

  function CommandOf(v: Verdict): seq<Command> {
    if v.Drifted? then [v.command] else []
  }

  function CommandsIn(vs: seq<Verdict>): seq<Command> {
    if vs == [] then []
    else CommandsIn(vs[..|vs| - 1]) + CommandOf(vs[|vs| - 1])
  }

  function CommandsForHost(cfg: Config, cycleId: string, actual: seq<ActualHost>, desired: DesiredHost): seq<Command> {
    match FindHost(desired, actual)
    case None => []
    case Some(host) => CommandsIn(Verdicts(cfg, cycleId, desired, host))
  }

  function CommandsForAll(cfg: Config, cycleId: string, actual: seq<ActualHost>,
                          desired: seq<DesiredHost>): seq<Command> {
    if desired == [] then []
    else CommandsForAll(cfg, cycleId, actual, desired[..|desired| - 1])
         + CommandsForHost(cfg, cycleId, actual, desired[|desired| - 1])
  }

  ghost predicate AllAccepted(w: World) {
    forall k: nat :: w.accepts(k)
  }

  /** From now on every key in the store has cooled down, whenever the clock is read. */
  ghost predicate Elapsed(w: World, cooldown: int, l: Ledger) {
    forall key, k: nat :: key in l.lastSent && l.readings <= k ==> w.clock(k) - l.lastSent[key] >= cooldown
  }

  predicate Untouched(start: Ledger, l: Ledger, key: string) {
    if key in start.lastSent then key in l.lastSent && l.lastSent[key] == start.lastSent[key] else key !in l.lastSent
  }

  function Keys(cs: seq<Command>): set<string> {
    if cs == [] then {} else Keys(cs[..|cs| - 1]) + {KeyOf(cs[|cs| - 1])}
  }

  predicate KeysDiffer(cs: seq<Command>) {
    cs == [] || (KeysDiffer(cs[..|cs| - 1]) && KeyOf(cs[|cs| - 1]) !in Keys(cs[..|cs| - 1]))
  }

  lemma {:induction false} KeysInConcat(a: seq<Command>, b: seq<Command>)
    ensures Keys(a + b) == Keys(a) + Keys(b)
    ensures KeysDiffer(a + b) <==> KeysDiffer(a) && KeysDiffer(b) && Keys(a) !! Keys(b)
  {
    if b == [] {
      assert a + b == a;
    } else {
      assert (a + b)[..|a + b| - 1] == a + b[..|b| - 1];
      KeysInConcat(a, b[..|b| - 1]);
    }
  }

  /** Since the round started the commands `sent` have gone out, each of them accepted, and only
      their keys have been marked. */
  ghost predicate Midway(start: Ledger, l: Ledger, sent: seq<Command>) {
    && l.calls == start.calls + sent && start.readings <= l.readings
    && forall key :: Untouched(start, l, key) || key in Keys(sent)
  }

  lemma DispatchSends(w: World, cooldown: int, start: Ledger, l: Ledger, sent: seq<Command>, command: Command)
    requires AllAccepted(w) && Elapsed(w, cooldown, start) && Midway(start, l, sent) && KeysDiffer(sent + [command])
    ensures Midway(start, Dispatch(w, cooldown, l, command), sent + [command])
  {
    assert (sent + [command])[..|sent|] == sent;
    assert Untouched(start, l, KeyOf(command));
    assert MaySend(l.lastSent, KeyOf(command), w.clock(l.readings), cooldown);
    assert Dispatch(w, cooldown, l, command).calls == start.calls + (sent + [command]);
  }

  lemma SettleSends(w: World, cooldown: int, start: Ledger, l: Ledger, sent: seq<Command>, v: Verdict)
    requires AllAccepted(w) && Elapsed(w, cooldown, start) && Midway(start, l, sent) && KeysDiffer(sent + CommandOf(v))
    ensures Midway(start, Settle(w, cooldown, l, v), sent + CommandOf(v))
  {
    if v.Drifted? {
      DispatchSends(w, cooldown, start, l, sent, v.command);
    } else {
      assert sent + CommandOf(v) == sent;
    }
  }

  lemma {:induction false} SettleAllSends(w: World, cooldown: int, start: Ledger, l: Ledger, sent: seq<Command>,
                                          vs: seq<Verdict>)
    requires AllAccepted(w) && Elapsed(w, cooldown, start) && Midway(start, l, sent)
    requires KeysDiffer(sent + CommandsIn(vs))
    ensures Midway(start, SettleAll(w, cooldown, l, vs), sent + CommandsIn(vs))
  {
    if vs == [] {
      assert sent + [] == sent;
    } else {
      var front, last := vs[..|vs| - 1], vs[|vs| - 1];
      ConcatIsAssociative(sent, CommandsIn(front), CommandOf(last));
      KeysInConcat(sent + CommandsIn(front), CommandOf(last));
      SettleAllSends(w, cooldown, start, l, sent, front);
      SettleSends(w, cooldown, start, SettleAll(w, cooldown, l, front), sent + CommandsIn(front), last);
    }
  }

  lemma {:induction false} RoundSends(cfg: Config, w: World, cycleId: string, actual: seq<ActualHost>, start: Ledger,
                                      desired: seq<DesiredHost>)
    requires AllAccepted(w) && Elapsed(w, cfg.cooldown, start)
    requires KeysDiffer(CommandsForAll(cfg, cycleId, actual, desired))
    ensures Midway(start, VisitAll(cfg, w, cycleId, actual, start, desired),
                   CommandsForAll(cfg, cycleId, actual, desired))
  {
    if desired != [] {
      var front, last := desired[..|desired| - 1], desired[|desired| - 1];
      var sent, more := CommandsForAll(cfg, cycleId, actual, front), CommandsForHost(cfg, cycleId, actual, last);
      KeysInConcat(sent, more);
      RoundSends(cfg, w, cycleId, actual, start, front);
      var l := VisitAll(cfg, w, cycleId, actual, start, front);
      match FindHost(last, actual)
      case None => assert sent + more == sent;
      case Some(host) =>
        SettleAllSends(w, cfg.cooldown, start, Note(l, HostCompared), sent, Verdicts(cfg, cycleId, last, host));
    }
  }

  // The fleet

  /** The host has an actual host with its FQDN, and must run both components as containers. */
  predicate Matched(d: DesiredHost, actual: seq<ActualHost>) {
    && Normalize(d.fqdn) != ""
    && FindHost(d, actual).Some? && SameText(d.fqdn, FindHost(d, actual).value.fqdn)
    && RequiresContainer(d, CADVISOR) && RequiresContainer(d, NODE_EXPORTER)
  }

  /** Every desired host is matched, and FQDNs tell desired hosts apart. The actual hosts may come in
      any order, and there may be others among them. */
  ghost predicate Fleet(desired: seq<DesiredHost>, actual: seq<ActualHost>) {
    && (forall i :: 0 <= i < |desired| ==> Matched(desired[i], actual))
    && forall i, j :: 0 <= i < j < |desired| ==> !SameText(desired[i].fqdn, desired[j].fqdn)
  }

  /** Both components enabled, in either order, each with its own detector. */
  ghost predicate BothEnabled(cfg: Config) {
    && cfg.registry == BOTH_DETECTORS
    && (cfg.components == [CADVISOR, NODE_EXPORTER] || cfg.components == [NODE_EXPORTER, CADVISOR])
  }

  /** The drift that can be acted on now: without healthy data that is cadvisor alone. */
  predicate Wanted(host: ActualHost, component: string) {
    !SeenRunning(host, component) && (component == CADVISOR || IsSourceHealthy(host, CADVISOR))
  }

  /** What the actual host of a desired one wants. */
  predicate Wants(d: DesiredHost, actual: seq<ActualHost>, component: string) {
    FindHost(d, actual).Some? && Wanted(FindHost(d, actual).value, component)
  }

  predicate Commanded(cs: seq<Command>, fqdn: string, component: string) {
    exists k :: 0 <= k < |cs| && cs[k].component == component && SameText(cs[k].fqdn, fqdn)
  }

  lemma ComponentNames()
    ensures CADVISOR != NODE_EXPORTER && Lower(CADVISOR) == CADVISOR && Lower(NODE_EXPORTER) == NODE_EXPORTER
    ensures '|' !in CADVISOR && '|' !in NODE_EXPORTER
  {
    assert CADVISOR[0] != NODE_EXPORTER[0];
  }

  lemma TargetIsDesired(d: DesiredHost, a: ActualHost)
    requires Normalize(d.fqdn) != ""
    ensures SameText(ResolveTargetFqdn(d, a), d.fqdn)
  {
    NormalizeIsStable(d.fqdn);
    assert Trim(d.fqdn) != "";
  }

  /** Commands for one FQDN, with at most one per component. */
  predicate OnlyFor(cs: seq<Command>, fqdn: string) {
    && KeysDiffer(cs)
    && forall k :: 0 <= k < |cs| ==>
         SameText(cs[k].fqdn, fqdn) && (cs[k].component == CADVISOR || cs[k].component == NODE_EXPORTER)
  }

  lemma CommandsOfTwo(v0: Verdict, v1: Verdict)
    ensures CommandsIn([v0, v1]) == CommandOf(v0) + CommandOf(v1)
  {
    assert [v0, v1][..1] == [v0];
    assert CommandsIn([v0]) == CommandsIn([]) + CommandOf(v0) == CommandOf(v0) by { assert [v0][..0] == []; }
  }

  lemma TwoVerdicts(v0: Verdict, v1: Verdict, fqdn: string)
    requires forall v :: v in {v0, v1} && v.Drifted? ==>
               && SameText(v.command.fqdn, fqdn)
               && (v.command.component == CADVISOR || v.command.component == NODE_EXPORTER)
    requires v0.Drifted? && v1.Drifted? ==> v0.command.component != v1.command.component
    ensures OnlyFor(CommandsIn([v0, v1]), fqdn)
    ensures forall c :: Commanded(CommandsIn([v0, v1]), fqdn, c) <==>
                          (v0.Drifted? && v0.command.component == c) || (v1.Drifted? && v1.command.component == c)
  {
    ComponentNames();
    CommandsOfTwo(v0, v1);
    var cs, c0, c1 := CommandsIn([v0, v1]), CommandOf(v0), CommandOf(v1);
    KeysInConcat(c0, c1);
    if v0.Drifted? { assert cs[0] == v0.command && c0[..0] == []; }
    if v1.Drifted? { assert cs[|cs| - 1] == v1.command && c1[..0] == []; }
    if v0.Drifted? && v1.Drifted? {
      KeysAgree(v0.command.component, v0.command.fqdn, v1.command.component, v1.command.fqdn);
    }
  }

  /** What a matched host is sent: a command for each wanted component, and nothing else. */
  lemma HostCommands(cfg: Config, cycleId: string, d: DesiredHost, actual: seq<ActualHost>)
    requires BothEnabled(cfg) && Matched(d, actual)
    ensures var cs := CommandsForHost(cfg, cycleId, actual, d);
            && OnlyFor(cs, d.fqdn)
            && (Commanded(cs, d.fqdn, CADVISOR) <==> Wants(d, actual, CADVISOR))
            && (Commanded(cs, d.fqdn, NODE_EXPORTER) <==> Wants(d, actual, NODE_EXPORTER))
  {
    var first, second := cfg.components[0], cfg.components[1];
    HostVerdicts(cycleId, d, actual, first, second);
    CommandsOfMatched(cfg, cycleId, d, actual);
  }

  lemma CommandsOfMatched(cfg: Config, cycleId: string, d: DesiredHost, actual: seq<ActualHost>)
    requires |cfg.components| == 2 && FindHost(d, actual).Some?
    ensures var host := FindHost(d, actual).value;
            CommandsForHost(cfg, cycleId, actual, d) ==
            CommandsIn([Judge(cfg.registry, cycleId, d, host, cfg.components[0]),
                        Judge(cfg.registry, cycleId, d, host, cfg.components[1])])
  {
    var host := FindHost(d, actual).value;
    assert Verdicts(cfg, cycleId, d, host) == [Judge(cfg.registry, cycleId, d, host, cfg.components[0]),
                                               Judge(cfg.registry, cycleId, d, host, cfg.components[1])];
  }

  lemma HostVerdicts(cycleId: string, d: DesiredHost, actual: seq<ActualHost>, first: string, second: string)
    requires Matched(d, actual)
    requires (first == CADVISOR && second == NODE_EXPORTER) || (first == NODE_EXPORTER && second == CADVISOR)
    ensures var host := FindHost(d, actual).value;
            var cs := CommandsIn([Judge(BOTH_DETECTORS, cycleId, d, host, first),
                                  Judge(BOTH_DETECTORS, cycleId, d, host, second)]);
            && OnlyFor(cs, d.fqdn)
            && (Commanded(cs, d.fqdn, CADVISOR) <==> Wanted(host, CADVISOR))
            && (Commanded(cs, d.fqdn, NODE_EXPORTER) <==> Wanted(host, NODE_EXPORTER))
  {
    var host := FindHost(d, actual).value;
    ComponentNames();
    VerdictOnWanted(cycleId, d, host, first);
    VerdictOnWanted(cycleId, d, host, second);
    TwoVerdicts(Judge(BOTH_DETECTORS, cycleId, d, host, first), Judge(BOTH_DETECTORS, cycleId, d, host, second),
                d.fqdn);
  }

  lemma VerdictOnWanted(cycleId: string, d: DesiredHost, host: ActualHost, component: string)
    requires Normalize(d.fqdn) != "" && RequiresContainer(d, component)
    requires component == CADVISOR || component == NODE_EXPORTER
    ensures var v := Judge(BOTH_DETECTORS, cycleId, d, host, component);
            && (v.Drifted? <==> Wanted(host, component))
            && (v.Drifted? ==> v.command.component == component && SameText(v.command.fqdn, d.fqdn))
  {
    JudgeByCases(cycleId, d, host, component);
    TargetIsDesired(d, host);
  }

  function HostKeys(fqdn: string): set<string> {
    {BuildKey(CADVISOR, fqdn), BuildKey(NODE_EXPORTER, fqdn)}
  }

  function FleetKeys(desired: seq<DesiredHost>): set<string> {
    if desired == [] then {} else FleetKeys(desired[..|desired| - 1]) + HostKeys(desired[|desired| - 1].fqdn)
  }

  lemma {:induction false} KeysOfOneHost(cs: seq<Command>, fqdn: string)
    requires OnlyFor(cs, fqdn)
    ensures Keys(cs) <= HostKeys(fqdn)
  {
    if cs != [] {
      var front, last := cs[..|cs| - 1], cs[|cs| - 1];
      assert forall k :: 0 <= k < |front| ==> front[k] == cs[k];
      KeysOfOneHost(front, fqdn);
      assert KeyOf(last) == BuildKey(last.component, fqdn);
    }
  }

  lemma {:induction false} OtherHostsHaveOtherKeys(desired: seq<DesiredHost>, fqdn: string)
    requires forall i :: 0 <= i < |desired| ==> !SameText(desired[i].fqdn, fqdn)
    ensures FleetKeys(desired) !! HostKeys(fqdn)
  {
    if desired != [] {
      var last := desired[|desired| - 1];
      OtherHostsHaveOtherKeys(desired[..|desired| - 1], fqdn);
      ComponentNames();
      KeysAgree(CADVISOR, last.fqdn, CADVISOR, fqdn);
      KeysAgree(CADVISOR, last.fqdn, NODE_EXPORTER, fqdn);
      KeysAgree(NODE_EXPORTER, last.fqdn, CADVISOR, fqdn);
      KeysAgree(NODE_EXPORTER, last.fqdn, NODE_EXPORTER, fqdn);
    }
  }

  lemma CommandedInConcat(a: seq<Command>, b: seq<Command>, fqdn: string, component: string)
    ensures Commanded(a + b, fqdn, component) <==> Commanded(a, fqdn, component) || Commanded(b, fqdn, component)
  {
    if k :| 0 <= k < |a| && a[k].component == component && SameText(a[k].fqdn, fqdn) {
      assert (a + b)[k] == a[k];
    }
    if k :| 0 <= k < |b| && b[k].component == component && SameText(b[k].fqdn, fqdn) {
      assert (a + b)[|a| + k] == b[k];
    }
  }

  function FirstCommands(cfg: Config, cycleId: string, desired: seq<DesiredHost>, actual: seq<ActualHost>,
                         n: nat): seq<Command>
    requires n <= |desired|
  {
    CommandsForAll(cfg, cycleId, actual, desired[..n])
  }

  lemma OneMoreHost(cfg: Config, cycleId: string, desired: seq<DesiredHost>, actual: seq<ActualHost>, k: nat)
    requires k < |desired|
    ensures FirstCommands(cfg, cycleId, desired, actual, k + 1) ==
            FirstCommands(cfg, cycleId, desired, actual, k) + CommandsForHost(cfg, cycleId, actual, desired[k])
    ensures FleetKeys(desired[..k + 1]) == FleetKeys(desired[..k]) + HostKeys(desired[k].fqdn)
  {
    assert desired[..k + 1][..k] == desired[..k];
  }

  lemma FleetHostKeys(cfg: Config, cycleId: string, desired: seq<DesiredHost>, actual: seq<ActualHost>, k: nat)
    requires BothEnabled(cfg) && Fleet(desired, actual) && k < |desired|
    ensures var mine := CommandsForHost(cfg, cycleId, actual, desired[k]);
            KeysDiffer(mine) && Keys(mine) <= HostKeys(desired[k].fqdn) && Keys(mine) !! FleetKeys(desired[..k])
  {
    assert Matched(desired[k], actual);
    HostCommands(cfg, cycleId, desired[k], actual);
    KeysOfOneHost(CommandsForHost(cfg, cycleId, actual, desired[k]), desired[k].fqdn);
    OtherHostsHaveOtherKeys(desired[..k], desired[k].fqdn);
  }

  lemma {:induction false} FleetKeysDiffer(cfg: Config, cycleId: string, desired: seq<DesiredHost>,
                                           actual: seq<ActualHost>, n: nat)
    requires BothEnabled(cfg) && Fleet(desired, actual) && n <= |desired|
    ensures var cs := FirstCommands(cfg, cycleId, desired, actual, n);
            KeysDiffer(cs) && Keys(cs) <= FleetKeys(desired[..n])
  {
    if n > 0 {
      var k := n - 1;
      FleetKeysDiffer(cfg, cycleId, desired, actual, k);
      OneMoreHost(cfg, cycleId, desired, actual, k);
      FleetHostKeys(cfg, cycleId, desired, actual, k);
      KeysInConcat(FirstCommands(cfg, cycleId, desired, actual, k), CommandsForHost(cfg, cycleId, actual, desired[k]));
    }
  }

  lemma NotCommandedElsewhere(cs: seq<Command>, f: string, g: string, component: string)
    requires OnlyFor(cs, f) && !SameText(f, g)
    ensures !Commanded(cs, g, component)
  {
  }

  /** What host `k` is sent, seen from an FQDN: something only if it is its own. */
  lemma FleetHostCommanded(cfg: Config, cycleId: string, desired: seq<DesiredHost>, actual: seq<ActualHost>,
                           k: nat, fqdn: string, c: string)
    requires BothEnabled(cfg) && Fleet(desired, actual) && k < |desired| && c in {CADVISOR, NODE_EXPORTER}
    ensures Commanded(CommandsForHost(cfg, cycleId, actual, desired[k]), fqdn, c)
            <==> SameText(desired[k].fqdn, fqdn) && Wants(desired[k], actual, c)
  {
    var cs := CommandsForHost(cfg, cycleId, actual, desired[k]);
    assert Matched(desired[k], actual);
    HostCommands(cfg, cycleId, desired[k], actual);
    if SameText(desired[k].fqdn, fqdn) {
      SameCommands(cs, desired[k].fqdn, fqdn, c);
    } else {
      NotCommandedElsewhere(cs, desired[k].fqdn, fqdn, c);
    }
  }

  lemma SameCommands(cs: seq<Command>, f: string, g: string, component: string)
    requires SameText(f, g)
    ensures Commanded(cs, f, component) <==> Commanded(cs, g, component)
  {
  }

  /** Some of the first `n` desired hosts has this FQDN and wants the component. */
  ghost predicate WantedAt(desired: seq<DesiredHost>, actual: seq<ActualHost>, n: nat, fqdn: string, c: string)
    requires n <= |desired|
  {
    exists i :: 0 <= i < n && SameText(desired[i].fqdn, fqdn) && Wants(desired[i], actual, c)
  }

  /** Among the commands for the first `n` hosts, an FQDN is sent exactly what its host wants. */
  lemma {:induction false} FleetCommanded(cfg: Config, cycleId: string, desired: seq<DesiredHost>,
                                          actual: seq<ActualHost>, n: nat, fqdn: string, c: string)
    requires BothEnabled(cfg) && Fleet(desired, actual) && n <= |desired| && c in {CADVISOR, NODE_EXPORTER}
    ensures Commanded(FirstCommands(cfg, cycleId, desired, actual, n), fqdn, c)
            <==> WantedAt(desired, actual, n, fqdn, c)
  {
    if n == 0 {
      assert FirstCommands(cfg, cycleId, desired, actual, n) == [];
    } else {
      var k := n - 1;
      FleetCommanded(cfg, cycleId, desired, actual, k, fqdn, c);
      FleetHostCommanded(cfg, cycleId, desired, actual, k, fqdn, c);
      WantedAtGrows(desired, actual, k, fqdn, c);
      OneMoreHost(cfg, cycleId, desired, actual, k);
      CommandedInConcat(FirstCommands(cfg, cycleId, desired, actual, k),
                        CommandsForHost(cfg, cycleId, actual, desired[k]), fqdn, c);
    }
  }

  /** Some desired host has this FQDN. */
  ghost predicate Belongs(fqdn: string, desired: seq<DesiredHost>) {
    exists i :: 0 <= i < |desired| && SameText(desired[i].fqdn, fqdn)
  }

  /** The commands of a round are exact: a desired host is sent what it wants, and an FQDN that no
      desired host has is sent nothing. */
  ghost predicate ExactlyCommanded(cs: seq<Command>, desired: seq<DesiredHost>, actual: seq<ActualHost>) {
    && (forall i, c :: 0 <= i < |desired| && c in {CADVISOR, NODE_EXPORTER} ==>
          (Commanded(cs, desired[i].fqdn, c) <==> Wants(desired[i], actual, c)))
    && forall f, c :: c in {CADVISOR, NODE_EXPORTER} && Commanded(cs, f, c) ==> Belongs(f, desired)
  }

  lemma FleetIsCommandedExactly(cfg: Config, cycleId: string, desired: seq<DesiredHost>, actual: seq<ActualHost>)
    requires BothEnabled(cfg) && Fleet(desired, actual)
    ensures ExactlyCommanded(CommandsForAll(cfg, cycleId, actual, desired), desired, actual)
  {
    var n, cs := |desired|, CommandsForAll(cfg, cycleId, actual, desired);
    assert desired[..n] == desired;
    forall i, c | 0 <= i < n && c in {CADVISOR, NODE_EXPORTER}
      ensures Commanded(cs, desired[i].fqdn, c) <==> Wants(desired[i], actual, c)
    {
      FleetCommanded(cfg, cycleId, desired, actual, n, desired[i].fqdn, c);
      WantedAtItsOwnFqdn(desired, actual, i, c);
    }
    forall f, c | c in {CADVISOR, NODE_EXPORTER} && Commanded(cs, f, c) ensures Belongs(f, desired) {
      FleetCommanded(cfg, cycleId, desired, actual, n, f, c);
    }
  }

  lemma WantedAtItsOwnFqdn(desired: seq<DesiredHost>, actual: seq<ActualHost>, i: nat, c: string)
    requires Fleet(desired, actual) && i < |desired|
    ensures WantedAt(desired, actual, |desired|, desired[i].fqdn, c) <==> Wants(desired[i], actual, c)
  {
    var fqdn := desired[i].fqdn;
    if WantedAt(desired, actual, |desired|, fqdn, c) {
      var j :| 0 <= j < |desired| && SameText(desired[j].fqdn, fqdn) && Wants(desired[j], actual, c);
      assert i == j by { FqdnsDiffer(desired, actual, i, j); }
    }
  }

  lemma FqdnsDiffer(desired: seq<DesiredHost>, actual: seq<ActualHost>, i: nat, j: nat)
    requires Fleet(desired, actual) && i < |desired| && j < |desired|
    ensures SameText(desired[j].fqdn, desired[i].fqdn) ==> i == j
  {
  }

  lemma WantedAtGrows(desired: seq<DesiredHost>, actual: seq<ActualHost>, k: nat, fqdn: string, c: string)
    requires k < |desired|
    ensures WantedAt(desired, actual, k + 1, fqdn, c)
            <==> WantedAt(desired, actual, k, fqdn, c)
                 || (SameText(desired[k].fqdn, fqdn) && Wants(desired[k], actual, c))
  {
  }

  // The environment

  /** What was commanded is installed, installing cadvisor makes its source healthy, and nothing that
      was seen running is lost. The environment may do more. */
  predicate HostStep(before: ActualHost, after: ActualHost, cs: seq<Command>) {
    && after.hostId == before.hostId && after.fqdn == before.fqdn
    && (Commanded(cs, before.fqdn, CADVISOR) ==> SeenRunning(after, CADVISOR))
    && (Commanded(cs, before.fqdn, NODE_EXPORTER) ==> HasWorkload(after, NODE_EXPORTER))
    && (IsSourceHealthy(before, CADVISOR) ==> IsSourceHealthy(after, CADVISOR))
    && (SeenRunning(before, CADVISOR) ==> SeenRunning(after, CADVISOR))
    && (SeenRunning(before, NODE_EXPORTER) ==> SeenRunning(after, NODE_EXPORTER))
  }

  ghost predicate EnvironmentStep(before: seq<ActualHost>, after: seq<ActualHost>, cs: seq<Command>) {
    |before| == |after| && forall i :: 0 <= i < |before| ==> HostStep(before[i], after[i], cs)
  }

  lemma {:induction false} SameIdentities(a: seq<ActualHost>, b: seq<ActualHost>, id: string) returns (k: nat)
    requires |a| == |b| && forall i :: 0 <= i < |a| ==> a[i].hostId == b[i].hostId
    ensures LastWithId(a, id).None? <==> LastWithId(b, id).None?
    ensures LastWithId(a, id).Some? ==> k < |a| && LastWithId(a, id).value == a[k] && LastWithId(b, id).value == b[k]
  {
    k := 0;
    if a != [] {
      var n := |a| - 1;
      k := n;
      if Normalize(a[n].hostId) != id {
        assert forall i :: 0 <= i < n ==> a[..n][i] == a[i] && b[..n][i] == b[i];
        k := SameIdentities(a[..n], b[..n], id);
      }
    }
  }

  lemma {:induction false} SameFqdns(a: seq<ActualHost>, b: seq<ActualHost>, fqdn: string) returns (k: nat)
    requires |a| == |b| && forall i :: 0 <= i < |a| ==> a[i].fqdn == b[i].fqdn
    ensures LastWithFqdn(a, fqdn).None? <==> LastWithFqdn(b, fqdn).None?
    ensures LastWithFqdn(a, fqdn).Some? ==>
              k < |a| && LastWithFqdn(a, fqdn).value == a[k] && LastWithFqdn(b, fqdn).value == b[k]
  {
    k := 0;
    if a != [] {
      var n := |a| - 1;
      k := n;
      if Normalize(a[n].fqdn) != fqdn {
        assert forall i :: 0 <= i < n ==> a[..n][i] == a[i] && b[..n][i] == b[i];
        k := SameFqdns(a[..n], b[..n], fqdn);
      }
    }
  }

  /** The environment leaves every desired host matched with the same actual host. */
  lemma FindHostIsKept(d: DesiredHost, before: seq<ActualHost>, after: seq<ActualHost>) returns (k: nat)
    requires |after| == |before|
    requires forall j :: 0 <= j < |before| ==> after[j].hostId == before[j].hostId && after[j].fqdn == before[j].fqdn
    ensures FindHost(d, before).None? <==> FindHost(d, after).None?
    ensures FindHost(d, before).Some? ==>
              k < |before| && FindHost(d, before).value == before[k] && FindHost(d, after).value == after[k]
  {
    var i := SameIdentities(before, after, Normalize(d.hostId));
    var j := SameFqdns(before, after, Normalize(d.fqdn));
    k := if Normalize(d.hostId) != "" && LastWithId(before, Normalize(d.hostId)).Some? then i else j;
  }

  /** A matched host stays matched, and its actual host takes the environment's step. */
  lemma MatchIsKept(d: DesiredHost, before: seq<ActualHost>, after: seq<ActualHost>, cs: seq<Command>)
    requires Matched(d, before) && EnvironmentStep(before, after, cs)
    ensures Matched(d, after) && HostStep(FindHost(d, before).value, FindHost(d, after).value, cs)
  {
    assert forall j :: 0 <= j < |before| ==> HostStep(before[j], after[j], cs);
    var k := FindHostIsKept(d, before, after);
    assert HostStep(before[k], after[k], cs);
  }

  lemma FleetIsKept(desired: seq<DesiredHost>, before: seq<ActualHost>, after: seq<ActualHost>, cs: seq<Command>)
    requires Fleet(desired, before) && EnvironmentStep(before, after, cs)
    ensures Fleet(desired, after)
  {
    forall i | 0 <= i < |desired| ensures Matched(desired[i], after) {
      MatchIsKept(desired[i], before, after, cs);
    }
  }

  // Rounds

  /** A round: one cycle over the fleet, then the environment acts on the commands it sent. */
  ghost predicate Round(cfg: Config, w: World, cycleId: string, desired: seq<DesiredHost>,
                        l: Ledger, l': Ledger, before: seq<ActualHost>, after: seq<ActualHost>)
  {
    && l' == VisitAll(cfg, w, cycleId, before, l, desired)
    && l.calls <= l'.calls
    && EnvironmentStep(before, after, SentIn(l, l'))
  }

  function SentIn(l: Ledger, l': Ledger): seq<Command>
    requires l.calls <= l'.calls
  {
    l'.calls[|l.calls|..]
  }

  /** The desired host is seen to run the component. */
  predicate Runs(d: DesiredHost, actual: seq<ActualHost>, component: string) {
    FindHost(d, actual).Some? && SeenRunning(FindHost(d, actual).value, component)
  }

  /** Pairs of a desired host and a component it is not seen to run. */
  function Missing(desired: seq<DesiredHost>, actual: seq<ActualHost>): nat {
    if desired == [] then 0
    else Missing(desired[..|desired| - 1], actual) + MissingOn(desired[|desired| - 1], actual)
  }

  function MissingOn(d: DesiredHost, actual: seq<ActualHost>): nat {
    (if Runs(d, actual, CADVISOR) then 0 else 1) + (if Runs(d, actual, NODE_EXPORTER) then 0 else 1)
  }

  lemma ProgressLowersMissingOn(d: DesiredHost, before: seq<ActualHost>, after: seq<ActualHost>)
    requires Progress(d, before, after)
    ensures MissingOn(d, after) <= MissingOn(d, before)
    ensures MissingOn(d, before) > 0 ==> MissingOn(d, after) < MissingOn(d, before)
  {
  }

  predicate RunsBoth(d: DesiredHost, actual: seq<ActualHost>) {
    Runs(d, actual, CADVISOR) && Runs(d, actual, NODE_EXPORTER)
  }

  lemma MissingOnNone(d: DesiredHost, actual: seq<ActualHost>)
    ensures MissingOn(d, actual) == 0 <==> RunsBoth(d, actual)
  {
  }

  lemma {:induction false} NothingMissingOn(desired: seq<DesiredHost>, actual: seq<ActualHost>, i: nat)
    requires i < |desired| && Missing(desired, actual) == 0
    ensures RunsBoth(desired[i], actual)
  {
    var n := |desired| - 1;
    if i < n { NothingMissingOn(desired[..n], actual, i); } else { MissingOnNone(desired[i], actual); }
  }

  lemma {:induction false} MissingNone(desired: seq<DesiredHost>, actual: seq<ActualHost>)
    requires forall i :: 0 <= i < |desired| ==> RunsBoth(desired[i], actual)
    ensures Missing(desired, actual) == 0
  {
    if desired != [] {
      var n := |desired| - 1;
      MissingNone(desired[..n], actual);
      MissingOnNone(desired[n], actual);
    }
  }

  predicate Healthy(d: DesiredHost, actual: seq<ActualHost>) {
    FindHost(d, actual).Some? && IsSourceHealthy(FindHost(d, actual).value, CADVISOR)
  }

  /** Per desired host: nothing is lost, cadvisor comes first, and node_exporter is left out only
      where the source was not healthy. */
  predicate Progress(d: DesiredHost, before: seq<ActualHost>, after: seq<ActualHost>) {
    && Runs(d, after, CADVISOR)
    && (Healthy(d, before) || Runs(d, before, NODE_EXPORTER) ==> Runs(d, after, NODE_EXPORTER))
  }

  lemma HostMakesProgress(d: DesiredHost, before: seq<ActualHost>, after: seq<ActualHost>, cs: seq<Command>)
    requires Matched(d, before) && EnvironmentStep(before, after, cs)
    requires forall c :: c in {CADVISOR, NODE_EXPORTER} && Wants(d, before, c) ==> Commanded(cs, d.fqdn, c)
    ensures Progress(d, before, after)
  {
    MatchIsKept(d, before, after, cs);
    SameCommands(cs, d.fqdn, FindHost(d, before).value.fqdn, CADVISOR);
    SameCommands(cs, d.fqdn, FindHost(d, before).value.fqdn, NODE_EXPORTER);
  }

  /** A round that finds every key cooled down and every send accepted. */
  ghost predicate CalmRound(cfg: Config, w: World, cycleId: string, desired: seq<DesiredHost>,
                            l: Ledger, l': Ledger, before: seq<ActualHost>, after: seq<ActualHost>)
  {
    && BothEnabled(cfg) && AllAccepted(w) && Elapsed(w, cfg.cooldown, l)
    && Round(cfg, w, cycleId, desired, l, l', before, after)
  }

  /** An environment that installs both components everywhere. */
  function Install(host: ActualHost): ActualHost {
    host.(workloads := host.workloads + [CADVISOR, NODE_EXPORTER],
          sourceStatus := host.sourceStatus[CADVISOR := SourceStatus(CADVISOR, true, "ok", "")])
  }

  lemma InstallObeys(host: ActualHost, cs: seq<Command>)
    ensures HostStep(host, Install(host), cs)
  {
    var n, names := |host.workloads|, Install(host).workloads;
    assert Trim(CADVISOR) == CADVISOR && Trim(NODE_EXPORTER) == NODE_EXPORTER && Trim("ok") == "ok";
    ComponentNames();
    assert Lower("ok") == "ok";
    assert names[n] == CADVISOR && Names(names[n], CADVISOR);
    assert names[n + 1] == NODE_EXPORTER && Names(names[n + 1], NODE_EXPORTER);
  }

  /** The theorems below are about something: whatever a round commands, some environment obeys. */
  lemma RoundsCanHappen(cfg: Config, w: World, cycleId: string, desired: seq<DesiredHost>, l: Ledger,
                        before: seq<ActualHost>) returns (l': Ledger, after: seq<ActualHost>)
    requires Fleet(desired, before) && BothEnabled(cfg) && AllAccepted(w) && Elapsed(w, cfg.cooldown, l)
    ensures CalmRound(cfg, w, cycleId, desired, l, l', before, after)
  {
    l' := VisitAll(cfg, w, cycleId, before, l, desired);
    after := seq(|before|, i requires 0 <= i < |before| => Install(before[i]));
    assert desired[..|desired|] == desired;
    FleetKeysDiffer(cfg, cycleId, desired, before, |desired|);
    RoundSends(cfg, w, cycleId, before, l, desired);
    forall i | 0 <= i < |before| ensures HostStep(before[i], after[i], SentIn(l, l')) {
      InstallObeys(before[i], SentIn(l, l'));
    }
  }

  /** One round: exactly the wanted commands go out, and every desired host makes progress. */
  lemma RoundMakesProgress(cfg: Config, w: World, cycleId: string, desired: seq<DesiredHost>,
                           l: Ledger, l': Ledger, before: seq<ActualHost>, after: seq<ActualHost>)
    requires Fleet(desired, before) && CalmRound(cfg, w, cycleId, desired, l, l', before, after)
    ensures Fleet(desired, after) && ExactlyCommanded(SentIn(l, l'), desired, before)
    ensures forall i :: 0 <= i < |desired| ==> Progress(desired[i], before, after)
  {
    var cs := SentIn(l, l');
    assert desired[..|desired|] == desired;
    FleetKeysDiffer(cfg, cycleId, desired, before, |desired|);
    RoundSends(cfg, w, cycleId, before, l, desired);
    assert cs == CommandsForAll(cfg, cycleId, before, desired);
    FleetIsCommandedExactly(cfg, cycleId, desired, before);
    FleetIsKept(desired, before, after, cs);
    forall i | 0 <= i < |desired| ensures Progress(desired[i], before, after) {
      assert Matched(desired[i], before);
      HostMakesProgress(desired[i], before, after, cs);
    }
  }

  lemma {:induction false} ProgressLowersMissing(desired: seq<DesiredHost>, before: seq<ActualHost>,
                                                 after: seq<ActualHost>)
    requires forall i :: 0 <= i < |desired| ==> Progress(desired[i], before, after)
    ensures Missing(desired, after) <= Missing(desired, before)
    ensures Missing(desired, before) > 0 ==> Missing(desired, after) < Missing(desired, before)
  {
    if desired != [] {
      var front := desired[..|desired| - 1];
      assert forall i :: 0 <= i < |front| ==> front[i] == desired[i];
      ProgressLowersMissing(front, before, after);
      ProgressLowersMissingOn(desired[|desired| - 1], before, after);
    }
  }

  /** Every round with drift strictly lowers the number of missing (host, component) pairs. */
  lemma RoundLowersMissing(cfg: Config, w: World, cycleId: string, desired: seq<DesiredHost>,
                           l: Ledger, l': Ledger, before: seq<ActualHost>, after: seq<ActualHost>)
    requires Fleet(desired, before) && CalmRound(cfg, w, cycleId, desired, l, l', before, after)
    requires Missing(desired, before) > 0
    ensures Missing(desired, after) < Missing(desired, before)
  {
    RoundMakesProgress(cfg, w, cycleId, desired, l, l', before, after);
    ProgressLowersMissing(desired, before, after);
  }

  /** An unhealthy host is sent cadvisor and nothing else, and then only what it still lacks. */
  ghost predicate CadvisorFirst(d: DesiredHost, a0: seq<ActualHost>, a1: seq<ActualHost>, first: seq<Command>,
                                second: seq<Command>) {
    !Healthy(d, a0) ==>
      && Commanded(first, d.fqdn, CADVISOR) && !Commanded(first, d.fqdn, NODE_EXPORTER)
      && !Commanded(second, d.fqdn, CADVISOR)
      && (Commanded(second, d.fqdn, NODE_EXPORTER) <==> !Runs(d, a1, NODE_EXPORTER))
  }

  /** Two rounds suffice, and where the source was not healthy cadvisor comes before node_exporter. */
  lemma TwoRoundsSuffice(cfg: Config, w: World, id0: string, id1: string, desired: seq<DesiredHost>,
                         l0: Ledger, l1: Ledger, l2: Ledger,
                         a0: seq<ActualHost>, a1: seq<ActualHost>, a2: seq<ActualHost>)
    requires Fleet(desired, a0)
    requires CalmRound(cfg, w, id0, desired, l0, l1, a0, a1) && CalmRound(cfg, w, id1, desired, l1, l2, a1, a2)
    ensures Missing(desired, a2) == 0
    ensures forall i :: 0 <= i < |desired| ==> CadvisorFirst(desired[i], a0, a1, SentIn(l0, l1), SentIn(l1, l2))
  {
    RoundMakesProgress(cfg, w, id0, desired, l0, l1, a0, a1);
    RoundMakesProgress(cfg, w, id1, desired, l1, l2, a1, a2);
    forall i | 0 <= i < |desired|
      ensures RunsBoth(desired[i], a2) && CadvisorFirst(desired[i], a0, a1, SentIn(l0, l1), SentIn(l1, l2))
    {
      assert Progress(desired[i], a0, a1) && Progress(desired[i], a1, a2) && Matched(desired[i], a0);
      OrderOfCommands(desired, i, a0, a1, SentIn(l0, l1), SentIn(l1, l2));
    }
    MissingNone(desired, a2);
  }

  lemma OrderOfCommands(desired: seq<DesiredHost>, i: nat, a0: seq<ActualHost>, a1: seq<ActualHost>,
                        first: seq<Command>, second: seq<Command>)
    requires ExactlyCommanded(first, desired, a0) && ExactlyCommanded(second, desired, a1)
    requires i < |desired| && Matched(desired[i], a0) && Progress(desired[i], a0, a1)
    ensures CadvisorFirst(desired[i], a0, a1, first, second)
  {
    ComponentNames();
    var d := desired[i];
    assert Commanded(first, d.fqdn, CADVISOR) <==> Wants(d, a0, CADVISOR);
    assert Commanded(first, d.fqdn, NODE_EXPORTER) <==> Wants(d, a0, NODE_EXPORTER);
    assert Commanded(second, d.fqdn, CADVISOR) <==> Wants(d, a1, CADVISOR);
    assert Commanded(second, d.fqdn, NODE_EXPORTER) <==> Wants(d, a1, NODE_EXPORTER);
  }

  /** No command, no mark and no drift since `l`. */
  predicate NothingSent(l: Ledger, m: Ledger) {
    m.calls == l.calls && m.lastSent == l.lastSent && Count(m.entries, IS_DRIFT) == Count(l.entries, IS_DRIFT)
  }

  /** A fleet without missing pairs is left alone, whatever the cooldowns, the clock and the sends. */
  lemma NoDriftSendsNothing(cfg: Config, w: World, cycleId: string, desired: seq<DesiredHost>,
                            actual: seq<ActualHost>, l: Ledger)
    requires BothEnabled(cfg) && Fleet(desired, actual) && Missing(desired, actual) == 0
    ensures NothingSent(l, VisitAll(cfg, w, cycleId, actual, l, desired))
  {
    forall i | 0 <= i < |desired| ensures Quiet(cfg, w, cycleId, actual, desired[i]) {
      NothingMissingOn(desired, actual, i);
      assert Matched(desired[i], actual);
      forall m ensures VisitHost(cfg, w, cycleId, actual, m, desired[i]) == Note(m, HostCompared) {
        QuietHost(cfg, w, cycleId, desired[i], actual, m);
      }
    }
    assert desired[..|desired|] == desired;
    QuietPrefix(cfg, w, cycleId, desired, actual, l, |desired|);
  }

  lemma QuietHost(cfg: Config, w: World, cycleId: string, d: DesiredHost, actual: seq<ActualHost>, l: Ledger)
    requires BothEnabled(cfg) && Matched(d, actual) && RunsBoth(d, actual)
    ensures VisitHost(cfg, w, cycleId, actual, l, d) == Note(l, HostCompared)
  {
    var host := FindHost(d, actual).value;
    ComponentNames();
    JudgeByCases(cycleId, d, host, CADVISOR);
    JudgeByCases(cycleId, d, host, NODE_EXPORTER);
    var vs := Verdicts(cfg, cycleId, d, host);
    assert vs[0] == InSync && vs[1] == InSync;
    assert vs == [InSync, InSync];
    QuietVerdicts(w, cfg.cooldown, Note(l, HostCompared));
  }

  lemma QuietVerdicts(w: World, cooldown: int, l: Ledger)
    ensures SettleAll(w, cooldown, l, [InSync, InSync]) == l
  {
    var one: seq<Verdict> := [InSync];
    var two: seq<Verdict> := [InSync, InSync];
    assert one[..0] == [] && SettleAll(w, cooldown, l, one) == l;
    assert two[..1] == one;
  }

  /** A visit to the host does nothing but count it. */
  ghost predicate Quiet(cfg: Config, w: World, cycleId: string, actual: seq<ActualHost>, d: DesiredHost) {
    forall m :: VisitHost(cfg, w, cycleId, actual, m, d) == Note(m, HostCompared)
  }

  lemma {:induction false} QuietPrefix(cfg: Config, w: World, cycleId: string, desired: seq<DesiredHost>,
                                       actual: seq<ActualHost>, l: Ledger, n: nat)
    requires n <= |desired| && forall k :: 0 <= k < n ==> Quiet(cfg, w, cycleId, actual, desired[k])
    ensures NothingSent(l, VisitAll(cfg, w, cycleId, actual, l, desired[..n]))
  {
    if n > 0 {
      QuietPrefix(cfg, w, cycleId, desired, actual, l, n - 1);
      QuietStep(cfg, w, cycleId, desired, actual, l, n - 1);
    }
  }

  lemma QuietStep(cfg: Config, w: World, cycleId: string, desired: seq<DesiredHost>, actual: seq<ActualHost>, l: Ledger,
                  k: nat)
    requires k < |desired| && Quiet(cfg, w, cycleId, actual, desired[k])
    requires NothingSent(l, VisitAll(cfg, w, cycleId, actual, l, desired[..k]))
    ensures NothingSent(l, VisitAll(cfg, w, cycleId, actual, l, desired[..k + 1]))
  {
    OneMoreVisit(cfg, w, cycleId, actual, l, desired, k);
    QuietNote(l, VisitAll(cfg, w, cycleId, actual, l, desired[..k]));
  }

  lemma QuietNote(l: Ledger, m: Ledger)
    requires NothingSent(l, m)
    ensures NothingSent(l, Note(m, HostCompared))
  {
    NoteCounts(m, HostCompared);
  }
}
