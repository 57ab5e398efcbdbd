/** Rounds in which any send may fail and any command may be held back by its cooldown. */
module PartialRounds {
  import opened Counting
  import opened Wrappers
  import opened Text
  import opened DriftDomain
  import opened Detectors
  import opened Cooldown
  import opened DetectionCycle
  import opened Convergence

  /** The commands whose sending was accepted. */
  function Accepted(es: seq<Entry>): seq<Command> {
    if es == [] then []
    else
      var last := es[|es| - 1];
      Accepted(es[..|es| - 1]) + if last.SendAccepted? then [last.command] else []
  }

  /** A round: one cycle over the fleet, then the environment acts on what was accepted. */
  ghost predicate AnyRound(cfg: Config, w: World, cycleId: string, desired: seq<DesiredHost>,
                           l: Ledger, l': Ledger, before: seq<ActualHost>, after: seq<ActualHost>)
  {
    && BothEnabled(cfg) && l.entries == [] && l' == VisitAll(cfg, w, cycleId, before, l, desired)
    && EnvironmentStep(before, after, Accepted(l'.entries))
  }

  // Only commands are accepted

  lemma AcceptedAppend(es: seq<Entry>, e: Entry)
    ensures Accepted(es + [e]) == Accepted(es) + if e.SendAccepted? then [e.command] else []
  {
    assert (es + [e])[..|es|] == es;
  }

  ghost predicate AddsOnly(l: Ledger, l': Ledger, cs: seq<Command>) {
    forall c :: c in Accepted(l'.entries) ==> c in Accepted(l.entries) || c in cs
  }

  lemma SettleAccepts(w: World, cooldown: int, l: Ledger, v: Verdict)
    ensures AddsOnly(l, Settle(w, cooldown, l, v), CommandOf(v))
  {
    if v.Drifted? {
      DispatchLeavesOneEntry(w, cooldown, l, v.command);
      AcceptedAppend(l.entries, DispatchEntry(w, cooldown, l, v.command));
    } else {
      var m := Settle(w, cooldown, l, v);
      if m.entries != l.entries { AcceptedAppend(l.entries, m.entries[|m.entries| - 1]); }
    }
  }

  lemma {:induction false} SettleAllAccepts(w: World, cooldown: int, l: Ledger, vs: seq<Verdict>)
    ensures AddsOnly(l, SettleAll(w, cooldown, l, vs), CommandsIn(vs))
  {
    if vs != [] {
      var front, last := vs[..|vs| - 1], vs[|vs| - 1];
      SettleAllAccepts(w, cooldown, l, front);
      SettleAccepts(w, cooldown, SettleAll(w, cooldown, l, front), last);
      assert forall c :: c in CommandsIn(vs) <==> c in CommandsIn(front) || c in CommandOf(last);
    }
  }

  lemma VisitAccepts(cfg: Config, w: World, cycleId: string, actual: seq<ActualHost>, l: Ledger, d: DesiredHost)
    ensures AddsOnly(l, VisitHost(cfg, w, cycleId, actual, l, d), CommandsForHost(cfg, cycleId, actual, d))
  {
    match FindHost(d, actual)
    case None => AcceptedAppend(l.entries, HostMissing(d.hostId, d.fqdn));
    case Some(host) =>
      AcceptedAppend(l.entries, HostCompared);
      SettleAllAccepts(w, cfg.cooldown, Note(l, HostCompared), Verdicts(cfg, cycleId, d, host));
  }

  lemma {:induction false} RoundAccepts(cfg: Config, w: World, cycleId: string, actual: seq<ActualHost>, l: Ledger,
                                        desired: seq<DesiredHost>)
    ensures AddsOnly(l, VisitAll(cfg, w, cycleId, actual, l, desired), CommandsForAll(cfg, cycleId, actual, desired))
  {
    if desired != [] {
      var front, last := desired[..|desired| - 1], desired[|desired| - 1];
      RoundAccepts(cfg, w, cycleId, actual, l, front);
      VisitAccepts(cfg, w, cycleId, actual, VisitAll(cfg, w, cycleId, actual, l, front), last);
      var cs, more := CommandsForAll(cfg, cycleId, actual, front), CommandsForHost(cfg, cycleId, actual, last);
      assert forall c :: c in CommandsForAll(cfg, cycleId, actual, desired) <==> c in cs || c in more;
    }
  }

  lemma {:induction false} CommandsAreForComponents(cfg: Config, cycleId: string, actual: seq<ActualHost>,
                                                    desired: seq<DesiredHost>, c: Command)
    requires BothEnabled(cfg) && Fleet(desired, actual) && c in CommandsForAll(cfg, cycleId, actual, desired)
    ensures c.component in {CADVISOR, NODE_EXPORTER}
  {
    if desired != [] {
      var n := |desired| - 1;
      if c in CommandsForAll(cfg, cycleId, actual, desired[..n]) {
        PartOfFleet(desired, actual, n);
        CommandsAreForComponents(cfg, cycleId, actual, desired[..n], c);
      } else {
        assert Matched(desired[n], actual);
        HostCommandsAreForComponents(cfg, cycleId, actual, desired[n], c);
      }
    }
  }

  lemma PartOfFleet(desired: seq<DesiredHost>, actual: seq<ActualHost>, n: nat)
    requires Fleet(desired, actual) && n <= |desired|
    ensures Fleet(desired[..n], actual)
  {
    assert forall i :: 0 <= i < n ==> desired[..n][i] == desired[i];
  }

  lemma HostCommandsAreForComponents(cfg: Config, cycleId: string, actual: seq<ActualHost>, d: DesiredHost, c: Command)
    requires BothEnabled(cfg) && Matched(d, actual) && c in CommandsForHost(cfg, cycleId, actual, d)
    ensures c.component in {CADVISOR, NODE_EXPORTER}
  {
    var cs := CommandsForHost(cfg, cycleId, actual, d);
    HostCommands(cfg, cycleId, d, actual);
    assert OnlyFor(cs, d.fqdn);
    var k :| 0 <= k < |cs| && cs[k] == c;
  }

  // What a round is good for

  /** Whatever was commanded, nothing that runs is lost. */
  lemma NothingIsLostOn(d: DesiredHost, before: seq<ActualHost>, after: seq<ActualHost>, cs: seq<Command>)
    requires EnvironmentStep(before, after, cs)
    ensures Runs(d, before, CADVISOR) ==> Runs(d, after, CADVISOR)
    ensures Runs(d, before, NODE_EXPORTER) ==> Runs(d, after, NODE_EXPORTER)
    ensures MissingOn(d, after) <= MissingOn(d, before)
  {
    assert forall j :: 0 <= j < |before| ==> HostStep(before[j], after[j], cs);
    var k := FindHostIsKept(d, before, after);
    if FindHost(d, before).Some? { assert HostStep(before[k], after[k], cs); }
  }

  function MissingOnEach(desired: seq<DesiredHost>, actual: seq<ActualHost>): seq<nat> {
    seq(|desired|, i requires 0 <= i < |desired| => MissingOn(desired[i], actual))
  }

  lemma {:induction false} MissingIsSum(desired: seq<DesiredHost>, actual: seq<ActualHost>)
    ensures Missing(desired, actual) == Sum(MissingOnEach(desired, actual))
  {
    if desired != [] {
      var n := |desired| - 1;
      MissingIsSum(desired[..n], actual);
      assert MissingOnEach(desired, actual)[..n] == MissingOnEach(desired[..n], actual);
    }
  }

  predicate NoneGrows(xs: seq<nat>, ys: seq<nat>) {
    |xs| == |ys| && forall i :: 0 <= i < |xs| ==> ys[i] <= xs[i]
  }

  lemma NothingIsLostOnEach(desired: seq<DesiredHost>, before: seq<ActualHost>, after: seq<ActualHost>,
                            cs: seq<Command>)
    requires EnvironmentStep(before, after, cs)
    ensures NoneGrows(MissingOnEach(desired, before), MissingOnEach(desired, after))
  {
    forall i | 0 <= i < |desired| ensures MissingOnEach(desired, after)[i] <= MissingOnEach(desired, before)[i] {
      NothingIsLostOn(desired[i], before, after, cs);
    }
  }

  lemma MissingNeverGrows(desired: seq<DesiredHost>, before: seq<ActualHost>, after: seq<ActualHost>, cs: seq<Command>)
    requires EnvironmentStep(before, after, cs)
    ensures Missing(desired, after) <= Missing(desired, before)
  {
    NothingIsLostOnEach(desired, before, after, cs);
    MissingIsSum(desired, before);
    MissingIsSum(desired, after);
    SumShrinks(MissingOnEach(desired, before), MissingOnEach(desired, after));
  }

  /** No host loses anything, so one gain makes the sum smaller. */
  lemma OneGainCounts(desired: seq<DesiredHost>, before: seq<ActualHost>, after: seq<ActualHost>, cs: seq<Command>,
                      i: nat)
    requires EnvironmentStep(before, after, cs) && i < |desired|
    requires MissingOn(desired[i], after) < MissingOn(desired[i], before)
    ensures Missing(desired, after) < Missing(desired, before)
  {
    var xs, ys := MissingOnEach(desired, before), MissingOnEach(desired, after);
    NothingIsLostOnEach(desired, before, after, cs);
    MissingIsSum(desired, before);
    MissingIsSum(desired, after);
    assert ys[i] < xs[i];
    SumShrinks(xs, ys);
  }

  /** A wanted component that is commanded is running afterwards. */
  lemma CommandedRuns(d: DesiredHost, before: seq<ActualHost>, after: seq<ActualHost>, cs: seq<Command>, c: string)
    requires Matched(d, before) && EnvironmentStep(before, after, cs)
    requires c in {CADVISOR, NODE_EXPORTER} && Wants(d, before, c) && Commanded(cs, d.fqdn, c)
    ensures Runs(d, after, c) && MissingOn(d, after) < MissingOn(d, before)
  {
    ComponentNames();
    MatchIsKept(d, before, after, cs);
    SameCommands(cs, d.fqdn, FindHost(d, before).value.fqdn, c);
    NothingIsLostOn(d, before, after, cs);
  }

  /** Every accepted command is for a desired host that wants it. */
  lemma AcceptedIsWanted(cfg: Config, w: World, cycleId: string, desired: seq<DesiredHost>, l: Ledger,
                         actual: seq<ActualHost>, c: Command) returns (i: nat)
    requires BothEnabled(cfg) && Fleet(desired, actual) && l.entries == []
    requires c in Accepted(VisitAll(cfg, w, cycleId, actual, l, desired).entries)
    ensures i < |desired| && SameText(desired[i].fqdn, c.fqdn) && Wants(desired[i], actual, c.component)
    ensures c.component in {CADVISOR, NODE_EXPORTER}
  {
    var cs := CommandsForAll(cfg, cycleId, actual, desired);
    RoundAccepts(cfg, w, cycleId, actual, l, desired);
    assert c in cs;
    CommandsAreForComponents(cfg, cycleId, actual, desired, c);
    FleetIsCommandedExactly(cfg, cycleId, desired, actual);
    assert Commanded(cs, c.fqdn, c.component) by { InIsCommanded(cs, c); }
    assert Belongs(c.fqdn, desired);
    i :| 0 <= i < |desired| && SameText(desired[i].fqdn, c.fqdn);
    SameCommands(cs, desired[i].fqdn, c.fqdn, c.component);
  }

  lemma InIsCommanded(cs: seq<Command>, c: Command)
    requires c in cs
    ensures Commanded(cs, c.fqdn, c.component)
  {
    var k :| 0 <= k < |cs| && cs[k] == c;
    assert SameText(cs[k].fqdn, c.fqdn);
  }

  /** Any round at all: the number of missing pairs never grows; a wanted component whose command was
      accepted runs afterwards; and if any command was accepted, fewer pairs are missing than before. */
  lemma AnyRoundMakesProgress(cfg: Config, w: World, cycleId: string, desired: seq<DesiredHost>,
                              l: Ledger, l': Ledger, before: seq<ActualHost>, after: seq<ActualHost>)
    requires Fleet(desired, before) && AnyRound(cfg, w, cycleId, desired, l, l', before, after)
    ensures Fleet(desired, after) && Missing(desired, after) <= Missing(desired, before)
    ensures forall i, c :: 0 <= i < |desired| && c in {CADVISOR, NODE_EXPORTER} && Wants(desired[i], before, c)
                           && Commanded(Accepted(l'.entries), desired[i].fqdn, c) ==>
              Runs(desired[i], after, c)
    ensures Accepted(l'.entries) != [] ==> Missing(desired, after) < Missing(desired, before)
  {
    var cs := Accepted(l'.entries);
    FleetIsKept(desired, before, after, cs);
    MissingNeverGrows(desired, before, after, cs);
    forall i, c | 0 <= i < |desired| && c in {CADVISOR, NODE_EXPORTER} && Wants(desired[i], before, c)
                  && Commanded(cs, desired[i].fqdn, c)
      ensures Runs(desired[i], after, c)
    {
      assert Matched(desired[i], before);
      CommandedRuns(desired[i], before, after, cs, c);
    }
    if cs != [] { AcceptedLowersMissing(cfg, w, cycleId, desired, l, l', before, after); }
  }

  lemma AcceptedLowersMissing(cfg: Config, w: World, cycleId: string, desired: seq<DesiredHost>,
                              l: Ledger, l': Ledger, before: seq<ActualHost>, after: seq<ActualHost>)
    requires Fleet(desired, before) && AnyRound(cfg, w, cycleId, desired, l, l', before, after)
    requires Accepted(l'.entries) != []
    ensures Missing(desired, after) < Missing(desired, before)
  {
    var cs := Accepted(l'.entries);
    var i := AcceptedIsWanted(cfg, w, cycleId, desired, l, before, cs[0]);
    InIsCommanded(cs, cs[0]);
    SameCommands(cs, desired[i].fqdn, cs[0].fqdn, cs[0].component);
    assert Matched(desired[i], before);
    CommandedRuns(desired[i], before, after, cs, cs[0].component);
    OneGainCounts(desired, before, after, cs, i);
  }

  // Two calm rounds in a row do happen

  /** Every time in the store is one of the readings taken so far. */
  ghost predicate MarksAreReadings(w: World, l: Ledger) {
    forall key :: key in l.lastSent ==> exists j: nat :: j < l.readings && l.lastSent[key] == w.clock(j)
  }

  lemma DispatchMarksReadings(w: World, cooldown: int, l: Ledger, command: Command)
    requires MarksAreReadings(w, l)
    ensures MarksAreReadings(w, Dispatch(w, cooldown, l, command))
  {
    var m := Dispatch(w, cooldown, l, command);
    forall key | key in m.lastSent ensures exists j: nat :: j < m.readings && m.lastSent[key] == w.clock(j) {
      if key in l.lastSent && m.lastSent[key] == l.lastSent[key] {
        var j: nat :| j < l.readings && l.lastSent[key] == w.clock(j);
        assert j < m.readings;
      } else {
        assert m.lastSent[key] == w.clock(l.readings);
      }
    }
  }

  lemma {:induction false} SettleAllMarksReadings(w: World, cooldown: int, l: Ledger, vs: seq<Verdict>)
    requires MarksAreReadings(w, l)
    ensures MarksAreReadings(w, SettleAll(w, cooldown, l, vs))
  {
    if vs != [] {
      var last := vs[|vs| - 1];
      SettleAllMarksReadings(w, cooldown, l, vs[..|vs| - 1]);
      var m := SettleAll(w, cooldown, l, vs[..|vs| - 1]);
      if last.Drifted? { DispatchMarksReadings(w, cooldown, m, last.command); }
    }
  }

  lemma {:induction false} RoundMarksReadings(cfg: Config, w: World, cycleId: string, actual: seq<ActualHost>,
                                              l: Ledger, desired: seq<DesiredHost>)
    requires MarksAreReadings(w, l)
    ensures MarksAreReadings(w, VisitAll(cfg, w, cycleId, actual, l, desired))
  {
    if desired != [] {
      var front, last := desired[..|desired| - 1], desired[|desired| - 1];
      RoundMarksReadings(cfg, w, cycleId, actual, l, front);
      var m := VisitAll(cfg, w, cycleId, actual, l, front);
      if FindHost(last, actual).Some? {
        var vs := Verdicts(cfg, cycleId, last, FindHost(last, actual).value);
        SettleAllMarksReadings(w, cfg.cooldown, Note(m, HostCompared), vs);
      }
    }
  }

  /** A clock that advances by at least the cooldown between readings, and a reconciler that accepts. */
  function SlowWorld(cooldown: int): World {
    World((k: nat) => k * if cooldown > 0 then cooldown else 0, (k: nat) => true)
  }

  lemma SlowWorldElapses(cooldown: int, l: Ledger)
    requires MarksAreReadings(SlowWorld(cooldown), l)
    ensures AllAccepted(SlowWorld(cooldown)) && Elapsed(SlowWorld(cooldown), cooldown, l)
  {
    var w, gap := SlowWorld(cooldown), if cooldown > 0 then cooldown else 0;
    forall key, k: nat | key in l.lastSent && l.readings <= k ensures w.clock(k) - l.lastSent[key] >= cooldown {
      var j: nat :| j < l.readings && l.lastSent[key] == w.clock(j);
      Ahead(k - j, gap);
      assert w.clock(k) - w.clock(j) == k * gap - j * gap == (k - j) * gap;
    }
  }

  lemma Ahead(n: nat, gap: nat)
    requires n >= 1
    ensures n * gap >= gap
  {
  }

  const FRESH := Ledger(map[], 0, [], [])

  /** From any fleet and a fresh store, in some world two calm rounds follow each other, and what
      `TwoRoundsSuffice` and `NoDriftSendsNothing` assume can be met. */
  lemma TwoRoundsCanHappen(cfg: Config, id0: string, id1: string, desired: seq<DesiredHost>, a0: seq<ActualHost>)
    returns (l1: Ledger, l2: Ledger, a1: seq<ActualHost>, a2: seq<ActualHost>)
    requires Fleet(desired, a0) && BothEnabled(cfg)
    ensures CalmRound(cfg, SlowWorld(cfg.cooldown), id0, desired, FRESH, l1, a0, a1)
    ensures CalmRound(cfg, SlowWorld(cfg.cooldown), id1, desired, l1, l2, a1, a2)
    ensures Fleet(desired, a2) && Missing(desired, a2) == 0
  {
    var w := SlowWorld(cfg.cooldown);
    SlowWorldElapses(cfg.cooldown, FRESH);
    l1, a1 := RoundsCanHappen(cfg, w, id0, desired, FRESH, a0);
    RoundMakesProgress(cfg, w, id0, desired, FRESH, l1, a0, a1);
    RoundMarksReadings(cfg, w, id0, a0, FRESH, desired);
    SlowWorldElapses(cfg.cooldown, l1);
    l2, a2 := RoundsCanHappen(cfg, w, id1, desired, l1, a1);
    RoundMakesProgress(cfg, w, id1, desired, l1, l2, a1, a2);
    TwoRoundsSuffice(cfg, w, id0, id1, desired, FRESH, l1, l2, a0, a1, a2);
  }

  /** A fleet of one host that lacks everything. */
  lemma SomeFleetHasDrift() returns (desired: seq<DesiredHost>, actual: seq<ActualHost>)
    ensures Fleet(desired, actual) && Missing(desired, actual) == 2
  {
    var cadvisor := DesiredWorkload(CADVISOR, true, "container", "image", None, None);
    var nodeExporter := cadvisor.(name := NODE_EXPORTER);
    var d := DesiredHost("", "host", map[], [cadvisor, nodeExporter]);
    var a := ActualHost("", "host", map[], "ok", [], map[]);
    desired, actual := [d], [a];
    assert Trim("") == "" && Lower("") == "" && Trim("host") == "host" && Lower("host")[0] == 'h';
    BothRequired(d, cadvisor, nodeExporter);
    assert FindHost(d, actual) == Some(a);
    assert desired[..0] == [] && Missing(desired[..0], actual) == 0;
  }

  lemma BothRequired(d: DesiredHost, cadvisor: DesiredWorkload, nodeExporter: DesiredWorkload)
    requires d.workloads == [cadvisor, nodeExporter] && cadvisor.enabled && nodeExporter.enabled
    requires cadvisor.name == CADVISOR && nodeExporter.name == NODE_EXPORTER
    requires cadvisor.deploymentMode == nodeExporter.deploymentMode == "container"
    ensures RequiresContainer(d, CADVISOR) && RequiresContainer(d, NODE_EXPORTER)
  {
    assert Trim("container") == "container" && Lower("container") == "container";
    assert Trim(CADVISOR) == CADVISOR && Trim(NODE_EXPORTER) == NODE_EXPORTER;
    ComponentNames();
    assert FindWorkload(d.workloads, CADVISOR) == Some(cadvisor);
    assert d.workloads[1..] == [nodeExporter] && FindWorkload(d.workloads, NODE_EXPORTER) == Some(nodeExporter);
  }
}
