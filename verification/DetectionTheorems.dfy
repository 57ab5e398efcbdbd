/** The cycle as one caller of the cooldown protocol, over any number of cycles. */
module DetectionSpacing {
  import opened Counting
  import opened DriftDomain
  import opened Detectors
  import opened Cooldown
  import opened DetectionCycle
  import Protocol = CooldownProtocol

  function MarkFor(e: Entry): seq<Mark> {
    if e.SendAccepted? then [Mark(KeyOf(e.command), e.now)] else []
  }

  function MarksFor(es: seq<Entry>): seq<Mark> {
    if es == [] then [] else MarksFor(es[..|es| - 1]) + MarkFor(es[|es| - 1])
  }

  lemma MarksAfterNote(l: Ledger, e: Entry)
    ensures MarksFor(Note(l, e).entries) == MarksFor(l.entries) + MarkFor(e)
  {
    assert (l.entries + [e])[..|l.entries|] == l.entries;
  }

  /** Caller `i` is inside its cycle, and protocol and ledger agree; `before` was marked earlier. */
  predicate InStep(p: Protocol.State, i: nat, before: seq<Mark>, l: Ledger) {
    && i < |p.callers| && p.callers[i] == Protocol.InCycle
    && p.lastSent == l.lastSent && p.log == before + MarksFor(l.entries)
  }

  lemma DispatchIsProtocolRun(pc: Protocol.Config, p: Protocol.State, i: nat, before: seq<Mark>,
                              w: World, l: Ledger, command: Command) returns (es: seq<Protocol.Event>)
    requires InStep(p, i, before, l)
    ensures Protocol.Runs(pc, p, es)
    ensures var q := Protocol.After(pc, p, es);
            InStep(q, i, before, Dispatch(w, pc.cooldown, l, command)) && q.callers == p.callers
  {
    var now, key := w.clock(l.readings), KeyOf(command);
    var check := Protocol.Checks(i, key, now);
    Protocol.OneMoreEvent(pc, p, [], check);
    es := [] + [check];
    if MaySend(l.lastSent, key, now, pc.cooldown) {
      var last := if w.accepts(|l.calls|) then Protocol.Marks(i) else Protocol.SendFails(i);
      SendStaysInStep(pc, p, i, before, w, l, command);
      Protocol.OneMoreEvent(pc, p, es, last);
      es := es + [last];
    } else {
      MarksAfterNote(l, Suppressed(command, now));
      assert p.callers[i := Protocol.InCycle] == p.callers;
    }
  }

  lemma OutAndBack(callers: seq<Protocol.Caller>, i: nat, c: Protocol.Caller)
    requires i < |callers| && callers[i] == Protocol.InCycle
    ensures callers[i := c][i := Protocol.InCycle] == callers
  {
  }

  /** A send that the store lets through: the check, then the mark or the failure. */
  lemma SendStaysInStep(pc: Protocol.Config, p: Protocol.State, i: nat, before: seq<Mark>, w: World, l: Ledger,
                        command: Command)
    requires InStep(p, i, before, l)
    requires MaySend(l.lastSent, KeyOf(command), w.clock(l.readings), pc.cooldown)
    ensures var check := Protocol.Checks(i, KeyOf(command), w.clock(l.readings));
            var last := if w.accepts(|l.calls|) then Protocol.Marks(i) else Protocol.SendFails(i);
            && Protocol.Enabled(p, check) && Protocol.Enabled(Protocol.Apply(pc, p, check), last)
            && var q := Protocol.Apply(pc, Protocol.Apply(pc, p, check), last);
               InStep(q, i, before, Dispatch(w, pc.cooldown, l, command)) && q.callers == p.callers
  {
    DispatchLeavesOneEntry(w, pc.cooldown, l, command);
    MarksAfterNote(l, DispatchEntry(w, pc.cooldown, l, command));
    ConcatIsAssociative(before, MarksFor(l.entries), MarkFor(DispatchEntry(w, pc.cooldown, l, command)));
    OutAndBack(p.callers, i, Protocol.Sending(KeyOf(command), w.clock(l.readings)));
  }

  lemma SettleIsProtocolRun(pc: Protocol.Config, p: Protocol.State, i: nat, before: seq<Mark>,
                            w: World, l: Ledger, v: Verdict) returns (es: seq<Protocol.Event>)
    requires InStep(p, i, before, l)
    ensures Protocol.Runs(pc, p, es)
    ensures var q := Protocol.After(pc, p, es);
            InStep(q, i, before, Settle(w, pc.cooldown, l, v)) && q.callers == p.callers
  {
    if v.Drifted? {
      es := DispatchIsProtocolRun(pc, p, i, before, w, l, v.command);
    } else {
      es := [];
      var m := Settle(w, pc.cooldown, l, v);
      if m.entries != l.entries { MarksAfterNote(l, m.entries[|m.entries| - 1]); }
    }
  }

  lemma {:induction false} SettleAllIsProtocolRun(pc: Protocol.Config, p: Protocol.State, i: nat, before: seq<Mark>,
                                                  w: World, l: Ledger, vs: seq<Verdict>)
    returns (es: seq<Protocol.Event>)
    requires InStep(p, i, before, l)
    ensures Protocol.Runs(pc, p, es)
    ensures var q := Protocol.After(pc, p, es);
            InStep(q, i, before, SettleAll(w, pc.cooldown, l, vs)) && q.callers == p.callers
  {
    es := [];
    if vs != [] {
      var front := vs[..|vs| - 1];
      es := SettleAllIsProtocolRun(pc, p, i, before, w, l, front);
      var more := SettleIsProtocolRun(pc, Protocol.After(pc, p, es), i, before, w,
                                      SettleAll(w, pc.cooldown, l, front), vs[|vs| - 1]);
      Protocol.RunsCompose(pc, p, es, more);
      es := es + more;
    }
  }

  /** A whole cycle is a run of the protocol's events of one caller, so what holds of every run of
      the protocol holds of the marks that cycles make. */
  lemma {:induction false} CycleIsProtocolRun(pc: Protocol.Config, p: Protocol.State, i: nat, before: seq<Mark>,
                                              cfg: Config, w: World,
                                              cycleId: string, actual: seq<ActualHost>, l: Ledger,
                                              desired: seq<DesiredHost>)
    returns (es: seq<Protocol.Event>)
    requires InStep(p, i, before, l) && cfg.cooldown == pc.cooldown
    ensures Protocol.Runs(pc, p, es)
    ensures var q := Protocol.After(pc, p, es);
            InStep(q, i, before, VisitAll(cfg, w, cycleId, actual, l, desired)) && q.callers == p.callers
  {
    es := [];
    if desired != [] {
      var front, last := desired[..|desired| - 1], desired[|desired| - 1];
      es := CycleIsProtocolRun(pc, p, i, before, cfg, w, cycleId, actual, l, front);
      var m := VisitAll(cfg, w, cycleId, actual, l, front);
      MarksAfterNote(m, HostMissing(last.hostId, last.fqdn));
      MarksAfterNote(m, HostCompared);
      if FindHost(last, actual).Some? {
        var more := SettleAllIsProtocolRun(pc, Protocol.After(pc, p, es), i, before, w, Note(m, HostCompared),
                                           Verdicts(cfg, cycleId, last, FindHost(last, actual).value));
        Protocol.RunsCompose(pc, p, es, more);
        es := es + more;
      }
    }
  }

  // Many cycles

  /** What one cycle fetched. */
  datatype Fetched = Fetched(cycleId: string, actual: seq<ActualHost>, desired: seq<DesiredHost>)

  /** One cycle after another, with the entries of all of them. */
  function RunCycles(cfg: Config, w: World, l: Ledger, cycles: seq<Fetched>): Ledger {
    if cycles == [] then l
    else
      var last := cycles[|cycles| - 1];
      VisitAll(cfg, w, last.cycleId, last.actual, RunCycles(cfg, w, l, cycles[..|cycles| - 1]), last.desired)
  }

  lemma {:induction false} CyclesAreProtocolRun(pc: Protocol.Config, p: Protocol.State, i: nat, cfg: Config, w: World,
                                                l: Ledger, cycles: seq<Fetched>) returns (es: seq<Protocol.Event>)
    requires InStep(p, i, [], l) && cfg.cooldown == pc.cooldown
    ensures Protocol.Runs(pc, p, es)
    ensures InStep(Protocol.After(pc, p, es), i, [], RunCycles(cfg, w, l, cycles))
  {
    es := [];
    if cycles != [] {
      es := CyclesAreProtocolRun(pc, p, i, cfg, w, l, cycles[..|cycles| - 1]);
      var last := cycles[|cycles| - 1];
      var more := CycleIsProtocolRun(pc, Protocol.After(pc, p, es), i, [], cfg, w, last.cycleId, last.actual,
                                     RunCycles(cfg, w, l, cycles[..|cycles| - 1]), last.desired);
      Protocol.RunsCompose(pc, p, es, more);
      es := es + more;
    }
  }

  const EMPTY_LEDGER := Ledger(map[], 0, [], [])

  /** Over any cycles, whatever they fetch, whatever the clock reads and whichever sends succeed,
      accepted sends for one key are at least the cooldown apart, and so their rate is bounded. */
  lemma CyclesSpaceTheirSends(cfg: Config, w: World, cycles: seq<Fetched>, key: string, lo: int, hi: int)
    requires cfg.cooldown > 0
    ensures var times := TimesOf(MarksFor(RunCycles(cfg, w, EMPTY_LEDGER, cycles).entries), key);
            && Spaced(times, cfg.cooldown)
            && CountWithin(times, lo, hi) <= if lo <= hi then (hi - lo) / cfg.cooldown + 1 else 0
  {
    var pc := Protocol.Config(cfg.cooldown, true);
    var start := Protocol.Initial(1);
    Protocol.OneMoreEvent(pc, start, [], Protocol.Begins(0));
    var begun := Protocol.After(pc, start, [Protocol.Begins(0)]);
    assert [] + [Protocol.Begins(0)] == [Protocol.Begins(0)];
    var es := CyclesAreProtocolRun(pc, begun, 0, cfg, w, EMPTY_LEDGER, cycles);
    Protocol.RunsCompose(pc, start, [Protocol.Begins(0)], es);
    Protocol.MarksAreSpaced(pc, 1);
    var q := Protocol.After(pc, start, [Protocol.Begins(0)] + es);
    assert q.log == MarksFor(RunCycles(cfg, w, EMPTY_LEDGER, cycles).entries);
    WindowBound(TimesOf(q.log, key), cfg.cooldown, lo, hi);
  }

  /** Entries are only ever added, and nothing depends on those already there: starting a cycle
      with an empty ledger, as the service does, gives the same cycle. */
  lemma {:induction false} EarlierEntriesDoNotMatter(cfg: Config, w: World, cycleId: string, actual: seq<ActualHost>,
                                                     l: Ledger, desired: seq<DesiredHost>)
    ensures var alone := VisitAll(cfg, w, cycleId, actual, l.(entries := []), desired);
            VisitAll(cfg, w, cycleId, actual, l, desired) == alone.(entries := l.entries + alone.entries)
  {
    if desired != [] {
      var front, last := desired[..|desired| - 1], desired[|desired| - 1];
      EarlierEntriesDoNotMatter(cfg, w, cycleId, actual, l, front);
      var alone := VisitAll(cfg, w, cycleId, actual, l.(entries := []), front);
      var full := VisitAll(cfg, w, cycleId, actual, l, front);
      match FindHost(last, actual)
      case None =>
        var e := HostMissing(last.hostId, last.fqdn);
        assert full.entries + [e] == l.entries + (alone.entries + [e]);
      case Some(host) =>
        assert full.entries + [HostCompared] == l.entries + (alone.entries + [HostCompared]);
        SettleAllAddsEntries(w, cfg.cooldown, l.entries, Note(alone, HostCompared), Verdicts(cfg, cycleId, last, host));
    }
  }

  lemma {:induction false} SettleAllAddsEntries(w: World, cooldown: int, earlier: seq<Entry>, l: Ledger,
                                                vs: seq<Verdict>)
    ensures var alone := SettleAll(w, cooldown, l, vs);
            SettleAll(w, cooldown, l.(entries := earlier + l.entries), vs) == alone.(entries := earlier + alone.entries)
  {
    if vs != [] {
      SettleAllAddsEntries(w, cooldown, earlier, l, vs[..|vs| - 1]);
      SettleAddsEntries(w, cooldown, earlier, SettleAll(w, cooldown, l, vs[..|vs| - 1]), vs[|vs| - 1]);
    }
  }

  lemma SettleAddsEntries(w: World, cooldown: int, earlier: seq<Entry>, l: Ledger, v: Verdict)
    ensures var alone := Settle(w, cooldown, l, v);
            Settle(w, cooldown, l.(entries := earlier + l.entries), v) == alone.(entries := earlier + alone.entries)
  {
    var alone := Settle(w, cooldown, l, v);
    if alone.entries != l.entries {
      var e := alone.entries[|alone.entries| - 1];
      assert (earlier + l.entries) + [e] == earlier + (l.entries + [e]);
    }
  }
}

/** How often one cycle may try to reconcile one component of one host. */
module DetectionAttempts {
  import opened Counting
  import opened DriftDomain
  import opened Detectors
  import opened DetectionCycle

  /** An entry that tells of a command for the component, whatever became of it. */
  predicate IsAttempt(e: Entry, component: string) {
    match e
    case Suppressed(command, _) => command.component == component
    case SendFailed(command, _) => command.component == component
    case SendAccepted(command, _) => command.component == component
    case _ => false
  }

  function Attempts(es: seq<Entry>, component: string): nat {
    if es == [] then 0 else Attempts(es[..|es| - 1], component) + if IsAttempt(es[|es| - 1], component) then 1 else 0
  }

  function CallsFor(cs: seq<Command>, component: string): nat {
    if cs == [] then 0 else CallsFor(cs[..|cs| - 1], component) + if cs[|cs| - 1].component == component then 1 else 0
  }

  predicate DriftsFor(v: Verdict, component: string) {
    v.Drifted? && v.command.component == component
  }

  function Drifts(vs: seq<Verdict>, component: string): nat {
    if vs == [] then 0 else Drifts(vs[..|vs| - 1], component) + if DriftsFor(vs[|vs| - 1], component) then 1 else 0
  }

  lemma NoteAttempts(l: Ledger, e: Entry, component: string)
    ensures Attempts(Note(l, e).entries, component)
         == Attempts(l.entries, component) + if IsAttempt(e, component) then 1 else 0
  {
    assert (l.entries + [e])[..|l.entries|] == l.entries;
  }

  lemma CallsAppend(cs: seq<Command>, c: Command, component: string)
    ensures CallsFor(cs + [c], component) == CallsFor(cs, component) + if c.component == component then 1 else 0
  {
    assert (cs + [c])[..|cs|] == cs;
  }

  lemma DispatchAttempts(w: World, cooldown: int, l: Ledger, command: Command, component: string)
    ensures var m, one := Dispatch(w, cooldown, l, command), if command.component == component then 1 else 0;
            && Attempts(m.entries, component) == Attempts(l.entries, component) + one
            && CallsFor(m.calls, component) <= CallsFor(l.calls, component) + one
  {
    DispatchLeavesOneEntry(w, cooldown, l, command);
    NoteAttempts(l, DispatchEntry(w, cooldown, l, command), component);
    CallsAppend(l.calls, command, component);
  }

  lemma SettleAttempts(w: World, cooldown: int, l: Ledger, v: Verdict, component: string)
    ensures var m, one := Settle(w, cooldown, l, v), if DriftsFor(v, component) then 1 else 0;
            && Attempts(m.entries, component) == Attempts(l.entries, component) + one
            && CallsFor(m.calls, component) <= CallsFor(l.calls, component) + one
  {
    if v.Drifted? {
      DispatchAttempts(w, cooldown, l, v.command, component);
    } else {
      var m := Settle(w, cooldown, l, v);
      if m.entries != l.entries { NoteAttempts(l, m.entries[|m.entries| - 1], component); }
    }
  }

  lemma {:induction false} SettleAllAttempts(w: World, cooldown: int, l: Ledger, vs: seq<Verdict>, component: string)
    ensures var m := SettleAll(w, cooldown, l, vs);
            && Attempts(m.entries, component) == Attempts(l.entries, component) + Drifts(vs, component)
            && CallsFor(m.calls, component) <= CallsFor(l.calls, component) + Drifts(vs, component)
  {
    if vs != [] {
      var front := vs[..|vs| - 1];
      SettleAllAttempts(w, cooldown, l, front, component);
      SettleAttempts(w, cooldown, SettleAll(w, cooldown, l, front), vs[|vs| - 1], component);
    }
  }

  lemma VerdictIsForItsComponent(cycleId: string, desired: DesiredHost, actual: ActualHost, component: string)
    ensures var v := Judge(BOTH_DETECTORS, cycleId, desired, actual, component);
            v.Drifted? ==> v.command.component == component
  {
    if component in BOTH_DETECTORS { JudgeByCases(cycleId, desired, actual, component); }
  }

  /** The first `n` verdicts drift for a component no more often than it is enabled. */
  lemma {:induction false} DriftsPerComponent(cfg: Config, cycleId: string, desired: DesiredHost, actual: ActualHost,
                                              n: nat, component: string)
    requires cfg.registry == BOTH_DETECTORS && n <= |cfg.components|
    ensures Drifts(Verdicts(cfg, cycleId, desired, actual)[..n], component) <= Times(cfg.components[..n], component)
  {
    if n > 0 {
      var vs := Verdicts(cfg, cycleId, desired, actual);
      DriftsPerComponent(cfg, cycleId, desired, actual, n - 1, component);
      assert vs[..n][..n - 1] == vs[..n - 1] && cfg.components[..n][..n - 1] == cfg.components[..n - 1];
      assert vs[n - 1] == Judge(cfg.registry, cycleId, desired, actual, cfg.components[n - 1]);
      VerdictIsForItsComponent(cycleId, desired, actual, cfg.components[n - 1]);
    }
  }

  /** With de-duplicated components, what a cycle adds to the ledger for one desired host holds at most
      one attempt per component, and at most one command for it goes out. */
  lemma OneAttemptPerComponent(cfg: Config, w: World, cycleId: string, actual: seq<ActualHost>, l: Ledger,
                               desired: DesiredHost, component: string)
    requires cfg.registry == BOTH_DETECTORS && Distinct(cfg.components)
    ensures var m := VisitHost(cfg, w, cycleId, actual, l, desired);
            && Attempts(l.entries, component) <= Attempts(m.entries, component) <= Attempts(l.entries, component) + 1
            && CallsFor(m.calls, component) <= CallsFor(l.calls, component) + 1
  {
    match FindHost(desired, actual)
    case None => NoteAttempts(l, HostMissing(desired.hostId, desired.fqdn), component);
    case Some(host) =>
      NoteAttempts(l, HostCompared, component);
      SettleAllAttempts(w, cfg.cooldown, Note(l, HostCompared), Verdicts(cfg, cycleId, desired, host), component);
      OneDriftPerComponent(cfg, cycleId, desired, host, component);
  }

  lemma OneDriftPerComponent(cfg: Config, cycleId: string, desired: DesiredHost, actual: ActualHost, component: string)
    requires cfg.registry == BOTH_DETECTORS && Distinct(cfg.components)
    ensures Drifts(Verdicts(cfg, cycleId, desired, actual), component) <= 1
  {
    var vs, n := Verdicts(cfg, cycleId, desired, actual), |cfg.components|;
    DriftsPerComponent(cfg, cycleId, desired, actual, n, component);
    OnceIfDistinct(cfg.components, component);
    assert vs[..n] == vs && cfg.components[..n] == cfg.components;
  }
}

/** Which errors a configured cycle can meet. */
module DetectionErrors {
  import opened DriftDomain
  import opened Detectors
  import opened DetectionCycle

  /** Both detectors registered, and only their components enabled. */
  ghost predicate WellConfigured(cfg: Config) {
    cfg.registry == BOTH_DETECTORS
    && forall i :: 0 <= i < |cfg.components| ==> cfg.components[i] == CADVISOR || cfg.components[i] == NODE_EXPORTER
  }

  predicate Regular(v: Verdict) {
    !v.NoDetector? && !v.NoCommand?
  }

  lemma VerdictsAreRegular(cfg: Config, cycleId: string, desired: DesiredHost, actual: ActualHost)
    requires WellConfigured(cfg)
    ensures forall v :: v in Verdicts(cfg, cycleId, desired, actual) ==> Regular(v)
  {
    var vs := Verdicts(cfg, cycleId, desired, actual);
    forall i | 0 <= i < |vs| ensures Regular(vs[i]) {
      assert vs[i] == Judge(cfg.registry, cycleId, desired, actual, cfg.components[i]);
      JudgeByCases(cycleId, desired, actual, cfg.components[i]);
    }
  }

  lemma NoteErrors(l: Ledger, e: Entry)
    ensures Count(Note(l, e).entries, IS_ERROR) == Count(l.entries, IS_ERROR) + (if IS_ERROR(e) then 1 else 0)
    ensures Count(Note(l, e).entries, IS_FAILED) == Count(l.entries, IS_FAILED) + (if IS_FAILED(e) then 1 else 0)
  {
    CountAppend(l.entries, e, IS_ERROR);
    CountAppend(l.entries, e, IS_FAILED);
  }

  predicate OnlySendsErr(l: Ledger) {
    Count(l.entries, IS_ERROR) == Count(l.entries, IS_FAILED)
  }

  lemma {:induction false} SettlingErrsOnSends(w: World, cooldown: int, l: Ledger, vs: seq<Verdict>)
    requires OnlySendsErr(l) && forall v :: v in vs ==> Regular(v)
    ensures OnlySendsErr(SettleAll(w, cooldown, l, vs))
  {
    if vs != [] {
      var front := vs[..|vs| - 1];
      SettlingErrsOnSends(w, cooldown, l, front);
      var m := SettleAll(w, cooldown, l, front);
      var e := SettleNotes(w, cooldown, m, vs[|vs| - 1]);
      assert Regular(vs[|vs| - 1]);
      NoteErrors(m, e);
    }
  }

  /** In a service as it is put together, every error of a cycle past its fetches is a failed send. */
  lemma {:induction false} ErrorsAreFailedSends(cfg: Config, w: World, cycleId: string, actual: seq<ActualHost>,
                                                start: Ledger, desired: seq<DesiredHost>)
    requires WellConfigured(cfg) && start.entries == []
    ensures OnlySendsErr(VisitAll(cfg, w, cycleId, actual, start, desired))
  {
    if desired != [] {
      var front, d := desired[..|desired| - 1], desired[|desired| - 1];
      ErrorsAreFailedSends(cfg, w, cycleId, actual, start, front);
      var l := VisitAll(cfg, w, cycleId, actual, start, front);
      match FindHost(d, actual)
      case None => NoteErrors(l, HostMissing(d.hostId, d.fqdn));
      case Some(host) =>
        NoteErrors(l, HostCompared);
        VerdictsAreRegular(cfg, cycleId, d, host);
        SettlingErrsOnSends(w, cfg.cooldown, Note(l, HostCompared), Verdicts(cfg, cycleId, d, host));
    }
  }
}
