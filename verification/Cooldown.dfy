/** The cooldown store: when a command was last sent for a key, and whether it may be sent again.
    Times are clock readings; nothing is assumed about the clock, which may run backwards. */
module Cooldown {
  import opened Text

  function BuildKey(component: string, fqdn: string): string {
    Lower(component) + "|" + Normalize(fqdn)
  }

  /** Two commands share a key exactly when their components agree up to case and their FQDNs up to case
      and surrounding space. */
  lemma KeysAgree(c1: string, f1: string, c2: string, f2: string)
    requires '|' !in c1 && '|' !in c2
    ensures BuildKey(c1, f1) == BuildKey(c2, f2) <==> Lower(c1) == Lower(c2) && SameText(f1, f2)
  {
    var k1, k2 := BuildKey(c1, f1), BuildKey(c2, f2);
    if k1 == k2 {
      assert k1[|c1|] == '|' && k2[|c2|] == '|';
      assert forall i :: 0 <= i < |c1| ==> k1[i] == LowerChar(c1[i]) && k1[i] != '|';
      assert forall i :: 0 <= i < |c2| ==> k2[i] == LowerChar(c2[i]) && k2[i] != '|';
      assert |c1| == |c2|;
      assert Lower(c1) == k1[..|c1|] && Normalize(f1) == k1[|c1| + 1..];
      assert Lower(c2) == k2[..|c2|] && Normalize(f2) == k2[|c2| + 1..];
    }
  }

  predicate MaySend(lastSent: map<string, int>, key: string, now: int, cooldown: int) {
    cooldown <= 0 || key !in lastSent || now - lastSent[key] >= cooldown
  }

  class Store {
    var lastSent: map<string, int>

    constructor ()
      ensures lastSent == map[]
    {
      lastSent := map[];
    }

    /** The second result is how much longer the key stays blocked: no less, and no more. */
    method CanSend(key: string, now: int, cooldown: int) returns (ok: bool, remaining: int)
      ensures ok == MaySend(lastSent, key, now, cooldown)
      ensures ok ==> remaining == 0
      ensures !ok ==> remaining > 0
      ensures !ok ==> forall later :: MaySend(lastSent, key, later, cooldown) <==> later >= now + remaining
    {
      if cooldown <= 0 { return true, 0; }
      if key !in lastSent { return true, 0; }
      var elapsed := now - lastSent[key];
      if elapsed >= cooldown { return true, 0; }
      return false, cooldown - elapsed;
    }

    method MarkSent(key: string, at: int)
      modifies this
      ensures lastSent == old(lastSent)[key := at]
    {
      lastSent := lastSent[key := at];
    }
  }

  // What was marked, over time

  datatype Mark = Mark(key: string, at: int)

  function TimesOf(log: seq<Mark>, key: string): seq<int> {
    if log == [] then []
    else TimesOf(log[..|log| - 1], key) + if log[|log| - 1].key == key then [log[|log| - 1].at] else []
  }

  lemma TimesOfAppend(log: seq<Mark>, m: Mark, key: string)
    ensures TimesOf(log + [m], key) == TimesOf(log, key) + if m.key == key then [m.at] else []
  {
    assert (log + [m])[..|log|] == log;
  }

  predicate Spaced(times: seq<int>, gap: int) {
    forall i :: 0 < i < |times| ==> times[i] - times[i - 1] >= gap
  }

  function CountWithin(times: seq<int>, lo: int, hi: int): nat {
    if times == [] then 0
    else CountWithin(times[..|times| - 1], lo, hi) + if lo <= times[|times| - 1] <= hi then 1 else 0
  }

  lemma {:induction false} SpacedAscends(times: seq<int>, gap: int, i: nat, j: nat)
    requires Spaced(times, gap) && gap >= 0 && i <= j < |times|
    ensures times[i] <= times[j]
    decreases j
  {
    if i < j { SpacedAscends(times, gap, i, j - 1); }
  }

  lemma {:induction false} CountBelow(times: seq<int>, lo: int, hi: int, hi': int)
    requires hi' <= hi && forall i :: 0 <= i < |times| ==> times[i] <= hi'
    ensures CountWithin(times, lo, hi) == CountWithin(times, lo, hi')
  {
    if times != [] { CountBelow(times[..|times| - 1], lo, hi, hi'); }
  }

  /** How many times `gap` apart fit into a closed window of this length. */
  function Fits(length: int, gap: int): nat
    requires gap > 0
  {
    if length < 0 then 0 else length / gap + 1
  }

  /** In a closed window of length W, at most W / gap + 1 of the times fit. */
  lemma {:induction false} WindowBound(times: seq<int>, gap: int, lo: int, hi: int)
    requires Spaced(times, gap) && gap > 0
    ensures CountWithin(times, lo, hi) <= Fits(hi - lo, gap)
  {
    if times != [] {
      var front, last := times[..|times| - 1], times[|times| - 1];
      if lo <= last <= hi {
        WindowBound(front, gap, lo, last - gap);
        LastInWindow(times, gap, lo, hi);
      } else {
        WindowBound(front, gap, lo, hi);
      }
    }
  }

  lemma LastInWindow(times: seq<int>, gap: int, lo: int, hi: int)
    requires Spaced(times, gap) && gap > 0 && times != [] && lo <= times[|times| - 1] <= hi
    requires CountWithin(times[..|times| - 1], lo, times[|times| - 1] - gap) <= Fits(times[|times| - 1] - gap - lo, gap)
    ensures CountWithin(times, lo, hi) <= Fits(hi - lo, gap)
  {
    var front, last := times[..|times| - 1], times[|times| - 1];
    forall i | 0 <= i < |front| ensures front[i] <= last - gap {
      SpacedAscends(times, gap, i, |times| - 2);
    }
    CountBelow(front, lo, hi, last - gap);
    OneMoreFits(last - lo, hi - lo, gap);
  }

  lemma OneMoreFits(a: int, b: int, gap: int)
    requires gap > 0 && 0 <= a <= b
    ensures Fits(a - gap, gap) + 1 <= Fits(b, gap)
  {
    if a >= gap {
      var p, q := (a - gap) / gap, b / gap;
      assert p * gap <= a - gap && b < (q + 1) * gap;
      assert (q - p) * gap == (q + 1) * gap - (p + 1) * gap;
      PositiveFactor(q - p, gap);
    }
  }

  lemma PositiveFactor(x: int, gap: int)
    requires gap > 0 && x * gap > 0
    ensures x > 0
  {
  }
}

/** Any number of callers of `RunCycle`, interleaved at will. `CanSend` and `MarkSent` are two
    steps with the sending in between. */
module CooldownProtocol {
  import opened Cooldown

  datatype Caller = Outside | InCycle | Sending(key: string, now: int)

  datatype State = State(callers: seq<Caller>, running: bool, lastSent: map<string, int>, log: seq<Mark>)

  /** `Ends` is `finishCycle`, which is deferred and so runs even if the sending panics. */
  datatype Event =
    | Begins(caller: nat)
    | Checks(caller: nat, key: string, now: int)
    | SendFails(caller: nat)
    | Marks(caller: nat)
    | Ends(caller: nat)

  /** `exclusive` says that `beginCycle` turns callers away while the running flag is set. The
      service does; the other value is there to show what that is worth. */
  datatype Config = Config(cooldown: int, exclusive: bool)

  function Initial(n: nat): State {
    State(seq(n, _ => Outside), false, map[], [])
  }

  predicate Enabled(s: State, e: Event) {
    e.caller < |s.callers| &&
    var c := s.callers[e.caller];
    match e
    case Begins(_) => c == Outside
    case Checks(_, _, _) => c == InCycle
    case SendFails(_) => c.Sending?
    case Marks(_) => c.Sending?
    case Ends(_) => c != Outside
  }

  function Apply(cfg: Config, s: State, e: Event): State
    requires Enabled(s, e)
  {
    match e
    case Begins(i) =>
      if s.running && cfg.exclusive then s
      else s.(running := true, callers := s.callers[i := InCycle])
    case Checks(i, key, now) =>
      if MaySend(s.lastSent, key, now, cfg.cooldown) then s.(callers := s.callers[i := Sending(key, now)])
      else s
    case SendFails(i) =>
      s.(callers := s.callers[i := InCycle])
    case Marks(i) =>
      var c := s.callers[i];
      s.(callers := s.callers[i := InCycle], lastSent := s.lastSent[c.key := c.now],
         log := s.log + [Mark(c.key, c.now)])
    case Ends(i) =>
      s.(running := false, callers := s.callers[i := Outside])
  }

  predicate Runs(cfg: Config, s: State, es: seq<Event>)
    decreases |es|
  {
    es == [] || (Enabled(s, es[0]) && Runs(cfg, Apply(cfg, s, es[0]), es[1..]))
  }

  function After(cfg: Config, s: State, es: seq<Event>): State
    requires Runs(cfg, s, es)
    decreases |es|
  {
    if es == [] then s else After(cfg, Apply(cfg, s, es[0]), es[1..])
  }

  lemma {:induction false} RunsCompose(cfg: Config, s: State, es: seq<Event>, fs: seq<Event>)
    requires Runs(cfg, s, es) && Runs(cfg, After(cfg, s, es), fs)
    ensures Runs(cfg, s, es + fs) && After(cfg, s, es + fs) == After(cfg, After(cfg, s, es), fs)
    decreases |es|
  {
    if es == [] {
      assert es + fs == fs;
    } else {
      assert (es + fs)[1..] == es[1..] + fs;
      RunsCompose(cfg, Apply(cfg, s, es[0]), es[1..], fs);
    }
  }

  // The invariant

  /** The running flag is set exactly while somebody is inside, and only one caller can be. */
  ghost predicate OneInside(s: State) {
    && (s.running <==> exists i :: 0 <= i < |s.callers| && s.callers[i] != Outside)
    && forall i, j :: 0 <= i < j < |s.callers| ==> s.callers[i] == Outside || s.callers[j] == Outside
  }

  predicate StoreMatchesLog(s: State, key: string) {
    var times := TimesOf(s.log, key);
    if times == [] then key !in s.lastSent else key in s.lastSent && s.lastSent[key] == times[|times| - 1]
  }

  /** Whoever is sending could still pass the check: nobody has marked the key since. */
  ghost predicate ChecksStillHold(cfg: Config, s: State) {
    forall i :: 0 <= i < |s.callers| && s.callers[i].Sending? ==>
      MaySend(s.lastSent, s.callers[i].key, s.callers[i].now, cfg.cooldown)
  }

  ghost predicate SpacedLog(cfg: Config, s: State) {
    forall key :: Spaced(TimesOf(s.log, key), cfg.cooldown)
  }

  ghost predicate Inv(cfg: Config, s: State) {
    && OneInside(s)
    && ChecksStillHold(cfg, s)
    && SpacedLog(cfg, s)
    && forall key :: StoreMatchesLog(s, key)
  }

  lemma MarkKeepsSpacing(cfg: Config, s: State, key: string, now: int)
    requires Spaced(TimesOf(s.log, key), cfg.cooldown) && StoreMatchesLog(s, key)
    requires cfg.cooldown > 0 && MaySend(s.lastSent, key, now, cfg.cooldown)
    ensures Spaced(TimesOf(s.log + [Mark(key, now)], key), cfg.cooldown)
  {
    TimesOfAppend(s.log, Mark(key, now), key);
  }

  lemma OneStaysInside(cfg: Config, s: State, e: Event)
    requires OneInside(s) && Enabled(s, e) && (cfg.exclusive || |s.callers| <= 1)
    ensures OneInside(Apply(cfg, s, e))
  {
    var t := Apply(cfg, s, e);
    assert t.callers[e.caller] == Outside || t.running;
    assert forall i :: 0 <= i < |s.callers| && i != e.caller ==> t.callers[i] == s.callers[i];
  }

  /** Nobody else is inside, so whoever is sending is the caller of this event. */
  lemma ChecksKeepHolding(cfg: Config, s: State, e: Event)
    requires OneInside(s) && ChecksStillHold(cfg, s) && Enabled(s, e)
    ensures ChecksStillHold(cfg, Apply(cfg, s, e))
  {
    var t := Apply(cfg, s, e);
    forall i | 0 <= i < |t.callers| && t.callers[i].Sending?
      ensures MaySend(t.lastSent, t.callers[i].key, t.callers[i].now, cfg.cooldown)
    {
      if i != e.caller { assert s.callers[i] == t.callers[i]; }
    }
  }

  lemma MarkKeepsLog(cfg: Config, s: State, e: Event, key: string)
    requires cfg.cooldown > 0 && ChecksStillHold(cfg, s) && Enabled(s, e)
    requires StoreMatchesLog(s, key) && Spaced(TimesOf(s.log, key), cfg.cooldown)
    ensures var t := Apply(cfg, s, e); StoreMatchesLog(t, key) && Spaced(TimesOf(t.log, key), cfg.cooldown)
  {
    if e.Marks? {
      var c := s.callers[e.caller];
      TimesOfAppend(s.log, Mark(c.key, c.now), key);
      if key == c.key { MarkKeepsSpacing(cfg, s, key, c.now); }
    }
  }

  lemma EventKeepsInv(cfg: Config, s: State, e: Event)
    requires Inv(cfg, s) && Enabled(s, e) && cfg.cooldown > 0 && (cfg.exclusive || |s.callers| <= 1)
    ensures Inv(cfg, Apply(cfg, s, e)) && |Apply(cfg, s, e).callers| == |s.callers|
  {
    var t := Apply(cfg, s, e);
    OneStaysInside(cfg, s, e);
    ChecksKeepHolding(cfg, s, e);
    forall key ensures StoreMatchesLog(t, key) && Spaced(TimesOf(t.log, key), cfg.cooldown) {
      assert StoreMatchesLog(s, key);
      MarkKeepsLog(cfg, s, e, key);
    }
  }

  lemma {:induction false} RunKeepsInv(cfg: Config, s: State, es: seq<Event>)
    requires Inv(cfg, s) && Runs(cfg, s, es) && cfg.cooldown > 0 && (cfg.exclusive || |s.callers| <= 1)
    ensures Inv(cfg, After(cfg, s, es))
    decreases |es|
  {
    if es != [] {
      EventKeepsInv(cfg, s, es[0]);
      RunKeepsInv(cfg, Apply(cfg, s, es[0]), es[1..]);
    }
  }

  // The guarantee, and exactly when it holds

  /** In every run of n callers, the times marked for one key are at least the cooldown apart. */
  ghost predicate AlwaysSpaced(cfg: Config, n: nat) {
    forall es, key :: Runs(cfg, Initial(n), es) ==> Spaced(TimesOf(After(cfg, Initial(n), es).log, key), cfg.cooldown)
  }

  lemma InitialInv(cfg: Config, n: nat)
    ensures Inv(cfg, Initial(n))
  {
  }

  lemma MarksAreSpaced(cfg: Config, n: nat)
    requires cfg.cooldown > 0 && (cfg.exclusive || n <= 1)
    ensures AlwaysSpaced(cfg, n)
  {
    forall es, key | Runs(cfg, Initial(n), es)
      ensures Spaced(TimesOf(After(cfg, Initial(n), es).log, key), cfg.cooldown)
    {
      InitialInv(cfg, n);
      RunKeepsInv(cfg, Initial(n), es);
    }
  }

  /** Spacing holds for every interleaving and every clock exactly when there is a cooldown and no
      two callers can be inside at once. */
  lemma SpacingHoldsExactlyWhen(cfg: Config, n: nat)
    requires n >= 1
    ensures AlwaysSpaced(cfg, n) <==> cfg.cooldown > 0 && (cfg.exclusive || n <= 1)
  {
    if cfg.cooldown > 0 && (cfg.exclusive || n <= 1) {
      MarksAreSpaced(cfg, n);
    } else if cfg.cooldown <= 0 {
      var es := BackwardClock(cfg, n);
      var times := TimesOf(After(cfg, Initial(n), es).log, "k");
      assert times[1] - times[0] < cfg.cooldown;
    } else {
      var es := TwoInside(cfg, n);
      var times := TimesOf(After(cfg, Initial(n), es).log, "k");
      assert times[1] - times[0] < cfg.cooldown;
    }
  }

  lemma OneMoreEvent(cfg: Config, s: State, es: seq<Event>, e: Event)
    requires Runs(cfg, s, es) && Enabled(After(cfg, s, es), e)
    ensures Runs(cfg, s, es + [e]) && After(cfg, s, es + [e]) == Apply(cfg, After(cfg, s, es), e)
  {
    RunsCompose(cfg, s, es, [e]);
  }

  /** Without a cooldown one caller is enough: it marks a time and then an earlier one. */
  lemma BackwardClock(cfg: Config, n: nat) returns (es: seq<Event>)
    requires n >= 1 && cfg.cooldown <= 0
    ensures Runs(cfg, Initial(n), es)
    ensures TimesOf(After(cfg, Initial(n), es).log, "k") == [0, cfg.cooldown - 1]
  {
    var s := Initial(n);
    es := [];
    OneMoreEvent(cfg, s, es, Begins(0));                         es := es + [Begins(0)];
    OneMoreEvent(cfg, s, es, Checks(0, "k", 0));                 es := es + [Checks(0, "k", 0)];
    OneMoreEvent(cfg, s, es, Marks(0));                          es := es + [Marks(0)];
    OneMoreEvent(cfg, s, es, Checks(0, "k", cfg.cooldown - 1));  es := es + [Checks(0, "k", cfg.cooldown - 1)];
    TimesOfAppend([], Mark("k", 0), "k");
    TimesOfAppend([Mark("k", 0)], Mark("k", cfg.cooldown - 1), "k");
    OneMoreEvent(cfg, s, es, Marks(0));                          es := es + [Marks(0)];
    assert After(cfg, s, es).log == [Mark("k", 0)] + [Mark("k", cfg.cooldown - 1)];
  }

  /** Without the running flag two callers both pass the check before either marks. */
  lemma TwoInside(cfg: Config, n: nat) returns (es: seq<Event>)
    requires n >= 2 && !cfg.exclusive
    ensures Runs(cfg, Initial(n), es)
    ensures TimesOf(After(cfg, Initial(n), es).log, "k") == [0, 0]
  {
    var s := Initial(n);
    es := [];
    OneMoreEvent(cfg, s, es, Begins(0));          es := es + [Begins(0)];
    OneMoreEvent(cfg, s, es, Begins(1));          es := es + [Begins(1)];
    OneMoreEvent(cfg, s, es, Checks(0, "k", 0));  es := es + [Checks(0, "k", 0)];
    OneMoreEvent(cfg, s, es, Checks(1, "k", 0));  es := es + [Checks(1, "k", 0)];
    OneMoreEvent(cfg, s, es, Marks(0));           es := es + [Marks(0)];
    OneMoreEvent(cfg, s, es, Marks(1));           es := es + [Marks(1)];
    TimesOfAppend([], Mark("k", 0), "k");
    TimesOfAppend([Mark("k", 0)], Mark("k", 0), "k");
    assert After(cfg, s, es).log == [Mark("k", 0)] + [Mark("k", 0)];
  }

  /** Over any number of cycles and callers, a closed window of length W holds at most
      W / cooldown + 1 accepted sends for one key. */
  lemma SendRateIsBounded(cfg: Config, n: nat, es: seq<Event>, key: string, lo: int, hi: int)
    requires cfg.cooldown > 0 && cfg.exclusive && Runs(cfg, Initial(n), es) && lo <= hi
    ensures CountWithin(TimesOf(After(cfg, Initial(n), es).log, key), lo, hi) <= (hi - lo) / cfg.cooldown + 1
  {
    MarksAreSpaced(cfg, n);
    WindowBound(TimesOf(After(cfg, Initial(n), es).log, key), cfg.cooldown, lo, hi);
  }
}
