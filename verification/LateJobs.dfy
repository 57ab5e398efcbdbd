/** Runs under the event loop in which `stop` leaves a job behind, and with them the exact condition
    for delivery. */
module LateJobs {
  import opened Counting
  import opened Wrappers
  import opened TaskQueue
  import opened EventLoop

  ghost predicate Reaches(m: Mode, l: Loop, l': Loop) {
    exists ls, es :: LoopRun(m, ls, es) && ls[0] == l && ls[|es|] == l'
  }

  lemma Step(m: Mode, l: Loop, e: LoopEvent, l': Loop)
    requires Allowed(m, l, e) && Next(m, l, e) == l'
    ensures Reaches(m, l, l')
  {
    var ls, es := [l, l'], [e];
    assert LoopRun(m, ls, es);
  }

  lemma ReachesOn(m: Mode, l: Loop, l': Loop, l'': Loop)
    requires Reaches(m, l, l') && Reaches(m, l', l'')
    ensures Reaches(m, l, l'')
  {
    var ls, es :| LoopRun(m, ls, es) && ls[0] == l && ls[|es|] == l';
    var ls', es' :| LoopRun(m, ls', es') && ls'[0] == l' && ls'[|es'|] == l'';
    var ks, fs := ls + ls'[1..], es + es';
    forall i | 0 <= i < |fs| ensures Allowed(m, ks[i], fs[i]) && ks[i + 1] == Next(m, ks[i], fs[i]) {
      if i >= |es| {
        assert ks[i] == ls'[i - |es|] && ks[i + 1] == ls'[i - |es| + 1] && fs[i] == es'[i - |es|];
      }
    }
    assert LoopRun(m, ks, fs) && ks[|fs|] == l'';
  }

  lemma StepTwice(m: Mode, l: Loop, e: LoopEvent, f: LoopEvent, l': Loop)
    requires Allowed(m, l, e) && Allowed(m, Next(m, l, e), f) && Next(m, Next(m, l, e), f) == l'
    ensures Reaches(m, l, l')
  {
    Step(m, l, e, Next(m, l, e));
    Step(m, Next(m, l, e), f, l');
    ReachesOn(m, l, Next(m, l, e), l');
  }

  /** Turns that lead from one to the next make a run. */
  lemma {:induction false} Follow(m: Mode, turn: nat -> Loop, n: nat)
    requires forall i: nat :: i < n ==> Reaches(m, turn(i), turn(i + 1))
    ensures Reaches(m, turn(0), turn(n))
  {
    if n == 0 {
      var ls: seq<Loop>, es: seq<LoopEvent> := [turn(0)], [];
      assert LoopRun(m, ls, es);
    } else {
      Follow(m, turn, n - 1);
      assert Reaches(m, turn(n - 1), turn(n - 1 + 1));
      ReachesOn(m, turn(0), turn(n - 1), turn(n));
    }
  }

  function UpTo(n: nat): seq<nat> {
    seq(n, i => i)
  }

  function Range(first: nat, end: nat): seq<nat>
    requires first <= end
  {
    seq(end - first, i requires 0 <= i => first + i)
  }

  function Jobs(first: nat, end: nat): seq<Item>
    requires first <= end
  {
    seq(end - first, i requires 0 <= i => Job(first + i))
  }

  function Sentinels(n: nat): seq<Item> {
    seq(n, _ => Sentinel)
  }

  function PartlyExited(n: nat, k: nat): seq<Worker> {
    seq(n, i => if i < k then Exited else Idle)
  }

  // Handlers that may end without suspending: any pool that is no larger than the queue

  /** The first `k` calls have committed; the workers are about to start. */
  function Filled(c: nat, n: nat, k: nat): Loop {
    Loop(State(c, n, Jobs(0, k), [], [], k, seq(n, _ => Idle), true, true, NotStopping, k, UpTo(k), [], [], [], []),
         Workers(0, n), [], None)
  }

  /** One more call has parked. */
  function Crowded(c: nat, n: nat): Loop {
    Loop(State(c, n, Jobs(0, c), [Job(c)], [], c, seq(n, _ => Idle), true, true, NotStopping, c + 1,
               UpTo(c), [], [], [], []),
         Workers(0, n), [], None)
  }

  function Late(c: nat): Callback {
    PutRuns(Job(c), false)
  }

  /** The first worker has handled `k` jobs without suspending; its first `get` woke the parked put. */
  function Handled(c: nat, n: nat, k: nat): Loop
    requires 1 <= k <= c && n >= 1
  {
    Loop(State(c, n, Jobs(k, c), [], [Job(c)], c - k, seq(n, _ => Idle), true, true, NotStopping, c + 1,
               UpTo(c), UpTo(k), UpTo(k), [], []),
         Workers(1, n) + [Late(c)], [], Some(WorkerRuns(0)))
  }

  /** The first `k` workers have found the queue empty. */
  function Rested(c: nat, n: nat, k: nat): Loop
    requires k <= n
  {
    Loop(State(c, n, [], [], [Job(c)], 0, seq(n, _ => Idle), true, true, NotStopping, c + 1,
               UpTo(c), UpTo(c), UpTo(c), [], []),
         Workers(k, n) + [Late(c)], UpTo(k), None)
  }

  /** `stop` was called before the late put had its turn, found the counter at zero, and has put `k`
      sentinels. */
  function Stopping(c: nat, n: nat, k: nat): Loop
    requires k <= n
  {
    Loop(State(c, n, Sentinels(k), [], [Job(c)], k, seq(n, _ => Idle), true, false, Putting(n - k), c + 1,
               UpTo(c), UpTo(c), UpTo(c), [], []),
         [Late(c)] + Workers(0, k), Range(k, n), Some(SentinelDue))
  }

  /** There was room for the late job behind the sentinels, and `k` workers have exited. */
  function Behind(c: nat, n: nat, k: nat): Loop
    requires k <= n
  {
    Loop(State(c, n, Sentinels(n - k) + [Job(c)], [], [], n - k + 1, PartlyExited(n, k), true, false, Putting(0), c + 1,
               UpTo(c) + [c], UpTo(c), UpTo(c), [], []),
         Workers(k, n), [], None)
  }

  /** There was none: the late put has parked again and was woken by the first exit. */
  function Outside(c: nat, n: nat, k: nat): Loop
    requires k <= n
  {
    Loop(State(c, n, Sentinels(n - k), if k == 0 then [Job(c)] else [], if k == 0 then [] else [Job(c)], n - k,
               PartlyExited(n, k), true, false, Putting(0), c + 1, UpTo(c), UpTo(c), UpTo(c), [], []),
         Workers(k, n) + (if k == 0 then [] else [Late(c)]), [], None)
  }

  function Exiting(c: nat, n: nat, k: nat): Loop
    requires k <= n
  {
    if n < c then Behind(c, n, k) else Outside(c, n, k)
  }

  lemma FillStep(m: Mode, c: nat, n: nat, k: nat)
    requires k < c
    ensures Reaches(m, Filled(c, n, k), Filled(c, n, k + 1))
  {
    assert Jobs(0, k) + [Job(k)] == Jobs(0, k + 1);
    assert UpTo(k) + [k] == UpTo(k + 1);
    Step(m, Filled(c, n, k), Calls, Filled(c, n, k + 1));
  }

  lemma {:induction false} Fill(m: Mode, c: nat, n: nat, k: nat)
    requires k <= c
    ensures Reaches(m, LoopInitial(c, n), Filled(c, n, k))
  {
    if k == 0 {
      StartStep(m, c, n);
    } else {
      Fill(m, c, n, k - 1);
      FillStep(m, c, n, k - 1);
      ReachesOn(m, LoopInitial(c, n), Filled(c, n, k - 1), Filled(c, n, k));
    }
  }

  lemma StartStep(m: Mode, c: nat, n: nat)
    ensures Reaches(m, LoopInitial(c, n), Filled(c, n, 0))
  {
    assert [] + Workers(0, n) == Workers(0, n);
    Step(m, LoopInitial(c, n), Starts, Filled(c, n, 0));
  }

  lemma CrowdStep(m: Mode, c: nat, n: nat)
    requires c >= 1
    ensures Reaches(m, Filled(c, n, c), Crowded(c, n))
  {
    assert [] + [Job(c)] == [Job(c)];
    Step(m, Filled(c, n, c), Calls, Crowded(c, n));
  }

  lemma IdleAgain(n: nat, k: nat)
    requires n >= 1
    ensures var idle: seq<Worker> := seq(n, _ => Idle); idle[0 := Handling(k)][0 := Idle] == idle
  {
  }

  lemma FirstGet(m: Mode, c: nat, n: nat)
    requires m.handlers == Immediate && c >= 1 && n >= 1
    ensures Reaches(m, Crowded(c, n), Handled(c, n, 1))
  {
    assert Workers(0, n)[0] == WorkerRuns(0) && Workers(0, n)[1..] == Workers(1, n);
    assert Jobs(0, c)[0] == Job(0) && Jobs(0, c)[1..] == Jobs(1, c);
    assert [] + [0] == UpTo(1) && [Job(c)][1..] == [];
    IdleAgain(n, 0);
    assert (Workers(1, n) + [Late(c)]) + [] == Workers(1, n) + [Late(c)];
    StepTwice(m, Crowded(c, n), Run(true), Run(false), Handled(c, n, 1));
  }

  lemma NextGet(m: Mode, c: nat, n: nat, k: nat)
    requires m.handlers == Immediate && 1 <= k < c && n >= 1
    ensures Reaches(m, Handled(c, n, k), Handled(c, n, k + 1))
  {
    assert Jobs(k, c)[0] == Job(k) && Jobs(k, c)[1..] == Jobs(k + 1, c);
    assert UpTo(k) + [k] == UpTo(k + 1);
    IdleAgain(n, k);
    assert (Workers(1, n) + [Late(c)]) + [] == Workers(1, n) + [Late(c)];
    StepTwice(m, Handled(c, n, k), Run(true), Run(false), Handled(c, n, k + 1));
  }

  lemma {:induction false} Handle(m: Mode, c: nat, n: nat, k: nat)
    requires m.handlers == Immediate && 1 <= k <= c && n >= 1
    ensures Reaches(m, LoopInitial(c, n), Handled(c, n, k))
  {
    if k == 1 {
      Fill(m, c, n, c);
      CrowdStep(m, c, n);
      ReachesOn(m, LoopInitial(c, n), Filled(c, n, c), Crowded(c, n));
      FirstGet(m, c, n);
      ReachesOn(m, LoopInitial(c, n), Crowded(c, n), Handled(c, n, 1));
    } else {
      Handle(m, c, n, k - 1);
      NextGet(m, c, n, k - 1);
      ReachesOn(m, LoopInitial(c, n), Handled(c, n, k - 1), Handled(c, n, k));
    }
  }

  lemma FirstRest(m: Mode, c: nat, n: nat)
    requires c >= 1 && n >= 1
    ensures Reaches(m, Handled(c, n, c), Rested(c, n, 1))
  {
    assert Jobs(c, c) == [] && [] + [0] == UpTo(1);
    Step(m, Handled(c, n, c), Run(false), Rested(c, n, 1));
  }

  lemma NextRest(m: Mode, c: nat, n: nat, k: nat)
    requires k < n
    ensures Reaches(m, Rested(c, n, k), Rested(c, n, k + 1))
  {
    var ready := Workers(k, n) + [Late(c)];
    assert ready[0] == WorkerRuns(k) && ready[1..] == Workers(k + 1, n) + [Late(c)];
    assert UpTo(k) + [k] == UpTo(k + 1);
    Step(m, Rested(c, n, k), Run(false), Rested(c, n, k + 1));
  }

  lemma {:induction false} Rest(m: Mode, c: nat, n: nat, k: nat)
    requires m.handlers == Immediate && c >= 1 && 1 <= k <= n
    ensures Reaches(m, LoopInitial(c, n), Rested(c, n, k))
  {
    if k == 1 {
      Handle(m, c, n, c);
      FirstRest(m, c, n);
      ReachesOn(m, LoopInitial(c, n), Handled(c, n, c), Rested(c, n, 1));
    } else {
      Rest(m, c, n, k - 1);
      NextRest(m, c, n, k - 1);
      ReachesOn(m, LoopInitial(c, n), Rested(c, n, k - 1), Rested(c, n, k));
    }
  }

  lemma StopStep(m: Mode, c: nat, n: nat)
    ensures Reaches(m, Rested(c, n, n), Stopping(c, n, 0))
  {
    assert Workers(n, n) + [Late(c)] == [Late(c)] + Workers(0, 0);
    assert UpTo(n) == Range(0, n);
    StepTwice(m, Rested(c, n, n), Stops, Run(false), Stopping(c, n, 0));
  }

  lemma SentinelStepFits(m: Mode, c: nat, n: nat, k: nat)
    requires k < n <= c
    ensures Reaches(m, Stopping(c, n, k), Stopping(c, n, k + 1))
  {
    assert Sentinels(k) + [Sentinel] == Sentinels(k + 1);
    assert Range(k, n)[0] == k && Range(k, n)[1..] == Range(k + 1, n);
    assert ([Late(c)] + Workers(0, k)) + [WorkerRuns(k)] == [Late(c)] + Workers(0, k + 1);
    Step(m, Stopping(c, n, k), Run(false), Stopping(c, n, k + 1));
  }

  lemma {:induction false} PutSentinels(m: Mode, c: nat, n: nat, k: nat)
    requires m.handlers == Immediate && 1 <= n <= c && k <= n
    ensures Reaches(m, LoopInitial(c, n), Stopping(c, n, k))
  {
    if k == 0 {
      Rest(m, c, n, n);
      StopStep(m, c, n);
      ReachesOn(m, LoopInitial(c, n), Rested(c, n, n), Stopping(c, n, 0));
    } else {
      PutSentinels(m, c, n, k - 1);
      SentinelStepFits(m, c, n, k - 1);
      ReachesOn(m, LoopInitial(c, n), Stopping(c, n, k - 1), Stopping(c, n, k));
    }
  }

  lemma LateTurn(m: Mode, c: nat, n: nat)
    requires 1 <= n <= c
    ensures Reaches(m, Stopping(c, n, n), Exiting(c, n, 0))
  {
    assert ([Late(c)] + Workers(0, n))[1..] == Workers(0, n) == Workers(0, n) + [];
    assert PartlyExited(n, 0) == seq(n, _ => Idle) && Range(n, n) == [];
    assert RemoveAt([Job(c)], 0) == [] && [] + [Job(c)] == [Job(c)];
    StepTwice(m, Stopping(c, n, n), Run(false), Run(false), Exiting(c, n, 0));
  }

  lemma ExitBehind(m: Mode, c: nat, n: nat, k: nat)
    requires k < n
    ensures Reaches(m, Behind(c, n, k), Behind(c, n, k + 1))
  {
    assert Workers(k, n)[0] == WorkerRuns(k) && Workers(k, n)[1..] + [] == Workers(k + 1, n);
    assert (Sentinels(n - k) + [Job(c)])[1..] == Sentinels(n - k - 1) + [Job(c)];
    assert PartlyExited(n, k)[k := Exited] == PartlyExited(n, k + 1);
    Step(m, Behind(c, n, k), Run(false), Behind(c, n, k + 1));
  }

  lemma ExitOutside(m: Mode, c: nat, n: nat, k: nat)
    requires k < n
    ensures Reaches(m, Outside(c, n, k), Outside(c, n, k + 1))
  {
    var ready := Outside(c, n, k).ready;
    assert ready[0] == WorkerRuns(k) && Sentinels(n - k)[1..] == Sentinels(n - k - 1);
    assert PartlyExited(n, k)[k := Exited] == PartlyExited(n, k + 1);
    assert ready[1..] + (if k == 0 then [Late(c)] else []) == Workers(k + 1, n) + [Late(c)];
    assert [Job(c)][1..] == [] && [] + [Job(c)] == [Job(c)];
    Step(m, Outside(c, n, k), Run(false), Outside(c, n, k + 1));
  }

  lemma ExitStep(m: Mode, c: nat, n: nat, k: nat)
    requires k < n
    ensures Reaches(m, Exiting(c, n, k), Exiting(c, n, k + 1))
  {
    if n < c { ExitBehind(m, c, n, k); } else { ExitOutside(m, c, n, k); }
  }

  lemma ExitsBegin(m: Mode, c: nat, n: nat)
    requires m.handlers == Immediate && 1 <= n <= c
    ensures Reaches(m, LoopInitial(c, n), Exiting(c, n, 0))
  {
    PutSentinels(m, c, n, n);
    LateTurn(m, c, n);
    ReachesOn(m, LoopInitial(c, n), Stopping(c, n, n), Exiting(c, n, 0));
  }

  lemma Exit(m: Mode, c: nat, n: nat)
    requires m.handlers == Immediate && 1 <= n <= c
    ensures Reaches(m, LoopInitial(c, n), Exiting(c, n, n))
  {
    var at := (k: nat) => if k <= n then Exiting(c, n, k) else LoopInitial(c, n);
    forall k: nat | k < n ensures Reaches(m, at(k), at(k + 1)) { ExitStep(m, c, n, k); }
    Follow(m, at, n);
    ExitsBegin(m, c, n);
    ReachesOn(m, LoopInitial(c, n), Exiting(c, n, 0), Exiting(c, n, n));
  }

  /** After `stop` has returned. */
  function Stopped(c: nat, n: nat): Loop {
    Loop(State(c, n, [Job(c)], [], [], 1, [], false, false, NotStopping, c + 1,
               UpTo(c) + [c], UpTo(c), UpTo(c), [], []),
         [], [], None)
  }

  lemma StoppedBehind(m: Mode, c: nat, n: nat)
    ensures Reaches(m, Behind(c, n, n), Stopped(c, n))
  {
    assert Sentinels(n - n) + [Job(c)] == [Job(c)];
    Step(m, Behind(c, n, n), StopEnds, Stopped(c, n));
  }

  lemma StoppedOutside(m: Mode, c: nat, n: nat)
    requires c >= 1 && n >= 1
    ensures Reaches(m, Outside(c, n, n), Stopped(c, n))
  {
    assert Workers(n, n) + [Late(c)] == [Late(c)] && [Late(c)][1..] == [];
    assert RemoveAt([Job(c)], 0) == [] && [] + [Job(c)] == [Job(c)];
    StepTwice(m, Outside(c, n, n), StopEnds, Run(false), Stopped(c, n));
  }

  /** No put times out here. A worker handles the whole queue in one turn; the put that its first `get`
      woke is still to run when `stop` finds the counter at zero. */
  lemma ImmediateHandlersLoseJobs(m: Mode, c: nat, n: nat) returns (l: Loop)
    requires m.handlers == Immediate && 1 <= n <= c
    ensures Reaches(m, LoopInitial(c, n), l) && !Delivered(l.q)
  {
    Exit(m, c, n);
    if n < c { StoppedBehind(m, c, n); } else { StoppedOutside(m, c, n); }
    ReachesOn(m, LoopInitial(c, n), Exiting(c, n, n), Stopped(c, n));
    l := Stopped(c, n);
    assert |UpTo(c) + [c]| == |UpTo(c)| + 1;
  }

  // Handlers that suspend, and a put that times out between its wake-up and its turn

  /** The state of the one worker's pool, with a queue of one place, before each turn of the run. */
  function Turn(i: nat): Loop {
    var none: seq<Item> := [];
    var s := State(1, 1, none, none, none, 0, [Idle], true, true, NotStopping, 0, [], [], [], [], []);
    var crowded := s.(queue := [Job(0)], waiting := [Job(1), Job(2)], unfinished := 1, calls := 3, committed := [0]);
    var taken := crowded.(queue := none, waiting := [Job(2)], woken := [Job(1)], workers := [Handling(0)],
                          started := [0]);
    var passed := taken.(waiting := none, woken := [Job(2)], saturated := [1]);
    var handled := passed.(workers := [Idle], unfinished := 0, finished := [0]);
    var stopping := handled.(accepting := false, phase := Putting(1));
    var put := stopping.(queue := [Sentinel], unfinished := 1, phase := Putting(0));
    var exited := put.(queue := none, unfinished := 0, workers := [Exited]);
    var stopped := exited.(workers := [], running := false, phase := NotStopping);
    var worker, late := WorkerRuns(0), Late(2);
    match i
    case 0 => Loop(s.(running := false, accepting := false, workers := []), [], [], None)
    case 1 => Loop(s, [worker], [], None)
    case 2 => Loop(s.(queue := [Job(0)], unfinished := 1, calls := 1, committed := [0]), [worker], [], None)
    case 3 => Loop(crowded.(waiting := [Job(1)], calls := 2), [worker], [], None)
    case 4 => Loop(crowded, [worker], [], None)
    case 5 => Loop(taken, [Late(1)], [], None)
    case 6 => Loop(taken, [Late(1), HandlerDone(0)], [], None)
    case 7 => Loop(taken, [PutRuns(Job(1), true), HandlerDone(0)], [], None)
    case 8 => Loop(passed, [HandlerDone(0), late], [], None)
    case 9 => Loop(handled, [late], [], Some(worker))
    case 10 => Loop(handled, [late], [0], None)
    case 11 => Loop(stopping.(phase := Joining), [late], [0], Some(JoinWakes))
    case 12 => Loop(stopping, [late], [0], Some(SentinelDue))
    case 13 => Loop(put, [late, worker], [], Some(SentinelDue))
    case 14 => Loop(put, [late, worker], [], None)
    case 15 => Loop(put.(waiting := [Job(2)], woken := none), [worker], [], None)
    case 16 => Loop(exited, [late], [], None)
    case 17 => Loop(stopped, [late], [], None)
    case _ => Loop(stopped.(queue := [Job(2)], woken := none, unfinished := 1, committed := [0, 2]), [], [], None)
  }

  function Done(i: nat): LoopEvent {
    match i
    case 0 => Starts
    case 1 => Calls
    case 2 => Calls
    case 3 => Calls
    case 5 => HandlerFinishes(0)
    case 6 => WokenTimesOut(0)
    case 10 => Stops
    case 16 => StopEnds
    case _ => Run(false)
  }

  predicate Goes(m: Mode, i: nat) {
    Allowed(m, Turn(i), Done(i)) && Next(m, Turn(i), Done(i)) == Turn(i + 1)
  }

  lemma EarlyTurns(m: Mode, i: nat)
    requires i < 4
    ensures Goes(m, i)
  {
    assert Workers(0, 1) == [WorkerRuns(0)];
    assert seq(1, _ => Idle) == [Idle];
  }

  lemma GetTurn(m: Mode)
    ensures Goes(m, 4)
  {
    GetFacts(Turn(4).q, 0);
    assert Turn(4).ready[1..] + [Late(1)] == [Late(1)];
    assert Turn(4).q.queue[1..] == [] && Turn(4).q.waiting[1..] == [Job(2)];
    assert [Idle][0 := Handling(0)] == [Handling(0)];
  }

  lemma FinishTurn(m: Mode)
    requires m.handlers == Suspending
    ensures Goes(m, 5)
  {
  }

  lemma TimeoutTurn(m: Mode)
    requires m.wokenTimeouts
    ensures Goes(m, 6)
  {
    assert Turn(6).ready[0 := PutRuns(Job(1), true)] == Turn(7).ready;
  }

  lemma CancelledPasses(m: Mode, l: Loop, t: nat, next: Item)
    requires l.now == None && l.ready != [] && l.ready[0] == PutRuns(Job(t), true)
    requires !Full(l.q) && l.q.woken == [Job(t)] && l.q.waiting == [next]
    ensures Allowed(m, l, Run(false))
    ensures Next(m, l, Run(false)) ==
            l.(q := l.q.(woken := [next], waiting := [], saturated := l.q.saturated + [t]),
               ready := l.ready[1..] + [PutRuns(next, false)])
  {
    assert RemoveAt(l.q.woken, 0) + [next] == [next] && l.q.waiting[1..] == [];
  }

  lemma CancelledTurn(m: Mode)
    ensures Goes(m, 7)
  {
    CancelledPasses(m, Turn(7), 1, Job(2));
    assert Turn(7).ready[1..] + [Late(2)] == [HandlerDone(0), Late(2)] && [] + [1] == [1];
  }

  lemma HandlerTurn(m: Mode)
    ensures Goes(m, 8)
  {
    assert Turn(8).ready[1..] + [] == [Late(2)];
    HandlerFacts(Turn(8).q, 0);
    assert Turn(8).q.workers[0 := Idle] == [Idle];
  }

  lemma RestingTurn(m: Mode)
    ensures Goes(m, 9)
  {
  }

  lemma StopTurn(m: Mode)
    ensures Goes(m, 10)
  {
  }

  lemma JoinTurn(m: Mode)
    ensures Goes(m, 11)
  {
  }

  lemma SentinelFits(m: Mode, l: Loop, w: nat)
    requires l.now == Some(SentinelDue) && l.q.phase == Putting(1) && !Full(l.q) && !InFlight(l.q) && l.parked == [w]
    ensures Allowed(m, l, Run(false))
    ensures Next(m, l, Run(false)) ==
            l.(q := l.q.(phase := Putting(0), queue := l.q.queue + [Sentinel], unfinished := l.q.unfinished + 1),
               ready := l.ready + [WorkerRuns(w)], parked := [])
  {
  }

  lemma SentinelTurn(m: Mode)
    ensures Goes(m, 12)
  {
    SentinelFits(m, Turn(12), 0);
    assert [Late(2)] + [WorkerRuns(0)] == [Late(2), WorkerRuns(0)] && [] + [Sentinel] == [Sentinel];
  }

  lemma GatheringTurn(m: Mode)
    ensures Goes(m, 13)
  {
  }

  lemma PutParks(m: Mode, l: Loop, item: Item)
    requires l.now == None && l.ready != [] && l.ready[0] == PutRuns(item, false)
    requires Full(l.q) && l.q.woken == [item] && l.q.waiting == []
    ensures Reaches(m, l, l.(q := l.q.(woken := [], waiting := [item]), ready := l.ready[1..]))
  {
    assert RemoveAt(l.q.woken, 0) == [] && l.q.waiting + [item] == [item];
    Step(m, l, Run(false), l.(q := l.q.(woken := [], waiting := [item]), ready := l.ready[1..]));
  }

  lemma ParkingTurn(m: Mode)
    ensures Goes(m, 14)
  {
    PutParks(m, Turn(14), Job(2));
    assert Turn(14).ready[1..] == [WorkerRuns(0)];
  }

  lemma ExitWakes(m: Mode, l: Loop, next: Item)
    requires l.now == None && l.ready == [WorkerRuns(0)] && l.q.workers == [Idle]
    requires l.q.queue == [Sentinel] && l.q.waiting == [next] && l.q.woken == []
    ensures Allowed(m, l, Run(false))
    ensures Next(m, l, Run(false)) ==
            l.(q := l.q.(queue := [], woken := [next], waiting := [], workers := [Exited],
                         unfinished := l.q.unfinished - 1),
               ready := [PutRuns(next, false)])
  {
    assert l.ready[1..] + NextPut(l.q) == NextPut(l.q);
    assert l.q.queue[1..] == [] && l.q.waiting[1..] == [] && l.q.workers[0 := Exited] == [Exited];
  }

  lemma ExitTurn(m: Mode)
    ensures Goes(m, 15)
  {
    ExitWakes(m, Turn(15), Job(2));
  }

  lemma StopEndsTurn(m: Mode)
    ensures Goes(m, 16)
  {
  }

  lemma LateTurnAfterStop(m: Mode)
    ensures Goes(m, 17)
  {
    assert Turn(17).ready[1..] == [];
    assert RemoveAt(Turn(17).q.woken, 0) == [] && [0] + [2] == [0, 2];
  }

  /** The put that times out passes its wake-up on, behind the end of the handler. */
  lemma CancelledPutsLoseJobs(m: Mode) returns (l: Loop)
    requires m == Mode(Suspending, true)
    ensures Reaches(m, LoopInitial(1, 1), l) && !Delivered(l.q)
  {
    AllTurns(m);
    Follow(m, Turn, 18);
    FirstAndLastTurn();
    l := Turn(18);
  }

  lemma FirstAndLastTurn()
    ensures Turn(0) == LoopInitial(1, 1) && !Delivered(Turn(18).q)
  {
    assert Turn(18).q.committed == [0, 2];
  }

  lemma AllTurns(m: Mode)
    requires m == Mode(Suspending, true)
    ensures forall i: nat :: i < 18 ==> Reaches(m, Turn(i), Turn(i + 1))
  {
    forall i: nat | i < 18 ensures Reaches(m, Turn(i), Turn(i + 1)) {
      EveryTurn(m, i);
      Step(m, Turn(i), Done(i), Turn(i + 1));
    }
  }

  lemma EveryTurn(m: Mode, i: nat)
    requires m == Mode(Suspending, true) && i < 18
    ensures Goes(m, i)
  {
    match i
    case 4 => GetTurn(m);
    case 5 => FinishTurn(m);
    case 6 => TimeoutTurn(m);
    case 7 => CancelledTurn(m);
    case 8 => HandlerTurn(m);
    case 9 => RestingTurn(m);
    case 10 => StopTurn(m);
    case 11 => JoinTurn(m);
    case 12 => SentinelTurn(m);
    case 13 => GatheringTurn(m);
    case 14 => ParkingTurn(m);
    case 15 => ExitTurn(m);
    case 16 => StopEndsTurn(m);
    case 17 => LateTurnAfterStop(m);
    case _ => EarlyTurns(m, i);
  }

  /** Under the event loop, `stop` delivers everything for every bound and pool exactly when handlers
      outlast the puts they wake: when each is still suspended until those have run, or when each
      suspends at all and no put times out between its wake-up and its turn. */
  lemma DeliveryHoldsExactlyWhen(m: Mode)
    ensures AlwaysDelivers(m) <==> Outlasting(m)
  {
    if Outlasting(m) {
      forall capacity: int, maxWorkers: nat, ls: seq<Loop>, es: seq<LoopEvent>
        | LoopRun(m, ls, es) && ls[0] == LoopInitial(capacity, maxWorkers)
        ensures Delivered(ls[|es|].q)
      {
        OrderRefinesPrompt(m, capacity, maxWorkers, ls, es);
        ReachableDelivers(ls[|es|].q);
      }
    } else {
      var l: Loop;
      if m.handlers == Immediate { l := ImmediateHandlersLoseJobs(m, 1, 1); } else { l := CancelledPutsLoseJobs(m); }
      var ls: seq<Loop>, es: seq<LoopEvent> :| LoopRun(m, ls, es) && ls[0] == LoopInitial(1, 1) && ls[|es|] == l;
      assert !Delivered(ls[|es|].q);
    }
  }
}
