/** The task queue under asyncio's event loop. Callbacks that are ready run in the order in which they
    became ready, and `join` does not look at the counter again after it was woken. Callbacks of other
    tasks, which call `start`, `enqueue` and `stop` or let a timeout fire, may run between any two of
    these. What `TaskQueue.Prompt` assumes is a theorem here, for the handlers for which it holds. */
module EventLoop {
  import opened Counting
  import opened Wrappers
  import opened TaskQueue

  /** What is ready to run, or what the running callback goes on with. */
  datatype Callback =
    | PutRuns(item: Item, cancelled: bool)
    | WorkerRuns(worker: nat)
    | HandlerDone(worker: nat)
    | JoinWakes
    | SentinelDue

  /** `parked` are the workers that wait for an item. `now` is set while a callback has not yet come
      to its next suspension; nothing else runs until it has. */
  datatype Loop = Loop(q: State, ready: seq<Callback>, parked: seq<nat>, now: Option<Callback>)

  /** A handler may end without suspending at all; or it suspends at least once; or it is still
      suspended when every put woken so far, and every put woken in turn by their timeouts, has run. */
  datatype Handlers = Immediate | Suspending | Patient

  /** Whether the timeout of a put may fire between its wake-up and its turn. */
  datatype Mode = Mode(handlers: Handlers, wokenTimeouts: bool)

  datatype LoopEvent =
    | Starts
    | Calls
    | Stops
    | StopEnds
    | HandlerFinishes(worker: nat)
    | WaitingTimesOut(put: nat)
    | WokenTimesOut(position: nat)
    | Run(immediately: bool)

  function LoopInitial(capacity: int, maxWorkers: nat): Loop {
    Loop(Initial(capacity, maxWorkers), [], [], None)
  }

  // What a callback does

  function Workers(first: nat, end: nat): seq<Callback>
    requires first <= end
  {
    seq(end - first, i requires 0 <= i => WorkerRuns(first + i))
  }

  /** A put that commits wakes the worker that has waited longest. */
  function WakeWorker(l: Loop): Loop {
    if l.parked == [] then l else l.(ready := l.ready + [WorkerRuns(l.parked[0])], parked := l.parked[1..])
  }

  /** The callback of the put that `WakeNextPut` wakes. */
  function NextPut(q: State): seq<Callback> {
    if q.waiting == [] then [] else [PutRuns(q.waiting[0], false)]
  }

  function PutStep(l: Loop, item: Item): Loop
    requires l.q.woken != []
  {
    var t := l.(q := Apply(l.q, PutResumes(0)), now := None);
    if Full(l.q) then t
    else WakeWorker(t.(now := if item == Sentinel then Some(SentinelDue) else None))
  }

  function CancelledStep(l: Loop): Loop
    requires l.q.woken != [] && l.q.woken[0].Job?
  {
    l.(q := Apply(l.q, WokenPutTimesOut(0)), now := None,
       ready := l.ready + if Full(l.q) then [] else NextPut(l.q))
  }

  /** Without an item the worker parks. Otherwise it takes one, and its handler suspends or, if it is
      done immediately, goes on. */
  function WorkerStep(l: Loop, w: nat, immediately: bool): Loop {
    if !Possible(l.q, Get(w)) then l.(parked := l.parked + [w], now := None)
    else
      l.(q := Apply(l.q, Get(w)), ready := l.ready + NextPut(l.q),
         now := if immediately && l.q.queue[0].Job? then Some(HandlerDone(w)) else None)
  }

  /** The item is reported done, `join` is woken if it was the last, and the worker goes on. */
  function HandlerStep(l: Loop, w: nat): Loop {
    if !Possible(l.q, HandlerEnds(w, false)) then l.(now := None)
    else
      var q := Apply(l.q, HandlerEnds(w, false));
      var joined := q.unfinished == 0 && q.phase == Joining && JoinWakes !in l.ready;
      l.(q := q, ready := l.ready + (if joined then [JoinWakes] else []), now := Some(WorkerRuns(w)))
  }

  /** `stop` goes on whatever the counter is by now. */
  function JoinStep(l: Loop): Loop {
    l.(q := l.q.(phase := Putting(|l.q.workers|)), now := Some(SentinelDue))
  }

  function SentinelStep(l: Loop): Loop {
    if !Possible(l.q, PutSentinel) then l.(now := None)
    else
      var t := l.(q := Apply(l.q, PutSentinel), now := None);
      if Full(l.q) then t else WakeWorker(t.(now := Some(SentinelDue)))
  }

  predicate HasCallback(l: Loop) {
    l.now.Some? || l.ready != []
  }

  /** The rest of the running callback, or else the callback that became ready first. */
  function Current(l: Loop): Callback
    requires HasCallback(l)
  {
    if l.now.Some? then l.now.value else l.ready[0]
  }

  function Taken(l: Loop): Loop
    requires HasCallback(l)
  {
    if l.now.Some? then l.(now := None) else l.(ready := l.ready[1..])
  }

  predicate CanRun(l: Loop) {
    HasCallback(l) &&
    match Current(l)
    case PutRuns(_, cancelled) => l.q.woken != [] && (cancelled ==> l.q.woken[0].Job?)
    case _ => true
  }

  function RunStep(l: Loop, immediately: bool): Loop
    requires CanRun(l)
  {
    var t := Taken(l);
    match Current(l)
    case PutRuns(item, cancelled) => if cancelled then CancelledStep(t) else PutStep(t, item)
    case WorkerRuns(w) => WorkerStep(t, w, immediately)
    case HandlerDone(w) => HandlerStep(t, w)
    case JoinWakes => JoinStep(t)
    case SentinelDue => SentinelStep(t)
  }

  // Events

  predicate NoPutReady(ready: seq<Callback>) {
    forall p :: 0 <= p < |ready| ==> !ready[p].PutRuns?
  }

  predicate Allowed(m: Mode, l: Loop, e: LoopEvent) {
    match e
    case Run(immediately) => CanRun(l) && (immediately ==> m.handlers == Immediate)
    case HandlerFinishes(w) =>
      && w < |l.q.workers| && l.q.workers[w].Handling?
      && HandlerDone(w) !in l.ready && l.now != Some(HandlerDone(w))
      && (m.handlers == Patient ==> NoPutReady(l.ready))
    case WokenTimesOut(p) =>
      l.now == None && m.wokenTimeouts && p < |l.ready| && l.ready[p].PutRuns? && l.ready[p].item.Job?
    case WaitingTimesOut(i) => l.now == None && Possible(l.q, WaitingPutTimesOut(i))
    case Stops => l.now == None && Possible(l.q, StopBegins)
    case StopEnds => l.now == None && Possible(l.q, StopReturns)
    case _ => l.now == None
  }

  function Next(m: Mode, l: Loop, e: LoopEvent): Loop
    requires Allowed(m, l, e)
  {
    match e
    case Starts =>
      l.(q := Apply(l.q, Start), ready := l.ready + if l.q.running then [] else Workers(0, l.q.maxWorkers))
    case Calls =>
      var t := l.(q := Apply(l.q, Enqueue));
      if l.q.running && l.q.accepting && !Full(l.q) then WakeWorker(t) else t
    case Stops =>
      l.(q := Apply(l.q, StopBegins), now := if l.q.running && l.q.unfinished == 0 then Some(JoinWakes) else None)
    case StopEnds => l.(q := Apply(l.q, StopReturns))
    case HandlerFinishes(w) => l.(ready := l.ready + [HandlerDone(w)])
    case WaitingTimesOut(i) => l.(q := Apply(l.q, WaitingPutTimesOut(i)))
    case WokenTimesOut(p) => l.(ready := l.ready[p := l.ready[p].(cancelled := true)])
    case Run(immediately) => RunStep(l, immediately)
  }

  /** The states and events of a run. */
  predicate LoopRun(m: Mode, ls: seq<Loop>, es: seq<LoopEvent>) {
    && |ls| == |es| + 1
    && forall i :: 0 <= i < |es| ==> Allowed(m, ls[i], es[i]) && ls[i + 1] == Next(m, ls[i], es[i])
  }

  /** Whenever the queue is not running, every job whose put committed has been started. */
  predicate Delivered(q: State) {
    !q.running ==> q.started == q.committed
  }

  /** For every bound and every number of workers, all runs deliver. */
  ghost predicate AlwaysDelivers(m: Mode) {
    forall capacity: int, maxWorkers: nat, ls: seq<Loop>, es: seq<LoopEvent> ::
      LoopRun(m, ls, es) && ls[0] == LoopInitial(capacity, maxWorkers) ==> Delivered(ls[|es|].q)
  }

  // What every event leaves in order

  /** Callbacks run in the order in which they became ready: one is taken from the front, and whatever
      becomes ready goes to the back. A timeout of a woken put only marks it. */
  lemma CallbacksKeepTheirTurns(m: Mode, l: Loop, e: LoopEvent)
    requires Allowed(m, l, e)
    ensures match e
            case Run(_) => Taken(l).ready <= Next(m, l, e).ready
            case WokenTimesOut(p) => Next(m, l, e) == l.(ready := l.ready[p := PutRuns(l.ready[p].item, true)])
            case _ => l.ready <= Next(m, l, e).ready
    ensures l.now.Some? ==> e.Run? || e.HandlerFinishes?
  {
  }

  /** The worker that has waited longest was woken for a new item. */
  predicate FirstIsWoken(l: Loop, n: Loop) {
    l.parked != [] && n.parked == l.parked[1..] && |n.q.queue| == |l.q.queue| + 1
    && n.ready != [] && n.ready[|n.ready| - 1] == WorkerRuns(l.parked[0])
  }

  /** A worker found nothing to do and went to the end of the line. */
  predicate OneParks(l: Loop, n: Loop) {
    HasCallback(l) && Current(l).WorkerRuns? && !Possible(l.q, Get(Current(l).worker))
    && n.parked == l.parked + [Current(l).worker]
  }

  lemma PuttingWakesFirst(l: Loop, t: Loop)
    requires t.parked == l.parked && |t.q.queue| == |l.q.queue| + 1
    ensures WakeWorker(t).parked == l.parked || FirstIsWoken(l, WakeWorker(t))
  {
  }

  /** Workers wait in line too. */
  lemma WorkersKeepTheirTurns(m: Mode, l: Loop, e: LoopEvent)
    requires Allowed(m, l, e)
    ensures var n := Next(m, l, e); n.parked == l.parked || FirstIsWoken(l, n) || (e.Run? && OneParks(l, n))
  {
    match e
    case Calls =>
      if l.q.running && l.q.accepting && !Full(l.q) { PuttingWakesFirst(l, l.(q := Apply(l.q, Enqueue))); }
    case Run(immediately) => RunKeepsWorkersInLine(l, immediately);
    case _ =>
  }

  lemma RunKeepsWorkersInLine(l: Loop, immediately: bool)
    requires CanRun(l)
    ensures var n := RunStep(l, immediately); n.parked == l.parked || FirstIsWoken(l, n) || OneParks(l, n)
  {
    var t := Taken(l);
    match Current(l)
    case PutRuns(item, cancelled) =>
      if !cancelled && !Full(l.q) {
        PuttingWakesFirst(
          l, t.(q := Apply(l.q, PutResumes(0)), now := if item == Sentinel then Some(SentinelDue) else None));
      }
    case SentinelDue =>
      if Possible(l.q, PutSentinel) && !Full(l.q) {
        PuttingWakesFirst(l, t.(q := Apply(l.q, PutSentinel), now := Some(SentinelDue)));
      }
    case _ =>
  }

  /** The queue's event that an event of the loop comes down to, if it has one. */
  function QueueEvent(l: Loop, e: LoopEvent): Option<Event> {
    match e
    case Starts => Some(Start)
    case Calls => Some(Enqueue)
    case Stops => Some(StopBegins)
    case StopEnds => Some(StopReturns)
    case WaitingTimesOut(i) => Some(WaitingPutTimesOut(i))
    case HandlerFinishes(_) => None
    case WokenTimesOut(_) => None
    case Run(_) =>
      if !HasCallback(l) then None
      else match Current(l)
           case PutRuns(_, cancelled) => Some(if cancelled then WokenPutTimesOut(0) else PutResumes(0))
           case WorkerRuns(w) => if Possible(l.q, Get(w)) then Some(Get(w)) else None
           case HandlerDone(w) => if Possible(l.q, HandlerEnds(w, false)) then Some(HandlerEnds(w, false)) else None
           case JoinWakes => None
           case SentinelDue => if Possible(l.q, PutSentinel) then Some(PutSentinel) else None
  }

  /** The loop does to the queue what that event does, and nothing else; only `join` returns whatever
      the counter is. */
  lemma LoopMovesQueue(m: Mode, l: Loop, e: LoopEvent)
    requires Allowed(m, l, e)
    ensures var n, qe := Next(m, l, e).q, QueueEvent(l, e);
            if qe.Some? then Possible(l.q, qe.value) && n == Apply(l.q, qe.value)
            else if e.Run? && Current(l) == JoinWakes then n == l.q.(phase := Putting(|l.q.workers|))
            else n == l.q
  {
  }

  // The invariant, for handlers that outlast the puts they wake

  predicate Outlasting(m: Mode) {
    m.handlers == Patient || (m.handlers == Suspending && !m.wokenTimeouts)
  }

  function WokenItems(ready: seq<Callback>): seq<Item> {
    if ready == [] then []
    else
      var last := ready[|ready| - 1];
      WokenItems(ready[..|ready| - 1]) + if last.PutRuns? then [last.item] else []
  }

  predicate Handles(q: State, w: nat) {
    w < |q.workers| && q.workers[w].Handling?
  }

  /** Callbacks ahead of which a handler must not end. */
  function Ahead(m: Mode, ready: seq<Callback>, p: nat): seq<Callback>
    requires p <= |ready|
  {
    if m.handlers == Patient then ready else ready[..p]
  }

  /** Some handler is still to end when the put at `p` has run. */
  ghost predicate Covered(m: Mode, l: Loop, p: nat)
    requires p <= |l.ready|
  {
    exists w: nat :: Handles(l.q, w) && HandlerDone(w) !in Ahead(m, l.ready, p)
  }

  ghost predicate PutsCovered(m: Mode, l: Loop) {
    forall p :: 0 <= p < |l.ready| && l.ready[p].PutRuns? ==> Covered(m, l, p)
  }

  predicate CancelledAsAllowed(m: Mode, ready: seq<Callback>) {
    forall p :: 0 <= p < |ready| && ready[p].PutRuns? && ready[p].cancelled ==> m.wokenTimeouts && ready[p].item.Job?
  }

  ghost predicate DoneOnce(l: Loop) {
    forall w: nat :: Times(l.ready, HandlerDone(w)) <= if Handles(l.q, w) then 1 else 0
  }

  /** `join` is woken at most once, and then nothing can raise the counter again. */
  predicate JoinedOnce(l: Loop) {
    Joins(l) <= if l.q.phase == Joining && l.q.unfinished == 0 then 1 else 0
  }

  function Joins(l: Loop): nat {
    Times(l.ready, JoinWakes) + if l.now == Some(JoinWakes) then 1 else 0
  }

  predicate NowIsPlain(l: Loop) {
    l.now.Some? ==> l.now.value.WorkerRuns? || l.now.value.JoinWakes? || l.now.value.SentinelDue?
  }

  ghost predicate InOrder(m: Mode, l: Loop) {
    && NowIsPlain(l) && CancelledAsAllowed(m, l.ready)
    && DoneOnce(l) && JoinedOnce(l)
    && (!l.q.phase.Putting? ==> PutsCovered(m, l))
  }

  ghost predicate LoopInv(m: Mode, l: Loop) {
    Reachable(l.q) && WokenItems(l.ready) == l.q.woken && InOrder(m, l)
  }

  // Facts about the queue's own events

  /** What most events leave alone. */
  predicate SameRoster(q: State, r: State) {
    r.workers == q.workers && r.phase == q.phase && r.running == q.running
  }

  lemma PutFacts(q: State)
    requires q.woken != []
    ensures var r := Apply(q, PutResumes(0));
            SameRoster(q, r) && r.woken == q.woken[1..] && r.unfinished >= q.unfinished
  {
    assert RemoveAt(q.woken, 0) == q.woken[1..];
  }

  lemma CancelledFacts(q: State)
    requires q.woken != [] && q.woken[0].Job?
    ensures var r := Apply(q, WokenPutTimesOut(0));
            && SameRoster(q, r) && r.unfinished == q.unfinished
            && r.woken == q.woken[1..] + if Full(q) || q.waiting == [] then [] else [q.waiting[0]]
  {
    assert RemoveAt(q.woken, 0) == q.woken[1..];
  }

  lemma GetFacts(q: State, w: nat)
    requires Possible(q, Get(w))
    ensures var r := Apply(q, Get(w));
            && r.phase == q.phase && r.running == q.running
            && r.woken == q.woken + (if q.waiting == [] then [] else [q.waiting[0]])
            && r.workers == q.workers[w := if q.queue[0].Job? then Handling(q.queue[0].ticket) else Exited]
  {
  }

  lemma HandlerFacts(q: State, w: nat)
    requires Possible(q, HandlerEnds(w, false))
    ensures var r := Apply(q, HandlerEnds(w, false));
            && r.phase == q.phase && r.running == q.running && r.woken == q.woken && r.queue == q.queue
            && r.workers == q.workers[w := Idle] && r.unfinished == q.unfinished - 1
  {
  }

  lemma SentinelFacts(q: State)
    requires Possible(q, PutSentinel)
    ensures var r := Apply(q, PutSentinel);
            && r.phase.Putting? && q.phase.Putting?
            && r.running == q.running && r.workers == q.workers && r.woken == q.woken
  {
  }

  lemma CallFacts(q: State)
    ensures var r := Apply(q, Enqueue);
            && SameRoster(q, r) && r.woken == q.woken
            && (!q.running || !q.accepting ==> r.unfinished == q.unfinished)
  {
  }

  lemma {:induction false} RunsAppend(s: State, es: seq<Event>, e: Event)
    requires Runs(s, es) && Enabled(After(s, es), e)
    ensures Runs(s, es + [e]) && After(s, es + [e]) == Apply(After(s, es), e)
    decreases |es|
  {
    if es != [] {
      assert (es + [e])[1..] == es[1..] + [e];
      RunsAppend(Apply(s, es[0]), es[1..], e);
    } else {
      assert ([] + [e])[1..] == [];
    }
  }

  lemma ReachableGrows(s: State, e: Event)
    requires Reachable(s) && Enabled(s, e)
    ensures Reachable(Apply(s, e)) && Inv(Apply(s, e))
  {
    var capacity, maxWorkers, es :|
      Runs(Initial(capacity, maxWorkers), es) && After(Initial(capacity, maxWorkers), es) == s;
    RunsAppend(Initial(capacity, maxWorkers), es, e);
    ReachableInv(Apply(s, e));
  }

  lemma InitialIsReachable(capacity: int, maxWorkers: nat)
    ensures Reachable(Initial(capacity, maxWorkers))
  {
    var es: seq<Event> := [];
    var s := Initial(capacity, maxWorkers);
    assert Runs(s, es) && After(s, es) == s;
  }

  // Facts about the ready callbacks

  lemma TimesTail<T>(xs: seq<T>, x: T)
    requires xs != []
    ensures Times(xs, x) == Times(xs[1..], x) + if xs[0] == x then 1 else 0
  {
    assert RemoveAt(xs, 0) == xs[1..];
    TimesAfterRemoval(xs, 0, x);
  }

  lemma WokenItemsAppend(ready: seq<Callback>, c: Callback)
    ensures WokenItems(ready + [c]) == WokenItems(ready) + if c.PutRuns? then [c.item] else []
  {
    assert (ready + [c])[..|ready|] == ready;
  }

  lemma {:induction false} WokenItemsTail(ready: seq<Callback>)
    requires ready != []
    ensures WokenItems(ready) == (if ready[0].PutRuns? then [ready[0].item] else []) + WokenItems(ready[1..])
  {
    var n := |ready| - 1;
    if n > 0 {
      WokenItemsTail(ready[..n]);
      assert ready[1..][..n - 1] == ready[..n][1..];
    }
  }

  lemma {:induction false} PutsAreWoken(ready: seq<Callback>)
    ensures NoPutReady(ready) <==> WokenItems(ready) == []
  {
    if ready != [] {
      var n := |ready| - 1;
      PutsAreWoken(ready[..n]);
      assert forall p :: 0 <= p < n ==> ready[..n][p] == ready[p];
    }
  }

  // What keeps the order

  /** A callback that is neither a put, nor the end of a handler, nor the return of `join`. */
  predicate Plain(c: Callback) {
    c.WorkerRuns? || c.SentinelDue?
  }

  lemma PlainKeepsCover(m: Mode, l: Loop, c: Callback)
    requires PutsCovered(m, l) && Plain(c)
    ensures PutsCovered(m, l.(ready := l.ready + [c]))
  {
    var t := l.(ready := l.ready + [c]);
    forall p | 0 <= p < |t.ready| && t.ready[p].PutRuns? ensures Covered(m, t, p) {
      assert Covered(m, l, p);
      var w: nat :| Handles(l.q, w) && HandlerDone(w) !in Ahead(m, l.ready, p);
      assert t.ready[..p] == l.ready[..p];
      assert HandlerDone(w) !in Ahead(m, t.ready, p);
    }
  }

  lemma PlainKeepsOrder(m: Mode, l: Loop, c: Callback)
    requires InOrder(m, l) && Plain(c)
    ensures InOrder(m, l.(ready := l.ready + [c])) && WokenItems(l.ready + [c]) == WokenItems(l.ready)
  {
    var t := l.(ready := l.ready + [c]);
    WokenItemsAppend(l.ready, c);
    forall w: nat ensures Times(t.ready, HandlerDone(w)) == Times(l.ready, HandlerDone(w)) {
      TimesAfterAppend(l.ready, c, HandlerDone(w));
    }
    TimesAfterAppend(l.ready, c, JoinWakes);
    if !l.q.phase.Putting? { PlainKeepsCover(m, l, c); }
  }

  lemma WakingKeepsInv(m: Mode, l: Loop)
    requires LoopInv(m, l)
    ensures LoopInv(m, WakeWorker(l))
  {
    if l.parked != [] { PlainKeepsOrder(m, l, WorkerRuns(l.parked[0])); }
  }

  /** The queue may change as long as workers and phase do not, and a woken `join` finds it as it was. */
  lemma QueueKeepsOrder(m: Mode, l: Loop, q: State)
    requires InOrder(m, l) && SameRoster(l.q, q)
    requires Joins(l) == 0 || q.unfinished == l.q.unfinished
    ensures InOrder(m, l.(q := q))
  {
    var t := l.(q := q);
    if !q.phase.Putting? {
      forall p | 0 <= p < |t.ready| && t.ready[p].PutRuns? ensures Covered(m, t, p) {
        assert Covered(m, l, p);
        var w: nat :| Handles(l.q, w) && HandlerDone(w) !in Ahead(m, l.ready, p);
        assert Handles(t.q, w);
      }
    }
  }

  lemma TailKeepsCover(m: Mode, l: Loop)
    requires PutsCovered(m, l) && l.ready != []
    ensures PutsCovered(m, l.(ready := l.ready[1..]))
  {
    var t := l.(ready := l.ready[1..]);
    forall p | 0 <= p < |t.ready| && t.ready[p].PutRuns? ensures Covered(m, t, p) {
      assert t.ready[p] == l.ready[p + 1];
      assert Covered(m, l, p + 1);
      var w: nat :| Handles(l.q, w) && HandlerDone(w) !in Ahead(m, l.ready, p + 1);
      assert t.ready[..p] == l.ready[..p + 1][1..];
      assert HandlerDone(w) !in Ahead(m, t.ready, p);
    }
  }

  /** Taking the current callback keeps the order of the others. */
  lemma TakingKeepsOrder(m: Mode, l: Loop)
    requires InOrder(m, l) && HasCallback(l)
    ensures InOrder(m, Taken(l)) && Joins(Taken(l)) == Joins(l) - if Current(l) == JoinWakes then 1 else 0
  {
    var t := Taken(l);
    if l.now.None? {
      forall w: nat ensures Times(t.ready, HandlerDone(w)) <= Times(l.ready, HandlerDone(w)) {
        TimesTail(l.ready, HandlerDone(w));
      }
      TimesTail(l.ready, JoinWakes);
      assert forall p :: 0 <= p < |t.ready| ==> t.ready[p] == l.ready[p + 1];
      if !l.q.phase.Putting? { TailKeepsCover(m, l); }
    }
  }

  lemma NoJoinWhileBusy(l: Loop)
    requires Inv(l.q) && JoinedOnce(l)
    ensures l.q.woken != [] || l.q.queue != [] || l.q.unfinished > 0 || l.q.phase != Joining ==> Joins(l) == 0
  {
    TicketsBounded(l.q.queue);
  }

  lemma NoneWokenNoPuts(m: Mode, l: Loop)
    requires WokenItems(l.ready) == []
    ensures PutsCovered(m, l)
  {
    PutsAreWoken(l.ready);
  }

  // Every event keeps the invariant

  lemma {:induction false} StartsKeepOrder(m: Mode, l: Loop, n: nat)
    requires InOrder(m, l)
    ensures InOrder(m, l.(ready := l.ready + Workers(0, n)))
    ensures WokenItems(l.ready + Workers(0, n)) == WokenItems(l.ready)
  {
    if n == 0 {
      assert l.ready + Workers(0, 0) == l.ready;
    } else {
      StartsKeepOrder(m, l, n - 1);
      assert l.ready + Workers(0, n) == (l.ready + Workers(0, n - 1)) + [WorkerRuns(n - 1)];
      PlainKeepsOrder(m, l.(ready := l.ready + Workers(0, n - 1)), WorkerRuns(n - 1));
    }
  }

  /** Before a start and after a stop there are neither puts nor handlers, so nothing can be out of order. */
  lemma FreshOrder(m: Mode, l: Loop, q: State)
    requires InOrder(m, l) && Joins(l) == 0 && WokenItems(l.ready) == []
    requires forall w: nat :: !Handles(l.q, w)
    ensures InOrder(m, l.(q := q))
  {
    NoneWokenNoPuts(m, l.(q := q));
  }

  lemma StartsKeepInv(m: Mode, l: Loop)
    requires LoopInv(m, l) && l.now == None
    ensures LoopInv(m, Next(m, l, Starts))
  {
    ReachableInv(l.q);
    ReachableGrows(l.q, Start);
    if !l.q.running {
      FreshOrder(m, l, Apply(l.q, Start));
      StartsKeepOrder(m, l.(q := Apply(l.q, Start)), l.q.maxWorkers);
    } else {
      assert l.ready + [] == l.ready;
    }
  }

  lemma CallsKeepInv(m: Mode, l: Loop)
    requires LoopInv(m, l) && l.now == None
    ensures LoopInv(m, Next(m, l, Calls))
  {
    ReachableInv(l.q);
    ReachableGrows(l.q, Enqueue);
    CallFacts(l.q);
    NoJoinWhileBusy(l);
    var t := l.(q := Apply(l.q, Enqueue));
    assert l.q.running && l.q.accepting ==> l.q.phase == NotStopping;
    QueueKeepsOrder(m, l, t.q);
    WakingKeepsInv(m, t);
  }

  lemma StopsKeepInv(m: Mode, l: Loop)
    requires LoopInv(m, l) && Allowed(m, l, Stops)
    ensures LoopInv(m, Next(m, l, Stops))
  {
    ReachableInv(l.q);
    ReachableGrows(l.q, StopBegins);
    NoJoinWhileBusy(l);
    var t := Next(m, l, Stops);
    forall p | 0 <= p < |t.ready| && t.ready[p].PutRuns? ensures Covered(m, t, p) {
      assert Covered(m, l, p);
      var w: nat :| Handles(l.q, w) && HandlerDone(w) !in Ahead(m, l.ready, p);
      assert Handles(t.q, w);
    }
  }

  lemma StopEndsKeepsInv(m: Mode, l: Loop)
    requires LoopInv(m, l) && Allowed(m, l, StopEnds)
    ensures LoopInv(m, Next(m, l, StopEnds))
  {
    ReachableInv(l.q);
    ReachableGrows(l.q, StopReturns);
    NothingInFlight(l.q);
    NoJoinWhileBusy(l);
    FreshOrder(m, l, Apply(l.q, StopReturns));
  }

  lemma FinishingKeepsInv(m: Mode, l: Loop, w: nat)
    requires Outlasting(m) && LoopInv(m, l) && Allowed(m, l, HandlerFinishes(w))
    ensures LoopInv(m, Next(m, l, HandlerFinishes(w)))
  {
    var t := l.(ready := l.ready + [HandlerDone(w)]);
    WokenItemsAppend(l.ready, HandlerDone(w));
    TimesPositive(l.ready, HandlerDone(w));
    forall v: nat ensures Times(t.ready, HandlerDone(v)) <= if Handles(l.q, v) then 1 else 0 {
      TimesAfterAppend(l.ready, HandlerDone(w), HandlerDone(v));
    }
    TimesAfterAppend(l.ready, HandlerDone(w), JoinWakes);
    if !l.q.phase.Putting? { FinishingKeepsCover(m, l, w); }
  }

  lemma FinishingKeepsCover(m: Mode, l: Loop, w: nat)
    requires Outlasting(m) && PutsCovered(m, l) && (m.handlers == Patient ==> NoPutReady(l.ready))
    ensures PutsCovered(m, l.(ready := l.ready + [HandlerDone(w)]))
  {
    var t := l.(ready := l.ready + [HandlerDone(w)]);
    forall p | 0 <= p < |t.ready| && t.ready[p].PutRuns? ensures Covered(m, t, p) {
      assert t.ready[p] == l.ready[p] && Covered(m, l, p);
      var v: nat :| Handles(l.q, v) && HandlerDone(v) !in Ahead(m, l.ready, p);
      assert t.ready[..p] == l.ready[..p];
    }
  }

  lemma WaitingTimeoutKeepsInv(m: Mode, l: Loop, i: nat)
    requires LoopInv(m, l) && Allowed(m, l, WaitingTimesOut(i))
    ensures LoopInv(m, Next(m, l, WaitingTimesOut(i)))
  {
    ReachableGrows(l.q, WaitingPutTimesOut(i));
    QueueKeepsOrder(m, l, Apply(l.q, WaitingPutTimesOut(i)));
  }

  lemma {:induction false} CancellingKeepsItems(ready: seq<Callback>, p: nat)
    requires p < |ready| && ready[p].PutRuns?
    ensures WokenItems(ready[p := ready[p].(cancelled := true)]) == WokenItems(ready)
  {
    var n := |ready| - 1;
    var ready' := ready[p := ready[p].(cancelled := true)];
    if p < n {
      assert ready'[..n] == ready[..n][p := ready[p].(cancelled := true)];
      CancellingKeepsItems(ready[..n], p);
    } else {
      assert ready'[..n] == ready[..n];
    }
  }

  lemma WokenTimeoutKeepsInv(m: Mode, l: Loop, p: nat)
    requires LoopInv(m, l) && Allowed(m, l, WokenTimesOut(p))
    ensures LoopInv(m, Next(m, l, WokenTimesOut(p)))
  {
    var c := l.ready[p].(cancelled := true);
    var t := l.(ready := l.ready[p := c]);
    CancellingKeepsItems(l.ready, p);
    forall w: nat ensures Times(t.ready, HandlerDone(w)) == Times(l.ready, HandlerDone(w)) {
      TimesAfterUpdate(l.ready, p, c, HandlerDone(w));
    }
    TimesAfterUpdate(l.ready, p, c, JoinWakes);
    forall r | !l.q.phase.Putting? && 0 <= r < |t.ready| && t.ready[r].PutRuns? ensures Covered(m, t, r) {
      assert l.ready[r].PutRuns? && Covered(m, l, r);
      var w: nat :| Handles(l.q, w) && HandlerDone(w) !in Ahead(m, l.ready, r);
      assert HandlerDone(w) !in Ahead(m, t.ready, r);
    }
  }

  lemma PutKeepsInv(m: Mode, l: Loop)
    requires LoopInv(m, l) && CanRun(l) && Current(l).PutRuns? && !Current(l).cancelled
    ensures LoopInv(m, RunStep(l, false))
  {
    var t := Taken(l);
    ReachableInv(l.q);
    WokenItemsTail(l.ready);
    TakingKeepsOrder(m, l);
    NoJoinWhileBusy(l);
    PutFacts(l.q);
    ReachableGrows(l.q, PutResumes(0));
    QueueKeepsOrder(m, t, Apply(l.q, PutResumes(0)));
    var u := t.(q := Apply(l.q, PutResumes(0)), now := if Current(l).item == Sentinel then Some(SentinelDue) else None);
    if !Full(l.q) { WakingKeepsInv(m, u); }
  }

  lemma CancelledPutKeepsInv(m: Mode, l: Loop)
    requires Outlasting(m) && LoopInv(m, l) && CanRun(l) && Current(l).PutRuns? && Current(l).cancelled
    ensures LoopInv(m, RunStep(l, false))
  {
    var t, q := Taken(l), Apply(l.q, WokenPutTimesOut(0));
    ReachableInv(l.q);
    WokenItemsTail(l.ready);
    TakingKeepsOrder(m, l);
    NoJoinWhileBusy(l);
    CancelledFacts(l.q);
    ReachableGrows(l.q, WokenPutTimesOut(0));
    QueueKeepsOrder(m, t, q);
    if !Full(l.q) && l.q.waiting != [] {
      assert Covered(m, l, 0);
      var w: nat :| Handles(l.q, w) && HandlerDone(w) !in Ahead(m, l.ready, 0);
      NextPutKeepsOrder(m, t.(q := q), l.q.waiting[0], w);
    } else {
      assert t.ready + [] == t.ready;
    }
  }

  /** A put that becomes ready while a handler runs whose end is not ready yet. */
  lemma NextPutKeepsOrder(m: Mode, l: Loop, item: Item, w: nat)
    requires InOrder(m, l) && Handles(l.q, w) && HandlerDone(w) !in l.ready
    ensures InOrder(m, l.(ready := l.ready + [PutRuns(item, false)]))
    ensures WokenItems(l.ready + [PutRuns(item, false)]) == WokenItems(l.ready) + [item]
  {
    var c := PutRuns(item, false);
    var t := l.(ready := l.ready + [c]);
    WokenItemsAppend(l.ready, c);
    forall v: nat ensures Times(t.ready, HandlerDone(v)) == Times(l.ready, HandlerDone(v)) {
      TimesAfterAppend(l.ready, c, HandlerDone(v));
    }
    TimesAfterAppend(l.ready, c, JoinWakes);
    forall p | !l.q.phase.Putting? && 0 <= p < |t.ready| && t.ready[p].PutRuns? ensures Covered(m, t, p) {
      if p < |l.ready| {
        assert t.ready[p] == l.ready[p] && Covered(m, l, p);
        var v: nat :| Handles(l.q, v) && HandlerDone(v) !in Ahead(m, l.ready, p);
        assert t.ready[..p] == l.ready[..p];
        assert HandlerDone(v) !in Ahead(m, t.ready, p);
      } else {
        assert t.ready[..p] == l.ready && HandlerDone(w) !in Ahead(m, t.ready, p);
      }
    }
  }

  /** A sentinel wakes a put only while sentinels are being put, when order does not matter any more. */
  lemma LatePutKeepsOrder(m: Mode, l: Loop, item: Item)
    requires InOrder(m, l) && l.q.phase.Putting?
    ensures InOrder(m, l.(ready := l.ready + [PutRuns(item, false)]))
    ensures WokenItems(l.ready + [PutRuns(item, false)]) == WokenItems(l.ready) + [item]
  {
    var c := PutRuns(item, false);
    WokenItemsAppend(l.ready, c);
    forall v: nat ensures Times(l.ready + [c], HandlerDone(v)) == Times(l.ready, HandlerDone(v)) {
      TimesAfterAppend(l.ready, c, HandlerDone(v));
    }
    TimesAfterAppend(l.ready, c, JoinWakes);
  }

  /** An idle worker takes an item. */
  lemma RosterKeepsOrder(m: Mode, l: Loop, q: State, w: nat)
    requires InOrder(m, l) && q.phase == l.q.phase && q.running == l.q.running && Joins(l) == 0
    requires w < |l.q.workers| == |q.workers| && l.q.workers[w] == Idle && q.workers == l.q.workers[w := q.workers[w]]
    ensures InOrder(m, l.(q := q)) && HandlerDone(w) !in l.ready
  {
    var t := l.(q := q);
    TimesPositive(l.ready, HandlerDone(w));
    assert Times(l.ready, HandlerDone(w)) == 0;
    forall v: nat ensures Times(t.ready, HandlerDone(v)) <= if Handles(q, v) then 1 else 0 {
      assert v != w ==> Handles(q, v) == Handles(l.q, v);
    }
    forall p | !q.phase.Putting? && 0 <= p < |t.ready| && t.ready[p].PutRuns? ensures Covered(m, t, p) {
      assert Covered(m, l, p);
      var v: nat :| Handles(l.q, v) && HandlerDone(v) !in Ahead(m, l.ready, p);
      assert Handles(q, v);
    }
  }

  lemma WorkerKeepsInv(m: Mode, l: Loop)
    requires LoopInv(m, l) && CanRun(l) && Current(l).WorkerRuns?
    ensures LoopInv(m, RunStep(l, false))
  {
    var t, w := Taken(l), Current(l).worker;
    TakingKeepsOrder(m, l);
    if l.now.None? { WokenItemsTail(l.ready); }
    if Possible(l.q, Get(w)) {
      ItemIsUnjoined(l);
      GetFacts(l.q, w);
      ReachableGrows(l.q, Get(w));
      RosterKeepsOrder(m, t, Apply(l.q, Get(w)), w);
      WorkerWakes(m, l, t, Apply(l.q, Get(w)), w);
    }
  }

  lemma ItemIsUnjoined(l: Loop)
    requires Reachable(l.q) && JoinedOnce(l) && l.q.queue != []
    ensures Joins(l) == 0
  {
    ReachableInv(l.q);
    NoJoinWhileBusy(l);
  }

  lemma WorkerWakes(m: Mode, l: Loop, t: Loop, q: State, w: nat)
    requires LoopInv(m, l) && Possible(l.q, Get(w)) && q == Apply(l.q, Get(w)) && Reachable(q)
    requires t.q == l.q && WokenItems(t.ready) == l.q.woken && t.now == None
    requires InOrder(m, t.(q := q)) && HandlerDone(w) !in t.ready
    ensures LoopInv(m, WorkerStep(t, w, false))
  {
    ReachableInv(l.q);
    GetFacts(l.q, w);
    if l.q.waiting == [] {
      assert t.ready + [] == t.ready;
    } else if l.q.queue[0].Job? {
      NextPutKeepsOrder(m, t.(q := q), l.q.waiting[0], w);
    } else {
      assert Sentinel in l.q.queue;
      LatePutKeepsOrder(m, t.(q := q), l.q.waiting[0]);
    }
  }

  lemma {:induction false} TwoBusy(ws: seq<Worker>, v: nat, w: nat)
    requires v < w < |ws| && ws[v].Handling? && ws[w].Handling?
    ensures Busy(ws) >= 2
  {
    var n := |ws| - 1;
    if w < n {
      TwoBusy(ws[..n], v, w);
    } else {
      CountsInRange(ws[..n]);
      assert ws[..n][v].Handling?;
    }
  }

  /** The heart of it: when the end of a handler runs, every put still to run is covered by another
      handler, so the counter cannot fall to zero. */
  lemma EndsArePrompt(m: Mode, l: Loop, w: nat)
    requires Outlasting(m) && LoopInv(m, l) && l.now == None && l.ready != [] && l.ready[0] == HandlerDone(w)
    ensures Enabled(l.q, HandlerEnds(w, false)) && !l.q.phase.Putting?
  {
    ReachableInv(l.q);
    TimesPositive(l.ready, HandlerDone(w));
    assert Handles(l.q, w);
    CountsInRange(l.q.workers);
    if l.q.woken != [] {
      PutsAreWoken(l.ready);
      var p :| 0 <= p < |l.ready| && l.ready[p].PutRuns?;
      AnotherHandler(m, l, w, p);
    }
  }

  lemma AnotherHandler(m: Mode, l: Loop, w: nat, p: nat)
    requires Handles(l.q, w) && l.ready != [] && l.ready[0] == HandlerDone(w)
    requires 0 < p < |l.ready| && Covered(m, l, p)
    ensures Busy(l.q.workers) >= 2
  {
    var v: nat :| Handles(l.q, v) && HandlerDone(v) !in Ahead(m, l.ready, p);
    assert Ahead(m, l.ready, p)[0] == HandlerDone(w);
    if v < w { TwoBusy(l.q.workers, v, w); } else { TwoBusy(l.q.workers, w, v); }
  }

  lemma HandlerKeepsInv(m: Mode, l: Loop)
    requires Outlasting(m) && LoopInv(m, l) && CanRun(l) && Current(l).HandlerDone?
    ensures LoopInv(m, RunStep(l, false))
  {
    var t, w := Taken(l), Current(l).worker;
    EndsArePrompt(m, l, w);
    WokenItemsTail(l.ready);
    HandlerFacts(l.q, w);
    ReachableGrows(l.q, HandlerEnds(w, false));
    BusyIsUnjoined(l, w);
    var q := Apply(l.q, HandlerEnds(w, false));
    FreedKeepsOrder(m, l, q, w);
    TakingKeepsOrder(m, l);
    JoinMayFollow(m, t.(q := q), w);
  }

  lemma BusyIsUnjoined(l: Loop, w: nat)
    requires Reachable(l.q) && JoinedOnce(l) && Handles(l.q, w)
    ensures Joins(l) == 0
  {
    ReachableInv(l.q);
    CountsInRange(l.q.workers);
    NoJoinWhileBusy(l);
  }

  lemma JoinMayFollow(m: Mode, l: Loop, w: nat)
    requires LoopInv(m, l) && l.now == None && Joins(l) == 0
    ensures var joined := l.q.unfinished == 0 && l.q.phase == Joining && JoinWakes !in l.ready;
            LoopInv(m, l.(ready := l.ready + (if joined then [JoinWakes] else []), now := Some(WorkerRuns(w))))
  {
    ReachableInv(l.q);
    if l.q.unfinished == 0 && l.q.phase == Joining {
      TimesPositive(l.ready, JoinWakes);
      JoinIsReady(m, l);
    } else {
      assert l.ready + [] == l.ready;
    }
  }

  lemma FreedKeepsOrder(m: Mode, l: Loop, q: State, w: nat)
    requires Outlasting(m) && InOrder(m, l) && l.now == None && l.ready != [] && l.ready[0] == HandlerDone(w)
    requires !l.q.phase.Putting? && Joins(l) == 0
    requires q.phase == l.q.phase && q.running == l.q.running
    requires Handles(l.q, w) && q.workers == l.q.workers[w := Idle]
    ensures InOrder(m, Taken(l).(q := q))
  {
    var t := Taken(l).(q := q);
    TakingKeepsOrder(m, l);
    TimesTail(l.ready, HandlerDone(w));
    forall v: nat ensures Times(t.ready, HandlerDone(v)) <= if Handles(q, v) then 1 else 0 {
      TimesTail(l.ready, HandlerDone(v));
      assert v != w ==> Handles(q, v) == Handles(l.q, v);
    }
    forall p | 0 <= p < |t.ready| && t.ready[p].PutRuns? ensures Covered(m, t, p) {
      assert t.ready[p] == l.ready[p + 1] && Covered(m, l, p + 1);
      FreedKeepsCover(m, l, q, w, p);
    }
  }

  /** Whoever covers a put is not the handler whose end is ahead of it. */
  lemma FreedKeepsCover(m: Mode, l: Loop, q: State, w: nat, p: nat)
    requires l.now == None && l.ready != [] && l.ready[0] == HandlerDone(w)
    requires Handles(l.q, w) && q.workers == l.q.workers[w := Idle]
    requires p + 1 < |l.ready| && Covered(m, l, p + 1)
    ensures Covered(m, Taken(l).(q := q), p)
  {
    var v: nat :| Handles(l.q, v) && HandlerDone(v) !in Ahead(m, l.ready, p + 1);
    var before, after := Ahead(m, l.ready, p + 1), Ahead(m, l.ready[1..], p);
    assert before[0] == HandlerDone(w);
    assert v != w;
    assert Handles(q, v);
    assert l.ready[1..][..p] == l.ready[..p + 1][1..];
    assert after == before[1..];
    assert HandlerDone(v) !in after;
  }

  lemma JoinIsReady(m: Mode, l: Loop)
    requires InOrder(m, l) && l.now == None && Joins(l) == 0 && l.q.phase == Joining && l.q.unfinished == 0
    requires WokenItems(l.ready) == []
    ensures InOrder(m, l.(ready := l.ready + [JoinWakes])) && WokenItems(l.ready + [JoinWakes]) == []
  {
    var t := l.(ready := l.ready + [JoinWakes]);
    WokenItemsAppend(l.ready, JoinWakes);
    TimesAfterAppend(l.ready, JoinWakes, JoinWakes);
    forall v: nat ensures Times(t.ready, HandlerDone(v)) == Times(l.ready, HandlerDone(v)) {
      TimesAfterAppend(l.ready, JoinWakes, HandlerDone(v));
    }
    NoneWokenNoPuts(m, t);
  }

  lemma JoinKeepsInv(m: Mode, l: Loop)
    requires LoopInv(m, l) && CanRun(l) && Current(l) == JoinWakes
    ensures LoopInv(m, RunStep(l, false))
  {
    TakingKeepsOrder(m, l);
    if l.now.None? {
      WokenItemsTail(l.ready);
      TimesTail(l.ready, JoinWakes);
    }
    ReachableGrows(l.q, JoinReturns);
    assert RunStep(l, false).q == Apply(l.q, JoinReturns);
  }

  lemma SentinelKeepsInv(m: Mode, l: Loop)
    requires LoopInv(m, l) && CanRun(l) && Current(l).SentinelDue?
    ensures LoopInv(m, RunStep(l, false))
  {
    var t := Taken(l);
    TakingKeepsOrder(m, l);
    if l.now.None? { WokenItemsTail(l.ready); }
    if Possible(l.q, PutSentinel) {
      ReachableGrows(l.q, PutSentinel);
      SentinelFacts(l.q);
      PuttingKeepsOrder(m, t, Apply(l.q, PutSentinel));
      if !Full(l.q) { WakingKeepsInv(m, t.(q := Apply(l.q, PutSentinel), now := Some(SentinelDue))); }
    }
  }

  lemma PuttingKeepsOrder(m: Mode, l: Loop, q: State)
    requires InOrder(m, l) && l.now == None && l.q.phase.Putting? && q.phase.Putting? && q.workers == l.q.workers
    ensures InOrder(m, l.(q := q)) && InOrder(m, l.(q := q, now := Some(SentinelDue)))
  {
  }

  lemma EventsKeepInv(m: Mode, l: Loop, e: LoopEvent)
    requires Outlasting(m) && LoopInv(m, l) && Allowed(m, l, e)
    ensures LoopInv(m, Next(m, l, e))
  {
    match e
    case Starts => StartsKeepInv(m, l);
    case Calls => CallsKeepInv(m, l);
    case Stops => StopsKeepInv(m, l);
    case StopEnds => StopEndsKeepsInv(m, l);
    case HandlerFinishes(w) => FinishingKeepsInv(m, l, w);
    case WaitingTimesOut(i) => WaitingTimeoutKeepsInv(m, l, i);
    case WokenTimesOut(p) => WokenTimeoutKeepsInv(m, l, p);
    case Run(_) =>
      match Current(l)
      case PutRuns(_, cancelled) => if cancelled { CancelledPutKeepsInv(m, l); } else { PutKeepsInv(m, l); }
      case WorkerRuns(_) => WorkerKeepsInv(m, l);
      case HandlerDone(_) => HandlerKeepsInv(m, l);
      case JoinWakes => JoinKeepsInv(m, l);
      case SentinelDue => SentinelKeepsInv(m, l);
  }

  lemma InitialLoopInv(m: Mode, capacity: int, maxWorkers: nat)
    ensures LoopInv(m, LoopInitial(capacity, maxWorkers))
  {
    InitialIsReachable(capacity, maxWorkers);
  }

  lemma {:induction false} RunsKeepInv(m: Mode, ls: seq<Loop>, es: seq<LoopEvent>, n: nat)
    requires Outlasting(m) && LoopRun(m, ls, es) && n <= |es| && LoopInv(m, ls[0])
    ensures LoopInv(m, ls[n])
  {
    if n > 0 {
      RunsKeepInv(m, ls, es, n - 1);
      EventsKeepInv(m, ls[n - 1], es[n - 1]);
    }
  }

  /** Under handlers that outlast the puts they wake, the queue is only ever in states that its
      transition system reaches, so everything proved of those holds under the event loop. */
  lemma OrderRefinesPrompt(m: Mode, capacity: int, maxWorkers: nat, ls: seq<Loop>, es: seq<LoopEvent>)
    requires Outlasting(m) && LoopRun(m, ls, es) && ls[0] == LoopInitial(capacity, maxWorkers)
    ensures forall i :: 0 <= i < |ls| ==> Reachable(ls[i].q)
  {
    InitialLoopInv(m, capacity, maxWorkers);
    forall i | 0 <= i < |ls| ensures Reachable(ls[i].q) {
      RunsKeepInv(m, ls, es, i);
    }
  }

  lemma ReachableDelivers(q: State)
    requires Reachable(q)
    ensures Delivered(q)
  {
    ReachableInv(q);
    assert InCommitOrder(q);
  }
}
