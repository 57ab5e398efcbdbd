/** The reconcile task queue as a transition system.

    One event is the code between two suspension points. `asyncio.Queue` is modelled down to its
    wake-ups: a put that finds the queue full is parked in `waiting`; a get that frees a slot moves
    the oldest parked put to `woken`; a woken put runs later, may find the slot taken by a newcomer,
    and is then parked again at the end.
  */
module TaskQueue {
  import opened Counting

  /** What the queue carries. A job is named by its ticket, the number of its `enqueue` call. */
  datatype Item = Job(ticket: nat) | Sentinel

  datatype Worker = Idle | Handling(ticket: nat) | Exited

  /** Progress of the one `stop` call; `left` counts the sentinels it has not yet tried to put. */
  datatype StopPhase = NotStopping | Joining | Putting(left: nat)

  datatype State = State(
    capacity: int,
    maxWorkers: nat,
    queue: seq<Item>,
    waiting: seq<Item>,
    woken: seq<Item>,
    unfinished: int,
    workers: seq<Worker>,
    running: bool,
    accepting: bool,
    phase: StopPhase,
    // history
    calls: nat,
    committed: seq<nat>,
    started: seq<nat>,
    finished: seq<nat>,
    saturated: seq<nat>,
    refused: seq<nat>)

  datatype Event =
    | Start
    | Enqueue
    | PutResumes(put: nat)
    | WaitingPutTimesOut(put: nat)
    | WokenPutTimesOut(put: nat)
    | Get(worker: nat)
    | HandlerEnds(worker: nat, raised: bool)
    | StopBegins
    | JoinReturns
    | PutSentinel
    | StopReturns

  function Initial(capacity: int, maxWorkers: nat): State {
    State(capacity, maxWorkers, [], [], [], 0, [], false, false, NotStopping, 0, [], [], [], [], [])
  }

  // asyncio.Queue

  /** A capacity of zero or less means no bound. */
  predicate Full(s: State) {
    0 < s.capacity <= |s.queue|
  }

  function PutNow(s: State, item: Item): State {
    var t := s.(queue := s.queue + [item], unfinished := s.unfinished + 1);
    if item.Job? then t.(committed := s.committed + [item.ticket]) else t
  }

  function Park(s: State, item: Item): State {
    s.(waiting := s.waiting + [item])
  }

  function PutOrPark(s: State, item: Item): State {
    if Full(s) then Park(s, item) else PutNow(s, item)
  }

  function Refuse(s: State, ticket: nat): State {
    s.(refused := s.refused + [ticket])
  }

  function WakeNextPut(s: State): State {
    if s.waiting == [] then s else s.(woken := s.woken + [s.waiting[0]], waiting := s.waiting[1..])
  }

  // Events

  predicate InFlight(s: State) {
    Sentinel in s.waiting || Sentinel in s.woken
  }

  /** What each event needs, scheduling aside. A single `stop` caller is assumed, and only the puts
      made by `enqueue` have a timeout. */
  predicate Possible(s: State, e: Event) {
    match e
    case Start => true
    case Enqueue => true
    case PutResumes(i) => i < |s.woken|
    case WaitingPutTimesOut(i) => i < |s.waiting| && s.waiting[i].Job?
    case WokenPutTimesOut(i) => i < |s.woken| && s.woken[i].Job?
    case Get(w) => w < |s.workers| && s.workers[w] == Idle && s.queue != []
    case HandlerEnds(w, _) => w < |s.workers| && s.workers[w].Handling?
    case StopBegins => s.phase == NotStopping
    case JoinReturns => s.phase == Joining && s.unfinished == 0
    case PutSentinel => s.phase.Putting? && s.phase.left > 0 && !InFlight(s)
    case StopReturns =>
      s.phase == Putting(0) && !InFlight(s) && forall w :: 0 <= w < |s.workers| ==> s.workers[w] == Exited
  }

  /** By the time the last unfinished item is reported done, every put that has been woken has run. The
      module `EventLoop` derives this from the order of callbacks, for handlers that are still suspended
      when those puts have run; `LateJobs` shows what happens with others. */
  predicate Prompt(s: State, e: Event) {
    e.HandlerEnds? && s.unfinished == 1 ==> s.woken == []
  }

  predicate Enabled(s: State, e: Event) {
    Possible(s, e) && Prompt(s, e)
  }

  function Apply(s: State, e: Event): State
    requires Possible(s, e)
  {
    match e
    case Start =>
      if s.running then s
      else s.(accepting := true, running := true, workers := seq(s.maxWorkers, _ => Idle))
    case Enqueue =>
      var t := s.(calls := s.calls + 1);
      if !s.running || !s.accepting then Refuse(t, s.calls)
      else PutOrPark(t, Job(s.calls))
    case PutResumes(i) =>
      PutOrPark(s.(woken := RemoveAt(s.woken, i)), s.woken[i])
    case WaitingPutTimesOut(i) =>
      s.(waiting := RemoveAt(s.waiting, i), saturated := s.saturated + [s.waiting[i].ticket])
    case WokenPutTimesOut(i) =>
      var t := s.(woken := RemoveAt(s.woken, i), saturated := s.saturated + [s.woken[i].ticket]);
      if Full(t) then t else WakeNextPut(t)
    case Get(w) =>
      var t := WakeNextPut(s.(queue := s.queue[1..]));
      (match s.queue[0]
       case Job(n) => t.(workers := s.workers[w := Handling(n)], started := s.started + [n])
       case Sentinel => t.(workers := s.workers[w := Exited], unfinished := s.unfinished - 1))
    case HandlerEnds(w, _) =>
      s.(workers := s.workers[w := Idle], unfinished := s.unfinished - 1,
         finished := s.finished + [s.workers[w].ticket])
    case StopBegins =>
      if s.running then s.(accepting := false, phase := Joining) else s
    case JoinReturns =>
      s.(phase := Putting(|s.workers|))
    case PutSentinel =>
      PutOrPark(s.(phase := Putting(s.phase.left - 1)), Sentinel)
    case StopReturns =>
      s.(workers := [], running := false, phase := NotStopping)
  }

  // Runs

  predicate Runs(s: State, es: seq<Event>)
    decreases |es|
  {
    es == [] || (Enabled(s, es[0]) && Runs(Apply(s, es[0]), es[1..]))
  }

  function After(s: State, es: seq<Event>): State
    requires Runs(s, es)
    decreases |es|
  {
    if es == [] then s else After(Apply(s, es[0]), es[1..])
  }

  ghost predicate Reachable(s: State) {
    exists capacity, maxWorkers, es ::
      Runs(Initial(capacity, maxWorkers), es) && After(Initial(capacity, maxWorkers), es) == s
  }

  // Counting workers

  function Busy(ws: seq<Worker>): nat {
    if ws == [] then 0 else Busy(ws[..|ws| - 1]) + if ws[|ws| - 1].Handling? then 1 else 0
  }

  function Exits(ws: seq<Worker>): nat {
    if ws == [] then 0 else Exits(ws[..|ws| - 1]) + if ws[|ws| - 1].Exited? then 1 else 0
  }

  lemma {:induction false} CountsAfterUpdate(ws: seq<Worker>, w: nat, x: Worker)
    requires w < |ws|
    ensures Busy(ws[w := x]) + (if ws[w].Handling? then 1 else 0) == Busy(ws) + (if x.Handling? then 1 else 0)
    ensures Exits(ws[w := x]) + (if ws[w].Exited? then 1 else 0) == Exits(ws) + (if x.Exited? then 1 else 0)
  {
    var front, last := ws[..|ws| - 1], |ws| - 1;
    var ws' := ws[w := x];
    if w == last {
      assert ws'[..last] == front;
    } else {
      assert ws'[..last] == front[w := x];
      CountsAfterUpdate(front, w, x);
    }
  }

  lemma {:induction false} CountsInRange(ws: seq<Worker>)
    ensures Busy(ws) + Exits(ws) <= |ws|
    ensures Busy(ws) > 0 <==> exists w :: 0 <= w < |ws| && ws[w].Handling?
    ensures Busy(ws) + Exits(ws) < |ws| <==> exists w :: 0 <= w < |ws| && ws[w].Idle?
  {
    if ws != [] {
      var front, last := ws[..|ws| - 1], |ws| - 1;
      CountsInRange(front);
      assert forall w :: 0 <= w < last ==> front[w] == ws[w];
    }
  }

  lemma {:induction false} FreshPoolCounts(n: nat)
    ensures Busy(seq(n, _ => Idle)) == 0 && Exits(seq(n, _ => Idle)) == 0
  {
    if n > 0 {
      var pool := seq(n, _ => Idle);
      assert pool[..n - 1] == seq(n - 1, _ => Idle);
      FreshPoolCounts(n - 1);
    }
  }

  // Tickets

  function Tickets(items: seq<Item>): seq<nat> {
    if items == [] then [] else (if items[0].Job? then [items[0].ticket] else []) + Tickets(items[1..])
  }

  lemma {:induction false} TicketsOfConcat(a: seq<Item>, b: seq<Item>)
    ensures Tickets(a + b) == Tickets(a) + Tickets(b)
  {
    if a == [] {
      assert a + b == b;
    } else {
      assert (a + b)[1..] == a[1..] + b && (a + b)[0] == a[0];
      TicketsOfConcat(a[1..], b);
      ConcatIsAssociative(if a[0].Job? then [a[0].ticket] else [], Tickets(a[1..]), Tickets(b));
    }
  }

  lemma {:induction false} TicketsBounded(items: seq<Item>)
    ensures |Tickets(items)| <= |items|
    ensures |Tickets(items)| == |items| <==> Sentinel !in items
    ensures Tickets(items) == [] <==> forall i :: 0 <= i < |items| ==> items[i] == Sentinel
  {
    if items != [] {
      TicketsBounded(items[1..]);
      assert items == [items[0]] + items[1..];
    }
  }

  lemma HeldByNone(ws: seq<Worker>, t: nat)
    requires forall w :: 0 <= w < |ws| ==> !ws[w].Handling?
    ensures Times(ws, Handling(t)) == 0
  {
    TimesPositive(ws, Handling(t));
  }

  // Invariants

  /** The counter that `join` watches, and the bound that `capacity` puts on the queue. */
  predicate Counted(s: State) {
    && s.unfinished == |s.queue| + Busy(s.workers)
    && |s.started| == |s.finished| + Busy(s.workers)
    && (0 < s.capacity ==> |s.queue| <= s.capacity)
    && (s.waiting != [] ==> 0 < s.capacity <= |s.queue| + |s.woken|)
  }

  predicate AllSentinels(items: seq<Item>) {
    forall i :: 0 <= i < |items| ==> items[i] == Sentinel
  }

  /** What may be queued, parked and held in each phase of the life cycle. */
  predicate Phased(s: State) {
    if !s.running then
      !s.accepting && s.phase == NotStopping && s.workers == [] && s.queue == s.waiting == s.woken == []
    else
      && |s.workers| == s.maxWorkers
      && (s.accepting <==> s.phase == NotStopping)
      && match s.phase
         case Putting(left) =>
           && AllSentinels(s.queue) && AllSentinels(s.waiting) && AllSentinels(s.woken)
           && Busy(s.workers) == 0
           && |s.waiting| + |s.woken| <= 1
           && |s.queue| + |s.waiting| + |s.woken| + left + Exits(s.workers) == s.maxWorkers
         case _ =>
           && Sentinel !in s.queue && Sentinel !in s.waiting && Sentinel !in s.woken
           && Exits(s.workers) == 0
           && (s.unfinished == 0 ==> s.woken == [])
  }

  /** How often call `t` is found among the places where an `enqueue` call can be or end. */
  function Places(s: State, t: nat): nat {
    Times(s.committed, t) + Times(s.waiting, Job(t)) + Times(s.woken, Job(t))
    + Times(s.saturated, t) + Times(s.refused, t)
  }

  /** Call `t` is in one place if it was made, and a started job is either finished or still held. */
  predicate RecordedFor(s: State, t: nat) {
    && Places(s, t) == (if t < s.calls then 1 else 0)
    && Times(s.started, t) == Times(s.finished, t) + Times(s.workers, Handling(t))
  }

  ghost predicate Recorded(s: State) {
    && InCommitOrder(s)
    && forall t: nat :: RecordedFor(s, t)
  }

  ghost predicate Inv(s: State) {
    Counted(s) && Phased(s) && Recorded(s)
  }

  lemma AllExited(ws: seq<Worker>)
    requires forall w :: 0 <= w < |ws| ==> ws[w] == Exited
    ensures Busy(ws) == 0 && Exits(ws) == |ws|
  {
    CountsInRange(ws);
  }

  // One event at a time: the shape of the state (Counted and Phased)

  predicate Shaped(s: State) {
    Counted(s) && Phased(s)
  }

  lemma StartKeepsShape(s: State)
    requires Shaped(s)
    ensures Shaped(Apply(s, Start))
  {
    FreshPoolCounts(s.maxWorkers);
  }

  lemma EnqueueKeepsShape(s: State)
    requires Shaped(s)
    ensures Shaped(Apply(s, Enqueue))
  {
    assert s.accepting ==> s.phase == NotStopping;
  }

  lemma PutResumesKeepsShape(s: State, i: nat)
    requires Shaped(s) && Enabled(s, PutResumes(i))
    ensures Shaped(Apply(s, PutResumes(i)))
  {
    assert s.woken[i] in s.woken;
    assert s.running;
  }

  lemma TimeoutKeepsShape(s: State, e: Event)
    requires Shaped(s) && Enabled(s, e) && (e.WaitingPutTimesOut? || e.WokenPutTimesOut?)
    ensures Shaped(Apply(s, e))
  {
    assert s.running && !s.phase.Putting?;
  }

  lemma GetKeepsShape(s: State, w: nat)
    requires Shaped(s) && Enabled(s, Get(w))
    ensures Shaped(Apply(s, Get(w)))
  {
    assert s.running && s.queue[0] in s.queue;
    CountsAfterUpdate(s.workers, w, if s.queue[0].Job? then Handling(s.queue[0].ticket) else Exited);
  }

  lemma HandlerEndsKeepsShape(s: State, w: nat, raised: bool)
    requires Shaped(s) && Enabled(s, HandlerEnds(w, raised))
    ensures Shaped(Apply(s, HandlerEnds(w, raised)))
  {
    CountsInRange(s.workers);
    CountsAfterUpdate(s.workers, w, Idle);
  }

  lemma StopStepKeepsShape(s: State, e: Event)
    requires Shaped(s) && Enabled(s, e) && (e.StopBegins? || e.JoinReturns? || e.PutSentinel? || e.StopReturns?)
    ensures Shaped(Apply(s, e))
  {
    match e
    case StopBegins =>
    case JoinReturns =>
      assert s.queue == [] && s.woken == [] && s.waiting == [];
    case PutSentinel => NothingInFlight(s);
    case StopReturns =>
      NothingInFlight(s);
      AllExited(s.workers);
  }

  lemma SentinelAmong(items: seq<Item>)
    requires AllSentinels(items)
    ensures items != [] ==> Sentinel in items
  {
    if items != [] { assert items[0] in items; }
  }

  lemma NothingInFlight(s: State)
    requires Shaped(s) && s.phase.Putting? && !InFlight(s)
    ensures s.waiting == [] && s.woken == []
  {
    SentinelAmong(s.waiting);
    SentinelAmong(s.woken);
  }

  // One event at a time: the history (Recorded)

  predicate InCommitOrder(s: State) {
    s.committed == s.started + Tickets(s.queue)
  }

  lemma PutKeepsCommitOrder(s: State, item: Item)
    requires InCommitOrder(s)
    ensures InCommitOrder(PutOrPark(s, item))
  {
    TicketsOfConcat(s.queue, [item]);
    ConcatIsAssociative(s.started, Tickets(s.queue), Tickets([item]));
    assert Tickets([item]) == if item.Job? then [item.ticket] else [];
  }

  lemma GetKeepsCommitOrder(s: State, w: nat)
    requires InCommitOrder(s) && Possible(s, Get(w))
    ensures InCommitOrder(Apply(s, Get(w)))
  {
    var first, rest := if s.queue[0].Job? then [s.queue[0].ticket] else [], Tickets(s.queue[1..]);
    ConcatIsAssociative(s.started, first, rest);
  }

  lemma CommitOrderKept(s: State, e: Event)
    requires InCommitOrder(s) && Possible(s, e)
    ensures InCommitOrder(Apply(s, e))
  {
    match e
    case Enqueue => PutKeepsCommitOrder(s.(calls := s.calls + 1), Job(s.calls));
    case PutResumes(i) => PutKeepsCommitOrder(s.(woken := RemoveAt(s.woken, i)), s.woken[i]);
    case PutSentinel => PutKeepsCommitOrder(s.(phase := Putting(s.phase.left - 1)), Sentinel);
    case Get(w) => GetKeepsCommitOrder(s, w);
    case _ =>
  }

  lemma PuttingAddsPlace(s: State, item: Item, t: nat)
    ensures Places(PutOrPark(s, item), t) == Places(s, t) + if item == Job(t) then 1 else 0
    ensures var u := PutOrPark(s, item);
            u.started == s.started && u.finished == s.finished && u.workers == s.workers && u.calls == s.calls
  {
    TimesAfterAppend(s.waiting, item, Job(t));
    if item.Job? { TimesAfterAppend(s.committed, item.ticket, t); }
  }

  lemma WakingKeepsPlaces(s: State, t: nat)
    ensures Places(WakeNextPut(s), t) == Places(s, t)
  {
    if s.waiting != [] {
      assert s.waiting[1..] == RemoveAt(s.waiting, 0);
      TimesAfterRemoval(s.waiting, 0, Job(t));
      TimesAfterAppend(s.woken, s.waiting[0], Job(t));
    }
  }

  lemma WakingKeepsRecord(s: State, t: nat)
    requires RecordedFor(s, t)
    ensures RecordedFor(WakeNextPut(s), t)
  {
    WakingKeepsPlaces(s, t);
  }

  lemma CallKeepsRecord(s: State, t: nat)
    requires RecordedFor(s, t)
    ensures RecordedFor(Apply(s, Enqueue), t)
  {
    if !s.running || !s.accepting {
      RefusedCallIsRecorded(s, s.(calls := s.calls + 1), t);
      assert Apply(s, Enqueue) == Refuse(s.(calls := s.calls + 1), s.calls);
    } else {
      AdmittedCallIsRecorded(s, s.(calls := s.calls + 1), Job(s.calls), t);
      assert Apply(s, Enqueue) == PutOrPark(s.(calls := s.calls + 1), Job(s.calls));
    }
  }

  lemma RefusedCallIsRecorded(s: State, u: State, t: nat)
    requires RecordedFor(s, t) && u == s.(calls := s.calls + 1)
    ensures RecordedFor(Refuse(u, s.calls), t)
  {
    CallAddsNoPlace(s, t);
    RefusalAddsPlace(u, s.calls, t);
    NewPlaceIsRecorded(s, Refuse(u, s.calls), t);
  }

  lemma AdmittedCallIsRecorded(s: State, u: State, item: Item, t: nat)
    requires RecordedFor(s, t) && u == s.(calls := s.calls + 1) && item == Job(s.calls)
    ensures RecordedFor(PutOrPark(u, item), t)
  {
    CallAddsNoPlace(s, t);
    PuttingAddsPlace(u, item, t);
    NewPlaceIsRecorded(s, PutOrPark(u, item), t);
  }

  lemma NewPlaceIsRecorded(s: State, u: State, t: nat)
    requires RecordedFor(s, t) && Places(u, t) == Places(s, t) + if s.calls == t then 1 else 0
    requires u.calls == s.calls + 1 && u.started == s.started && u.finished == s.finished && u.workers == s.workers
    ensures RecordedFor(u, t)
  {
  }

  lemma CallAddsNoPlace(s: State, t: nat)
    ensures Places(s.(calls := s.calls + 1), t) == Places(s, t)
  {
  }

  lemma RefusalAddsPlace(s: State, ticket: nat, t: nat)
    ensures Places(Refuse(s, ticket), t) == Places(s, t) + if ticket == t then 1 else 0
  {
    TimesAfterAppend(s.refused, ticket, t);
  }

  lemma PutKeepsRecord(s: State, i: nat, t: nat)
    requires RecordedFor(s, t) && i < |s.woken|
    ensures RecordedFor(Apply(s, PutResumes(i)), t)
  {
    TimesAfterRemoval(s.woken, i, Job(t));
    var u := s.(woken := RemoveAt(s.woken, i));
    assert Places(s, t) == Places(u, t) + if s.woken[i] == Job(t) then 1 else 0;
    PuttingAddsPlace(u, s.woken[i], t);
    assert Apply(s, PutResumes(i)) == PutOrPark(u, s.woken[i]);
  }

  lemma WaitingTimeoutKeepsRecord(s: State, i: nat, t: nat)
    requires RecordedFor(s, t) && Possible(s, WaitingPutTimesOut(i))
    ensures RecordedFor(Apply(s, WaitingPutTimesOut(i)), t)
  {
    TimesAfterRemoval(s.waiting, i, Job(t));
    TimesAfterAppend(s.saturated, s.waiting[i].ticket, t);
  }

  lemma WokenTimeoutKeepsRecord(s: State, i: nat, t: nat)
    requires RecordedFor(s, t) && Possible(s, WokenPutTimesOut(i))
    ensures RecordedFor(Apply(s, WokenPutTimesOut(i)), t)
  {
    TimesAfterRemoval(s.woken, i, Job(t));
    TimesAfterAppend(s.saturated, s.woken[i].ticket, t);
    var u := s.(woken := RemoveAt(s.woken, i), saturated := s.saturated + [s.woken[i].ticket]);
    assert Places(u, t) == Places(s, t);
    assert RecordedFor(u, t);
    WakingKeepsRecord(u, t);
  }

  lemma GetKeepsRecord(s: State, w: nat, t: nat)
    requires RecordedFor(s, t) && Possible(s, Get(w))
    ensures RecordedFor(Apply(s, Get(w)), t)
  {
    WakingKeepsPlaces(s.(queue := s.queue[1..]), t);
    match s.queue[0]
    case Job(n) =>
      TimesAfterUpdate(s.workers, w, Handling(n), Handling(t));
      TimesAfterAppend(s.started, n, t);
    case Sentinel =>
      TimesAfterUpdate(s.workers, w, Exited, Handling(t));
  }

  lemma HandlerEndsKeepsRecord(s: State, w: nat, raised: bool, t: nat)
    requires RecordedFor(s, t) && Possible(s, HandlerEnds(w, raised))
    ensures RecordedFor(Apply(s, HandlerEnds(w, raised)), t)
  {
    TimesAfterUpdate(s.workers, w, Idle, Handling(t));
    TimesAfterAppend(s.finished, s.workers[w].ticket, t);
  }

  lemma LifeCycleKeepsRecord(s: State, e: Event, t: nat)
    requires Shaped(s) && RecordedFor(s, t) && Possible(s, e)
    requires e.Start? || e.StopBegins? || e.JoinReturns? || e.PutSentinel? || e.StopReturns?
    ensures RecordedFor(Apply(s, e), t)
  {
    match e
    case Start =>
      if !s.running {
        HeldByNone(s.workers, t);
        HeldByNone(seq(s.maxWorkers, _ => Idle), t);
      }
    case PutSentinel => TimesAfterAppend(s.waiting, Sentinel, Job(t));
    case StopReturns => HeldByNone(s.workers, t);
    case _ =>
  }

  // Every reachable state

  lemma EventKeepsShape(s: State, e: Event)
    requires Shaped(s) && Enabled(s, e)
    ensures Shaped(Apply(s, e))
  {
    match e
    case Start => StartKeepsShape(s);
    case Enqueue => EnqueueKeepsShape(s);
    case PutResumes(i) => PutResumesKeepsShape(s, i);
    case Get(w) => GetKeepsShape(s, w);
    case HandlerEnds(w, raised) => HandlerEndsKeepsShape(s, w, raised);
    case WaitingPutTimesOut(_) => TimeoutKeepsShape(s, e);
    case WokenPutTimesOut(_) => TimeoutKeepsShape(s, e);
    case _ => StopStepKeepsShape(s, e);
  }

  lemma EventKeepsRecord(s: State, e: Event, t: nat)
    requires Shaped(s) && RecordedFor(s, t) && Possible(s, e)
    ensures RecordedFor(Apply(s, e), t)
  {
    match e
    case Enqueue => CallKeepsRecord(s, t);
    case PutResumes(i) => PutKeepsRecord(s, i, t);
    case Get(w) => GetKeepsRecord(s, w, t);
    case HandlerEnds(w, raised) => HandlerEndsKeepsRecord(s, w, raised, t);
    case WaitingPutTimesOut(i) => WaitingTimeoutKeepsRecord(s, i, t);
    case WokenPutTimesOut(i) => WokenTimeoutKeepsRecord(s, i, t);
    case _ => LifeCycleKeepsRecord(s, e, t);
  }

  /** Every event that the scheduler can let happen keeps the whole invariant. */
  lemma EventKeepsInv(s: State, e: Event)
    requires Inv(s) && Enabled(s, e)
    ensures Inv(Apply(s, e))
  {
    EventKeepsShape(s, e);
    CommitOrderKept(s, e);
    forall t: nat ensures RecordedFor(Apply(s, e), t) {
      EventKeepsRecord(s, e, t);
    }
  }

  lemma {:induction false} RunKeepsInv(s: State, es: seq<Event>)
    requires Inv(s) && Runs(s, es)
    ensures Inv(After(s, es))
    decreases |es|
  {
    if es != [] {
      EventKeepsInv(s, es[0]);
      RunKeepsInv(Apply(s, es[0]), es[1..]);
    }
  }

  lemma InitialInv(capacity: int, maxWorkers: nat)
    ensures Inv(Initial(capacity, maxWorkers))
  {
    forall t: nat ensures RecordedFor(Initial(capacity, maxWorkers), t) {}
  }

  lemma ReachableInv(s: State)
    requires Reachable(s)
    ensures Inv(s)
  {
    var capacity, maxWorkers, es :|
      Runs(Initial(capacity, maxWorkers), es) && After(Initial(capacity, maxWorkers), es) == s;
    InitialInv(capacity, maxWorkers);
    RunKeepsInv(Initial(capacity, maxWorkers), es);
  }

  /** The counter is exact, so `task_done` never underflows, and the load is bounded: at most
      `maxWorkers` handlers run, the queue stays within its capacity, and so does the backlog. */
  lemma LoadIsBounded(s: State)
    requires Reachable(s)
    ensures s.unfinished == |s.queue| + Busy(s.workers)
    ensures forall e :: Enabled(s, e) && (e.HandlerEnds? || e.Get?) ==> s.unfinished > 0
    ensures Busy(s.workers) <= s.maxWorkers
    ensures 0 < s.capacity ==> |s.queue| <= s.capacity
    ensures 0 < s.capacity ==> |s.committed| - |s.finished| <= s.capacity + s.maxWorkers
  {
    ReachableInv(s);
    CountsInRange(s.workers);
    TicketsBounded(s.queue);
  }

  /** No wake-up is lost: puts wait, with none woken, only while the queue is full. */
  lemma NoPutIsForgotten(s: State)
    requires Reachable(s) && s.waiting != [] && s.woken == []
    ensures Full(s)
  {
    ReachableInv(s);
  }

  /** Jobs start in the order in which their puts committed, each at most once, and a call that
      failed with either error is never among them. */
  lemma StartsOnceInCommitOrder(s: State)
    requires Reachable(s)
    ensures s.started <= s.committed
    ensures Distinct(s.committed) && Distinct(s.finished)
    ensures forall t :: t in s.started ==> t < s.calls && t !in s.saturated && t !in s.refused
    ensures forall t :: t in s.started <==> t in s.finished || Handling(t) in s.workers
    ensures forall t :: t in s.finished ==> Handling(t) !in s.workers
  {
    ReachableInv(s);
    forall t: nat
      ensures Times(s.committed, t) <= 1 && Times(s.started, t) <= Times(s.committed, t)
      ensures Times(s.started, t) == Times(s.finished, t) + Times(s.workers, Handling(t))
      ensures t in s.started ==> t < s.calls && t !in s.saturated && t !in s.refused
      ensures t in s.started <==> t in s.finished || Handling(t) in s.workers
      ensures t in s.finished ==> Handling(t) !in s.workers
    {
      assert RecordedFor(s, t);
      TimesInConcat(s.started, Tickets(s.queue), t);
      TimesPositive(s.started, t);
      TimesPositive(s.finished, t);
      TimesPositive(s.workers, Handling(t));
      TimesPositive(s.saturated, t);
      TimesPositive(s.refused, t);
    }
    DistinctIfOnce(s.committed);
    DistinctIfOnce(s.finished);
  }

  lemma PutGrowsHistory(s: State, item: Item)
    ensures var u := PutOrPark(s, item);
            && s.committed <= u.committed && u.started == s.started
            && u.saturated == s.saturated && u.refused == s.refused
            && u.capacity == s.capacity && u.maxWorkers == s.maxWorkers
  {
  }

  lemma WakingKeepsHistory(s: State)
    ensures var u := WakeNextPut(s);
            && u.committed == s.committed && u.started == s.started
            && u.saturated == s.saturated && u.refused == s.refused
            && u.capacity == s.capacity && u.maxWorkers == s.maxWorkers
  {
  }

  lemma EventGrowsHistory(s: State, e: Event)
    requires Possible(s, e)
    ensures s.committed <= Apply(s, e).committed && s.started <= Apply(s, e).started
    ensures s.saturated <= Apply(s, e).saturated && s.refused <= Apply(s, e).refused
    ensures Apply(s, e).capacity == s.capacity && Apply(s, e).maxWorkers == s.maxWorkers
  {
    match e
    case Enqueue => PutGrowsHistory(s.(calls := s.calls + 1), Job(s.calls));
    case PutResumes(i) => PutGrowsHistory(s.(woken := RemoveAt(s.woken, i)), s.woken[i]);
    case PutSentinel => PutGrowsHistory(s.(phase := Putting(s.phase.left - 1)), Sentinel);
    case Get(w) => WakingKeepsHistory(s.(queue := s.queue[1..]));
    case WokenPutTimesOut(i) =>
      WakingKeepsHistory(s.(woken := RemoveAt(s.woken, i), saturated := s.saturated + [s.woken[i].ticket]));
    case _ =>
  }

  lemma {:induction false} HistoryGrows(s: State, es: seq<Event>)
    requires Runs(s, es)
    ensures s.committed <= After(s, es).committed && s.started <= After(s, es).started
    ensures s.saturated <= After(s, es).saturated && s.refused <= After(s, es).refused
    ensures After(s, es).capacity == s.capacity && After(s, es).maxWorkers == s.maxWorkers
    decreases |es|
  {
    if es != [] {
      EventGrowsHistory(s, es[0]);
      HistoryGrows(Apply(s, es[0]), es[1..]);
    }
  }

  /** A call that failed is not handled later either, whatever happens next. */
  lemma FailedCallIsNeverHandled(s: State, es: seq<Event>, t: nat)
    requires Reachable(s) && Runs(s, es)
    requires t in s.saturated || t in s.refused
    ensures t !in After(s, es).started && t !in After(s, es).committed
  {
    ReachableInv(s);
    RunKeepsInv(s, es);
    HistoryGrows(s, es);
    var u := After(s, es);
    assert RecordedFor(u, t);
    TimesPositive(u.saturated, t);
    TimesPositive(u.refused, t);
    TimesPositive(u.committed, t);
    assert InCommitOrder(u);
  }

  function ForgetHistory(s: State): State {
    s.(calls := 0, committed := [], started := [], finished := [], saturated := [], refused := [])
  }

  /** When `stop` returns, every job whose put committed has been started, once and in commit order,
      and has finished; every call is accounted for; and what is left is a queue as good as new. */
  lemma StopDeliversEverything(s: State)
    requires Reachable(s) && Enabled(s, StopReturns)
    ensures var u := Apply(s, StopReturns);
            && u.started == u.committed
            && (forall t: nat :: Times(u.finished, t) == Times(u.committed, t))
            && (forall t: nat :: t < u.calls ==>
                  Times(u.finished, t) + Times(u.saturated, t) + Times(u.refused, t) == 1)
            && ForgetHistory(u) == Initial(s.capacity, s.maxWorkers)
  {
    ReachableInv(s);
    NothingInFlight(s);
    AllExited(s.workers);
    assert s.queue == [];
    var u := Apply(s, StopReturns);
    EventKeepsInv(s, StopReturns);
    assert u.started == u.committed;
    forall t: nat
      ensures Times(u.finished, t) == Times(u.committed, t)
      ensures t < u.calls ==> Times(u.finished, t) + Times(u.saturated, t) + Times(u.refused, t) == 1
    {
      assert RecordedFor(u, t);
    }
  }

  // Shutdown makes progress

  function Measure(s: State): nat {
    3 * |s.waiting| + 4 * |s.woken| + 3 * |s.queue| + Busy(s.workers)
    + match s.phase
      case NotStopping => 0
      case Putting(left) => 5 * left + 1
      case Joining => 5 * s.maxWorkers + 2
  }

  /** The events that come from outside: new calls of `start`, `enqueue` and `stop`. */
  predicate FromOutside(e: Event) {
    e.Start? || e.Enqueue? || e.StopBegins?
  }

  predicate Timeout(e: Event) {
    e.WaitingPutTimesOut? || e.WokenPutTimesOut?
  }

  lemma WorkerLowersMeasure(s: State, e: Event)
    requires Shaped(s) && s.phase != NotStopping && Enabled(s, e) && (e.Get? || e.HandlerEnds?)
    ensures Measure(Apply(s, e)) < Measure(s)
  {
    match e
    case Get(w) =>
      CountsAfterUpdate(s.workers, w, if s.queue[0].Job? then Handling(s.queue[0].ticket) else Exited);
    case HandlerEnds(w, _) => CountsAfterUpdate(s.workers, w, Idle);
  }

  lemma PutLowersMeasure(s: State, e: Event)
    requires Shaped(s) && s.phase != NotStopping && Enabled(s, e) && (e.PutResumes? || Timeout(e))
    ensures Measure(Apply(s, e)) < Measure(s)
  {
  }

  lemma InsideEventLowersMeasure(s: State, e: Event)
    requires Shaped(s) && s.phase != NotStopping && Enabled(s, e) && !FromOutside(e)
    ensures Measure(Apply(s, e)) < Measure(s)
  {
    if e.Get? || e.HandlerEnds? {
      WorkerLowersMeasure(s, e);
    } else if e.PutResumes? || Timeout(e) {
      PutLowersMeasure(s, e);
    } else if e.StopReturns? {
      AllExited(s.workers);
    }
  }

  lemma OutsideEventKeepsMeasure(s: State, e: Event)
    requires Shaped(s) && s.phase != NotStopping && Enabled(s, e) && FromOutside(e)
    ensures Measure(Apply(s, e)) == Measure(s) && Apply(s, e).phase == s.phase
  {
  }

  function InsideEvents(es: seq<Event>): nat {
    if es == [] then 0 else (if FromOutside(es[0]) then 0 else 1) + InsideEvents(es[1..])
  }

  /** However callers keep calling, a shutdown takes at most `Measure` events of its own. */
  lemma {:induction false} ShutdownIsBounded(s: State, es: seq<Event>)
    requires Inv(s) && s.phase != NotStopping && Runs(s, es) && StopReturns !in es
    ensures InsideEvents(es) + Measure(After(s, es)) <= Measure(s)
    ensures After(s, es).phase != NotStopping
    decreases |es|
  {
    if es != [] {
      var e := es[0];
      EventKeepsInv(s, e);
      if FromOutside(e) {
        OutsideEventKeepsMeasure(s, e);
      } else {
        InsideEventLowersMeasure(s, e);
      }
      ShutdownIsBounded(Apply(s, e), es[1..]);
    }
  }

  /** With at least one worker a shutdown is never stuck: until `stop` has returned, some event
      other than a timeout can happen. This holds for every capacity, even one below the number of
      sentinels to be put. */
  lemma ShutdownIsNeverStuck(s: State) returns (e: Event)
    requires Inv(s) && s.phase != NotStopping && s.maxWorkers >= 1
    ensures Enabled(s, e) && !FromOutside(e) && !Timeout(e)
  {
    CountsInRange(s.workers);
    if s.woken != [] {
      e := PutResumes(0);
    } else if w :| 0 <= w < |s.workers| && s.workers[w].Handling? {
      e := HandlerEnds(w, false);
    } else if s.queue != [] {
      var w :| 0 <= w < |s.workers| && s.workers[w].Idle?;
      e := Get(w);
    } else if s.phase == Joining {
      e := JoinReturns;
    } else if s.phase.left > 0 {
      SentinelAmong(s.waiting);
      e := PutSentinel;
    } else {
      assert s.waiting == [];
      e := StopReturns;
    }
  }

  lemma StoppingContinues(s: State, e: Event)
    requires Inv(s) && s.phase != NotStopping && Enabled(s, e) && e != StopReturns
    ensures Inv(Apply(s, e)) && Apply(s, e).phase != NotStopping && Apply(s, e).maxWorkers == s.maxWorkers
  {
    EventKeepsInv(s, e);
    EventGrowsHistory(s, e);
  }

  predicate NoneFromOutside(es: seq<Event>) {
    forall i :: 0 <= i < |es| ==> !FromOutside(es[i])
  }

  /** Joining the two: from every stopping state the queue can finish on its own, within the bound. */
  lemma {:induction false} ShutdownCompletes(s: State) returns (es: seq<Event>)
    requires Inv(s) && s.phase != NotStopping && s.maxWorkers >= 1
    ensures Runs(s, es) && 0 < |es| <= Measure(s) && es[|es| - 1] == StopReturns && NoneFromOutside(es)
    ensures !After(s, es).running
    decreases Measure(s)
  {
    var e := ShutdownIsNeverStuck(s);
    InsideEventLowersMeasure(s, e);
    if e == StopReturns {
      es := [e];
      assert After(s, es) == Apply(s, e);
    } else {
      StoppingContinues(s, e);
      var rest := ShutdownCompletes(Apply(s, e));
      es := [e] + rest;
      assert es[1..] == rest;
    }
  }
}
