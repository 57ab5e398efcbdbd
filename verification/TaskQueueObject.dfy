/** The queue object itself. Each method is the code its Python counterpart runs between two
    suspension points; its contract is the matching event of the transition system. */
module TaskQueueObject {
  import opened Counting
  import opened TaskQueue

  /** How the first step of an `enqueue` call ends; `Suspended` is decided by a later step. */
  datatype EnqueueOutcome = Accepted | NotRunning | Suspended

  /** A new ticket is found where its call ended up, and nowhere else. */
  lemma OutcomeShows(s: State)
    requires Inv(s)
    ensures var u := Apply(s, Enqueue);
            && (s.calls in u.refused <==> !s.running || !s.accepting)
            && (s.calls in u.committed <==> s.running && s.accepting && !Full(s))
            && (Job(s.calls) in u.waiting <==> s.running && s.accepting && Full(s))
            && (s.running && s.accepting && Full(s) ==> u.waiting == s.waiting + [Job(s.calls)])
            && (s.running && s.accepting && !Full(s) ==> u.queue == s.queue + [Job(s.calls)])
  {
    assert RecordedFor(s, s.calls);
    TimesPositive(s.committed, s.calls);
    TimesPositive(s.refused, s.calls);
    TimesPositive(s.waiting, Job(s.calls));
  }

  class ReconcileTaskQueue {
    const capacity: int
    const maxWorkers: nat
    var queue: seq<Item>
    var putters: seq<Item>
    var woken: seq<Item>
    var unfinishedTasks: int
    var workers: seq<Worker>
    var running: bool
    var accepting: bool
    var phase: StopPhase
    var calls: nat

    ghost var committed: seq<nat>
    ghost var started: seq<nat>
    ghost var finished: seq<nat>
    ghost var saturated: seq<nat>
    ghost var refused: seq<nat>

    ghost function Abs(): State
      reads this
    {
      State(capacity, maxWorkers, queue, putters, woken, unfinishedTasks, workers, running, accepting,
            phase, calls, committed, started, finished, saturated, refused)
    }

    constructor (maxWorkers: nat, capacity: int)
      ensures Abs() == Initial(capacity, maxWorkers) && Inv(Abs())
    {
      this.capacity, this.maxWorkers := capacity, maxWorkers;
      queue, putters, woken, unfinishedTasks, workers := [], [], [], 0, [];
      running, accepting, phase, calls := false, false, NotStopping, 0;
      committed, started, finished, saturated, refused := [], [], [], [], [];
      new;
      InitialInv(capacity, maxWorkers);
    }

    // asyncio.Queue

    method PutNoWait(item: Item)
      requires !Full(Abs())
      modifies this
      ensures Abs() == PutNow(old(Abs()), item)
    {
      queue := queue + [item];
      unfinishedTasks := unfinishedTasks + 1;
      if item.Job? { committed := committed + [item.ticket]; }
    }

    method WakeupNextPutter()
      modifies this
      ensures Abs() == WakeNextPut(old(Abs()))
    {
      if putters != [] {
        woken := woken + [putters[0]];
        putters := putters[1..];
      }
    }

    /** One pass of the loop in `put`. */
    method TryPut(item: Item) returns (done: bool)
      modifies this
      ensures Abs() == PutOrPark(old(Abs()), item)
      ensures done == !Full(old(Abs()))
    {
      if 0 < capacity && |queue| >= capacity {
        putters := putters + [item];
        return false;
      }
      PutNoWait(item);
      return true;
    }

    method GetNoWait() returns (item: Item)
      requires queue != []
      modifies this
      ensures item == old(queue[0])
      ensures Abs() == WakeNextPut(old(Abs()).(queue := old(queue[1..])))
    {
      item := queue[0];
      queue := queue[1..];
      WakeupNextPutter();
    }

    /** Raises in Python when nothing is unfinished; here that is a precondition. */
    method TaskDone()
      requires unfinishedTasks > 0
      modifies this`unfinishedTasks
      ensures unfinishedTasks == old(unfinishedTasks) - 1
    {
      unfinishedTasks := unfinishedTasks - 1;
    }

    // ReconcileTaskQueue

    method Start()
      requires Inv(Abs())
      modifies this
      ensures Abs() == Apply(old(Abs()), TaskQueue.Start) && Inv(Abs())
    {
      EventKeepsInv(Abs(), TaskQueue.Start);
      if running { return; }
      accepting := true;
      running := true;
      workers := seq(maxWorkers, _ => Idle);
    }

    method Enqueue() returns (outcome: EnqueueOutcome)
      requires Inv(Abs())
      modifies this
      ensures Abs() == Apply(old(Abs()), TaskQueue.Enqueue) && Inv(Abs())
      ensures outcome == NotRunning <==> old(calls) in refused
      ensures outcome == Accepted <==> old(calls) in committed
      ensures outcome == Suspended <==> Job(old(calls)) in putters
      ensures outcome == Suspended ==> putters == old(putters) + [Job(old(calls))]
      ensures outcome == Accepted ==> queue == old(queue) + [Job(old(calls))]
    {
      ghost var before := Abs();
      EventKeepsInv(before, TaskQueue.Enqueue);
      outcome := AdmitOrRefuse();
      OutcomeShows(before);
    }

    /** The accepting check and the first put attempt: one step. */
    method AdmitOrRefuse() returns (outcome: EnqueueOutcome)
      modifies this
      ensures Abs() == Apply(old(Abs()), TaskQueue.Enqueue)
      ensures outcome == if !old(running) || !old(accepting) then NotRunning
                         else if Full(old(Abs())) then Suspended else Accepted
    {
      var ticket := calls;
      calls := calls + 1;
      if !running || !accepting {
        refused := refused + [ticket];
        return NotRunning;
      }
      var done := TryPut(Job(ticket));
      outcome := if done then Accepted else Suspended;
    }

    method PutResumes(i: nat)
      requires Inv(Abs()) && i < |woken|
      modifies this
      ensures Abs() == Apply(old(Abs()), TaskQueue.PutResumes(i)) && Inv(Abs())
    {
      EventKeepsInv(Abs(), TaskQueue.PutResumes(i));
      var item := woken[i];
      woken := RemoveAt(woken, i);
      var _ := TryPut(item);
    }

    /** The timeout of an `enqueue` whose put has not been woken. */
    method WaitingPutTimesOut(i: nat)
      requires Inv(Abs()) && i < |putters| && putters[i].Job?
      modifies this
      ensures Abs() == Apply(old(Abs()), TaskQueue.WaitingPutTimesOut(i)) && Inv(Abs())
    {
      EventKeepsInv(Abs(), TaskQueue.WaitingPutTimesOut(i));
      saturated := saturated + [putters[i].ticket];
      putters := RemoveAt(putters, i);
    }

    /** The timeout of an `enqueue` whose put was woken but has not run: it passes the wake-up on. */
    method WokenPutTimesOut(i: nat)
      requires Inv(Abs()) && i < |woken| && woken[i].Job?
      modifies this
      ensures Abs() == Apply(old(Abs()), TaskQueue.WokenPutTimesOut(i)) && Inv(Abs())
    {
      EventKeepsInv(Abs(), TaskQueue.WokenPutTimesOut(i));
      saturated := saturated + [woken[i].ticket];
      woken := RemoveAt(woken, i);
      if !(0 < capacity && |queue| >= capacity) {
        WakeupNextPutter();
      }
    }

    /** The worker loop from its `get` to the handler, or to its exit on a sentinel. */
    method WorkerGets(w: nat)
      requires Inv(Abs()) && w < |workers| && workers[w] == Idle && queue != []
      modifies this
      ensures Abs() == Apply(old(Abs()), Get(w)) && Inv(Abs())
    {
      ghost var before := Abs();
      EventKeepsInv(before, Get(w));
      TakeItem(w);
    }

    /** The step itself. */
    method TakeItem(w: nat)
      requires w < |workers| && workers[w] == Idle && queue != [] && unfinishedTasks > 0
      modifies this
      ensures Abs() == Apply(old(Abs()), Get(w))
    {
      var item := GetNoWait();
      if item == Sentinel {
        workers := workers[w := Exited];
        TaskDone();
        return;
      }
      workers := workers[w := Handling(item.ticket)];
      started := started + [item.ticket];
    }

    /** The worker loop from the end of the handler, which may have raised, back to its `get`. */
    method HandlerEnds(w: nat, raised: bool)
      requires Inv(Abs()) && Enabled(Abs(), TaskQueue.HandlerEnds(w, raised))
      modifies this
      ensures Abs() == Apply(old(Abs()), TaskQueue.HandlerEnds(w, raised)) && Inv(Abs())
    {
      EventKeepsInv(Abs(), TaskQueue.HandlerEnds(w, raised));
      CountsInRange(workers);
      finished := finished + [workers[w].ticket];
      workers := workers[w := Idle];
      TaskDone();
    }

    method StopBegins()
      requires Inv(Abs()) && phase == NotStopping
      modifies this
      ensures Abs() == Apply(old(Abs()), TaskQueue.StopBegins) && Inv(Abs())
    {
      EventKeepsInv(Abs(), TaskQueue.StopBegins);
      if !running { return; }
      accepting := false;
      phase := Joining;
    }

    method JoinReturns()
      requires Inv(Abs()) && phase == Joining && unfinishedTasks == 0
      modifies this
      ensures Abs() == Apply(old(Abs()), TaskQueue.JoinReturns) && Inv(Abs())
    {
      EventKeepsInv(Abs(), TaskQueue.JoinReturns);
      phase := Putting(|workers|);
    }

    method PutSentinel()
      requires Inv(Abs()) && Enabled(Abs(), TaskQueue.PutSentinel)
      modifies this
      ensures Abs() == Apply(old(Abs()), TaskQueue.PutSentinel) && Inv(Abs())
    {
      EventKeepsInv(Abs(), TaskQueue.PutSentinel);
      phase := Putting(phase.left - 1);
      var _ := TryPut(Sentinel);
    }

    method StopReturns()
      requires Inv(Abs()) && Enabled(Abs(), TaskQueue.StopReturns)
      modifies this
      ensures Abs() == Apply(old(Abs()), TaskQueue.StopReturns) && Inv(Abs())
    {
      EventKeepsInv(Abs(), TaskQueue.StopReturns);
      workers := [];
      running := false;
      phase := NotStopping;
    }
  }
}
