/** Parked puts are woken first in, first out, and every rejection is told apart. */
module PutOrder {
  import opened Counting
  import opened TaskQueue

  ghost predicate StandsBefore(xs: seq<Item>, a: Item, b: Item) {
    exists p, q :: 0 <= p < q < |xs| && xs[p] == a && xs[q] == b
  }

  /** `xs` without the item at `i`, if there is one. */
  function Without(xs: seq<Item>, i: nat): seq<Item> {
    if i < |xs| then RemoveAt(xs, i) else xs
  }

  /** The put whose turn it is, or that times out in its turn. */
  predicate TakesTurn(e: Event) {
    e.PutResumes? || e.WokenPutTimesOut?
  }

  /** What an event does to the line of parked puts. At most one leaves, the rest keep their order, and
      at most one is added, at the end, because the queue is full. The one that leaves has timed out, or
      it is the first, it is woken, and there is room. */
  ghost predicate LineMoves(s: State, e: Event, t: State, out: nat, added: seq<Item>)
    requires Possible(s, e)
  {
    && out <= |s.waiting| && |added| <= 1 && t.waiting == Without(s.waiting, out) + added
    && (added != [] ==>
          && out == |s.waiting| && Full(s)
          && ((e == Enqueue && added[0] == Job(s.calls)) || (e == PutSentinel && added[0] == Sentinel)
              || (e.PutResumes? && added[0] == s.woken[e.put])))
    && (out < |s.waiting| ==>
          e == WaitingPutTimesOut(out) || (out == 0 && (e.Get? || e.WokenPutTimesOut?) && !Full(t)))
    && t.woken == (if TakesTurn(e) then Without(s.woken, e.put) else s.woken)
                  + (if out < |s.waiting| && !e.WaitingPutTimesOut? then [s.waiting[0]] else [])
    && (s.waiting != [] && (e.Get? || (e.WokenPutTimesOut? && !Full(s))) ==> out == 0)
  }

  /** Which calls an event rejects, and as what. */
  predicate Rejects(s: State, e: Event, t: State)
    requires Possible(s, e)
  {
    && t.refused == s.refused + (if e == Enqueue && !(s.running && s.accepting) then [s.calls] else [])
    && t.saturated == s.saturated + match e
                                    case WaitingPutTimesOut(i) => [s.waiting[i].ticket]
                                    case WokenPutTimesOut(i) => [s.woken[i].ticket]
                                    case _ => []
  }

  lemma ParkingMoves(s: State, e: Event) returns (out: nat, added: seq<Item>)
    requires Counted(s) && Possible(s, e) && (e == Enqueue || e == PutSentinel || e.PutResumes?)
    ensures LineMoves(s, e, Apply(s, e), out, added) && Rejects(s, e, Apply(s, e))
  {
    out := |s.waiting|;
    added := if !Full(s) || (e == Enqueue && !(s.running && s.accepting)) then []
             else match e
                  case Enqueue => [Job(s.calls)]
                  case PutResumes(i) => [s.woken[i]]
                  case _ => [Sentinel];
  }

  lemma WakingMoves(s: State, e: Event) returns (out: nat, added: seq<Item>)
    requires Counted(s) && Possible(s, e) && (e.Get? || e.WokenPutTimesOut?)
    ensures LineMoves(s, e, Apply(s, e), out, added) && Rejects(s, e, Apply(s, e))
  {
    added := [];
    out := if s.waiting == [] || (e.WokenPutTimesOut? && Full(s)) then |s.waiting| else 0;
    if out < |s.waiting| { assert s.waiting[1..] == RemoveAt(s.waiting, 0); }
    assert e.Get? ==> |s.queue[1..]| == |s.queue| - 1;
  }

  /** Every event moves the line as a line moves. */
  lemma EventMovesLine(s: State, e: Event) returns (out: nat, added: seq<Item>)
    requires Counted(s) && Possible(s, e)
    ensures LineMoves(s, e, Apply(s, e), out, added) && Rejects(s, e, Apply(s, e))
  {
    match e
    case Enqueue => out, added := ParkingMoves(s, e);
    case PutSentinel => out, added := ParkingMoves(s, e);
    case PutResumes(_) => out, added := ParkingMoves(s, e);
    case Get(_) => out, added := WakingMoves(s, e);
    case WokenPutTimesOut(_) => out, added := WakingMoves(s, e);
    case WaitingPutTimesOut(i) => out, added := i, [];
    case _ => out, added := |s.waiting|, [];
  }

  // Runs

  /** If call `b` is parked, it stands behind call `a`. */
  ghost predicate Behind(s: State, a: nat, b: nat) {
    Job(b) in s.waiting ==> StandsBefore(s.waiting, Job(a), Job(b))
  }

  lemma OncePlaced(s: State, t: nat)
    requires Inv(s)
    ensures Times(s.waiting, Job(t)) <= 1 && (Job(t) in s.waiting ==> Job(t) !in s.woken && t < s.calls)
    ensures Job(t) in s.waiting ==> t !in s.committed && t !in s.refused && t !in s.saturated
  {
    assert RecordedFor(s, t);
    TimesPositive(s.waiting, Job(t));
    TimesPositive(s.woken, Job(t));
    TimesPositive(s.committed, t);
    TimesPositive(s.refused, t);
    TimesPositive(s.saturated, t);
  }

  lemma OnceAt(xs: seq<Item>, x: Item, p: nat, q: nat)
    requires Times(xs, x) <= 1 && p < |xs| && q < |xs| && xs[p] == x && xs[q] == x
    ensures p == q
  {
    if p != q {
      TimesAfterRemoval(xs, p, x);
      var r := if q < p then q else q - 1;
      assert RemoveAt(xs, p)[r] == x;
      TimesPositive(RemoveAt(xs, p), x);
    }
  }

  lemma RemovalKeepsOrder(xs: seq<Item>, i: nat, a: Item, b: Item)
    requires i < |xs| && Times(xs, a) <= 1 && Times(xs, b) <= 1 && StandsBefore(xs, a, b)
    requires a in RemoveAt(xs, i) && b in RemoveAt(xs, i)
    ensures StandsBefore(RemoveAt(xs, i), a, b)
  {
    var p, q :| 0 <= p < q < |xs| && xs[p] == a && xs[q] == b;
    NotRemoved(xs, i, a, p);
    NotRemoved(xs, i, b, q);
    KeptAt(xs, i, p);
    KeptAt(xs, i, q);
    assert RemoveAt(xs, i)[if p < i then p else p - 1] == a && RemoveAt(xs, i)[if q < i then q else q - 1] == b;
  }

  lemma NotRemoved(xs: seq<Item>, i: nat, x: Item, p: nat)
    requires i < |xs| && p < |xs| && Times(xs, x) <= 1 && xs[p] == x && x in RemoveAt(xs, i)
    ensures i != p
  {
    TimesAfterRemoval(xs, i, x);
    TimesPositive(RemoveAt(xs, i), x);
  }

  lemma KeptAt(xs: seq<Item>, i: nat, p: nat)
    requires i < |xs| && p < |xs| && p != i
    ensures RemoveAt(xs, i)[if p < i then p else p - 1] == xs[p]
  {
  }

  lemma LastStandsBehind(xs: seq<Item>, a: Item, b: Item)
    requires a in xs
    ensures StandsBefore(xs + [b], a, b)
  {
    var p :| 0 <= p < |xs| && xs[p] == a;
    assert (xs + [b])[p] == a && (xs + [b])[|xs|] == b;
  }

  lemma LongerKeepsOrder(xs: seq<Item>, ys: seq<Item>, a: Item, b: Item)
    requires StandsBefore(xs, a, b)
    ensures StandsBefore(xs + ys, a, b)
  {
    var p, q :| 0 <= p < q < |xs| && xs[p] == a && xs[q] == b;
    assert (xs + ys)[p] == a && (xs + ys)[q] == b;
  }

  lemma MovesKeepBehind(s: State, e: Event, t: State, out: nat, added: seq<Item>, a: nat, b: nat)
    requires Possible(s, e) && LineMoves(s, e, t, out, added) && a != b && Behind(s, a, b)
    requires Times(s.waiting, Job(a)) <= 1 && Times(s.waiting, Job(b)) <= 1
    requires Job(a) in s.waiting && Job(a) !in s.woken && a < s.calls && Job(a) in t.waiting
    ensures Behind(t, a, b)
    ensures Job(b) in s.waiting ==> Job(b) in t.waiting || (e == WaitingPutTimesOut(out) && s.waiting[out] == Job(b))
  {
    FirstIsNotBehind(s, a, b);
    if added == [] {
      if out < |s.waiting| {
        assert t.waiting == RemoveAt(s.waiting, out) + [] == RemoveAt(s.waiting, out);
        OneLeavesBehind(s, out, a, b);
      } else {
        assert t.waiting == s.waiting + [] == s.waiting;
      }
    } else {
      assert t.waiting == s.waiting + [added[0]];
      OneComesBehind(s.waiting, added[0], a, b);
    }
  }

  lemma OneComesBehind(xs: seq<Item>, x: Item, a: nat, b: nat)
    requires Job(a) in xs && (Job(b) in xs ==> StandsBefore(xs, Job(a), Job(b)))
    ensures Job(b) in xs + [x] ==> StandsBefore(xs + [x], Job(a), Job(b))
  {
    if Job(b) in xs { LongerKeepsOrder(xs, [x], Job(a), Job(b)); }
    if x == Job(b) { LastStandsBehind(xs, Job(a), Job(b)); }
  }

  lemma OneLeavesBehind(s: State, out: nat, a: nat, b: nat)
    requires out < |s.waiting| && Behind(s, a, b) && Job(a) in RemoveAt(s.waiting, out)
    requires Times(s.waiting, Job(a)) <= 1 && Times(s.waiting, Job(b)) <= 1
    ensures Job(b) in RemoveAt(s.waiting, out) ==> StandsBefore(RemoveAt(s.waiting, out), Job(a), Job(b))
    ensures Job(b) in s.waiting ==> Job(b) in RemoveAt(s.waiting, out) || s.waiting[out] == Job(b)
  {
    TimesAfterRemoval(s.waiting, out, Job(b));
    TimesPositive(s.waiting, Job(b));
    TimesPositive(RemoveAt(s.waiting, out), Job(b));
    if Job(b) in s.waiting { OneLeaves(s, out, a, b); }
  }

  lemma MovesWakeNoOther(s: State, e: Event, t: State, out: nat, added: seq<Item>, b: nat)
    requires Possible(s, e) && LineMoves(s, e, t, out, added)
    requires s.waiting != [] ==> s.waiting[0] != Job(b)
    ensures Job(b) in t.woken ==> Job(b) in s.woken
  {
  }

  /** While `a` stays parked, `b` stays behind it and is not woken. */
  lemma EventKeepsBehind(s: State, e: Event, a: nat, b: nat)
    requires Inv(s) && Enabled(s, e) && a != b && Behind(s, a, b)
    requires Job(a) in s.waiting && Job(a) in Apply(s, e).waiting
    ensures Behind(Apply(s, e), a, b)
    ensures Job(b) in Apply(s, e).woken ==> Job(b) in s.woken
    ensures Job(b) in s.waiting ==> Job(b) in Apply(s, e).waiting || b in Apply(s, e).saturated
  {
    var out, added := EventMovesLine(s, e);
    OncePlaced(s, a);
    OncePlaced(s, b);
    FirstIsNotBehind(s, a, b);
    MovesKeepBehind(s, e, Apply(s, e), out, added, a, b);
    MovesWakeNoOther(s, e, Apply(s, e), out, added, b);
  }

  lemma FirstIsNotBehind(s: State, a: nat, b: nat)
    requires Behind(s, a, b) && Times(s.waiting, Job(b)) <= 1
    ensures s.waiting != [] ==> s.waiting[0] != Job(b)
  {
    if s.waiting != [] && s.waiting[0] == Job(b) {
      assert Job(b) in s.waiting;
      var p, q :| 0 <= p < q < |s.waiting| && s.waiting[p] == Job(a) && s.waiting[q] == Job(b);
      OnceAt(s.waiting, Job(b), 0, q);
    }
  }

  lemma OneLeaves(s: State, out: nat, a: nat, b: nat)
    requires out < |s.waiting| && Behind(s, a, b) && Job(b) in s.waiting
    requires Times(s.waiting, Job(a)) <= 1 && Times(s.waiting, Job(b)) <= 1 && Job(a) in RemoveAt(s.waiting, out)
    ensures Job(b) in RemoveAt(s.waiting, out) ==> StandsBefore(RemoveAt(s.waiting, out), Job(a), Job(b))
    ensures Job(b) in RemoveAt(s.waiting, out) || s.waiting[out] == Job(b)
  {
    if Job(b) in RemoveAt(s.waiting, out) { RemovalKeepsOrder(s.waiting, out, Job(a), Job(b)); }
    var q :| 0 <= q < |s.waiting| && s.waiting[q] == Job(b);
    if q != out {
      assert RemoveAt(s.waiting, out)[if q < out then q else q - 1] == Job(b);
    }
  }

  /** Call `a` is parked in every state of the run. */
  predicate StaysParked(s: State, es: seq<Event>, a: nat)
    requires Runs(s, es)
    decreases |es|
  {
    Job(a) in s.waiting && (es == [] || StaysParked(Apply(s, es[0]), es[1..], a))
  }

  /** No overtaking among parked puts: while `a` stays parked, a call that was not ahead of it is not
      woken, however many puts park, resume or time out. If `b` was parked, it is still, or has timed out. */
  lemma {:induction false} NoOvertaking(s: State, es: seq<Event>, a: nat, b: nat)
    requires Inv(s) && Runs(s, es) && StaysParked(s, es, a) && a != b && Behind(s, a, b)
    ensures Behind(After(s, es), a, b)
    ensures Job(b) in After(s, es).woken ==> Job(b) in s.woken
    ensures Job(b) in s.waiting ==> Job(b) in After(s, es).waiting || b in After(s, es).saturated
    decreases |es|
  {
    if es != [] {
      var t := Apply(s, es[0]);
      EventKeepsInv(s, es[0]);
      EventKeepsBehind(s, es[0], a, b);
      NoOvertaking(t, es[1..], a, b);
      HistoryGrows(t, es[1..]);
    }
  }
}
