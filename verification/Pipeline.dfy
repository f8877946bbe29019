/** The uninterleaved pipeline as a queue of records: arrivals, reorder passes and dispatches. */
module Pipeline {
  import opened SharedTasks
  import opened Priority
  import opened Conversion
  import opened Transit
  import opened Execution
  import RingSafety

  /** What became of a dispatched task: let go, for one of four reasons, put back, or dropped because putting
      it back failed. */
  datatype Fate =
    | Threw
    | UnderQuantum(givenMs: int, slice: Slice)
    | Finished(slice: Slice)
    | Stopped(slice: Slice)
    | Requeued(slice: Slice, trip: Trip)
    | Dropped(slice: Slice)

  /** The slice of a fate, if there is one. */
  function SliceOf(fate: Fate): Option<Slice> { if fate.Threw? then None else Some(fate.slice) }

  /** Tasks that get a whole quantum. Nothing is defined about the total time of an I/O-bound task, so it
      may or may not. */
  predicate MayRunQuantum(quantumMs: int, t: SharedTask) {
    t.kind.IO_BOUND_TASK? || (t.kind.CPU_INTENSIVE_TASK? && t.remainingMs >= quantumMs)
  }

  /** Tasks whose total time is under the quantum, and that time. */
  predicate MayFallShort(quantumMs: int, t: SharedTask, givenMs: int) {
    givenMs < quantumMs && (t.kind.IO_BOUND_TASK? || (t.kind.CPU_INTENSIVE_TASK? && givenMs == t.remainingMs))
  }

  /** The processor's branches. A plain task throws; a task under the quantum is executed for its total time
      and runs out of the queue; and the slice of any other decides: it is put back, or an attempt is made,
      unless the slice reports completion or `stop` came. */
  predicate FateFits(quantumMs: int, t: SharedTask, fate: Fate) {
    match fate
    case Threw => t.kind.UNIX_TASK?
    case UnderQuantum(givenMs, slice) => MayFallShort(quantumMs, t, givenMs) && SliceFits(givenMs, t.kind, slice)
    case Finished(slice) =>
      MayRunQuantum(quantumMs, t) && SliceFits(quantumMs, t.kind, slice) && Completes(quantumMs, t.remainingMs, slice)
    case Stopped(slice) =>
      MayRunQuantum(quantumMs, t) && SliceFits(quantumMs, t.kind, slice) && !Completes(quantumMs, t.remainingMs, slice)
    case Requeued(slice, trip) =>
      && MayRunQuantum(quantumMs, t) && SliceFits(quantumMs, t.kind, slice) && !Completes(quantumMs, t.remainingMs, slice)
      && Ordered(trip) && trip.adjustedNs <= slice.startNs && slice.endNs <= trip.addedNs
    case Dropped(slice) =>
      MayRunQuantum(quantumMs, t) && SliceFits(quantumMs, t.kind, slice) && !Completes(quantumMs, t.remainingMs, slice)
  }

  /** A CPU task is never let go with a quantum or more of its work undone, unless `stop` came or putting it
      back failed: one with less is executed for what it has left, until that time is over or the loop is
      through, and one with more has been executed for all of it. */
  lemma LetGoWhenDone(quantumMs: int, t: SharedTask, fate: Fate)
    requires FateFits(quantumMs, t, fate) && t.kind.CPU_INTENSIVE_TASK?
    requires !fate.Requeued? && !fate.Stopped? && !fate.Dropped?
    ensures t.remainingMs < quantumMs ==>
      && fate.UnderQuantum? && SliceFits(t.remainingMs, CPU_INTENSIVE_TASK, fate.slice)
      && (fate.slice.endNs - fate.slice.startNs >= t.remainingMs * 1_000_000
          || |fate.slice.readings| == LoopLimit(t.remainingMs))
    ensures t.remainingMs >= quantumMs ==>
      fate.Finished? && fate.slice.endNs - fate.slice.startNs >= t.remainingMs * 1_000_000
  {
    if fate.Finished? {
      CompletionTakesTime(quantumMs, t.remainingMs, fate.slice);
    } else {
      SliceTimes(t.remainingMs, fate.slice);
    }
  }

  /** An I/O-bound task is let go as finished exactly after its last operation or when its file cannot be
      opened. */
  lemma IoFinishedIff(quantumMs: int, t: SharedTask, slice: Slice)
    requires t.kind.IO_BOUND_TASK? && SliceFits(quantumMs, IO_BOUND_TASK, slice)
    ensures FateFits(quantumMs, t, Finished(slice)) <==> !slice.fileOpens || t.remainingMs - 1 <= 0
    ensures FateFits(quantumMs, t, Stopped(slice)) <==> slice.fileOpens && t.remainingMs - 1 > 0
  {
    CompletesIff(quantumMs, t.remainingMs, slice);
  }

  /** A CPU task with a quantum or more left is let go as finished exactly if its slice did not leave through the
      timeout and lasted for all it had left; otherwise `stop` or a failed put-back may end its way here too. */
  lemma CpuFinishedIff(quantumMs: int, t: SharedTask, slice: Slice)
    requires t.kind.CPU_INTENSIVE_TASK? && SliceFits(quantumMs, CPU_INTENSIVE_TASK, slice) && t.remainingMs >= quantumMs
    ensures var done := !TimedOut(quantumMs, slice) && slice.endNs - slice.startNs >= t.remainingMs * 1_000_000;
      && (FateFits(quantumMs, t, Finished(slice)) <==> done)
      && (FateFits(quantumMs, t, Stopped(slice)) <==> !done)
      && (FateFits(quantumMs, t, Dropped(slice)) <==> !done)
  {
    CompletesIff(quantumMs, t.remainingMs, slice);
  }

  /** A slice that used up its quantum makes the trip around it last as long. */
  lemma TimeoutElapses(quantumMs: int, t: SharedTask, slice: Slice, trip: Trip)
    requires FateFits(quantumMs, t, Requeued(slice, trip)) && TimedOut(quantumMs, slice)
    ensures t.kind.CPU_INTENSIVE_TASK? && t.remainingMs >= quantumMs && Elapsed(trip) >= quantumMs
  {
    assert trip.addedNs - trip.createdNs >= quantumMs * NS_PER_MS;
  }

  datatype Event =
    | Arrive(task: SharedTask)
    | Pass(algorithm: Algorithm, trips: seq<Trip>)
    | Dispatch(fate: Fate)

  function Back(t: SharedTask, fate: Fate): (s: seq<SharedTask>)
    requires InRange(t.priority) && (fate.Requeued? ==> Ordered(fate.trip))
    ensures |s| == if fate.Requeued? then 1 else 0
  {
    if fate.Requeued? then [Carry(None, t, fate.trip)] else []
  }

  predicate Step(capacity: nat, quantumMs: int, q: seq<SharedTask>, e: Event, q': seq<SharedTask>) {
    match e
    case Arrive(t) => |q| < capacity && InRange(t.priority) && q' == q + [t]
    case Pass(algorithm, trips) =>
      |trips| == |q| && AllInRange(q) && AllOrdered(trips) && q' == CarryAll(Some(algorithm), q, trips)
    case Dispatch(fate) =>
      q != [] && InRange(q[0].priority) && FateFits(quantumMs, q[0], fate) && q' == q[1..] + Back(q[0], fate)
  }

  /** `queues[n]` is the ring after `n` events. */
  ghost predicate Run(capacity: nat, quantumMs: int, queues: seq<seq<SharedTask>>, events: seq<Event>) {
    && |queues| == |events| + 1
    && forall n :: 0 <= n < |events| ==> Step(capacity, quantumMs, queues[n], events[n], queues[n + 1])
  }

  /** The ring never holds more tasks than it has slots. */
  lemma {:induction false} RunFits(capacity: nat, quantumMs: int, queues: seq<seq<SharedTask>>, events: seq<Event>)
    requires Run(capacity, quantumMs, queues, events) && |queues[0]| <= capacity
    ensures |queues[|events|]| <= capacity
  {
    hide FateFits, Carry;
    if events != [] {
      var n := |events| - 1;
      RunFits(capacity, quantumMs, queues[..n + 1], events[..n]);
      assert Step(capacity, quantumMs, queues[n], events[n], queues[n + 1]);
    }
  }

  function Dispatches(events: seq<Event>): nat {
    if events == [] then 0 else
    Dispatches(events[..|events| - 1]) + (if events[|events| - 1].Dispatch? then 1 else 0)
  }

  // Fairness.

  /** Where the task at position `i` is after one event, and that it is the same task. */
  lemma StepMoves(capacity: nat, quantumMs: int, q: seq<SharedTask>, e: Event, q': seq<SharedTask>, i: nat)
    requires Step(capacity, quantumMs, q, e, q') && i < |q|
    ensures !e.Dispatch? ==> i < |q'| && TagOf(q'[i]) == TagOf(q[i])
    ensures e.Dispatch? && i > 0 ==> i - 1 < |q'| && q'[i - 1] == q[i]
    ensures e.Dispatch? && i == 0 && e.fate.Requeued? ==> |q'| == |q| && TagOf(q'[|q| - 1]) == TagOf(q[0])
  {
    match e {
      case Arrive(_) =>
      case Pass(algorithm, trips) =>
        PassPreserves(algorithm, q, trips);
        hide Carry;
      case Dispatch(fate) =>
        if fate.Requeued? {
          RequeuedAtBack(quantumMs, q[0], fate);
        }
        hide FateFits, Back;
    }
  }

  lemma RequeuedAtBack(quantumMs: int, t: SharedTask, fate: Fate)
    requires InRange(t.priority) && FateFits(quantumMs, t, fate) && fate.Requeued?
    ensures |Back(t, fate)| == 1 && TagOf(Back(t, fate)[0]) == TagOf(t)
  {
    CarryKeeps(None, t, fate.trip);
    hide Carry, SliceFits, Completes, Shorten, CString, Description, RemainingAfter;
  }

  /** A queued task moves forward by exactly the dispatches made, whatever arrives or is reordered
      meanwhile: the one at position `k` comes to the head after exactly `k` others were dispatched. */
  lemma {:induction false} PositionCountsDispatches(capacity: nat, quantumMs: int, queues: seq<seq<SharedTask>>,
                                                    events: seq<Event>, k: nat)
    requires Run(capacity, quantumMs, queues, events)
    requires k < |queues[0]| && Dispatches(events) <= k
    ensures var last := queues[|events|];
      && k - Dispatches(events) < |last|
      && TagOf(last[k - Dispatches(events)]) == TagOf(queues[0][k])
  {
    hide Step;
    if events != [] {
      var n := |events| - 1;
      PositionCountsDispatches(capacity, quantumMs, queues[..n + 1], events[..n], k);
      assert Step(capacity, quantumMs, queues[n], events[n], queues[n + 1]);
      StepMoves(capacity, quantumMs, queues[n], events[n], queues[n + 1], k - Dispatches(events[..n]));
    }
  }

  /** Round robin: after a dispatch that re-queues its task, the next dispatches take the tasks that were
      queued behind it, in order, one each, and then the re-queued task again. */
  lemma OnceEachPerRound(capacity: nat, quantumMs: int, queues: seq<seq<SharedTask>>, events: seq<Event>)
    requires Run(capacity, quantumMs, queues, events) && |events| >= 2
    requires events[0].Dispatch? && events[0].fate.Requeued? && events[|events| - 1].Dispatch?
    requires Dispatches(events[1..|events| - 1]) < |queues[0]|
    ensures var j := Dispatches(events[1..|events| - 1]);
      && queues[|events| - 1] != []
      && TagOf(queues[|events| - 1][0]) == if j == |queues[0]| - 1 then TagOf(queues[0][0]) else TagOf(queues[0][j + 1])
  {
    var n := |events| - 1;
    var middle := events[1..n];
    var j := Dispatches(middle);
    assert Step(capacity, quantumMs, queues[0], events[0], queues[1]);
    StepMoves(capacity, quantumMs, queues[0], events[0], queues[1], if j == |queues[0]| - 1 then 0 else j + 1);
    MiddleRun(capacity, quantumMs, queues, events);
    PositionCountsDispatches(capacity, quantumMs, queues[1..n + 1], middle, j);
  }

  lemma MiddleRun(capacity: nat, quantumMs: int, queues: seq<seq<SharedTask>>, events: seq<Event>)
    requires Run(capacity, quantumMs, queues, events) && |events| >= 2
    ensures Run(capacity, quantumMs, queues[1..|events|], events[1..|events| - 1])
  {
    forall n | 0 <= n < |events| - 2
      ensures Step(capacity, quantumMs, queues[1..|events|][n], events[1..|events| - 1][n], queues[1..|events|][n + 1])
    {
      assert Step(capacity, quantumMs, queues[n + 1], events[n + 1], queues[n + 1 + 1]);
    }
  }

  // Termination.

  /** Dispatches a CPU task can still use: one per whole quantum left and one to leave on. */
  function Slices(remainingMs: nat, quantumMs: nat): (n: nat)
    requires quantumMs > 0
    ensures n >= 1
  {
    if remainingMs < quantumMs then 1 else 1 + Slices(remainingMs - quantumMs, quantumMs)
  }

  lemma {:induction false} SlicesIsQuotient(remainingMs: nat, quantumMs: nat)
    requires quantumMs > 0
    ensures Slices(remainingMs, quantumMs) == remainingMs / quantumMs + 1
  {
    if remainingMs < quantumMs {
      Quotient(0, remainingMs, quantumMs, remainingMs);
    } else {
      var less := remainingMs - quantumMs;
      SlicesIsQuotient(less, quantumMs);
      var d := less / quantumMs;
      assert less == d * quantumMs + less % quantumMs;
      assert remainingMs == (d + 1) * quantumMs + less % quantumMs;
      Quotient(d + 1, less % quantumMs, quantumMs, remainingMs);
    }
  }

  lemma Quotient(q: nat, r: nat, n: nat, x: nat)
    requires r < n && x == q * n + r
    ensures x / n == q
  {
    var d := x / n;
    assert x == d * n + x % n;
    assert (d - q) * n == r - x % n;
    if d != q {
      RingSafety.Multiple(d - q, n);
    }
  }

  lemma {:induction false} SlicesMonotone(a: nat, b: nat, quantumMs: nat)
    requires quantumMs > 0 && a <= b
    ensures Slices(a, quantumMs) <= Slices(b, quantumMs)
  {
    if a >= quantumMs {
      SlicesMonotone(a - quantumMs, b - quantumMs, quantumMs);
    }
  }

  /** An unfinished CPU task, as a record holds it. */
  predicate CpuWork(t: SharedTask) {
    t.kind.CPU_INTENSIVE_TASK? && !t.completed && 0 <= t.remainingMs < TWO_31 && InRange(t.priority)
  }

  predicate AllCpuWork(q: seq<SharedTask>) { forall i :: 0 <= i < |q| ==> CpuWork(q[i]) }

  /** The sum of the slices of a queue of CPU tasks. */
  function Budget(q: seq<SharedTask>, quantumMs: nat): nat
    requires quantumMs > 0 && AllCpuWork(q)
  {
    if q == [] then 0 else Slices(q[0].remainingMs, quantumMs) + Budget(q[1..], quantumMs)
  }

  lemma {:induction false} BudgetAppend(a: seq<SharedTask>, b: seq<SharedTask>, quantumMs: nat)
    requires quantumMs > 0 && AllCpuWork(a) && AllCpuWork(b)
    ensures AllCpuWork(a + b)
    ensures Budget(a + b, quantumMs) == Budget(a, quantumMs) + Budget(b, quantumMs)
  {
    if a == [] {
      assert a + b == b;
    } else {
      assert (a + b)[1..] == a[1..] + b;
      BudgetAppend(a[1..], b, quantumMs);
    }
  }

  lemma {:induction false} BudgetPositive(q: seq<SharedTask>, quantumMs: nat)
    requires quantumMs > 0 && AllCpuWork(q)
    ensures Budget(q, quantumMs) >= |q|
  {
    if q != [] {
      BudgetPositive(q[1..], quantumMs);
    }
  }

  /** The budget is the sum of the quotients, each plus one. */
  lemma BudgetIs(t: SharedTask, q: seq<SharedTask>, quantumMs: nat)
    requires quantumMs > 0 && CpuWork(t) && AllCpuWork(q)
    ensures Budget([], quantumMs) == 0
    ensures AllCpuWork([t] + q)
    ensures Budget([t] + q, quantumMs) == t.remainingMs / quantumMs + 1 + Budget(q, quantumMs)
  {
    SlicesIsQuotient(t.remainingMs, quantumMs);
    assert ([t] + q)[1..] == q;
    hide CpuWork, Slices;
  }

  /** No trip lasts the 25 days after which the remaining time would wrap. */
  predicate Brief(trip: Trip) { Ordered(trip) && Elapsed(trip) <= TWO_31 }

  /** No arrivals, and brief trips. */
  predicate Closed(e: Event) {
    match e
    case Arrive(_) => false
    case Pass(_, trips) => forall i :: 0 <= i < |trips| ==> Brief(trips[i])
    case Dispatch(fate) => fate.Requeued? ==> Brief(fate.trip)
  }

  /** Besides, every unfinished slice left through the timeout. */
  predicate Steady(quantumMs: int, e: Event) {
    Closed(e) && (e.Dispatch? && e.fate.Requeued? ==> TimedOut(quantumMs, e.fate.slice))
  }

  /** A brief trip keeps a CPU task a CPU task and takes the whole milliseconds between its rebuild and its
      writing back off it. */
  lemma CarryWork(algorithm: Option<Algorithm>, t: SharedTask, trip: Trip)
    requires CpuWork(t) && Brief(trip)
    ensures CpuWork(Carry(algorithm, t, trip))
    ensures Carry(algorithm, t, trip).remainingMs ==
      if Elapsed(trip) < t.remainingMs then t.remainingMs - Elapsed(trip) else 0
    ensures forall ms: nat :: ms * 1_000_000 <= trip.addedNs - trip.createdNs < (ms + 1) * 1_000_000 ==>
      Carry(algorithm, t, trip).remainingMs == if ms < t.remainingMs then t.remainingMs - ms else 0
  {
    CarryKeeps(algorithm, t, trip);
    CarryNeverRaises(algorithm, t, trip);
    RemainingShrinksIff(t.remainingMs, Elapsed(trip));
    hide Carry, RemainingAfter;
  }

  lemma CarrySlices(algorithm: Option<Algorithm>, t: SharedTask, trip: Trip, quantumMs: nat)
    requires CpuWork(t) && Brief(trip) && quantumMs > 0
    ensures CpuWork(Carry(algorithm, t, trip))
    ensures Slices(Carry(algorithm, t, trip).remainingMs, quantumMs) <= Slices(t.remainingMs, quantumMs)
    ensures t.remainingMs >= quantumMs && Elapsed(trip) >= quantumMs ==>
      Slices(Carry(algorithm, t, trip).remainingMs, quantumMs) < Slices(t.remainingMs, quantumMs)
  {
    hide Carry, ElapsedMs, Slices;
    CarryWork(algorithm, t, trip);
    SlicesDrop(t.remainingMs, Elapsed(trip), quantumMs);
  }

  lemma SlicesDrop(remainingMs: nat, elapsedMs: nat, quantumMs: nat)
    requires quantumMs > 0
    ensures var left := if elapsedMs < remainingMs then remainingMs - elapsedMs else 0;
      && Slices(left, quantumMs) <= Slices(remainingMs, quantumMs)
      && (remainingMs >= quantumMs && elapsedMs >= quantumMs ==> Slices(left, quantumMs) < Slices(remainingMs, quantumMs))
  {
    var left := if elapsedMs < remainingMs then remainingMs - elapsedMs else 0;
    SlicesMonotone(left, remainingMs, quantumMs);
    if remainingMs >= quantumMs && elapsedMs >= quantumMs {
      SlicesMonotone(left, remainingMs - quantumMs, quantumMs);
    }
  }

  lemma {:induction false} PassBudget(algorithm: Algorithm, q: seq<SharedTask>, trips: seq<Trip>, quantumMs: nat)
    requires quantumMs > 0 && AllCpuWork(q) && |trips| == |q|
    requires forall i :: 0 <= i < |trips| ==> Brief(trips[i])
    ensures AllInRange(q) && AllOrdered(trips)
    ensures AllCpuWork(CarryAll(Some(algorithm), q, trips))
    ensures Budget(CarryAll(Some(algorithm), q, trips), quantumMs) <= Budget(q, quantumMs)
  {
    hide Carry, Slices;
    if q != [] {
      PassBudget(algorithm, q[1..], trips[1..], quantumMs);
      CarrySlices(Some(algorithm), q[0], trips[0], quantumMs);
      var q' := CarryAll(Some(algorithm), q, trips);
      assert q'[1..] == CarryAll(Some(algorithm), q[1..], trips[1..]);
      assert q' == [q'[0]] + q'[1..];
    }
  }

  /** No arrivals, brief trips, and every trip through the processor takes at least `paceMs`. */
  predicate Paced(paceMs: nat, e: Event) {
    Closed(e) && (e.Dispatch? && e.fate.Requeued? ==> Elapsed(e.fate.trip) >= paceMs)
  }

  /** What comes back of a dispatched task has fewer slices than it had. */
  lemma FateBudget(quantumMs: nat, paceMs: nat, t: SharedTask, fate: Fate)
    requires 0 < paceMs <= quantumMs && CpuWork(t) && FateFits(quantumMs, t, fate)
    requires fate.Requeued? ==> Brief(fate.trip) && Elapsed(fate.trip) >= paceMs
    ensures AllCpuWork(Back(t, fate)) && Budget(Back(t, fate), paceMs) < Slices(t.remainingMs, paceMs)
  {
    if fate.Requeued? {
      CarrySlices(None, t, fate.trip, paceMs);
      var s := Carry(None, t, fate.trip);
      assert MayRunQuantum(quantumMs, t) && Back(t, fate) == [s];
      hide Carry, Slices, FateFits;
      OneBudget(s, paceMs);
    }
  }

  lemma OneBudget(s: SharedTask, paceMs: nat)
    requires paceMs > 0 && CpuWork(s)
    ensures AllCpuWork([s]) && Budget([s], paceMs) == Slices(s.remainingMs, paceMs)
  {
    hide CpuWork, Slices;
    assert [s][1..] == [];
  }

  lemma DispatchBudget(capacity: nat, quantumMs: nat, paceMs: nat, q: seq<SharedTask>, fate: Fate, q': seq<SharedTask>)
    requires 0 < paceMs <= quantumMs && AllCpuWork(q) && Step(capacity, quantumMs, q, Dispatch(fate), q')
    requires Paced(paceMs, Dispatch(fate))
    ensures AllCpuWork(q')
    ensures Budget(q', paceMs) < Budget(q, paceMs)
  {
    FateBudget(quantumMs, paceMs, q[0], fate);
    var back := Back(q[0], fate);
    hide Back, FateFits, CpuWork, Slices, Paced;
    BudgetAppend(q[1..], back, paceMs);
  }

  /** Each dispatch uses up at least one slice of the budget, counted at any pace up to the quantum that the
      re-queued tasks keep, and passes add none. */
  lemma StepBudget(capacity: nat, quantumMs: nat, paceMs: nat, q: seq<SharedTask>, e: Event, q': seq<SharedTask>)
    requires 0 < paceMs <= quantumMs && AllCpuWork(q) && Step(capacity, quantumMs, q, e, q') && Paced(paceMs, e)
    ensures AllCpuWork(q')
    ensures Budget(q', paceMs) + (if e.Dispatch? then 1 else 0) <= Budget(q, paceMs)
  {
    match e {
      case Arrive(_) => assert false;
      case Pass(algorithm, trips) => PassBudget(algorithm, q, trips, paceMs);
      case Dispatch(fate) =>
        hide *;
        DispatchBudget(capacity, quantumMs, paceMs, q, fate, q');
    }
  }

  /** If every re-queued task has been away for `paceMs` or more, dispatching a queue of CPU tasks ends: there
      are at most as many dispatches as the budget has slices of that length, and when they are used up the
      ring is empty. */
  lemma {:induction false} PacedDispatchingEnds(capacity: nat, quantumMs: nat, paceMs: nat, queues: seq<seq<SharedTask>>,
                                                events: seq<Event>)
    requires 0 < paceMs <= quantumMs && Run(capacity, quantumMs, queues, events) && AllCpuWork(queues[0])
    requires forall n :: 0 <= n < |events| ==> Paced(paceMs, events[n])
    ensures AllCpuWork(queues[|events|])
    ensures Dispatches(events) + Budget(queues[|events|], paceMs) <= Budget(queues[0], paceMs)
    ensures Dispatches(events) >= Budget(queues[0], paceMs) ==> queues[|events|] == []
  {
    hide Step, Paced;
    if events != [] {
      var n := |events| - 1;
      PacedDispatchingEnds(capacity, quantumMs, paceMs, queues[..n + 1], events[..n]);
      assert Step(capacity, quantumMs, queues[n], events[n], queues[n + 1]);
      StepBudget(capacity, quantumMs, paceMs, queues[n], events[n], queues[n + 1]);
    }
    BudgetPositive(queues[|events|], paceMs);
  }

  lemma SteadyIsPaced(capacity: nat, quantumMs: nat, q: seq<SharedTask>, e: Event, q': seq<SharedTask>)
    requires Step(capacity, quantumMs, q, e, q') && Steady(quantumMs, e)
    ensures Paced(quantumMs, e)
  {
    if e.Dispatch? && e.fate.Requeued? {
      TimeoutElapses(quantumMs, q[0], e.fate.slice, e.fate.trip);
    }
  }

  /** With the timeout ending every unfinished slice, the pace is the quantum. */
  lemma DispatchingEnds(capacity: nat, quantumMs: nat, queues: seq<seq<SharedTask>>, events: seq<Event>)
    requires quantumMs > 0 && Run(capacity, quantumMs, queues, events) && AllCpuWork(queues[0])
    requires forall n :: 0 <= n < |events| ==> Steady(quantumMs, events[n])
    ensures AllCpuWork(queues[|events|])
    ensures Dispatches(events) + Budget(queues[|events|], quantumMs) <= Budget(queues[0], quantumMs)
    ensures Dispatches(events) >= Budget(queues[0], quantumMs) ==> queues[|events|] == []
  {
    hide Step, Steady, Paced;
    forall n | 0 <= n < |events| ensures Paced(quantumMs, events[n]) {
      assert Step(capacity, quantumMs, queues[n], events[n], queues[n + 1]);
      SteadyIsPaced(capacity, quantumMs, queues[n], events[n], queues[n + 1]);
    }
    PacedDispatchingEnds(capacity, quantumMs, quantumMs, queues, events);
  }

  // When dispatching must end.

  /** A run from `q` without arrivals. */
  ghost predicate ClosedRun(capacity: nat, quantumMs: int, q: seq<SharedTask>, queues: seq<seq<SharedTask>>, events: seq<Event>) {
    && Run(capacity, quantumMs, queues, events) && queues[0] == q
    && forall n :: 0 <= n < |events| ==> Closed(events[n])
  }

  /** No run from `q` in which re-queued tasks have been away for `paceMs` or more makes more than so many
      dispatches. */
  ghost predicate AtMost(capacity: nat, quantumMs: int, paceMs: nat, q: seq<SharedTask>, bound: nat) {
    forall queues, events ::
      ClosedRun(capacity, quantumMs, q, queues, events) && (forall n :: 0 <= n < |events| ==> Paced(paceMs, events[n])) ==>
        Dispatches(events) <= bound
  }

  predicate AllShort(q: seq<SharedTask>, quantumMs: int) { forall i :: 0 <= i < |q| ==> q[i].remainingMs < quantumMs }

  /** While every task is under the quantum each dispatch lets one go. */
  lemma {:induction false} ShortTasksLeave(capacity: nat, quantumMs: int, q: seq<SharedTask>,
                                           queues: seq<seq<SharedTask>>, events: seq<Event>)
    requires AllCpuWork(q) && AllShort(q, quantumMs) && ClosedRun(capacity, quantumMs, q, queues, events)
    ensures AllCpuWork(queues[|events|]) && AllShort(queues[|events|], quantumMs)
    ensures Dispatches(events) + |queues[|events|]| == |q|
  {
    if events != [] {
      var n := |events| - 1;
      ShortTasksLeave(capacity, quantumMs, q, queues[..n + 1], events[..n]);
      assert Step(capacity, quantumMs, queues[n], events[n], queues[n + 1]) && Closed(events[n]);
      ShortStep(capacity, quantumMs, queues[n], events[n], queues[n + 1]);
    }
  }

  lemma ShortStep(capacity: nat, quantumMs: int, q: seq<SharedTask>, e: Event, q': seq<SharedTask>)
    requires AllCpuWork(q) && AllShort(q, quantumMs) && Step(capacity, quantumMs, q, e, q') && Closed(e)
    ensures AllCpuWork(q') && AllShort(q', quantumMs)
    ensures |q'| == if e.Dispatch? then |q| - 1 else |q|
  {
    if e.Pass? {
      hide Carry;
      forall i | 0 <= i < |q| ensures CpuWork(q'[i]) && q'[i].remainingMs < quantumMs {
        CarryWork(Some(e.algorithm), q[i], e.trips[i]);
      }
    } else if e.Dispatch? {
      ShortDispatch(quantumMs, q[0], e.fate);
      hide CpuWork, FateFits, Back;
      assert q' == q[1..];
    }
  }

  lemma ShortDispatch(quantumMs: int, t: SharedTask, fate: Fate)
    requires CpuWork(t) && t.remainingMs < quantumMs && FateFits(quantumMs, t, fate)
    ensures Back(t, fate) == []
  {
  }

  /** A dispatch that gets a queue with a long task nowhere: a short head is let go, a long one goes through
      its loop before the clock moves and comes back with all its work. */
  lemma Stall(capacity: nat, quantumMs: int, q: seq<SharedTask>) returns (e: Event, q': seq<SharedTask>)
    requires quantumMs > 0 && AllCpuWork(q) && !AllShort(q, quantumMs)
    ensures e.Dispatch? && Closed(e) && Step(capacity, quantumMs, q, e, q')
    ensures AllCpuWork(q') && !AllShort(q', quantumMs)
  {
    hide Carry, Describe;
    var t := q[0];
    var i :| 0 <= i < |q| && q[i].remainingMs >= quantumMs;
    if t.remainingMs < quantumMs {
      var slice := StalledSlice(t.remainingMs, 0);
      var fate := UnderQuantum(t.remainingMs, slice);
      e, q' := Dispatch(fate), q[1..];
      assert q[1..] + Back(t, fate) == q[1..];
      assert q'[i - 1] == q[i];
    } else {
      var trip := Trip(0, 0, 0, 0, Unset(UNIX_TASK, 0));
      var slice := StalledSlice(quantumMs, 0);
      assert Elapsed(trip) == 0;
      CarryWork(None, t, trip);
      e, q' := Dispatch(Requeued(slice, trip)), q[1..] + [Carry(None, t, trip)];
      assert q'[|q| - 1].remainingMs == t.remainingMs;
    }
  }

  /** Without the timeout there is no end: a queue of CPU tasks one of which has a quantum or more left can
      be dispatched any number of times and still have such a task. */
  lemma {:induction false} NoEndWithoutTimeout(capacity: nat, quantumMs: int, q: seq<SharedTask>, rounds: nat)
    returns (queues: seq<seq<SharedTask>>, events: seq<Event>)
    requires quantumMs > 0 && AllCpuWork(q) && !AllShort(q, quantumMs)
    ensures ClosedRun(capacity, quantumMs, q, queues, events)
    ensures |events| == Dispatches(events) == rounds
    ensures AllCpuWork(queues[rounds]) && !AllShort(queues[rounds], quantumMs)
  {
    if rounds == 0 {
      return [q], [];
    }
    queues, events := NoEndWithoutTimeout(capacity, quantumMs, q, rounds - 1);
    var e, next := Stall(capacity, quantumMs, queues[rounds - 1]);
    hide Step, AllCpuWork, AllShort, Closed;
    RunExtends(capacity, quantumMs, queues, events, e, next);
    assert (events + [e])[..rounds - 1] == events;
    queues, events := queues + [next], events + [e];
  }

  /** The bound that a pace gives. */
  lemma PaceBounds(capacity: nat, quantumMs: int, paceMs: nat, q: seq<SharedTask>)
    requires quantumMs > 0 && paceMs > 0 && AllCpuWork(q)
    ensures AtMost(capacity, quantumMs, paceMs, q, Budget(q, if paceMs < quantumMs then paceMs else quantumMs))
  {
    hide Step, Elapsed, Brief;
    var d := if paceMs < quantumMs then paceMs else quantumMs;
    forall queues, events |
      ClosedRun(capacity, quantumMs, q, queues, events) && (forall n :: 0 <= n < |events| ==> Paced(paceMs, events[n]))
      ensures Dispatches(events) <= Budget(q, d)
    {
      assert forall n :: 0 <= n < |events| ==> Paced(paceMs, events[n]) ==> Paced(d, events[n]);
      PacedDispatchingEnds(capacity, quantumMs, d, queues, events);
    }
  }

  lemma ShortBounds(capacity: nat, quantumMs: int, paceMs: nat, q: seq<SharedTask>)
    requires AllCpuWork(q) && AllShort(q, quantumMs)
    ensures AtMost(capacity, quantumMs, paceMs, q, |q|)
  {
    hide Step, Paced;
    forall queues, events | ClosedRun(capacity, quantumMs, q, queues, events)
      ensures Dispatches(events) <= |q|
    {
      ShortTasksLeave(capacity, quantumMs, q, queues, events);
    }
  }

  lemma StallsUnbounded(capacity: nat, quantumMs: int, q: seq<SharedTask>, bound: nat)
    requires quantumMs > 0 && AllCpuWork(q) && !AllShort(q, quantumMs)
    ensures !AtMost(capacity, quantumMs, 0, q, bound)
  {
    hide Step, Closed;
    var queues, events := NoEndWithoutTimeout(capacity, quantumMs, q, bound + 1);
    assert forall n :: 0 <= n < |events| ==> Closed(events[n]) ==> Paced(0, events[n]);
    assert ClosedRun(capacity, quantumMs, q, queues, events) && Dispatches(events) > bound;
  }

  /** Dispatching a queue of CPU tasks is bound to end, if re-queued tasks have been away for `paceMs` or more,
      exactly when that is any time at all or every task is already under the quantum; the latter takes one
      dispatch each. */
  lemma EndsIff(capacity: nat, quantumMs: int, paceMs: nat, q: seq<SharedTask>)
    requires quantumMs > 0 && AllCpuWork(q)
    ensures (exists bound :: AtMost(capacity, quantumMs, paceMs, q, bound)) <==> paceMs > 0 || AllShort(q, quantumMs)
    ensures AllShort(q, quantumMs) ==> AtMost(capacity, quantumMs, paceMs, q, |q|)
  {
    hide AtMost, AllShort, AllCpuWork;
    if AllShort(q, quantumMs) {
      ShortBounds(capacity, quantumMs, paceMs, q);
    } else if paceMs > 0 {
      PaceBounds(capacity, quantumMs, paceMs, q);
    } else {
      forall bound: nat ensures !AtMost(capacity, quantumMs, 0, q, bound) {
        StallsUnbounded(capacity, quantumMs, q, bound);
      }
    }
  }

  lemma RunExtends(capacity: nat, quantumMs: int, queues: seq<seq<SharedTask>>, events: seq<Event>, e: Event,
                   q: seq<SharedTask>)
    requires Run(capacity, quantumMs, queues, events)
    requires Step(capacity, quantumMs, queues[|events|], e, q)
    ensures Run(capacity, quantumMs, queues + [q], events + [e])
  {
    hide Step;
    forall n | 0 <= n < |events + [e]|
      ensures Step(capacity, quantumMs, (queues + [q])[n], (events + [e])[n], (queues + [q])[n + 1])
    {
      if n < |events| {
        assert Step(capacity, quantumMs, queues[n], events[n], queues[n + 1]);
      }
    }
  }
}
