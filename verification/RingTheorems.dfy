/** What the ring protocol guarantees in every reachable state and over every run. */
module RingTheorems {
  import opened SharedTasks
  import opened RingProtocol
  import opened RingSafety

  ghost predicate Reachable(s: State) {
    exists states, moves :: Trace(states, moves) && states[|moves|] == s
  }

  lemma ReachableInv(s: State)
    requires Reachable(s)
    ensures Inv(s)
  {
    var states, moves :| Trace(states, moves) && states[|moves|] == s;
    TraceInv(states, moves, |moves|);
  }

  /** Permits are conserved on success and error paths alike. */
  lemma PermitsConserved(s: State)
    requires Reachable(s)
    ensures s.ring.enqueueSem + s.ring.dequeueSem + Count(SlotPermit, s.ops) + Count(ItemPermit, s.ops)
      == s.ring.capacity
    ensures s.ring.mutexSem + Count(Critical, s.ops) == 1
    ensures s.ring.count == s.ring.dequeueSem + Count(Published, s.ops) + Count(Claimed, s.ops)
    ensures s.ring.count == |s.ring.entered| - |s.ring.left| <= s.ring.capacity
  {
    ReachableInv(s);
  }

  /** Two threads are never in critical sections together. */
  lemma MutualExclusion(s: State, i: nat, j: nat)
    requires Reachable(s) && i < |s.ops| && j < |s.ops|
    requires InCritical(s.ops[i]) && InCritical(s.ops[j])
    ensures i == j
  {
    ReachableInv(s);
    if i != j {
      Exclusion(s, i, j);
    }
  }

  /** The "Queue is empty" branch is dead, and a producer writes only a slot whose task has left. */
  lemma NoEmptyBranchNoOverwrite(s: State, i: nat)
    requires Reachable(s) && i < |s.ops|
    ensures !s.ops[i].DeqEmptyPostMutex? && !s.ops[i].DeqEmptyPostItem?
    ensures s.ops[i].DeqLoadCount? ==> s.ring.count >= 1
    ensures s.ops[i].EnqWriteSlot? ==>
      forall k :: |s.ring.left| <= k < |s.ring.entered| ==> k % s.ring.capacity != s.ops[i].at
  {
    ReachableInv(s);
    var r, op := s.ring, s.ops[i];
    if op.DeqLoadCount? {
      ClaimedMeansTask(s, i);
    }
    if op.EnqWriteSlot? {
      PermitMeansRoom(s, i);
      forall k | |r.left| <= k < |r.entered| ensures k % r.capacity != op.at {
        WrapDistinct(k, |r.entered|, r.capacity);
        WrapIsRemainder(k, r.capacity);
      }
    }
  }

  // Refinement of an atomic bounded queue.

  datatype Event = Stutter | Put(task: SharedTask) | Take(task: SharedTask)

  predicate FifoStep(capacity: nat, q: seq<SharedTask>, e: Event, q': seq<SharedTask>) {
    match e
    case Stutter => q' == q
    case Put(t) => |q| < capacity && q' == q + [t]
    case Take(t) => q == [t] + q'
  }

  /** The linearisation points are the two `count_` updates. */
  function Observed(s: State, m: Move): Event {
    if m.Run? && m.thread < |s.ops| then
      match s.ops[m.thread]
      case EnqAddCount(t) => Put(t)
      case DeqSubCount(t) => Take(t)
      case _ => Stutter
    else Stutter
  }

  /** The histories of `r'` are those of `r` moved as the event says. */
  predicate Follows(r: Ring, e: Event, r': Ring) {
    && r'.capacity == r.capacity
    && (match e
        case Stutter => r'.entered == r.entered && r'.left == r.left
        case Put(t) => r'.entered == r.entered + [t] && r'.left == r.left
        case Take(t) => r'.entered == r.entered && r'.left == r.left + [t])
  }

  /** The histories move exactly as the observed event says. */
  lemma HistoriesFollow(s: State, m: Move)
    requires Apply(s, m).Some?
    ensures Follows(s.ring, Observed(s, m), Apply(s, m).value.ring)
  {
  }

  lemma QueueFollows(r: Ring, e: Event, r': Ring)
    requires Follows(r, e, r') && |r.left| <= |r.entered| && |r'.left| <= |r'.entered|
    requires e.Put? ==> |Queue(r)| < r.capacity
    requires e.Take? ==> Queue(r) == [e.task] + r.entered[|r.left| + 1..]
    ensures FifoStep(r.capacity, Queue(r), e, Queue(r'))
  {
  }

  lemma StepRefines(s: State, m: Move)
    requires Inv(s) && Apply(s, m).Some?
    ensures Inv(Apply(s, m).value)
    ensures FifoStep(s.ring.capacity, Queue(s.ring), Observed(s, m), Queue(Apply(s, m).value.ring))
  {
    ApplyInv(s, m);
    HistoriesFollow(s, m);
    EventFits(s, m);
    hide Apply, Observed, Local, Stored, Permits, Follows, FifoStep, Queue;
    QueueFollows(s.ring, Observed(s, m), Apply(s, m).value.ring);
  }

  /** There is room for a put, and what is taken is the head. */
  lemma EventFits(s: State, m: Move)
    requires Inv(s) && Apply(s, m).Some?
    ensures Observed(s, m).Put? ==> |Queue(s.ring)| < s.ring.capacity
    ensures Observed(s, m).Take? ==> Queue(s.ring) == [Observed(s, m).task] + s.ring.entered[|s.ring.left| + 1..]
  {
    hide Exec, Interrupted, Entry, Local, Stored;
    match Observed(s, m) {
      case Stutter =>
      case Put(t) => PermitMeansRoom(s, m.thread);
      case Take(t) => TakeIsHead(s, m.thread);
    }
  }

  lemma TakeIsHead(s: State, i: nat)
    requires Inv(s) && i < |s.ops| && s.ops[i].DeqSubCount?
    ensures Head(s.ring, s.ops[i].task)
    ensures Queue(s.ring) == [s.ops[i].task] + s.ring.entered[|s.ring.left| + 1..]
  {
    assert Local(s.ring, s.ops[i]);
  }

  function Observations(states: seq<State>, moves: seq<Move>): (es: seq<Event>)
    requires |states| == |moves| + 1
    ensures |es| == |moves|
  {
    seq(|moves|, n requires 0 <= n < |moves| => Observed(states[n], moves[n]))
  }

  function Puts(es: seq<Event>): seq<SharedTask> {
    if es == [] then [] else
    var e := es[|es| - 1];
    Puts(es[..|es| - 1]) + (if e.Put? then [e.task] else [])
  }

  function Takes(es: seq<Event>): seq<SharedTask> {
    if es == [] then [] else
    var e := es[|es| - 1];
    Takes(es[..|es| - 1]) + (if e.Take? then [e.task] else [])
  }

  /** Every run of the ring, read at its count updates, is a run of an atomic bounded queue that
      starts empty; so the tasks taken are at any time a prefix of the tasks put. */
  lemma RunRefinesFifo(states: seq<State>, moves: seq<Move>)
    requires Trace(states, moves)
    ensures forall n {:trigger moves[n]} :: 0 <= n < |moves| ==>
      && Inv(states[n]) && Inv(states[n + 1])
      && FifoStep(states[0].ring.capacity, Queue(states[n].ring), Observations(states, moves)[n],
           Queue(states[n + 1].ring))
    ensures Puts(Observations(states, moves)) == states[|moves|].ring.entered
    ensures Takes(Observations(states, moves)) == states[|moves|].ring.left
    ensures Takes(Observations(states, moves)) <= Puts(Observations(states, moves))
    ensures |Puts(Observations(states, moves))| - |Takes(Observations(states, moves))|
      == states[|moves|].ring.count <= states[0].ring.capacity
  {
    forall n {:trigger moves[n]} | 0 <= n < |moves|
      ensures Inv(states[n]) && Inv(states[n + 1])
      ensures FifoStep(states[0].ring.capacity, Queue(states[n].ring), Observations(states, moves)[n],
        Queue(states[n + 1].ring))
    {
      TraceInv(states, moves, n);
      CapacityFixed(states, moves, n);
      assert Apply(states[n], moves[n]) == Some(states[n + 1]);
      StepRefines(states[n], moves[n]);
    }
    TraceInv(states, moves, |moves|);
    CapacityFixed(states, moves, |moves|);
    HistoriesRecordEvents(states, moves);
  }

  lemma {:induction false} CapacityFixed(states: seq<State>, moves: seq<Move>, n: nat)
    requires Trace(states, moves) && n < |states|
    ensures states[n].ring.capacity == states[0].ring.capacity
  {
    if n > 0 {
      CapacityFixed(states, moves, n - 1);
      assert Apply(states[n - 1], moves[n - 1]) == Some(states[n - 1 + 1]);
      HistoriesFollow(states[n - 1], moves[n - 1]);
    }
  }

  lemma {:induction false} HistoriesRecordEvents(states: seq<State>, moves: seq<Move>)
    requires Trace(states, moves)
    ensures Puts(Observations(states, moves)) == states[|moves|].ring.entered
    ensures Takes(Observations(states, moves)) == states[|moves|].ring.left
  {
    if moves != [] {
      var n := |moves| - 1;
      HistoriesRecordEvents(states[..n + 1], moves[..n]);
      assert Observations(states, moves)[..n] == Observations(states[..n + 1], moves[..n]);
      assert Apply(states[n], moves[n]) == Some(states[n + 1]);
      HistoriesFollow(states[n], moves[n]);
    }
  }

  /** The thread is between taking `t` and handing it to its caller. */
  predicate Delivering(op: Op, t: SharedTask) {
    || op == DeqAddTotal(t) || op == DeqPostMutex(t) || op == DeqPostSlot(t)
    || op == Idle(Dequeued(t))
  }

  predicate DeliversFrom(states: seq<State>, m: nat, n: nat, i: nat, t: SharedTask)
    requires n < |states|
  {
    forall k :: m < k <= n ==> i < |states[k].ops| && Delivering(states[k].ops[i], t)
  }

  /** What `dequeue` returns to a thread is the head that the thread itself took, and has carried since. */
  lemma {:induction false} DeliveredWasTaken(states: seq<State>, moves: seq<Move>, n: nat, i: nat, t: SharedTask)
    requires Trace(states, moves) && n < |states| && i < |states[n].ops| && Delivering(states[n].ops[i], t)
    ensures exists m :: 0 <= m < n && moves[m] == Run(i) && Observed(states[m], moves[m]) == Take(t) && DeliversFrom(states, m, n, i, t)
  {
    assert n > 0;
    assert Apply(states[n - 1], moves[n - 1]) == Some(states[n - 1 + 1]);
    DeliveryBegins(states[n - 1], moves[n - 1], i, t);
    hide Init, Apply, Delivering, Observed;
    if Delivering(states[n - 1].ops[i], t) {
      DeliveredWasTaken(states, moves, n - 1, i, t);
      var m :| 0 <= m < n - 1 && moves[m] == Run(i) && Observed(states[m], moves[m]) == Take(t) && DeliversFrom(states, m, n - 1, i, t);
      assert DeliversFrom(states, m, n, i, t);
    } else {
      assert DeliversFrom(states, n - 1, n, i, t);
    }
  }

  lemma DeliveryBegins(s: State, m: Move, i: nat, t: SharedTask)
    requires Apply(s, m).Some? && i < |Apply(s, m).value.ops| && Delivering(Apply(s, m).value.ops[i], t)
    ensures i < |s.ops|
    ensures Delivering(s.ops[i], t) || (m == Run(i) && Observed(s, m) == Take(t))
  {
  }

  // Blocking.

  lemma {:induction false} CarryingSplits(ops: seq<Op>)
    ensures Count(Carrying, ops) + Count(Published, ops) + Count(Claimed, ops)
      == Count(Waiting, ops) + Count(SlotPermit, ops) + Count(ItemPermit, ops)
  {
    if ops != [] {
      CarryingSplits(ops[1..]);
    }
  }

  lemma FreeSlotsInv(s: State)
    requires Inv(s)
    ensures s.ring.enqueueSem + s.ring.count + Count(Carrying, s.ops)
      == s.ring.capacity + Count(Waiting, s.ops)
  {
    CarryingSplits(s.ops);
  }

  /** The free-slot semaphore, in terms of the tasks alive: those queued and those carried by calls. */
  lemma FreeSlots(s: State)
    requires Reachable(s)
    ensures s.ring.enqueueSem + s.ring.count + Count(Carrying, s.ops)
      == s.ring.capacity + Count(Waiting, s.ops)
  {
    ReachableInv(s);
    FreeSlotsInv(s);
  }

  /** While no more tasks are alive than the ring has slots, no producer is held up at its first wait. */
  lemma NeverFull(s: State, i: nat)
    requires Reachable(s) && i < |s.ops| && s.ops[i].EnqWaitSlot?
    requires s.ring.count + Count(Carrying, s.ops) <= s.ring.capacity
    ensures s.ring.enqueueSem >= 1
    ensures Exec(s.ring, s.ops[i]).Goes?
  {
    FreeSlots(s);
    CountAtLeast(Waiting, s.ops, i);
  }

  /** A thread that is past its waits can always take its next step. */
  lemma PastWaitsGoes(s: State, i: nat)
    requires Inv(s) && i < |s.ops|
    requires !s.ops[i].Idle? && !s.ops[i].EnqWaitSlot? && !s.ops[i].EnqWaitMutex?
    requires !s.ops[i].DeqWaitItem? && !s.ops[i].DeqWaitMutex? && !s.ops[i].PrintWaitMutex?
    ensures Exec(s.ring, s.ops[i]).Goes?
  {
    assert Local(s.ring, s.ops[i]);
  }

  predicate Stuck(s: State) {
    forall i :: 0 <= i < |s.ops| && !s.ops[i].Idle? ==> Exec(s.ring, s.ops[i]).Blocked?
  }

  predicate AllAtSlotWait(s: State) {
    forall i :: 0 <= i < |s.ops| && !s.ops[i].Idle? ==> s.ops[i].EnqWaitSlot?
  }

  predicate AllAtItemWait(s: State) {
    forall i :: 0 <= i < |s.ops| && !s.ops[i].Idle? ==> s.ops[i].DeqWaitItem?
  }

  lemma OnlyFirstWaitsBlockInv(s: State)
    requires Inv(s)
    ensures Stuck(s) <==>
      (AllAtSlotWait(s) && (s.ring.count == s.ring.capacity || AllAtItemWait(s))) ||
      (AllAtItemWait(s) && s.ring.count == 0)
  {
    if Stuck(s) {
      StuckOutsideMutex(s);
      AtFirstWaits(s);
    }
    if AllAtSlotWait(s) || AllAtItemWait(s) {
      AtFirstWaits(s);
    }
  }

  /** No thread inside a call can step exactly when all of them are producers before a full ring, or
      all of them are consumers before an empty one. Nobody is ever stuck on the mutex. */
  lemma OnlyFirstWaitsBlock(s: State)
    requires Reachable(s)
    ensures Stuck(s) <==>
      (AllAtSlotWait(s) && (s.ring.count == s.ring.capacity || AllAtItemWait(s))) ||
      (AllAtItemWait(s) && s.ring.count == 0)
  {
    ReachableInv(s);
    hide Inv, Stuck;
    OnlyFirstWaitsBlockInv(s);
  }

  lemma StuckOutsideMutex(s: State)
    requires Inv(s) && Stuck(s)
    ensures forall i :: 0 <= i < |s.ops| && !s.ops[i].Idle? ==> s.ops[i].EnqWaitSlot? || s.ops[i].DeqWaitItem?
  {
    forall i | 0 <= i < |s.ops| ensures !InCritical(s.ops[i]) {
      if InCritical(s.ops[i]) {
        PastWaitsGoes(s, i);
      }
    }
    CountZero(Critical, s.ops);
    forall i | 0 <= i < |s.ops| && !s.ops[i].Idle?
      ensures s.ops[i].EnqWaitSlot? || s.ops[i].DeqWaitItem?
    {
      if !s.ops[i].EnqWaitSlot? && !s.ops[i].DeqWaitItem? && !s.ops[i].EnqWaitMutex? &&
         !s.ops[i].DeqWaitMutex? && !s.ops[i].PrintWaitMutex?
      {
        PastWaitsGoes(s, i);
      }
    }
  }

  /** With every call at a first wait, all permits are in the semaphores. */
  lemma AtFirstWaits(s: State)
    requires Inv(s)
    requires forall i :: 0 <= i < |s.ops| && !s.ops[i].Idle? ==> s.ops[i].EnqWaitSlot? || s.ops[i].DeqWaitItem?
    ensures s.ring.enqueueSem + s.ring.dequeueSem == s.ring.capacity
    ensures s.ring.count == s.ring.dequeueSem
  {
    CountZero(SlotPermit, s.ops);
    CountZero(ItemPermit, s.ops);
    CountZero(Published, s.ops);
    CountZero(Claimed, s.ops);
  }

  // One consumer.

  /** Between reading a positive `count_` and its own first wait, thread `c` makes no other move, and
      no other thread has an item permit. */
  predicate SoleConsumer(states: seq<State>, moves: seq<Move>, c: nat, from: nat, till: nat) {
    && from <= till < |states| == |moves| + 1
    && c < |states[from].ops| && states[from].ops[c].Idle?
    && (forall n :: from <= n < till && moves[n].thread == c ==> moves[n] == Call(c, DeqWaitItem))
    && (forall n, j :: from <= n <= till && 0 <= j < |states[n].ops| && j != c ==> !HoldsItem(states[n].ops[j]))
  }

  lemma {:induction false} CountHoldsUp(states: seq<State>, moves: seq<Move>, c: nat, from: nat, till: nat)
    requires Trace(states, moves) && SoleConsumer(states, moves, c, from, till)
    requires states[from].ring.count > 0
    ensures states[till].ring.count >= states[from].ring.count
    ensures c < |states[till].ops| && (states[till].ops[c].Idle? || states[till].ops[c].DeqWaitItem?)
    decreases till
  {
    if from < till {
      var n := till - 1;
      CountHoldsUp(states, moves, c, from, n);
      TraceInv(states, moves, n);
      var s, m := states[n], moves[n];
      assert Apply(s, m) == Some(states[n + 1]);
      TraceInv(states, moves, n + 1);
      HistoriesFollow(s, m);
    }
  }

  /** An item is to be had: the item semaphore is positive, or a producer has only its last steps to do and
      can do them. */
  predicate ItemReady(s: State) {
    s.ring.dequeueSem > 0 ||
    exists j :: 0 <= j < |s.ops| && HasPublished(s.ops[j]) && Exec(s.ring, s.ops[j]).Goes?
  }

  lemma ItemReadyInv(s: State)
    requires Inv(s)
    ensures ItemReady(s) <==> s.ring.count > Count(Claimed, s.ops)
  {
    CountZero(Published, s.ops);
    if Count(Published, s.ops) > 0 {
      var j :| 0 <= j < |s.ops| && Plays(Published, s.ops[j]);
      PastWaitsGoes(s, j);
    }
  }

  /** With any number of consumers, there is an item for one more exactly when the count is above the items
      already claimed. */
  lemma ItemReadyIff(s: State)
    requires Reachable(s)
    ensures ItemReady(s) <==> s.ring.count > Count(Claimed, s.ops)
  {
    ReachableInv(s);
    ItemReadyInv(s);
  }

  /** If one thread does all the dequeues, its check-then-dequeue never waits on an empty ring. */
  lemma SoleConsumerFindsItem(states: seq<State>, moves: seq<Move>, c: nat, from: nat, till: nat)
    requires Trace(states, moves) && SoleConsumer(states, moves, c, from, till)
    requires states[from].ring.count > 0
    ensures ItemReady(states[till])
  {
    CountHoldsUp(states, moves, c, from, till);
    TraceInv(states, moves, till);
    var s := states[till];
    forall j | 0 <= j < |s.ops| ensures !Plays(Claimed, s.ops[j]) {
      assert j != c ==> !HoldsItem(s.ops[j]);
    }
    CountZero(Claimed, s.ops);
    ItemReadyInv(s);
  }

  // What a reader of the fields sees.

  /** Whenever the mutex is free the index fields, the count and the totals agree. */
  lemma FieldsAgreeOutsideMutex(s: State)
    requires Reachable(s) && s.ring.mutexSem == 1
    ensures s.ring.rear == (s.ring.front + s.ring.count) % s.ring.capacity
    ensures (s.ring.totalEnqueued - s.ring.totalDequeued) % SIZE_T_MOD == s.ring.count % SIZE_T_MOD
  {
    ReachableInv(s);
    SettledAgree(s.ring);
    hide Inv;
  }

  lemma SettledAgree(r: Ring)
    requires Settled(r) && |r.left| <= |r.entered| && r.count == |r.entered| - |r.left|
    ensures r.rear == (r.front + r.count) % r.capacity
    ensures (r.totalEnqueued - r.totalDequeued) % SIZE_T_MOD == r.count % SIZE_T_MOD
  {
    WrapAdds(|r.left|, r.count, r.capacity);
    WrapIsRemainder(Wrap(|r.left|, r.capacity) + r.count, r.capacity);
    RemainderSubtracts(|r.entered|, |r.left|);
  }

  lemma {:induction false} WrapAdds(i: nat, k: nat, n: Capacity)
    ensures Wrap(Wrap(i, n) + k, n) == Wrap(i + k, n)
  {
    if i >= n {
      WrapAdds(i - n, k, n);
    }
  }

  lemma RemainderSubtracts(a: nat, b: nat)
    ensures (a % SIZE_T_MOD - b % SIZE_T_MOD) % SIZE_T_MOD == (a - b) % SIZE_T_MOD
  {
  }

  /** A print shows the abstract queue, whole and in order, as it stands when the print leaves its
      critical section; its steps write nothing but the mutex. */
  lemma PrintShowsQueue(s: State, i: nat)
    requires Reachable(s) && i < |s.ops|
    ensures |s.ring.left| <= |s.ring.entered|
    ensures s.ops[i].PrintPostMutex? ==> s.ops[i].seen == Queue(s.ring)
    ensures s.ops[i].PrintLoop? ==>
      s.ops[i].i <= |Queue(s.ring)| == s.ops[i].size && s.ops[i].seen == Queue(s.ring)[..s.ops[i].i]
  {
    ReachableInv(s);
    assert Local(s.ring, s.ops[i]);
  }

  lemma PrintWritesNothing(r: Ring, op: Op)
    requires op.PrintWaitMutex? || op.PrintLoadFront? || op.PrintLoadRear? || op.PrintLoadCount? ||
      op.PrintLoop? || op.PrintPostMutex? || op.PrintCatch?
    requires Exec(r, op).Goes?
    ensures Exec(r, op).ring == r.(mutexSem := Exec(r, op).ring.mutexSem)
  {
  }
}
