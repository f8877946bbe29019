/** One thread running a call to its end while no other thread is inside the ring. */
module RingAlone {
  import opened SharedTasks
  import opened RingProtocol
  import opened RingSafety

  /** Steps still to take before the call returns. */
  function Rank(r: Ring, op: Op): nat {
    match op
    case EnqWaitSlot(_) => 9
    case EnqWaitMutex(_) => 8
    case EnqLoadRear(_) => 7
    case EnqWriteSlot(_, _) => 6
    case EnqStoreRear(_, _) => 5
    case EnqAddCount(_) => 4
    case EnqAddTotal => 3
    case EnqPostMutex => 2
    case DeqWaitItem => 10
    case DeqWaitMutex => 9
    case DeqLoadFront => 8
    case DeqLoadCount(_) => 7
    case DeqReadSlot(_) => 6
    case DeqStoreFront(_, _) => 5
    case DeqSubCount(_) => 4
    case DeqAddTotal(_) => 3
    case DeqPostMutex(_) => 2
    case DeqEmptyPostMutex => 2
    case PrintWaitMutex => r.count + 6
    case PrintLoadFront => r.count + 5
    case PrintLoadRear(_) => r.count + 4
    case PrintLoadCount(_) => r.count + 3
    case PrintLoop(_, i, size, _) => if i < size then size - i + 2 else 2
    case Idle(_) => 0
    case _ => 1
  }

  /** The ring and program counter when the thread returns or blocks. */
  function RunAlone(r: Ring, op: Op): State
    decreases Rank(r, op)
  {
    match Exec(r, op)
    case Blocked => State(r, [op])
    case Goes(r', op') => RunAlone(r', op')
  }

  /** Nobody is inside a call: every permit is in a semaphore and the fields agree. */
  predicate Quiescent(r: Ring) {
    && Histories(r) && Settled(r) && r.mutexSem == 1
    && r.count == r.dequeueSem && r.enqueueSem + r.dequeueSem == r.capacity
  }

  /** Quiescence is the protocol's invariant for a thread-free ring. */
  lemma QuiescentIsInv(r: Ring)
    ensures Quiescent(r) <==> Inv(State(r, []))
  {
  }

  lemma QuiescentIsInvIdle(r: Ring, result: Result)
    ensures Quiescent(r) <==> Inv(State(r, [Idle(result)]))
  {
    CountsOfOne(Idle(result));
    if |r.left| <= |r.entered| {
      assert Local(r, Idle(result));
    }
  }

  lemma CountsOfOne(op: Op)
    ensures forall role :: Count(role, [op]) == Bit(Plays(role, op))
  {
    forall role ensures Count(role, [op]) == Bit(Plays(role, op)) {
      assert [op][1..] == [];
    }
  }

  lemma OneStepInv(r: Ring, op: Op, r': Ring, op': Op)
    requires Inv(State(r, [op])) && Exec(r, op) == Goes(r', op')
    ensures Inv(State(r', [op']))
  {
    RunInv(State(r, [op]), 0);
    assert [op][0 := op'] == [op'];
  }

  lemma {:induction false} RunAloneInv(r: Ring, op: Op)
    requires Inv(State(r, [op]))
    ensures Inv(RunAlone(r, op))
    decreases Rank(r, op)
  {
    match Exec(r, op) {
      case Blocked =>
      case Goes(r', op') =>
        OneStepInv(r, op, r', op');
        RankDrops(r, op);
        RunAloneInv(r', op');
    }
  }

  lemma RankDrops(r: Ring, op: Op)
    requires Exec(r, op).Goes?
    ensures Rank(Exec(r, op).ring, Exec(r, op).op) < Rank(r, op)
    ensures RunAlone(r, op) == RunAlone(Exec(r, op).ring, Exec(r, op).op)
  {
  }

  /** A call from a quiescent ring that runs to its end leaves a quiescent ring. */
  lemma CallKeepsQuiescence(r: Ring, entry: Op)
    requires Quiescent(r) && Entry(entry)
    ensures Inv(RunAlone(r, entry))
    ensures var s := RunAlone(r, entry); |s.ops| == 1 && (s.ops[0].Idle? ==> Quiescent(s.ring))
  {
    EntryInv(r, entry);
    RunAloneInv(r, entry);
    OneThread(r, entry);
    IdleMeansQuiescent(RunAlone(r, entry));
  }

  lemma EntryInv(r: Ring, entry: Op)
    requires Quiescent(r) && Entry(entry)
    ensures Inv(State(r, [entry]))
  {
    QuiescentIsInvIdle(r, NoCall);
    SameRolesInv(State(r, [Idle(NoCall)]), 0, entry);
    assert [Idle(NoCall)][0 := entry] == [entry];
  }

  lemma IdleMeansQuiescent(s: State)
    requires Inv(s) && |s.ops| == 1
    ensures s.ops[0].Idle? ==> Quiescent(s.ring)
  {
    assert s.ops == [s.ops[0]];
    if s.ops[0].Idle? {
      QuiescentIsInvIdle(s.ring, s.ops[0].result);
    }
  }

  lemma {:induction false} OneThread(r: Ring, op: Op)
    ensures |RunAlone(r, op).ops| == 1
    ensures RunAlone(r, op).ops == [RunAlone(r, op).ops[0]]
    decreases Rank(r, op)
  {
    if Exec(r, op).Goes? {
      OneThread(Exec(r, op).ring, Exec(r, op).op);
    }
  }

  function AfterEnqueue(r: Ring, t: SharedTask): Ring
    requires r.enqueueSem >= 1 && r.rear < |r.tasks|
  {
    r.(enqueueSem := r.enqueueSem - 1,
       dequeueSem := r.dequeueSem + 1,
       tasks := r.tasks[r.rear := t],
       rear := Next(r.rear, r.capacity),
       count := Add64(r.count),
       totalEnqueued := Add64(r.totalEnqueued),
       entered := r.entered + [t])
  }

  function AfterDequeue(r: Ring): Ring
    requires r.dequeueSem >= 1 && r.front < |r.tasks|
  {
    r.(dequeueSem := r.dequeueSem - 1,
       enqueueSem := r.enqueueSem + 1,
       front := Next(r.front, r.capacity),
       count := Sub64(r.count),
       totalDequeued := Add64(r.totalDequeued),
       left := r.left + [r.tasks[r.front]])
  }

  lemma EnqueueSteps(r: Ring, t: SharedTask)
    requires r.enqueueSem >= 1 && r.mutexSem == 1 && r.rear < |r.tasks|
    ensures RunAlone(r, EnqWaitSlot(t)) == State(AfterEnqueue(r, t), [Idle(Enqueued)])
  {
    var r1 := r.(enqueueSem := r.enqueueSem - 1);
    RankDrops(r, EnqWaitSlot(t));
    var r2 := r1.(mutexSem := 0);
    RankDrops(r1, EnqWaitMutex(t));
    RankDrops(r2, EnqLoadRear(t));
    var r3 := r2.(tasks := r.tasks[r.rear := t]);
    RankDrops(r2, EnqWriteSlot(t, r.rear));
    EnqueueLastSteps(r, r3, t);
  }

  lemma EnqueueLastSteps(r: Ring, r3: Ring, t: SharedTask)
    requires r.enqueueSem >= 1 && r.mutexSem == 1 && r.rear < |r.tasks|
    requires r3 == r.(enqueueSem := r.enqueueSem - 1, mutexSem := 0, tasks := r.tasks[r.rear := t])
    ensures RunAlone(r3, EnqStoreRear(t, r.rear)) == State(AfterEnqueue(r, t), [Idle(Enqueued)])
  {
    var r4 := r3.(rear := Next(r.rear, r.capacity));
    RankDrops(r3, EnqStoreRear(t, r.rear));
    var r5 := r4.(count := Add64(r.count), entered := r.entered + [t]);
    RankDrops(r4, EnqAddCount(t));
    var r6 := r5.(totalEnqueued := Add64(r.totalEnqueued));
    RankDrops(r5, EnqAddTotal);
    var r7 := r6.(mutexSem := 1);
    RankDrops(r6, EnqPostMutex);
    RankDrops(r7, EnqPostItem);
  }

  lemma EnqueueAppends(r: Ring, t: SharedTask)
    requires Quiescent(r) && r.enqueueSem >= 1
    ensures r.rear < |r.tasks|
    ensures RunAlone(r, EnqWaitSlot(t)) == State(AfterEnqueue(r, t), [Idle(Enqueued)])
    ensures Quiescent(AfterEnqueue(r, t))
  {
    EnqueueSteps(r, t);
    CallKeepsQuiescence(r, EnqWaitSlot(t));
    hide RunAlone, Exec, Histories, Settled;
  }

  /** The protocol's enqueue, run alone: blocks on a full ring, otherwise appends. */
  lemma EnqueueAlone(r: Ring, t: SharedTask)
    requires Quiescent(r)
    ensures r.enqueueSem == 0 <==> |Queue(r)| == r.capacity
    ensures r.enqueueSem == 0 ==> RunAlone(r, EnqWaitSlot(t)) == State(r, [EnqWaitSlot(t)])
    ensures r.rear < |r.tasks|
    ensures r.enqueueSem >= 1 ==>
      && RunAlone(r, EnqWaitSlot(t)) == State(AfterEnqueue(r, t), [Idle(Enqueued)])
      && Quiescent(AfterEnqueue(r, t))
      && Queue(AfterEnqueue(r, t)) == Queue(r) + [t]
  {
    if r.enqueueSem == 0 {
      BlockedAlone(r, EnqWaitSlot(t));
    } else {
      EnqueueAppends(r, t);
    }
    hide RunAlone, Exec;
  }

  lemma DequeueSteps(r: Ring, t: SharedTask)
    requires r.dequeueSem >= 1 && r.mutexSem == 1 && r.count >= 1
    requires r.front < |r.tasks| && t == r.tasks[r.front]
    ensures RunAlone(r, DeqWaitItem) == State(AfterDequeue(r), [Idle(Dequeued(t))])
  {
    var inside := r.(dequeueSem := r.dequeueSem - 1, mutexSem := 0);
    DequeueFirstSteps(r, inside);
    DequeueMiddleSteps(inside);
    DequeueLastSteps(r, inside, t);
  }

  lemma DequeueFirstSteps(r: Ring, inside: Ring)
    requires r.dequeueSem >= 1 && r.mutexSem == 1
    requires inside == r.(dequeueSem := r.dequeueSem - 1, mutexSem := 0)
    ensures RunAlone(r, DeqWaitItem) == RunAlone(inside, DeqLoadFront)
  {
    RankDrops(r, DeqWaitItem);
    RankDrops(r.(dequeueSem := r.dequeueSem - 1), DeqWaitMutex);
  }

  lemma DequeueMiddleSteps(r: Ring)
    requires r.count >= 1 && r.front < |r.tasks|
    ensures RunAlone(r, DeqLoadFront) == RunAlone(r, DeqStoreFront(r.tasks[r.front], r.front))
  {
    RankDrops(r, DeqLoadFront);
    RankDrops(r, DeqLoadCount(r.front));
    RankDrops(r, DeqReadSlot(r.front));
  }

  lemma DequeueLastSteps(r: Ring, r2: Ring, t: SharedTask)
    requires r.dequeueSem >= 1 && r.mutexSem == 1 && r.count >= 1
    requires r.front < |r.tasks| && t == r.tasks[r.front]
    requires r2 == r.(dequeueSem := r.dequeueSem - 1, mutexSem := 0)
    ensures RunAlone(r2, DeqStoreFront(t, r.front)) == State(AfterDequeue(r), [Idle(Dequeued(t))])
  {
    var r3 := r2.(front := Next(r.front, r.capacity));
    RankDrops(r2, DeqStoreFront(t, r.front));
    var r4 := r3.(count := Sub64(r.count), left := r.left + [t]);
    RankDrops(r3, DeqSubCount(t));
    DequeueFinalSteps(r4, t);
  }

  lemma DequeueFinalSteps(r: Ring, t: SharedTask)
    ensures RunAlone(r, DeqAddTotal(t)) ==
      State(r.(totalDequeued := Add64(r.totalDequeued), mutexSem := r.mutexSem + 1, enqueueSem := r.enqueueSem + 1),
            [Idle(Dequeued(t))])
  {
    var r5 := r.(totalDequeued := Add64(r.totalDequeued));
    RankDrops(r, DeqAddTotal(t));
    var r6 := r5.(mutexSem := r.mutexSem + 1);
    RankDrops(r5, DeqPostMutex(t));
    RankDrops(r6, DeqPostSlot(t));
  }

  lemma BlockedAlone(r: Ring, op: Op)
    requires Exec(r, op).Blocked?
    ensures RunAlone(r, op) == State(r, [op])
  {
  }

  lemma DequeueTakes(r: Ring)
    requires Quiescent(r) && r.dequeueSem >= 1
    ensures r.front < |r.tasks|
    ensures RunAlone(r, DeqWaitItem) == State(AfterDequeue(r), [Idle(Dequeued(r.tasks[r.front]))])
    ensures Quiescent(AfterDequeue(r))
    ensures Queue(r) == [r.tasks[r.front]] + Queue(AfterDequeue(r))
  {
    FrontIsHead(r);
    DequeueSteps(r, r.tasks[r.front]);
    CallKeepsQuiescence(r, DeqWaitItem);
    hide RunAlone, Exec, Histories, Settled;
  }

  /** The protocol's dequeue, run alone: blocks on an empty ring, otherwise removes the head. */
  lemma DequeueAlone(r: Ring)
    requires Quiescent(r)
    ensures r.dequeueSem == 0 <==> Queue(r) == []
    ensures r.dequeueSem == 0 ==> RunAlone(r, DeqWaitItem) == State(r, [DeqWaitItem])
    ensures r.front < |r.tasks|
    ensures r.dequeueSem >= 1 ==>
      && RunAlone(r, DeqWaitItem) == State(AfterDequeue(r), [Idle(Dequeued(r.tasks[r.front]))])
      && Quiescent(AfterDequeue(r))
      && Queue(r) == [r.tasks[r.front]] + Queue(AfterDequeue(r))
  {
    if r.dequeueSem == 0 {
      BlockedAlone(r, DeqWaitItem);
    } else {
      DequeueTakes(r);
      hide RunAlone, Exec, AfterDequeue;
    }
  }

  lemma FrontIsHead(r: Ring)
    requires Histories(r) && Settled(r) && r.count >= 1
    ensures Queue(r) == [r.tasks[r.front]] + r.entered[|r.left| + 1..]
  {
    assert r.tasks[r.front] == r.entered[|r.left|];
  }
}
