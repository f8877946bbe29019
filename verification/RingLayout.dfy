/** Which capacities the declared layout can hold: `tasks_` has 100 slots, and two counters follow it. */
module RingLayout {
  import opened SharedTasks
  import opened RingProtocol
  import opened RingSafety
  import opened RingTheorems
  import opened RingAlone
  import opened RingStalls

  /** No thread is about to write or read past the declared slots. */
  predicate InsideLayout(s: State) {
    forall i :: 0 <= i < |s.ops| ==>
      && (s.ops[i].EnqWriteSlot? ==> s.ops[i].at < COUNT_TASKS)
      && (s.ops[i].DeqReadSlot? ==> s.ops[i].at < COUNT_TASKS)
      && (s.ops[i].PrintLoop? && s.ops[i].i < s.ops[i].size ==> s.ops[i].index < COUNT_TASKS)
  }

  /** One thread can fill the ring to any level. */
  lemma {:induction false} Fill(capacity: Capacity, t: SharedTask, k: nat) returns (s: State)
    requires k <= capacity
    ensures Reachable(s) && s.ring.capacity == capacity
    ensures |s.ops| == 1 && s.ops[0].Idle? && Quiescent(s.ring)
    ensures |s.ring.entered| == k && s.ring.left == []
    decreases k
  {
    if k == 0 {
      s := Created(capacity, t, [Idle(NoCall)]);
    } else {
      var before := Fill(capacity, t, k - 1);
      s := AddOne(before, t);
    }
  }

  lemma InsideWhenSmall(s: State)
    requires Reachable(s) && s.ring.capacity <= COUNT_TASKS
    ensures InsideLayout(s)
  {
    ReachableInv(s);
    forall i | 0 <= i < |s.ops|
      ensures s.ops[i].EnqWriteSlot? ==> s.ops[i].at < COUNT_TASKS
      ensures s.ops[i].DeqReadSlot? ==> s.ops[i].at < COUNT_TASKS
      ensures s.ops[i].PrintLoop? ==> s.ops[i].index < COUNT_TASKS
    {
      assert Local(s.ring, s.ops[i]);
    }
  }

  /** A thread that has the permit and the mutex is about to write at the rear. */
  lemma AboutToWrite(s: State, t: SharedTask) returns (last: State)
    requires Reachable(s) && |s.ops| == 1 && s.ops[0].Idle? && Quiescent(s.ring)
    requires |s.ring.entered| < s.ring.capacity && s.ring.left == []
    ensures Reachable(last) && last.ring.capacity == s.ring.capacity
    ensures |last.ops| == 1 && last.ops[0] == EnqWriteSlot(t, s.ring.rear)
  {
    EnqueueAlone(s.ring, t);
    ReachableStep(s, Call(0, EnqWaitSlot(t)));
    assert s.ops[0 := EnqWaitSlot(t)] == [EnqWaitSlot(t)];
    var r1 := s.ring.(enqueueSem := s.ring.enqueueSem - 1);
    var r2 := r1.(mutexSem := 0);
    RunsOnly(s.ring, EnqWaitSlot(t), r1, EnqWaitMutex(t));
    RunsOnly(r1, EnqWaitMutex(t), r2, EnqLoadRear(t));
    RunsOnly(r2, EnqLoadRear(t), r2, EnqWriteSlot(t, s.ring.rear));
    last := State(r2, [EnqWriteSlot(t, s.ring.rear)]);
  }

  lemma RunsOnly(r: Ring, op: Op, r': Ring, op': Op)
    requires Reachable(State(r, [op])) && Exec(r, op) == Goes(r', op')
    ensures Reachable(State(r', [op']))
  {
    ReachableStep(State(r, [op]), Run(0));
    assert [op][0 := op'] == [op'];
  }

  /** The constructor accepts capacities up to 10000; every run of a ring stays inside the declared slots
      exactly when its capacity is at most 100. Above that, filling the ring is enough to leave them. */
  lemma LayoutSufficesIff(capacity: Capacity)
    ensures capacity <= 100 <==> forall s :: Reachable(s) && s.ring.capacity == capacity ==> InsideLayout(s)
  {
    if capacity <= COUNT_TASKS {
      forall s | Reachable(s) && s.ring.capacity == capacity ensures InsideLayout(s) {
        InsideWhenSmall(s);
      }
    } else {
      var t := SharedTask(0, 0, [], UNIX_TASK, false, 0);
      var full := Fill(capacity, t, COUNT_TASKS);
      var last := AboutToWrite(full, t);
      assert full.ring.rear == COUNT_TASKS;
      assert last.ops[0].at >= COUNT_TASKS;
      assert !InsideLayout(last);
    }
  }
}
