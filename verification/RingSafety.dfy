/** The inductive invariant of the ring protocol, and its preservation by every step. */
module RingSafety {
  import opened SharedTasks
  import opened RingProtocol

  /** The roles a thread can play at its program counter. */
  datatype Role =
    | SlotPermit  // took one from enqueueSem and has not posted dequeueSem (or undone)
    | ItemPermit  // took one from dequeueSem and has not posted enqueueSem (or undone)
    | Critical    // took mutexSem and has not posted it
    | Published   // a producer past its count update, its item not posted yet
    | Claimed     // a consumer with an item permit that has not decremented count
    | Carrying    // holds, inside a call, a task that is not in the queue
    | Waiting     // a producer at its first wait
    | Wanting     // a consumer at its first wait

  predicate HoldsSlot(op: Op) {
    op.EnqWaitMutex? || op.EnqUndoSlot? || op.EnqLoadRear? || op.EnqWriteSlot? || op.EnqStoreRear? ||
    op.EnqAddCount? || HasPublished(op)
  }

  predicate HasPublished(op: Op) { op.EnqAddTotal? || op.EnqPostMutex? || op.EnqPostItem? }

  predicate HoldsItem(op: Op) { HasClaimed(op) || HasTaken(op) }

  predicate HasClaimed(op: Op) {
    op.DeqWaitMutex? || op.DeqUndoItem? || op.DeqLoadFront? || op.DeqLoadCount? || op.DeqEmptyPostMutex? ||
    op.DeqEmptyPostItem? || op.DeqReadSlot? || op.DeqStoreFront? || op.DeqSubCount?
  }

  predicate HasTaken(op: Op) { op.DeqAddTotal? || op.DeqPostMutex? || op.DeqPostSlot? }

  predicate InCritical(op: Op) {
    op.EnqLoadRear? || op.EnqWriteSlot? || op.EnqStoreRear? || op.EnqAddCount? || op.EnqAddTotal? ||
    op.EnqPostMutex? || op.DeqLoadFront? || op.DeqLoadCount? || op.DeqEmptyPostMutex? || op.DeqReadSlot? ||
    op.DeqStoreFront? || op.DeqSubCount? || op.DeqAddTotal? || op.DeqPostMutex? || op.PrintLoadFront? ||
    op.PrintLoadRear? || op.PrintLoadCount? || op.PrintLoop? || op.PrintPostMutex? ||
    op.PrintCatch?
  }

  predicate Plays(role: Role, op: Op) {
    match role
    case SlotPermit => HoldsSlot(op)
    case ItemPermit => HoldsItem(op)
    case Critical => InCritical(op)
    case Published => HasPublished(op)
    case Claimed => HasClaimed(op)
    case Waiting => op.EnqWaitSlot?
    case Wanting => op.DeqWaitItem?
    case Carrying => op.EnqWaitSlot? || (HoldsSlot(op) && !HasPublished(op)) || HasTaken(op)
  }

  function Bit(b: bool): nat { if b then 1 else 0 }

  function Count(role: Role, ops: seq<Op>): nat {
    if ops == [] then 0 else Bit(Plays(role, ops[0])) + Count(role, ops[1..])
  }

  lemma {:induction false} CountUpdate(role: Role, ops: seq<Op>, i: nat, op: Op)
    requires i < |ops|
    ensures Count(role, ops[i := op]) + Bit(Plays(role, ops[i])) == Count(role, ops) + Bit(Plays(role, op))
  {
    if i == 0 {
      assert ops[i := op][1..] == ops[1..];
    } else {
      assert ops[i := op][1..] == ops[1..][i - 1 := op];
      CountUpdate(role, ops[1..], i - 1, op);
    }
  }

  /** A count is at least the number of distinct threads shown to play the role. */
  lemma {:induction false} CountAtLeast(role: Role, ops: seq<Op>, i: nat)
    requires i < |ops| && Plays(role, ops[i])
    ensures Count(role, ops) >= 1
    ensures forall j :: 0 <= j < |ops| && j != i && Plays(role, ops[j]) ==> Count(role, ops) >= 2
  {
    if i > 0 {
      CountAtLeast(role, ops[1..], i - 1);
      forall j | 0 <= j < |ops| && j != i && Plays(role, ops[j])
        ensures Count(role, ops) >= 2
      {
        if j > 0 {
          assert ops[1..][j - 1] == ops[j];
        }
      }
    } else {
      forall j | 0 < j < |ops| && Plays(role, ops[j])
        ensures Count(role, ops) >= 2
      {
        CountAtLeast(role, ops[1..], j - 1);
      }
    }
  }

  lemma {:induction false} CountZero(role: Role, ops: seq<Op>)
    ensures Count(role, ops) == 0 <==> forall i :: 0 <= i < |ops| ==> !Plays(role, ops[i])
  {
    if ops != [] {
      CountZero(role, ops[1..]);
      if forall i :: 0 <= i < |ops| ==> !Plays(role, ops[i]) {
        assert !Plays(role, ops[0]);
      }
      if Count(role, ops) == 0 {
        forall i | 0 <= i < |ops| ensures !Plays(role, ops[i]) {
          assert i > 0 ==> ops[1..][i - 1] == ops[i];
        }
      }
    }
  }

  // Index arithmetic modulo the capacity.

  function Wrap(i: nat, n: Capacity): (w: nat)
    ensures w < n
  {
    if i < n then i else Wrap(i - n, n)
  }

  lemma Multiple(k: int, n: nat)
    requires k != 0
    ensures k * n >= n || k * n <= 0 - n
  {
    if k >= 1 {
      assert (k - 1) * n >= 0;
    } else {
      assert (-1 - k) * n >= 0;
    }
  }

  lemma Remainder(q: int, w: nat, n: Capacity, x: nat)
    requires w < n && x == q * n + w
    ensures x % n == w
  {
    var d := x / n;
    assert x == d * n + x % n;
    assert (d - q) * n == w - x % n;
    if d != q {
      Multiple(d - q, n);
    }
  }

  /** `Wrap` is the remainder, unfolded so that no proof meets a variable divisor. */
  lemma {:induction false} WrapIsRemainder(i: nat, n: Capacity)
    ensures Wrap(i, n) == i % n
  {
    if i < n {
      Remainder(0, i, n, i);
    } else {
      WrapIsRemainder(i - n, n);
      var q := (i - n) / n;
      assert i - n == q * n + Wrap(i - n, n);
      assert i == (q + 1) * n + Wrap(i, n);
      Remainder(q + 1, Wrap(i, n), n, i);
    }
  }

  lemma NextUnfolds(i: nat, n: Capacity)
    requires i < n
    ensures Next(i, n) == if i + 1 == n then 0 else i + 1
  {
    if i + 1 == n {
      Remainder(1, 0, n, i + 1);
    } else {
      Remainder(0, i + 1, n, i + 1);
    }
  }

  lemma {:induction false} WrapNext(i: nat, n: Capacity)
    ensures Next(Wrap(i, n), n) == Wrap(i + 1, n)
  {
    NextUnfolds(Wrap(i, n), n);
    if i >= n {
      WrapNext(i - n, n);
    }
  }

  lemma {:induction false} WrapDistinct(i: nat, j: nat, n: Capacity)
    requires i < j < i + n
    ensures Wrap(i, n) != Wrap(j, n)
  {
    if i >= n {
      WrapDistinct(i - n, j - n, n);
    }
  }

  /** The index fields stand at these positions of the histories, the totals at these counts. */
  predicate Fields(r: Ring, front: nat, rear: nat, enqueued: nat, dequeued: nat) {
    && r.front == Wrap(front, r.capacity)
    && r.rear == Wrap(rear, r.capacity)
    && r.totalEnqueued == enqueued % SIZE_T_MOD
    && r.totalDequeued == dequeued % SIZE_T_MOD
  }

  /** The fields agree with the histories: true whenever nobody is in a critical section. */
  predicate Settled(r: Ring) { Fields(r, |r.left|, |r.entered|, |r.entered|, |r.left|) }

  /** What holds of the shared fields while a thread stands at `op`. */
  predicate Local(r: Ring, op: Op)
    requires |r.left| <= |r.entered|
  {
    match op
    case EnqLoadRear(_) => Settled(r)
    case EnqWriteSlot(_, at) => Settled(r) && at == r.rear
    case EnqStoreRear(t, at) => Settled(r) && at == r.rear && at < |r.tasks| && r.tasks[at] == t
    case EnqAddCount(t) =>
      && Fields(r, |r.left|, |r.entered| + 1, |r.entered|, |r.left|)
      && Wrap(|r.entered|, r.capacity) < |r.tasks| && r.tasks[Wrap(|r.entered|, r.capacity)] == t
    case EnqAddTotal =>
      && r.entered != []
      && Fields(r, |r.left|, |r.entered|, |r.entered| - 1, |r.left|)
    case EnqPostMutex => Settled(r)
    case DeqLoadFront => Settled(r)
    case DeqLoadCount(at) => Settled(r) && at == r.front
    case DeqEmptyPostMutex => false
    case DeqEmptyPostItem => false
    case DeqReadSlot(at) => Settled(r) && at == r.front
    case DeqStoreFront(t, at) => Settled(r) && at == r.front && Head(r, t)
    case DeqSubCount(t) =>
      && Fields(r, |r.left| + 1, |r.entered|, |r.entered|, |r.left|)
      && Head(r, t)
    case DeqAddTotal(t) =>
      && r.left != [] && r.left[|r.left| - 1] == t
      && Fields(r, |r.left|, |r.entered|, |r.entered|, |r.left| - 1)
    case DeqPostMutex(t) => Settled(r) && r.left != [] && r.left[|r.left| - 1] == t
    case PrintLoadFront => Settled(r)
    case PrintLoadRear(index) => Settled(r) && index == r.front
    case PrintLoadCount(index) => Settled(r) && index == r.front
    case PrintLoop(index, i, size, seen) =>
      && Settled(r)
      && i <= size == |Queue(r)|
      && index == Wrap(|r.left| + i, r.capacity)
      && seen == Queue(r)[..i]
    case PrintPostMutex(seen) => Settled(r) && seen == Queue(r)
    case PrintCatch => Settled(r)
    case _ => true
  }

  predicate Head(r: Ring, t: SharedTask)
    requires |r.left| <= |r.entered|
  {
    Queue(r) != [] && Queue(r)[0] == t
  }

  /** The slots from `front` on hold the undelivered tasks. */
  predicate Stored(r: Ring)
    requires |r.left| <= |r.entered|
  {
    && |r.tasks| == r.capacity
    && forall i :: |r.left| <= i < |r.entered| ==> r.tasks[Wrap(i, r.capacity)] == r.entered[i]
  }

  predicate Permits(s: State) {
    && s.ring.enqueueSem + s.ring.dequeueSem + Count(SlotPermit, s.ops) + Count(ItemPermit, s.ops) == s.ring.capacity
    && s.ring.mutexSem + Count(Critical, s.ops) == 1
    && s.ring.count == s.ring.dequeueSem + Count(Published, s.ops) + Count(Claimed, s.ops)
  }

  predicate Histories(r: Ring) {
    && |r.left| <= |r.entered|
    && r.left == r.entered[..|r.left|]
    && r.count == |r.entered| - |r.left| <= r.capacity
    && Stored(r)
  }

  predicate Inv(s: State) {
    && Permits(s)
    && Histories(s.ring)
    && (s.ring.mutexSem >= 1 ==> Settled(s.ring))
    && forall i :: 0 <= i < |s.ops| ==> Local(s.ring, s.ops[i])
  }

  lemma {:induction false} NoneIdle(role: Role, ops: seq<Op>)
    requires forall i :: 0 <= i < |ops| ==> ops[i] == Idle(NoCall)
    ensures Count(role, ops) == 0
  {
    CountZero(role, ops);
  }

  lemma InitInv(s: State)
    requires Init(s)
    ensures Inv(s)
  {
    NoneIdle(SlotPermit, s.ops);
    NoneIdle(ItemPermit, s.ops);
    NoneIdle(Critical, s.ops);
    NoneIdle(Published, s.ops);
    NoneIdle(Claimed, s.ops);
    assert 0 % s.ring.capacity == 0;
  }

  /** The role counts before and after thread `i` moves to `op`. */
  lemma CountsUpdate(ops: seq<Op>, i: nat, op: Op)
    requires i < |ops|
    ensures forall role :: Count(role, ops[i := op]) + Bit(Plays(role, ops[i])) == Count(role, ops) + Bit(Plays(role, op))
    ensures forall role :: Plays(role, ops[i]) ==> Count(role, ops) >= 1
  {
    forall role
      ensures Count(role, ops[i := op]) + Bit(Plays(role, ops[i])) == Count(role, ops) + Bit(Plays(role, op))
      ensures Plays(role, ops[i]) ==> Count(role, ops) >= 1
    {
      CountUpdate(role, ops, i, op);
      if Plays(role, ops[i]) {
        CountAtLeast(role, ops, i);
      }
    }
  }

  /** With one mutex, two threads are never in their critical sections together. */
  lemma Exclusion(s: State, i: nat, j: nat)
    requires Permits(s) && i < |s.ops| && j < |s.ops| && i != j
    requires Plays(Critical, s.ops[i])
    ensures !Plays(Critical, s.ops[j])
  {
    CountAtLeast(Critical, s.ops, i);
  }

  /** A consumer that has not decremented finds the queue non-empty. */
  lemma ClaimedMeansTask(s: State, i: nat)
    requires Inv(s) && i < |s.ops| && Plays(Claimed, s.ops[i])
    ensures s.ring.count >= 1
  {
    CountAtLeast(Claimed, s.ops, i);
  }

  /** A producer that has not published finds a free slot. */
  lemma PermitMeansRoom(s: State, i: nat)
    requires Inv(s) && i < |s.ops| && Plays(SlotPermit, s.ops[i]) && !Plays(Published, s.ops[i])
    ensures s.ring.count < s.ring.capacity
  {
    PublishedHoldSlots(s.ops, i);
    ClaimedHoldItems(s.ops);
  }

  lemma {:induction false} PublishedHoldSlots(ops: seq<Op>, i: nat)
    ensures Count(Published, ops) <= Count(SlotPermit, ops)
    ensures i < |ops| && Plays(SlotPermit, ops[i]) && !Plays(Published, ops[i]) ==>
      Count(Published, ops) < Count(SlotPermit, ops)
  {
    if ops != [] {
      PublishedHoldSlots(ops[1..], if i > 0 then i - 1 else 0);
    }
  }

  lemma {:induction false} ClaimedHoldItems(ops: seq<Op>)
    ensures Count(Claimed, ops) <= Count(ItemPermit, ops)
  {
    if ops != [] {
      ClaimedHoldItems(ops[1..]);
    }
  }

  /** Outside a critical section a step touches the semaphores only. */
  lemma OutsideFrame(r: Ring, op: Op)
    requires Exec(r, op).Goes? && !Plays(Critical, op) && |r.left| <= |r.entered|
    ensures var r' := Exec(r, op).ring;
      r' == r.(enqueueSem := r'.enqueueSem, dequeueSem := r'.dequeueSem, mutexSem := r'.mutexSem)
  {
  }

  lemma LocalIgnoresSemaphores(r: Ring, r': Ring, op: Op)
    requires |r.left| <= |r.entered|
    requires r' == r.(enqueueSem := r'.enqueueSem, dequeueSem := r'.dequeueSem, mutexSem := r'.mutexSem)
    ensures Settled(r') == Settled(r) && Local(r', op) == Local(r, op)
  {
    match op
    case _ =>
  }

  /** No step creates or destroys a permit. */
  lemma ExecPermits(r: Ring, op: Op)
    requires Exec(r, op).Goes?
    ensures var Goes(r', op') := Exec(r, op);
      && r'.capacity == r.capacity
      && r'.enqueueSem + r'.dequeueSem + Bit(HoldsSlot(op')) + Bit(HoldsItem(op')) ==
        r.enqueueSem + r.dequeueSem + Bit(HoldsSlot(op)) + Bit(HoldsItem(op))
  {
  }

  lemma ExecMutex(r: Ring, op: Op)
    requires Exec(r, op).Goes?
    ensures var Goes(r', op') := Exec(r, op); r'.mutexSem + Bit(InCritical(op')) == r.mutexSem + Bit(InCritical(op))
  {
  }

  /** Only a count update moves `count`. */
  lemma ExecCount(r: Ring, op: Op)
    requires Exec(r, op).Goes? && r.count <= r.capacity
    requires op.EnqAddCount? ==> r.count < r.capacity
    requires op.DeqSubCount? ==> r.count >= 1
    ensures var Goes(r', op') := Exec(r, op);
      r'.count + r.dequeueSem + Bit(HasPublished(op)) + Bit(HasClaimed(op)) ==
        r.count + r'.dequeueSem + Bit(HasPublished(op')) + Bit(HasClaimed(op'))
  {
  }

  /** What the counts say about the fields a step is about to use. */
  lemma Room(s: State, i: nat)
    requires Inv(s) && i < |s.ops|
    ensures HoldsSlot(s.ops[i]) && !HasPublished(s.ops[i]) ==> s.ring.count < s.ring.capacity
    ensures HasClaimed(s.ops[i]) ==> s.ring.count >= 1
  {
    if HoldsSlot(s.ops[i]) && !HasPublished(s.ops[i]) {
      PermitMeansRoom(s, i);
    }
    if HasClaimed(s.ops[i]) {
      ClaimedMeansTask(s, i);
    }
  }

  lemma RunPermits(s: State, i: nat)
    requires Inv(s) && i < |s.ops| && Exec(s.ring, s.ops[i]).Goes?
    ensures var Goes(r, op) := Exec(s.ring, s.ops[i]); Permits(State(r, s.ops[i := op]))
  {
    Room(s, i);
    ExecPermits(s.ring, s.ops[i]);
    ExecMutex(s.ring, s.ops[i]);
    ExecCount(s.ring, s.ops[i]);
    assert Permits(s);
    hide Inv, Histories, Settled, Local, Exec, Count, HoldsSlot, HoldsItem, InCritical, HasPublished, HasClaimed;
    CountsUpdate(s.ops, i, Exec(s.ring, s.ops[i]).op);
  }

  /** The histories grow at the two count updates, by the task that crosses. */
  lemma RunHistories(s: State, i: nat)
    requires Inv(s) && i < |s.ops| && Exec(s.ring, s.ops[i]).Goes?
    ensures Histories(Exec(s.ring, s.ops[i]).ring)
  {
    var r, op := s.ring, s.ops[i];
    Room(s, i);
    if op.EnqWriteSlot? {
      WriteKeepsStored(r, op);
    } else if op.EnqAddCount? {
      WriteIsStored(r, op);
    } else if op.DeqSubCount? {
      TakeKeepsHistories(r, op);
    } else {
      OtherStepsKeepHistories(r, op);
    }
  }

  lemma OtherStepsKeepHistories(r: Ring, op: Op)
    requires Histories(r) && Exec(r, op).Goes?
    requires !op.EnqWriteSlot? && !op.EnqAddCount? && !op.DeqSubCount?
    ensures Histories(Exec(r, op).ring)
  {
    var r' := Exec(r, op).ring;
    assert r'.tasks == r.tasks && r'.entered == r.entered && r'.left == r.left;
    assert r'.count == r.count && r'.capacity == r.capacity;
  }

  lemma TakeKeepsHistories(r: Ring, op: Op)
    requires Histories(r) && r.count >= 1
    requires op.DeqSubCount? && Local(r, op)
    ensures Histories(Exec(r, op).ring)
  {
    assert r.left + [op.task] == r.entered[..|r.left| + 1];
  }

  lemma WriteKeepsStored(r: Ring, op: Op)
    requires Histories(r) && r.count < r.capacity
    requires op.EnqWriteSlot? && Local(r, op)
    ensures Histories(Exec(r, op).ring)
  {
    forall k | |r.left| <= k < |r.entered|
      ensures Wrap(k, r.capacity) != op.at
    {
      WrapDistinct(k, |r.entered|, r.capacity);
    }
  }

  lemma WriteIsStored(r: Ring, op: Op)
    requires Histories(r) && r.count < r.capacity
    requires op.EnqAddCount? && Local(r, op)
    ensures Histories(Exec(r, op).ring)
  {
    var r' := Exec(r, op).ring;
    assert r'.count == r.count + 1 && r'.entered == r.entered + [op.task];
    AppendStored(r, r', op.task);
  }

  lemma AppendStored(r: Ring, r': Ring, t: SharedTask)
    requires |r.left| <= |r.entered| && Stored(r)
    requires r.tasks[Wrap(|r.entered|, r.capacity)] == t
    requires r'.tasks == r.tasks && r'.capacity == r.capacity
    requires r'.left == r.left && r'.entered == r.entered + [t]
    ensures Stored(r')
  {
  }

  /** A thread may take one step from `op`: its assertion holds there and the ring is sound. */
  predicate Ready(r: Ring, op: Op) {
    && Histories(r) && Local(r, op) && Exec(r, op).Goes?
    && (r.mutexSem >= 1 ==> Settled(r))
    && (HasClaimed(op) ==> r.count >= 1)
  }

  predicate Arrives(r: Ring, op: Op)
    requires Exec(r, op).Goes?
  {
    |Exec(r, op).ring.left| <= |Exec(r, op).ring.entered| && Local(Exec(r, op).ring, Exec(r, op).op)
  }

  lemma WriteLocal(r: Ring, op: Op)
    requires Ready(r, op) && (op.EnqLoadRear? || op.EnqWriteSlot?)
    ensures Arrives(r, op)
  {
  }

  lemma RearLocal(r: Ring, op: Op)
    requires Ready(r, op) && op.EnqStoreRear?
    ensures Arrives(r, op)
  {
    WrapNext(|r.entered|, r.capacity);
  }

  lemma CountLocal(r: Ring, op: Op)
    requires Ready(r, op) && op.EnqAddCount?
    ensures Arrives(r, op)
  {
    var r' := Exec(r, op).ring;
    assert |r'.entered| == |r.entered| + 1;
  }

  lemma AddAfterRemainder(x: nat)
    ensures Add64(x % SIZE_T_MOD) == (x + 1) % SIZE_T_MOD
  {
  }

  lemma TotalLocal(r: Ring, op: Op)
    requires Ready(r, op) && op.EnqAddTotal?
    ensures Arrives(r, op)
  {
    AddAfterRemainder(|r.entered| - 1);
  }

  lemma TotalTakenLocal(r: Ring, op: Op)
    requires Ready(r, op) && op.DeqAddTotal?
    ensures Arrives(r, op)
  {
    AddAfterRemainder(|r.left| - 1);
  }

  lemma ReadLocal(r: Ring, op: Op)
    requires Ready(r, op) && (op.DeqLoadFront? || op.DeqLoadCount? || op.DeqReadSlot?)
    ensures Arrives(r, op)
  {
    if op.DeqReadSlot? {
      assert r.tasks[Wrap(|r.left|, r.capacity)] == r.entered[|r.left|];
    }
  }

  lemma FrontLocal(r: Ring, op: Op)
    requires Ready(r, op) && op.DeqStoreFront?
    ensures Arrives(r, op)
  {
    WrapNext(|r.left|, r.capacity);
  }

  lemma TakeLocal(r: Ring, op: Op)
    requires Ready(r, op) && op.DeqSubCount?
    ensures Arrives(r, op)
  {
    var r' := Exec(r, op).ring;
    assert |r'.left| == |r.left| + 1 <= |r'.entered|;
  }

  lemma PrintLocal(r: Ring, op: Op)
    requires Ready(r, op) && (op.PrintLoadFront? || op.PrintLoadRear? || op.PrintLoadCount?)
    ensures Arrives(r, op)
  {
    assert op.PrintLoadCount? ==> Queue(r)[..0] == [] && (|Queue(r)| == 0 ==> Queue(r) == []);
  }

  lemma LoopLocal(r: Ring, op: Op)
    requires Ready(r, op) && op.PrintLoop?
    ensures Arrives(r, op)
  {
    var k := |r.left| + op.i;
    WrapNext(k, r.capacity);
    if op.i < op.size {
      assert r.tasks[Wrap(k, r.capacity)] == r.entered[k];
      assert Queue(r)[..op.i] + [r.entered[k]] == Queue(r)[..op.i + 1];
    } else {
      assert Queue(r)[..op.i] == Queue(r);
    }
  }

  /** Taking or releasing a semaphore: only the mutex carries an assertion across. */
  lemma SemaphoreLocal(r: Ring, op: Op)
    requires Ready(r, op)
    requires
      op.EnqWaitSlot? || op.EnqWaitMutex? || op.EnqUndoSlot? || op.EnqPostMutex? || op.EnqPostItem? ||
      op.DeqWaitItem? || op.DeqWaitMutex? || op.DeqUndoItem? || op.DeqPostMutex? || op.DeqPostSlot? ||
      op.PrintWaitMutex? || op.PrintPostMutex? || op.PrintCatch?
    ensures Arrives(r, op)
  {
  }

  lemma ReadyOps(r: Ring, op: Op)
    requires Ready(r, op)
    ensures !op.Idle? && !op.DeqEmptyPostMutex? && !op.DeqEmptyPostItem?
  {
  }

  lemma ReadyArrives(r: Ring, op: Op)
    requires Ready(r, op)
    ensures Arrives(r, op)
  {
    ReadyOps(r, op);
    hide *;
    match op {
      case EnqLoadRear(_) => WriteLocal(r, op);
      case EnqWriteSlot(_, _) => WriteLocal(r, op);
      case EnqStoreRear(_, _) => RearLocal(r, op);
      case EnqAddCount(_) => CountLocal(r, op);
      case EnqAddTotal => TotalLocal(r, op);
      case DeqLoadFront => ReadLocal(r, op);
      case DeqLoadCount(_) => ReadLocal(r, op);
      case DeqReadSlot(_) => ReadLocal(r, op);
      case DeqStoreFront(_, _) => FrontLocal(r, op);
      case DeqSubCount(_) => TakeLocal(r, op);
      case DeqAddTotal(_) => TotalTakenLocal(r, op);
      case PrintLoadFront => PrintLocal(r, op);
      case PrintLoadRear(_) => PrintLocal(r, op);
      case PrintLoadCount(_) => PrintLocal(r, op);
      case PrintLoop(_, _, _, _) => LoopLocal(r, op);
      case _ => SemaphoreLocal(r, op);
    }
  }

  lemma RunLocal(s: State, i: nat)
    requires Inv(s) && i < |s.ops| && Exec(s.ring, s.ops[i]).Goes?
    ensures var Goes(r, op) := Exec(s.ring, s.ops[i]); |r.left| <= |r.entered| && Local(r, op)
  {
    Room(s, i);
    ReadyArrives(s.ring, s.ops[i]);
  }

  /** Releasing the mutex leaves the fields settled. */
  lemma RunSettled(s: State, i: nat)
    requires Inv(s) && i < |s.ops| && Exec(s.ring, s.ops[i]).Goes?
    ensures var r := Exec(s.ring, s.ops[i]).ring; r.mutexSem >= 1 ==> Settled(r)
  {
    var r, op := s.ring, s.ops[i];
    if InCritical(op) {
      CountAtLeast(Critical, s.ops, i);
    } else {
      OutsideFrame(r, op);
      LocalIgnoresSemaphores(r, Exec(r, op).ring, op);
    }
  }

  /** Every other thread's assertions survive a step. */
  lemma OthersKeep(s: State, i: nat, j: nat)
    requires Inv(s) && i < |s.ops| && j < |s.ops| && i != j
    requires Exec(s.ring, s.ops[i]).Goes?
    requires Histories(Exec(s.ring, s.ops[i]).ring)
    ensures Local(Exec(s.ring, s.ops[i]).ring, s.ops[j])
  {
    if InCritical(s.ops[i]) {
      Exclusion(s, i, j);
    } else {
      OutsideFrame(s.ring, s.ops[i]);
      LocalIgnoresSemaphores(s.ring, Exec(s.ring, s.ops[i]).ring, s.ops[j]);
    }
  }

  lemma RunInv(s: State, i: nat)
    requires Inv(s) && i < |s.ops| && Exec(s.ring, s.ops[i]).Goes?
    ensures var Goes(r, op) := Exec(s.ring, s.ops[i]); Inv(State(r, s.ops[i := op]))
  {
    RunPermits(s, i);
    RunHistories(s, i);
    RunSettled(s, i);
    RunLocal(s, i);
    var Goes(r, op) := Exec(s.ring, s.ops[i]);
    var after := s.ops[i := op];
    forall j | 0 <= j < |after| ensures Local(r, after[j]) {
      if j != i {
        OthersKeep(s, i, j);
      }
    }
  }

  /** Moving a thread between places that play the same roles keeps the invariant. */
  lemma SameRolesInv(s: State, i: nat, op: Op)
    requires Inv(s) && i < |s.ops| && Local(s.ring, op)
    requires forall role :: role != Carrying && role != Waiting && role != Wanting ==> Plays(role, s.ops[i]) == Plays(role, op)
    ensures Inv(s.(ops := s.ops[i := op]))
  {
    CountsUpdate(s.ops, i, op);
  }

  lemma InterruptLocal(r: Ring, op: Op)
    requires |r.left| <= |r.entered| && Local(r, op) && Interrupted(op).Some?
    ensures Local(r, Interrupted(op).value)
  {
    hide Fields, Stored, Head, Wrap;
  }

  lemma InterruptRoles(op: Op)
    requires Interrupted(op).Some?
    ensures forall role :: role != Carrying && role != Waiting && role != Wanting ==>
      Plays(role, op) == Plays(role, Interrupted(op).value)
  {
  }

  lemma EntryRoles(r: Ring, op: Op, entry: Op)
    requires |r.left| <= |r.entered| && op.Idle? && (entry == Idle(NoCall) || Entry(entry))
    ensures Local(r, entry)
    ensures forall role :: role != Carrying && role != Waiting && role != Wanting ==> Plays(role, op) == Plays(role, entry)
  {
  }

  lemma InterruptInv(s: State, i: nat)
    requires Inv(s) && i < |s.ops| && Interrupted(s.ops[i]).Some?
    ensures Inv(s.(ops := s.ops[i := Interrupted(s.ops[i]).value]))
  {
    assert Local(s.ring, s.ops[i]);
    InterruptLocal(s.ring, s.ops[i]);
    InterruptRoles(s.ops[i]);
    hide *;
    SameRolesInv(s, i, Interrupted(s.ops[i]).value);
  }

  lemma CallInv(s: State, i: nat, entry: Op)
    requires Inv(s) && i < |s.ops| && s.ops[i].Idle? && (entry == Idle(NoCall) || Entry(entry))
    ensures Inv(s.(ops := s.ops[i := entry]))
  {
    EntryRoles(s.ring, s.ops[i], entry);
    hide *;
    SameRolesInv(s, i, entry);
  }

  lemma ApplyInv(s: State, m: Move)
    requires Inv(s) && Apply(s, m).Some?
    ensures Inv(Apply(s, m).value)
  {
    hide Inv, Exec, Interrupted, Entry;
    match m
    case Run(i) => RunInv(s, i);
    case Interrupt(i) => InterruptInv(s, i);
    case Call(i, entry) => CallInv(s, i, entry);
  }

  /** The invariant holds in every state of every run. */
  lemma {:induction false} TraceInv(states: seq<State>, moves: seq<Move>, n: nat)
    requires Trace(states, moves) && n < |states|
    ensures Inv(states[n])
  {
    if n == 0 {
      InitInv(states[0]);
    } else {
      TraceInv(states, moves, n - 1);
      assert Apply(states[n - 1], moves[n - 1]) == Some(states[n - 1 + 1]);
      ApplyInv(states[n - 1], moves[n - 1]);
    }
  }
}
