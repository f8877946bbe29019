/** The ring of shared tasks as a system of threads. Every semaphore operation and every load or
    store of a shared field is one step; `entered` and `left` record the tasks in the order in
    which the two `count_` updates took place. */
module RingProtocol {
  import opened SharedTasks

  const SIZE_T_MOD: nat := 0x1_0000_0000_0000_0000

  type Capacity = n: nat | 1 <= n < SIZE_T_MOD witness 1

  datatype Ring = Ring(
    capacity: Capacity,
    enqueueSem: nat,
    dequeueSem: nat,
    mutexSem: nat,
    front: nat,
    rear: nat,
    count: nat,
    totalEnqueued: nat,
    totalDequeued: nat,
    tasks: seq<SharedTask>,
    entered: seq<SharedTask>,
    left: seq<SharedTask>)

  datatype Error =
    | EnqueueWaitFailed
    | DequeueWaitFailed
    | MutexWaitFailed
    | PrintWaitFailed
    | PrintFaulted
    | QueueIsEmpty

  /** How the last call of a thread ended. A failed enqueue leaves the task with its caller. */
  datatype Result =
    | NoCall
    | Enqueued
    | Dequeued(task: SharedTask)
    | Printed(seen: seq<SharedTask>)
    | EnqueueThrew(task: SharedTask, error: Error)
    | Threw(error: Error)

  /** The program counter of a thread, with the locals that are live there. */
  datatype Op =
    | Idle(result: Result)
    // enqueue
    | EnqWaitSlot(task: SharedTask)
    | EnqWaitMutex(task: SharedTask)
    | EnqUndoSlot(task: SharedTask)
    | EnqLoadRear(task: SharedTask)
    | EnqWriteSlot(task: SharedTask, at: nat)
    | EnqStoreRear(task: SharedTask, at: nat)
    | EnqAddCount(task: SharedTask)
    | EnqAddTotal
    | EnqPostMutex
    | EnqPostItem
    // dequeue
    | DeqWaitItem
    | DeqWaitMutex
    | DeqUndoItem
    | DeqLoadFront
    | DeqLoadCount(at: nat)
    | DeqEmptyPostMutex
    | DeqEmptyPostItem
    | DeqReadSlot(at: nat)
    | DeqStoreFront(task: SharedTask, at: nat)
    | DeqSubCount(task: SharedTask)
    | DeqAddTotal(task: SharedTask)
    | DeqPostMutex(task: SharedTask)
    | DeqPostSlot(task: SharedTask)
    // print
    | PrintWaitMutex
    | PrintLoadFront
    | PrintLoadRear(index: nat)
    | PrintLoadCount(index: nat)
    | PrintLoop(index: nat, i: nat, size: nat, seen: seq<SharedTask>)
    | PrintPostMutex(seen: seq<SharedTask>)
    | PrintCatch

  datatype Progress = Blocked | Goes(ring: Ring, op: Op)

  function Next(i: nat, n: Capacity): nat { (i + 1) % n }

  function Add64(x: nat): nat { (x + 1) % SIZE_T_MOD }

  function Sub64(x: nat): nat { (x + SIZE_T_MOD - 1) % SIZE_T_MOD }

  /** One step of a thread. A wait on a zero semaphore does not go; neither does an access outside
      the array, which `RingTheorems.OnlyFirstWaitsBlock` rules out. */
  function Exec(r: Ring, op: Op): Progress {
    match op
    case Idle(_) => Blocked
    case EnqWaitSlot(t) =>
      if r.enqueueSem == 0 then Blocked else Goes(r.(enqueueSem := r.enqueueSem - 1), EnqWaitMutex(t))
    case EnqWaitMutex(t) =>
      if r.mutexSem == 0 then Blocked else Goes(r.(mutexSem := r.mutexSem - 1), EnqLoadRear(t))
    case EnqUndoSlot(t) => Goes(r.(enqueueSem := r.enqueueSem + 1), Idle(EnqueueThrew(t, MutexWaitFailed)))
    case EnqLoadRear(t) => Goes(r, EnqWriteSlot(t, r.rear))
    case EnqWriteSlot(t, at) =>
      if at < |r.tasks| then Goes(r.(tasks := r.tasks[at := t]), EnqStoreRear(t, at)) else Blocked
    case EnqStoreRear(t, at) => Goes(r.(rear := Next(at, r.capacity)), EnqAddCount(t))
    case EnqAddCount(t) => Goes(r.(count := Add64(r.count), entered := r.entered + [t]), EnqAddTotal)
    case EnqAddTotal => Goes(r.(totalEnqueued := Add64(r.totalEnqueued)), EnqPostMutex)
    case EnqPostMutex => Goes(r.(mutexSem := r.mutexSem + 1), EnqPostItem)
    case EnqPostItem => Goes(r.(dequeueSem := r.dequeueSem + 1), Idle(Enqueued))
    case DeqWaitItem =>
      if r.dequeueSem == 0 then Blocked else Goes(r.(dequeueSem := r.dequeueSem - 1), DeqWaitMutex)
    case DeqWaitMutex =>
      if r.mutexSem == 0 then Blocked else Goes(r.(mutexSem := r.mutexSem - 1), DeqLoadFront)
    case DeqUndoItem => Goes(r.(dequeueSem := r.dequeueSem + 1), Idle(Threw(MutexWaitFailed)))
    case DeqLoadFront => Goes(r, DeqLoadCount(r.front))
    case DeqLoadCount(at) => Goes(r, if r.count == 0 then DeqEmptyPostMutex else DeqReadSlot(at))
    case DeqEmptyPostMutex => Goes(r.(mutexSem := r.mutexSem + 1), DeqEmptyPostItem)
    case DeqEmptyPostItem => Goes(r.(dequeueSem := r.dequeueSem + 1), Idle(Threw(QueueIsEmpty)))
    case DeqReadSlot(at) => if at < |r.tasks| then Goes(r, DeqStoreFront(r.tasks[at], at)) else Blocked
    case DeqStoreFront(t, at) => Goes(r.(front := Next(at, r.capacity)), DeqSubCount(t))
    case DeqSubCount(t) => Goes(r.(count := Sub64(r.count), left := r.left + [t]), DeqAddTotal(t))
    case DeqAddTotal(t) => Goes(r.(totalDequeued := Add64(r.totalDequeued)), DeqPostMutex(t))
    case DeqPostMutex(t) => Goes(r.(mutexSem := r.mutexSem + 1), DeqPostSlot(t))
    case DeqPostSlot(t) => Goes(r.(enqueueSem := r.enqueueSem + 1), Idle(Dequeued(t)))
    case PrintWaitMutex =>
      if r.mutexSem == 0 then Blocked else Goes(r.(mutexSem := r.mutexSem - 1), PrintLoadFront)
    case PrintLoadFront => Goes(r, PrintLoadRear(r.front))
    case PrintLoadRear(index) => Goes(r, PrintLoadCount(index))
    case PrintLoadCount(index) =>
      Goes(r, if r.count == 0 then PrintPostMutex([]) else PrintLoop(index, 0, r.count, []))
    case PrintLoop(index, i, size, seen) =>
      if i >= size then Goes(r, PrintPostMutex(seen))
      else if index < |r.tasks| then
        Goes(r, PrintLoop(Next(index, r.capacity), i + 1, size, seen + [r.tasks[index]]))
      else Blocked
    case PrintPostMutex(seen) => Goes(r.(mutexSem := r.mutexSem + 1), Idle(Printed(seen)))
    case PrintCatch => Goes(r.(mutexSem := r.mutexSem + 1), Idle(Threw(PrintFaulted)))
  }

  /** Where a thread goes when its pending `sem_wait` returns -1, or the guarded part of a print throws. */
  function Interrupted(op: Op): Option<Op> {
    match op
    case EnqWaitSlot(t) => Some(Idle(EnqueueThrew(t, EnqueueWaitFailed)))
    case EnqWaitMutex(t) => Some(EnqUndoSlot(t))
    case DeqWaitItem => Some(Idle(Threw(DequeueWaitFailed)))
    case DeqWaitMutex => Some(DeqUndoItem)
    case PrintWaitMutex => Some(Idle(Threw(PrintWaitFailed)))
    case PrintLoadFront => Some(PrintCatch)
    case PrintLoadRear(_) => Some(PrintCatch)
    case PrintLoadCount(_) => Some(PrintCatch)
    case PrintLoop(_, _, _, _) => Some(PrintCatch)
    case _ => None
  }

  /** The first instruction of a call. */
  predicate Entry(op: Op) { op.EnqWaitSlot? || op.DeqWaitItem? || op.PrintWaitMutex? }

  datatype State = State(ring: Ring, ops: seq<Op>)

  /** A thread runs one step, has a wait fail or a print throw, or (between calls) enters an operation. */
  datatype Move = Run(thread: nat) | Interrupt(thread: nat) | Call(thread: nat, entry: Op)

  function Apply(s: State, m: Move): Option<State> {
    if m.thread >= |s.ops| then None else
    var op := s.ops[m.thread];
    match m
    case Run(i) =>
      (match Exec(s.ring, op)
       case Blocked => None
       case Goes(r, after) => Some(State(r, s.ops[i := after])))
    case Interrupt(i) =>
      (match Interrupted(op)
       case None => None
       case Some(after) => Some(s.(ops := s.ops[i := after])))
    case Call(i, entry) =>
      if op.Idle? && Entry(entry) then Some(s.(ops := s.ops[i := entry])) else None
  }

  /** What `create` leaves behind, with any number of threads and any bytes in the slots. */
  predicate Init(s: State) {
    && s.ring.enqueueSem == s.ring.capacity
    && s.ring.dequeueSem == 0
    && s.ring.mutexSem == 1
    && s.ring.front == s.ring.rear == s.ring.count == 0
    && s.ring.totalEnqueued == s.ring.totalDequeued == 0
    && |s.ring.tasks| == s.ring.capacity
    && s.ring.entered == s.ring.left == []
    && forall i :: 0 <= i < |s.ops| ==> s.ops[i] == Idle(NoCall)
  }

  predicate Trace(states: seq<State>, moves: seq<Move>) {
    && |states| == |moves| + 1
    && Init(states[0])
    && forall n :: 0 <= n < |moves| ==> Apply(states[n], moves[n]) == Some(states[n + 1])
  }

  /** The abstract queue: what has entered and not left. */
  function Queue(r: Ring): seq<SharedTask>
    requires |r.left| <= |r.entered|
  {
    r.entered[|r.left|..]
  }
}
