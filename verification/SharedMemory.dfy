/** The shared-memory object used by one thread at a time: the ring's fields updated in place. Each
    method is proved against the step system of `RingProtocol` run by a single thread. */
module SharedMemory {
  import opened SharedTasks
  import opened RingProtocol
  import opened RingSafety
  import opened RingAlone

  /** How a call ended: it returned, it is still waiting on a semaphore, or it threw. */
  datatype Outcome<+T> = Done(value: T) | Waits | Throws(error: Error)

  class SharedRing {
    const capacity: Capacity
    const tasks: array<SharedTask>
    var enqueueSem: nat
    var dequeueSem: nat
    var mutexSem: nat
    var front: nat
    var rear: nat
    var count: nat
    var totalEnqueued: nat
    var totalDequeued: nat
    ghost var entered: seq<SharedTask>
    ghost var left: seq<SharedTask>
    ghost var contents: seq<SharedTask>  // the tasks in the ring, oldest first

    /** The fields as a state of the protocol. */
    ghost function View(): Ring
      reads this, tasks
    {
      Ring(capacity, enqueueSem, dequeueSem, mutexSem, front, rear, count, totalEnqueued, totalDequeued,
           tasks[..], entered, left)
    }

    ghost predicate Valid()
      reads this, tasks
    {
      Quiescent(View()) && contents == Queue(View())
    }

    lemma ValidMeans()
      requires Valid()
      ensures |contents| <= capacity
      ensures front == Wrap(|left|, capacity) && rear == Wrap(|entered|, capacity)
    {
    }

    constructor Create(capacity: Capacity, blank: SharedTask)
      ensures Valid() && fresh(tasks)
      ensures contents == [] && this.capacity == capacity
    {
      this.capacity := capacity;
      tasks := new SharedTask[capacity](_ => blank);
      enqueueSem, dequeueSem, mutexSem := capacity, 0, 1;
      front, rear, count := 0, 0, 0;
      totalEnqueued, totalDequeued := 0, 0;
      entered, left, contents := [], [], [];
    }

    /** `slotFails` and `mutexFails` say whether the corresponding `sem_wait` returns -1. */
    method Enqueue(task: SharedTask, slotFails: bool, mutexFails: bool) returns (o: Outcome<()>)
      requires Valid()
      modifies this, tasks
      ensures Valid()
      ensures o.Done? <==> !slotFails && !mutexFails && |old(contents)| < capacity
      ensures o.Done? ==>
        && contents == old(contents) + [task]
        && View() == AfterEnqueue(old(View()), task)
        && entered == old(entered) + [task] && left == old(left)
      ensures o.Waits? <==> !slotFails && |old(contents)| == capacity
      ensures slotFails ==> o == Throws(EnqueueWaitFailed)
      ensures o.Throws? && !slotFails ==> o == Throws(MutexWaitFailed)
      ensures !o.Done? ==> View() == old(View()) && contents == old(contents)
    {
      EnqueueAlone(View(), task);
      if slotFails {
        return Throws(EnqueueWaitFailed);
      }
      if enqueueSem == 0 {
        return Waits;
      }
      if mutexFails {
        enqueueSem := enqueueSem - 1;
        enqueueSem := enqueueSem + 1;
        return Throws(MutexWaitFailed);
      }
      AppendTail(task);
      return Done(());
    }

    /** An enqueue whose two waits succeed. */
    method AppendTail(task: SharedTask)
      requires enqueueSem >= 1 && mutexSem >= 1 && rear < tasks.Length
      modifies this, tasks
      ensures View() == AfterEnqueue(old(View()), task) && contents == old(contents) + [task]
    {
      enqueueSem := enqueueSem - 1;
      mutexSem := mutexSem - 1;
      var at := rear;
      tasks[at] := task;
      rear := Next(at, capacity);
      count := Add64(count);
      entered := entered + [task];
      totalEnqueued := Add64(totalEnqueued);
      mutexSem := mutexSem + 1;
      dequeueSem := dequeueSem + 1;
      contents := contents + [task];
    }

    /** A dequeue whose two waits succeed, the emptiness test included. */
    method RemoveHead() returns (o: Outcome<SharedTask>)
      requires dequeueSem >= 1 && mutexSem >= 1 && front < tasks.Length && |contents| == count
      modifies this
      ensures old(count) == 0 ==> o == Throws(QueueIsEmpty) && View() == old(View()) && contents == old(contents)
      ensures old(count) > 0 ==> o == Done(tasks[old(front)]) && View() == AfterDequeue(old(View()))
      ensures old(count) > 0 ==> contents == old(contents)[1..]
    {
      dequeueSem := dequeueSem - 1;
      mutexSem := mutexSem - 1;
      var at := front;
      if count == 0 {
        mutexSem := mutexSem + 1;
        dequeueSem := dequeueSem + 1;
        return Throws(QueueIsEmpty);
      }
      var task := tasks[at];
      front := Next(at, capacity);
      count := Sub64(count);
      left := left + [task];
      totalDequeued := Add64(totalDequeued);
      mutexSem := mutexSem + 1;
      enqueueSem := enqueueSem + 1;
      contents := contents[1..];
      return Done(task);
    }

    method Dequeue(itemFails: bool, mutexFails: bool) returns (o: Outcome<SharedTask>)
      requires Valid()
      modifies this
      ensures Valid()
      ensures o.Done? <==> !itemFails && !mutexFails && old(contents) != []
      ensures o.Done? ==>
        && old(contents) == [o.value] + contents
        && View() == AfterDequeue(old(View()))
        && entered == old(entered) && left == old(left) + [o.value]
      ensures o.Waits? <==> !itemFails && old(contents) == []
      ensures itemFails ==> o == Throws(DequeueWaitFailed)
      ensures o.Throws? && !itemFails ==> o == Throws(MutexWaitFailed)
      ensures !o.Done? ==> View() == old(View()) && contents == old(contents)
    {
      DequeueAlone(View());
      if itemFails {
        return Throws(DequeueWaitFailed);
      }
      if dequeueSem == 0 {
        return Waits;
      }
      if mutexFails {
        dequeueSem := dequeueSem - 1;
        dequeueSem := dequeueSem + 1;
        return Throws(MutexWaitFailed);
      }
      o := RemoveHead();
    }

    /** The tasks a print shows, in the order shown. `faults` says whether an exception leaves the part of it
        that the source guards. */
    method Print(mutexFails: bool, faults: bool) returns (o: Outcome<seq<SharedTask>>)
      requires Valid()
      modifies this
      ensures Valid() && View() == old(View()) && contents == old(contents)
      ensures o == if mutexFails then Throws(PrintWaitFailed) else if faults then Throws(PrintFaulted) else Done(contents)
    {
      if mutexFails {
        return Throws(PrintWaitFailed);
      }
      mutexSem := mutexSem - 1;
      if faults {
        mutexSem := mutexSem + 1;
        return Throws(PrintFaulted);
      }
      var seen := [];
      if count != 0 {
        seen := Visit();
      }
      mutexSem := mutexSem + 1;
      return Done(seen);
    }

    /** The wrap-around loop of a print, which only reads. */
    method Visit() returns (seen: seq<SharedTask>)
      requires Histories(View()) && Settled(View())
      ensures seen == Queue(View())
    {
      var index := front;
      seen := [];
      var i := 0;
      while i < count
        invariant i <= count && index == Wrap(|left| + i, capacity)
        invariant seen == Queue(View())[..i]
      {
        assert tasks[..][Wrap(|left| + i, capacity)] == entered[|left| + i];
        seen := seen + [tasks[index]];
        WrapNext(|left| + i, capacity);
        index := Next(index, capacity);
        i := i + 1;
      }
    }

    method Size() returns (n: nat)
      requires Valid()
      ensures n == |contents|
    {
      return count;
    }

    method Empty() returns (b: bool)
      requires Valid()
      ensures b <==> contents == []
    {
      var n := Size();
      return n == 0;
    }
  }

  /** The constructor's check of its argument. */
  method Open(capacity: nat, blank: SharedTask) returns (r: Option<SharedRing>)
    ensures r.None? <==> capacity == 0 || capacity > 10000
    ensures r.Some? ==> r.value.capacity == capacity && r.value.Valid() && r.value.contents == []
  {
    if capacity == 0 || capacity > THROW_VALUE {
      return None;
    }
    var ring := new SharedRing.Create(capacity, blank);
    return Some(ring);
  }
}
