/** The queue manager: conversion to and from the ring, and the reorder pass. */
module QueueManager {
  import opened SharedTasks
  import opened Priority
  import opened Conversion
  import opened Transit
  import opened Tasks
  import opened SharedMemory
  import Ring = RingProtocol
  import RingSafety
  import RingAlone
  import RingTheorems

  /** How fetching the next task ended: with a task, waiting on an empty ring, or with an exception from the
      ring or from the priority validation. */
  datatype Fetch = Fetched(task: Task) | RingEmpty | FetchThrew(error: Ring.Error) | PriorityRejected

  predicate Distinct(tasks: seq<Task>) {
    forall i, j :: 0 <= i < j < |tasks| ==> tasks[i] != tasks[j]
  }

  /** The objects, as values. */
  predicate Showing(tasks: seq<Task>, values: seq<TaskValue>)
    reads tasks
  {
    |tasks| == |values| && forall i :: 0 <= i < |tasks| ==> tasks[i].View() == values[i]
  }

  /** The first objects show the values after an update, the others still those before. */
  predicate PartShowing(tasks: seq<Task>, before: seq<TaskValue>, after: seq<TaskValue>)
    reads tasks
  {
    && |after| <= |tasks| == |before|
    && forall i :: 0 <= i < |tasks| ==> tasks[i].View() == if i < |after| then after[i] else before[i]
  }

  /** `v` was rebuilt from the record `s`; it remembers both clock readings. */
  predicate RebuiltFrom(v: TaskValue, s: SharedTask) {
    v.arrivalNs <= v.lastExecutionNs && FromShared(s, v.arrivalNs, v.lastExecutionNs) == Some(v)
  }

  predicate AllRebuilt(vs: seq<TaskValue>, ss: seq<SharedTask>, earliest: nat, latest: nat) {
    && |vs| == |ss|
    && (vs != [] ==>
          var n := |vs| - 1;
          && AllRebuilt(vs[..n], ss[..n], earliest, latest)
          && RebuiltFrom(vs[n], ss[n]) && earliest <= vs[n].arrivalNs && vs[n].lastExecutionNs <= latest)
  }

  lemma {:induction false} RebuiltLater(vs: seq<TaskValue>, ss: seq<SharedTask>, earliest: nat, latest: nat, later: nat)
    requires AllRebuilt(vs, ss, earliest, latest) && latest <= later
    ensures AllRebuilt(vs, ss, earliest, later)
  {
    if vs != [] {
      RebuiltLater(vs[..|vs| - 1], ss[..|vs| - 1], earliest, latest, later);
    }
  }

  lemma RebuiltAppend(vs: seq<TaskValue>, ss: seq<SharedTask>, v: TaskValue, s: SharedTask, earliest: nat, latest: nat, later: nat)
    requires AllRebuilt(vs, ss, earliest, latest) && latest <= later
    requires RebuiltFrom(v, s) && earliest <= v.arrivalNs && v.lastExecutionNs <= later
    ensures AllRebuilt(vs + [v], ss + [s], earliest, later)
  {
    RebuiltLater(vs, ss, earliest, latest, later);
    assert (vs + [v])[..|vs|] == vs && (ss + [s])[..|vs|] == ss;
  }

  lemma {:induction false} RebuiltAt(vs: seq<TaskValue>, ss: seq<SharedTask>, earliest: nat, latest: nat, i: nat)
    requires AllRebuilt(vs, ss, earliest, latest) && i < |vs|
    ensures RebuiltFrom(vs[i], ss[i]) && earliest <= vs[i].arrivalNs && vs[i].lastExecutionNs <= latest
  {
    if i < |vs| - 1 {
      RebuiltAt(vs[..|vs| - 1], ss[..|vs| - 1], earliest, latest, i);
    }
  }

  predicate NotAfter(vs: seq<TaskValue>, now: nat) {
    forall i :: 0 <= i < |vs| ==> vs[i].lastExecutionNs <= now
  }

  predicate Addable(vs: seq<TaskValue>, now: nat) {
    forall i :: 0 <= i < |vs| ==> InRange(vs[i].dynamicPriority) && vs[i].arrivalNs <= now
  }

  lemma RebuiltNotAfter(vs: seq<TaskValue>, ss: seq<SharedTask>, earliest: nat, latest: nat)
    requires AllRebuilt(vs, ss, earliest, latest)
    ensures NotAfter(vs, latest)
  {
    forall i | 0 <= i < |vs| ensures vs[i].lastExecutionNs <= latest {
      RebuiltAt(vs, ss, earliest, latest, i);
    }
  }

  /** Neither rebuilding nor updating can leave a priority that `add_task` must not store. */
  lemma UpdatedAddable(algorithm: Algorithm, vs: seq<TaskValue>, vs': seq<TaskValue>, ss: seq<SharedTask>,
                       earliest: nat, latest: nat, later: nat)
    requires AllRebuilt(vs, ss, earliest, latest) && AllUpdated(algorithm, vs, vs', later) && latest <= later
    ensures Addable(vs', later)
  {
    forall i | 0 <= i < |vs'| ensures InRange(vs'[i].dynamicPriority) && vs'[i].arrivalNs <= later {
      RebuiltAt(vs, ss, earliest, latest, i);
      UpdatedAt(algorithm, vs, vs', later, i);
    }
  }

  predicate UpdatedTo(algorithm: Algorithm, v: TaskValue, v': TaskValue) {
    v.lastExecutionNs <= v'.lastExecutionNs && v' == Update(Some(algorithm), v, v'.lastExecutionNs)
  }

  predicate AllUpdated(algorithm: Algorithm, vs: seq<TaskValue>, vs': seq<TaskValue>, latest: nat) {
    && |vs| == |vs'|
    && (vs != [] ==>
          var n := |vs| - 1;
          && AllUpdated(algorithm, vs[..n], vs'[..n], latest)
          && UpdatedTo(algorithm, vs[n], vs'[n]) && vs'[n].lastExecutionNs <= latest)
  }

  lemma {:induction false} UpdatedLater(algorithm: Algorithm, vs: seq<TaskValue>, vs': seq<TaskValue>, latest: nat, later: nat)
    requires AllUpdated(algorithm, vs, vs', latest) && latest <= later
    ensures AllUpdated(algorithm, vs, vs', later)
  {
    if vs != [] {
      UpdatedLater(algorithm, vs[..|vs| - 1], vs'[..|vs| - 1], latest, later);
    }
  }

  lemma UpdatedAppend(algorithm: Algorithm, vs: seq<TaskValue>, vs': seq<TaskValue>, v: TaskValue, v': TaskValue, latest: nat, later: nat)
    requires AllUpdated(algorithm, vs, vs', latest) && latest <= later
    requires UpdatedTo(algorithm, v, v') && v'.lastExecutionNs <= later
    ensures AllUpdated(algorithm, vs + [v], vs' + [v'], later)
  {
    UpdatedLater(algorithm, vs, vs', latest, later);
    assert (vs + [v])[..|vs|] == vs && (vs' + [v'])[..|vs|] == vs';
  }

  lemma {:induction false} UpdatedAt(algorithm: Algorithm, vs: seq<TaskValue>, vs': seq<TaskValue>, latest: nat, i: nat)
    requires AllUpdated(algorithm, vs, vs', latest) && i < |vs|
    ensures UpdatedTo(algorithm, vs[i], vs'[i]) && vs'[i].lastExecutionNs <= latest
  {
    if i < |vs| - 1 {
      UpdatedAt(algorithm, vs[..|vs| - 1], vs'[..|vs| - 1], latest, i);
    }
  }

  /** When, and with what unset values, a task was written to the ring. */
  datatype Write = Write(atNs: nat, unset: Unset)

  predicate WrittenAs(v: TaskValue, w: Write, s: SharedTask) {
    v.arrivalNs <= w.atNs && s == ToShared(v, w.atNs, w.unset)
  }

  predicate AllWritten(vs: seq<TaskValue>, ws: seq<Write>, ss: seq<SharedTask>, earliest: nat, latest: nat) {
    && |vs| == |ws| == |ss|
    && (vs != [] ==>
          var n := |vs| - 1;
          && AllWritten(vs[..n], ws[..n], ss[..n], earliest, latest)
          && WrittenAs(vs[n], ws[n], ss[n]) && earliest <= ws[n].atNs <= latest)
  }

  lemma {:induction false} WrittenLater(vs: seq<TaskValue>, ws: seq<Write>, ss: seq<SharedTask>, earliest: nat, latest: nat, later: nat)
    requires AllWritten(vs, ws, ss, earliest, latest) && latest <= later
    ensures AllWritten(vs, ws, ss, earliest, later)
  {
    if vs != [] {
      WrittenLater(vs[..|vs| - 1], ws[..|vs| - 1], ss[..|vs| - 1], earliest, latest, later);
    }
  }

  lemma WrittenAppend(vs: seq<TaskValue>, ws: seq<Write>, ss: seq<SharedTask>, v: TaskValue, w: Write, s: SharedTask,
                      earliest: nat, latest: nat, later: nat)
    requires AllWritten(vs, ws, ss, earliest, latest) && latest <= later
    requires WrittenAs(v, w, s) && earliest <= w.atNs <= later
    ensures AllWritten(vs + [v], ws + [w], ss + [s], earliest, later)
  {
    WrittenLater(vs, ws, ss, earliest, latest, later);
    assert (vs + [v])[..|vs|] == vs && (ws + [w])[..|vs|] == ws && (ss + [s])[..|vs|] == ss;
  }

  lemma {:induction false} WrittenAt(vs: seq<TaskValue>, ws: seq<Write>, ss: seq<SharedTask>, earliest: nat, latest: nat, i: nat)
    requires AllWritten(vs, ws, ss, earliest, latest) && i < |vs|
    ensures WrittenAs(vs[i], ws[i], ss[i]) && earliest <= ws[i].atNs <= latest
  {
    if i < |vs| - 1 {
      WrittenAt(vs[..|vs| - 1], ws[..|vs| - 1], ss[..|vs| - 1], earliest, latest, i);
    }
  }

  /** The trips made by tasks rebuilt, updated and written back. */
  function TripsOf(vs: seq<TaskValue>, vs': seq<TaskValue>, ws: seq<Write>): (trips: seq<Trip>)
    requires |vs| == |vs'| == |ws|
    ensures |trips| == |vs|
  {
    seq(|vs|, i requires 0 <= i < |vs| =>
      Trip(vs[i].arrivalNs, vs[i].lastExecutionNs, vs'[i].lastExecutionNs, ws[i].atNs, ws[i].unset))
  }

  lemma {:induction false} RebuiltTake(vs: seq<TaskValue>, ss: seq<SharedTask>, earliest: nat, latest: nat, k: nat)
    requires AllRebuilt(vs, ss, earliest, latest) && k <= |vs|
    ensures AllRebuilt(vs[..k], ss[..k], earliest, latest)
  {
    if k < |vs| {
      assert vs[..|vs| - 1][..k] == vs[..k] && ss[..|vs| - 1][..k] == ss[..k];
      RebuiltTake(vs[..|vs| - 1], ss[..|vs| - 1], earliest, latest, k);
    } else {
      assert vs[..k] == vs && ss[..k] == ss;
    }
  }

  lemma {:induction false} UpdatedTake(algorithm: Algorithm, vs: seq<TaskValue>, vs': seq<TaskValue>, latest: nat, k: nat)
    requires AllUpdated(algorithm, vs, vs', latest) && k <= |vs|
    ensures AllUpdated(algorithm, vs[..k], vs'[..k], latest)
  {
    if k < |vs| {
      assert vs[..|vs| - 1][..k] == vs[..k] && vs'[..|vs| - 1][..k] == vs'[..k];
      UpdatedTake(algorithm, vs[..|vs| - 1], vs'[..|vs| - 1], latest, k);
    } else {
      assert vs[..k] == vs && vs'[..k] == vs';
    }
  }

  /** Rebuilding, updating and writing back in order is carrying the whole queue. */
  lemma PassCarries(algorithm: Algorithm, before: seq<SharedTask>, vs: seq<TaskValue>, vs': seq<TaskValue>,
                    ws: seq<Write>, after: seq<SharedTask>, t0: nat, t1: nat, t2: nat, t3: nat)
    requires AllInRange(before)
    requires AllRebuilt(vs, before, t0, t1) && AllUpdated(algorithm, vs, vs', t2) && AllWritten(vs', ws, after, t2, t3)
    ensures |before| == |after| == |vs| == |vs'| == |ws|
    ensures var trips := TripsOf(vs, vs', ws);
      && AllOrdered(trips)
      && (forall i :: 0 <= i < |trips| ==> t0 <= trips[i].createdNs && trips[i].addedNs <= t3)
      && after == CarryAll(Some(algorithm), before, trips)
  {
    var trips := TripsOf(vs, vs', ws);
    forall i | 0 <= i < |trips|
      ensures Ordered(trips[i]) && t0 <= trips[i].createdNs && trips[i].addedNs <= t3
      ensures after[i] == Carry(Some(algorithm), before[i], trips[i])
    {
      RebuiltAt(vs, before, t0, t1, i);
      UpdatedAt(algorithm, vs, vs', t2, i);
      WrittenAt(vs', ws, after, t2, t3, i);
    }
    assert AllOrdered(trips);
    assert forall i :: 0 <= i < |after| ==> after[i] == CarryAll(Some(algorithm), before, trips)[i];
  }

  lemma MoveHead<T>(a: seq<T>, b: seq<T>, rest: seq<T>)
    requires b != [] && b == [b[0]] + rest
    ensures a + b == (a + [b[0]]) + rest
  {
  }

  lemma IndexAdvances(i: nat, n: nat, capacity: Ring.Capacity)
    ensures RingSafety.Wrap(i + n, capacity) == (RingSafety.Wrap(i, capacity) + n) % capacity
  {
    RingTheorems.WrapAdds(i, n, capacity);
    RingSafety.WrapIsRemainder(RingSafety.Wrap(i, capacity) + n, capacity);
  }

  class TaskQueueManager {
    const ring: SharedRing
    const clock: Clock

    ghost predicate Valid()
      reads ring, ring.tasks
    {
      ring.Valid() && AllInRange(ring.contents)
    }

    constructor (ring: SharedRing, clock: Clock)
      requires ring.Valid() && AllInRange(ring.contents)
      ensures this.ring == ring && this.clock == clock && Valid()
    {
      this.ring := ring;
      this.clock := clock;
    }

    method TaskCount() returns (n: nat)
      requires Valid()
      ensures n == |ring.contents|
    {
      n := ring.Size();
    }

    method ConvertToShared(source: Task) returns (s: SharedTask, ghost w: Write)
      requires source.arrivalNs <= clock.now
      modifies clock
      ensures old(clock.now) <= w.atNs <= clock.now
      ensures WrittenAs(source.View(), w, s)
    {
      var unsetKind: TaskType :| true;
      var unsetTotal: int :| true;
      var unset := Unset(unsetKind, unsetTotal);
      w := Write(clock.now, unset);
      if source.completed {
        s := SharedTask(source.id, source.dynamicPriority, Describe(source.description), unset.kind, true, 0);
      } else {
        var now := clock.Read();
        w := Write(now, unset);
        var total := TotalMs(source.View(), unset);
        s := SharedTask(source.id, source.dynamicPriority, Describe(source.description), source.kind, false,
                        RemainingAfter(total, ElapsedMs(source.arrivalNs, now)));
      }
    }

    /** None is the priority validation thrown by `set_static_priority`. */
    method ConvertFromShared(s: SharedTask) returns (r: Option<Task>)
      modifies clock
      ensures old(clock.now) <= clock.now
      ensures r.Some? <==> InRange(s.priority)
      ensures r.Some? ==>
        && fresh(r.value) && RebuiltFrom(r.value.View(), s)
        && old(clock.now) <= r.value.arrivalNs && r.value.lastExecutionNs <= clock.now
    {
      var created := clock.Read();
      var task := new Task(Fresh(s.id, s.kind, Description(s), 0, created, s.remainingMs));
      var ok := task.SetStaticPriority(s.priority, clock);
      if !ok {
        return None;
      }
      if s.completed {
        task.SetRunState(COMPLETED);
      }
      return Some(task);
    }

    /** Any task whose stored priority is valid may be added; `UnixTask`'s own methods keep it valid. The last
        three arguments say which `sem_wait` returns -1, or that the print throws otherwise. When only the print
        does, the task is in the ring. */
    method AddTask(task: Task, slotFails: bool, mutexFails: bool, printFails: bool) returns (o: Outcome<()>, ghost w: Write)
      requires Valid() && InRange(task.dynamicPriority) && task.arrivalNs <= clock.now
      modifies ring, ring.tasks, clock
      ensures Valid() && old(clock.now) <= w.atNs <= clock.now && task.arrivalNs <= w.atNs
      ensures task.View() == old(task.View())
      ensures var stored := !slotFails && !mutexFails && |old(ring.contents)| < ring.capacity;
        && (o.Done? <==> stored && !printFails)
        && (stored ==>
              && ring.contents == old(ring.contents) + [ToShared(task.View(), w.atNs, w.unset)]
              && ring.entered == old(ring.entered) + [ToShared(task.View(), w.atNs, w.unset)])
        && (!stored ==> ring.contents == old(ring.contents) && ring.entered == old(ring.entered))
        && ring.left == old(ring.left)
      ensures o.Waits? <==> !slotFails && |old(ring.contents)| == ring.capacity
    {
      hide SharedRing.Valid;
      ring.ValidMeans();
      var s;
      s, w := ConvertToShared(task);
      o := ring.Enqueue(s, slotFails, mutexFails);
      if o.Done? {
        var waitFails: bool :| waitFails ==> printFails;
        var shown := ring.Print(waitFails, printFails && !waitFails);
        if shown.Throws? {
          o := Throws(shown.error);
        }
      }
    }

    /** The arguments say which `sem_wait` returns -1. */
    method GetNextTask(itemFails: bool, mutexFails: bool) returns (r: Fetch)
      requires Valid()
      modifies ring, clock
      ensures Valid() && old(clock.now) <= clock.now
      ensures r.RingEmpty? <==> !itemFails && old(ring.contents) == []
      ensures r.Fetched? <==> !itemFails && !mutexFails && old(ring.contents) != []
      ensures !r.PriorityRejected?
      ensures !r.Fetched? ==>
        ring.contents == old(ring.contents) && ring.entered == old(ring.entered) && ring.left == old(ring.left)
      ensures r.Fetched? ==>
        && old(ring.contents) == [old(ring.contents)[0]] + ring.contents
        && ring.entered == old(ring.entered) && ring.left == old(ring.left) + [old(ring.contents)[0]]
        && fresh(r.task) && RebuiltFrom(r.task.View(), old(ring.contents)[0])
        && old(clock.now) <= r.task.arrivalNs && r.task.lastExecutionNs <= clock.now
    {
      var o := ring.Dequeue(itemFails, mutexFails);
      match o {
        case Waits => return RingEmpty;
        case Throws(e) => return FetchThrew(e);
        case Done(s) =>
          var t := ConvertFromShared(s);
          if t.None? {
            return PriorityRejected;
          }
          return Fetched(t.value);
      }
    }

    /** The local vector of a drain that has taken `taken` out of `all`. */
    ghost predicate Drained(tasks: seq<Task>, values: seq<TaskValue>, taken: seq<SharedTask>, all: seq<SharedTask>, earliest: nat)
      reads ring, ring.tasks, clock, tasks
    {
      && Valid() && earliest <= clock.now
      && all == taken + ring.contents
      && Distinct(tasks) && Showing(tasks, values)
      && AllRebuilt(values, taken, earliest, clock.now)
    }

    /** One turn of the drain: the head joins the local vector as an object, or the dequeue throws. */
    method DrainOne(mayFail: bool, tasks: seq<Task>, ghost values: seq<TaskValue>, ghost taken: seq<SharedTask>,
                    ghost all: seq<SharedTask>, ghost earliest: nat)
      returns (r: Fetch, ghost value: TaskValue, ghost head: SharedTask)
      requires Drained(tasks, values, taken, all, earliest) && ring.contents != []
      modifies ring, clock
      ensures old(clock.now) <= clock.now
      ensures r.Fetched? || (r.FetchThrew? && mayFail)
      ensures r.Fetched? ==>
        && Drained(tasks + [r.task], values + [value], taken + [head], all, earliest)
        && fresh(r.task) && |ring.contents| < |old(ring.contents)|
        && ring.entered == old(ring.entered) && |ring.left| == old(|ring.left|) + 1
      ensures r.FetchThrew? ==>
        && Drained(tasks, values, taken, all, earliest)
        && ring.entered == old(ring.entered) && ring.left == old(ring.left)
    {
      hide SharedRing.Valid, AllRebuilt;
      var itemFails: bool :| itemFails ==> mayFail;
      var mutexFails: bool :| mutexFails ==> mayFail;
      head := ring.contents[0];
      r := GetNextTask(itemFails, mutexFails);
      if r.Fetched? {
        value := r.task.View();
        RebuiltAppend(values, taken, value, head, earliest, old(clock.now), clock.now);
        MoveHead(taken, old(ring.contents), ring.contents);
      } else {
        RebuiltLater(values, taken, earliest, old(clock.now), clock.now);
        value := Fresh(0, UNIX_TASK, "", 0, 0, 0);
      }
    }

    /** The pass's first loop: takes everything out, unless a dequeue throws. */
    method Drain(mayFail: bool) returns (o: Outcome<()>, tasks: seq<Task>, ghost values: seq<TaskValue>, ghost taken: seq<SharedTask>)
      requires Valid()
      modifies ring, clock
      ensures forall i :: 0 <= i < |tasks| ==> fresh(tasks[i])
      ensures o.Done? || (o.Throws? && mayFail)
      ensures Valid() && old(ring.contents) == taken + ring.contents && (o.Done? ==> ring.contents == [])
      ensures old(clock.now) <= clock.now
      ensures AllRebuilt(values, taken, old(clock.now), clock.now)
      ensures Distinct(tasks) && Showing(tasks, values) && |tasks| == |taken|
      ensures ring.entered == old(ring.entered) && |ring.left| == old(|ring.left|) + |tasks|
    {
      hide SharedRing.Valid;
      tasks, values, taken := [], [], [];
      ghost var all, earliest := ring.contents, clock.now;
      while true
        invariant Drained(tasks, values, taken, all, earliest)
        invariant forall i :: 0 <= i < |tasks| ==> fresh(tasks[i])
        invariant ring.entered == old(ring.entered) && |ring.left| == old(|ring.left|) + |tasks|
        decreases |ring.contents|
      {
        var empty := ring.Empty();
        if empty {
          return Done(()), tasks, values, taken;
        }
        ghost var value, head;
        var r;
        r, value, head := DrainOne(mayFail, tasks, values, taken, all, earliest);
        if r.FetchThrew? {
          return Throws(r.error), tasks, values, taken;
        }
        tasks, values, taken := tasks + [r.task], values + [value], taken + [head];
      }
    }

    /** Round Robin's update is empty; Priority Scheduling's adjusts the task. */
    method UpdateTaskPriority(task: Task, algorithm: Algorithm)
      requires task.lastExecutionNs <= clock.now
      modifies clock, task
      ensures old(clock.now) <= clock.now
      ensures UpdatedTo(algorithm, old(task.View()), task.View()) && task.lastExecutionNs <= clock.now
    {
      if algorithm.PriorityScheduling? {
        task.AdjustDynamicPriority(clock);
      }
    }

    /** One turn of the second loop. */
    method ReprioritiseOne(tasks: seq<Task>, i: nat, algorithm: Algorithm, ghost before: seq<TaskValue>, ghost after: seq<TaskValue>)
      returns (ghost value: TaskValue)
      requires Distinct(tasks) && PartShowing(tasks, before, after) && i == |after| < |tasks|
      requires AllUpdated(algorithm, before[..i], after, clock.now) && NotAfter(before, clock.now)
      modifies clock, tasks[i]
      ensures old(clock.now) <= clock.now && PartShowing(tasks, before, after + [value])
      ensures AllUpdated(algorithm, before[..i + 1], after + [value], clock.now)
    {
      ghost var latest := clock.now;
      UpdateTaskPriority(tasks[i], algorithm);
      value := tasks[i].View();
      UpdatedAppend(algorithm, before[..i], after, before[i], value, latest, clock.now);
      assert before[..i] + [before[i]] == before[..i + 1];
    }

    /** The second loop: the algorithm's update, task by task. */
    method Reprioritise(tasks: seq<Task>, algorithm: Algorithm, ghost before: seq<TaskValue>) returns (ghost after: seq<TaskValue>)
      requires Distinct(tasks) && Showing(tasks, before) && NotAfter(before, clock.now)
      modifies clock, tasks
      ensures old(clock.now) <= clock.now
      ensures Showing(tasks, after) && AllUpdated(algorithm, before, after, clock.now)
    {
      after := [];
      var i := 0;
      while i < |tasks|
        invariant i == |after| && old(clock.now) <= clock.now
        invariant PartShowing(tasks, before, after)
        invariant AllUpdated(algorithm, before[..i], after, clock.now)
      {
        ghost var value := ReprioritiseOne(tasks, i, algorithm, before, after);
        after := after + [value];
        i := i + 1;
      }
      assert before[..i] == before;
    }

    /** The ring and the records of a refill that has put `written` back. */
    ghost predicate Refilled(tasks: seq<Task>, values: seq<TaskValue>, writes: seq<Write>, written: seq<SharedTask>,
                             before: seq<SharedTask>, earliest: nat)
      reads ring, ring.tasks, clock, tasks
    {
      && Valid() && earliest <= clock.now
      && |writes| == |written| <= |tasks| && |before| + |tasks| <= ring.capacity
      && ring.contents == before + written
      && Showing(tasks, values) && Addable(values, earliest)
      && AllWritten(values[..|written|], writes, written, earliest, clock.now)
    }

    /** One turn of the refill; `s` is what it stored, if anything. */
    method RefillOne(mayFail: bool, tasks: seq<Task>, ghost values: seq<TaskValue>, ghost writes: seq<Write>,
                     ghost written: seq<SharedTask>, ghost before: seq<SharedTask>, ghost earliest: nat, i: nat)
      returns (o: Outcome<()>, ghost w: Write, ghost s: Option<SharedTask>)
      requires Refilled(tasks, values, writes, written, before, earliest) && i == |written| < |tasks|
      modifies ring, ring.tasks, clock
      ensures old(clock.now) <= clock.now
      ensures o.Done? || (o.Throws? && mayFail)
      ensures o.Done? ==> s.Some?
      ensures s.Some? ==>
        && Refilled(tasks, values, writes + [w], written + [s.value], before, earliest)
        && |ring.entered| == old(|ring.entered|) + 1
      ensures s.None? ==> Refilled(tasks, values, writes, written, before, earliest)
      ensures ring.left == old(ring.left)
    {
      hide SharedRing.Valid, AllWritten, ToShared;
      var slotFails: bool :| slotFails ==> mayFail;
      var mutexFails: bool :| mutexFails ==> mayFail;
      var printFails: bool :| printFails ==> mayFail;
      var task := tasks[i];
      assert task.View() == values[i] && values[..i] + [values[i]] == values[..i + 1];
      o, w := AddTask(task, slotFails, mutexFails, printFails);
      if !slotFails && !mutexFails {
        s := Some(ToShared(task.View(), w.atNs, w.unset));
        WrittenAppend(values[..i], writes, written, values[i], w, s.value, earliest, old(clock.now), clock.now);
      } else {
        s := None;
        WrittenLater(values[..i], writes, written, earliest, old(clock.now), clock.now);
      }
    }

    /** The third loop: puts everything back, in the same order, unless an enqueue or a print throws. */
    method Refill(mayFail: bool, tasks: seq<Task>, ghost values: seq<TaskValue>)
      returns (o: Outcome<()>, ghost writes: seq<Write>, ghost written: seq<SharedTask>)
      requires Valid() && |ring.contents| + |tasks| <= ring.capacity && Showing(tasks, values)
      requires Addable(values, clock.now)
      modifies ring, ring.tasks, clock
      ensures Refilled(tasks, values, writes, written, old(ring.contents), old(clock.now))
      ensures o.Done? || (o.Throws? && mayFail)
      ensures o.Done? ==> |written| == |tasks| && |ring.entered| == old(|ring.entered|) + |tasks|
      ensures ring.left == old(ring.left)
    {
      o, writes, written := Done(()), [], [];
      var i := 0;
      ghost var before, earliest := ring.contents, clock.now;
      hide SharedRing.Valid;
      while i < |tasks|
        invariant i == |written| && o.Done?
        invariant Refilled(tasks, values, writes, written, before, earliest)
        invariant |ring.entered| == old(|ring.entered|) + i && ring.left == old(ring.left)
      {
        ghost var w, s;
        o, w, s := RefillOne(mayFail, tasks, values, writes, written, before, earliest, i);
        if s.Some? {
          writes, written := writes + [w], written + [s.value];
        }
        if !o.Done? {
          return;
        }
        i := i + 1;
      }
    }

    /** The three loops, one after another. `filling` says whether the third one was reached. */
    method ThreeLoops(algorithm: Algorithm, mayFail: bool)
      returns (o: Outcome<()>, ghost filling: bool, ghost rebuilt: seq<TaskValue>, ghost updated: seq<TaskValue>,
               ghost writes: seq<Write>, ghost drainedNs: nat, ghost updatedNs: nat)
      requires Valid() && |ring.contents| <= ring.capacity
      modifies ring, ring.tasks, clock
      ensures Valid() && old(clock.now) <= clock.now
      ensures o.Done? || (o.Throws? && mayFail)
      ensures o.Done? ==> filling && |writes| == |rebuilt|
      ensures !filling ==> |rebuilt| <= |old(ring.contents)| && ring.contents == old(ring.contents)[|rebuilt|..]
      ensures filling ==>
        && old(clock.now) <= drainedNs <= updatedNs <= clock.now
        && AllRebuilt(rebuilt, old(ring.contents), old(clock.now), drainedNs)
        && AllUpdated(algorithm, rebuilt, updated, updatedNs)
        && |writes| <= |rebuilt| == |updated| == |old(ring.contents)|
        && AllWritten(updated[..|writes|], writes, ring.contents, updatedNs, clock.now)
      ensures o.Done? ==> |ring.entered| == old(|ring.entered|) + |rebuilt| && |ring.left| == old(|ring.left|) + |rebuilt|
    {
      hide SharedRing.Valid, AllRebuilt, AllUpdated, AllWritten;
      ghost var all := ring.contents;
      var tasks;
      ghost var taken, written;
      o, tasks, rebuilt, taken := Drain(mayFail);
      drainedNs, updatedNs, filling, writes, updated := clock.now, clock.now, o.Done?, [], [];
      if o.Throws? {
        assert (taken + ring.contents)[|taken|..] == ring.contents;
        return;
      }
      assert taken == all;
      RebuiltNotAfter(rebuilt, all, old(clock.now), drainedNs);
      updated := Reprioritise(tasks, algorithm, rebuilt);
      updatedNs := clock.now;
      UpdatedAddable(algorithm, rebuilt, updated, all, old(clock.now), drainedNs, updatedNs);
      o, writes, written := Refill(mayFail, tasks, updated);
      assert [] + written == written;
    }

    /** A reorder pass with nobody else in the ring. It ends at every fill level and never waits, and without
        failing waits every task makes one trip, in place. `lost` counts the tasks an exception drops with the
        local vector: in the first loop those already taken out, the rest being untouched; in the third those
        not yet put back, the others having made their trip. */
    method ReorderTasks(algorithm: Algorithm, mayFail: bool) returns (o: Outcome<()>, ghost trips: seq<Trip>, ghost filling: bool, ghost lost: nat)
      requires Valid()
      modifies ring, ring.tasks, clock
      ensures Valid() && old(clock.now) <= clock.now
      ensures o.Done? || (o.Throws? && mayFail)
      ensures |ring.contents| + lost == |old(ring.contents)|
      ensures !filling ==> o.Throws? && ring.contents == old(ring.contents)[lost..]
      ensures filling ==>
        && |trips| == |ring.contents| && AllOrdered(trips)
        && AllInRange(old(ring.contents)[..|trips|])
        && ring.contents == CarryAll(Some(algorithm), old(ring.contents)[..|trips|], trips)
        && forall i :: 0 <= i < |trips| ==> old(clock.now) <= trips[i].createdNs && trips[i].addedNs <= clock.now
      ensures o.Done? ==>
        && filling && lost == 0
        && ring.contents == CarryAll(Some(algorithm), old(ring.contents), trips)
        && ring.front == (old(ring.front) + |trips|) % ring.capacity
        && ring.rear == (old(ring.rear) + |trips|) % ring.capacity
    {
      hide SharedRing.Valid, AllRebuilt, AllUpdated, AllWritten;
      ring.ValidMeans();
      ghost var rebuilt, updated, writes, drainedNs, updatedNs;
      ghost var all := ring.contents;
      o, filling, rebuilt, updated, writes, drainedNs, updatedNs := ThreeLoops(algorithm, mayFail);
      lost, trips := |rebuilt|, [];
      if filling {
        trips := PrefixCarries(algorithm, all, rebuilt, updated, writes, ring.contents,
                               old(clock.now), drainedNs, updatedNs, clock.now);
        lost := |all| - |trips|;
      }
      if o.Done? {
        assert all[..|trips|] == all;
        ring.ValidMeans();
        IndexAdvances(old(|ring.left|), |trips|, ring.capacity);
        IndexAdvances(old(|ring.entered|), |trips|, ring.capacity);
      }
    }
  }

  /** The tasks written so far have been carried, each on its own. */
  lemma PrefixCarries(algorithm: Algorithm, before: seq<SharedTask>, vs: seq<TaskValue>, vs': seq<TaskValue>,
                      ws: seq<Write>, after: seq<SharedTask>, t0: nat, t1: nat, t2: nat, t3: nat) returns (trips: seq<Trip>)
    requires AllInRange(before) && |ws| <= |vs| == |vs'| == |before|
    requires AllRebuilt(vs, before, t0, t1) && AllUpdated(algorithm, vs, vs', t2)
    requires AllWritten(vs'[..|ws|], ws, after, t2, t3)
    ensures |trips| == |ws| == |after| && AllOrdered(trips)
    ensures forall i :: 0 <= i < |trips| ==> t0 <= trips[i].createdNs && trips[i].addedNs <= t3
    ensures AllInRange(before[..|trips|]) && after == CarryAll(Some(algorithm), before[..|trips|], trips)
  {
    var k := |ws|;
    RebuiltTake(vs, before, t0, t1, k);
    UpdatedTake(algorithm, vs, vs', t2, k);
    hide AllRebuilt, AllUpdated, AllWritten;
    PassCarries(algorithm, before[..k], vs[..k], vs'[..k], ws, after, t0, t1, t2, t3);
    trips := TripsOf(vs[..k], vs'[..k], ws);
  }
}
