/** The processor thread's loop, with nobody else in the ring during an iteration. */
module Processor {
  import opened SharedTasks
  import opened Priority
  import opened Conversion
  import opened Transit
  import opened Tasks
  import opened SharedMemory
  import opened QueueManager
  import opened Execution
  import opened Pipeline

  /** Executing a task changes nothing that the shared record takes from it, while it stays incomplete. */
  lemma ExecutionInvisible(v: TaskValue, v': TaskValue, nowNs: nat, unset: Unset)
    requires v' == v.(cpuUsage := v'.cpuUsage, state := v'.state, completed := v.completed,
      remainingWorkMs := v'.remainingWorkMs, operationsRemaining := v'.operationsRemaining)
    requires v.arrivalNs <= nowNs
    ensures ToShared(v', nowNs, unset) == ToShared(v, nowNs, unset)
  {
  }

  /** How the task in the processor's hands was executed: it threw, it was given its total time, which is less
      than a quantum, or it was given the whole quantum. */
  datatype Handled = Failed | Short(givenMs: int, slice: Slice) | Whole(slice: Slice)

  function LetGo(quantumMs: int, left: int, handled: Handled): Fate {
    match handled
    case Failed => Threw
    case Short(givenMs, slice) => UnderQuantum(givenMs, slice)
    case Whole(slice) => if Completes(quantumMs, left, slice) then Finished(slice) else Stopped(slice)
  }

  /** How a task was handled agrees with its record. */
  predicate HandledAs(quantumMs: int, t: SharedTask, handled: Handled) {
    && (handled.Failed? <==> t.kind.UNIX_TASK?)
    && (t.kind.CPU_INTENSIVE_TASK? ==> (handled.Short? <==> t.remainingMs < quantumMs))
    && (handled.Short? ==>
          && handled.givenMs < quantumMs && (t.kind.CPU_INTENSIVE_TASK? ==> handled.givenMs == t.remainingMs)
          && SliceFits(handled.givenMs, t.kind, handled.slice))
    && (handled.Whole? ==> SliceFits(quantumMs, t.kind, handled.slice))
  }

  lemma LetGoFits(quantumMs: int, t: SharedTask, handled: Handled, running: bool)
    requires HandledAs(quantumMs, t, handled)
    requires handled.Whole? && running ==> Completes(quantumMs, t.remainingMs, handled.slice)
    ensures var fate := LetGo(quantumMs, t.remainingMs, handled);
      FateFits(quantumMs, t, fate) && !fate.Requeued? && !fate.Dropped? && (fate.Stopped? ==> !running)
  {
    hide SliceFits, Completes;
  }

  lemma BackFits(quantumMs: int, t: SharedTask, slice: Slice, trip: Trip)
    requires HandledAs(quantumMs, t, Whole(slice)) && !Completes(quantumMs, t.remainingMs, slice)
    requires Ordered(trip) && trip.adjustedNs <= slice.startNs && slice.endNs <= trip.addedNs
    ensures FateFits(quantumMs, t, Requeued(slice, trip)) && FateFits(quantumMs, t, Dropped(slice))
  {
    hide SliceFits, Completes;
  }

  /** A slice leaves alone what a record takes from a task, but for completion. */
  lemma SliceLeaves(v: TaskValue, quantumMs: int, handled: Handled)
    requires !handled.Failed? && handled.slice.startNs <= handled.slice.endNs
    ensures var givenMs := if handled.Short? then handled.givenMs else quantumMs;
      var w := AfterSlice(v, givenMs, handled.slice);
      && w == v.(cpuUsage := w.cpuUsage, state := w.state, completed := w.completed,
                 remainingWorkMs := w.remainingWorkMs, operationsRemaining := w.operationsRemaining)
      && (!Completes(givenMs, WorkLeft(v), handled.slice) ==> w.completed == v.completed)
  {
    hide Completes, Usage, WorkedMs;
  }

  /** The task was executed between these clock readings. */
  predicate SliceWithin(fate: Fate, fromNs: nat, toNs: nat) {
    SliceOf(fate).Some? ==> fromNs <= SliceOf(fate).value.startNs && SliceOf(fate).value.endNs <= toNs
  }

  class TaskProcessor {
    const manager: TaskQueueManager
    var timeQuantumMs: int
    var running: bool

    constructor (manager: TaskQueueManager, timeQuantumMs: int)
      ensures this.manager == manager && this.timeQuantumMs == timeQuantumMs && !running
    {
      this.manager := manager;
      this.timeQuantumMs := timeQuantumMs;
      running := false;
    }

    /** `get_total_time`: what is returned for a task that is not CPU-bound is not defined. */
    method TotalTime(task: Task) returns (ms: int)
      ensures task.kind.CPU_INTENSIVE_TASK? ==> ms == task.totalWorkMs
    {
      if task.kind.CPU_INTENSIVE_TASK? {
        return task.totalWorkMs;
      }
      ms :| true;
    }

    /** What the processor does with the task in its hands. `opens` says whether an I/O-bound task can open
        its file, `stops` whether `stop` arrives during the slice. Every task but a plain one is executed, for
        its total time if that is under the quantum and else for the quantum; it goes back exactly when it was
        given the whole quantum, its slice did not report completion, and the processor is still running. */
    method Handle(task: Task, opens: bool, stops: bool) returns (back: bool, ghost handled: Handled)
      requires running
      modifies this`running, task, manager.clock
      ensures old(manager.clock.now) <= manager.clock.now
      ensures handled.Failed? <==> task.kind.UNIX_TASK?
      ensures handled.Failed? ==> task.View() == old(task.View())
      ensures task.kind.CPU_INTENSIVE_TASK? ==> (handled.Short? <==> task.totalWorkMs < timeQuantumMs)
      ensures handled.Short? ==>
        handled.givenMs < timeQuantumMs && (task.kind.CPU_INTENSIVE_TASK? ==> handled.givenMs == old(task.totalWorkMs))
      ensures !handled.Failed? ==>
        var givenMs := if handled.Short? then handled.givenMs else timeQuantumMs;
        && SliceFits(givenMs, task.kind, handled.slice)
        && old(manager.clock.now) <= handled.slice.startNs && handled.slice.endNs == manager.clock.now
        && task.View() == AfterSlice(old(task.View()), givenMs, handled.slice)
      ensures !handled.Failed? && task.kind.IO_BOUND_TASK? ==> handled.slice.fileOpens == opens
      ensures back <==> running && handled.Whole? && !Completes(timeQuantumMs, old(WorkLeft(task.View())), handled.slice)
      ensures running == !stops
    {
      var total := TotalTime(task);
      var r;
      ghost var slice;
      if total < timeQuantumMs {
        r, slice := task.Execute(total, opens, manager.clock);
        handled := if r.None? then Failed else Short(total, slice);
        back := false;
      } else {
        r, slice := task.Execute(timeQuantumMs, opens, manager.clock);
        handled := if r.None? then Failed else Whole(slice);
        back := r == Some(false) && !stops;
      }
      if stops {
        running := false;
      }
    }

    /** One turn of the loop, entered while running; `mayFail` says whether waits may fail. None is a turn
        that changed nothing: it found the ring empty and slept, or its dequeue threw. Otherwise the head of
        the queue met its fate. */
    method ProcessOne(opens: bool, stops: bool, mayFail: bool) returns (ghost fate: Option<Fate>)
      requires manager.Valid() && running
      modifies this`running, manager.ring, manager.ring.tasks, manager.clock
      ensures manager.Valid() && old(manager.clock.now) <= manager.clock.now
      ensures old(manager.ring.contents) == [] ==> fate.None?
      ensures fate.None? ==> manager.ring.contents == old(manager.ring.contents)
      ensures !mayFail ==> (fate.None? <==> old(manager.ring.contents) == [])
      ensures old(manager.ring.contents) == [] ==> manager.clock.now - old(manager.clock.now) >= 100_000_000
      ensures fate.Some? ==>
        && Step(manager.ring.capacity, timeQuantumMs, old(manager.ring.contents), Dispatch(fate.value), manager.ring.contents)
        && (fate.value.Stopped? ==> !running)
        && (fate.value.Dropped? ==> mayFail && running)
        && SliceWithin(fate.value, old(manager.clock.now), manager.clock.now)
        && (fate.value.Requeued? ==>
              && running
              && old(manager.clock.now) <= fate.value.trip.createdNs
              && fate.value.trip.addedNs <= manager.clock.now)
      ensures running == !stops
    {
      hide SharedRing.Valid;
      manager.ring.ValidMeans();
      ghost var q := manager.ring.contents;
      var n := manager.TaskCount();
      if n == 0 {
        manager.clock.Sleep(100);
        if stops {
          running := false;
        }
        return None;
      }
      var itemFails: bool :| itemFails ==> mayFail;
      var mutexFails: bool :| mutexFails ==> mayFail;
      var r := manager.GetNextTask(itemFails, mutexFails);
      if r.FetchThrew? {
        if stops {
          running := false;
        }
        return None;
      }
      fate := Finish(r.task, q, opens, stops, mayFail);
    }

    method Finish(task: Task, ghost q: seq<SharedTask>, opens: bool, stops: bool, mayFail: bool) returns (ghost fate: Option<Fate>)
      requires manager.Valid() && running
      requires q != [] && q == [q[0]] + manager.ring.contents && |q| <= manager.ring.capacity
      requires RebuiltFrom(task.View(), q[0]) && task.lastExecutionNs <= manager.clock.now
      modifies this`running, task, manager.ring, manager.ring.tasks, manager.clock
      ensures manager.Valid() && old(manager.clock.now) <= manager.clock.now
      ensures fate.Some?
      ensures Step(manager.ring.capacity, timeQuantumMs, q, Dispatch(fate.value), manager.ring.contents)
      ensures fate.value.Requeued? ==>
        && fate.value.trip.createdNs == old(task.arrivalNs)
        && fate.value.trip.addedNs <= manager.clock.now
        && running
      ensures fate.value.Stopped? ==> !running
      ensures fate.value.Dropped? ==> mayFail && running
      ensures SliceWithin(fate.value, old(manager.clock.now), manager.clock.now)
      ensures running == !stops
    {
      ghost var v := task.View();
      var back;
      ghost var handled;
      back, handled := Handle(task, opens, stops);
      assert v.kind == q[0].kind && q[1..] == manager.ring.contents;
      assert !v.kind.UNIX_TASK? ==> WorkLeft(v) == q[0].remainingMs;
      assert v.kind.CPU_INTENSIVE_TASK? ==> v.totalWorkMs == q[0].remainingMs;
      if !handled.Failed? {
        SliceLeaves(v, timeQuantumMs, handled);
      }
      hide SliceFits, Completes, FateFits, Carry, SharedRing.Valid, AfterSlice;
      if !back {
        LetGoFits(timeQuantumMs, q[0], handled, running);
        fate := Some(LetGo(timeQuantumMs, q[0].remainingMs, handled));
        return;
      }
      ghost var stored, trip := PutBack(task, v, q[0], mayFail);
      BackFits(timeQuantumMs, q[0], handled.slice, trip);
      fate := Some(if stored then Requeued(handled.slice, trip) else Dropped(handled.slice));
    }

    /** `v` is the task as it came out of the record `a`; it goes back as one trip of that record, unless the
        enqueue throws. A print that throws finds it already stored. */
    method PutBack(task: Task, ghost v: TaskValue, ghost a: SharedTask, mayFail: bool) returns (ghost stored: bool, ghost trip: Trip)
      requires manager.Valid() && |manager.ring.contents| < manager.ring.capacity
      requires RebuiltFrom(v, a) && InRange(a.priority) && v.lastExecutionNs <= manager.clock.now
      requires task.View() == v.(cpuUsage := task.cpuUsage, state := task.state, completed := v.completed,
        remainingWorkMs := task.remainingWorkMs, operationsRemaining := task.operationsRemaining)
      modifies manager.ring, manager.ring.tasks, manager.clock
      ensures manager.Valid()
      ensures Ordered(trip) && trip.createdNs == v.arrivalNs
      ensures trip.adjustedNs == v.lastExecutionNs && old(manager.clock.now) <= trip.addedNs <= manager.clock.now
      ensures !mayFail ==> stored
      ensures manager.ring.contents == old(manager.ring.contents) + if stored then [Carry(None, a, trip)] else []
    {
      hide SharedRing.Valid;
      var slotFails: bool :| slotFails ==> mayFail;
      var mutexFails: bool :| mutexFails ==> mayFail;
      var printFails: bool :| printFails ==> mayFail;
      ghost var w;
      var o;
      o, w := manager.AddTask(task, slotFails, mutexFails, printFails);
      stored := !slotFails && !mutexFails;
      ExecutionInvisible(v, task.View(), w.atNs, w.unset);
      trip := Trip(v.arrivalNs, v.lastExecutionNs, v.lastExecutionNs, w.atNs, w.unset);
    }

    /** One turn, added to the log of the loop. */
    method LoggedTurn(turn: nat, mayFail: bool, ghost all: seq<SharedTask>, ghost queues: seq<seq<SharedTask>>, ghost events: seq<Event>)
      returns (ghost queues': seq<seq<SharedTask>>, ghost events': seq<Event>)
      requires manager.Valid() && running
      requires Logged(manager.ring.capacity, timeQuantumMs, mayFail, all, queues, events, manager.ring.contents, turn, true)
      modifies this`running, manager.ring, manager.ring.tasks, manager.clock
      ensures manager.Valid()
      ensures Logged(manager.ring.capacity, timeQuantumMs, mayFail, all, queues', events', manager.ring.contents, turn + 1, running)
    {
      hide SharedRing.Valid, Step, Logged;
      var opens: bool :| true;
      var stops: bool :| true;
      ghost var before := manager.ring.contents;
      ghost var fate := ProcessOne(opens, stops, mayFail);
      LogTurn(manager.ring.capacity, timeQuantumMs, mayFail, all, queues, events, before, fate, manager.ring.contents, turn, running);
      queues', events' := queues, events;
      if fate.Some? {
        queues', events' := queues + [manager.ring.contents], events + [Dispatch(fate.value)];
      }
    }

    /** The loop from `start` on, for at most `turns` turns; `stop` may arrive in any of them, and waits may
        fail if `mayFail`. What it did is a run of dispatches. With every unfinished slice leaving through the
        timeout, as many dispatches as a queue of CPU tasks has slices empty the ring; and left running for as
        many turns without failing waits, it makes them or has emptied it before. */
    method ProcessTasks(turns: nat, mayFail: bool) returns (ghost queues: seq<seq<SharedTask>>, ghost events: seq<Event>)
      requires manager.Valid()
      modifies this`running, manager.ring, manager.ring.tasks, manager.clock
      ensures manager.Valid()
      ensures Run(manager.ring.capacity, timeQuantumMs, queues, events)
      ensures queues[0] == old(manager.ring.contents) && queues[|events|] == manager.ring.contents
      ensures Dispatches(events) == |events| <= turns
      ensures !mayFail && running && |events| < turns ==> manager.ring.contents == []
      ensures forall n :: 0 <= n < |events| ==>
        && events[n].Dispatch?
        && (events[n].fate.Stopped? ==> n == |events| - 1 && !running)
        && (events[n].fate.Dropped? ==> mayFail)
      ensures
        (timeQuantumMs > 0 && AllCpuWork(old(manager.ring.contents))
         && (forall n :: 0 <= n < |events| ==> Steady(timeQuantumMs, events[n]))
         && (|events| >= Budget(old(manager.ring.contents), timeQuantumMs) ||
             (!mayFail && running && turns >= Budget(old(manager.ring.contents), timeQuantumMs))))
        ==> manager.ring.contents == []
    {
      hide *;
      running := true;
      ghost var all := manager.ring.contents;
      queues, events := [all], [];
      LogStarts(manager.ring.capacity, timeQuantumMs, mayFail, all);
      var turn := 0;
      while running && turn < turns
        invariant manager.Valid() && turn <= turns
        invariant Logged(manager.ring.capacity, timeQuantumMs, mayFail, all, queues, events, manager.ring.contents, turn, running)
      {
        queues, events := LoggedTurn(turn, mayFail, all, queues, events);
        turn := turn + 1;
      }
      LogSays(manager.ring.capacity, timeQuantumMs, mayFail, all, queues, events, manager.ring.contents, turn, running);
    }
  }

  /** What the loop has done in `turn` turns, from the queue `all` to the queue `now`. */
  ghost predicate Logged(capacity: nat, quantumMs: int, mayFail: bool, all: seq<SharedTask>, queues: seq<seq<SharedTask>>,
                         events: seq<Event>, now: seq<SharedTask>, turn: nat, running: bool)
  {
    && Run(capacity, quantumMs, queues, events)
    && queues[0] == all && queues[|events|] == now
    && Dispatches(events) == |events| <= turn
    && (!mayFail && |events| < turn ==> now == [])
    && forall n :: 0 <= n < |events| ==>
      && events[n].Dispatch?
      && (events[n].fate.Stopped? ==> n == |events| - 1 && !running)
      && (events[n].fate.Dropped? ==> mayFail)
  }

  lemma LogStarts(capacity: nat, quantumMs: int, mayFail: bool, all: seq<SharedTask>)
    ensures Logged(capacity, quantumMs, mayFail, all, [all], [], all, 0, true)
  {
  }

  lemma LogTurn(capacity: nat, quantumMs: int, mayFail: bool, all: seq<SharedTask>, queues: seq<seq<SharedTask>>,
                events: seq<Event>, now: seq<SharedTask>, fate: Option<Fate>, next: seq<SharedTask>, turn: nat, running: bool)
    requires Logged(capacity, quantumMs, mayFail, all, queues, events, now, turn, true)
    requires fate.None? ==> now == next && (!mayFail ==> now == [])
    requires fate.Some? ==> now != [] && Step(capacity, quantumMs, now, Dispatch(fate.value), next)
    requires fate.Some? ==> (fate.value.Stopped? ==> !running) && (fate.value.Dropped? ==> mayFail)
    ensures fate.None? ==> Logged(capacity, quantumMs, mayFail, all, queues, events, next, turn + 1, running)
    ensures fate.Some? ==>
      Logged(capacity, quantumMs, mayFail, all, queues + [next], events + [Dispatch(fate.value)], next, turn + 1, running)
  {
    hide Step;
    if fate.Some? {
      RunExtends(capacity, quantumMs, queues, events, Dispatch(fate.value), next);
      assert (events + [Dispatch(fate.value)])[..|events|] == events;
    }
  }

  lemma LogSays(capacity: nat, quantumMs: int, mayFail: bool, all: seq<SharedTask>, queues: seq<seq<SharedTask>>,
                events: seq<Event>, now: seq<SharedTask>, turn: nat, running: bool)
    requires Logged(capacity, quantumMs, mayFail, all, queues, events, now, turn, running)
    ensures Run(capacity, quantumMs, queues, events)
    ensures queues[0] == all && queues[|events|] == now
    ensures Dispatches(events) == |events| <= turn
    ensures !mayFail && |events| < turn ==> now == []
    ensures forall n :: 0 <= n < |events| ==>
      && events[n].Dispatch?
      && (events[n].fate.Stopped? ==> n == |events| - 1 && !running)
      && (events[n].fate.Dropped? ==> mayFail)
    ensures
      (quantumMs > 0 && AllCpuWork(all) && (forall n :: 0 <= n < |events| ==> Steady(quantumMs, events[n]))
       && (|events| >= Budget(all, quantumMs) || (!mayFail && turn >= Budget(all, quantumMs))))
      ==> now == []
  {
    hide Step, Steady;
    if quantumMs > 0 && AllCpuWork(all) && forall n :: 0 <= n < |events| ==> Steady(quantumMs, events[n]) {
      DispatchingEnds(capacity, quantumMs, queues, events);
    }
  }
}
