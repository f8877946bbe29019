/** The mutable task object and the clock it reads. */
module Tasks {
  import opened SharedTasks
  import opened Priority
  import opened Conversion
  import opened Execution

  /** A steady clock: each reading is at or after the one before. */
  class Clock {
    var now: nat

    constructor (start: nat)
      ensures now == start
    {
      now := start;
    }

    method Read() returns (t: nat)
      modifies this
      ensures old(now) <= t == now
    {
      var d: nat :| true;
      now := now + d;
      return now;
    }

    /** `sleep_for` returns no earlier than asked. */
    method Sleep(ms: nat)
      modifies this
      ensures now >= old(now) + ms * 1_000_000
    {
      var d: nat :| true;
      now := now + ms * NS_PER_MS + d;
    }
  }

  class Task {
    const id: int
    const kind: TaskType
    var description: string
    var arrivalNs: nat
    var staticPriority: int
    var dynamicPriority: int
    var state: RunState
    var completed: bool
    var lastExecutionNs: nat
    var cpuUsage: real
    var totalWorkMs: int
    var remainingWorkMs: int
    var operationsRemaining: int

    function View(): TaskValue
      reads this
    {
      TaskValue(id, kind, description, arrivalNs, staticPriority, dynamicPriority, state, completed,
                lastExecutionNs, cpuUsage, totalWorkMs, remainingWorkMs, operationsRemaining)
    }

    constructor (v: TaskValue)
      ensures View() == v
    {
      id, kind, description, arrivalNs := v.id, v.kind, v.description, v.arrivalNs;
      staticPriority, dynamicPriority := v.staticPriority, v.dynamicPriority;
      state, completed := v.state, v.completed;
      lastExecutionNs, cpuUsage := v.lastExecutionNs, v.cpuUsage;
      totalWorkMs, remainingWorkMs := v.totalWorkMs, v.remainingWorkMs;
      operationsRemaining := v.operationsRemaining;
    }

    method AdjustDynamicPriority(clock: Clock)
      modifies this, clock
      ensures old(clock.now) <= clock.now && View() == Adjust(old(View()), clock.now)
      ensures InRange(dynamicPriority)
    {
      var now := clock.Read();
      var starvation := Starvation(now - lastExecutionNs);
      dynamicPriority := Dynamic(staticPriority, cpuUsage, starvation, kind.IO_BOUND_TASK?);
      lastExecutionNs := now;
      cpuUsage := 0.0;
    }

    /** False is the thrown `invalid_argument`: the static value is overwritten all the same, the
        dynamic one, which is what gets stored in the ring, is not. */
    method SetStaticPriority(niceValue: int, clock: Clock) returns (ok: bool)
      modifies this, clock
      ensures ok <==> -20 <= niceValue <= 19
      ensures staticPriority == niceValue && (!ok ==> dynamicPriority == old(dynamicPriority))
      ensures old(clock.now) <= clock.now
      ensures View() == SetStatic(old(View()), niceValue, clock.now)
      ensures old(InRange(dynamicPriority)) ==> InRange(dynamicPriority)
    {
      staticPriority := niceValue;
      if staticPriority < -20 || staticPriority > 19 {
        return false;
      }
      AdjustDynamicPriority(clock);
      return true;
    }

    method SetRunState(s: RunState)
      modifies this
      ensures state == s && completed == (old(completed) || s == COMPLETED)
      ensures View() == SetState(old(View()), s)
    {
      if s.COMPLETED? {
        completed := true;
      }
      state := s;
    }

    /** One CPU slice: the whole time since its start comes off the remaining work. */
    method ExecuteCpu(quantumMs: int, clock: Clock) returns (done: bool, ghost slice: Slice)
      requires kind.CPU_INTENSIVE_TASK?
      modifies this, clock
      ensures slice.CpuSlice? && SliceFits(quantumMs, CPU_INTENSIVE_TASK, slice)
      ensures old(clock.now) <= slice.startNs && slice.endNs == clock.now
      ensures done == Completes(quantumMs, old(remainingWorkMs), slice)
      ensures View() == AfterSlice(old(View()), quantumMs, slice)
    {
      hide LoopLimit, Usage, SliceFits;
      SetRunState(RUNNING);
      var start := clock.Read();
      ghost var readings: seq<nat> := [];
      var i := 0;
      while i < LoopLimit(quantumMs)
        invariant start <= clock.now && |readings| == i <= LoopLimit(quantumMs)
        invariant View() == SetState(old(View()), RUNNING)
        invariant forall k :: 0 <= k < i ==> start <= readings[k] <= clock.now && !Expired(quantumMs, start, readings[k])
        invariant forall j, k :: 0 <= j < k < i ==> readings[j] <= readings[k]
      {
        var current := clock.Read();
        readings := readings + [current];
        if current - start >= quantumMs * NS_PER_MS {
          slice := CpuSlice(start, readings, current);
          CpuSliceFits(quantumMs, slice);
          remainingWorkMs := remainingWorkMs - (current - start) / NS_PER_MS;
          cpuUsage := Usage(1.0, current - start, quantumMs);
          SetRunState(READY);
          return false, slice;
        }
        i := i + 1;
      }
      var end := clock.Read();
      slice := CpuSlice(start, readings, end);
      CpuSliceFits(quantumMs, slice);
      remainingWorkMs := remainingWorkMs - (end - start) / NS_PER_MS;
      cpuUsage := Usage(1.0, end - start, quantumMs);
      done := remainingWorkMs <= 0;
      SetRunState(if done then COMPLETED else READY);
    }

    /** One I/O slice; `opens` says whether the output file can be opened. */
    method ExecuteIo(quantumMs: int, opens: bool, clock: Clock) returns (done: bool, ghost slice: Slice)
      requires kind.IO_BOUND_TASK?
      modifies this, clock
      ensures slice == IoSlice(opens, slice.startNs, clock.now) && SliceFits(quantumMs, IO_BOUND_TASK, slice)
      ensures old(clock.now) <= slice.startNs
      ensures done == Completes(quantumMs, old(operationsRemaining), slice)
      ensures View() == AfterSlice(old(View()), quantumMs, slice)
    {
      SetRunState(RUNNING);
      var start := clock.Read();
      slice := IoSlice(opens, start, start);
      if !opens {
        SetRunState(COMPLETED);
        return true, slice;
      }
      var half := if quantumMs >= 0 then quantumMs / 2 else 0 - (0 - quantumMs) / 2;
      var end := start + half * NS_PER_MS;
      var now := clock.Read();
      while now < end
        invariant start <= now <= clock.now
        invariant View() == SetState(old(View()), RUNNING)
        decreases end - now
      {
        clock.Sleep(1);
        now := clock.Read();
      }
      now := clock.Read();
      slice := IoSlice(opens, start, now);
      operationsRemaining := operationsRemaining - 1;
      cpuUsage := Usage(0.3, now - start, quantumMs);
      done := operationsRemaining <= 0;
      SetRunState(if done then COMPLETED else READY);
    }

    /** Dispatch on the class. None is the base class's exception, Some whether the slice reported completion. */
    method Execute(quantumMs: int, opens: bool, clock: Clock) returns (r: Option<bool>, ghost slice: Slice)
      modifies this, clock
      ensures old(clock.now) <= clock.now
      ensures r.None? <==> kind.UNIX_TASK?
      ensures r.None? ==> View() == old(View())
      ensures r.Some? ==>
        && SliceFits(quantumMs, kind, slice) && old(clock.now) <= slice.startNs && slice.endNs == clock.now
        && r.value == Completes(quantumMs, WorkLeft(old(View())), slice)
        && View() == AfterSlice(old(View()), quantumMs, slice)
      ensures r.Some? && slice.IoSlice? ==> slice.fileOpens == opens
    {
      slice := IoSlice(opens, clock.now, clock.now);
      match kind {
        case UNIX_TASK => r := None;
        case CPU_INTENSIVE_TASK =>
          var done;
          done, slice := ExecuteCpu(quantumMs, clock);
          r := Some(done);
        case IO_BOUND_TASK =>
          var done;
          done, slice := ExecuteIo(quantumMs, opens, clock);
          r := Some(done);
      }
    }
  }

  /** The constructor of a plain task: None is the thrown priority validation. */
  method NewUnixTask(id: int, description: string, staticPriority: int, clock: Clock) returns (r: Option<Task>)
    modifies clock
    ensures old(clock.now) <= clock.now
    ensures r.Some? <==> -20 <= staticPriority <= 19
    ensures r.Some? ==>
      && fresh(r.value) && InRange(r.value.dynamicPriority)
      && r.value.View() == Fresh(id, UNIX_TASK, description, staticPriority, clock.now, 0)
      && r.value.View() == TaskValue(id, UNIX_TASK, description, clock.now, staticPriority, staticPriority, READY, false,
                                     0, 0.0, 0, 0, 0)
  {
    var now := clock.Read();
    if !InRange(staticPriority) {
      return None;
    }
    var t := new Task(Fresh(id, UNIX_TASK, description, staticPriority, now, 0));
    return Some(t);
  }
}
