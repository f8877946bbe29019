/** One slice of execution, as the clock readings or the file outcome that decide how it ends. */
module Execution {
  import opened SharedTasks
  import opened Conversion
  import RingProtocol

  function TruncatedTenth(x: int): int { if x >= 0 then x / 10 else 0 - (0 - x) / 10 }

  /** The loop limit of a CPU slice, as an unsigned 64-bit value. */
  function LoopLimit(quantumMs: int): nat { 500000 * TruncatedTenth(quantumMs) % RingProtocol.SIZE_T_MOD }

  /** Nanoseconds over milliseconds, capped; a zero quantum divides to infinity or NaN, and `min` then
      yields the cap. */
  function Usage(cap: real, workNs: nat, quantumMs: int): real {
    if quantumMs == 0 then cap else
    var u := workNs as real / quantumMs as real;
    if u < cap then u else cap
  }

  /** The two units do not match: the cap is reached as soon as the slice has run as many nanoseconds as
      the quantum has milliseconds, times the cap. */
  lemma UsageCappedIff(cap: real, workNs: nat, quantumMs: int)
    requires quantumMs > 0
    ensures Usage(cap, workNs, quantumMs) == cap <==> workNs as real >= cap * quantumMs as real
    ensures cap <= 1.0 && workNs >= quantumMs ==> Usage(cap, workNs, quantumMs) == cap
  {
    var u := workNs as real / quantumMs as real;
    assert workNs as real == u * quantumMs as real;
    if u >= cap {
      assert (u - cap) * quantumMs as real >= 0.0;
    } else {
      assert (cap - u) * quantumMs as real > 0.0;
    }
    if cap <= 1.0 {
      assert (1.0 - cap) * quantumMs as real >= 0.0;
    }
  }

  /** What a task has left before a slice: work for a CPU task, operations for an I/O-bound one. */
  function WorkLeft(v: TaskValue): int { if v.kind.CPU_INTENSIVE_TASK? then v.remainingWorkMs else v.operationsRemaining }

  /** A CPU slice reads the clock at its start, once in each turn of its loop, and at its end; of an I/O slice
      only the first and last readings matter. */
  datatype Slice =
    | CpuSlice(startNs: nat, readings: seq<nat>, endNs: nat)
    | IoSlice(fileOpens: bool, startNs: nat, endNs: nat)

  predicate Expired(quantumMs: int, startNs: nat, nowNs: nat) { nowNs - startNs >= quantumMs * NS_PER_MS }

  /** The loop's last turn saw the quantum used up. */
  predicate TimedOut(quantumMs: int, s: Slice) {
    s.CpuSlice? && s.readings != [] && Expired(quantumMs, s.startNs, s.readings[|s.readings| - 1])
  }

  /** The loop leaves at the first reading that shows the quantum used up, else at its limit. */
  predicate SliceFits(quantumMs: int, kind: TaskType, s: Slice) {
    match s
    case IoSlice(fileOpens, start, end) =>
      kind.IO_BOUND_TASK? && start <= end && (fileOpens ==> 2 * (end - start) >= (quantumMs - 1) * NS_PER_MS)
    case CpuSlice(start, readings, end) =>
      && kind.CPU_INTENSIVE_TASK?
      && start <= end
      && (forall i :: 0 <= i < |readings| ==> start <= readings[i] <= end)
      && (forall i, j :: 0 <= i < j < |readings| ==> readings[i] <= readings[j])
      && (forall i :: 0 <= i < |readings| - 1 ==> !Expired(quantumMs, start, readings[i]))
      && |readings| <= LoopLimit(quantumMs)
      && (if TimedOut(quantumMs, s) then end == readings[|readings| - 1] else |readings| == LoopLimit(quantumMs))
  }

  lemma CpuSliceFits(quantumMs: int, s: Slice)
    requires s.CpuSlice? && s.startNs <= s.endNs
    requires forall k :: 0 <= k < |s.readings| ==> s.startNs <= s.readings[k] <= s.endNs
    requires forall k :: 0 <= k < |s.readings| - 1 ==> !Expired(quantumMs, s.startNs, s.readings[k])
    requires forall j, k :: 0 <= j < k < |s.readings| ==> s.readings[j] <= s.readings[k]
    requires |s.readings| <= LoopLimit(quantumMs)
    requires if TimedOut(quantumMs, s) then s.endNs == s.readings[|s.readings| - 1] else |s.readings| == LoopLimit(quantumMs)
    ensures SliceFits(quantumMs, CPU_INTENSIVE_TASK, s)
  {
  }

  function WorkedMs(s: Slice): nat {
    if s.CpuSlice? && s.startNs <= s.endNs then (s.endNs - s.startNs) / NS_PER_MS else 0
  }

  /** Whether the slice reports completion, with so much work (or so many operations) left before it. */
  predicate Completes(quantumMs: int, left: int, s: Slice) {
    match s
    case CpuSlice(_, _, _) => !TimedOut(quantumMs, s) && left <= WorkedMs(s)
    case IoSlice(fileOpens, _, _) => !fileOpens || left <= 1
  }

  /** The task after a slice: its state, what is left of its work, and its CPU usage. */
  function AfterSlice(v: TaskValue, quantumMs: int, s: Slice): TaskValue
    requires s.startNs <= s.endNs
  {
    var w := SetState(v, if Completes(quantumMs, WorkLeft(v), s) then COMPLETED else READY);
    match s
    case CpuSlice(start, _, end) =>
      w.(cpuUsage := Usage(1.0, end - start, quantumMs), remainingWorkMs := v.remainingWorkMs - WorkedMs(s))
    case IoSlice(fileOpens, start, end) =>
      if fileOpens then w.(cpuUsage := Usage(0.3, end - start, quantumMs), operationsRemaining := v.operationsRemaining - 1)
      else w
  }

  // What these definitions come to, in nanoseconds.

  /** The loop makes 500000 turns for every whole ten milliseconds of the quantum. */
  lemma LoopTurns(quantumMs: int)
    ensures 0 <= quantumMs < 300_000_000_000_000 ==> LoopLimit(quantumMs) == 500000 * (quantumMs / 10)
    ensures -10 < quantumMs < 0 ==> LoopLimit(quantumMs) == 0
    ensures -300_000_000_000_000 < quantumMs <= -10 ==>
      LoopLimit(quantumMs) == 18_446_744_073_709_551_616 - 500000 * ((0 - quantumMs) / 10)
  {
  }

  /** Usage is the quotient of nanoseconds and milliseconds as long as that is below the cap. */
  lemma UsageIs(cap: real, workNs: nat, quantumMs: int)
    requires quantumMs > 0
    ensures workNs as real >= cap * quantumMs as real ==> Usage(cap, workNs, quantumMs) == cap
    ensures workNs as real < cap * quantumMs as real ==> Usage(cap, workNs, quantumMs) * quantumMs as real == workNs as real
  {
    UsageCappedIff(cap, workNs, quantumMs);
    var u := workNs as real / quantumMs as real;
    assert workNs as real == u * quantumMs as real;
  }

  /** A CPU slice ends at the first reading that shows a quantum's worth of nanoseconds since its start, or
      after the last turn of its loop if none does. */
  lemma SliceTimes(quantumMs: int, s: Slice)
    requires SliceFits(quantumMs, CPU_INTENSIVE_TASK, s)
    ensures var last := |s.readings| - 1;
      && (forall i :: 0 <= i < last ==> s.readings[i] - s.startNs < quantumMs * 1_000_000)
      && (TimedOut(quantumMs, s) <==> last >= 0 && s.readings[last] - s.startNs >= quantumMs * 1_000_000)
      && (TimedOut(quantumMs, s) ==> s.endNs == s.readings[last])
      && (!TimedOut(quantumMs, s) ==>
            && |s.readings| == LoopLimit(quantumMs)
            && forall i :: 0 <= i <= last ==> s.readings[i] - s.startNs < quantumMs * 1_000_000)
      && (forall i, j :: 0 <= i < j <= last ==> s.startNs <= s.readings[i] <= s.readings[j] <= s.endNs)
  {
  }

  lemma WorkedIs(s: Slice)
    requires s.CpuSlice? && s.startNs <= s.endNs
    ensures WorkedMs(s) * 1_000_000 <= s.endNs - s.startNs < (WorkedMs(s) + 1) * 1_000_000
  {
  }

  /** A CPU slice reports completion exactly when it did not leave through the timeout and lasted at least as
      long as the work that was left; an I/O slice, exactly when its file could not be opened or this was the
      last operation. */
  lemma CompletesIff(quantumMs: int, left: int, s: Slice)
    requires s.startNs <= s.endNs
    ensures s.CpuSlice? ==>
      (Completes(quantumMs, left, s) <==> !TimedOut(quantumMs, s) && s.endNs - s.startNs >= left * 1_000_000)
    ensures s.IoSlice? ==> (Completes(quantumMs, left, s) <==> !s.fileOpens || left - 1 <= 0)
  {
    if s.CpuSlice? {
      WorkedIs(s);
    }
  }

  /** A CPU slice takes the milliseconds it lasted off the remaining work, and sets the state and the usage. */
  lemma CpuSliceDoes(v: TaskValue, quantumMs: int, s: Slice)
    requires v.kind.CPU_INTENSIVE_TASK? && SliceFits(quantumMs, CPU_INTENSIVE_TASK, s)
    ensures var w, lasted := AfterSlice(v, quantumMs, s), s.endNs - s.startNs;
      var done := !TimedOut(quantumMs, s) && lasted >= v.remainingWorkMs * 1_000_000;
      && w == v.(state := if done then COMPLETED else READY, completed := v.completed || done,
                 cpuUsage := w.cpuUsage, remainingWorkMs := w.remainingWorkMs)
      && (v.remainingWorkMs - w.remainingWorkMs) * 1_000_000 <= lasted < (v.remainingWorkMs - w.remainingWorkMs + 1) * 1_000_000
      && (quantumMs > 0 && lasted >= quantumMs ==> w.cpuUsage == 1.0)
      && (quantumMs > 0 && lasted < quantumMs ==> w.cpuUsage * quantumMs as real == lasted as real)
  {
    WorkedIs(s);
    CompletesIff(quantumMs, v.remainingWorkMs, s);
    if quantumMs > 0 {
      UsageIs(1.0, s.endNs - s.startNs, quantumMs);
    }
    hide Usage, Completes, TimedOut, SliceFits, WorkedMs;
  }

  /** An I/O slice takes one operation off, unless its file cannot be opened, and sets the state and the usage. */
  lemma IoSliceDoes(v: TaskValue, quantumMs: int, s: Slice)
    requires v.kind.IO_BOUND_TASK? && SliceFits(quantumMs, IO_BOUND_TASK, s)
    ensures var w, lasted := AfterSlice(v, quantumMs, s), s.endNs - s.startNs;
      var done := !s.fileOpens || v.operationsRemaining - 1 <= 0;
      && w == v.(state := if done then COMPLETED else READY, completed := v.completed || done, cpuUsage := w.cpuUsage,
                 operationsRemaining := if s.fileOpens then v.operationsRemaining - 1 else v.operationsRemaining)
      && (!s.fileOpens ==> w.cpuUsage == v.cpuUsage)
      && (s.fileOpens ==> 2 * lasted >= (quantumMs - 1) * 1_000_000)
      && (s.fileOpens && quantumMs > 0 && 10 * lasted >= 3 * quantumMs ==> w.cpuUsage == 0.3)
      && (s.fileOpens && quantumMs > 0 && 10 * lasted < 3 * quantumMs ==> w.cpuUsage * quantumMs as real == lasted as real)
  {
    if quantumMs > 0 {
      UsageIs(0.3, s.endNs - s.startNs, quantumMs);
    }
    hide Usage;
  }

  /** A CPU task that is reported complete has been worked on for all that was left of it. */
  lemma CompletionTakesTime(quantumMs: int, left: int, s: Slice)
    requires SliceFits(quantumMs, CPU_INTENSIVE_TASK, s) && Completes(quantumMs, left, s)
    ensures s.endNs - s.startNs >= left * 1_000_000
  {
    CompletesIff(quantumMs, left, s);
  }

  /** Some CPU slice can leave through the timeout exactly when the loop has a turn to see it in; for
      quanta under 10 ms it has none. */
  lemma CanTimeOutIff(quantumMs: int)
    ensures LoopLimit(quantumMs) > 0 <==>
      exists s :: SliceFits(quantumMs, CPU_INTENSIVE_TASK, s) && TimedOut(quantumMs, s)
    ensures 0 <= quantumMs < 10 ==> LoopLimit(quantumMs) == 0
  {
    if LoopLimit(quantumMs) > 0 {
      var late := if quantumMs > 0 then quantumMs * NS_PER_MS else 0;
      var s := CpuSlice(0, [late], late);
      assert SliceFits(quantumMs, CPU_INTENSIVE_TASK, s) && TimedOut(quantumMs, s);
    }
  }

  /** Whatever the limit, the loop can run through it before the clock shows any time, and then no work
      comes off. */
  lemma StalledSlice(quantumMs: int, nowNs: nat) returns (s: Slice)
    requires quantumMs >= 0
    ensures SliceFits(quantumMs, CPU_INTENSIVE_TASK, s) && !TimedOut(quantumMs, s)
    ensures s.startNs == s.endNs == nowNs && WorkedMs(s) == 0
  {
    s := CpuSlice(nowNs, seq(LoopLimit(quantumMs), _ => nowNs), nowNs);
  }
}
