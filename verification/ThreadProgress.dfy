/** The thread programs are held up by nothing but their ring calls. */
module ThreadProgress {
  import opened SharedTasks
  import opened Priority
  import opened Conversion
  import opened Execution
  import opened RingProtocol
  import opened RingSafety
  import opened Threads
  import opened ThreadSafety
  import opened ThreadStalls
  import opened ThreadPrograms
  import Transit
  import Pipeline

  /** The operation a thread is in, or the result it left behind, is one its program is waiting for. */
  predicate Awaits(client: Client, op: Op) {
    && (Resting(client) ==> op == Idle(NoCall))
    && (Adds(client) ==> InEnqueue(op) || (op.Idle? && (op.result.Enqueued? || op.result.EnqueueThrew?)))
    && (Fetches(client) ==> InDequeue(op) || (op.Idle? && (op.result.Dequeued? || op.result.Threw?)))
    && (Prints(client) ==> InPrint(op) || (op.Idle? && (op.result.Printed? || op.result.Threw?)))
  }

  predicate AllAwait(w: World) {
    |w.clients| == |w.ops| && forall i :: 0 <= i < |w.ops| ==> Awaits(w.clients[i], w.ops[i])
  }

  lemma RunAwaits(client: Client, r: Ring, op: Op)
    requires Awaits(client, op) && Exec(r, op).Goes?
    ensures Awaits(client, Exec(r, op).op)
  {
    RunStaysOrEnds(r, op);
    assert !op.Idle?;
    hide Exec, InEnqueue, InDequeue, InPrint;
  }

  lemma RunStaysOrEnds(r: Ring, op: Op)
    requires Exec(r, op).Goes?
    ensures var op' := Exec(r, op).op;
      && (InEnqueue(op) ==> InEnqueue(op') || (op'.Idle? && (op'.result.Enqueued? || op'.result.EnqueueThrew?)))
      && (InDequeue(op) ==> InDequeue(op') || (op'.Idle? && (op'.result.Dequeued? || op'.result.Threw?)))
      && (InPrint(op) ==> InPrint(op') || (op'.Idle? && (op'.result.Printed? || op'.result.Threw?)))
  {
  }

  lemma FailureAwaits(client: Client, op: Op)
    requires Awaits(client, op) && Interrupted(op).Some?
    ensures Awaits(client, Interrupted(op).value)
  {
  }

  /** A turn that calls the ring, or does not. */
  predicate Calls(client: Client, op: Op) {
    || (Resting(client) && op == Idle(NoCall)) || (Adds(client) && op.EnqWaitSlot?)
    || (Fetches(client) && op == DeqWaitItem) || (Prints(client) && op == PrintWaitMutex)
  }

  lemma CallsAwait(client: Client, op: Op)
    requires Calls(client, op)
    ensures Awaits(client, op)
  {
  }

  lemma PassCalls(seen: Seen, client: Client, result: Result, how: How, turn: Turn)
    requires InPass(client) && ProceedPass(seen, client, result, how) == Some(turn)
    ensures Calls(turn.client, turn.op)
  {
    hide Transit.Carry, Transit.Ordered, Ids, InRange;
  }

  lemma ProcessorCalls(seen: Seen, client: Client, result: Result, how: How, turn: Turn)
    requires client.ProcessorLoop? || client.ProcessorOver? || client.ProcessorTests? || client.ProcessorFetches? ||
      client.ProcessorRuns? || client.ProcessorAdds? || client.ProcessorPrints?
    requires ProceedProcessor(seen, client, result, how) == Some(turn)
    ensures Calls(turn.client, turn.op)
  {
    hide Transit.Carry, Pipeline.FateFits, InRange;
  }

  lemma TurnAwaits(seen: Seen, client: Client, result: Result, how: How, turn: Turn)
    requires Proceed(seen, client, result, how) == Some(turn)
    ensures Awaits(turn.client, turn.op)
  {
    hide ProceedPass, ProceedProcessor, Awaits;
    if InPass(client) {
      PassCalls(seen, client, result, how, turn);
    } else if !client.CallerIdle? && !client.CallerAdds? && !client.CallerPrints? && !client.SchedulerLoop? &&
              !client.SchedulerOver? {
      ProcessorCalls(seen, client, result, how, turn);
    }
    CallsAwait(turn.client, turn.op);
  }

  lemma PerformAwaits(w: World, a: Act)
    requires AllAwait(w) && Perform(w, a).Some?
    ensures AllAwait(Perform(w, a).value)
  {
    match a {
      case Switch(_, _) =>
      case RingRuns(i) =>
        RunAwaits(w.clients[i], w.ring, w.ops[i]);
        hide Exec, Awaits;
      case RingFails(i) =>
        FailureAwaits(w.clients[i], w.ops[i]);
        hide Interrupted, Awaits;
      case ClientRuns(i, how) =>
        TurnAwaits(Seen(w.ring.count, w.scheduling, w.processing), w.clients[i], w.ops[i].result, how, TurnOf(w, i, how).value);
        hide Proceed, Awaits;
    }
  }

  lemma {:induction false} HistoryAwaits(worlds: seq<World>, acts: seq<Act>, n: nat)
    requires History(worlds, acts) && n < |worlds|
    ensures AllAwait(worlds[n])
  {
    if n > 0 {
      hide AllAwait, Perform, Begin;
      HistoryAwaits(worlds, acts, n - 1);
      assert Perform(worlds[n - 1], acts[n - 1]) == Some(worlds[n - 1 + 1]);
      PerformAwaits(worlds[n - 1], acts[n - 1]);
    }
  }

  /** Whatever quantum is set, an execution of any task can end, in a way the processor's branches allow. */
  lemma SomeFate(quantumMs: nat, t: SharedTask, processing: bool) returns (fate: Pipeline.Fate)
    ensures Pipeline.FateFits(quantumMs, t, fate) && !fate.Dropped?
    ensures fate.Requeued? ==> processing
    ensures fate.Stopped? ==> !processing
  {
    match t.kind {
      case UNIX_TASK => fate := Pipeline.Threw;
      case IO_BOUND_TASK => fate := Pipeline.Finished(IoSlice(false, 0, 0));
      case CPU_INTENSIVE_TASK =>
        if t.remainingMs < quantumMs {
          var slice := SomeSlice(t.remainingMs);
          fate := Pipeline.UnderQuantum(t.remainingMs, slice);
        } else {
          var slice := SomeSlice(quantumMs);
          fate := if Completes(quantumMs, t.remainingMs, slice) then Pipeline.Finished(slice)
            else if processing then Pipeline.Requeued(slice, Transit.Trip(0, 0, 0, slice.endNs, Unset(t.kind, 0)))
            else Pipeline.Stopped(slice);
        }
    }
  }

  lemma SomeSlice(quantumMs: int) returns (slice: Slice)
    ensures SliceFits(quantumMs, CPU_INTENSIVE_TASK, slice)
  {
    if quantumMs >= 0 {
      slice := StalledSlice(quantumMs, 0);
    } else {
      slice := CpuSlice(0, if LoopLimit(quantumMs) > 0 then [0] else [], 0);
    }
    hide LoopLimit;
  }

  predicate Over(client: Client) { client.SchedulerOver? || client.ProcessorOver? }

  /** In every run of a live process, a thread that is not in a ring call and has not ended can take its next step,
      whatever the algorithm and the quantum, and whichever task is submitted next. */
  lemma ProgramsGo(worlds: seq<World>, acts: seq<Act>, n: nat, i: nat, t: SharedTask, algorithm: Transit.Algorithm, quantumMs: nat)
    returns (how: How)
    requires History(worlds, acts) && n < |worlds| && worlds[n].alive && InRange(t.priority)
    requires i < |worlds[n].ops| == |worlds[n].clients| && worlds[n].ops[i].Idle? && !Over(worlds[n].clients[i])
    ensures Perform(worlds[n], ClientRuns(i, how)).Some?
    ensures how.Submit? ==> how.task == t
    ensures how.Rewrite? ==> how.algorithm == algorithm
    ensures how.Decide? ==> how.quantumMs == quantumMs
  {
    var w := worlds[n];
    HistoryAwaits(worlds, acts, n);
    HistoryInv(worlds, acts, n);
    assert ClientValid(w.clients[i]) && Awaits(w.clients[i], w.ops[i]);
    hide History, Inv, Balanced, Proceed, Awaits, ClientValid, InRange;
    how := SomeTurn(Seen(w.ring.count, w.scheduling, w.processing), w.clients[i], w.ops[i].result, t, algorithm, quantumMs);
  }

  lemma SomeTurn(seen: Seen, client: Client, result: Result, t: SharedTask, algorithm: Transit.Algorithm, quantumMs: nat)
    returns (how: How)
    requires Awaits(client, Idle(result)) && ClientValid(client) && InRange(t.priority) && !Over(client)
    ensures Proceed(seen, client, result, how).Some?
    ensures how.Submit? ==> how.task == t
    ensures how.Rewrite? ==> how.algorithm == algorithm
    ensures how.Decide? ==> how.quantumMs == quantumMs
  {
    how := Go;
    match client {
      case CallerIdle => how := Submit(t);
      case PassRefills(_, vec) =>
        how := Rewrite(algorithm, Transit.Trip(0, 0, 0, 0, Unset(UNIX_TASK, 0)));
        assert vec != [] ==> InRange(vec[0].priority);
      case ProcessorRuns(task) =>
        var fate := SomeFate(quantumMs, task, seen.processing);
        how := Decide(quantumMs, fate);
      case _ =>
    }
    hide InRange, Transit.Carry, Pipeline.FateFits, Ids;
  }

  /** While the process lives, a ring call of a thread goes on, or fails, exactly as the protocol says. */
  lemma RingCallsGo(w: World, i: nat)
    requires w.alive
    ensures Perform(w, RingRuns(i)).Some? <==> Apply(State(w.ring, w.ops), Run(i)).Some?
    ensures Perform(w, RingFails(i)).Some? <==> Apply(State(w.ring, w.ops), Interrupt(i)).Some?
    ensures forall w' :: Perform(w, RingRuns(i)) == Some(w') ==>
      Apply(State(w.ring, w.ops), Run(i)) == Some(State(w'.ring, w'.ops)) && w'.failures == w.failures
    ensures forall w' :: Perform(w, RingFails(i)) == Some(w') ==>
      Apply(State(w.ring, w.ops), Interrupt(i)) == Some(State(w'.ring, w'.ops)) && w'.failures == w.failures + 1
  {
    hide Exec, Interrupted;
  }
}
