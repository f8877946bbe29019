/** What the scheduler's threads hold when none of their ring calls can go on. */
module ThreadStalls {
  import opened SharedTasks
  import opened RingProtocol
  import opened RingSafety
  import opened RingTheorems
  import opened Threads
  import opened ThreadSafety
  import Transit
  import Pipeline

  predicate InEnqueue(op: Op) {
    op.EnqWaitSlot? || op.EnqWaitMutex? || op.EnqUndoSlot? || op.EnqLoadRear? || op.EnqWriteSlot? || op.EnqStoreRear? ||
    op.EnqAddCount? || op.EnqAddTotal? || op.EnqPostMutex? || op.EnqPostItem?
  }

  predicate InPrint(op: Op) {
    op.PrintWaitMutex? || op.PrintLoadFront? || op.PrintLoadRear? || op.PrintLoadCount? || op.PrintLoop? ||
    op.PrintPostMutex? || op.PrintCatch?
  }

  predicate InDequeue(op: Op) { !op.Idle? && !InEnqueue(op) && !InPrint(op) }

  predicate Fetches(client: Client) { client.PassFetches? || client.ProcessorFetches? }

  predicate Adds(client: Client) { client.CallerAdds? || client.PassAdds? || client.ProcessorAdds? }

  predicate Prints(client: Client) { client.CallerPrints? || client.PassPrints? || client.ProcessorPrints? }

  /** A thread is inside the operation that its program has called. */
  predicate AtCall(client: Client, op: Op) {
    (InEnqueue(op) ==> Adds(client)) && (InDequeue(op) ==> Fetches(client)) && (InPrint(op) ==> Prints(client))
  }

  predicate AtCalls(w: World) {
    |w.clients| == |w.ops| && forall i :: 0 <= i < |w.ops| ==> AtCall(w.clients[i], w.ops[i])
  }

  lemma RunStaysInCall(r: Ring, op: Op)
    requires Exec(r, op).Goes?
    ensures var op' := Exec(r, op).op;
      && (InEnqueue(op') ==> InEnqueue(op)) && (InDequeue(op') ==> InDequeue(op)) && (InPrint(op') ==> InPrint(op))
  {
  }

  lemma FailureStaysInCall(op: Op)
    requires Interrupted(op).Some?
    ensures var op' := Interrupted(op).value;
      && (InEnqueue(op') ==> InEnqueue(op)) && (InDequeue(op') ==> InDequeue(op)) && (InPrint(op') ==> InPrint(op))
  {
  }

  lemma PassEnters(seen: Seen, client: Client, result: Result, how: How, turn: Turn)
    requires client.PassTests? || client.PassFetches? || client.PassRefills? || client.PassAdds? || client.PassPrints?
    requires ProceedPass(seen, client, result, how) == Some(turn)
    ensures AtCall(turn.client, turn.op)
  {
    hide Transit.Carry, Transit.Ordered, Ids;
  }

  lemma ProcessorEnters(seen: Seen, client: Client, result: Result, how: How, turn: Turn)
    requires client.ProcessorLoop? || client.ProcessorOver? || client.ProcessorTests? || client.ProcessorFetches? ||
      client.ProcessorRuns? || client.ProcessorAdds? || client.ProcessorPrints?
    requires ProceedProcessor(seen, client, result, how) == Some(turn)
    ensures AtCall(turn.client, turn.op)
  {
    hide Transit.Carry, Pipeline.FateFits;
  }

  lemma TurnEnters(seen: Seen, client: Client, result: Result, how: How, turn: Turn)
    requires Proceed(seen, client, result, how) == Some(turn)
    ensures AtCall(turn.client, turn.op)
  {
    hide ProceedPass, ProceedProcessor;
    if client.PassTests? || client.PassFetches? || client.PassRefills? || client.PassAdds? || client.PassPrints? {
      PassEnters(seen, client, result, how, turn);
    } else if !client.CallerIdle? && !client.CallerAdds? && !client.CallerPrints? && !client.SchedulerLoop? && !client.SchedulerOver? {
      ProcessorEnters(seen, client, result, how, turn);
    }
  }

  lemma PerformAtCalls(w: World, a: Act)
    requires AtCalls(w) && Perform(w, a).Some?
    ensures AtCalls(Perform(w, a).value)
  {
    match a {
      case Switch(_, _) =>
      case RingRuns(i) =>
        RunStaysInCall(w.ring, w.ops[i]);
        hide Exec, InEnqueue, InDequeue, InPrint, Fetches, Adds, Prints;
      case RingFails(i) =>
        FailureStaysInCall(w.ops[i]);
        hide Interrupted, InEnqueue, InDequeue, InPrint, Fetches, Adds, Prints;
      case ClientRuns(i, how) =>
        TurnEnters(Seen(w.ring.count, w.scheduling, w.processing), w.clients[i], w.ops[i].result, how, TurnOf(w, i, how).value);
        hide Proceed, AtCall;
    }
  }

  lemma {:induction false} HistoryAtCalls(worlds: seq<World>, acts: seq<Act>, n: nat)
    requires History(worlds, acts) && n < |worlds|
    ensures AtCalls(worlds[n])
  {
    if n > 0 {
      hide AtCalls, Perform, Begin;
      HistoryAtCalls(worlds, acts, n - 1);
      assert Perform(worlds[n - 1], acts[n - 1]) == Some(worlds[n - 1 + 1]);
      PerformAtCalls(worlds[n - 1], acts[n - 1]);
    }
  }

  lemma {:induction false} NoIds(tasks: seq<SharedTask>)
    ensures Ids(tasks) == multiset{} <==> tasks == []
  {
    IdsSize(tasks);
  }

  /** In every run, with a consumer at its first wait, no ring call can go on exactly when every ring call is
      there and the ids alive are exactly those in the hands of threads; the waiting threads are then all reorder
      passes, with what is in their local vectors, or processors. */
  lemma StallMeansHeld(worlds: seq<World>, acts: seq<Act>, n: nat, i: nat)
    requires History(worlds, acts) && n < |worlds| && i < |worlds[n].ops| && worlds[n].ops[i].DeqWaitItem?
    ensures var w := worlds[n];
      && |w.clients| == |w.ops|
      && (Stuck(State(w.ring, w.ops)) <==>
            AllAtItemWait(State(w.ring, w.ops)) && w.submitted == Held(w.clients, w.ops) + w.retired + w.lost)
      && (Stuck(State(w.ring, w.ops)) ==>
            forall j :: 0 <= j < |w.ops| && !w.ops[j].Idle? ==> Fetches(w.clients[j]))
  {
    var w := worlds[n];
    HistoryInv(worlds, acts, n);
    HistoryAtCalls(worlds, acts, n);
    StallInv(w, i);
  }

  lemma StallInv(w: World, i: nat)
    requires WorldInv(w) && AtCalls(w) && i < |w.ops| && w.ops[i].DeqWaitItem?
    ensures Stuck(State(w.ring, w.ops)) <==>
      AllAtItemWait(State(w.ring, w.ops)) && w.submitted == Held(w.clients, w.ops) + w.retired + w.lost
    ensures Stuck(State(w.ring, w.ops)) ==>
      forall j :: 0 <= j < |w.ops| && !w.ops[j].Idle? ==> Fetches(w.clients[j])
  {
    var s := State(w.ring, w.ops);
    OnlyFirstWaitsBlockInv(s);
    NoIds(Queue(w.ring));
    QueueIsAlive(w);
    assert |Queue(w.ring)| == w.ring.count;
    assert AllAtSlotWait(s) ==> false;
    if Stuck(s) {
      forall j | 0 <= j < |w.ops| && !w.ops[j].Idle? ensures Fetches(w.clients[j]) {
        assert AtCall(w.clients[j], w.ops[j]) && w.ops[j].DeqWaitItem?;
      }
    }
    hide Inv, Stuck, Held, Ids;
  }

  /** The queue is what is alive beyond the threads' hands. */
  lemma QueueIsAlive(w: World)
    requires Balanced(w)
    ensures w.submitted == Held(w.clients, w.ops) + w.retired + w.lost <==> Ids(Queue(w.ring)) == multiset{}
  {
    hide Held, Ids;
    var q, rest := Ids(Queue(w.ring)), Held(w.clients, w.ops) + w.retired + w.lost;
    assert w.submitted == q + rest;
    if w.submitted == rest {
      assert |q + rest| == |q| + |rest|;
    }
  }
}
