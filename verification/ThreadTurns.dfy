/** What one `add_task` of a caller and one turn of the processor's loop do to the queue. */
module ThreadTurns {
  import opened SharedTasks
  import opened Priority
  import opened RingProtocol
  import opened RingSafety
  import opened RingTheorems
  import opened RingAlone
  import opened RingLinearizability
  import opened Threads
  import opened ThreadSafety
  import opened Transit
  import opened ThreadPrograms
  import Pipeline

  lemma {:induction false} EffectsSplit(worlds: seq<World>, acts: seq<Act>, i: nat, from: nat, mid: nat, till: nat)
    requires from <= mid <= till <= |acts| <= |worlds|
    ensures ThreadEffects(worlds, acts, i, from, till)
      == ThreadEffects(worlds, acts, i, from, mid) + ThreadEffects(worlds, acts, i, mid, till)
    decreases till
  {
    if mid < till {
      EffectsSplit(worlds, acts, i, from, mid, till - 1);
    }
  }

  // A caller.

  /** Where a caller's add stands before its pass begins. */
  predicate AddAt(t: SharedTask, client: Client, op: Op, effects: seq<Event>) {
    && !Broken(op)
    && match client
       case CallerAdds => Done(EnqWaitSlot(t), op).Some? && effects == [] + Done(EnqWaitSlot(t), op).value
       case CallerPrints => Done(PrintWaitMutex, op).Some? && effects == [Put(t)] + Done(PrintWaitMutex, op).value
       case PassTests(owner, vec) => owner == Caller && vec == [] && op == Idle(NoCall) && effects == [Put(t)]
       case _ => false
  }

  lemma AddRings(t: SharedTask, client: Client, r: Ring, op: Op, effects: seq<Event>)
    requires (client.CallerAdds? || client.CallerPrints?) && AddAt(t, client, op, effects) && Exec(r, op).Goes?
    requires op.DeqLoadCount? ==> r.count >= 1
    ensures AddAt(t, client, Exec(r, op).op, effects + StepEffect(op))
  {
    NotBroken(r, op);
    assert !op.Idle?;
    hide Exec, Done, Broken, StepEffect;
    if client.CallerAdds? {
      CallGoesOn(EnqWaitSlot(t), r, op, [], effects);
    } else {
      CallGoesOn(PrintWaitMutex, r, op, [Put(t)], effects);
    }
  }

  lemma AddTurns(t: SharedTask, seen: Seen, client: Client, result: Result, effects: seq<Event>, how: How, turn: Turn)
    requires (client.CallerAdds? || client.CallerPrints?) && AddAt(t, client, Idle(result), effects)
    requires Proceed(seen, client, result, how) == Some(turn)
    ensures AddAt(t, turn.client, turn.op, effects)
  {
    ResultsDone();
    hide Done, Broken, ProceedPass, ProceedProcessor;
    assert [Put(t)] + [] == [Put(t)] && [] + [Put(t)] == [Put(t)];
  }

  lemma AddClientStep(w: World, i: nat, how: How, t: SharedTask, effects: seq<Event>)
    requires |w.clients| == |w.ops| && Perform(w, ClientRuns(i, how)).Some?
    requires (w.clients[i].CallerAdds? || w.clients[i].CallerPrints?) && AddAt(t, w.clients[i], w.ops[i], effects)
    ensures var w' := Perform(w, ClientRuns(i, how)).value; AddAt(t, w'.clients[i], w'.ops[i], effects)
  {
    hide Proceed, AddAt;
    AddTurns(t, Seen(w.ring.count, w.scheduling, w.processing), w.clients[i], w.ops[i].result, effects, how, TurnOf(w, i, how).value);
  }

  lemma AddRingStep(w: World, i: nat, t: SharedTask, effects: seq<Event>)
    requires WorldInv(w) && Perform(w, RingRuns(i)).Some?
    requires (w.clients[i].CallerAdds? || w.clients[i].CallerPrints?) && AddAt(t, w.clients[i], w.ops[i], effects)
    ensures var w' := Perform(w, RingRuns(i)).value;
      w'.clients[i] == w.clients[i] && AddAt(t, w'.clients[i], w'.ops[i], effects + StepEffect(w.ops[i]))
  {
    Room(State(w.ring, w.ops), i);
    hide Inv, Balanced, AddAt, Exec;
    AddRings(t, w.clients[i], w.ring, w.ops[i], effects);
  }

  lemma AddWorldStep(w: World, a: Act, i: nat, algorithm: Algorithm, t: SharedTask, effects: seq<Event>)
    requires WorldInv(w) && Perform(w, a).Some? && i < |w.ops| && Faultless(a, i, algorithm)
    requires (w.clients[i].CallerAdds? || w.clients[i].CallerPrints?) && AddAt(t, w.clients[i], w.ops[i], effects)
    ensures var w' := Perform(w, a).value;
      && |w'.ops| == |w'.clients| == |w.ops|
      && AddAt(t, w'.clients[i], w'.ops[i], effects + ActEffect(w, a, i))
  {
    OthersAct(w, a, i);
    assert effects + [] == effects;
    hide AddAt, Perform;
    if a == RingRuns(i) {
      AddRingStep(w, i, t, effects);
    } else if a.ClientRuns? && a.thread == i {
      AddClientStep(w, i, a.how, t, effects);
    }
  }

  /** Thread `i` submits `t` with act `from`, and its `add_task` has not returned before state `till`. */
  predicate Adding(worlds: seq<World>, acts: seq<Act>, i: nat, t: SharedTask, from: nat, till: nat) {
    && from < till <= |acts| < |worlds|
    && i < |worlds[from].ops| == |worlds[from].clients|
    && worlds[from].clients[i].CallerIdle? && acts[from] == ClientRuns(i, Submit(t))
    && forall n :: from < n < till ==> i < |worlds[n].clients| && !worlds[n].clients[i].CallerIdle?
  }

  /** The pass of an `add_task` begins at state `mid`, the task having been put in the ring, once, before. */
  predicate PassFrom(worlds: seq<World>, acts: seq<Act>, i: nat, t: SharedTask, from: nat, mid: nat, till: nat) {
    && from < mid <= till <= |acts| < |worlds|
    && i < |worlds[mid].ops| == |worlds[mid].clients| == |worlds[from].ops|
    && worlds[mid].clients[i] == PassTests(Caller, []) && worlds[mid].ops[i] == Idle(NoCall)
    && ThreadEffects(worlds, acts, i, from, mid) == [Put(t)]
    && forall n :: mid <= n < till ==> i < |worlds[n].clients| && InPass(worlds[n].clients[i])
  }

  /** In every run, whatever the other threads do: an `add_task` without failures puts its task in the ring, once,
      and then makes one pass. */
  lemma {:induction false} AddProgram(worlds: seq<World>, acts: seq<Act>, i: nat, algorithm: Algorithm, t: SharedTask,
                                      from: nat, till: nat) returns (mid: nat)
    requires History(worlds, acts) && Adding(worlds, acts, i, t, from, till) && FaultlessStretch(acts, i, algorithm, from, till)
    ensures |worlds[till].clients| == |worlds[till].ops| == |worlds[from].ops| && InRange(t.priority)
    ensures var client := worlds[till].clients[i];
      if client.CallerAdds? || client.CallerPrints? then
        AddAt(t, client, worlds[till].ops[i], ThreadEffects(worlds, acts, i, from, till))
      else
        && PassFrom(worlds, acts, i, t, from, mid, till)
        && (InPass(client) || client.CallerIdle?) && (mid == till ==> InPass(client))
    decreases till
  {
    hide Perform, Begin, WorldInv, AddAt, ThreadEffects, InRange;
    var w, a := worlds[till - 1], acts[till - 1];
    assert Perform(w, a) == Some(worlds[till - 1 + 1]);
    HistoryInv(worlds, acts, till - 1);
    mid := till;
    if from == till - 1 {
      AddBegins(worlds, acts, i, t, from);
    } else {
      var before := AddProgram(worlds, acts, i, algorithm, t, from, till - 1);
      var effects := ThreadEffects(worlds, acts, i, from, till - 1);
      if w.clients[i].CallerAdds? || w.clients[i].CallerPrints? {
        AddWorldStep(w, a, i, algorithm, t, effects);
        OneMore(worlds, acts, i, from, till);
        AddLeads(t, worlds[till].clients[i], worlds[till].ops[i], effects + ActEffect(w, a, i));
      } else {
        mid := before;
        var plan := PassProgram(worlds, acts, i, algorithm, Caller, mid, till, false);
        hide PassAt, PassOver;
        PassStays(algorithm, plan, worlds[till].clients[i], worlds[till].ops[i], ThreadEffects(worlds, acts, i, mid, till));
      }
    }
  }

  lemma OneMore(worlds: seq<World>, acts: seq<Act>, i: nat, from: nat, till: nat)
    requires from < till <= |acts| <= |worlds|
    ensures ThreadEffects(worlds, acts, i, from, till) ==
      ThreadEffects(worlds, acts, i, from, till - 1) + ActEffect(worlds[till - 1], acts[till - 1], i)
  {
  }

  lemma PassStays(algorithm: Algorithm, plan: Plan, client: Client, op: Op, effects: seq<Event>)
    requires InPass(client) ==> PassAt(algorithm, Caller, plan, client, op, effects)
    requires !InPass(client) ==> PassOver(algorithm, Caller, plan, client, op, effects)
    ensures InPass(client) || client.CallerIdle?
  {
  }

  lemma AddLeads(t: SharedTask, client: Client, op: Op, effects: seq<Event>)
    requires AddAt(t, client, op, effects)
    ensures client.CallerAdds? || client.CallerPrints? ||
      (client == PassTests(Caller, []) && op == Idle(NoCall) && effects == [Put(t)])
  {
  }

  lemma AddBegins(worlds: seq<World>, acts: seq<Act>, i: nat, t: SharedTask, from: nat)
    requires from < |acts| < |worlds| && i < |worlds[from].ops| == |worlds[from].clients|
    requires worlds[from].clients[i].CallerIdle? && acts[from] == ClientRuns(i, Submit(t))
    requires Perform(worlds[from], acts[from]) == Some(worlds[from + 1])
    ensures |worlds[from + 1].clients| == |worlds[from + 1].ops| == |worlds[from].ops| && InRange(t.priority)
    ensures worlds[from + 1].clients[i].CallerAdds?
    ensures AddAt(t, CallerAdds, worlds[from + 1].ops[i], ThreadEffects(worlds, acts, i, from, from + 1))
  {
    ResultsDone();
    assert ThreadEffects(worlds, acts, i, from, from) == [];
    var none: seq<Event> := [];
    assert none + none == none;
  }

  /** An `add_task` of one thread alone is an arrival at the back and a pass, as `Schedulers.Scheduler.AddTask`
      says of the class. */
  lemma AddAlone(worlds: seq<World>, acts: seq<Act>, i: nat, algorithm: Algorithm, t: SharedTask, from: nat, till: nat)
    returns (trips: seq<Trip>)
    requires History(worlds, acts) && Adding(worlds, acts, i, t, from, till)
    requires FaultlessStretch(acts, i, algorithm, from, till) && AloneStretch(acts, i, from, till)
    requires i < |worlds[till].clients| && worlds[till].clients[i].CallerIdle?
    ensures var q := QueueOf(worlds[from]);
      && Pipeline.Step(worlds[from].ring.capacity, 0, q, Pipeline.Arrive(t), q + [t])
      && Pipeline.Step(worlds[from].ring.capacity, 0, q + [t], Pipeline.Pass(algorithm, trips), QueueOf(worlds[till]))
  {
    assert from < till < |worlds|;
    hide History, ThreadEffects, InRange, AllInRange, AllOrdered, CarryAll, Replay, AddAt, FaultlessStretch, Adding;
    var mid := AddProgram(worlds, acts, i, algorithm, t, from, till);
    OnePut(QueueOf(worlds[from]), t);
    FitsCapacity(worlds, acts, from, mid);
    AloneParts(acts, i, algorithm, from, mid, till);
    AloneReplays(worlds, acts, i, from, mid);
    hide AloneStretch;
    trips := PassAlone(worlds, acts, i, algorithm, Caller, mid, till);
  }

  lemma AloneParts(acts: seq<Act>, i: nat, algorithm: Algorithm, from: nat, mid: nat, till: nat)
    requires from <= mid <= till && AloneStretch(acts, i, from, till) && FaultlessStretch(acts, i, algorithm, from, till)
    ensures AloneStretch(acts, i, from, mid) && AloneStretch(acts, i, mid, till)
    ensures FaultlessStretch(acts, i, algorithm, mid, till)
  {
    hide OfThread, Faultless;
  }

  lemma OnePut(q: seq<SharedTask>, t: SharedTask)
    ensures Replay(q, [Put(t)]) == Some(q + [t])
  {
    assert [Put(t)][..0] == [];
    assert Replay(q, []) == Some(q);
  }

  lemma {:induction false} FitsCapacity(worlds: seq<World>, acts: seq<Act>, from: nat, till: nat)
    requires History(worlds, acts) && from <= till < |worlds|
    ensures worlds[till].ring.capacity == worlds[from].ring.capacity
    ensures |QueueOf(worlds[till])| <= worlds[till].ring.capacity
    decreases till
  {
    HistoryInv(worlds, acts, till);
    hide Begin, Balanced, AllValid, Rested, Clean, Permits;
    if from < till {
      FitsCapacity(worlds, acts, from, till - 1);
      assert Perform(worlds[till - 1], acts[till - 1]) == Some(worlds[till - 1 + 1]);
      CapacityStays(worlds[till - 1], acts[till - 1]);
    }
  }

  lemma CapacityStays(w: World, a: Act)
    requires Perform(w, a).Some?
    ensures Perform(w, a).value.ring.capacity == w.ring.capacity
  {
    hide Proceed, Interrupted;
  }

  // The processor.

  /** A task the processor has executed under a quantum, and what became of it. */
  datatype Work = Work(task: SharedTask, quantumMs: int, fate: Pipeline.Fate)

  predicate Proper(work: Work) {
    && InRange(work.task.priority) && Pipeline.FateFits(work.quantumMs, work.task, work.fate) && !work.fate.Dropped?
    && (work.fate.Requeued? ==> Transit.Ordered(work.fate.trip))
  }

  /** The record put back. */
  function PutBackAs(work: Work): SharedTask
    requires Proper(work) && work.fate.Requeued?
  {
    Carry(None, work.task, work.fate.trip)
  }

  function WorkEffects(work: Work): seq<Event>
    requires Proper(work)
  {
    if work.fate.Requeued? then [Take(work.task)] + [Put(PutBackAs(work))] else [Take(work.task)]
  }

  /** Where a turn of the processor's loop stands, and what it has done to the queue. */
  predicate TurnAt(client: Client, op: Op, effects: seq<Event>, work: Option<Work>) {
    && !Broken(op) && (work.Some? ==> Proper(work.value))
    && match client
       case ProcessorLoop =>
         op == Idle(NoCall) && effects == if work.Some? then WorkEffects(work.value) else []
       case ProcessorOver => op == Idle(NoCall) && effects == [] && work.None?
       case ProcessorTests => op == Idle(NoCall) && effects == [] && work.None?
       case ProcessorFetches =>
         work.None? && Done(DeqWaitItem, op).Some? && effects == [] + Done(DeqWaitItem, op).value
       case ProcessorRuns(t) => op == Idle(NoCall) && effects == [Take(t)] && work.None? && InRange(t.priority)
       case ProcessorAdds =>
         && work.Some? && work.value.fate.Requeued? && Done(EnqWaitSlot(PutBackAs(work.value)), op).Some?
         && effects == [Take(work.value.task)] + Done(EnqWaitSlot(PutBackAs(work.value)), op).value
       case ProcessorPrints =>
         && work.Some? && work.value.fate.Requeued? && Done(PrintWaitMutex, op).Some?
         && effects == WorkEffects(work.value) + Done(PrintWaitMutex, op).value
       case _ => false
  }

  lemma TurnRings(client: Client, r: Ring, op: Op, effects: seq<Event>, work: Option<Work>)
    requires TurnAt(client, op, effects, work) && Exec(r, op).Goes?
    requires op.DeqLoadCount? ==> r.count >= 1
    ensures TurnAt(client, Exec(r, op).op, effects + StepEffect(op), work)
  {
    NotBroken(r, op);
    assert !op.Idle?;
    hide Exec, Done, Broken, StepEffect, Proper, PutBackAs, WorkEffects;
    match client {
      case ProcessorFetches => CallGoesOn(DeqWaitItem, r, op, [], effects);
      case ProcessorAdds => CallGoesOn(EnqWaitSlot(PutBackAs(work.value)), r, op, [Take(work.value.task)], effects);
      case ProcessorPrints => CallGoesOn(PrintWaitMutex, r, op, WorkEffects(work.value), effects);
      case _ => assert false;
    }
  }

  lemma RunsTurn(seen: Seen, t: SharedTask, effects: seq<Event>, how: How, turn: Turn) returns (work: Work)
    requires TurnAt(ProcessorRuns(t), Idle(NoCall), effects, None)
    requires ProceedRuns(seen, t, how) == Some(turn)
    ensures TurnAt(turn.client, turn.op, effects, Some(work)) && work.task == t
    ensures work.fate == how.fate && work.quantumMs == how.quantumMs
  {
    FitsOrdered(how.quantumMs, t, how.fate);
    work := Work(t, how.quantumMs, how.fate);
    RunsFacts(seen, t, effects, how, turn);
    hide *;
    if how.fate.Requeued? {
      BackBegins(work, effects);
    } else {
      LetGoAt(work, effects);
    }
  }

  /** The turn of a task just executed. */
  lemma RunsFacts(seen: Seen, t: SharedTask, effects: seq<Event>, how: How, turn: Turn)
    requires TurnAt(ProcessorRuns(t), Idle(NoCall), effects, None)
    requires ProceedRuns(seen, t, how) == Some(turn)
    ensures how.Decide? && effects == [Take(t)]
    ensures Proper(Work(t, how.quantumMs, how.fate))
    ensures how.fate.Requeued? ==>
      turn.client == ProcessorAdds && turn.op == EnqWaitSlot(PutBackAs(Work(t, how.quantumMs, how.fate)))
    ensures !how.fate.Requeued? ==> turn.client == ProcessorLoop && turn.op == Idle(NoCall)
  {
    FitsOrdered(how.quantumMs, t, how.fate);
    hide Done, Broken, Carry, Pipeline.FateFits, Transit.Ordered, InRange;
  }

  lemma BackBegins(work: Work, effects: seq<Event>)
    requires Proper(work) && work.fate.Requeued? && effects == [Take(work.task)]
    ensures TurnAt(ProcessorAdds, EnqWaitSlot(PutBackAs(work)), effects, Some(work))
  {
    ResultsDone();
    hide Done, Broken, Proper, PutBackAs;
    assert effects + [] == effects;
  }

  lemma LetGoAt(work: Work, effects: seq<Event>)
    requires Proper(work) && !work.fate.Requeued? && effects == [Take(work.task)]
    ensures TurnAt(ProcessorLoop, Idle(NoCall), effects, Some(work))
  {
    ResultsDone();
    hide Done, Broken, Proper;
  }

  lemma LoopTurn(seen: Seen, client: Client, effects: seq<Event>, work: Option<Work>, how: How, turn: Turn)
    requires client.ProcessorTests? || (client.ProcessorLoop? && work.None?)
    requires TurnAt(client, Idle(NoCall), effects, work) && ProceedProcessor(seen, client, NoCall, how) == Some(turn)
    ensures TurnAt(turn.client, turn.op, effects, None)
    ensures client.ProcessorLoop? ==> turn.client == if seen.processing then ProcessorTests else ProcessorOver
    ensures client.ProcessorTests? ==> turn.client == if seen.count > 0 then ProcessorFetches else ProcessorLoop
  {
    ResultsDone();
    hide Done, Broken, ProceedRuns;
    assert effects + [] == effects;
  }

  lemma FetchTurn(seen: Seen, result: Result, effects: seq<Event>, how: How, turn: Turn)
    requires TurnAt(ProcessorFetches, Idle(result), effects, None)
    requires ProceedProcessor(seen, ProcessorFetches, result, how) == Some(turn)
    requires result.Dequeued? ==> InRange(result.task.priority)
    ensures TurnAt(turn.client, turn.op, effects, None) && turn.client.ProcessorRuns?
  {
    ResultsDone();
    hide Done, Broken, ProceedRuns, InRange;
    assert [] + effects == effects;
  }

  lemma AddedTurn(seen: Seen, client: Client, result: Result, effects: seq<Event>, work: Option<Work>, how: How, turn: Turn)
    requires (client.ProcessorAdds? || client.ProcessorPrints?) && TurnAt(client, Idle(result), effects, work)
    requires ProceedProcessor(seen, client, result, how) == Some(turn)
    ensures TurnAt(turn.client, turn.op, effects, work) && (turn.client.ProcessorPrints? || turn.client.ProcessorLoop?)
  {
    ResultsDone();
    hide Done, Broken, ProceedRuns, Proper, PutBackAs;
    assert effects + [] == effects;
    assert WorkEffects(work.value) + [] == WorkEffects(work.value);
  }

  /** The turn has not come round to the top of the loop again. */
  predicate InTurn(client: Client) {
    client.ProcessorTests? || client.ProcessorFetches? || client.ProcessorRuns? || client.ProcessorAdds? ||
    client.ProcessorPrints?
  }

  lemma ProcessorTurns(seen: Seen, client: Client, result: Result, effects: seq<Event>, work: Option<Work>, how: How, turn: Turn)
    returns (work': Option<Work>)
    requires InTurn(client) || (client.ProcessorLoop? && work.None?)
    requires TurnAt(client, Idle(result), effects, work) && Proceed(seen, client, result, how) == Some(turn)
    requires result.Dequeued? ==> InRange(result.task.priority)
    ensures TurnAt(turn.client, turn.op, effects, work')
    ensures turn.client.ProcessorLoop? && work'.None? ==> client.ProcessorTests? && seen.count == 0
    ensures client.ProcessorLoop? ==> turn.client == if seen.processing then ProcessorTests else ProcessorOver
    ensures turn.client.ProcessorOver? ==> client.ProcessorLoop?
  {
    work' := work;
    match client {
      case ProcessorRuns(t) =>
        var done := RunsTurn(seen, t, effects, how, turn);
        work' := Some(done);
        RunsLead(seen, t, how, turn);
      case ProcessorFetches => FetchTurn(seen, result, effects, how, turn);
      case ProcessorAdds => AddedTurn(seen, client, result, effects, work, how, turn);
      case ProcessorPrints => AddedTurn(seen, client, result, effects, work, how, turn);
      case _ => LoopTurn(seen, client, effects, work, how, turn);
    }
    hide Done, Broken, ProceedRuns, ProceedProcessor, Proper, WorkEffects;
  }

  lemma RunsLead(seen: Seen, t: SharedTask, how: How, turn: Turn)
    requires ProceedRuns(seen, t, how) == Some(turn)
    ensures turn.client.ProcessorLoop? || turn.client.ProcessorAdds?
  {
    hide Carry, Pipeline.FateFits, InRange;
  }

  lemma TurnClientStep(w: World, i: nat, how: How, effects: seq<Event>, work: Option<Work>) returns (work': Option<Work>)
    requires WorldInv(w) && Perform(w, ClientRuns(i, how)).Some?
    requires InTurn(w.clients[i]) || (w.clients[i].ProcessorLoop? && work.None?)
    requires TurnAt(w.clients[i], w.ops[i], effects, work)
    ensures var w' := Perform(w, ClientRuns(i, how)).value;
      && w'.ring == w.ring
      && TurnAt(w'.clients[i], w'.ops[i], effects, work')
      && (w'.clients[i].ProcessorLoop? && work'.None? ==> w.clients[i].ProcessorTests? && w.ring.count == 0)
      && (w'.clients[i].ProcessorOver? ==> w.clients[i].ProcessorLoop?)
  {
    assert OpValid(w.ops[i]);
    hide Inv, Balanced, Proceed, TurnAt, InRange, InTurn;
    work' := ProcessorTurns(Seen(w.ring.count, w.scheduling, w.processing), w.clients[i], w.ops[i].result, effects, work, how,
                            TurnOf(w, i, how).value);
  }

  lemma TurnRingStep(w: World, i: nat, effects: seq<Event>, work: Option<Work>)
    requires WorldInv(w) && Perform(w, RingRuns(i)).Some? && TurnAt(w.clients[i], w.ops[i], effects, work)
    ensures var w' := Perform(w, RingRuns(i)).value;
      && w'.clients[i] == w.clients[i]
      && TurnAt(w'.clients[i], w'.ops[i], effects + StepEffect(w.ops[i]), work)
  {
    Room(State(w.ring, w.ops), i);
    hide Inv, Balanced, TurnAt, Exec;
    TurnRings(w.clients[i], w.ring, w.ops[i], effects, work);
  }

  lemma TurnWorldStep(w: World, a: Act, i: nat, effects: seq<Event>, work: Option<Work>) returns (work': Option<Work>)
    requires WorldInv(w) && Perform(w, a).Some? && i < |w.ops| && a != RingFails(i)
    requires InTurn(w.clients[i]) || (w.clients[i].ProcessorLoop? && work.None?)
    requires TurnAt(w.clients[i], w.ops[i], effects, work)
    ensures var w' := Perform(w, a).value;
      && |w'.ops| == |w'.clients| == |w.ops|
      && TurnAt(w'.clients[i], w'.ops[i], effects + ActEffect(w, a, i), work')
      && (w'.clients[i].ProcessorLoop? && work'.None? && !w.clients[i].ProcessorLoop? ==> w.ring.count == 0)
      && (!OfThread(a, i) ==> w'.clients[i] == w.clients[i])
  {
    work' := work;
    OthersAct(w, a, i);
    assert effects + [] == effects;
    hide TurnAt, Perform, WorldInv;
    if a == RingRuns(i) {
      TurnRingStep(w, i, effects, work);
    } else if a.ClientRuns? && a.thread == i {
      work' := TurnClientStep(w, i, a.how, effects, work);
    }
  }

  /** Thread `i` leaves the top of the processor's loop with act `from` and has not come back before `till`. */
  predicate InLoopBody(worlds: seq<World>, acts: seq<Act>, i: nat, from: nat, till: nat) {
    && from < till <= |acts| < |worlds|
    && i < |worlds[from].ops| == |worlds[from].clients|
    && worlds[from].clients[i].ProcessorLoop? && worlds[from].ops[i] == Idle(NoCall)
    && OfThread(acts[from], i)
    && (forall n :: from < n < till ==> i < |worlds[n].clients| && InTurn(worlds[n].clients[i]))
    && (forall n :: from <= n < till ==> acts[n] != RingFails(i))
  }

  /** In every run, whatever the other threads do: a turn of the processor without failures takes at most one task,
      and has either let it go or put it back, carried once, as one of its fates allows. Alone it takes none
      only from an empty ring. */
  lemma {:induction false} TurnProgram(worlds: seq<World>, acts: seq<Act>, i: nat, from: nat, till: nat, alone: bool)
    returns (work: Option<Work>)
    requires History(worlds, acts) && InLoopBody(worlds, acts, i, from, till)
    requires alone ==> AloneStretch(acts, i, from, till)
    ensures |worlds[till].clients| == |worlds[till].ops| == |worlds[from].ops|
    ensures TurnAt(worlds[till].clients[i], worlds[till].ops[i], ThreadEffects(worlds, acts, i, from, till), work)
    ensures alone && worlds[till].clients[i].ProcessorLoop? && work.None? ==> QueueOf(worlds[from]) == QueueOf(worlds[till]) == []
    decreases till
  {
    hide Perform, Begin, WorldInv, TurnAt, ThreadEffects;
    var w, a := worlds[till - 1], acts[till - 1];
    assert Perform(w, a) == Some(worlds[till - 1 + 1]);
    HistoryInv(worlds, acts, till - 1);
    OneMore(worlds, acts, i, from, till);
    var effects := ThreadEffects(worlds, acts, i, from, till - 1);
    if from == till - 1 {
      TurnBegins(worlds, acts, i, from);
      work := TurnWorldStep(w, a, i, effects, None);
      LoopLeft(w, a, i);
    } else {
      var before := TurnProgram(worlds, acts, i, from, till - 1, alone);
      work := TurnWorldStep(w, a, i, effects, before);
    }
    if alone && worlds[till].clients[i].ProcessorLoop? && work.None? {
      AloneReplays(worlds, acts, i, from, till);
      IdleTurn(w, a, i, effects + ActEffect(w, a, i), QueueOf(worlds[from]));
    }
  }

  lemma TurnBegins(worlds: seq<World>, acts: seq<Act>, i: nat, from: nat)
    requires from <= |acts| <= |worlds|
    ensures TurnAt(ProcessorLoop, Idle(NoCall), ThreadEffects(worlds, acts, i, from, from), None)
  {
  }

  /** The first act of a turn leaves the top of the loop. */
  lemma LoopLeft(w: World, a: Act, i: nat)
    requires |w.ops| == |w.clients| && i < |w.ops| && w.clients[i].ProcessorLoop? && w.ops[i] == Idle(NoCall)
    requires OfThread(a, i) && a != RingFails(i) && Perform(w, a).Some?
    ensures !Perform(w, a).value.clients[i].ProcessorLoop?
  {
  }

  lemma IdleTurn(w: World, a: Act, i: nat, effects: seq<Event>, q: seq<SharedTask>)
    requires WorldInv(w) && Perform(w, a).Some? && w.ring.count == 0 && i < |w.ops|
    requires i < |Perform(w, a).value.clients| == |Perform(w, a).value.ops| && Perform(w, a).value.clients[i].ProcessorLoop?
    requires TurnAt(Perform(w, a).value.clients[i], Perform(w, a).value.ops[i], effects, None)
    requires Replay(q, effects) == Some(QueueOf(Perform(w, a).value))
    requires OfThread(a, i) && a != RingFails(i) && !w.clients[i].ProcessorLoop?
    ensures q == QueueOf(Perform(w, a).value) == []
  {
    assert effects == [];
    LoopReached(w, a, i);
    assert QueueOf(w) == [];
    hide TurnAt, Perform, Inv;
  }

  /** Only a step of the program, which leaves the ring alone, comes back to the top of the loop. */
  lemma LoopReached(w: World, a: Act, i: nat)
    requires |w.ops| == |w.clients| && i < |w.ops| && !w.clients[i].ProcessorLoop?
    requires OfThread(a, i) && Perform(w, a).Some? && Perform(w, a).value.clients[i].ProcessorLoop?
    ensures Perform(w, a).value.ring == w.ring
  {
    hide Exec, Proceed, Interrupted;
  }

  /** A turn of the processor alone is idle on an empty ring and otherwise one dispatch of the head, as
      `Processor.TaskProcessor.ProcessOne` says of the class. */
  lemma TurnAlone(worlds: seq<World>, acts: seq<Act>, i: nat, from: nat, till: nat) returns (work: Option<Work>)
    requires History(worlds, acts) && InLoopBody(worlds, acts, i, from, till) && AloneStretch(acts, i, from, till)
    requires i < |worlds[till].clients| && worlds[till].clients[i].ProcessorLoop?
    ensures work.None? ==> QueueOf(worlds[from]) == QueueOf(worlds[till]) == []
    ensures work.Some? ==>
      && QueueOf(worlds[from]) != [] && QueueOf(worlds[from])[0] == work.value.task
      && Pipeline.Step(worlds[from].ring.capacity, work.value.quantumMs, QueueOf(worlds[from]),
                       Pipeline.Dispatch(work.value.fate), QueueOf(worlds[till]))
  {
    assert from < till < |worlds|;
    hide History, ThreadEffects, InLoopBody, AloneStretch, TurnAt, Replay, Proper;
    work := TurnProgram(worlds, acts, i, from, till, true);
    AloneReplays(worlds, acts, i, from, till);
    if work.Some? {
      WorkIs(worlds[till].clients[i], worlds[till].ops[i], ThreadEffects(worlds, acts, i, from, till), work.value);
      WorkReplays(worlds[from].ring.capacity, QueueOf(worlds[from]), work.value, QueueOf(worlds[till]));
    }
  }

  lemma WorkIs(client: Client, op: Op, effects: seq<Event>, work: Work)
    requires client.ProcessorLoop? && TurnAt(client, op, effects, Some(work))
    ensures Proper(work) && effects == WorkEffects(work)
  {
  }

  lemma WorkReplays(capacity: nat, q: seq<SharedTask>, work: Work, q': seq<SharedTask>)
    requires Proper(work) && Replay(q, WorkEffects(work)) == Some(q')
    ensures q != [] && q[0] == work.task
    ensures Pipeline.Step(capacity, work.quantumMs, q, Pipeline.Dispatch(work.fate), q')
  {
    hide Carry, Pipeline.FateFits, Transit.Ordered;
    var taken := [Take(work.task)];
    assert taken[..0] == [] && Replay(q, []) == Some(q);
    if work.fate.Requeued? {
      assert (taken + [Put(PutBackAs(work))])[..1] == taken;
    } else {
      assert q[1..] + [] == q[1..];
    }
  }
}
