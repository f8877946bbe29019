/** What every run of the scheduler's threads keeps, whatever the interleaving. */
module ThreadSafety {
  import opened SharedTasks
  import opened Priority
  import opened RingProtocol
  import opened RingSafety
  import opened RingTheorems
  import opened Threads
  import Transit
  import Pipeline

  /** Program points reached with no result pending. */
  predicate Resting(client: Client) {
    client.CallerIdle? || client.SchedulerLoop? || client.SchedulerOver? || client.PassTests? || client.PassRefills? ||
    client.ProcessorLoop? || client.ProcessorOver? || client.ProcessorTests? || client.ProcessorRuns?
  }

  predicate Rested(w: World)
    requires |w.clients| == |w.ops|
  {
    forall i :: 0 <= i < |w.ops| && Resting(w.clients[i]) ==> w.ops[i] == Idle(NoCall)
  }

  predicate OpValid(op: Op) { Carried(op).Some? ==> InRange(Carried(op).value.priority) }

  predicate ClientValid(client: Client) {
    match client
    case PassTests(_, vec) => Transit.AllInRange(vec)
    case PassFetches(_, vec) => Transit.AllInRange(vec)
    case PassRefills(_, vec) => Transit.AllInRange(vec)
    case PassAdds(_, vec) => Transit.AllInRange(vec)
    case PassPrints(_, vec) => Transit.AllInRange(vec)
    case ProcessorRuns(t) => InRange(t.priority)
    case _ => true
  }

  /** Every task ever put in the ring, and every task in a thread's hands, has a valid priority. */
  predicate AllValid(w: World)
    requires |w.clients| == |w.ops|
  {
    && Transit.AllInRange(w.ring.entered)
    && (forall i :: 0 <= i < |w.ops| ==> OpValid(w.ops[i]))
    && (forall i :: 0 <= i < |w.clients| ==> ClientValid(w.clients[i]))
  }

  /** The thread is on its way out of a failed ring call. */
  predicate Broken(op: Op) {
    op.EnqUndoSlot? || op.DeqUndoItem? || op.DeqEmptyPostMutex? || op.DeqEmptyPostItem? || op.PrintCatch? ||
    (op.Idle? && (op.result.EnqueueThrew? || op.result.Threw?))
  }

  predicate Clean(w: World) {
    w.failures == 0 ==> w.lost == multiset{} && forall i :: 0 <= i < |w.ops| ==> !Broken(w.ops[i])
  }

  predicate WorldInv(w: World) {
    && Inv(State(w.ring, w.ops))
    && Balanced(w) && Rested(w) && AllValid(w) && Clean(w)
  }

  lemma {:induction false} NothingHeld(clients: seq<Client>, ops: seq<Op>)
    requires |clients| == |ops|
    requires forall i :: 0 <= i < |ops| ==> ops[i] == Idle(NoCall)
    requires forall i :: 0 <= i < |ops| ==> ClientIds(clients[i]) == multiset{}
    ensures Held(clients, ops) == multiset{}
  {
    if ops != [] {
      assert ops[0] == Idle(NoCall) && ClientIds(clients[0]) == multiset{};
      NothingHeld(clients[1..], ops[1..]);
    }
  }

  lemma BeginInv(w: World)
    requires Begin(w)
    ensures WorldInv(w)
  {
    InitInv(State(w.ring, w.ops));
    NothingHeld(w.clients, w.ops);
    assert Queue(w.ring) == [];
  }

  // A ring step.

  lemma RingRunsBalanced(w: World, i: nat)
    requires WorldInv(w) && Perform(w, RingRuns(i)).Some?
    ensures Balanced(Perform(w, RingRuns(i)).value)
  {
    var w' := Perform(w, RingRuns(i)).value;
    RingStepBalances(State(w.ring, w.ops), i);
    assert w.clients[i := w.clients[i]] == w.clients;
    forall x ensures w'.submitted[x] == (Ids(Queue(w'.ring)) + Held(w'.clients, w'.ops) + w'.retired + w'.lost)[x] {
      HeldUpdate(x, w.clients, w.ops, i, w.clients[i], w'.ops[i]);
      assert (OpIds(w'.ops[i]) + Ids(Queue(w'.ring)))[x] == (OpIds(w.ops[i]) + Ids(Queue(w.ring)))[x];
    }
  }

  /** The task a dequeue takes was put in the ring, so its priority is valid. */
  lemma RingRunsValid(w: World, i: nat)
    requires WorldInv(w) && Perform(w, RingRuns(i)).Some?
    ensures |w.ring.left| <= |w.ring.entered| && AllValid(Perform(w, RingRuns(i)).value)
  {
    var s := State(w.ring, w.ops);
    var Goes(r, op) := Exec(w.ring, w.ops[i]);
    assert OpValid(w.ops[i]);
    if w.ops[i].EnqAddCount? {
      assert r.entered == w.ring.entered + [w.ops[i].task];
    } else if w.ops[i].DeqSubCount? {
      TakeIsHead(s, i);
      assert w.ops[i].task == w.ring.entered[|w.ring.left|];
    } else {
      HistoriesStay(w.ring, w.ops[i]);
    }
    assert OpValid(op);
  }

  lemma NotBroken(r: Ring, op: Op)
    requires Exec(r, op).Goes? && !Broken(op)
    requires op.DeqLoadCount? ==> r.count >= 1
    ensures !Broken(Exec(r, op).op)
  {
  }

  lemma RingRunsClean(w: World, i: nat)
    requires WorldInv(w) && Perform(w, RingRuns(i)).Some?
    ensures |w.clients| == |w.ops|
    ensures Rested(Perform(w, RingRuns(i)).value) && Clean(Perform(w, RingRuns(i)).value)
  {
    if w.failures == 0 {
      Room(State(w.ring, w.ops), i);
      NotBroken(w.ring, w.ops[i]);
    }
    assert !w.ops[i].Idle?;
    hide Inv, AllValid, Broken, Resting, Exec, Held;
  }

  lemma RingRunsInv(w: World, i: nat)
    requires WorldInv(w) && Perform(w, RingRuns(i)).Some?
    ensures WorldInv(Perform(w, RingRuns(i)).value)
  {
    RingRunsBalanced(w, i);
    RingRunsValid(w, i);
    RingRunsClean(w, i);
    hide Inv, Balanced, AllValid, Rested, Clean, Exec;
    RunInv(State(w.ring, w.ops), i);
  }

  // A failed wait.

  lemma RingFailsBalanced(w: World, i: nat)
    requires WorldInv(w) && Perform(w, RingFails(i)).Some?
    ensures Balanced(Perform(w, RingFails(i)).value)
  {
    var w' := Perform(w, RingFails(i)).value;
    FailureBalances(w.ops[i]);
    hide Inv, AllValid, Rested, Clean;
    assert w.clients[i := w.clients[i]] == w.clients;
    forall x ensures Held(w'.clients, w'.ops)[x] == Held(w.clients, w.ops)[x] {
      HeldUpdate(x, w.clients, w.ops, i, w.clients[i], w'.ops[i]);
    }
    assert Held(w'.clients, w'.ops) == Held(w.clients, w.ops);
  }

  lemma RingFailsInv(w: World, i: nat)
    requires WorldInv(w) && Perform(w, RingFails(i)).Some?
    ensures WorldInv(Perform(w, RingFails(i)).value)
  {
    InterruptInv(State(w.ring, w.ops), i);
    RingFailsBalanced(w, i);
    FailureKeepsTask(w.ops[i]);
    hide Inv, Balanced;
    assert OpValid(w.ops[i]);
  }

  // A client's step.

  /** What the rest of the invariant needs of a turn. */
  predicate TurnFine(client: Client, result: Result, turn: Turn) {
    && (turn.op == Idle(NoCall) || Entry(turn.op))
    && (Resting(turn.client) ==> turn.op == Idle(NoCall))
    && (OpValid(Idle(result)) && ClientValid(client) ==>
          OpValid(turn.op) && ClientValid(turn.client) && (!Broken(Idle(result)) ==> turn.lost == multiset{}))
  }

  /** Validity at the program counters a client's turn meets. */
  lemma ValidFacts()
    ensures OpValid(Idle(NoCall)) && OpValid(DeqWaitItem) && OpValid(PrintWaitMutex)
    ensures forall t :: OpValid(EnqWaitSlot(t)) == InRange(t.priority)
    ensures forall t :: OpValid(Idle(Dequeued(t))) ==> InRange(t.priority)
  {
    hide InRange;
    EntriesValid();
    forall t ensures OpValid(Idle(Dequeued(t))) ==> InRange(t.priority) { ResultValid(t); }
  }

  lemma EntriesValid()
    ensures OpValid(Idle(NoCall)) && OpValid(DeqWaitItem) && OpValid(PrintWaitMutex)
    ensures forall t :: OpValid(EnqWaitSlot(t)) == InRange(t.priority)
  {
    hide InRange;
  }

  lemma ResultValid(t: SharedTask)
    ensures OpValid(Idle(Dequeued(t))) ==> InRange(t.priority)
  {
    hide InRange;
  }

  lemma CallerFine(client: Client, result: Result, how: How, turn: Turn)
    requires client.CallerIdle? || client.CallerAdds? || client.CallerPrints?
    requires ProceedCaller(client, result, how) == Some(turn)
    ensures TurnFine(client, result, turn)
  {
    ValidFacts();
    hide InRange, OpValid;
  }

  lemma PassFine(seen: Seen, client: Client, result: Result, how: How, turn: Turn)
    requires client.PassTests? || client.PassFetches? || client.PassRefills? || client.PassAdds? || client.PassPrints?
    requires ProceedPass(seen, client, result, how) == Some(turn)
    ensures TurnFine(client, result, turn)
  {
    match client {
      case PassFetches(_, _) => FetchFine(seen, client, result, how, turn);
      case PassRefills(_, _) => RefillFine(seen, client, result, how, turn);
      case _ => AddPrintFine(seen, client, result, how, turn);
    }
  }

  lemma AddPrintFine(seen: Seen, client: Client, result: Result, how: How, turn: Turn)
    requires client.PassTests? || client.PassAdds? || client.PassPrints?
    requires ProceedPass(seen, client, result, how) == Some(turn)
    ensures TurnFine(client, result, turn)
  {
    ValidFacts();
    hide Transit.Carry, Ids, InRange, Transit.AllInRange, OpValid;
  }

  lemma FetchFine(seen: Seen, client: Client, result: Result, how: How, turn: Turn)
    requires client.PassFetches? && ProceedPass(seen, client, result, how) == Some(turn)
    ensures TurnFine(client, result, turn)
  {
    ValidFacts();
    hide Ids, InRange, OpValid;
  }

  lemma RefillFine(seen: Seen, client: Client, result: Result, how: How, turn: Turn)
    requires client.PassRefills? && ProceedPass(seen, client, result, how) == Some(turn)
    ensures TurnFine(client, result, turn)
  {
    ValidFacts();
    hide Transit.Carry, Transit.Ordered, Ids, InRange, OpValid;
    if client.vec != [] {
      Transit.CarryNeverRaises(Some(how.algorithm), client.vec[0], how.trip);
    }
  }

  lemma ProcessorFine(seen: Seen, client: Client, result: Result, how: How, turn: Turn)
    requires client.ProcessorLoop? || client.ProcessorOver? || client.ProcessorTests? || client.ProcessorFetches? ||
      client.ProcessorRuns? || client.ProcessorAdds? || client.ProcessorPrints?
    requires ProceedProcessor(seen, client, result, how) == Some(turn)
    ensures TurnFine(client, result, turn)
  {
    match client {
      case ProcessorRuns(t) => RunsFine(seen, t, result, how, turn);
      case ProcessorFetches => HandedFine(seen, client, result, how, turn);
      case ProcessorAdds => HandedFine(seen, client, result, how, turn);
      case _ => LoopFine(seen, client, result, how, turn);
    }
  }

  lemma LoopFine(seen: Seen, client: Client, result: Result, how: How, turn: Turn)
    requires client.ProcessorLoop? || client.ProcessorOver? || client.ProcessorTests? || client.ProcessorPrints?
    requires ProceedProcessor(seen, client, result, how) == Some(turn)
    ensures TurnFine(client, result, turn)
  {
    ValidFacts();
    hide InRange, OpValid, Carried, ProceedRuns;
  }

  lemma HandedFine(seen: Seen, client: Client, result: Result, how: How, turn: Turn)
    requires client.ProcessorFetches? || client.ProcessorAdds?
    requires ProceedProcessor(seen, client, result, how) == Some(turn)
    ensures TurnFine(client, result, turn)
  {
    ValidFacts();
    hide Transit.Carry, Pipeline.FateFits, InRange, OpValid, Carried;
  }

  lemma RunsFine(seen: Seen, t: SharedTask, result: Result, how: How, turn: Turn)
    requires ProceedRuns(seen, t, how) == Some(turn)
    ensures TurnFine(ProcessorRuns(t), result, turn)
  {
    if how.fate.Requeued? {
      RequeuedFine(seen, t, result, how, turn);
    } else {
      RetiredFine(seen, t, result, how, turn);
    }
  }

  lemma RetiredFine(seen: Seen, t: SharedTask, result: Result, how: How, turn: Turn)
    requires how.Decide? && !how.fate.Requeued? && ProceedRuns(seen, t, how) == Some(turn)
    ensures TurnFine(ProcessorRuns(t), result, turn)
  {
    ValidFacts();
    hide Transit.Carry, Transit.Ordered, Pipeline.FateFits, InRange, OpValid, Carried, Given, Broken;
  }

  lemma RequeuedFine(seen: Seen, t: SharedTask, result: Result, how: How, turn: Turn)
    requires how.Decide? && how.fate.Requeued? && ProceedRuns(seen, t, how) == Some(turn)
    ensures TurnFine(ProcessorRuns(t), result, turn)
  {
    FitsOrdered(how.quantumMs, t, how.fate);
    Transit.CarryNeverRaises(None, t, how.fate.trip);
    EnqueueFine(t, result, Transit.Carry(None, t, how.fate.trip));
    hide Transit.Carry, Transit.Ordered, Pipeline.FateFits, TurnFine, InRange;
  }

  lemma EnqueueFine(t: SharedTask, result: Result, s: SharedTask)
    requires InRange(s.priority)
    ensures TurnFine(ProcessorRuns(t), result, Turn(ProcessorAdds, EnqWaitSlot(s), multiset{}, multiset{}, multiset{}, false))
  {
    hide InRange, Broken;
  }

  lemma TurnIsFine(seen: Seen, client: Client, result: Result, how: How, turn: Turn)
    requires Proceed(seen, client, result, how) == Some(turn)
    ensures TurnFine(client, result, turn)
  {
    if client.CallerIdle? || client.CallerAdds? || client.CallerPrints? {
      CallerFine(client, result, how, turn);
    } else if client.PassTests? || client.PassFetches? || client.PassRefills? || client.PassAdds? || client.PassPrints? {
      PassFine(seen, client, result, how, turn);
    } else if !client.SchedulerLoop? && !client.SchedulerOver? {
      ProcessorFine(seen, client, result, how, turn);
    }
  }

  lemma TurnBalances(x: int, seen: Seen, client: Client, result: Result, how: How, turn: Turn)
    requires Proceed(seen, client, result, how) == Some(turn)
    requires Resting(client) ==> result == NoCall
    ensures TurnKeeps(x, client, result, turn)
  {
    ResultIds(NoCall);
    if client.CallerIdle? || client.CallerAdds? || client.CallerPrints? {
      CallerBalances(x, client, result, how, turn);
    } else if client.PassTests? || client.PassFetches? || client.PassRefills? || client.PassAdds? || client.PassPrints? {
      PassBalances(x, seen, client, result, how, turn);
    } else if !client.SchedulerLoop? && !client.SchedulerOver? {
      ProcessorBalances(x, seen, client, result, how, turn);
    }
  }

  /** The turn a client takes in a world. */
  function TurnOf(w: World, i: nat, how: How): Option<Turn>
    requires i < |w.ops| && i < |w.clients| && w.ops[i].Idle?
  {
    Proceed(Seen(w.ring.count, w.scheduling, w.processing), w.clients[i], w.ops[i].result, how)
  }

  lemma TurnLedger(x: int, seen: Seen, clients: seq<Client>, ops: seq<Op>, i: nat, how: How, turn: Turn)
    requires |clients| == |ops| && i < |ops| && ops[i].Idle?
    requires Proceed(seen, clients[i], ops[i].result, how) == Some(turn)
    requires Resting(clients[i]) ==> ops[i] == Idle(NoCall)
    ensures Held(clients[i := turn.client], ops[i := turn.op])[x] + turn.retired[x] + turn.lost[x]
      == Held(clients, ops)[x] + turn.submitted[x]
  {
    TurnBalances(x, seen, clients[i], ops[i].result, how, turn);
    HeldUpdate(x, clients, ops, i, turn.client, turn.op);
    hide Proceed, Resting, OpIds, ClientIds, Held;
  }

  lemma ClientRunsBalanced(w: World, i: nat, how: How)
    requires WorldInv(w) && Perform(w, ClientRuns(i, how)).Some?
    ensures Balanced(Perform(w, ClientRuns(i, how)).value)
  {
    hide Inv, AllValid, Clean, Proceed, Resting, OpIds, ClientIds, Held, Ids;
    var w' := Perform(w, ClientRuns(i, how)).value;
    var turn := TurnOf(w, i, how).value;
    forall x ensures w'.submitted[x] == (Ids(Queue(w'.ring)) + Held(w'.clients, w'.ops) + w'.retired + w'.lost)[x] {
      TurnLedger(x, Seen(w.ring.count, w.scheduling, w.processing), w.clients, w.ops, i, how, turn);
    }
  }

  lemma ClientRunsValid(w: World, i: nat, how: How)
    requires WorldInv(w) && Perform(w, ClientRuns(i, how)).Some?
    requires TurnFine(w.clients[i], w.ops[i].result, TurnOf(w, i, how).value)
    ensures |w.clients| == |w.ops| && AllValid(Perform(w, ClientRuns(i, how)).value)
  {
    assert OpValid(w.ops[i]) && ClientValid(w.clients[i]);
    hide Inv, Balanced, Proceed, OpValid, ClientValid, Rested, Clean, Resting, Broken, Entry;
  }

  lemma ClientRunsRested(w: World, i: nat, how: How)
    requires |w.clients| == |w.ops| && Rested(w) && Perform(w, ClientRuns(i, how)).Some?
    requires TurnFine(w.clients[i], w.ops[i].result, TurnOf(w, i, how).value)
    ensures Rested(Perform(w, ClientRuns(i, how)).value)
  {
    hide Proceed, OpValid, ClientValid, Resting, Broken, Entry;
  }

  lemma ClientRunsClean(w: World, i: nat, how: How)
    requires WorldInv(w) && Perform(w, ClientRuns(i, how)).Some?
    requires TurnFine(w.clients[i], w.ops[i].result, TurnOf(w, i, how).value)
    ensures Clean(Perform(w, ClientRuns(i, how)).value)
  {
    assert OpValid(w.ops[i]) && ClientValid(w.clients[i]);
    NotBrokenAtEntry(TurnOf(w, i, how).value.op);
    hide Inv, Balanced, Proceed, OpValid, ClientValid, AllValid, Rested, Resting, Broken, Entry;
  }

  lemma NotBrokenAtEntry(op: Op)
    ensures op == Idle(NoCall) || Entry(op) ==> !Broken(op)
  {
  }

  lemma ClientRunsInv(w: World, i: nat, how: How)
    requires WorldInv(w) && Perform(w, ClientRuns(i, how)).Some?
    ensures WorldInv(Perform(w, ClientRuns(i, how)).value)
  {
    hide Inv, Balanced, Proceed, AllValid, Clean, Rested, Entry, Broken, OpValid, ClientValid, Resting;
    var turn := TurnOf(w, i, how).value;
    TurnIsFine(Seen(w.ring.count, w.scheduling, w.processing), w.clients[i], w.ops[i].result, how, turn);
    ClientRunsBalanced(w, i, how);
    CallInv(State(w.ring, w.ops), i, turn.op);
    ClientRunsValid(w, i, how);
    assert Rested(w);
    ClientRunsRested(w, i, how);
    ClientRunsClean(w, i, how);
  }

  lemma PerformInv(w: World, a: Act)
    requires WorldInv(w) && Perform(w, a).Some?
    ensures WorldInv(Perform(w, a).value)
  {
    match a {
      case RingRuns(i) => RingRunsInv(w, i);
      case RingFails(i) => RingFailsInv(w, i);
      case ClientRuns(i, how) => ClientRunsInv(w, i, how);
      case Switch(_, _) =>
    }
  }

  lemma {:induction false} HistoryInv(worlds: seq<World>, acts: seq<Act>, n: nat)
    requires History(worlds, acts) && n < |worlds|
    ensures WorldInv(worlds[n])
  {
    hide WorldInv, Perform, Begin;
    if n == 0 {
      BeginInv(worlds[0]);
    } else {
      HistoryInv(worlds, acts, n - 1);
      assert Perform(worlds[n - 1], acts[n - 1]) == Some(worlds[n - 1 + 1]);
      PerformInv(worlds[n - 1], acts[n - 1]);
    }
  }

  // The ledger, step by step.

  /** The client runs in the thread of a caller of `add_task`. */
  predicate InCaller(client: Client) {
    match client
    case CallerIdle => true
    case CallerAdds => true
    case CallerPrints => true
    case PassTests(owner, _) => owner.Caller?
    case PassFetches(owner, _) => owner.Caller?
    case PassRefills(owner, _) => owner.Caller?
    case PassAdds(owner, _) => owner.Caller?
    case PassPrints(owner, _) => owner.Caller?
    case _ => false
  }

  /** What a client holds when it resumes from a failed ring call, and nothing else, is lost; in a caller's
      thread, and nowhere else, that ends the process. */
  predicate TurnLoses(client: Client, result: Result, turn: Turn) {
    && turn.lost == (if Broken(Idle(result)) then ClientIds(client) + OpIds(Idle(result)) else multiset{})
    && (turn.dies <==> Broken(Idle(result)) && InCaller(client))
  }

  lemma CallerLoses(client: Client, result: Result, how: How, turn: Turn)
    requires client.CallerIdle? || client.CallerAdds? || client.CallerPrints?
    requires ProceedCaller(client, result, how) == Some(turn)
    requires Resting(client) ==> result == NoCall
    ensures TurnLoses(client, result, turn)
  {
    OpFacts();
    hide OpIds, Carried, InRange;
  }

  lemma PassLoses(seen: Seen, client: Client, result: Result, how: How, turn: Turn)
    requires client.PassTests? || client.PassFetches? || client.PassRefills? || client.PassAdds? || client.PassPrints?
    requires ProceedPass(seen, client, result, how) == Some(turn)
    requires (Resting(client) ==> result == NoCall) && (result.Dequeued? ==> InRange(result.task.priority))
    ensures TurnLoses(client, result, turn)
  {
    match client {
      case PassFetches(_, _) => FetchLoses(seen, client, result, how, turn);
      case PassAdds(_, _) => AddLoses(seen, client, result, how, turn);
      case PassPrints(_, _) => PrintLoses(seen, client, result, how, turn);
      case _ => RestingLoses(seen, client, how, turn);
    }
  }

  lemma RestingLoses(seen: Seen, client: Client, how: How, turn: Turn)
    requires (client.PassTests? || client.PassRefills?) && ProceedPass(seen, client, NoCall, how) == Some(turn)
    ensures TurnLoses(client, NoCall, turn)
  {
    hide OpIds, Carried, InRange, Ids, Transit.Carry, Transit.Ordered, ClientIds;
  }

  lemma PrintLoses(seen: Seen, client: Client, result: Result, how: How, turn: Turn)
    requires client.PassPrints? && ProceedPass(seen, client, result, how) == Some(turn)
    ensures TurnLoses(client, result, turn)
  {
    OpFacts();
    hide OpIds, Carried, InRange, Ids;
  }

  lemma FetchLoses(seen: Seen, client: Client, result: Result, how: How, turn: Turn)
    requires client.PassFetches? && ProceedPass(seen, client, result, how) == Some(turn)
    requires result.Dequeued? ==> InRange(result.task.priority)
    ensures TurnLoses(client, result, turn)
  {
    OpFacts();
    hide OpIds, Carried, InRange, Ids;
  }

  lemma AddLoses(seen: Seen, client: Client, result: Result, how: How, turn: Turn)
    requires client.PassAdds? && ProceedPass(seen, client, result, how) == Some(turn)
    ensures TurnLoses(client, result, turn)
  {
    OpFacts();
    hide OpIds, Carried, InRange, Ids;
  }

  lemma ProcessorLoses(seen: Seen, client: Client, result: Result, how: How, turn: Turn)
    requires client.ProcessorLoop? || client.ProcessorOver? || client.ProcessorTests? || client.ProcessorFetches? ||
      client.ProcessorRuns? || client.ProcessorAdds? || client.ProcessorPrints?
    requires ProceedProcessor(seen, client, result, how) == Some(turn)
    requires (Resting(client) ==> result == NoCall) && (result.Dequeued? ==> InRange(result.task.priority))
    ensures TurnLoses(client, result, turn)
  {
    match client {
      case ProcessorRuns(t) => RunsLoses(seen, t, result, how, turn);
      case _ => CallsLose(seen, client, result, how, turn);
    }
  }

  lemma CallsLose(seen: Seen, client: Client, result: Result, how: How, turn: Turn)
    requires client.ProcessorLoop? || client.ProcessorOver? || client.ProcessorTests? || client.ProcessorFetches? ||
      client.ProcessorAdds? || client.ProcessorPrints?
    requires ProceedProcessor(seen, client, result, how) == Some(turn)
    requires (Resting(client) ==> result == NoCall) && (result.Dequeued? ==> InRange(result.task.priority))
    ensures TurnLoses(client, result, turn)
  {
    hide OpIds, Carried, InRange, Ids, ProceedRuns;
    OpFacts();
  }

  lemma RunsLoses(seen: Seen, t: SharedTask, result: Result, how: How, turn: Turn)
    requires ProceedRuns(seen, t, how) == Some(turn) && result == NoCall
    ensures TurnLoses(ProcessorRuns(t), result, turn)
  {
    hide OpIds, Carried, InRange, Ids, Transit.Carry, Pipeline.FateFits;
  }

  lemma TurnLosesHeld(seen: Seen, client: Client, result: Result, how: How, turn: Turn)
    requires Proceed(seen, client, result, how) == Some(turn)
    requires Resting(client) ==> result == NoCall
    requires result.Dequeued? ==> InRange(result.task.priority)
    ensures TurnLoses(client, result, turn)
  {
    if client.CallerIdle? || client.CallerAdds? || client.CallerPrints? {
      CallerLoses(client, result, how, turn);
    } else if client.PassTests? || client.PassFetches? || client.PassRefills? || client.PassAdds? || client.PassPrints? {
      PassLoses(seen, client, result, how, turn);
    } else if !client.SchedulerLoop? && !client.SchedulerOver? {
      ProcessorLoses(seen, client, result, how, turn);
    }
  }

  /** The processor lets go of a task only in the cases of its code. */
  lemma TurnRetires(seen: Seen, client: Client, result: Result, how: How, turn: Turn)
    requires Proceed(seen, client, result, how) == Some(turn)
    ensures turn.retired == if client.ProcessorRuns? && !how.fate.Requeued? then multiset{client.task.id} else multiset{}
    ensures client.ProcessorRuns? ==>
      && how.Decide? && Pipeline.FateFits(how.quantumMs, client.task, how.fate)
      && (how.fate.Requeued? ==> seen.processing) && (how.fate.Stopped? ==> !seen.processing) && !how.fate.Dropped?
  {
    hide Transit.Carry, Pipeline.FateFits, InRange, Ids;
  }

  /** How one step changes the ledger. */
  predicate LedgerMoves(w: World, a: Act, w': World) {
    if !a.ClientRuns? || a.thread >= |w.clients| || a.thread >= |w.ops| then
      w'.submitted == w.submitted && w'.retired == w.retired && w'.lost == w.lost && w'.alive == w.alive
    else
      var client, op := w.clients[a.thread], w.ops[a.thread];
      && w'.submitted == w.submitted +
           (if client.CallerIdle? && a.how.Submit? then multiset{a.how.task.id} else multiset{})
      && w'.lost == w.lost + (if Broken(op) then ClientIds(client) + OpIds(op) else multiset{})
      && (w'.alive <==> !(Broken(op) && InCaller(client)))
      && (if client.ProcessorRuns? then
            && a.how.Decide? && Pipeline.FateFits(a.how.quantumMs, client.task, a.how.fate)
            && (a.how.fate.Requeued? ==> w.processing) && (a.how.fate.Stopped? ==> !w.processing) && !a.how.fate.Dropped?
            && w'.retired == w.retired + (if a.how.fate.Requeued? then multiset{} else multiset{client.task.id})
          else w'.retired == w.retired)
  }

  lemma TurnSubmits(seen: Seen, client: Client, result: Result, how: How, turn: Turn)
    requires Proceed(seen, client, result, how) == Some(turn)
    ensures turn.submitted == if client.CallerIdle? && how.Submit? then multiset{how.task.id} else multiset{}
  {
    hide Transit.Carry, Pipeline.FateFits, InRange, Ids;
  }

  lemma ClientLedger(w: World, i: nat, how: How)
    requires |w.clients| == |w.ops| && Perform(w, ClientRuns(i, how)).Some?
    requires Resting(w.clients[i]) ==> w.ops[i].result == NoCall
    requires w.ops[i].result.Dequeued? ==> InRange(w.ops[i].result.task.priority)
    ensures LedgerMoves(w, ClientRuns(i, how), Perform(w, ClientRuns(i, how)).value)
  {
    hide Proceed, Resting, OpIds, ClientIds, Pipeline.FateFits, Broken, InRange, InCaller;
    var turn := TurnOf(w, i, how).value;
    var seen := Seen(w.ring.count, w.scheduling, w.processing);
    TurnLosesHeld(seen, w.clients[i], w.ops[i].result, how, turn);
    TurnRetires(seen, w.clients[i], w.ops[i].result, how, turn);
    TurnSubmits(seen, w.clients[i], w.ops[i].result, how, turn);
  }

  lemma OtherLedger(w: World, a: Act)
    requires !a.ClientRuns? && Perform(w, a).Some?
    ensures LedgerMoves(w, a, Perform(w, a).value)
  {
    hide Exec, Interrupted;
  }

  lemma PerformLedger(w: World, a: Act)
    requires WorldInv(w) && Perform(w, a).Some?
    ensures LedgerMoves(w, a, Perform(w, a).value)
  {
    if a.ClientRuns? {
      assert OpValid(w.ops[a.thread]);
      assert Resting(w.clients[a.thread]) ==> w.ops[a.thread].result == NoCall;
      assert w.ops[a.thread].result.Dequeued? ==> InRange(w.ops[a.thread].result.task.priority);
      hide *;
      ClientLedger(w, a.thread, a.how);
    } else {
      OtherLedger(w, a);
    }
  }

  // The theorems.

  /** In every run an id is submitted by a caller, retired by the processor in one of the drop cases of its
      code, and lost exactly when a thread resumes from a failed ring call holding it. */
  lemma LedgerExplained(worlds: seq<World>, acts: seq<Act>, n: nat)
    requires History(worlds, acts) && n < |acts|
    ensures LedgerMoves(worlds[n], acts[n], worlds[n + 1])
  {
    HistoryInv(worlds, acts, n);
    hide WorldInv, Perform, Begin, LedgerMoves;
    assert Perform(worlds[n], acts[n]) == Some(worlds[n + 1]);
    PerformLedger(worlds[n], acts[n]);
  }

  /** At every moment of every run, failed ring calls included, each submitted id is in the ring, in
      a thread's hands, retired by the processor, or lost; what was retired and lost came about by the steps
      that `LedgerMoves` describes; and as long as no ring call has failed, none is lost. */
  lemma TasksConserved(worlds: seq<World>, acts: seq<Act>, n: nat)
    requires History(worlds, acts) && n < |worlds|
    ensures var w := worlds[n];
      && |w.clients| == |w.ops| && |w.ring.left| <= |w.ring.entered|
      && w.submitted == Ids(Queue(w.ring)) + Held(w.clients, w.ops) + w.retired + w.lost
      && (w.failures == 0 ==> w.lost == multiset{})
    ensures forall m :: 0 <= m < n ==> LedgerMoves(worlds[m], acts[m], worlds[m + 1])
  {
    HistoryInv(worlds, acts, n);
    forall m | 0 <= m < n ensures LedgerMoves(worlds[m], acts[m], worlds[m + 1]) {
      LedgerExplained(worlds, acts, m);
    }
    hide LedgerMoves, Perform, Inv;
  }

  lemma {:induction false} CarryingIsHeld(clients: seq<Client>, ops: seq<Op>)
    requires |clients| == |ops|
    ensures Count(Carrying, ops) <= |Held(clients, ops)|
  {
    if ops != [] {
      CarryingIsHeld(clients[1..], ops[1..]);
      CarriedWhenCarrying(ops[0]);
    }
  }

  lemma CarriedWhenCarrying(op: Op)
    ensures Plays(Carrying, op) ==> |OpIds(op)| == 1
  {
  }

  /** If no more tasks are alive (submitted, and neither retired nor lost) than the ring has slots, no
      add, refill or re-queue is held up on a full ring, whatever else is going on. */
  lemma NobodyWaitsForRoom(worlds: seq<World>, acts: seq<Act>, n: nat, i: nat)
    requires History(worlds, acts) && n < |worlds| && i < |worlds[n].ops|
    requires worlds[n].ops[i].EnqWaitSlot?
    requires |worlds[n].submitted| <= worlds[n].ring.capacity + |worlds[n].retired| + |worlds[n].lost|
    ensures worlds[n].ring.enqueueSem >= 1
    ensures Exec(worlds[n].ring, worlds[n].ops[i]).Goes?
    ensures worlds[n].alive ==> Perform(worlds[n], RingRuns(i)).Some?
  {
    var w := worlds[n];
    HistoryInv(worlds, acts, n);
    CarryingIsHeld(w.clients, w.ops);
    IdsSize(Queue(w.ring));
    FreeSlotsInv(State(w.ring, w.ops));
    CountAtLeast(Waiting, w.ops, i);
  }

  /** Every task that is ever in the ring has a valid priority, so the validation in `get_next_task` never
      throws away a task it has dequeued. */
  lemma RingPrioritiesValid(worlds: seq<World>, acts: seq<Act>, n: nat)
    requires History(worlds, acts) && n < |worlds|
    ensures |worlds[n].ring.left| <= |worlds[n].ring.entered| && Transit.AllInRange(Queue(worlds[n].ring))
    ensures forall i :: 0 <= i < |worlds[n].ops| && worlds[n].ops[i].Idle? && worlds[n].ops[i].result.Dequeued? ==>
      InRange(worlds[n].ops[i].result.task.priority)
  {
    HistoryInv(worlds, acts, n);
    forall i | 0 <= i < |worlds[n].ops| && worlds[n].ops[i].Idle? && worlds[n].ops[i].result.Dequeued?
      ensures InRange(worlds[n].ops[i].result.task.priority)
    {
      assert OpValid(worlds[n].ops[i]);
    }
  }
}
