/** The scheduler's threads over the ring protocol: callers of `add_task`, the reorder thread and the
    processor, each a program whose ring calls run step by step among the others'. */
module Threads {
  import opened SharedTasks
  import opened Priority
  import opened RingProtocol
  import opened RingSafety
  import opened RingTheorems
  import Transit
  import Pipeline

  /** Whose reorder pass it is: a caller runs one after adding, the reorder thread runs them in a loop. */
  datatype Owner = Caller | Scheduler

  /** Where a thread is in its program. Tasks held in local vectors are written as the records they came
      out of the ring as. */
  datatype Client =
    | CallerIdle
    | CallerAdds
    | CallerPrints
    | SchedulerLoop
    | SchedulerOver
    | PassTests(owner: Owner, vec: seq<SharedTask>)
    | PassFetches(owner: Owner, vec: seq<SharedTask>)
    | PassRefills(owner: Owner, vec: seq<SharedTask>)
    | PassAdds(owner: Owner, vec: seq<SharedTask>)
    | PassPrints(owner: Owner, vec: seq<SharedTask>)
    | ProcessorLoop
    | ProcessorOver
    | ProcessorTests
    | ProcessorFetches
    | ProcessorRuns(task: SharedTask)
    | ProcessorAdds
    | ProcessorPrints

  /** What the environment decides in a step: a task to submit, the clock readings of a rewrite, the
      outcome of an execution under the current quantum. */
  datatype How =
    | Go
    | Submit(task: SharedTask)
    | Rewrite(algorithm: Transit.Algorithm, trip: Transit.Trip)
    | Decide(quantumMs: int, fate: Pipeline.Fate)

  /** The shared values a client reads outside the mutex. */
  datatype Seen = Seen(count: nat, scheduling: bool, processing: bool)

  /** The effect of a client's step on itself and on the ledger of ids, and whether an exception leaves the
      thread, which ends the process. */
  datatype Turn = Turn(client: Client, op: Op, submitted: multiset<int>, retired: multiset<int>, lost: multiset<int>, dies: bool)

  function Moves(client: Client, op: Op): Option<Turn> {
    Some(Turn(client, op, multiset{}, multiset{}, multiset{}, false))
  }

  function Loses(client: Client, ids: multiset<int>): Option<Turn> {
    Some(Turn(client, Idle(NoCall), multiset{}, multiset{}, ids, client.CallerIdle?))
  }

  function AfterPass(owner: Owner): Client { if owner.Caller? then CallerIdle else SchedulerLoop }

  /** A caller of `add_task`: submit, print, then a pass. */
  function ProceedCaller(client: Client, result: Result, how: How): Option<Turn>
    requires client.CallerIdle? || client.CallerAdds? || client.CallerPrints?
  {
    match client
    case CallerIdle =>
      if how.Submit? && InRange(how.task.priority) then
        Some(Turn(CallerAdds, EnqWaitSlot(how.task), multiset{how.task.id}, multiset{}, multiset{}, false))
      else None
    case CallerAdds =>
      (match result
       case Enqueued => Moves(CallerPrints, PrintWaitMutex)
       case EnqueueThrew(t, _) => Loses(CallerIdle, multiset{t.id})
       case _ => None)
    case CallerPrints =>
      (match result
       case Printed(_) => Moves(PassTests(Caller, []), Idle(NoCall))
       case Threw(_) => Loses(CallerIdle, multiset{})
       case _ => None)
  }

  /** The reorder pass: test, fetch, ... until the test finds the ring empty; then add and print each. */
  function ProceedPass(seen: Seen, client: Client, result: Result, how: How): Option<Turn>
    requires client.PassTests? || client.PassFetches? || client.PassRefills? || client.PassAdds? || client.PassPrints?
  {
    match client
    case PassTests(owner, vec) =>
      if seen.count == 0 then Moves(PassRefills(owner, vec), Idle(NoCall))
      else Moves(PassFetches(owner, vec), DeqWaitItem)
    case PassFetches(owner, vec) =>
      (match result
       case Dequeued(t) =>
         if InRange(t.priority) then Moves(PassTests(owner, vec + [t]), Idle(NoCall))
         else Loses(AfterPass(owner), Ids(vec) + multiset{t.id})
       case Threw(_) => Loses(AfterPass(owner), Ids(vec))
       case _ => None)
    case PassRefills(owner, vec) =>
      if vec == [] then Moves(AfterPass(owner), Idle(NoCall))
      else if how.Rewrite? && Transit.Ordered(how.trip) && InRange(vec[0].priority) then
        Moves(PassAdds(owner, vec[1..]), EnqWaitSlot(Transit.Carry(Some(how.algorithm), vec[0], how.trip)))
      else None
    case PassAdds(owner, vec) =>
      (match result
       case Enqueued => Moves(PassPrints(owner, vec), PrintWaitMutex)
       case EnqueueThrew(t, _) => Loses(AfterPass(owner), Ids(vec) + multiset{t.id})
       case _ => None)
    case PassPrints(owner, vec) =>
      (match result
       case Printed(_) => Moves(PassRefills(owner, vec), Idle(NoCall))
       case Threw(_) => Loses(AfterPass(owner), Ids(vec))
       case _ => None)
  }

  /** The processor with a task in its hands: back into the ring while it runs on, or let go. */
  function ProceedRuns(seen: Seen, t: SharedTask, how: How): Option<Turn> {
    if !how.Decide? || !InRange(t.priority) || !Pipeline.FateFits(how.quantumMs, t, how.fate) then None else
    match how.fate
    case Requeued(_, trip) =>
      if seen.processing then Moves(ProcessorAdds, EnqWaitSlot(Transit.Carry(None, t, trip))) else None
    case Dropped(_) => None
    case _ =>
      if how.fate.Stopped? && seen.processing then None
      else Some(Turn(ProcessorLoop, Idle(NoCall), multiset{}, multiset{t.id}, multiset{}, false))
  }

  /** The processor: test, fetch, run, and add back or let go. */
  function ProceedProcessor(seen: Seen, client: Client, result: Result, how: How): Option<Turn>
    requires client.ProcessorLoop? || client.ProcessorOver? || client.ProcessorTests? || client.ProcessorFetches? ||
      client.ProcessorRuns? || client.ProcessorAdds? || client.ProcessorPrints?
  {
    match client
    case ProcessorLoop => Moves(if seen.processing then ProcessorTests else ProcessorOver, Idle(NoCall))
    case ProcessorOver => None
    case ProcessorTests =>
      if seen.count > 0 then Moves(ProcessorFetches, DeqWaitItem) else Moves(ProcessorLoop, Idle(NoCall))
    case ProcessorFetches =>
      (match result
       case Dequeued(t) =>
         if InRange(t.priority) then Moves(ProcessorRuns(t), Idle(NoCall)) else Loses(ProcessorLoop, multiset{t.id})
       case Threw(_) => Moves(ProcessorLoop, Idle(NoCall))
       case _ => None)
    case ProcessorRuns(t) => ProceedRuns(seen, t, how)
    case ProcessorAdds =>
      (match result
       case Enqueued => Moves(ProcessorPrints, PrintWaitMutex)
       case EnqueueThrew(t, _) => Loses(ProcessorLoop, multiset{t.id})
       case _ => None)
    case ProcessorPrints =>
      (match result
       case Printed(_) => Moves(ProcessorLoop, Idle(NoCall))
       case Threw(_) => Moves(ProcessorLoop, Idle(NoCall))
       case _ => None)
  }

  /** A step of a client whose ring call, if any, has ended. An exception out of a ring call drops what the
      client holds; only the failed wait of a print finds the added task already safe. The reorder thread and
      the processor catch it; no caller of `add_task` does, so there it ends the process. */
  function Proceed(seen: Seen, client: Client, result: Result, how: How): Option<Turn> {
    if client.CallerIdle? || client.CallerAdds? || client.CallerPrints? then ProceedCaller(client, result, how)
    else if client.SchedulerLoop? then
      Moves(if seen.scheduling then PassTests(Scheduler, []) else SchedulerOver, Idle(NoCall))
    else if client.SchedulerOver? then None
    else if client.PassTests? || client.PassFetches? || client.PassRefills? || client.PassAdds? || client.PassPrints? then
      ProceedPass(seen, client, result, how)
    else ProceedProcessor(seen, client, result, how)
  }

  /** `failures` counts the `sem_wait` calls that returned -1 and the prints that threw. */
  datatype World = World(
    alive: bool,
    ring: Ring,
    ops: seq<Op>,
    clients: seq<Client>,
    scheduling: bool,
    processing: bool,
    submitted: multiset<int>,
    retired: multiset<int>,
    lost: multiset<int>,
    failures: nat)

  datatype Act =
    | RingRuns(thread: nat)
    | RingFails(thread: nat)
    | ClientRuns(thread: nat, how: How)
    | Switch(scheduling: bool, processing: bool)

  function Perform(w: World, a: Act): Option<World> {
    if !w.alive then None else
    match a
    case Switch(s, p) => Some(w.(scheduling := s, processing := p))
    case RingRuns(i) =>
      if i >= |w.ops| then None else
      (match Exec(w.ring, w.ops[i])
       case Blocked => None
       case Goes(r, op) => Some(w.(ring := r, ops := w.ops[i := op])))
    case RingFails(i) =>
      if i >= |w.ops| then None else
      (match Interrupted(w.ops[i])
       case None => None
       case Some(op) => Some(w.(ops := w.ops[i := op], failures := w.failures + 1)))
    case ClientRuns(i, how) =>
      if i >= |w.ops| || i >= |w.clients| || !w.ops[i].Idle? then None else
      (match Proceed(Seen(w.ring.count, w.scheduling, w.processing), w.clients[i], w.ops[i].result, how)
       case None => None
       case Some(turn) => Some(w.(
         ops := w.ops[i := turn.op],
         clients := w.clients[i := turn.client],
         submitted := w.submitted + turn.submitted,
         retired := w.retired + turn.retired,
         lost := w.lost + turn.lost,
         alive := !turn.dies)))
  }

  /** A live process, an empty ring, nothing submitted, and any number of threads at the start of their programs. */
  predicate Begin(w: World) {
    && w.alive
    && Init(State(w.ring, w.ops))
    && |w.clients| == |w.ops|
    && (forall i :: 0 <= i < |w.clients| ==>
          w.clients[i] == CallerIdle || w.clients[i] == SchedulerLoop || w.clients[i] == ProcessorLoop)
    && w.submitted == w.retired == w.lost == multiset{} && w.failures == 0
  }

  predicate History(worlds: seq<World>, acts: seq<Act>) {
    && |worlds| == |acts| + 1
    && Begin(worlds[0])
    && forall n :: 0 <= n < |acts| ==> Perform(worlds[n], acts[n]) == Some(worlds[n + 1])
  }

  // The ledger.

  function ClientIds(client: Client): multiset<int> {
    match client
    case PassTests(_, vec) => Ids(vec)
    case PassFetches(_, vec) => Ids(vec)
    case PassRefills(_, vec) => Ids(vec)
    case PassAdds(_, vec) => Ids(vec)
    case PassPrints(_, vec) => Ids(vec)
    case ProcessorRuns(t) => multiset{t.id}
    case _ => multiset{}
  }

  /** The task a ring call carries while it is not in the queue, handed over or not yet. */
  function Carried(op: Op): Option<SharedTask> {
    match op
    case EnqWaitSlot(t) => Some(t)
    case EnqWaitMutex(t) => Some(t)
    case EnqUndoSlot(t) => Some(t)
    case EnqLoadRear(t) => Some(t)
    case EnqWriteSlot(t, _) => Some(t)
    case EnqStoreRear(t, _) => Some(t)
    case EnqAddCount(t) => Some(t)
    case DeqAddTotal(t) => Some(t)
    case DeqPostMutex(t) => Some(t)
    case DeqPostSlot(t) => Some(t)
    case Idle(result) => Given(result)
    case _ => None
  }

  function Given(result: Result): Option<SharedTask> {
    match result
    case Dequeued(t) => Some(t)
    case EnqueueThrew(t, _) => Some(t)
    case _ => None
  }

  function OpIds(op: Op): multiset<int> {
    match Carried(op)
    case Some(t) => multiset{t.id}
    case None => multiset{}
  }

  /** The ids held in thread locals. */
  function Held(clients: seq<Client>, ops: seq<Op>): multiset<int>
    requires |clients| == |ops|
  {
    if ops == [] then multiset{}
    else ClientIds(clients[0]) + OpIds(ops[0]) + Held(clients[1..], ops[1..])
  }

  lemma {:induction false} HeldUpdate(x: int, clients: seq<Client>, ops: seq<Op>, i: nat, client: Client, op: Op)
    requires |clients| == |ops| && i < |ops|
    ensures Held(clients[i := client], ops[i := op])[x] + ClientIds(clients[i])[x] + OpIds(ops[i])[x]
      == Held(clients, ops)[x] + ClientIds(client)[x] + OpIds(op)[x]
  {
    hide ClientIds, OpIds;
    if i == 0 {
      assert clients[i := client][1..] == clients[1..] && ops[i := op][1..] == ops[1..];
    } else {
      assert clients[i := client][1..] == clients[1..][i - 1 := client];
      assert ops[i := op][1..] == ops[1..][i - 1 := op];
      HeldUpdate(x, clients[1..], ops[1..], i - 1, client, op);
    }
  }

  /** Every submitted id is in the ring, in some thread's hands, retired or lost, exactly once. */
  predicate Balanced(w: World) {
    && |w.ring.left| <= |w.ring.entered|
    && |w.clients| == |w.ops|
    && w.submitted == Ids(Queue(w.ring)) + Held(w.clients, w.ops) + w.retired + w.lost
  }

  lemma OneId(t: SharedTask)
    ensures Ids([t]) == multiset{t.id}
  {
    assert [t][1..] == [];
  }

  /** A ring step moves an id between the caller's hands and the queue, or nothing. */
  lemma RingStepBalances(s: State, i: nat)
    requires Inv(s) && i < |s.ops| && Exec(s.ring, s.ops[i]).Goes?
    ensures var Goes(r, op) := Exec(s.ring, s.ops[i]);
      && |r.left| <= |r.entered|
      && OpIds(op) + Ids(Queue(r)) == OpIds(s.ops[i]) + Ids(Queue(s.ring))
  {
    RunHistories(s, i);
    if s.ops[i].EnqAddCount? {
      PutBalances(s.ring, s.ops[i]);
    } else if s.ops[i].DeqSubCount? {
      TakeIsHead(s, i);
      TakeBalances(s.ring, s.ops[i]);
    } else {
      HistoriesStay(s.ring, s.ops[i]);
    }
  }

  lemma PutBalances(r: Ring, op: Op)
    requires op.EnqAddCount? && |r.left| <= |r.entered|
    ensures OpIds(Exec(r, op).op) + Ids(Queue(Exec(r, op).ring)) == OpIds(op) + Ids(Queue(r))
  {
    var q, q' := Queue(r), Queue(Exec(r, op).ring);
    assert q' == q + [op.task];
    IdsConcat(q, [op.task]);
    OneId(op.task);
  }

  lemma TakeBalances(r: Ring, op: Op)
    requires op.DeqSubCount? && |r.left| < |r.entered|
    requires Queue(r) == [op.task] + r.entered[|r.left| + 1..]
    ensures OpIds(Exec(r, op).op) + Ids(Queue(Exec(r, op).ring)) == OpIds(op) + Ids(Queue(r))
  {
    var rest := r.entered[|r.left| + 1..];
    assert Queue(Exec(r, op).ring) == rest;
    IdsConcat([op.task], rest);
    OneId(op.task);
  }

  lemma HistoriesStay(r: Ring, op: Op)
    requires Exec(r, op).Goes? && !op.EnqAddCount? && !op.DeqSubCount?
    ensures Exec(r, op).ring.entered == r.entered && Exec(r, op).ring.left == r.left
    ensures Carried(Exec(r, op).op) == Carried(op)
  {
    CarriedStays(r, op);
    hide Carried;
  }

  lemma CarriedStays(r: Ring, op: Op)
    requires Exec(r, op).Goes? && !op.EnqAddCount? && !op.DeqSubCount?
    ensures Carried(Exec(r, op).op) == Carried(op)
  {
  }

  lemma FailureBalances(op: Op)
    requires Interrupted(op).Some?
    ensures OpIds(Interrupted(op).value) == OpIds(op)
  {
    FailureKeepsTask(op);
    hide Carried, Interrupted;
  }

  lemma FailureKeepsTask(op: Op)
    requires Interrupted(op).Some?
    ensures Carried(Interrupted(op).value) == Carried(op)
  {
  }

  /** The turn's ledger for one id. */
  predicate TurnKeeps(x: int, client: Client, result: Result, turn: Turn) {
    ClientIds(client)[x] + OpIds(Idle(result))[x] + turn.submitted[x]
      == ClientIds(turn.client)[x] + OpIds(turn.op)[x] + turn.retired[x] + turn.lost[x]
  }

  /** The ids at the program counters a client's turn meets. */
  lemma OpFacts()
    ensures OpIds(Idle(NoCall)) == OpIds(Idle(Enqueued)) == OpIds(DeqWaitItem) == OpIds(PrintWaitMutex) == multiset{}
    ensures forall t :: OpIds(EnqWaitSlot(t)) == multiset{t.id}
    ensures forall t :: OpIds(Idle(Dequeued(t))) == multiset{t.id}
    ensures forall t, e :: OpIds(Idle(EnqueueThrew(t, e))) == multiset{t.id}
    ensures forall e :: OpIds(Idle(Threw(e))) == multiset{}
    ensures forall seen :: OpIds(Idle(Printed(seen))) == multiset{}
  {
    hide OpIds, Carried;
    EntryFacts();
    forall t ensures OpIds(Idle(Dequeued(t))) == multiset{t.id} { ResultIds(Dequeued(t)); }
    forall t, e ensures OpIds(Idle(EnqueueThrew(t, e))) == multiset{t.id} { ResultIds(EnqueueThrew(t, e)); }
    forall e ensures OpIds(Idle(Threw(e))) == multiset{} { ResultIds(Threw(e)); }
    forall seen ensures OpIds(Idle(Printed(seen))) == multiset{} { ResultIds(Printed(seen)); }
    ResultIds(NoCall);
    ResultIds(Enqueued);
  }

  lemma EntryFacts()
    ensures OpIds(DeqWaitItem) == OpIds(PrintWaitMutex) == multiset{}
    ensures forall t :: OpIds(EnqWaitSlot(t)) == multiset{t.id}
  {
  }

  lemma ResultIds(result: Result)
    ensures OpIds(Idle(result)) == if Given(result).Some? then multiset{Given(result).value.id} else multiset{}
  {
  }

  lemma CallerBalances(x: int, client: Client, result: Result, how: How, turn: Turn)
    requires client.CallerIdle? || client.CallerAdds? || client.CallerPrints?
    requires ProceedCaller(client, result, how) == Some(turn)
    requires client.CallerIdle? ==> OpIds(Idle(result)) == multiset{}
    ensures TurnKeeps(x, client, result, turn)
  {
    OpFacts();
    hide OpIds, Carried, InRange;
  }

  lemma PassBalances(x: int, seen: Seen, client: Client, result: Result, how: How, turn: Turn)
    requires client.PassTests? || client.PassFetches? || client.PassRefills? || client.PassAdds? || client.PassPrints?
    requires ProceedPass(seen, client, result, how) == Some(turn)
    requires client.PassTests? || client.PassRefills? ==> OpIds(Idle(result)) == multiset{}
    ensures TurnKeeps(x, client, result, turn)
  {
    match client {
      case PassFetches(_, _) => FetchBalances(x, seen, client, result, how, turn);
      case PassRefills(_, _) => RefillBalances(x, seen, client, result, how, turn);
      case PassAdds(_, _) => AddBalances(x, seen, client, result, how, turn);
      case _ => TestPrintBalances(x, seen, client, result, how, turn);
    }
  }

  lemma TestPrintBalances(x: int, seen: Seen, client: Client, result: Result, how: How, turn: Turn)
    requires client.PassTests? || client.PassPrints?
    requires ProceedPass(seen, client, result, how) == Some(turn)
    requires client.PassTests? ==> OpIds(Idle(result)) == multiset{}
    ensures TurnKeeps(x, client, result, turn)
  {
    OpFacts();
    hide Ids, OpIds, Carried, InRange, Transit.Carry;
  }

  lemma AddBalances(x: int, seen: Seen, client: Client, result: Result, how: How, turn: Turn)
    requires client.PassAdds? && ProceedPass(seen, client, result, how) == Some(turn)
    ensures TurnKeeps(x, client, result, turn)
  {
    OpFacts();
    hide Ids, OpIds, Carried, InRange, Transit.Carry;
  }

  lemma FetchBalances(x: int, seen: Seen, client: Client, result: Result, how: How, turn: Turn)
    requires client.PassFetches? && ProceedPass(seen, client, result, how) == Some(turn)
    ensures TurnKeeps(x, client, result, turn)
  {
    OpFacts();
    hide Ids, OpIds, Carried, InRange, Transit.Carry;
    if result.Dequeued? {
      IdsConcat(client.vec, [result.task]);
      OneId(result.task);
    }
  }

  lemma RefillBalances(x: int, seen: Seen, client: Client, result: Result, how: How, turn: Turn)
    requires client.PassRefills? && ProceedPass(seen, client, result, how) == Some(turn)
    requires OpIds(Idle(result)) == multiset{}
    ensures TurnKeeps(x, client, result, turn)
  {
    if client.vec == [] {
      RefillEndBalances(x, client, result, turn);
    } else {
      var s := Transit.Carry(Some(how.algorithm), client.vec[0], how.trip);
      Transit.CarryId(Some(how.algorithm), client.vec[0], how.trip);
      hide TurnKeeps, InRange, Transit.Carry, Transit.Ordered, OpIds;
      RefillAddBalances(x, client.owner, client.vec, s, result);
    }
  }

  lemma RefillEndBalances(x: int, client: Client, result: Result, turn: Turn)
    requires client.PassRefills? && client.vec == [] && turn == Moves(AfterPass(client.owner), Idle(NoCall)).value
    requires OpIds(Idle(result)) == multiset{}
    ensures TurnKeeps(x, client, result, turn)
  {
    hide OpIds;
    OpFacts();
  }

  lemma RefillAddBalances(x: int, owner: Owner, vec: seq<SharedTask>, s: SharedTask, result: Result)
    requires vec != [] && s.id == vec[0].id && OpIds(Idle(result)) == multiset{}
    ensures TurnKeeps(x, PassRefills(owner, vec), result,
      Turn(PassAdds(owner, vec[1..]), EnqWaitSlot(s), multiset{}, multiset{}, multiset{}, false))
  {
    hide OpIds;
    OpFacts();
  }

  lemma ProcessorBalances(x: int, seen: Seen, client: Client, result: Result, how: How, turn: Turn)
    requires client.ProcessorLoop? || client.ProcessorOver? || client.ProcessorTests? || client.ProcessorFetches? ||
      client.ProcessorRuns? || client.ProcessorAdds? || client.ProcessorPrints?
    requires ProceedProcessor(seen, client, result, how) == Some(turn)
    requires client.ProcessorLoop? || client.ProcessorTests? || client.ProcessorRuns? ==> OpIds(Idle(result)) == multiset{}
    ensures TurnKeeps(x, client, result, turn)
  {
    match client {
      case ProcessorRuns(t) => RunsBalances(x, seen, t, result, how, turn);
      case ProcessorFetches => FetchedBalances(x, seen, client, result, how, turn);
      case ProcessorAdds => AddedBalances(x, seen, client, result, how, turn);
      case _ => LoopBalances(x, seen, client, result, how, turn);
    }
  }

  lemma LoopBalances(x: int, seen: Seen, client: Client, result: Result, how: How, turn: Turn)
    requires client.ProcessorLoop? || client.ProcessorOver? || client.ProcessorTests? || client.ProcessorPrints?
    requires ProceedProcessor(seen, client, result, how) == Some(turn)
    requires client.ProcessorLoop? || client.ProcessorTests? ==> OpIds(Idle(result)) == multiset{}
    ensures TurnKeeps(x, client, result, turn)
  {
    hide OpIds, Carried, InRange, ProceedRuns;
    OpFacts();
  }

  lemma FetchedBalances(x: int, seen: Seen, client: Client, result: Result, how: How, turn: Turn)
    requires client.ProcessorFetches? && ProceedProcessor(seen, client, result, how) == Some(turn)
    ensures TurnKeeps(x, client, result, turn)
  {
    hide OpIds, Carried, InRange, ProceedRuns, Ids;
    OpFacts();
  }

  lemma AddedBalances(x: int, seen: Seen, client: Client, result: Result, how: How, turn: Turn)
    requires client.ProcessorAdds? && ProceedProcessor(seen, client, result, how) == Some(turn)
    ensures TurnKeeps(x, client, result, turn)
  {
    hide OpIds, Carried, InRange, ProceedRuns, Ids;
    OpFacts();
  }

  lemma RunsBalances(x: int, seen: Seen, t: SharedTask, result: Result, how: How, turn: Turn)
    requires ProceedRuns(seen, t, how) == Some(turn)
    requires OpIds(Idle(result)) == multiset{}
    ensures TurnKeeps(x, ProcessorRuns(t), result, turn)
  {
    if how.fate.Requeued? {
      PutBackBalances(x, seen, t, result, how, turn);
    } else {
      LetGoBalances(x, seen, t, result, how, turn);
    }
  }

  lemma PutBackBalances(x: int, seen: Seen, t: SharedTask, result: Result, how: How, turn: Turn)
    requires how.Decide? && how.fate.Requeued? && ProceedRuns(seen, t, how) == Some(turn)
    requires OpIds(Idle(result)) == multiset{}
    ensures TurnKeeps(x, ProcessorRuns(t), result, turn)
  {
    FitsOrdered(how.quantumMs, t, how.fate);
    Transit.CarryId(None, t, how.fate.trip);
    EnqueueBalances(x, t, Transit.Carry(None, t, how.fate.trip), result);
    hide TurnKeeps, Transit.Carry, Transit.Ordered, Pipeline.FateFits, InRange;
  }

  lemma FitsOrdered(quantumMs: int, t: SharedTask, fate: Pipeline.Fate)
    requires Pipeline.FateFits(quantumMs, t, fate)
    ensures fate.Requeued? ==> Transit.Ordered(fate.trip)
  {
  }

  lemma EnqueueBalances(x: int, t: SharedTask, s: SharedTask, result: Result)
    requires s.id == t.id && OpIds(Idle(result)) == multiset{}
    ensures TurnKeeps(x, ProcessorRuns(t), result,
      Turn(ProcessorAdds, EnqWaitSlot(s), multiset{}, multiset{}, multiset{}, false))
  {
    hide OpIds, Ids;
    OpFacts();
  }

  lemma LetGoBalances(x: int, seen: Seen, t: SharedTask, result: Result, how: How, turn: Turn)
    requires how.Decide? && !how.fate.Requeued? && ProceedRuns(seen, t, how) == Some(turn)
    requires OpIds(Idle(result)) == multiset{}
    ensures TurnKeeps(x, ProcessorRuns(t), result, turn)
  {
    hide OpIds, Carried, InRange, Transit.Carry, Pipeline.FateFits;
    OpFacts();
  }
}
