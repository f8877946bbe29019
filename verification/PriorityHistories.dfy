/** The stored priority of a task over whole runs of the scheduler's threads. */
module PriorityHistories {
  import opened SharedTasks
  import opened Priority
  import opened RingProtocol
  import opened RingSafety
  import opened RingTheorems
  import opened Threads
  import opened ThreadSafety
  import Transit
  import Pipeline

  /** `t` is stored no higher than any earlier record of its id. */
  predicate Below(entered: seq<SharedTask>, t: SharedTask) {
    forall k :: 0 <= k < |entered| && entered[k].id == t.id ==> t.priority <= entered[k].priority
  }

  /** Along the records put in the ring, the priorities of one id never rise. */
  predicate NeverRising(entered: seq<SharedTask>) {
    forall j, k :: 0 <= j < k < |entered| && entered[j].id == entered[k].id ==> entered[k].priority <= entered[j].priority
  }

  predicate OpBelow(entered: seq<SharedTask>, op: Op) { Carried(op).Some? ==> Below(entered, Carried(op).value) }

  predicate AllBelow(entered: seq<SharedTask>, tasks: seq<SharedTask>) {
    forall i :: 0 <= i < |tasks| ==> Below(entered, tasks[i])
  }

  /** The records a client holds in its locals. */
  function Locals(client: Client): seq<SharedTask> {
    match client
    case PassTests(_, vec) => vec
    case PassFetches(_, vec) => vec
    case PassRefills(_, vec) => vec
    case PassAdds(_, vec) => vec
    case PassPrints(_, vec) => vec
    case ProcessorRuns(t) => [t]
    case _ => []
  }

  ghost predicate Distinct(ids: multiset<int>) { forall x :: ids[x] <= 1 }

  predicate HandsBelow(w: World)
    requires |w.clients| == |w.ops|
  {
    forall i :: 0 <= i < |w.ops| ==> OpBelow(w.ring.entered, w.ops[i]) && AllBelow(w.ring.entered, Locals(w.clients[i]))
  }

  predicate AllSubmitted(w: World) {
    forall k :: 0 <= k < |w.ring.entered| ==> w.ring.entered[k].id in w.submitted
  }

  /** What a run keeps while no id has been submitted twice. */
  predicate Falling(w: World) {
    && |w.clients| == |w.ops|
    && NeverRising(w.ring.entered) && HandsBelow(w) && AllSubmitted(w)
  }

  // A live id is in one place only.

  lemma {:induction false} IdsHave(tasks: seq<SharedTask>, k: nat)
    requires k < |tasks|
    ensures Ids(tasks)[tasks[k].id] >= 1
  {
    if k > 0 {
      IdsHave(tasks[1..], k - 1);
    }
  }

  lemma LocalsIds(client: Client)
    ensures ClientIds(client) == Ids(Locals(client))
  {
    if client.ProcessorRuns? {
      OneId(client.task);
    }
  }

  lemma {:induction false} InHeld(x: int, clients: seq<Client>, ops: seq<Op>, i: nat)
    requires |clients| == |ops| && i < |ops|
    ensures ClientIds(clients[i])[x] + OpIds(ops[i])[x] <= Held(clients, ops)[x]
  {
    hide ClientIds, OpIds;
    if i > 0 {
      InHeld(x, clients[1..], ops[1..], i - 1);
    }
  }

  lemma HeldWithout(x: int, clients: seq<Client>, ops: seq<Op>, i: nat)
    requires |clients| == |ops| && i < |ops|
    ensures Held(clients, ops)[x] == Held(clients, ops[i := Idle(NoCall)])[x] + OpIds(ops[i])[x]
  {
    OpFacts();
    HeldUpdate(x, clients, ops, i, clients[i], Idle(NoCall));
    assert clients[i := clients[i]] == clients;
    hide Held, ClientIds, OpIds, Carried;
  }

  lemma LocalHeld(clients: seq<Client>, ops: seq<Op>, j: nat, u: SharedTask)
    requires |clients| == |ops| && j < |ops| && u in Locals(clients[j])
    ensures Held(clients, ops)[u.id] >= 1
  {
    hide Held, Locals, ClientIds, OpIds;
    var locals := Locals(clients[j]);
    var k :| 0 <= k < |locals| && locals[k] == u;
    IdsHave(locals, k);
    LocalsIds(clients[j]);
    InHeld(u.id, clients, ops, j);
  }

  lemma CarriedHeld(clients: seq<Client>, ops: seq<Op>, j: nat, u: SharedTask)
    requires |clients| == |ops| && j < |ops| && Carried(ops[j]) == Some(u)
    ensures Held(clients, ops)[u.id] >= 1
  {
    InHeld(u.id, clients, ops, j);
    assert OpIds(ops[j]) == multiset{u.id};
    hide Held, ClientIds, Carried;
  }

  /** Another thread's records, and the same thread's locals, are of other ids than the one a call carries. */
  lemma OnlyHolder(w: World, i: nat, j: nat, u: SharedTask)
    requires Balanced(w) && Distinct(w.submitted) && i < |w.ops| && j < |w.ops| && Carried(w.ops[i]).Some?
    requires u in Locals(w.clients[j]) || (i != j && Carried(w.ops[j]) == Some(u))
    ensures u.id != Carried(w.ops[i]).value.id
  {
    var x, ops' := u.id, w.ops[i := Idle(NoCall)];
    assert OpIds(w.ops[i]) == multiset{Carried(w.ops[i]).value.id};
    assert w.submitted[x] <= 1;
    hide Held, ClientIds, Ids, Locals, Carried, OpIds, Distinct;
    HeldWithout(x, w.clients, w.ops, i);
    if u in Locals(w.clients[j]) {
      LocalHeld(w.clients, ops', j, u);
    } else {
      CarriedHeld(w.clients, ops', j, u);
    }
  }

  /** The head of the queue is the last record of its id. */
  lemma HeadIsLast(w: World, k: nat)
    requires Balanced(w) && Distinct(w.submitted) && |w.ring.left| < k < |w.ring.entered|
    ensures w.ring.entered[k].id != w.ring.entered[|w.ring.left|].id
  {
    hide Held;
    var q := Queue(w.ring);
    var x := q[0].id;
    IdsHave(q[1..], k - |w.ring.left| - 1);
    assert q[1..][k - |w.ring.left| - 1] == w.ring.entered[k];
    assert Ids(q)[x] == 1 + Ids(q[1..])[x];
    assert w.submitted[x] <= 1;
  }

  // Ring steps.

  lemma BelowExtends(entered: seq<SharedTask>, t: SharedTask, u: SharedTask)
    requires Below(entered, u) && t.id != u.id
    ensures Below(entered + [t], u)
  {
  }

  /** The records in another thread's hands, or in the same thread's locals, stay below. */
  lemma OthersStayBelow(w: World, i: nat, j: nat)
    requires Balanced(w) && Falling(w) && Distinct(w.submitted)
    requires i < |w.ops| && w.ops[i].EnqAddCount? && j < |w.ops|
    ensures var entered := w.ring.entered + [w.ops[i].task];
      (j != i ==> OpBelow(entered, w.ops[j])) && AllBelow(entered, Locals(w.clients[j]))
  {
    var t := w.ops[i].task;
    assert Carried(w.ops[i]) == Some(t);
    assert OpBelow(w.ring.entered, w.ops[j]) && AllBelow(w.ring.entered, Locals(w.clients[j]));
    hide Balanced, Falling, Carried, Below, Locals, Distinct;
    if j != i && Carried(w.ops[j]).Some? {
      OnlyHolder(w, i, j, Carried(w.ops[j]).value);
      BelowExtends(w.ring.entered, t, Carried(w.ops[j]).value);
    }
    forall k | 0 <= k < |Locals(w.clients[j])| ensures Below(w.ring.entered + [t], Locals(w.clients[j])[k]) {
      OnlyHolder(w, i, j, Locals(w.clients[j])[k]);
      BelowExtends(w.ring.entered, t, Locals(w.clients[j])[k]);
    }
  }

  lemma PutNeverRises(entered: seq<SharedTask>, t: SharedTask)
    requires NeverRising(entered) && Below(entered, t)
    ensures NeverRising(entered + [t])
  {
  }

  lemma CarriedIsSubmitted(w: World, i: nat)
    requires Balanced(w) && i < |w.ops| && Carried(w.ops[i]).Some?
    ensures Carried(w.ops[i]).value.id in w.submitted
  {
    var x := Carried(w.ops[i]).value.id;
    InHeld(x, w.clients, w.ops, i);
    hide Held, Ids, ClientIds;
  }

  /** Putting a record keeps everything, since nobody else holds its id. */
  lemma PutFalls(w: World, i: nat)
    requires Balanced(w) && Falling(w) && Distinct(w.submitted)
    requires i < |w.ops| && w.ops[i].EnqAddCount?
    ensures var t := w.ops[i].task; var entered := w.ring.entered + [t];
      && NeverRising(entered) && t.id in w.submitted
      && forall j :: 0 <= j < |w.ops| ==>
        && (j != i ==> OpBelow(entered, w.ops[j]))
        && AllBelow(entered, Locals(w.clients[j]))
  {
    assert OpBelow(w.ring.entered, w.ops[i]);
    CarriedIsSubmitted(w, i);
    PutNeverRises(w.ring.entered, w.ops[i].task);
    hide Balanced, Falling, Below, OpBelow, AllBelow, NeverRising, Locals, Distinct;
    forall j | 0 <= j < |w.ops|
      ensures j != i ==> OpBelow(w.ring.entered + [w.ops[i].task], w.ops[j])
      ensures AllBelow(w.ring.entered + [w.ops[i].task], Locals(w.clients[j]))
    {
      OthersStayBelow(w, i, j);
    }
  }

  /** The record a dequeue takes is stored no higher than any record of its id. */
  lemma TakeFalls(w: World, i: nat)
    requires WorldInv(w) && Falling(w) && Distinct(w.submitted)
    requires i < |w.ops| && w.ops[i].DeqSubCount?
    ensures Below(w.ring.entered, w.ops[i].task)
  {
    TakeIsHead(State(w.ring, w.ops), i);
    var first := |w.ring.left|;
    assert w.ring.entered[first] == w.ops[i].task;
    hide Inv, AllValid, Rested, Clean, Balanced, HandsBelow;
    forall k | 0 <= k < |w.ring.entered| && w.ring.entered[k].id == w.ops[i].task.id
      ensures w.ops[i].task.priority <= w.ring.entered[k].priority
    {
      if k > first {
        HeadIsLast(w, k);
      }
    }
  }

  /** The world after a ring step of thread `i`. */
  lemma StepFalls(w: World, i: nat, r: Ring, op: Op)
    requires |w.clients| == |w.ops| && i < |w.ops|
    requires NeverRising(r.entered) && forall k :: 0 <= k < |r.entered| ==> r.entered[k].id in w.submitted
    requires OpBelow(r.entered, op)
    requires forall j :: 0 <= j < |w.ops| ==>
      (j != i ==> OpBelow(r.entered, w.ops[j])) && AllBelow(r.entered, Locals(w.clients[j]))
    ensures Falling(w.(ring := r, ops := w.ops[i := op]))
  {
    hide NeverRising, OpBelow, AllBelow, Locals;
  }

  lemma PutStepFalls(w: World, i: nat)
    requires Balanced(w) && Falling(w) && Distinct(w.submitted)
    requires i < |w.ops| && w.ops[i].EnqAddCount? && Perform(w, RingRuns(i)).Some?
    ensures Falling(Perform(w, RingRuns(i)).value)
  {
    PutFalls(w, i);
    var Goes(r, op) := Exec(w.ring, w.ops[i]);
    assert Perform(w, RingRuns(i)).value == w.(ring := r, ops := w.ops[i := op]);
    assert r.entered == w.ring.entered + [w.ops[i].task] && OpBelow(r.entered, op);
    assert forall k :: 0 <= k < |w.ring.entered| ==> w.ring.entered[k].id in w.submitted;
    hide *;
    StepFalls(w, i, r, op);
  }

  lemma TakeStepFalls(w: World, i: nat)
    requires WorldInv(w) && Falling(w) && Distinct(w.submitted)
    requires i < |w.ops| && w.ops[i].DeqSubCount? && Perform(w, RingRuns(i)).Some?
    ensures Falling(Perform(w, RingRuns(i)).value)
  {
    TakeFalls(w, i);
    hide WorldInv, Below, NeverRising, AllBelow, Locals, Distinct;
    var Goes(r, op) := Exec(w.ring, w.ops[i]);
    assert Perform(w, RingRuns(i)).value == w.(ring := r, ops := w.ops[i := op]);
    assert r.entered == w.ring.entered && OpBelow(r.entered, op);
    hide Exec, Perform, Carried, OpBelow;
    StepFalls(w, i, r, op);
  }

  lemma OtherStepFalls(w: World, i: nat)
    requires Falling(w) && i < |w.ops| && Perform(w, RingRuns(i)).Some?
    requires !w.ops[i].EnqAddCount? && !w.ops[i].DeqSubCount?
    ensures Falling(Perform(w, RingRuns(i)).value)
  {
    HistoriesStay(w.ring, w.ops[i]);
    assert OpBelow(w.ring.entered, w.ops[i]);
    hide Below, NeverRising, AllBelow, Locals, Exec, Carried;
  }

  lemma RingRunsFalls(w: World, i: nat)
    requires WorldInv(w) && Falling(w) && Distinct(w.submitted) && Perform(w, RingRuns(i)).Some?
    ensures Falling(Perform(w, RingRuns(i)).value)
  {
    if w.ops[i].EnqAddCount? {
      PutStepFalls(w, i);
    } else if w.ops[i].DeqSubCount? {
      TakeStepFalls(w, i);
    } else {
      OtherStepFalls(w, i);
    }
    hide *;
  }

  lemma RingFailsFalls(w: World, i: nat)
    requires Falling(w) && Perform(w, RingFails(i)).Some?
    ensures Falling(Perform(w, RingFails(i)).value)
  {
    FailureKeepsTask(w.ops[i]);
    assert OpBelow(w.ring.entered, w.ops[i]);
    hide Below, NeverRising, Locals, Carried, Interrupted;
  }

  // A client's step.

  /** A record that a trip, or nothing, made of a lower or equal one of the same id. */
  lemma BelowCarries(entered: seq<SharedTask>, algorithm: Option<Transit.Algorithm>, t: SharedTask, trip: Transit.Trip)
    requires Below(entered, t) && InRange(t.priority) && Transit.Ordered(trip)
    ensures Below(entered, Transit.Carry(algorithm, t, trip))
  {
    Transit.CarryNeverRaises(algorithm, t, trip);
    Transit.CarryId(algorithm, t, trip);
    hide Transit.Carry, Transit.Ordered, InRange;
  }

  predicate TurnFalls(entered: seq<SharedTask>, client: Client, result: Result, turn: Turn) {
    OpBelow(entered, Idle(result)) && AllBelow(entered, Locals(client)) ==>
      OpBelow(entered, turn.op) && AllBelow(entered, Locals(turn.client))
  }

  lemma EntriesCarry()
    ensures Carried(Idle(NoCall)).None? && Carried(DeqWaitItem).None? && Carried(PrintWaitMutex).None?
    ensures forall t :: Carried(EnqWaitSlot(t)) == Some(t)
    ensures forall t :: Carried(Idle(Dequeued(t))) == Some(t)
  {
  }

  lemma CallerFalls(entered: seq<SharedTask>, client: Client, result: Result, how: How, turn: Turn)
    requires client.CallerIdle? || client.CallerAdds? || client.CallerPrints?
    requires ProceedCaller(client, result, how) == Some(turn)
    requires client.CallerIdle? && how.Submit? ==> Below(entered, how.task)
    ensures TurnFalls(entered, client, result, turn)
  {
    EntriesCarry();
    hide Below, Carried, InRange;
  }

  lemma FetchFalls(entered: seq<SharedTask>, seen: Seen, client: Client, result: Result, how: How, turn: Turn)
    requires client.PassFetches? && ProceedPass(seen, client, result, how) == Some(turn)
    ensures TurnFalls(entered, client, result, turn)
  {
    EntriesCarry();
    hide Below, Carried, InRange, Ids;
  }

  lemma RefillFalls(entered: seq<SharedTask>, seen: Seen, client: Client, result: Result, how: How, turn: Turn)
    requires client.PassRefills? && ProceedPass(seen, client, result, how) == Some(turn)
    ensures TurnFalls(entered, client, result, turn)
  {
    if client.vec == [] {
      RefillEnds(entered, client, result, turn);
    } else {
      var s := Transit.Carry(Some(how.algorithm), client.vec[0], how.trip);
      if Below(entered, client.vec[0]) {
        BelowCarries(entered, Some(how.algorithm), client.vec[0], how.trip);
      }
      hide TurnFalls, Below, InRange, Transit.Carry, Transit.Ordered;
      RefillAdds(entered, client.owner, client.vec, s, result);
    }
  }

  lemma RefillEnds(entered: seq<SharedTask>, client: Client, result: Result, turn: Turn)
    requires client.PassRefills? && turn == Moves(AfterPass(client.owner), Idle(NoCall)).value
    ensures TurnFalls(entered, client, result, turn)
  {
    EntriesCarry();
    hide Below, Carried;
  }

  lemma RefillAdds(entered: seq<SharedTask>, owner: Owner, vec: seq<SharedTask>, s: SharedTask, result: Result)
    requires vec != [] && (Below(entered, vec[0]) ==> Below(entered, s))
    ensures TurnFalls(entered, PassRefills(owner, vec), result,
      Turn(PassAdds(owner, vec[1..]), EnqWaitSlot(s), multiset{}, multiset{}, multiset{}, false))
  {
    EntriesCarry();
    hide Below, Carried;
  }

  lemma PassFalls(entered: seq<SharedTask>, seen: Seen, client: Client, result: Result, how: How, turn: Turn)
    requires client.PassTests? || client.PassFetches? || client.PassRefills? || client.PassAdds? || client.PassPrints?
    requires ProceedPass(seen, client, result, how) == Some(turn)
    ensures TurnFalls(entered, client, result, turn)
  {
    match client {
      case PassFetches(_, _) => FetchFalls(entered, seen, client, result, how, turn);
      case PassRefills(_, _) => RefillFalls(entered, seen, client, result, how, turn);
      case _ =>
        EntriesCarry();
        hide Below, Carried, InRange, Ids, Transit.Carry, Transit.Ordered;
    }
  }

  lemma ProcessorFalls(entered: seq<SharedTask>, seen: Seen, client: Client, result: Result, how: How, turn: Turn)
    requires client.ProcessorLoop? || client.ProcessorOver? || client.ProcessorTests? || client.ProcessorFetches? ||
      client.ProcessorRuns? || client.ProcessorAdds? || client.ProcessorPrints?
    requires ProceedProcessor(seen, client, result, how) == Some(turn)
    ensures TurnFalls(entered, client, result, turn)
  {
    match client {
      case ProcessorRuns(t) => RunsFalls(entered, seen, t, result, how, turn);
      case _ =>
        EntriesCarry();
        hide Below, Carried, InRange, ProceedRuns;
    }
  }

  lemma RunsFalls(entered: seq<SharedTask>, seen: Seen, t: SharedTask, result: Result, how: How, turn: Turn)
    requires ProceedRuns(seen, t, how) == Some(turn)
    ensures TurnFalls(entered, ProcessorRuns(t), result, turn)
  {
    if how.fate.Requeued? {
      PutBackFalls(entered, seen, t, result, how, turn);
    } else {
      LetGoFalls(entered, seen, t, result, how, turn);
    }
  }

  lemma LetGoFalls(entered: seq<SharedTask>, seen: Seen, t: SharedTask, result: Result, how: How, turn: Turn)
    requires how.Decide? && !how.fate.Requeued? && ProceedRuns(seen, t, how) == Some(turn)
    ensures TurnFalls(entered, ProcessorRuns(t), result, turn)
  {
    EntriesCarry();
    hide Below, Carried, InRange, Pipeline.FateFits;
  }

  lemma PutBackFalls(entered: seq<SharedTask>, seen: Seen, t: SharedTask, result: Result, how: How, turn: Turn)
    requires how.Decide? && how.fate.Requeued? && ProceedRuns(seen, t, how) == Some(turn)
    ensures TurnFalls(entered, ProcessorRuns(t), result, turn)
  {
    FitsOrdered(how.quantumMs, t, how.fate);
    var s := Transit.Carry(None, t, how.fate.trip);
    if Below(entered, t) {
      BelowCarries(entered, None, t, how.fate.trip);
    }
    hide TurnFalls, Below, InRange, Transit.Carry, Transit.Ordered, Pipeline.FateFits;
    EnqueueFalls(entered, t, s, result);
  }

  lemma EnqueueFalls(entered: seq<SharedTask>, t: SharedTask, s: SharedTask, result: Result)
    requires Below(entered, t) ==> Below(entered, s)
    ensures TurnFalls(entered, ProcessorRuns(t), result,
      Turn(ProcessorAdds, EnqWaitSlot(s), multiset{}, multiset{}, multiset{}, false))
  {
    EntriesCarry();
    hide Below, Carried;
    assert Locals(ProcessorRuns(t)) == [t] && [t][0] == t;
  }

  lemma TurnKeepsFalling(entered: seq<SharedTask>, seen: Seen, client: Client, result: Result, how: How, turn: Turn)
    requires Proceed(seen, client, result, how) == Some(turn)
    requires client.CallerIdle? && how.Submit? ==> Below(entered, how.task)
    ensures TurnFalls(entered, client, result, turn)
  {
    hide ProceedCaller, ProceedPass, ProceedProcessor, Below;
    if client.CallerIdle? || client.CallerAdds? || client.CallerPrints? {
      CallerFalls(entered, client, result, how, turn);
    } else if client.PassTests? || client.PassFetches? || client.PassRefills? || client.PassAdds? || client.PassPrints? {
      PassFalls(entered, seen, client, result, how, turn);
    } else if client.SchedulerLoop? || client.SchedulerOver? {
      EntriesCarry();
    } else {
      ProcessorFalls(entered, seen, client, result, how, turn);
    }
  }

  /** An id submitted for the first time has no record yet. */
  lemma NewIdBelow(w: World, i: nat, how: How)
    requires Falling(w) && Perform(w, ClientRuns(i, how)).Some? && Distinct(Perform(w, ClientRuns(i, how)).value.submitted)
    requires w.clients[i].CallerIdle? && how.Submit?
    ensures Below(w.ring.entered, how.task)
  {
    var x := how.task.id;
    TurnSubmits(Seen(w.ring.count, w.scheduling, w.processing), w.clients[i], w.ops[i].result, how, TurnOf(w, i, how).value);
    assert Perform(w, ClientRuns(i, how)).value.submitted == w.submitted + multiset{x};
    assert (w.submitted + multiset{x})[x] <= 1;
    assert x !in w.submitted;
    hide Proceed, HandsBelow, NeverRising;
  }

  lemma ClientRunsFalls(w: World, i: nat, how: How)
    requires Falling(w) && Perform(w, ClientRuns(i, how)).Some? && Distinct(Perform(w, ClientRuns(i, how)).value.submitted)
    ensures Falling(Perform(w, ClientRuns(i, how)).value)
  {
    if w.clients[i].CallerIdle? && how.Submit? {
      NewIdBelow(w, i, how);
    }
    var turn := TurnOf(w, i, how).value;
    TurnKeepsFalling(w.ring.entered, Seen(w.ring.count, w.scheduling, w.processing), w.clients[i], w.ops[i].result, how, turn);
    assert OpBelow(w.ring.entered, w.ops[i]) && AllBelow(w.ring.entered, Locals(w.clients[i]));
    hide Proceed, Below, NeverRising, OpBelow, AllBelow, Locals;
  }

  lemma PerformFalls(w: World, a: Act)
    requires WorldInv(w) && Falling(w) && Perform(w, a).Some? && Distinct(Perform(w, a).value.submitted)
    ensures Falling(Perform(w, a).value)
  {
    match a {
      case Switch(_, _) =>
      case RingRuns(i) => RingRunsFalls(w, i);
      case RingFails(i) => RingFailsFalls(w, i);
      case ClientRuns(i, how) => ClientRunsFalls(w, i, how);
    }
  }

  lemma SubmittedGrows(w: World, a: Act)
    requires Perform(w, a).Some? && Distinct(Perform(w, a).value.submitted)
    ensures Distinct(w.submitted)
  {
    hide Proceed, Exec, Interrupted;
    var w' := Perform(w, a).value;
    assert forall x :: w.submitted[x] <= w'.submitted[x];
  }

  lemma BeginFalls(w: World)
    requires Begin(w)
    ensures Falling(w)
  {
    EntriesCarry();
    hide Carried, Below;
  }

  lemma {:induction false} HistoryFalls(worlds: seq<World>, acts: seq<Act>, n: nat)
    requires History(worlds, acts) && n < |worlds| && Distinct(worlds[n].submitted)
    ensures Falling(worlds[n])
  {
    hide Falling, WorldInv, Perform, Begin, Distinct;
    if n == 0 {
      BeginFalls(worlds[0]);
    } else {
      assert Perform(worlds[n - 1], acts[n - 1]) == Some(worlds[n - 1 + 1]);
      SubmittedGrows(worlds[n - 1], acts[n - 1]);
      HistoryFalls(worlds, acts, n - 1);
      HistoryInv(worlds, acts, n - 1);
      PerformFalls(worlds[n - 1], acts[n - 1]);
    }
  }

  /** In every run of any number of callers, reorder threads and processors, under any interleaving and with
      failing waits, as long as no id has been submitted twice: along the records put in the ring, the stored
      priority of a task never rises. */
  lemma PriorityNeverRises(worlds: seq<World>, acts: seq<Act>, n: nat)
    requires History(worlds, acts) && n < |worlds| && Distinct(worlds[n].submitted)
    ensures NeverRising(worlds[n].ring.entered)
  {
    hide History, NeverRising;
    HistoryFalls(worlds, acts, n);
  }
}
