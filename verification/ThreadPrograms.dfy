/** What the programs of the threads do to the queue: one reorder pass, one `add_task`, one turn of the processor,
    among any other threads and alone. */
module ThreadPrograms {
  import opened SharedTasks
  import opened Priority
  import opened RingProtocol
  import opened RingSafety
  import opened RingTheorems
  import opened RingAlone
  import opened RingLinearizability
  import opened Threads
  import opened ThreadSafety
  import opened Transit
  import Pipeline

  function TakesOf(tasks: seq<SharedTask>): (es: seq<Event>)
    ensures |es| == |tasks|
  {
    seq(|tasks|, i requires 0 <= i < |tasks| => Take(tasks[i]))
  }

  function PutsOf(tasks: seq<SharedTask>): (es: seq<Event>)
    ensures |es| == |tasks|
  {
    seq(|tasks|, i requires 0 <= i < |tasks| => Put(tasks[i]))
  }

  /** What an act does to the queue, if it is thread `i`'s. */
  function ActEffect(w: World, a: Act, i: nat): seq<Event> {
    if a == RingRuns(i) && i < |w.ops| then StepEffect(w.ops[i]) else []
  }

  function ThreadEffects(worlds: seq<World>, acts: seq<Act>, i: nat, from: nat, till: nat): seq<Event>
    requires from <= till <= |acts| <= |worlds|
  {
    if from == till then [] else
    ThreadEffects(worlds, acts, i, from, till - 1) + ActEffect(worlds[till - 1], acts[till - 1], i)
  }

  predicate OfThread(a: Act, i: nat) { !a.Switch? && a.thread == i }

  /** Not a failure of thread `i`, and under this algorithm if it is its priority update. */
  predicate Faultless(a: Act, i: nat, algorithm: Algorithm) {
    a != RingFails(i) && (a.ClientRuns? && a.thread == i && a.how.Rewrite? ==> a.how.algorithm == algorithm)
  }

  lemma OthersAct(w: World, a: Act, i: nat)
    requires |w.clients| == |w.ops| && i < |w.ops| && Perform(w, a).Some?
    ensures var w' := Perform(w, a).value;
      && |w'.ops| == |w'.clients| == |w.ops|
      && (!OfThread(a, i) ==> w'.ops[i] == w.ops[i] && w'.clients[i] == w.clients[i])
  {
    hide Exec, Interrupted, Proceed;
  }

  // The pass.

  predicate InPass(client: Client) {
    client.PassTests? || client.PassFetches? || client.PassRefills? || client.PassAdds? || client.PassPrints?
  }

  predicate Refilling(client: Client) { client.PassRefills? || client.PassAdds? || client.PassPrints? }

  /** What a pass has taken out, and the trips of those it has begun to put back. */
  datatype Plan = Plan(fetched: seq<SharedTask>, trips: seq<Trip>)

  predicate Sound(plan: Plan) {
    |plan.trips| <= |plan.fetched| && AllInRange(plan.fetched) && AllOrdered(plan.trips)
  }

  /** The first `|trips|` tasks taken out, each carried by its trip. */
  function CarriedBack(algorithm: Algorithm, plan: Plan): (s: seq<SharedTask>)
    requires Sound(plan)
    ensures |s| == |plan.trips|
  {
    CarryAll(Some(algorithm), plan.fetched[..|plan.trips|], plan.trips)
  }

  /** Where a pass stands and what it has done to the queue so far: it takes tasks in order, and then puts them
      back in the same order, each carried once. */
  predicate PassAt(algorithm: Algorithm, owner: Owner, plan: Plan, client: Client, op: Op, effects: seq<Event>) {
    && Sound(plan) && !Broken(op)
    && var k := |plan.trips|;
    match client
    case PassTests(o, vec) =>
      o == owner && op == Idle(NoCall) && k == 0 && vec == plan.fetched && effects == TakesOf(vec)
    case PassFetches(o, vec) =>
      && o == owner && k == 0 && vec == plan.fetched
      && Done(DeqWaitItem, op).Some? && effects == TakesOf(vec) + Done(DeqWaitItem, op).value
    case PassRefills(o, vec) =>
      && o == owner && op == Idle(NoCall) && vec == plan.fetched[k..]
      && effects == TakesOf(plan.fetched) + PutsOf(CarriedBack(algorithm, plan))
    case PassAdds(o, vec) =>
      && o == owner && k > 0 && vec == plan.fetched[k..]
      && var back := CarriedBack(algorithm, plan);
      && Done(EnqWaitSlot(back[k - 1]), op).Some?
      && effects == TakesOf(plan.fetched) + PutsOf(back[..k - 1]) + Done(EnqWaitSlot(back[k - 1]), op).value
    case PassPrints(o, vec) =>
      && o == owner && vec == plan.fetched[k..] && Done(PrintWaitMutex, op).Some?
      && effects == TakesOf(plan.fetched) + PutsOf(CarriedBack(algorithm, plan)) + Done(PrintWaitMutex, op).value
    case _ => false
  }

  /** The pass is over: everything it took out has been put back, in order, carried once. */
  predicate PassOver(algorithm: Algorithm, owner: Owner, plan: Plan, client: Client, op: Op, effects: seq<Event>) {
    && Sound(plan) && |plan.trips| == |plan.fetched|
    && client == AfterPass(owner) && op == Idle(NoCall)
    && effects == TakesOf(plan.fetched) + PutsOf(CarryAll(Some(algorithm), plan.fetched, plan.trips))
  }

  lemma TakesGrow(tasks: seq<SharedTask>, t: SharedTask)
    ensures TakesOf(tasks + [t]) == TakesOf(tasks) + [Take(t)]
  {
  }

  lemma PutsGrow(tasks: seq<SharedTask>, t: SharedTask)
    ensures PutsOf(tasks + [t]) == PutsOf(tasks) + [Put(t)]
  {
  }

  lemma CarriedGrows(algorithm: Algorithm, plan: Plan, trip: Trip)
    requires Sound(plan) && |plan.trips| < |plan.fetched| && Ordered(trip)
    ensures var plan' := plan.(trips := plan.trips + [trip]);
      && Sound(plan')
      && CarriedBack(algorithm, plan')[..|plan.trips|] == CarriedBack(algorithm, plan)
      && CarriedBack(algorithm, plan')[|plan.trips|] == Carry(Some(algorithm), plan.fetched[|plan.trips|], trip)
  {
    hide Carry;
  }

  /** A call that goes on does what its step does. */
  lemma CallGoesOn(entry: Op, r: Ring, op: Op, before: seq<Event>, effects: seq<Event>)
    requires Done(entry, op).Some? && !op.Idle? && Exec(r, op).Goes? && effects == before + Done(entry, op).value
    ensures Done(entry, Exec(r, op).op).Some? && effects + StepEffect(op) == before + Done(entry, Exec(r, op).op).value
  {
    RunDoes(r, op, entry);
    hide Done, Exec, StepEffect;
  }

  /** A ring step of the thread goes on with the call the pass has made. */
  lemma PassRings(algorithm: Algorithm, owner: Owner, plan: Plan, client: Client, r: Ring, op: Op, effects: seq<Event>)
    requires PassAt(algorithm, owner, plan, client, op, effects) && Exec(r, op).Goes?
    requires op.DeqLoadCount? ==> r.count >= 1
    ensures PassAt(algorithm, owner, plan, client, Exec(r, op).op, effects + StepEffect(op))
  {
    NotBroken(r, op);
    assert !op.Idle?;
    hide Exec, Done, Broken, StepEffect, CarriedBack, Sound;
    match client {
      case PassFetches(_, vec) => CallGoesOn(DeqWaitItem, r, op, TakesOf(vec), effects);
      case PassAdds(_, _) =>
        var back := CarriedBack(algorithm, plan);
        var k := |plan.trips|;
        CallGoesOn(EnqWaitSlot(back[k - 1]), r, op, TakesOf(plan.fetched) + PutsOf(back[..k - 1]), effects);
      case PassPrints(_, _) =>
        CallGoesOn(PrintWaitMutex, r, op, TakesOf(plan.fetched) + PutsOf(CarriedBack(algorithm, plan)), effects);
      case _ => assert false;
    }
  }

  lemma ResultsDone()
    ensures forall result :: Done(DeqWaitItem, Idle(result)).Some? && !Broken(Idle(result)) ==>
      result.Dequeued? && Done(DeqWaitItem, Idle(result)).value == [Take(result.task)]
    ensures forall t, result :: Done(EnqWaitSlot(t), Idle(result)).Some? && !Broken(Idle(result)) ==>
      result == Enqueued && Done(EnqWaitSlot(t), Idle(result)).value == [Put(t)]
    ensures forall result :: Done(PrintWaitMutex, Idle(result)).Some? && !Broken(Idle(result)) ==>
      result.Printed? && Done(PrintWaitMutex, Idle(result)).value == []
    ensures Done(DeqWaitItem, DeqWaitItem) == Some([]) && Done(PrintWaitMutex, PrintWaitMutex) == Some([])
    ensures forall t :: Done(EnqWaitSlot(t), EnqWaitSlot(t)) == Some([])
    ensures !Broken(Idle(NoCall)) && !Broken(DeqWaitItem) && !Broken(PrintWaitMutex)
    ensures forall t :: !Broken(EnqWaitSlot(t))
  {
  }

  lemma TestGoes(algorithm: Algorithm, owner: Owner, plan: Plan, seen: Seen, client: Client, op: Op, effects: seq<Event>,
                 how: How, turn: Turn)
    requires client.PassTests? && PassAt(algorithm, owner, plan, client, op, effects)
    requires ProceedPass(seen, client, NoCall, how) == Some(turn)
    ensures PassAt(algorithm, owner, plan, turn.client, turn.op, effects)
    ensures Refilling(turn.client) ==> seen.count == 0
    ensures turn.client.PassFetches? ==> seen.count != 0
  {
    ResultsDone();
    hide Done, Broken;
    assert TakesOf(client.vec) + [] == TakesOf(client.vec);
    assert CarriedBack(algorithm, plan) == [] && PutsOf([]) == [];
    assert plan.fetched[0..] == plan.fetched;
  }

  lemma FetchGoes(algorithm: Algorithm, owner: Owner, plan: Plan, seen: Seen, client: Client, result: Result,
                  effects: seq<Event>, how: How, turn: Turn) returns (plan': Plan)
    requires client.PassFetches? && PassAt(algorithm, owner, plan, client, Idle(result), effects)
    requires ProceedPass(seen, client, result, how) == Some(turn) && (result.Dequeued? ==> InRange(result.task.priority))
    ensures PassAt(algorithm, owner, plan', turn.client, turn.op, effects) && turn.client.PassTests?
  {
    ResultsDone();
    hide Done, Broken;
    plan' := Plan(plan.fetched + [result.task], []);
    TakesGrow(plan.fetched, result.task);
  }

  lemma RefillGoes(algorithm: Algorithm, owner: Owner, plan: Plan, seen: Seen, client: Client, effects: seq<Event>,
                   how: How, turn: Turn) returns (plan': Plan)
    requires client.PassRefills? && PassAt(algorithm, owner, plan, client, Idle(NoCall), effects)
    requires ProceedPass(seen, client, NoCall, how) == Some(turn)
    requires how.Rewrite? ==> how.algorithm == algorithm
    ensures plan'.fetched == plan.fetched
    ensures client.vec != [] ==> PassAt(algorithm, owner, plan', turn.client, turn.op, effects)
    ensures client.vec == [] ==> PassOver(algorithm, owner, plan', turn.client, turn.op, effects)
  {
    if client.vec == [] {
      plan' := plan;
      assert |plan.trips| == |plan.fetched| && plan.fetched[..|plan.trips|] == plan.fetched;
    } else {
      var t := Carry(Some(algorithm), client.vec[0], how.trip);
      plan' := plan.(trips := plan.trips + [how.trip]);
      assert turn == Turn(PassAdds(owner, client.vec[1..]), EnqWaitSlot(t), multiset{}, multiset{}, multiset{}, false);
      assert client.vec[0] == plan.fetched[|plan.trips|] && Ordered(how.trip);
      hide ProceedPass, Carry, Broken, Done;
      BackGoes(algorithm, owner, plan, client.vec, effects, how.trip);
    }
  }

  /** The next task is carried and on its way back. */
  lemma BackGoes(algorithm: Algorithm, owner: Owner, plan: Plan, vec: seq<SharedTask>, effects: seq<Event>, trip: Trip)
    requires PassAt(algorithm, owner, plan, PassRefills(owner, vec), Idle(NoCall), effects)
    requires vec != [] && vec[0] == plan.fetched[|plan.trips|] && Ordered(trip) && InRange(vec[0].priority)
    ensures PassAt(algorithm, owner, plan.(trips := plan.trips + [trip]), PassAdds(owner, vec[1..]),
      EnqWaitSlot(Carry(Some(algorithm), vec[0], trip)), effects)
  {
    var k, plan' := |plan.trips|, plan.(trips := plan.trips + [trip]);
    RefillFacts(algorithm, owner, plan, vec, effects);
    CarriedGrows(algorithm, plan, trip);
    hide *;
    AddBegins(algorithm, owner, plan', vec[1..], Carry(Some(algorithm), vec[0], trip), effects);
  }

  lemma RefillFacts(algorithm: Algorithm, owner: Owner, plan: Plan, vec: seq<SharedTask>, effects: seq<Event>)
    requires PassAt(algorithm, owner, plan, PassRefills(owner, vec), Idle(NoCall), effects) && vec != []
    ensures Sound(plan) && |plan.trips| < |plan.fetched| && vec[1..] == plan.fetched[|plan.trips| + 1..]
    ensures effects == TakesOf(plan.fetched) + PutsOf(CarriedBack(algorithm, plan))
  {
    hide Carry, CarriedBack, Broken;
  }

  lemma AddBegins(algorithm: Algorithm, owner: Owner, plan: Plan, vec: seq<SharedTask>, t: SharedTask, effects: seq<Event>)
    requires Sound(plan) && plan.trips != [] && vec == plan.fetched[|plan.trips|..]
    requires t == CarriedBack(algorithm, plan)[|plan.trips| - 1]
    requires effects == TakesOf(plan.fetched) + PutsOf(CarriedBack(algorithm, plan)[..|plan.trips| - 1])
    ensures PassAt(algorithm, owner, plan, PassAdds(owner, vec), EnqWaitSlot(t), effects)
  {
    ResultsDone();
    hide Sound, CarriedBack, Broken, Done, TakesOf, PutsOf;
    assert effects + [] == effects;
  }

  lemma AddGoes(algorithm: Algorithm, owner: Owner, plan: Plan, seen: Seen, client: Client, result: Result,
                effects: seq<Event>, how: How, turn: Turn)
    requires client.PassAdds? && PassAt(algorithm, owner, plan, client, Idle(result), effects)
    requires ProceedPass(seen, client, result, how) == Some(turn)
    ensures PassAt(algorithm, owner, plan, turn.client, turn.op, effects)
  {
    ResultsDone();
    hide Done, Broken, CarriedBack;
    var k, back := |plan.trips|, CarriedBack(algorithm, plan);
    PutsGrow(back[..k - 1], back[k - 1]);
    assert back[..k - 1] + [back[k - 1]] == back;
    assert effects + [] == effects;
  }

  lemma PrintGoes(algorithm: Algorithm, owner: Owner, plan: Plan, seen: Seen, client: Client, result: Result,
                  effects: seq<Event>, how: How, turn: Turn)
    requires client.PassPrints? && PassAt(algorithm, owner, plan, client, Idle(result), effects)
    requires ProceedPass(seen, client, result, how) == Some(turn)
    ensures PassAt(algorithm, owner, plan, turn.client, turn.op, effects)
  {
    ResultsDone();
    hide Done, Broken, CarriedBack;
    var all := TakesOf(plan.fetched) + PutsOf(CarriedBack(algorithm, plan));
    assert all + [] == all;
  }

  /** A turn of the pass's program. */
  lemma PassTurns(algorithm: Algorithm, owner: Owner, plan: Plan, seen: Seen, client: Client, result: Result,
                  effects: seq<Event>, how: How, turn: Turn) returns (plan': Plan)
    requires PassAt(algorithm, owner, plan, client, Idle(result), effects)
    requires Proceed(seen, client, result, how) == Some(turn)
    requires how.Rewrite? ==> how.algorithm == algorithm
    requires result.Dequeued? ==> InRange(result.task.priority)
    ensures InPass(turn.client) ==> PassAt(algorithm, owner, plan', turn.client, turn.op, effects)
    ensures !InPass(turn.client) ==> Refilling(client) && PassOver(algorithm, owner, plan', turn.client, turn.op, effects)
    ensures Refilling(client) || Refilling(turn.client) ==> plan'.fetched == plan.fetched
    ensures Refilling(turn.client) && !Refilling(client) ==> client.PassTests? && seen.count == 0
    ensures turn.op.DeqWaitItem? ==> client.PassTests? && seen.count != 0
  {
    plan' := plan;
    match client {
      case PassTests(_, _) => TestGoes(algorithm, owner, plan, seen, client, Idle(result), effects, how, turn);
      case PassFetches(_, _) => plan' := FetchGoes(algorithm, owner, plan, seen, client, result, effects, how, turn);
      case PassRefills(_, _) => plan' := RefillGoes(algorithm, owner, plan, seen, client, effects, how, turn);
      case PassAdds(_, _) => AddGoes(algorithm, owner, plan, seen, client, result, effects, how, turn);
      case PassPrints(_, _) => PrintGoes(algorithm, owner, plan, seen, client, result, effects, how, turn);
    }
    PassEnds(seen, client, result, how, turn);
    hide PassAt, PassOver, ProceedPass;
  }

  /** Where a turn can lead. */
  lemma PassEnds(seen: Seen, client: Client, result: Result, how: How, turn: Turn)
    requires InPass(client) && ProceedPass(seen, client, result, how) == Some(turn)
    ensures InPass(turn.client) || turn.client == AfterPass(client.owner)
    ensures client.PassRefills? && client.vec == [] ==> !InPass(turn.client)
    ensures client.PassRefills? && client.vec != [] ==> InPass(turn.client)
    ensures turn.op.DeqWaitItem? ==> client.PassTests? && seen.count != 0
    ensures Refilling(turn.client) && !Refilling(client) ==> client.PassTests? && seen.count == 0
  {
    hide Carry, Transit.Ordered, InRange, Ids;
  }

  // The pass among other threads.

  lemma PassClientStep(w: World, i: nat, how: How, algorithm: Algorithm, owner: Owner, plan: Plan, effects: seq<Event>)
    returns (plan': Plan)
    requires WorldInv(w) && Perform(w, ClientRuns(i, how)).Some?
    requires PassAt(algorithm, owner, plan, w.clients[i], w.ops[i], effects)
    requires how.Rewrite? ==> how.algorithm == algorithm
    ensures var w' := Perform(w, ClientRuns(i, how)).value;
      && w'.ring == w.ring && |w'.ops| == |w'.clients| == |w.ops|
      && (InPass(w'.clients[i]) ==> PassAt(algorithm, owner, plan', w'.clients[i], w'.ops[i], effects))
      && (!InPass(w'.clients[i]) ==>
            Refilling(w.clients[i]) && PassOver(algorithm, owner, plan', w'.clients[i], w'.ops[i], effects))
      && (Refilling(w.clients[i]) || Refilling(w'.clients[i]) ==> plan'.fetched == plan.fetched)
      && (Refilling(w'.clients[i]) && !Refilling(w.clients[i]) ==> w.clients[i].PassTests? && w.ring.count == 0)
      && (w'.ops[i].DeqWaitItem? ==> w.clients[i].PassTests? && w.ring.count != 0)
  {
    assert OpValid(w.ops[i]);
    hide Inv, Balanced, Proceed, PassAt, PassOver, InRange;
    var seen := Seen(w.ring.count, w.scheduling, w.processing);
    plan' := PassTurns(algorithm, owner, plan, seen, w.clients[i], w.ops[i].result, effects, how, TurnOf(w, i, how).value);
  }

  lemma PassRingStep(w: World, i: nat, algorithm: Algorithm, owner: Owner, plan: Plan, effects: seq<Event>)
    requires WorldInv(w) && Perform(w, RingRuns(i)).Some?
    requires PassAt(algorithm, owner, plan, w.clients[i], w.ops[i], effects)
    ensures var w' := Perform(w, RingRuns(i)).value;
      && |w'.ops| == |w'.clients| == |w.ops| && w'.clients[i] == w.clients[i]
      && PassAt(algorithm, owner, plan, w'.clients[i], w'.ops[i], effects + StepEffect(w.ops[i]))
      && !w'.ops[i].DeqWaitItem?
  {
    Room(State(w.ring, w.ops), i);
    NeverBackAtWait(w.ring, w.ops[i]);
    hide Inv, Balanced, PassAt, Exec;
    PassRings(algorithm, owner, plan, w.clients[i], w.ring, w.ops[i], effects);
  }

  lemma NeverBackAtWait(r: Ring, op: Op)
    requires Exec(r, op).Goes?
    ensures !Exec(r, op).op.DeqWaitItem?
  {
  }

  /** Any act of any thread, but a failure of this one, keeps the pass on its course. */
  lemma PassWorldStep(w: World, a: Act, i: nat, algorithm: Algorithm, owner: Owner, plan: Plan, effects: seq<Event>)
    returns (plan': Plan)
    requires WorldInv(w) && Perform(w, a).Some? && i < |w.ops| && Faultless(a, i, algorithm)
    requires InPass(w.clients[i]) && PassAt(algorithm, owner, plan, w.clients[i], w.ops[i], effects)
    ensures var w' := Perform(w, a).value;
      && |w'.ops| == |w'.clients| == |w.ops|
      && (InPass(w'.clients[i]) ==> PassAt(algorithm, owner, plan', w'.clients[i], w'.ops[i], effects + ActEffect(w, a, i)))
      && (!InPass(w'.clients[i]) ==>
            Refilling(w.clients[i]) &&
            PassOver(algorithm, owner, plan', w'.clients[i], w'.ops[i], effects + ActEffect(w, a, i)))
      && (Refilling(w.clients[i]) || Refilling(w'.clients[i]) ==> plan'.fetched == plan.fetched)
      && (Refilling(w'.clients[i]) && !Refilling(w.clients[i]) ==>
            w.clients[i].PassTests? && w.ring.count == 0 && w'.ring == w.ring)
      && (w'.ops[i].DeqWaitItem? && !w.ops[i].DeqWaitItem? ==> w.ring.count != 0 && w'.ring == w.ring)
  {
    plan' := plan;
    OthersAct(w, a, i);
    assert effects + [] == effects;
    if a == RingRuns(i) {
      hide WorldInv, PassAt, Perform;
      PassRingStep(w, i, algorithm, owner, plan, effects);
    } else if a.ClientRuns? && a.thread == i {
      hide WorldInv, PassAt, PassOver, Perform;
      plan' := PassClientStep(w, i, a.how, algorithm, owner, plan, effects);
    } else {
      hide WorldInv, PassAt, PassOver, Perform;
    }
  }

  /** In every run, failures included: a pass goes over to putting back in one way only, having read a count of 0,
      when the ring is empty. */
  lemma PutsBackAfterEmpty(worlds: seq<World>, acts: seq<Act>, n: nat, i: nat)
    requires History(worlds, acts) && n < |acts| && i < |worlds[n].ops|
    ensures |worlds[n].clients| == |worlds[n].ops| == |worlds[n + 1].clients|
    ensures var client, client' := worlds[n].clients[i], worlds[n + 1].clients[i];
      !Refilling(client) && Refilling(client') ==>
        && client.PassTests? && client' == PassRefills(client.owner, client.vec)
        && worlds[n].ring.count == 0 && QueueOf(worlds[n]) == []
  {
    HistoryInv(worlds, acts, n);
    var w, a := worlds[n], acts[n];
    assert Perform(w, a) == Some(worlds[n + 1]);
    OthersAct(w, a, i);
    if !Refilling(w.clients[i]) && Refilling(worlds[n + 1].clients[i]) {
      RefillReached(w, a, i);
      hide Perform, Balanced, Begin;
    }
  }

  lemma RefillReached(w: World, a: Act, i: nat)
    requires |w.clients| == |w.ops| && i < |w.ops| && Perform(w, a).Some? && !Refilling(w.clients[i])
    requires i < |Perform(w, a).value.clients| && Refilling(Perform(w, a).value.clients[i])
    ensures w.clients[i].PassTests? && w.ring.count == 0
    ensures Perform(w, a).value.clients[i] == PassRefills(w.clients[i].owner, w.clients[i].vec)
  {
    if a.ClientRuns? && a.thread == i {
      RefillTurn(Seen(w.ring.count, w.scheduling, w.processing), w.clients[i], w.ops[i].result, a.how, TurnOf(w, i, a.how).value);
      hide Proceed;
    } else {
      hide Exec, Interrupted, Proceed;
    }
  }

  lemma RefillTurn(seen: Seen, client: Client, result: Result, how: How, turn: Turn)
    requires Proceed(seen, client, result, how) == Some(turn) && !Refilling(client) && Refilling(turn.client)
    ensures client.PassTests? && seen.count == 0 && turn.client == PassRefills(client.owner, client.vec)
  {
    if InPass(client) {
      PassReaches(seen, client, result, how, turn);
    } else if !client.CallerIdle? && !client.CallerAdds? && !client.CallerPrints? && !client.SchedulerLoop? &&
              !client.SchedulerOver? {
      ProcessorReaches(seen, client, result, how, turn);
    }
    hide ProceedPass, ProceedProcessor;
  }

  lemma PassReaches(seen: Seen, client: Client, result: Result, how: How, turn: Turn)
    requires InPass(client) && ProceedPass(seen, client, result, how) == Some(turn)
    requires !Refilling(client) && Refilling(turn.client)
    ensures client.PassTests? && seen.count == 0 && turn.client == PassRefills(client.owner, client.vec)
  {
    hide Carry, Transit.Ordered, InRange, Ids;
  }

  lemma ProcessorReaches(seen: Seen, client: Client, result: Result, how: How, turn: Turn)
    requires client.ProcessorLoop? || client.ProcessorOver? || client.ProcessorTests? || client.ProcessorFetches? ||
      client.ProcessorRuns? || client.ProcessorAdds? || client.ProcessorPrints?
    requires ProceedProcessor(seen, client, result, how) == Some(turn)
    ensures !Refilling(turn.client)
  {
    hide Carry, InRange, Pipeline.FateFits;
  }

  /** The loops of the reorder thread and of the processor begin another round exactly while they are told to run. */
  lemma LoopsObey(worlds: seq<World>, acts: seq<Act>, n: nat, i: nat)
    requires History(worlds, acts) && n < |acts| && i < |worlds[n].ops| == |worlds[n].clients|
    requires acts[n].ClientRuns? && acts[n].thread == i
    ensures i < |worlds[n + 1].clients| && worlds[n + 1].ring == worlds[n].ring
    ensures worlds[n].clients[i].SchedulerLoop? ==>
      worlds[n + 1].clients[i] == if worlds[n].scheduling then PassTests(Scheduler, []) else SchedulerOver
    ensures worlds[n].clients[i].ProcessorLoop? ==>
      worlds[n + 1].clients[i] == if worlds[n].processing then ProcessorTests else ProcessorOver
  {
    assert Perform(worlds[n], acts[n]) == Some(worlds[n + 1]);
    LoopTurns(Seen(worlds[n].ring.count, worlds[n].scheduling, worlds[n].processing), worlds[n].clients[i],
              worlds[n].ops[i].result, acts[n].how, TurnOf(worlds[n], i, acts[n].how).value);
    hide Proceed, Begin;
  }

  lemma LoopTurns(seen: Seen, client: Client, result: Result, how: How, turn: Turn)
    requires Proceed(seen, client, result, how) == Some(turn)
    ensures client.SchedulerLoop? ==> turn.client == if seen.scheduling then PassTests(Scheduler, []) else SchedulerOver
    ensures client.ProcessorLoop? ==> turn.client == if seen.processing then ProcessorTests else ProcessorOver
  {
    hide ProceedPass, ProceedRuns, ProceedCaller;
  }

  /** The processor puts a task back only while it is told to run, and lets it go for `stop` only when it is not. */
  lemma StopsObeyed(worlds: seq<World>, acts: seq<Act>, n: nat, i: nat)
    requires History(worlds, acts) && n < |acts| && i < |worlds[n].ops| == |worlds[n].clients|
    requires acts[n].ClientRuns? && acts[n].thread == i && worlds[n].clients[i].ProcessorRuns?
    ensures var how := acts[n].how;
      && how.Decide? && Pipeline.FateFits(how.quantumMs, worlds[n].clients[i].task, how.fate)
      && i < |worlds[n + 1].clients|
      && worlds[n + 1].clients[i] == (if how.fate.Requeued? then ProcessorAdds else ProcessorLoop)
      && (how.fate.Requeued? ==> worlds[n].processing) && (how.fate.Stopped? ==> !worlds[n].processing)
  {
    assert Perform(worlds[n], acts[n]) == Some(worlds[n + 1]);
    hide Begin, Pipeline.FateFits, Carry, InRange, Exec, Interrupted;
  }

  /** In every run, a thread prints the queue right after each task it has added, and at no other time. */
  lemma PrintsAfterAdding(worlds: seq<World>, acts: seq<Act>, n: nat, i: nat)
    requires History(worlds, acts) && n < |acts| && i < |worlds[n].ops|
    requires acts[n].ClientRuns? && acts[n].thread == i
    ensures i < |worlds[n + 1].ops| && (worlds[n + 1].ops[i] == PrintWaitMutex <==> worlds[n].ops[i] == Idle(Enqueued))
  {
    HistoryInv(worlds, acts, n);
    var w := worlds[n];
    assert Perform(w, acts[n]) == Some(worlds[n + 1]);
    assert w.ops[i].Idle? && (Resting(w.clients[i]) ==> w.ops[i].result == NoCall);
    hide Proceed, Begin, Inv, Balanced, AllValid, Clean;
    PrintTurns(Seen(w.ring.count, w.scheduling, w.processing), w.clients[i], w.ops[i].result, acts[n].how,
               TurnOf(w, i, acts[n].how).value);
  }

  lemma PrintTurns(seen: Seen, client: Client, result: Result, how: How, turn: Turn)
    requires Proceed(seen, client, result, how) == Some(turn) && (Resting(client) ==> result == NoCall)
    ensures turn.op == PrintWaitMutex <==> result == Enqueued
  {
    if InPass(client) {
      PassPrintTurns(seen, client, result, how, turn);
    } else if !client.CallerIdle? && !client.CallerAdds? && !client.CallerPrints? && !client.SchedulerLoop? &&
              !client.SchedulerOver? {
      ProcessorPrintTurns(seen, client, result, how, turn);
    }
    hide ProceedPass, ProceedProcessor, InRange, Ids;
  }

  lemma PassPrintTurns(seen: Seen, client: Client, result: Result, how: How, turn: Turn)
    requires InPass(client) && ProceedPass(seen, client, result, how) == Some(turn) && (Resting(client) ==> result == NoCall)
    ensures turn.op == PrintWaitMutex <==> result == Enqueued
  {
    hide Carry, Transit.Ordered, InRange, Ids;
  }

  lemma ProcessorPrintTurns(seen: Seen, client: Client, result: Result, how: How, turn: Turn)
    requires client.ProcessorLoop? || client.ProcessorOver? || client.ProcessorTests? || client.ProcessorFetches? ||
      client.ProcessorRuns? || client.ProcessorAdds? || client.ProcessorPrints?
    requires ProceedProcessor(seen, client, result, how) == Some(turn) && (Resting(client) ==> result == NoCall)
    ensures turn.op == PrintWaitMutex <==> result == Enqueued
  {
    hide Carry, InRange, Pipeline.FateFits;
  }

  /** The thread a client is. */
  datatype Thread = CallerThread | SchedulerThread | ProcessorThread

  function ThreadOf(client: Client): Thread {
    if client.CallerIdle? || client.CallerAdds? || client.CallerPrints? || (InPass(client) && client.owner.Caller?) then
      CallerThread
    else if client.SchedulerLoop? || client.SchedulerOver? || InPass(client) then SchedulerThread
    else ProcessorThread
  }

  /** The top of a thread's loop. */
  function Top(client: Client): Client {
    match ThreadOf(client)
    case CallerThread => CallerIdle
    case SchedulerThread => SchedulerLoop
    case ProcessorThread => ProcessorLoop
  }

  /** In every run, a thread that sees a ring call fail goes back to the top of its loop, whatever it was doing; only
      for a caller does that end the process. */
  lemma FailuresCaught(worlds: seq<World>, acts: seq<Act>, n: nat, i: nat)
    requires History(worlds, acts) && n < |acts| && i < |worlds[n].ops|
    requires acts[n].ClientRuns? && acts[n].thread == i
    ensures i < |worlds[n].clients| == |worlds[n + 1].clients|
    ensures ThreadOf(worlds[n + 1].clients[i]) == ThreadOf(worlds[n].clients[i])
    ensures Broken(worlds[n].ops[i]) ==> worlds[n + 1].clients[i] == Top(worlds[n].clients[i])
    ensures !worlds[n + 1].alive <==> Broken(worlds[n].ops[i]) && ThreadOf(worlds[n].clients[i]) == CallerThread
  {
    HistoryInv(worlds, acts, n);
    var w := worlds[n];
    assert Perform(w, acts[n]) == Some(worlds[n + 1]);
    assert OpValid(w.ops[i]) && w.ops[i].Idle? && (Resting(w.clients[i]) ==> w.ops[i].result == NoCall);
    assert w.ops[i].result.Dequeued? ==> InRange(w.ops[i].result.task.priority);
    hide Proceed, Begin, Inv, Balanced, AllValid, Clean, ThreadOf, Top, InRange;
    CaughtTurns(Seen(w.ring.count, w.scheduling, w.processing), w.clients[i], w.ops[i].result, acts[n].how,
                TurnOf(w, i, acts[n].how).value);
  }

  lemma CaughtTurns(seen: Seen, client: Client, result: Result, how: How, turn: Turn)
    requires Proceed(seen, client, result, how) == Some(turn) && (Resting(client) ==> result == NoCall)
    requires result.Dequeued? ==> InRange(result.task.priority)
    ensures ThreadOf(turn.client) == ThreadOf(client)
    ensures Broken(Idle(result)) ==> turn.client == Top(client)
    ensures turn.dies <==> Broken(Idle(result)) && ThreadOf(client) == CallerThread
  {
    if InPass(client) {
      CaughtInPass(seen, client, result, how, turn);
    } else if !client.CallerIdle? && !client.CallerAdds? && !client.CallerPrints? && !client.SchedulerLoop? &&
              !client.SchedulerOver? {
      CaughtByProcessor(seen, client, result, how, turn);
    }
    hide ProceedPass, ProceedProcessor, InRange, Ids;
  }

  lemma CaughtInPass(seen: Seen, client: Client, result: Result, how: How, turn: Turn)
    requires InPass(client) && ProceedPass(seen, client, result, how) == Some(turn) && (Resting(client) ==> result == NoCall)
    requires result.Dequeued? ==> InRange(result.task.priority)
    ensures ThreadOf(turn.client) == ThreadOf(client)
    ensures Broken(Idle(result)) ==> turn.client == Top(client)
    ensures turn.dies <==> Broken(Idle(result)) && ThreadOf(client) == CallerThread
  {
    hide Carry, Transit.Ordered, InRange, Ids;
  }

  lemma CaughtByProcessor(seen: Seen, client: Client, result: Result, how: How, turn: Turn)
    requires client.ProcessorLoop? || client.ProcessorOver? || client.ProcessorTests? || client.ProcessorFetches? ||
      client.ProcessorRuns? || client.ProcessorAdds? || client.ProcessorPrints?
    requires ProceedProcessor(seen, client, result, how) == Some(turn) && (Resting(client) ==> result == NoCall)
    requires result.Dequeued? ==> InRange(result.task.priority)
    ensures ThreadOf(turn.client) == ThreadOf(client)
    ensures Broken(Idle(result)) ==> turn.client == Top(client)
    ensures turn.dies <==> Broken(Idle(result)) && ThreadOf(client) == CallerThread
  {
    hide Carry, InRange, Pipeline.FateFits;
  }

  /** No failure of thread `i`, and one algorithm, over a stretch of a run. */
  predicate FaultlessStretch(acts: seq<Act>, i: nat, algorithm: Algorithm, from: nat, till: nat) {
    till <= |acts| && forall n :: from <= n < till ==> Faultless(acts[n], i, algorithm)
  }

  predicate AloneStretch(acts: seq<Act>, i: nat, from: nat, till: nat) {
    till <= |acts| && forall n :: from <= n < till ==> OfThread(acts[n], i)
  }

  /** In every run, whatever the other threads do meanwhile: without failures of its own, a pass takes tasks out,
      and has put back exactly those, in the same order and each carried once, when it is over; and it begins
      to put back only when it has read a count of 0. */
  lemma {:induction false} PassProgram(worlds: seq<World>, acts: seq<Act>, i: nat, algorithm: Algorithm, owner: Owner,
                                       from: nat, till: nat, alone: bool) returns (plan: Plan)
    requires History(worlds, acts) && from <= till < |worlds| && FaultlessStretch(acts, i, algorithm, from, till)
    requires i < |worlds[from].ops| && |worlds[from].clients| == |worlds[from].ops|
    requires worlds[from].clients[i] == PassTests(owner, []) && worlds[from].ops[i] == Idle(NoCall)
    requires forall n :: from <= n < till ==> i < |worlds[n].clients| && InPass(worlds[n].clients[i])
    requires alone ==> AloneStretch(acts, i, from, till)
    ensures |worlds[till].clients| == |worlds[till].ops| == |worlds[from].ops|
    ensures var client, op := worlds[till].clients[i], worlds[till].ops[i];
      var effects := ThreadEffects(worlds, acts, i, from, till);
      && (InPass(client) ==> PassAt(algorithm, owner, plan, client, op, effects))
      && (!InPass(client) ==> from < till && PassOver(algorithm, owner, plan, client, op, effects))
      && (alone && (Refilling(client) || !InPass(client)) ==> plan.fetched == QueueOf(worlds[from]))
    decreases till
  {
    hide Perform, Begin, PassAt, PassOver;
    if from == till {
      plan := Plan([], []);
      PassBegins(algorithm, owner);
    } else {
      var before := PassProgram(worlds, acts, i, algorithm, owner, from, till - 1, alone);
      var w, a := worlds[till - 1], acts[till - 1];
      assert Perform(w, a) == Some(worlds[till - 1 + 1]);
      HistoryInv(worlds, acts, till - 1);
      var effects := ThreadEffects(worlds, acts, i, from, till - 1);
      plan := PassWorldStep(w, a, i, algorithm, owner, before, effects);
      if alone && Refilling(worlds[till].clients[i]) && !Refilling(w.clients[i]) {
        AloneReplays(worlds, acts, i, from, till - 1);
        DrainedAll(algorithm, owner, before, w, i, QueueOf(worlds[from]), effects);
      }
    }
  }

  function QueueOf(w: World): seq<SharedTask> { if |w.ring.left| <= |w.ring.entered| then Queue(w.ring) else [] }

  lemma PassBegins(algorithm: Algorithm, owner: Owner)
    ensures PassAt(algorithm, owner, Plan([], []), PassTests(owner, []), Idle(NoCall), [])
  {
  }

  // A thread alone.

  /** The queue after these effects. */
  function Replay(q: seq<SharedTask>, es: seq<Event>): Option<seq<SharedTask>> {
    if es == [] then Some(q) else
    match Replay(q, es[..|es| - 1])
    case None => None
    case Some(m) =>
      match es[|es| - 1]
      case Stutter => Some(m)
      case Put(t) => Some(m + [t])
      case Take(t) => if m != [] && m[0] == t then Some(m[1..]) else None
  }

  lemma {:induction false} ReplayTakes(q: seq<SharedTask>, taken: seq<SharedTask>)
    requires Replay(q, TakesOf(taken)).Some?
    ensures |taken| <= |q| && taken == q[..|taken|] && Replay(q, TakesOf(taken)).value == q[|taken|..]
  {
    if taken != [] {
      var n := |taken| - 1;
      assert TakesOf(taken)[..n] == TakesOf(taken[..n]);
      ReplayTakes(q, taken[..n]);
    }
  }

  lemma {:induction false} ReplayPuts(q: seq<SharedTask>, es: seq<Event>, put: seq<SharedTask>)
    requires Replay(q, es).Some?
    ensures Replay(q, es + PutsOf(put)) == Some(Replay(q, es).value + put)
  {
    if put == [] {
      assert es + PutsOf(put) == es && Replay(q, es).value + put == Replay(q, es).value;
    } else {
      var n := |put| - 1;
      assert (es + PutsOf(put))[..|es| + n] == es + PutsOf(put[..n]);
      ReplayPuts(q, es, put[..n]);
      var m := Replay(q, es).value;
      assert (m + put[..n]) + [put[n]] == m + put;
    }
  }

  lemma StepReplays(w: World, a: Act, i: nat)
    requires WorldInv(w) && Perform(w, a).Some? && OfThread(a, i)
    ensures Replay(QueueOf(w), ActEffect(w, a, i)) == Some(QueueOf(Perform(w, a).value))
  {
    if a == RingRuns(i) {
      RunReplays(State(w.ring, w.ops), i);
      hide Inv, Exec, Replay, Balanced;
    } else {
      hide Inv, Exec, Proceed, Interrupted;
    }
  }

  lemma RunReplays(s: State, i: nat)
    requires Inv(s) && i < |s.ops| && Exec(s.ring, s.ops[i]).Goes?
    ensures var r := Exec(s.ring, s.ops[i]).ring;
      && |s.ring.left| <= |s.ring.entered| && |r.left| <= |r.entered|
      && Replay(Queue(s.ring), StepEffect(s.ops[i])) == Some(Queue(r))
  {
    StepRefines(s, Run(i));
    var e := Observed(s, Run(i));
    assert StepEffect(s.ops[i]) == if e.Stutter? then [] else [e];
    assert Apply(s, Run(i)).value.ring == Exec(s.ring, s.ops[i]).ring;
    hide Exec, Apply, Observed, StepEffect;
    OneReplay(Queue(s.ring), e, Queue(Exec(s.ring, s.ops[i]).ring), s.ring.capacity);
  }

  lemma OneReplay(q: seq<SharedTask>, e: Event, q': seq<SharedTask>, capacity: nat)
    requires FifoStep(capacity, q, e, q')
    ensures Replay(q, if e.Stutter? then [] else [e]) == Some(q')
  {
    assert [e][..0] == [];
    assert Replay(q, []) == Some(q);
  }

  lemma {:induction false} ReplayAppend(q: seq<SharedTask>, es: seq<Event>, fs: seq<Event>)
    requires Replay(q, es).Some?
    ensures Replay(q, es + fs) == Replay(Replay(q, es).value, fs)
    decreases |fs|
  {
    if fs == [] {
      assert es + fs == es;
    } else {
      var n := |fs| - 1;
      assert (es + fs)[..|es| + n] == es + fs[..n];
      ReplayAppend(q, es, fs[..n]);
    }
  }

  /** While a thread is alone the queue moves by its effects. */
  lemma {:induction false} AloneReplays(worlds: seq<World>, acts: seq<Act>, i: nat, from: nat, till: nat)
    requires History(worlds, acts) && from <= till < |worlds| && AloneStretch(acts, i, from, till)
    ensures Replay(QueueOf(worlds[from]), ThreadEffects(worlds, acts, i, from, till)) == Some(QueueOf(worlds[till]))
    decreases till
  {
    hide Perform, Begin, WorldInv, ActEffect, QueueOf;
    if from < till {
      AloneReplays(worlds, acts, i, from, till - 1);
      HistoryInv(worlds, acts, till - 1);
      assert Perform(worlds[till - 1], acts[till - 1]) == Some(worlds[till - 1 + 1]);
      StepReplays(worlds[till - 1], acts[till - 1], i);
      ReplayAppend(QueueOf(worlds[from]), ThreadEffects(worlds, acts, i, from, till - 1),
                   ActEffect(worlds[till - 1], acts[till - 1], i));
      hide Replay;
    }
  }

  /** A pass alone that reads a count of 0 has everything in its vector. */
  lemma DrainedAll(algorithm: Algorithm, owner: Owner, plan: Plan, w: World, i: nat, q: seq<SharedTask>, effects: seq<Event>)
    requires WorldInv(w) && i < |w.ops| && w.clients[i].PassTests? && w.ring.count == 0
    requires PassAt(algorithm, owner, plan, w.clients[i], w.ops[i], effects)
    requires Replay(q, effects) == Some(QueueOf(w))
    ensures plan.fetched == q
  {
    assert QueueOf(w) == [];
    assert effects == TakesOf(plan.fetched);
    hide WorldInv, PassAt;
    ReplayTakes(q, plan.fetched);
  }

  lemma ReplayPass(q: seq<SharedTask>, back: seq<SharedTask>)
    requires Replay(q, TakesOf(q) + PutsOf(back)).Some?
    ensures Replay(q, TakesOf(q) + PutsOf(back)) == Some(back)
  {
    assert q[..|q|] == q && q[|q|..] == [];
    ReplayWhole(q, q);
    ReplayPuts(q, TakesOf(q), back);
    assert [] + back == back;
  }

  /** Taking everything leaves nothing. */
  lemma {:induction false} ReplayWhole(q: seq<SharedTask>, taken: seq<SharedTask>)
    requires |taken| <= |q| && taken == q[..|taken|]
    ensures Replay(q, TakesOf(taken)) == Some(q[|taken|..])
  {
    if taken != [] {
      var n := |taken| - 1;
      assert TakesOf(taken)[..n] == TakesOf(taken[..n]);
      ReplayWhole(q, taken[..n]);
      assert q[n..][0] == taken[n] && q[n..][1..] == q[n + 1..];
    }
  }

  /** A reorder pass of one thread alone, from its first test to its end: every task in the ring has made one
      trip, in place. */
  lemma PassAlone(worlds: seq<World>, acts: seq<Act>, i: nat, algorithm: Algorithm, owner: Owner, from: nat, till: nat)
    returns (trips: seq<Trip>)
    requires History(worlds, acts) && from <= till < |worlds|
    requires FaultlessStretch(acts, i, algorithm, from, till) && AloneStretch(acts, i, from, till)
    requires i < |worlds[from].ops| && |worlds[from].clients| == |worlds[from].ops|
    requires worlds[from].clients[i] == PassTests(owner, []) && worlds[from].ops[i] == Idle(NoCall)
    requires forall n :: from <= n < till ==> i < |worlds[n].clients| && InPass(worlds[n].clients[i])
    requires i < |worlds[till].clients| && !InPass(worlds[till].clients[i])
    ensures var q := QueueOf(worlds[from]);
      && i < |worlds[till].ops|
      && worlds[till].clients[i] == AfterPass(owner) && worlds[till].ops[i] == Idle(NoCall)
      && |trips| == |q| && AllInRange(q) && AllOrdered(trips)
      && QueueOf(worlds[till]) == CarryAll(Some(algorithm), q, trips)
  {
    hide History, AllInRange, AllOrdered, CarryAll, Replay, ThreadEffects, InPass, FaultlessStretch, AloneStretch;
    var plan := PassProgram(worlds, acts, i, algorithm, owner, from, till, true);
    trips := plan.trips;
    AloneReplays(worlds, acts, i, from, till);
    ReplayPass(plan.fetched, CarryAll(Some(algorithm), plan.fetched, plan.trips));
  }
}
