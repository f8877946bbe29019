/** Each call to the ring takes effect once, between its start and its end. With
    `RingTheorems.RunRefinesFifo`, which orders those effects as a bounded queue, the ring is linearizable. */
module RingLinearizability {
  import opened SharedTasks
  import opened RingProtocol
  import opened RingSafety
  import opened RingTheorems

  /** What a call entered at `entry` has done to the queue when its thread stands at `op`. None if `op` is
      not a point of that call. */
  function Done(entry: Op, op: Op): Option<seq<Event>> {
    match entry
    case EnqWaitSlot(t) =>
      if op == EnqWaitSlot(t) || op == EnqWaitMutex(t) || op == EnqUndoSlot(t) || op == EnqLoadRear(t) || op == EnqAddCount(t) ||
         ((op.EnqWriteSlot? || op.EnqStoreRear?) && op.task == t) ||
         (op.Idle? && op.result.EnqueueThrew? && op.result.task == t) then Some([])
      else if HasPublished(op) || op == Idle(Enqueued) then Some([Put(t)])
      else None
    case DeqWaitItem =>
      if op.DeqWaitItem? || HasClaimed(op) || (op.Idle? && op.result.Threw?) then Some([])
      else if HasTaken(op) then Some([Take(op.task)])
      else if op.Idle? && op.result.Dequeued? then Some([Take(op.result.task)])
      else None
    case PrintWaitMutex =>
      if op.PrintWaitMutex? || op.PrintLoadFront? || op.PrintLoadRear? || op.PrintLoadCount? || op.PrintLoop? ||
         op.PrintPostMutex? || op.PrintCatch? || (op.Idle? && (op.result.Printed? || op.result.Threw?)) then Some([])
      else None
    case _ => None
  }

  /** The effect of a move, if it is thread `i`'s. */
  function Effect(s: State, m: Move, i: nat): seq<Event> {
    if m == Run(i) && !Observed(s, m).Stutter? then [Observed(s, m)] else []
  }

  /** The effects of thread `i` from one state of a run to another, in order. */
  function Effects(states: seq<State>, moves: seq<Move>, i: nat, from: nat, till: nat): seq<Event>
    requires from <= till <= |moves| <= |states|
  {
    if from == till then [] else Effects(states, moves, i, from, till - 1) + Effect(states[till - 1], moves[till - 1], i)
  }

  function StepEffect(op: Op): seq<Event> {
    match op
    case EnqAddCount(t) => [Put(t)]
    case DeqSubCount(t) => [Take(t)]
    case _ => []
  }

  lemma EnqueueDoes(r: Ring, op: Op, entry: Op)
    requires entry.EnqWaitSlot? && Done(entry, op).Some? && !op.Idle? && Exec(r, op).Goes?
    ensures Done(entry, Exec(r, op).op) == Some(Done(entry, op).value + StepEffect(op))
  {
    var done: seq<Event> := Done(entry, op).value;
    assert done + [] == done;
    if op.EnqAddCount? {
      assert [] + StepEffect(op) == StepEffect(op);
    }
  }

  lemma DequeueDoes(r: Ring, op: Op)
    requires Done(DeqWaitItem, op).Some? && !op.Idle? && Exec(r, op).Goes?
    ensures Done(DeqWaitItem, Exec(r, op).op) == Some(Done(DeqWaitItem, op).value + StepEffect(op))
  {
    var done: seq<Event> := Done(DeqWaitItem, op).value;
    assert done + [] == done;
    if op.DeqSubCount? {
      assert [] + StepEffect(op) == StepEffect(op);
    }
  }

  lemma PrintDoes(r: Ring, op: Op)
    requires Done(PrintWaitMutex, op).Some? && !op.Idle? && Exec(r, op).Goes?
    ensures Done(PrintWaitMutex, Exec(r, op).op) == Some(Done(PrintWaitMutex, op).value + StepEffect(op))
  {
    assert Done(PrintWaitMutex, op).value + StepEffect(op) == [];
  }

  lemma RunDoes(r: Ring, op: Op, entry: Op)
    requires Done(entry, op).Some? && !op.Idle? && Exec(r, op).Goes?
    ensures Done(entry, Exec(r, op).op) == Some(Done(entry, op).value + StepEffect(op))
  {
    DoneEntry(entry, op);
    hide Done, Exec, StepEffect;
    match entry
    case EnqWaitSlot(_) => EnqueueDoes(r, op, entry);
    case DeqWaitItem => DequeueDoes(r, op);
    case PrintWaitMutex => PrintDoes(r, op);
  }

  lemma DoneEntry(entry: Op, op: Op)
    requires Done(entry, op).Some?
    ensures Entry(entry)
  {
  }

  lemma InterruptDoes(op: Op, entry: Op)
    requires Done(entry, op).Some? && !op.Idle? && Interrupted(op).Some?
    ensures Done(entry, Interrupted(op).value) == Done(entry, op)
  {
  }

  /** A move of any thread, while thread `i` is in a call, adds its effect to what that call has done. */
  lemma MoveDoes(s: State, m: Move, i: nat, entry: Op)
    requires i < |s.ops| && !s.ops[i].Idle? && Done(entry, s.ops[i]).Some? && Apply(s, m).Some?
    ensures |Apply(s, m).value.ops| == |s.ops|
    ensures Done(entry, Apply(s, m).value.ops[i]) == Some(Done(entry, s.ops[i]).value + Effect(s, m, i))
  {
    var op := s.ops[i];
    assert Done(entry, op).value + [] == Done(entry, op).value;
    if m.thread == i {
      match m {
        case Run(_) => RunDoes(s.ring, op, entry);
        case Interrupt(_) => InterruptDoes(op, entry);
        case Call(_, _) =>
      }
    }
    hide Done, Exec, Interrupted;
  }

  /** Thread `i` enters an operation with move `from`, and is inside it up to state `till`. */
  predicate InCall(states: seq<State>, moves: seq<Move>, i: nat, entry: Op, from: nat, till: nat) {
    && from < till <= |moves| < |states|
    && moves[from] == Call(i, entry)
    && forall k :: from < k < till ==> i < |states[k].ops| && !states[k].ops[i].Idle?
  }

  lemma {:induction false} CallDoes(states: seq<State>, moves: seq<Move>, i: nat, entry: Op, from: nat, till: nat)
    requires Trace(states, moves) && InCall(states, moves, i, entry, from, till)
    ensures i < |states[till].ops|
    ensures Done(entry, states[till].ops[i]) == Some(Effects(states, moves, i, from, till))
    decreases till
  {
    hide Done, Init, Apply, Effect;
    assert Apply(states[till - 1], moves[till - 1]) == Some(states[till - 1 + 1]);
    if from == till - 1 {
      EntryDoesNothing(states[from], i, entry);
      CallHasNoEffect(states[from], i, entry);
      assert Effects(states, moves, i, from, till) == Effects(states, moves, i, from, from) + [];
    } else {
      CallDoes(states, moves, i, entry, from, till - 1);
      MoveDoes(states[till - 1], moves[till - 1], i, entry);
    }
  }

  lemma EntryDoesNothing(s: State, i: nat, entry: Op)
    requires Apply(s, Call(i, entry)).Some?
    ensures i < |Apply(s, Call(i, entry)).value.ops|
    ensures Done(entry, Apply(s, Call(i, entry)).value.ops[i]) == Some([])
  {
  }

  predicate ShowsQueue(states: seq<State>, from: nat, k: nat, till: nat, seen: seq<SharedTask>)
    requires till < |states|
  {
    from < k < till && |states[k].ring.left| <= |states[k].ring.entered| && seen == Queue(states[k].ring)
  }

  lemma CallHasNoEffect(s: State, i: nat, entry: Op)
    ensures Effect(s, Call(i, entry), i) == []
  {
  }

  /** What a print returns is the queue at a moment inside its call. */
  lemma PrintSawQueue(states: seq<State>, moves: seq<Move>, i: nat, from: nat, till: nat)
    requires Trace(states, moves) && InCall(states, moves, i, PrintWaitMutex, from, till)
    requires i < |states[till].ops| && states[till].ops[i].Idle? && states[till].ops[i].result.Printed?
    ensures exists k :: ShowsQueue(states, from, k, till, states[till].ops[i].result.seen)
  {
    var k := till - 1;
    assert Apply(states[k], moves[k]) == Some(states[k + 1]);
    TraceInv(states, moves, k);
    assert from < k;
    assert states[k].ops[i] == PrintPostMutex(states[till].ops[i].result.seen);
    assert Local(states[k].ring, states[k].ops[i]);
    assert ShowsQueue(states, from, k, till, states[till].ops[i].result.seen);
  }

  /** The effects of a call that has ended: a returned enqueue put its task, once; a returned dequeue took the
      task it returns, once; a print changed nothing and shows the queue of a moment inside the call; and a
      call that threw did nothing. */
  lemma CallTakesEffectOnce(states: seq<State>, moves: seq<Move>, i: nat, entry: Op, from: nat, till: nat)
    requires Trace(states, moves) && InCall(states, moves, i, entry, from, till)
    requires i < |states[till].ops| && states[till].ops[i].Idle?
    ensures var effects := Effects(states, moves, i, from, till);
      match states[till].ops[i].result
      case NoCall => false
      case Enqueued => entry.EnqWaitSlot? && effects == [Put(entry.task)]
      case Dequeued(t) => entry == DeqWaitItem && effects == [Take(t)]
      case Printed(seen) =>
        && entry == PrintWaitMutex && effects == []
        && exists k :: ShowsQueue(states, from, k, till, seen)
      case EnqueueThrew(t, _) => entry == EnqWaitSlot(t) && effects == []
      case Threw(_) => !entry.EnqWaitSlot? && effects == []
  {
    CallDoes(states, moves, i, entry, from, till);
    if states[till].ops[i].result.Printed? {
      PrintSawQueue(states, moves, i, from, till);
    }
  }

  /** Conversely a thread that is inside an operation entered it by a call, so every effect belongs to one. */
  lemma {:induction false} CallBegan(states: seq<State>, moves: seq<Move>, i: nat, n: nat)
    requires Trace(states, moves) && n < |states| && i < |states[n].ops| && !states[n].ops[i].Idle?
    ensures exists entry, from :: InCall(states, moves, i, entry, from, n)
  {
    assert n > 0;
    assert Apply(states[n - 1], moves[n - 1]) == Some(states[n - 1 + 1]);
    if states[n - 1].ops[i].Idle? {
      assert moves[n - 1].Call? && moves[n - 1].thread == i;
      assert InCall(states, moves, i, moves[n - 1].entry, n - 1, n);
    } else {
      CallBegan(states, moves, i, n - 1);
      var entry, from :| InCall(states, moves, i, entry, from, n - 1);
      assert InCall(states, moves, i, entry, from, n);
    }
  }
}
