/** Runs of one thread in which a wait fails or a print throws: what the call tells its caller, and that it
    leaves the ring as it was. */
module RingFailures {
  import opened SharedTasks
  import opened RingProtocol
  import opened RingSafety
  import opened RingAlone
  import opened RingStalls

  lemma OneMove(s: State, m: Move)
    ensures After(s, [m]) == Apply(s, m)
  {
    hide Apply;
    assert [m][1..] == [];
  }

  lemma TwoMoves(s: State, m: Move, m': Move)
    requires Apply(s, m).Some?
    ensures After(s, [m, m']) == Apply(Apply(s, m).value, m')
  {
    hide Apply;
    assert [m, m'][1..] == [m'];
    OneMove(Apply(s, m).value, m');
  }

  lemma ThreeMoves(s: State, m: Move, m': Move, m'': Move)
    requires Apply(s, m).Some? && Apply(Apply(s, m).value, m').Some?
    ensures After(s, [m, m', m'']) == Apply(Apply(Apply(s, m).value, m').value, m'')
  {
    hide Apply;
    assert [m, m', m''][1..] == [m', m''];
    TwoMoves(Apply(s, m).value, m', m'');
  }

  lemma Alone(op: Op, op': Op)
    ensures [op][0 := op'] == [op']
  {
  }

  /** An enqueue whose first wait fails. */
  lemma EnqueueFailsAtOnce(r: Ring, t: SharedTask)
    ensures After(State(r, [EnqWaitSlot(t)]), [Interrupt(0)]) == Some(State(r, [Idle(EnqueueThrew(t, EnqueueWaitFailed))]))
  {
    var s := State(r, [EnqWaitSlot(t)]);
    Alone(EnqWaitSlot(t), Idle(EnqueueThrew(t, EnqueueWaitFailed)));
    OneMove(s, Interrupt(0));
  }

  /** An enqueue whose second wait fails: it gives the free slot back. */
  lemma EnqueueFails(r: Ring, t: SharedTask)
    requires Quiescent(r)
    ensures After(State(r, [EnqWaitSlot(t)]), [Interrupt(0)]) == Some(State(r, [Idle(EnqueueThrew(t, EnqueueWaitFailed))]))
    ensures |Queue(r)| < r.capacity ==>
      After(State(r, [EnqWaitSlot(t)]), [Run(0), Interrupt(0), Run(0)])
        == Some(State(r, [Idle(EnqueueThrew(t, MutexWaitFailed))]))
  {
    var s := State(r, [EnqWaitSlot(t)]);
    EnqueueFailsAtOnce(r, t);
    if |Queue(r)| < r.capacity {
      var r1 := r.(enqueueSem := r.enqueueSem - 1);
      assert r1.(enqueueSem := r1.enqueueSem + 1) == r;
      Alone(EnqWaitSlot(t), EnqWaitMutex(t));
      Alone(EnqWaitMutex(t), EnqUndoSlot(t));
      Alone(EnqUndoSlot(t), Idle(EnqueueThrew(t, MutexWaitFailed)));
      assert r.enqueueSem > 0;
      hide After, Queue, Quiescent;
      assert Apply(s, Run(0)) == Some(State(r1, [EnqWaitMutex(t)]));
      assert Apply(State(r1, [EnqWaitMutex(t)]), Interrupt(0)) == Some(State(r1, [EnqUndoSlot(t)]));
      assert Apply(State(r1, [EnqUndoSlot(t)]), Run(0)) == Some(State(r, [Idle(EnqueueThrew(t, MutexWaitFailed))]));
      hide *;
      ThreeMoves(s, Run(0), Interrupt(0), Run(0));
    }
  }

  /** A dequeue whose first wait fails, and one whose second does. */
  lemma DequeueFails(r: Ring)
    requires Quiescent(r)
    ensures After(State(r, [DeqWaitItem]), [Interrupt(0)]) == Some(State(r, [Idle(Threw(DequeueWaitFailed))]))
    ensures Queue(r) != [] ==>
      After(State(r, [DeqWaitItem]), [Run(0), Interrupt(0), Run(0)]) == Some(State(r, [Idle(Threw(MutexWaitFailed))]))
  {
    var s := State(r, [DeqWaitItem]);
    Alone(DeqWaitItem, Idle(Threw(DequeueWaitFailed)));
    Alone(DeqWaitItem, DeqWaitMutex);
    Alone(DeqWaitMutex, DeqUndoItem);
    Alone(DeqUndoItem, Idle(Threw(MutexWaitFailed)));
    assert Apply(s, Interrupt(0)) == Some(State(r, [Idle(Threw(DequeueWaitFailed))]));
    if Queue(r) != [] {
      var r1 := r.(dequeueSem := r.dequeueSem - 1);
      assert Apply(s, Run(0)) == Some(State(r1, [DeqWaitMutex]));
      assert Apply(State(r1, [DeqWaitMutex]), Interrupt(0)) == Some(State(r1, [DeqUndoItem]));
      assert Apply(State(r1, [DeqUndoItem]), Run(0)) == Some(State(r, [Idle(Threw(MutexWaitFailed))]));
    }
    hide *;
    OneMove(s, Interrupt(0));
    if Queue(r) != [] {
      ThreeMoves(s, Run(0), Interrupt(0), Run(0));
    }
  }

  /** A print may throw at any of its steps under the mutex, and then gives the mutex back. */
  lemma PrintFaults(r: Ring, op: Op)
    requires op.PrintLoadFront? || op.PrintLoadRear? || op.PrintLoadCount? || op.PrintLoop?
    ensures After(State(r, [op]), [Interrupt(0), Run(0)])
      == Some(State(r.(mutexSem := r.mutexSem + 1), [Idle(Threw(PrintFaulted))]))
  {
    Alone(op, PrintCatch);
    Alone(PrintCatch, Idle(Threw(PrintFaulted)));
    hide After;
    assert Interrupted(op) == Some(PrintCatch);
    assert Apply(State(r, [op]), Interrupt(0)) == Some(State(r, [PrintCatch])) by {
      hide Interrupted, Exec;
    }
    assert Apply(State(r, [PrintCatch]), Run(0)) == Some(State(r.(mutexSem := r.mutexSem + 1), [Idle(Threw(PrintFaulted))]));
    hide *;
    TwoMoves(State(r, [op]), Interrupt(0), Run(0));
  }

  /** A print whose wait fails, and one that throws inside. */
  lemma PrintFails(r: Ring)
    requires Quiescent(r)
    ensures After(State(r, [PrintWaitMutex]), [Interrupt(0)]) == Some(State(r, [Idle(Threw(PrintWaitFailed))]))
    ensures After(State(r, [PrintWaitMutex]), [Run(0), Interrupt(0), Run(0)]) == Some(State(r, [Idle(Threw(PrintFaulted))]))
  {
    var s := State(r, [PrintWaitMutex]);
    Alone(PrintWaitMutex, Idle(Threw(PrintWaitFailed)));
    Alone(PrintWaitMutex, PrintLoadFront);
    Alone(PrintLoadFront, PrintCatch);
    Alone(PrintCatch, Idle(Threw(PrintFaulted)));
    hide After, Queue, Histories, Settled;
    var r1 := r.(mutexSem := 0);
    assert Apply(s, Interrupt(0)) == Some(State(r, [Idle(Threw(PrintWaitFailed))]));
    assert Apply(s, Run(0)) == Some(State(r1, [PrintLoadFront]));
    assert Apply(State(r1, [PrintLoadFront]), Interrupt(0)) == Some(State(r1, [PrintCatch]));
    assert Apply(State(r1, [PrintCatch]), Run(0)) == Some(State(r, [Idle(Threw(PrintFaulted))]));
    hide *;
    OneMove(s, Interrupt(0));
    ThreeMoves(s, Run(0), Interrupt(0), Run(0));
  }
}
