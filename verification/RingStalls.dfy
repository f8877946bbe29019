/** Runs put together call by call, and why the one-consumer condition matters: two threads that both
    test before dequeuing. */
module RingStalls {
  import opened SharedTasks
  import opened RingProtocol
  import opened RingSafety
  import opened RingTheorems
  import opened RingAlone

  /** The state after a sequence of moves, if all of them can be made. */
  function After(s: State, moves: seq<Move>): Option<State>
    decreases |moves|
  {
    if moves == [] then Some(s) else
    match Apply(s, moves[0])
    case None => None
    case Some(next) => After(next, moves[1..])
  }

  /** Any thread may run its call alone until it returns or blocks. */
  lemma {:induction false} AloneIsAllowed(s: State, i: nat) returns (moves: seq<Move>)
    requires i < |s.ops|
    ensures forall n :: 0 <= n < |moves| ==> moves[n] == Run(i)
    ensures |RunAlone(s.ring, s.ops[i]).ops| == 1
    ensures var t := RunAlone(s.ring, s.ops[i]); After(s, moves) == Some(State(t.ring, s.ops[i := t.ops[0]]))
    decreases Rank(s.ring, s.ops[i])
  {
    OneThread(s.ring, s.ops[i]);
    match Exec(s.ring, s.ops[i]) {
      case Blocked =>
        BlockedAlone(s.ring, s.ops[i]);
        assert s.ops[i := s.ops[i]] == s.ops;
        moves := [];
      case Goes(r, op) =>
        RankDrops(s.ring, s.ops[i]);
        hide RunAlone, Exec;
        var next := State(r, s.ops[i := op]);
        var rest := AloneIsAllowed(next, i);
        moves := [Run(i)] + rest;
        assert Apply(s, Run(i)) == Some(next);
        assert moves[1..] == rest;
        var t := RunAlone(r, op);
        assert s.ops[i := op][i := t.ops[0]] == s.ops[i := t.ops[0]];
    }
  }

  lemma ReachableStep(s: State, m: Move)
    requires Reachable(s) && Apply(s, m).Some?
    ensures Reachable(Apply(s, m).value)
  {
    hide Apply, Init;
    var states, moves :| Trace(states, moves) && states[|moves|] == s;
    var next := Apply(s, m).value;
    var states', moves' := states + [next], moves + [m];
    forall n | 0 <= n < |moves'| ensures Apply(states'[n], moves'[n]) == Some(states'[n + 1]) {
      if n < |moves| {
        assert Apply(states[n], moves[n]) == Some(states[n + 1]);
      }
    }
    assert Trace(states', moves') && states'[|moves'|] == next;
  }

  lemma {:induction false} ReachableAfter(s: State, moves: seq<Move>)
    requires Reachable(s) && After(s, moves).Some?
    ensures Reachable(After(s, moves).value)
    decreases |moves|
  {
    hide Apply, Reachable;
    if moves != [] {
      ReachableStep(s, moves[0]);
      ReachableAfter(Apply(s, moves[0]).value, moves[1..]);
    }
  }

  lemma Created(capacity: Capacity, t: SharedTask, ops: seq<Op>) returns (s: State)
    requires forall i :: 0 <= i < |ops| ==> ops[i] == Idle(NoCall)
    ensures Reachable(s) && Quiescent(s.ring) && s.ops == ops
    ensures s.ring.capacity == capacity && s.ring.entered == s.ring.left == []
  {
    s := State(Ring(capacity, capacity, 0, 1, 0, 0, 0, 0, 0, seq(capacity, _ => t), [], []), ops);
    var moves: seq<Move> := [];
    assert Trace([s], moves) && [s][|moves|] == s;
    InitInv(State(s.ring, []));
    QuiescentIsInv(s.ring);
  }

  /** The first thread adds one task, from a quiet ring with room. */
  lemma AddOne(s: State, t: SharedTask) returns (s': State)
    requires Reachable(s) && s.ops != [] && s.ops[0].Idle? && Quiescent(s.ring)
    requires |s.ring.entered| < s.ring.capacity && s.ring.left == []
    ensures Reachable(s') && s'.ring.capacity == s.ring.capacity
    ensures s'.ops == s.ops[0 := Idle(Enqueued)] && Quiescent(s'.ring)
    ensures s'.ring.entered == s.ring.entered + [t] && s'.ring.left == []
  {
    var called := s.(ops := s.ops[0 := EnqWaitSlot(t)]);
    assert Apply(s, Call(0, EnqWaitSlot(t))) == Some(called);
    ReachableStep(s, Call(0, EnqWaitSlot(t)));
    EnqueueAlone(s.ring, t);
    hide RunAlone, Apply, Exec, Reachable;
    var moves := AloneIsAllowed(called, 0);
    ReachableAfter(called, moves);
    s' := After(called, moves).value;
    assert s.ops[0 := EnqWaitSlot(t)][0 := Idle(Enqueued)] == s.ops[0 := Idle(Enqueued)];
  }

  // Several consumers.

  /** Between calls, or on the way through a dequeue none of whose waits has failed. */
  predicate Dequeuing(op: Op) {
    op.Idle? || op.DeqWaitItem? || (HoldsItem(op) && !op.DeqUndoItem? && !op.DeqEmptyPostMutex? && !op.DeqEmptyPostItem?)
  }

  predicate OnlyDequeues(ops: seq<Op>) { forall i :: 0 <= i < |ops| ==> Dequeuing(ops[i]) }

  predicate OnlyRuns(moves: seq<Move>) { forall n :: 0 <= n < |moves| ==> moves[n].Run? }

  lemma DequeueMoves(r: Ring, op: Op)
    requires Exec(r, op).Goes? && Dequeuing(op)
    requires HasClaimed(op) ==> 1 <= r.count < SIZE_T_MOD
    ensures var Goes(r', op') := Exec(r, op);
      && Dequeuing(op')
      && Bit(Plays(Wanting, op')) + Bit(Plays(Claimed, op')) + r.count == Bit(Plays(Wanting, op)) + Bit(Plays(Claimed, op)) + r'.count
  {
  }

  /** A step of a dequeue brings the task count and the threads still to be served down together. */
  lemma DequeueRuns(s: State, i: nat)
    requires Inv(s) && OnlyDequeues(s.ops) && Apply(s, Run(i)).Some?
    ensures var s' := Apply(s, Run(i)).value;
      && Inv(s') && OnlyDequeues(s'.ops) && |s'.ops| == |s.ops|
      && Count(Wanting, s'.ops) + Count(Claimed, s'.ops) + s.ring.count
        == Count(Wanting, s.ops) + Count(Claimed, s.ops) + s'.ring.count
  {
    ApplyInv(s, Run(i));
    Room(s, i);
    DequeueMoves(s.ring, s.ops[i]);
    CountsUpdate(s.ops, i, Exec(s.ring, s.ops[i]).op);
    hide Inv, Exec, Dequeuing, Plays;
  }

  lemma {:induction false} DequeuesBalance(s: State, moves: seq<Move>)
    requires Inv(s) && OnlyDequeues(s.ops) && OnlyRuns(moves) && After(s, moves).Some?
    ensures var last := After(s, moves).value;
      && Inv(last) && OnlyDequeues(last.ops)
      && Count(Wanting, last.ops) + Count(Claimed, last.ops) + s.ring.count
        == Count(Wanting, s.ops) + Count(Claimed, s.ops) + last.ring.count
    decreases |moves|
  {
    hide Inv, Apply, Count;
    if moves != [] {
      assert moves[0].Run?;
      DequeueRuns(s, moves[0].thread);
      DequeuesBalance(Apply(s, moves[0]).value, moves[1..]);
    }
  }

  /** `n` tasks in a quiet ring and `k` threads before their first wait, the others between calls: however
      they run, when none can go on exactly `k - n` are left waiting, and nobody is if there are tasks for
      all. */
  lemma LeftWaiting(s: State, moves: seq<Move>, last: State)
    requires Reachable(s) && forall i :: 0 <= i < |s.ops| ==> s.ops[i].Idle? || s.ops[i].DeqWaitItem?
    requires OnlyRuns(moves) && After(s, moves) == Some(last) && Stuck(last)
    ensures var n, k := s.ring.count, Count(Wanting, s.ops);
      && Count(Wanting, last.ops) == (if k > n then k - n else 0)
      && last.ring.count == (if k > n then 0 else n - k)
      && ((exists i :: 0 <= i < |last.ops| && last.ops[i].DeqWaitItem?) <==> k > n)
  {
    ReachableInv(s);
    DequeuesBalance(s, moves);
    AtFirstWaits(s);
    CountZero(Claimed, s.ops);
    StuckOutsideMutex(last);
    AtFirstWaits(last);
    CountZero(Claimed, last.ops);
    CountZero(Wanting, last.ops);
    WantingBlocked(last);
  }

  /** A stuck state with a consumer waiting has no item in its semaphore. */
  lemma WantingBlocked(s: State)
    requires Stuck(s)
    ensures Count(Wanting, s.ops) > 0 ==> s.ring.dequeueSem == 0
    ensures Count(Wanting, s.ops) > 0 <==> exists i :: 0 <= i < |s.ops| && s.ops[i].DeqWaitItem?
  {
    CountZero(Wanting, s.ops);
    if Count(Wanting, s.ops) > 0 {
      var i :| 0 <= i < |s.ops| && Plays(Wanting, s.ops[i]);
      assert s.ops[i].DeqWaitItem?;
    }
    if i :| 0 <= i < |s.ops| && s.ops[i].DeqWaitItem? {
      assert Plays(Wanting, s.ops[i]);
    }
  }

  function TotalRank(r: Ring, ops: seq<Op>): nat {
    if ops == [] then 0 else Rank(r, ops[0]) + TotalRank(r, ops[1..])
  }

  lemma {:induction false} TotalRankUpdate(r: Ring, r': Ring, ops: seq<Op>, i: nat, op: Op)
    requires i < |ops| && OnlyDequeues(ops)
    ensures TotalRank(r', ops[i := op]) + Rank(r, ops[i]) == TotalRank(r, ops) + Rank(r', op)
  {
    if i == 0 {
      assert ops[i := op][1..] == ops[1..];
      SameRank(r, r', ops[1..]);
    } else {
      assert ops[i := op][1..] == ops[1..][i - 1 := op];
      TotalRankUpdate(r, r', ops[1..], i - 1, op);
    }
  }

  lemma {:induction false} SameRank(r: Ring, r': Ring, ops: seq<Op>)
    requires OnlyDequeues(ops)
    ensures TotalRank(r, ops) == TotalRank(r', ops)
  {
    if ops != [] {
      assert Dequeuing(ops[0]);
      SameRank(r, r', ops[1..]);
    }
  }

  lemma RunLowersRank(s: State, i: nat)
    requires OnlyDequeues(s.ops) && Apply(s, Run(i)).Some?
    ensures var s' := Apply(s, Run(i)).value; TotalRank(s'.ring, s'.ops) < TotalRank(s.ring, s.ops)
  {
    var Goes(r, op) := Exec(s.ring, s.ops[i]);
    RankDrops(s.ring, s.ops[i]);
    TotalRankUpdate(s.ring, r, s.ops, i, op);
    hide Exec, OnlyDequeues, Rank, RunAlone;
  }

  /** Such threads cannot run for ever, whichever of them goes next. */
  lemma {:induction false} DequeuesEnd(s: State, moves: seq<Move>)
    requires Inv(s) && OnlyDequeues(s.ops) && OnlyRuns(moves) && After(s, moves).Some?
    ensures |moves| <= TotalRank(s.ring, s.ops)
    decreases |moves|
  {
    hide Inv, Apply, TotalRank, OnlyDequeues;
    if moves != [] {
      assert moves[0].Run?;
      DequeueRuns(s, moves[0].thread);
      RunLowersRank(s, moves[0].thread);
      DequeuesEnd(Apply(s, moves[0]).value, moves[1..]);
    }
  }

  /** And running any that can go leads to a state in which none can. */
  lemma {:induction false} DequeuesSettle(s: State) returns (moves: seq<Move>, last: State)
    requires Inv(s) && OnlyDequeues(s.ops)
    ensures OnlyRuns(moves) && After(s, moves) == Some(last) && Stuck(last)
    decreases TotalRank(s.ring, s.ops)
  {
    if Stuck(s) {
      return [], s;
    }
    var i :| 0 <= i < |s.ops| && !s.ops[i].Idle? && Exec(s.ring, s.ops[i]).Goes?;
    DequeueRuns(s, i);
    RunLowersRank(s, i);
    var next := Apply(s, Run(i)).value;
    hide Inv, Apply, OnlyDequeues, Stuck, TotalRank;
    var rest;
    rest, last := DequeuesSettle(next);
    moves := [Run(i)] + rest;
    assert moves[1..] == rest;
  }

  /** The smallest case: one task in the ring, and two threads that have both seen it and called `dequeue`.
      One of them gets it, and the other is left waiting on an empty ring with nobody to wake it. */
  lemma TwoConsumersStall(s: State, a: nat, b: nat) returns (moves: seq<Move>, last: State)
    requires Quiescent(s.ring) && |Queue(s.ring)| == 1
    requires a < |s.ops| && b < |s.ops| && a != b
    requires s.ops[a] == s.ops[b] == DeqWaitItem
    requires forall i :: 0 <= i < |s.ops| && i != a && i != b ==> s.ops[i].Idle?
    ensures After(s, moves) == Some(last) && |last.ops| == |s.ops|
    ensures last.ops[a] == Idle(Dequeued(Queue(s.ring)[0])) && last.ops[b] == DeqWaitItem
    ensures last.ring.count == last.ring.dequeueSem == 0 && Stuck(last)
  {
    moves := AloneIsAllowed(s, a);
    DequeueAlone(s.ring);
    var t := RunAlone(s.ring, DeqWaitItem);
    last := State(t.ring, s.ops[a := t.ops[0]]);
    hide RunAlone;
    assert |Queue(t.ring)| == 0;
  }

  /** That stall is reached from the created state, whatever the capacity. */
  lemma StallIsReachable(capacity: Capacity, t: SharedTask) returns (last: State)
    ensures Reachable(last) && last.ring.capacity == capacity
    ensures last.ops == [Idle(Dequeued(t)), DeqWaitItem]
    ensures last.ring.count == last.ring.dequeueSem == 0 && Stuck(last)
  {
    hide Reachable, Quiescent, Apply, Exec, Stuck, RunAlone, After;
    var empty := Created(capacity, t, [Idle(NoCall), Idle(NoCall)]);
    var s := AddOne(empty, t);
    assert Queue(s.ring) == [t];
    var both := BothCall(s);
    var moves;
    moves, last := TwoConsumersStall(both, 0, 1);
    ReachableAfter(both, moves);
    assert last.ops == [last.ops[0], last.ops[1]];
    CapacityStays(both, moves);
  }

  lemma BothCall(s: State) returns (both: State)
    requires Reachable(s) && |s.ops| == 2 && s.ops[0].Idle? && s.ops[1].Idle?
    ensures Reachable(both) && both.ring == s.ring && both.ops == [DeqWaitItem, DeqWaitItem]
  {
    hide Reachable, Exec;
    ReachableStep(s, Call(0, DeqWaitItem));
    ReachableStep(s.(ops := s.ops[0 := DeqWaitItem]), Call(1, DeqWaitItem));
    both := s.(ops := s.ops[0 := DeqWaitItem][1 := DeqWaitItem]);
  }

  lemma {:induction false} CapacityStays(s: State, moves: seq<Move>)
    requires After(s, moves).Some?
    ensures After(s, moves).value.ring.capacity == s.ring.capacity
    decreases |moves|
  {
    if moves != [] {
      HistoriesFollow(s, moves[0]);
      hide Apply;
      CapacityStays(Apply(s, moves[0]).value, moves[1..]);
    }
  }
}
