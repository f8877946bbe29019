/** A pass of one thread alone exists, for any clock readings, and leaves the ring quiet. */
module ThreadRuns {
  import opened SharedTasks
  import opened Priority
  import opened RingProtocol
  import opened RingSafety
  import opened RingTheorems
  import opened RingAlone
  import opened Threads
  import opened ThreadSafety
  import opened Transit
  import opened ThreadPrograms

  /** With nobody inside a call the ring is quiet. */
  lemma AllIdleQuiet(w: World)
    requires WorldInv(w) && forall i :: 0 <= i < |w.ops| ==> w.ops[i].Idle?
    ensures Quiescent(w.ring)
  {
    CountZero(SlotPermit, w.ops);
    CountZero(ItemPermit, w.ops);
    CountZero(Critical, w.ops);
    CountZero(Published, w.ops);
    CountZero(Claimed, w.ops);
    hide Balanced, AllValid, Rested, Clean, Local, Count;
  }

  /** While one thread is alone the others stay where they are, so between its calls the ring is quiet. */
  lemma {:induction false} QuietBetweenCalls(worlds: seq<World>, acts: seq<Act>, i: nat, from: nat, till: nat)
    requires History(worlds, acts) && from <= till < |worlds| && AloneStretch(acts, i, from, till)
    requires i < |worlds[from].ops| && forall j :: 0 <= j < |worlds[from].ops| && j != i ==> worlds[from].ops[j].Idle?
    ensures |worlds[till].ops| == |worlds[from].ops|
    ensures forall j :: 0 <= j < |worlds[till].ops| && j != i ==> worlds[till].ops[j].Idle?
    ensures worlds[till].ops[i].Idle? ==> Quiescent(worlds[till].ring)
    decreases till
  {
    hide Perform, Begin, WorldInv, Quiescent;
    HistoryInv(worlds, acts, till);
    if from < till {
      QuietBetweenCalls(worlds, acts, i, from, till - 1);
      var w, a := worlds[till - 1], acts[till - 1];
      assert Perform(w, a) == Some(worlds[till - 1 + 1]);
      OthersKeepOps(w, a, i);
    }
    if worlds[till].ops[i].Idle? {
      AllIdleQuiet(worlds[till]);
    }
  }

  lemma OthersKeepOps(w: World, a: Act, i: nat)
    requires OfThread(a, i) && Perform(w, a).Some?
    ensures |Perform(w, a).value.ops| == |w.ops|
    ensures forall j :: 0 <= j < |w.ops| && j != i ==> Perform(w, a).value.ops[j] == w.ops[j]
  {
    hide Exec, Proceed, Interrupted;
  }

  // Building a run.

  /** The world after a sequence of acts, if all of them can be performed. */
  function Follow(w: World, acts: seq<Act>): Option<World>
    decreases |acts|
  {
    if acts == [] then Some(w) else
    match Perform(w, acts[0])
    case None => None
    case Some(next) => Follow(next, acts[1..])
  }

  lemma {:induction false} FollowOn(w: World, before: seq<Act>, after: seq<Act>)
    requires Follow(w, before).Some?
    ensures Follow(w, before + after) == Follow(Follow(w, before).value, after)
    decreases |before|
  {
    hide Perform;
    if before == [] {
      assert before + after == after;
    } else {
      assert (before + after)[1..] == before[1..] + after;
      FollowOn(Perform(w, before[0]).value, before[1..], after);
    }
  }

  lemma FollowOne(w: World, a: Act)
    ensures Follow(w, [a]) == Perform(w, a)
  {
    hide Perform;
    assert [a][1..] == [];
  }

  /** A live world with thread `i` between calls of its program and the ring quiet. */
  predicate Resumes(w: World, i: nat, client: Client) {
    && w.alive && |w.clients| == |w.ops| && i < |w.ops|
    && w.clients[i] == client && Quiescent(w.ring) && AllInRange(Queue(w.ring))
  }

  /** The world with other values for thread `i` and the ring. */
  function With(w: World, i: nat, client: Client, r: Ring, op: Op): World
    requires i < |w.clients| == |w.ops|
  {
    w.(clients := w.clients[i := client], ring := r, ops := w.ops[i := op])
  }

  /** A ring call can be run to its end or to a wait. */
  lemma {:induction false} CallRuns(w: World, i: nat) returns (acts: seq<Act>)
    requires w.alive && i < |w.ops| == |w.clients|
    ensures forall n :: 0 <= n < |acts| ==> acts[n] == RingRuns(i)
    ensures |RunAlone(w.ring, w.ops[i]).ops| == 1
    ensures var s := RunAlone(w.ring, w.ops[i]); Follow(w, acts) == Some(With(w, i, w.clients[i], s.ring, s.ops[0]))
    decreases Rank(w.ring, w.ops[i])
  {
    OneThread(w.ring, w.ops[i]);
    match Exec(w.ring, w.ops[i]) {
      case Blocked =>
        BlockedAlone(w.ring, w.ops[i]);
        acts := [];
        assert w.ops[i := w.ops[i]] == w.ops && w.clients[i := w.clients[i]] == w.clients;
      case Goes(r, op) =>
        RankDrops(w.ring, w.ops[i]);
        var next := w.(ring := r, ops := w.ops[i := op]);
        assert Perform(w, RingRuns(i)) == Some(next);
        hide RunAlone, Exec, Perform, Rank;
        var rest := CallRuns(next, i);
        acts := [RingRuns(i)] + rest;
        assert acts[1..] == rest;
        var s := RunAlone(r, op);
        assert w.ops[i := op][i := s.ops[0]] == w.ops[i := s.ops[0]];
    }
  }

  lemma {:induction false} LoopAlone(r: Ring, index: nat, k: nat, size: nat, seen: seq<SharedTask>)
    requires |r.tasks| == r.capacity && index < r.capacity
    ensures var s := RunAlone(r, PrintLoop(index, k, size, seen));
      |s.ops| == 1 && s.ring == r.(mutexSem := r.mutexSem + 1) && s.ops[0].Idle? && s.ops[0].result.Printed?
    decreases if k < size then size - k else 0
  {
    OneThread(r, PrintLoop(index, k, size, seen));
    RankDrops(r, PrintLoop(index, k, size, seen));
    if k >= size {
      RankDrops(r, PrintPostMutex(seen));
    } else {
      NextUnfolds(index, r.capacity);
      LoopAlone(r, Next(index, r.capacity), k + 1, size, seen + [r.tasks[index]]);
    }
  }

  /** A print alone returns, and leaves the ring as it was. */
  lemma PrintAlone(r: Ring)
    requires Quiescent(r)
    ensures var s := RunAlone(r, PrintWaitMutex); |s.ops| == 1 && s.ring == r && s.ops[0].Idle? && s.ops[0].result.Printed?
  {
    OneThread(r, PrintWaitMutex);
    var inside := r.(mutexSem := 0);
    RankDrops(r, PrintWaitMutex);
    RankDrops(inside, PrintLoadFront);
    RankDrops(inside, PrintLoadRear(r.front));
    RankDrops(inside, PrintLoadCount(r.front));
    if r.count == 0 {
      RankDrops(inside, PrintPostMutex([]));
    } else {
      LoopAlone(inside, r.front, 0, r.count, []);
    }
    assert inside.(mutexSem := 1) == r;
  }

  predicate OnlyThread(acts: seq<Act>, i: nat, algorithm: Algorithm) {
    forall n :: 0 <= n < |acts| ==> OfThread(acts[n], i) && Faultless(acts[n], i, algorithm)
  }

  /** A turn of the program that moves the thread to another place. */
  lemma TurnsTo(w: World, i: nat, how: How, client: Client, op: Op)
    requires w.alive && i < |w.ops| == |w.clients| && w.ops[i].Idle?
    requires Proceed(Seen(w.ring.count, w.scheduling, w.processing), w.clients[i], w.ops[i].result, how) == Moves(client, op)
    ensures Perform(w, ClientRuns(i, how)) == Some(With(w, i, client, w.ring, op))
  {
    hide Proceed;
    assert w.submitted + multiset{} == w.submitted && w.retired + multiset{} == w.retired && w.lost + multiset{} == w.lost;
  }

  lemma WithTwice(w: World, i: nat, client: Client, r: Ring, op: Op, client': Client, r': Ring, op': Op)
    requires i < |w.clients| == |w.ops|
    ensures With(With(w, i, client, r, op), i, client', r', op') == With(w, i, client', r', op')
  {
    assert w.clients[i := client][i := client'] == w.clients[i := client'];
    assert w.ops[i := op][i := op'] == w.ops[i := op'];
  }

  /** A ring call that returns, and the turn after it. */
  lemma CallAndTurn(w: World, i: nat, algorithm: Algorithm, r: Ring, result: Result, how: How, client: Client, op: Op)
    returns (acts: seq<Act>)
    requires w.alive && i < |w.ops| == |w.clients|
    requires RunAlone(w.ring, w.ops[i]) == State(r, [Idle(result)])
    requires Proceed(Seen(r.count, w.scheduling, w.processing), w.clients[i], result, how) == Moves(client, op)
    requires how.Rewrite? ==> how.algorithm == algorithm
    ensures OnlyThread(acts, i, algorithm) && Follow(w, acts) == Some(With(w, i, client, r, op))
  {
    hide RunAlone, Proceed, Perform, Follow;
    var steps := CallRuns(w, i);
    var ended := With(w, i, w.clients[i], r, Idle(result));
    TurnsTo(ended, i, how, client, op);
    WithTwice(w, i, w.clients[i], r, Idle(result), client, r, op);
    acts := steps + [ClientRuns(i, how)];
    FollowOne(ended, ClientRuns(i, how));
    FollowOn(w, steps, [ClientRuns(i, how)]);
  }

  /** A turn that starts a ring call, the call, and the turn after it. */
  lemma TurnAndCall(w: World, i: nat, algorithm: Algorithm, how: How, called: Client, entry: Op, r: Ring, result: Result,
                    how': How, client: Client, op: Op) returns (acts: seq<Act>)
    requires w.alive && i < |w.ops| == |w.clients| && w.ops[i].Idle?
    requires Proceed(Seen(w.ring.count, w.scheduling, w.processing), w.clients[i], w.ops[i].result, how) == Moves(called, entry)
    requires RunAlone(w.ring, entry) == State(r, [Idle(result)])
    requires Proceed(Seen(r.count, w.scheduling, w.processing), called, result, how') == Moves(client, op)
    requires (how.Rewrite? ==> how.algorithm == algorithm) && (how'.Rewrite? ==> how'.algorithm == algorithm)
    ensures OnlyThread(acts, i, algorithm) && Follow(w, acts) == Some(With(w, i, client, r, op))
  {
    hide RunAlone, Proceed, Perform, Follow;
    TurnsTo(w, i, how, called, entry);
    var mid := With(w, i, called, w.ring, entry);
    var rest := CallAndTurn(mid, i, algorithm, r, result, how', client, op);
    WithTwice(w, i, called, w.ring, entry, client, r, op);
    acts := [ClientRuns(i, how)] + rest;
    FollowOne(w, ClientRuns(i, how));
    FollowOn(w, [ClientRuns(i, how)], rest);
  }

  lemma Together(w: World, before: seq<Act>, after: seq<Act>, mid: World, i: nat, algorithm: Algorithm)
    requires Follow(w, before) == Some(mid) && OnlyThread(before, i, algorithm) && OnlyThread(after, i, algorithm)
    ensures OnlyThread(before + after, i, algorithm) && Follow(w, before + after) == Follow(mid, after)
  {
    hide Follow, Faultless, OfThread;
    FollowOn(w, before, after);
  }

  /** One turn of the drain: test, fetch, and back to the test. */
  lemma FetchRuns(w: World, i: nat, algorithm: Algorithm, owner: Owner, vec: seq<SharedTask>) returns (acts: seq<Act>, r: Ring)
    requires Resumes(w, i, PassTests(owner, vec)) && w.ops[i] == Idle(NoCall) && Queue(w.ring) != []
    ensures OnlyThread(acts, i, algorithm)
    ensures Follow(w, acts) == Some(With(w, i, PassTests(owner, vec + [Queue(w.ring)[0]]), r, Idle(NoCall)))
    ensures Quiescent(r) && Queue(r) == Queue(w.ring)[1..] && r.capacity == w.ring.capacity
  {
    var head := Queue(w.ring)[0];
    assert InRange(head.priority) && w.ring.count != 0;
    DequeueAlone(w.ring);
    r := AfterDequeue(w.ring);
    FetchTurns(Seen(w.ring.count, w.scheduling, w.processing), Seen(r.count, w.scheduling, w.processing), owner, vec, head);
    hide *;
    acts := TurnAndCall(w, i, algorithm, Go, PassFetches(owner, vec), DeqWaitItem, r, Dequeued(head),
                        Go, PassTests(owner, vec + [head]), Idle(NoCall));
  }

  /** The turns of one round of the drain. */
  lemma FetchTurns(before: Seen, after: Seen, owner: Owner, vec: seq<SharedTask>, head: SharedTask)
    requires before.count != 0 && InRange(head.priority)
    ensures Proceed(before, PassTests(owner, vec), NoCall, Go) == Moves(PassFetches(owner, vec), DeqWaitItem)
    ensures Proceed(after, PassFetches(owner, vec), Dequeued(head), Go) == Moves(PassTests(owner, vec + [head]), Idle(NoCall))
  {
    hide InRange;
  }

  /** The drain. */
  lemma {:induction false} DrainRuns(w: World, i: nat, algorithm: Algorithm, owner: Owner, vec: seq<SharedTask>)
    returns (acts: seq<Act>, r: Ring)
    requires Resumes(w, i, PassTests(owner, vec)) && w.ops[i] == Idle(NoCall)
    ensures OnlyThread(acts, i, algorithm)
    ensures Follow(w, acts) == Some(With(w, i, PassRefills(owner, vec + Queue(w.ring)), r, Idle(NoCall)))
    ensures Quiescent(r) && Queue(r) == [] && r.capacity == w.ring.capacity
    decreases |Queue(w.ring)|
  {
    var q := Queue(w.ring);
    if q == [] {
      r := w.ring;
      assert vec + q == vec && w.ring.count == 0;
      assert Proceed(Seen(0, w.scheduling, w.processing), PassTests(owner, vec), NoCall, Go) == Moves(PassRefills(owner, vec), Idle(NoCall));
      acts := [ClientRuns(i, Go)];
      hide Perform, Quiescent, Follow, Proceed, With, Queue;
      TurnsTo(w, i, Go, PassRefills(owner, vec), Idle(NoCall));
      FollowOne(w, ClientRuns(i, Go));
    } else {
      Shift(vec, q[0], q[1..], q);
      var first, r1 := FetchRuns(w, i, algorithm, owner, vec);
      var vec1 := vec + [q[0]];
      var next := With(w, i, PassTests(owner, vec1), r1, Idle(NoCall));
      WithIs(w, i, PassTests(owner, vec1), r1, Idle(NoCall));
      assert Resumes(next, i, PassTests(owner, vec1));
      hide *;
      var rest;
      rest, r := DrainRuns(next, i, algorithm, owner, vec1);
      WithTwice(w, i, PassTests(owner, vec1), r1, Idle(NoCall), PassRefills(owner, vec + q), r, Idle(NoCall));
      acts := first + rest;
      Together(w, first, rest, next, i, algorithm);
    }
  }

  /** One turn of the refill: carry, add, print. */
  lemma PutRuns(w: World, i: nat, algorithm: Algorithm, owner: Owner, vec: seq<SharedTask>, trip: Trip)
    returns (acts: seq<Act>, r: Ring)
    requires Resumes(w, i, PassRefills(owner, vec)) && w.ops[i] == Idle(NoCall)
    requires vec != [] && InRange(vec[0].priority) && Transit.Ordered(trip) && |Queue(w.ring)| < w.ring.capacity
    ensures OnlyThread(acts, i, algorithm)
    ensures Follow(w, acts) == Some(With(w, i, PassRefills(owner, vec[1..]), r, Idle(NoCall)))
    ensures Quiescent(r) && Queue(r) == Queue(w.ring) + [Carry(Some(algorithm), vec[0], trip)] && r.capacity == w.ring.capacity
  {
    var t := Carry(Some(algorithm), vec[0], trip);
    EnqueueAlone(w.ring, t);
    r := AfterEnqueue(w.ring, t);
    PrintAlone(r);
    var s := RunAlone(r, PrintWaitMutex);
    assert s == State(r, [Idle(s.ops[0].result)]);
    hide *;
    PutTurns(Seen(w.ring.count, w.scheduling, w.processing), Seen(r.count, w.scheduling, w.processing),
             algorithm, owner, vec, trip, s.ops[0].result);
    var adds := TurnAndCall(w, i, algorithm, Rewrite(algorithm, trip), PassAdds(owner, vec[1..]), EnqWaitSlot(t), r, Enqueued,
                            Go, PassPrints(owner, vec[1..]), PrintWaitMutex);
    var mid := With(w, i, PassPrints(owner, vec[1..]), r, PrintWaitMutex);
    WithIs(w, i, PassPrints(owner, vec[1..]), r, PrintWaitMutex);
    var prints := CallAndTurn(mid, i, algorithm, r, s.ops[0].result, Go, PassRefills(owner, vec[1..]), Idle(NoCall));
    WithTwice(w, i, PassPrints(owner, vec[1..]), r, PrintWaitMutex, PassRefills(owner, vec[1..]), r, Idle(NoCall));
    acts := adds + prints;
    Together(w, adds, prints, mid, i, algorithm);
  }

  lemma WithIs(w: World, i: nat, client: Client, r: Ring, op: Op)
    requires i < |w.clients| == |w.ops|
    ensures var m := With(w, i, client, r, op);
      && m.ring == r && |m.clients| == |m.ops| == |w.ops| && m.clients[i] == client && m.ops[i] == op
      && m.alive == w.alive && m.scheduling == w.scheduling && m.processing == w.processing
  {
  }

  /** The turns of one round of the refill. */
  lemma PutTurns(before: Seen, after: Seen, algorithm: Algorithm, owner: Owner, vec: seq<SharedTask>, trip: Trip, result: Result)
    requires vec != [] && InRange(vec[0].priority) && Transit.Ordered(trip) && result.Printed?
    ensures Proceed(before, PassRefills(owner, vec), NoCall, Rewrite(algorithm, trip))
      == Moves(PassAdds(owner, vec[1..]), EnqWaitSlot(Carry(Some(algorithm), vec[0], trip)))
    ensures Proceed(after, PassAdds(owner, vec[1..]), Enqueued, Go) == Moves(PassPrints(owner, vec[1..]), PrintWaitMutex)
    ensures Proceed(after, PassPrints(owner, vec[1..]), result, Go) == Moves(PassRefills(owner, vec[1..]), Idle(NoCall))
  {
    hide Carry, Transit.Ordered, InRange;
  }

  /** The refill, ended by the return to the top. */
  lemma {:induction false} RefillRuns(w: World, i: nat, algorithm: Algorithm, owner: Owner, vec: seq<SharedTask>, trips: seq<Trip>)
    returns (acts: seq<Act>, r: Ring)
    requires Resumes(w, i, PassRefills(owner, vec)) && w.ops[i] == Idle(NoCall)
    requires |trips| == |vec| && AllInRange(vec) && AllOrdered(trips) && |Queue(w.ring)| + |vec| <= w.ring.capacity
    ensures OnlyThread(acts, i, algorithm)
    ensures Follow(w, acts) == Some(With(w, i, AfterPass(owner), r, Idle(NoCall)))
    ensures Quiescent(r) && Queue(r) == Queue(w.ring) + CarryAll(Some(algorithm), vec, trips)
    decreases |vec|
  {
    if vec == [] {
      r := w.ring;
      acts := [ClientRuns(i, Go)];
      TurnsTo(w, i, Go, AfterPass(owner), Idle(NoCall));
      FollowOne(w, ClientRuns(i, Go));
      assert Queue(w.ring) + [] == Queue(w.ring);
      hide Perform, Quiescent;
    } else {
      CarryFirst(algorithm, Queue(w.ring), vec, trips);
      var first, r1 := PutRuns(w, i, algorithm, owner, vec, trips[0]);
      var next := With(w, i, PassRefills(owner, vec[1..]), r1, Idle(NoCall));
      WithIs(w, i, PassRefills(owner, vec[1..]), r1, Idle(NoCall));
      assert Resumes(next, i, PassRefills(owner, vec[1..]));
      hide *;
      var rest;
      rest, r := RefillRuns(next, i, algorithm, owner, vec[1..], trips[1..]);
      WithTwice(w, i, PassRefills(owner, vec[1..]), r1, Idle(NoCall), AfterPass(owner), r, Idle(NoCall));
      acts := first + rest;
      Together(w, first, rest, next, i, algorithm);
    }
  }

  lemma CarryFirst(algorithm: Algorithm, q: seq<SharedTask>, vec: seq<SharedTask>, trips: seq<Trip>)
    requires vec != [] && |trips| == |vec| && AllInRange(vec) && AllOrdered(trips)
    ensures AllInRange(vec[1..]) && AllOrdered(trips[1..]) && InRange(vec[0].priority) && Transit.Ordered(trips[0])
    ensures var t := Carry(Some(algorithm), vec[0], trips[0]);
      && (AllInRange(q) ==> AllInRange(q + [t]))
      && (q + [t]) + CarryAll(Some(algorithm), vec[1..], trips[1..]) == q + CarryAll(Some(algorithm), vec, trips)
  {
    CarryNeverRaises(Some(algorithm), vec[0], trips[0]);
    CarryHead(algorithm, vec, trips);
    hide Carry, CarryAll, Transit.Ordered;
    Shift(q, Carry(Some(algorithm), vec[0], trips[0]), CarryAll(Some(algorithm), vec[1..], trips[1..]),
          CarryAll(Some(algorithm), vec, trips));
  }

  lemma CarryHead(algorithm: Algorithm, vec: seq<SharedTask>, trips: seq<Trip>)
    requires vec != [] && |trips| == |vec| && AllInRange(vec) && AllOrdered(trips)
    ensures AllInRange(vec[1..]) && AllOrdered(trips[1..])
    ensures CarryAll(Some(algorithm), vec, trips)
      == [Carry(Some(algorithm), vec[0], trips[0])] + CarryAll(Some(algorithm), vec[1..], trips[1..])
  {
    hide Carry, Transit.Ordered, InRange;
  }

  lemma Shift<T>(q: seq<T>, t: T, rest: seq<T>, all: seq<T>)
    requires all == [t] + rest
    ensures (q + [t]) + rest == q + all
  {
  }

  /** From a quiet ring at any fill level, and for any clock readings, one thread alone can run a pass to its end,
      and the ring is quiet again; by `ThreadPrograms.PassAlone` every run of it alone ends in this way. */
  lemma PassRuns(w: World, i: nat, algorithm: Algorithm, owner: Owner, trips: seq<Trip>) returns (acts: seq<Act>, r: Ring)
    requires Resumes(w, i, PassTests(owner, [])) && w.ops[i] == Idle(NoCall)
    requires |trips| == |Queue(w.ring)| && AllOrdered(trips)
    ensures OnlyThread(acts, i, algorithm)
    ensures Follow(w, acts) == Some(With(w, i, AfterPass(owner), r, Idle(NoCall)))
    ensures Quiescent(r) && Queue(r) == CarryAll(Some(algorithm), Queue(w.ring), trips)
  {
    var q := Queue(w.ring);
    assert |q| <= w.ring.capacity && [] + q == q;
    hide Perform, Quiescent, Follow, OnlyThread, Queue, Carry, AllOrdered, CarryAll;
    var first, r1 := DrainRuns(w, i, algorithm, owner, []);
    var next := With(w, i, PassRefills(owner, q), r1, Idle(NoCall));
    var rest;
    rest, r := RefillRuns(next, i, algorithm, owner, q, trips);
    WithTwice(w, i, PassRefills(owner, q), r1, Idle(NoCall), AfterPass(owner), r, Idle(NoCall));
    acts := first + rest;
    Together(w, first, rest, next, i, algorithm);
    assert [] + CarryAll(Some(algorithm), q, trips) == CarryAll(Some(algorithm), q, trips);
  }
}
