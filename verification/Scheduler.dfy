/** The scheduler's entry points, with nobody else in the ring while one of them runs. */
module Schedulers {
  import opened SharedTasks
  import opened Priority
  import opened Conversion
  import opened Transit
  import opened Tasks
  import opened SharedMemory
  import opened QueueManager
  import opened Pipeline

  /** What a reorder pass did. `Carried` took the first tasks on a trip each, all of them unless a wait failed in
      the refill; `Cut` lost the first ones to a wait that failed in the drain, and left the others alone. */
  datatype PassLog = Carried(trips: seq<Trip>) | Cut(lost: nat)

  predicate PassStep(algorithm: Algorithm, q: seq<SharedTask>, l: PassLog, q': seq<SharedTask>) {
    match l
    case Carried(trips) =>
      |trips| <= |q| && AllInRange(q[..|trips|]) && AllOrdered(trips) && q' == CarryAll(Some(algorithm), q[..|trips|], trips)
    case Cut(lost) => lost <= |q| && q' == q[lost..]
  }

  predicate IsWhole(q: seq<SharedTask>, l: PassLog) { l.Carried? && |l.trips| == |q| }

  predicate LatePass(l: PassLog) { l.Carried? ==> Late(l.trips) }

  /** How far an add came: nothing stored, the task stored but no pass begun, or a pass. */
  datatype Reached = NotStored | Stored | Passed(pass: PassLog)

  class Scheduler {
    const manager: TaskQueueManager
    const algorithm: Algorithm
    var running: bool

    constructor (manager: TaskQueueManager, algorithm: Algorithm)
      ensures this.manager == manager && this.algorithm == algorithm && !running
    {
      this.manager := manager;
      this.algorithm := algorithm;
      running := false;
    }

    /** A reorder pass, as one step from queue to queue. */
    method Pass(mayFail: bool) returns (o: Outcome<()>, ghost l: PassLog)
      requires manager.Valid()
      modifies manager.ring, manager.ring.tasks, manager.clock
      ensures manager.Valid() && old(manager.clock.now) <= manager.clock.now
      ensures o.Done? || (o.Throws? && mayFail)
      ensures PassStep(algorithm, old(manager.ring.contents), l, manager.ring.contents)
      ensures o.Done? ==> IsWhole(old(manager.ring.contents), l)
      ensures old(manager.clock.now) >= 10_000_000_000 ==> LatePass(l)
    {
      hide SharedRing.Valid, Carry;
      ghost var trips, filling, lost;
      o, trips, filling, lost := manager.ReorderTasks(algorithm, mayFail);
      l := if filling then Carried(trips) else Cut(lost);
    }

    /** Adding is an arrival and a pass: the new task joins at the back, whatever its priority, and makes
        its first trip at once. A full ring keeps the caller waiting with nothing changed. `mayFail` says
        whether waits may fail; the exception leaves the ring as `reached` says. */
    method AddTask(task: Task, mayFail: bool) returns (o: Outcome<()>, ghost added: SharedTask, ghost reached: Reached)
      requires manager.Valid() && InRange(task.dynamicPriority) && task.arrivalNs <= manager.clock.now
      modifies manager.ring, manager.ring.tasks, manager.clock
      ensures manager.Valid() && old(manager.clock.now) <= manager.clock.now
      ensures added.id == task.id && added.priority == task.dynamicPriority
      ensures o.Throws? ==> mayFail
      ensures o.Waits? ==> |old(manager.ring.contents)| == manager.ring.capacity && reached.NotStored?
      ensures !mayFail ==> (o.Done? <==> |old(manager.ring.contents)| < manager.ring.capacity)
      ensures match reached
        case NotStored => !o.Done? && manager.ring.contents == old(manager.ring.contents)
        case Stored => o.Throws? && manager.ring.contents == old(manager.ring.contents) + [added]
        case Passed(l) => PassStep(algorithm, old(manager.ring.contents) + [added], l, manager.ring.contents)
      ensures o.Done? ==>
        && reached.Passed? && reached.pass.Carried?
        && Run(manager.ring.capacity, 0,
               [old(manager.ring.contents), old(manager.ring.contents) + [added], manager.ring.contents],
               [Arrive(added), Event.Pass(algorithm, reached.pass.trips)])
    {
      hide SharedRing.Valid, Carry;
      manager.ring.ValidMeans();
      var slotFails: bool :| slotFails ==> mayFail;
      var mutexFails: bool :| mutexFails ==> mayFail;
      var printFails: bool :| printFails ==> mayFail;
      ghost var w;
      o, w := manager.AddTask(task, slotFails, mutexFails, printFails);
      added := ToShared(task.View(), w.atNs, w.unset);
      reached := if slotFails || mutexFails || o.Waits? then NotStored else Stored;
      if o.Done? {
        ghost var q := manager.ring.contents;
        ghost var l;
        o, l := Pass(mayFail);
        reached := Passed(l);
        assert o.Done? ==> q[..|q|] == q;
      }
    }

    /** One turn of the loop, added to its log: a pass, and the pause after it unless it threw. */
    method TurnedOnce(turn: nat, mayFail: bool, ghost earliest: nat, ghost all: seq<SharedTask>,
                      ghost queues: seq<seq<SharedTask>>, ghost logs: seq<PassLog>)
      returns (ghost queues': seq<seq<SharedTask>>, ghost logs': seq<PassLog>)
      requires manager.Valid() && earliest <= manager.clock.now
      requires Turned(algorithm, mayFail, earliest, all, queues, logs, manager.ring.contents, turn)
      modifies manager.ring, manager.ring.tasks, manager.clock
      ensures manager.Valid() && earliest <= manager.clock.now
      ensures !mayFail ==> manager.clock.now - old(manager.clock.now) >= 500_000_000
      ensures Turned(algorithm, mayFail, earliest, all, queues', logs', manager.ring.contents, turn + 1)
    {
      hide *;
      ghost var before := manager.ring.contents;
      var o;
      ghost var l;
      o, l := Pass(mayFail);
      TurnedExtends(algorithm, mayFail, earliest, all, queues, logs, before, l, manager.ring.contents, turn);
      queues', logs' := queues + [manager.ring.contents], logs + [l];
      if o.Done? {
        manager.clock.Sleep(500);
      }
    }

    /** The reorder thread's loop for at most `turns` turns; `stop` may arrive in any of them, and waits may
        fail if `mayFail`. Under Round Robin, seven passes that carry, begun ten seconds after the clock's epoch,
        leave every unfinished task that is still there at -20, however many passes failed between or in them. */
    method Schedule(turns: nat, mayFail: bool) returns (ghost queues: seq<seq<SharedTask>>, ghost logs: seq<PassLog>)
      requires manager.Valid()
      modifies this`running, manager.ring, manager.ring.tasks, manager.clock
      ensures manager.Valid()
      ensures PassRun(algorithm, queues, logs) && |logs| <= turns && (running ==> |logs| == turns)
      ensures queues[0] == old(manager.ring.contents) && queues[|logs|] == manager.ring.contents
      ensures Ids(manager.ring.contents) <= Ids(old(manager.ring.contents))
      ensures !mayFail ==>
        && (forall n :: 0 <= n < |logs| ==> IsWhole(queues[n], logs[n]))
        && Carries(logs) == |logs| && manager.clock.now - old(manager.clock.now) >= 500_000_000 * |logs|
        && InPlace(old(manager.ring.contents), manager.ring.contents)
        && Ids(manager.ring.contents) == Ids(old(manager.ring.contents))
      ensures algorithm.RoundRobin? && Carries(logs) >= 7 && old(manager.clock.now) >= 10_000_000_000 ==>
        AllStarved(manager.ring.contents)
    {
      assert AllInRange(manager.ring.contents);
      hide *;
      running := true;
      ghost var all, earliest := manager.ring.contents, manager.clock.now;
      queues, logs := [all], [];
      TurnedStarts(algorithm, mayFail, earliest, all);
      var turn := 0;
      while running && turn < turns
        invariant manager.Valid() && earliest <= manager.clock.now && turn <= turns
        invariant !mayFail ==> manager.clock.now - earliest >= 500_000_000 * turn
        invariant Turned(algorithm, mayFail, earliest, all, queues, logs, manager.ring.contents, turn)
      {
        queues, logs := TurnedOnce(turn, mayFail, earliest, all, queues, logs);
        turn := turn + 1;
        var stops: bool :| true;
        if stops {
          running := false;
        }
      }
      TurnsSay(algorithm, mayFail, earliest, all, queues, logs, manager.ring.contents, turn);
    }
  }

  // The log of the loop.

  ghost predicate PassRun(algorithm: Algorithm, queues: seq<seq<SharedTask>>, logs: seq<PassLog>) {
    && |queues| == |logs| + 1
    && forall n :: 0 <= n < |logs| ==> PassStep(algorithm, queues[n], logs[n], queues[n + 1])
  }

  ghost predicate Turned(algorithm: Algorithm, mayFail: bool, earliest: nat, all: seq<SharedTask>,
                         queues: seq<seq<SharedTask>>, logs: seq<PassLog>, now: seq<SharedTask>, turn: nat)
  {
    && PassRun(algorithm, queues, logs) && |logs| == turn
    && queues[0] == all && queues[turn] == now
    && (!mayFail ==> forall n :: 0 <= n < |logs| ==> IsWhole(queues[n], logs[n]))
    && (earliest >= 10_000_000_000 ==> forall n :: 0 <= n < |logs| ==> LatePass(logs[n]))
  }

  lemma TurnedStarts(algorithm: Algorithm, mayFail: bool, earliest: nat, all: seq<SharedTask>)
    ensures Turned(algorithm, mayFail, earliest, all, [all], [], all, 0)
  {
  }

  lemma TurnedExtends(algorithm: Algorithm, mayFail: bool, earliest: nat, all: seq<SharedTask>, queues: seq<seq<SharedTask>>,
                      logs: seq<PassLog>, now: seq<SharedTask>, l: PassLog, next: seq<SharedTask>, turn: nat)
    requires Turned(algorithm, mayFail, earliest, all, queues, logs, now, turn)
    requires PassStep(algorithm, now, l, next) && (!mayFail ==> IsWhole(now, l))
    requires earliest >= 10_000_000_000 ==> LatePass(l)
    ensures Turned(algorithm, mayFail, earliest, all, queues + [next], logs + [l], next, turn + 1)
  {
    hide PassStep, IsWhole, LatePass;
    forall n | 0 <= n < |logs + [l]|
      ensures PassStep(algorithm, (queues + [next])[n], (logs + [l])[n], (queues + [next])[n + 1])
    {
      if n < |logs| {
        assert PassStep(algorithm, queues[n], logs[n], queues[n + 1]);
      }
    }
  }

  function Carries(logs: seq<PassLog>): nat {
    if logs == [] then 0 else
    Carries(logs[..|logs| - 1]) + (if logs[|logs| - 1].Carried? then 1 else 0)
  }

  /** Every unfinished task is at the fixed point -20. */
  predicate AllStarved(q: seq<SharedTask>) { forall i :: 0 <= i < |q| && !q[i].completed ==> q[i].priority == LOWEST }

  /** Every unfinished task has at most this priority. */
  predicate AllBelow(q: seq<SharedTask>, bound: int) { forall i :: 0 <= i < |q| && !q[i].completed ==> q[i].priority <= bound }

  /** The same tasks in the same places. */
  predicate InPlace(before: seq<SharedTask>, after: seq<SharedTask>) {
    |after| == |before| && forall i :: 0 <= i < |before| ==> TagOf(after[i]) == TagOf(before[i])
  }

  lemma StepLowers(q: seq<SharedTask>, l: PassLog, q': seq<SharedTask>, bound: int)
    requires PassStep(RoundRobin, q, l, q') && LatePass(l) && AllBelow(q, bound)
    ensures AllBelow(q', if l.Carried? then (if bound - 6 < LOWEST then LOWEST else bound - 6) else bound)
    ensures l.Carried? ==> AllInRange(q')
  {
    if l.Carried? {
      hide Carry;
      forall i | 0 <= i < |q'|
        ensures InRange(q'[i].priority)
        ensures !q'[i].completed ==> q'[i].priority <= if bound - 6 < LOWEST then LOWEST else bound - 6
      {
        assert Late(l.trips);
        CarryKeeps(Some(RoundRobin), q[i], l.trips[i]);
        CarryNeverRaises(Some(RoundRobin), q[i], l.trips[i]);
        CarryStarved(q[i], l.trips[i]);
      }
    }
  }

  lemma {:induction false} CarriesLower(queues: seq<seq<SharedTask>>, logs: seq<PassLog>)
    requires PassRun(RoundRobin, queues, logs) && forall n :: 0 <= n < |logs| ==> LatePass(logs[n])
    requires AllBelow(queues[0], HIGHEST)
    ensures AllBelow(queues[|logs|], if HIGHEST - 6 * Carries(logs) < LOWEST then LOWEST else HIGHEST - 6 * Carries(logs))
    ensures Carries(logs) > 0 ==> AllInRange(queues[|logs|])
  {
    hide PassStep, LatePass, AllBelow;
    if logs != [] {
      var n := |logs| - 1;
      CarriesLower(queues[..n + 1], logs[..n]);
      assert PassStep(RoundRobin, queues[n], logs[n], queues[n + 1]);
      var k := Carries(logs[..n]);
      StepLowers(queues[n], logs[n], queues[n + 1], if HIGHEST - 6 * k < LOWEST then LOWEST else HIGHEST - 6 * k);
      if logs[n].Cut? {
        StepStaysInRange(queues[n], logs[n], queues[n + 1]);
      }
    }
  }

  lemma StepStaysInRange(q: seq<SharedTask>, l: PassLog, q': seq<SharedTask>)
    requires PassStep(RoundRobin, q, l, q') && l.Cut?
    ensures AllInRange(q) ==> AllInRange(q')
  {
  }

  lemma IdsOfParts(a: seq<SharedTask>, b: seq<SharedTask>, q: seq<SharedTask>)
    requires a + b == q
    ensures Ids(a) <= Ids(q) && Ids(b) <= Ids(q)
  {
    hide *;
    IdsConcat(a, b);
  }

  lemma WholeStays(algorithm: Algorithm, q: seq<SharedTask>, trips: seq<Trip>)
    requires |trips| == |q| && AllInRange(q) && AllOrdered(trips)
    ensures InPlace(q, CarryAll(Some(algorithm), q, trips))
    ensures Ids(CarryAll(Some(algorithm), q, trips)) == Ids(q)
  {
    hide Carry, Ids, AllOrdered, CarryAll, AllInRange;
    PassPreserves(algorithm, q, trips);
  }

  /** A pass loses ids but never makes any, and a whole one keeps every task in its place. */
  lemma StepKeeps(algorithm: Algorithm, q: seq<SharedTask>, l: PassLog, q': seq<SharedTask>)
    requires PassStep(algorithm, q, l, q')
    ensures Ids(q') <= Ids(q)
    ensures IsWhole(q, l) ==> InPlace(q, q') && Ids(q') == Ids(q)
  {
    var k := if l.Carried? then |l.trips| else l.lost;
    var first := q[..k];
    assert k == |q| ==> first == q;
    assert first + q[k..] == q;
    hide Carry, CarryAll, Ids, AllOrdered, AllInRange, InPlace;
    IdsOfParts(first, q[k..], q);
    if l.Carried? {
      WholeStays(algorithm, first, l.trips);
    }
  }

  lemma {:induction false} RunKeeps(algorithm: Algorithm, queues: seq<seq<SharedTask>>, logs: seq<PassLog>)
    requires PassRun(algorithm, queues, logs)
    ensures Ids(queues[|logs|]) <= Ids(queues[0])
    ensures (forall n :: 0 <= n < |logs| ==> IsWhole(queues[n], logs[n])) ==>
      InPlace(queues[0], queues[|logs|]) && Ids(queues[|logs|]) == Ids(queues[0])
  {
    hide PassStep, IsWhole, Ids;
    if logs != [] {
      var n := |logs| - 1;
      RunKeeps(algorithm, queues[..n + 1], logs[..n]);
      assert PassStep(algorithm, queues[n], logs[n], queues[n + 1]);
      StepKeeps(algorithm, queues[n], logs[n], queues[n + 1]);
    }
  }

  function TripsOf(logs: seq<PassLog>): (trips: seq<seq<Trip>>)
    requires forall n :: 0 <= n < |logs| ==> logs[n].Carried?
    ensures |trips| == |logs|
  {
    seq(|logs|, n requires 0 <= n < |logs| => logs[n].trips)
  }

  lemma {:induction false} AllCarry(logs: seq<PassLog>)
    ensures (forall n :: 0 <= n < |logs| ==> logs[n].Carried?) ==> Carries(logs) == |logs|
    ensures Carries(logs) <= |logs|
  {
    if logs != [] {
      AllCarry(logs[..|logs| - 1]);
    }
  }

  /** A run of whole passes is one that `Transit.PassesStarve` and `Transit.PassesSettle` speak about. */
  lemma WholeRunIsPasses(algorithm: Algorithm, queues: seq<seq<SharedTask>>, logs: seq<PassLog>)
    requires PassRun(algorithm, queues, logs) && forall n :: 0 <= n < |logs| ==> IsWhole(queues[n], logs[n])
    ensures forall n :: 0 <= n < |logs| ==> logs[n].Carried?
    ensures Passes(algorithm, queues, TripsOf(logs))
  {
    assert forall n :: 0 <= n < |logs| ==> IsWhole(queues[n], logs[n]) ==> logs[n].Carried?;
    hide Carry, CarryAll, AllInRange, AllOrdered;
    forall n | 0 <= n < |logs|
      ensures AllInRange(queues[n]) && |TripsOf(logs)[n]| == |queues[n]| && AllOrdered(TripsOf(logs)[n])
      ensures queues[n + 1] == CarryAll(Some(algorithm), queues[n], TripsOf(logs)[n])
    {
      assert PassStep(algorithm, queues[n], logs[n], queues[n + 1]);
      assert queues[n][..|logs[n].trips|] == queues[n];
    }
  }

  lemma TurnsSay(algorithm: Algorithm, mayFail: bool, earliest: nat, all: seq<SharedTask>, queues: seq<seq<SharedTask>>,
                 logs: seq<PassLog>, now: seq<SharedTask>, turn: nat)
    requires Turned(algorithm, mayFail, earliest, all, queues, logs, now, turn) && AllInRange(all)
    ensures PassRun(algorithm, queues, logs) && |logs| == turn
    ensures queues[0] == all && queues[turn] == now
    ensures Ids(now) <= Ids(all)
    ensures !mayFail ==>
      && (forall n :: 0 <= n < |logs| ==> IsWhole(queues[n], logs[n]))
      && Carries(logs) == |logs| && InPlace(all, now) && Ids(now) == Ids(all)
    ensures algorithm.RoundRobin? && Carries(logs) >= 7 && earliest >= 10_000_000_000 ==> AllStarved(now)
  {
    RunKeeps(algorithm, queues, logs);
    AllCarry(logs);
    if algorithm.RoundRobin? && Carries(logs) >= 7 && earliest >= 10_000_000_000 {
      CarriesLower(queues, logs);
    }
    hide PassStep, IsWhole, LatePass, Ids, Carries;
  }
}
