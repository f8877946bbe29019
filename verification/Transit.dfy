/** A trip of a task out of the ring, through an optional priority update, and back in. */
module Transit {
  import opened SharedTasks
  import opened Priority
  import opened Conversion

  datatype Algorithm = RoundRobin | PriorityScheduling

  /** The clock readings of a trip, in the order taken, and the values it leaves unset. */
  datatype Trip = Trip(createdNs: nat, adjustedNs: nat, updatedNs: nat, addedNs: nat, unset: Unset)

  predicate Ordered(trip: Trip) { trip.createdNs <= trip.adjustedNs <= trip.updatedNs <= trip.addedNs }

  /** Round Robin's update does nothing; Priority Scheduling adjusts once more. */
  function Update(algorithm: Option<Algorithm>, v: TaskValue, nowNs: nat): TaskValue {
    if algorithm == Some(PriorityScheduling) then Adjust(v, nowNs) else v
  }

  function Carry(algorithm: Option<Algorithm>, a: SharedTask, trip: Trip): SharedTask
    requires InRange(a.priority) && Ordered(trip)
  {
    var v := FromShared(a, trip.createdNs, trip.adjustedNs).value;
    ToShared(Update(algorithm, v, trip.updatedNs), trip.addedNs, trip.unset)
  }

  function Elapsed(trip: Trip): nat
    requires Ordered(trip)
  {
    ElapsedMs(trip.createdNs, trip.addedNs)
  }

  /** What a trip preserves. */
  lemma CarryKeeps(algorithm: Option<Algorithm>, a: SharedTask, trip: Trip)
    requires InRange(a.priority) && Ordered(trip)
    ensures var b := Carry(algorithm, a, trip);
      && b.id == a.id && b.completed == a.completed
      && (!a.completed ==> b.kind == a.kind && CString(b.description) == Shorten(Description(a)))
      && (a.completed ==> b.remainingMs == 0)
      && (!a.completed && a.kind.CPU_INTENSIVE_TASK? ==>
           b.remainingMs == RemainingAfter(a.remainingMs, Elapsed(trip)))
    ensures Elapsed(trip) * 1_000_000 <= trip.addedNs - trip.createdNs < (Elapsed(trip) + 1) * 1_000_000
  {
    ReadBack(Description(a));
  }

  lemma CarryId(algorithm: Option<Algorithm>, a: SharedTask, trip: Trip)
    requires InRange(a.priority) && Ordered(trip)
    ensures Carry(algorithm, a, trip).id == a.id
  {
  }

  /** How long the last adjustment of a trip takes the task to have waited: since the clock's epoch if the only one
      is that of the rebuilt task, else since that one. */
  function WaitedNs(algorithm: Option<Algorithm>, trip: Trip): int {
    if algorithm == Some(PriorityScheduling) then trip.updatedNs - trip.adjustedNs else trip.adjustedNs
  }

  /** The stored priority is the static one of the rebuilt task, which is the priority stored before, adjusted
      without CPU usage. */
  lemma CarryStored(algorithm: Option<Algorithm>, a: SharedTask, trip: Trip)
    requires InRange(a.priority) && Ordered(trip)
    ensures Carry(algorithm, a, trip).priority ==
      Dynamic(a.priority, 0.0, Starvation(WaitedNs(algorithm, trip)), a.kind.IO_BOUND_TASK?)
  {
    hide Dynamic, Starvation, Describe, RemainingAfter, ElapsedMs, CString;
  }

  /** A trip under either algorithm, or none, never raises the stored priority, and keeps it valid:
      every adjustment on the way sees zero CPU usage. */
  lemma CarryNeverRaises(algorithm: Option<Algorithm>, a: SharedTask, trip: Trip)
    requires InRange(a.priority) && Ordered(trip)
    ensures InRange(Carry(algorithm, a, trip).priority)
    ensures Carry(algorithm, a, trip).priority <= a.priority
  {
    CarryStored(algorithm, a, trip);
    hide Carry, Dynamic, Starvation;
    NeverRises(a.priority, Starvation(WaitedNs(algorithm, trip)), a.kind.IO_BOUND_TASK?);
  }

  /** A Round Robin trip ten seconds or more after the clock's epoch costs the full drop, however
      little the task has waited: the rebuilt task has never run. */
  lemma CarryStarved(a: SharedTask, trip: Trip)
    requires InRange(a.priority) && Ordered(trip)
    requires trip.adjustedNs >= 10_000_000_000
    ensures Carry(Some(RoundRobin), a, trip).priority == Clamp(a.priority - Drop(a.kind.IO_BOUND_TASK?))
    ensures Carry(None, a, trip).priority == Clamp(a.priority - Drop(a.kind.IO_BOUND_TASK?))
  {
    CarryStored(Some(RoundRobin), a, trip);
    CarryStored(None, a, trip);
    hide Carry, Dynamic, Clamp, Starvation;
    StarvedDrop(a.priority, a.kind.IO_BOUND_TASK?);
  }

  /** Under Priority Scheduling the second adjustment starts again from the stored priority, and sees
      only the time since the first: six points for every ten seconds between the rebuild and the update, up to
      ten, and four more if I/O-bound. */
  lemma CarryPriority(a: SharedTask, trip: Trip)
    requires InRange(a.priority) && Ordered(trip)
    ensures Carry(Some(PriorityScheduling), a, trip).priority ==
      Dynamic(a.priority, 0.0, Starvation(trip.updatedNs - trip.adjustedNs), a.kind.IO_BOUND_TASK?)
    ensures var gap := trip.updatedNs - trip.adjustedNs;
      var p := if a.kind.IO_BOUND_TASK? then a.priority - 4 else a.priority;
      var n := 10_000_000_000 * p - 6 * (if gap > 10_000_000_000 then 10_000_000_000 else gap);
      Carry(Some(PriorityScheduling), a, trip).priority ==
        Clamp(if n >= 0 then n / 10_000_000_000 else 0 - (0 - n) / 10_000_000_000)
  {
    var gap := trip.updatedNs - trip.adjustedNs;
    assert gap >= 0 && WaitedNs(Some(PriorityScheduling), trip) == gap by {
      hide Carry, Dynamic, Starvation, Clamp;
    }
    hide *;
    CarryStored(Some(PriorityScheduling), a, trip);
    IdleDynamicIs(a.priority, gap, a.kind.IO_BOUND_TASK?);
  }

  /** Under Round Robin, and when the processor puts it back, the only adjustment sees the time since the
      clock's epoch. */
  lemma CarryRebuilt(algorithm: Option<Algorithm>, a: SharedTask, trip: Trip)
    requires InRange(a.priority) && Ordered(trip) && algorithm != Some(PriorityScheduling)
    ensures var p := if a.kind.IO_BOUND_TASK? then a.priority - 4 else a.priority;
      var n := 10_000_000_000 * p - 6 * (if trip.adjustedNs > 10_000_000_000 then 10_000_000_000 else trip.adjustedNs);
      Carry(algorithm, a, trip).priority == Clamp(if n >= 0 then n / 10_000_000_000 else 0 - (0 - n) / 10_000_000_000)
  {
    assert trip.adjustedNs >= 0 && WaitedNs(algorithm, trip) == trip.adjustedNs;
    hide *;
    CarryStored(algorithm, a, trip);
    IdleDynamicIs(a.priority, trip.adjustedNs, a.kind.IO_BOUND_TASK?);
  }

  // Whole queues.

  predicate AllInRange(q: seq<SharedTask>) { forall i :: 0 <= i < |q| ==> InRange(q[i].priority) }

  predicate AllOrdered(trips: seq<Trip>) { forall i :: 0 <= i < |trips| ==> Ordered(trips[i]) }

  function CarryAll(algorithm: Option<Algorithm>, q: seq<SharedTask>, trips: seq<Trip>): (q': seq<SharedTask>)
    requires |trips| == |q| && AllInRange(q) && AllOrdered(trips)
    ensures |q'| == |q|
  {
    seq(|q|, i requires 0 <= i < |q| => Carry(algorithm, q[i], trips[i]))
  }

  /** What follows a task through the ring: its id, and its class while it is incomplete. */
  datatype Tag = Tag(id: int, kind: Option<TaskType>)

  function TagOf(t: SharedTask): Tag { Tag(t.id, if t.completed then None else Some(t.kind)) }

  /** A pass keeps every task in its place, raises no priority, and shrinks no remaining time but that of
      a CPU task whose elapsed milliseconds wrap the 32-bit cast. */
  lemma PassPreserves(algorithm: Algorithm, q: seq<SharedTask>, trips: seq<Trip>)
    requires |trips| == |q| && AllInRange(q) && AllOrdered(trips)
    ensures var q' := CarryAll(Some(algorithm), q, trips);
      && AllInRange(q') && Ids(q') == Ids(q)
      && forall i :: 0 <= i < |q| ==>
        && TagOf(q'[i]) == TagOf(q[i]) && q'[i].completed == q[i].completed
        && q'[i].priority <= q[i].priority
        && (!q[i].completed && q[i].kind.CPU_INTENSIVE_TASK? && 0 <= q[i].remainingMs < TWO_31 ==>
             (q'[i].remainingMs <= q[i].remainingMs <==> Elapsed(trips[i]) % TWO_32 <= q[i].remainingMs + TWO_31))
  {
    var q' := CarryAll(Some(algorithm), q, trips);
    forall i | 0 <= i < |q|
      ensures InRange(q'[i].priority) && q'[i].priority <= q[i].priority
      ensures TagOf(q'[i]) == TagOf(q[i]) && q'[i].completed == q[i].completed
      ensures !q[i].completed && q[i].kind.CPU_INTENSIVE_TASK? && 0 <= q[i].remainingMs < TWO_31 ==>
        (q'[i].remainingMs <= q[i].remainingMs <==> Elapsed(trips[i]) % TWO_32 <= q[i].remainingMs + TWO_31)
    {
      CarryKeeps(Some(algorithm), q[i], trips[i]);
      CarryNeverRaises(Some(algorithm), q[i], trips[i]);
      if !q[i].completed && q[i].kind.CPU_INTENSIVE_TASK? && 0 <= q[i].remainingMs < TWO_31 {
        RemainingShrinksIff(q[i].remainingMs, Elapsed(trips[i]));
      }
    }
    SameIds(q, q');
  }

  lemma {:induction false} SameIds(q: seq<SharedTask>, q': seq<SharedTask>)
    requires |q| == |q'| && forall i :: 0 <= i < |q| ==> q'[i].id == q[i].id
    ensures Ids(q) == Ids(q')
  {
    if q != [] {
      SameIds(q[1..], q'[1..]);
    }
  }

  /** Reorder passes in a row: `queues[n]` is the ring after `n` passes. */
  ghost predicate Passes(algorithm: Algorithm, queues: seq<seq<SharedTask>>, trips: seq<seq<Trip>>) {
    && |queues| == |trips| + 1
    && forall n :: 0 <= n < |trips| ==>
      && AllInRange(queues[n]) && |trips[n]| == |queues[n]| && AllOrdered(trips[n])
      && queues[n + 1] == CarryAll(Some(algorithm), queues[n], trips[n])
  }

  predicate Late(trips: seq<Trip>) {
    forall i :: 0 <= i < |trips| ==> trips[i].adjustedNs >= 10_000_000_000
  }

  /** After `k` Round Robin passes an incomplete task stands where it stood, with its priority fallen
      by `k` full drops; after seven it is at -20, wherever it began. */
  lemma {:induction false} PassesStarve(queues: seq<seq<SharedTask>>, trips: seq<seq<Trip>>, k: nat, i: nat)
    requires Passes(RoundRobin, queues, trips) && k < |queues|
    requires forall n :: 0 <= n < |trips| ==> Late(trips[n])
    requires AllInRange(queues[0]) && i < |queues[0]| && !queues[0][i].completed
    ensures |queues[k]| == |queues[0]|
    ensures var a, b := queues[0][i], queues[k][i];
      && b.id == a.id && b.kind == a.kind && !b.completed
      && b.priority == Clamp(a.priority - k * Drop(a.kind.IO_BOUND_TASK?))
      && (k >= 7 ==> b.priority == LOWEST)
  {
    hide Carry;
    var a := queues[0][i];
    var io := a.kind.IO_BOUND_TASK?;
    if k > 0 {
      PassesStarve(queues, trips, k - 1, i);
      var c, trip := queues[k - 1][i], trips[k - 1][i];
      assert queues[k - 1 + 1] == CarryAll(Some(RoundRobin), queues[k - 1], trips[k - 1]);
      assert Late(trips[k - 1]);
      PassStarves(c, trip);
      assert k * Drop(io) == (k - 1) * Drop(io) + Drop(io);
    }
  }

  lemma PassStarves(a: SharedTask, trip: Trip)
    requires InRange(a.priority) && !a.completed && Ordered(trip) && trip.adjustedNs >= 10_000_000_000
    ensures var b := Carry(Some(RoundRobin), a, trip);
      b.id == a.id && b.kind == a.kind && !b.completed && b.priority == Clamp(a.priority - Drop(a.kind.IO_BOUND_TASK?))
  {
    CarryKeeps(Some(RoundRobin), a, trip);
    CarryStarved(a, trip);
  }

  /** The update comes two microseconds or more after the rebuild, and within a second and a half of it. */
  predicate Quick(trips: seq<Trip>) {
    forall i :: 0 <= i < |trips| ==> 2_000 <= trips[i].updatedNs - trips[i].adjustedNs < 1_500_000_000
  }

  /** Of `k` passes over an I/O-bound task, those that find it above 4 and so take a fifth point. */
  function Fives(p: int, k: nat): nat { if p < 0 then 0 else if k < p / 5 then k else p / 5 }

  /** Under Priority Scheduling the same passes behave differently: a plain or CPU task loses one point
      a pass down to 0 and then stays, and one at 0 or below never moves; an I/O-bound task loses five
      while it is above 4 and four from then on, and is at -20 after at most nine. */
  lemma {:induction false} PassesSettle(queues: seq<seq<SharedTask>>, trips: seq<seq<Trip>>, k: nat, i: nat)
    requires Passes(PriorityScheduling, queues, trips) && k < |queues|
    requires forall n :: 0 <= n < |trips| ==> Quick(trips[n])
    requires AllInRange(queues[0]) && i < |queues[0]| && !queues[0][i].completed
    ensures |queues[k]| == |queues[0]|
    ensures var a, b := queues[0][i], queues[k][i];
      && b.id == a.id && b.kind == a.kind && !b.completed && InRange(b.priority)
      && (!a.kind.IO_BOUND_TASK? ==>
           b.priority == if a.priority <= 0 then a.priority else if k >= a.priority then 0 else a.priority - k)
      && (a.kind.IO_BOUND_TASK? ==> b.priority == Clamp(a.priority - 4 * k - Fives(a.priority, k)))
      && (a.kind.IO_BOUND_TASK? && k >= 9 ==> b.priority == LOWEST)
  {
    hide Carry;
    if k > 0 {
      PassesSettle(queues, trips, k - 1, i);
      var c, trip := queues[k - 1][i], trips[k - 1][i];
      assert queues[k - 1 + 1] == CarryAll(Some(PriorityScheduling), queues[k - 1], trips[k - 1]);
      assert Quick(trips[k - 1]);
      PassSettles(c, trip);
    }
  }

  lemma PassSettles(a: SharedTask, trip: Trip)
    requires InRange(a.priority) && !a.completed && Ordered(trip) && Quick([trip])
    ensures var b := Carry(Some(PriorityScheduling), a, trip);
      && b.id == a.id && b.kind == a.kind && !b.completed
      && b.priority == Clamp(if a.priority > Boost(a.kind.IO_BOUND_TASK?) then a.priority - Boost(a.kind.IO_BOUND_TASK?) - 1
                             else a.priority - Boost(a.kind.IO_BOUND_TASK?))
  {
    assert [trip][0] == trip;
    CarryKeeps(Some(PriorityScheduling), a, trip);
    CarryPriority(a, trip);
    QuickStarvation(trip.updatedNs - trip.adjustedNs);
    BarelyStarvedDrop(a.priority, Starvation(trip.updatedNs - trip.adjustedNs), a.kind.IO_BOUND_TASK?);
  }

  lemma QuickStarvation(gapNs: int)
    requires 2_000 <= gapNs < 1_500_000_000
    ensures NOTICED <= Starvation(gapNs) < 1.0 / 6.0
  {
    assert Starvation(gapNs) == gapNs as real / 10_000_000_000.0;
  }
}
