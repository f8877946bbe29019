/** The circular index of Round Robin selection. */
module RoundRobin {
  import opened SharedTasks
  import opened RingProtocol
  import opened RingSafety
  import RingTheorems

  class RoundRobinScheduling {
    var currentIndex: nat

    constructor ()
      ensures currentIndex == 0
    {
      currentIndex := 0;
    }

    /** None is the exception on an empty list. The result is in range whatever index an earlier, longer
        list left behind. */
    method SelectNextTask(tasks: nat) returns (r: Option<nat>)
      requires tasks < SIZE_T_MOD
      modifies this
      ensures r.None? <==> tasks == 0
      ensures r.None? ==> currentIndex == old(currentIndex)
      ensures r.Some? ==> r.value == currentIndex == (old(currentIndex) + 1) % tasks
      ensures r.Some? ==> r.value == currentIndex == Wrap(old(currentIndex) + 1, tasks) && r.value < tasks
    {
      if tasks == 0 {
        return None;
      }
      WrapIsRemainder(currentIndex + 1, tasks);
      currentIndex := (currentIndex + 1) % tasks;
      return Some(currentIndex);
    }

    /** A full cycle of selections from whatever index is stored. */
    method SelectCycle(tasks: Capacity) returns (picks: seq<nat>)
      modifies this
      ensures picks == Picks(old(currentIndex), tasks, tasks)
      ensures forall j, k :: 0 <= j < k < tasks ==> picks[j] != picks[k]
      ensures forall x :: 0 <= x < tasks ==> x in picks
    {
      picks := [];
      var k := 0;
      while k < tasks
        invariant k <= tasks && picks == Picks(old(currentIndex), tasks, k)
        invariant currentIndex == if k == 0 then old(currentIndex) else picks[k - 1]
      {
        var r := SelectNextTask(tasks);
        picks := picks + [r.value];
        k := k + 1;
      }
      CycleVisitsAll(old(currentIndex), tasks);
    }
  }

  /** The first `k` selections from index `i` on a list of `n` tasks. */
  function Picks(i: nat, n: Capacity, k: nat): (picks: seq<nat>)
    ensures |picks| == k
  {
    if k == 0 then [] else
    var before := Picks(i, n, k - 1);
    before + [Wrap((if k == 1 then i else before[k - 2]) + 1, n)]
  }

  lemma {:induction false} PickAt(i: nat, n: Capacity, k: nat, j: nat)
    requires j < k
    ensures Picks(i, n, k)[j] == Wrap(i + 1 + j, n)
  {
    if j < k - 1 {
      PickAt(i, n, k - 1, j);
    } else if k > 1 {
      PickAt(i, n, k - 1, k - 2);
      RingTheorems.WrapAdds(i + 1 + (k - 2), 1, n);
    }
  }

  /** From any stored index, `n` selections on `n` tasks return every index exactly once. */
  lemma CycleVisitsAll(i: nat, n: Capacity)
    ensures forall j, k :: 0 <= j < k < n ==> Picks(i, n, n)[j] != Picks(i, n, n)[k]
    ensures forall x :: 0 <= x < n ==> x in Picks(i, n, n)
  {
    var picks := Picks(i, n, n);
    forall j, k | 0 <= j < k < n ensures picks[j] != picks[k] {
      PickAt(i, n, n, j);
      PickAt(i, n, n, k);
      WrapDistinct(i + 1 + j, i + 1 + k, n);
    }
    forall x | 0 <= x < n ensures x in picks {
      var w := Wrap(i + 1, n);
      var j := if x >= w then x - w else x + n - w;
      PickAt(i, n, n, j);
      RingTheorems.WrapAdds(i + 1, j, n);
      assert picks[j] == x;
    }
  }
}
