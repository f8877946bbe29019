/** The record that travels through shared memory, and the constants of its layout. */
module SharedTasks {

  datatype Option<+T> = None | Some(value: T)

  /** Slots declared in the shared layout. */
  const COUNT_TASKS: nat := 100

  /** Largest capacity the constructor accepts. */
  const THROW_VALUE: nat := 10000

  /** Size of the description array. */
  const DESCRIPTION_SIZE: nat := 256

  datatype TaskType = UNIX_TASK | CPU_INTENSIVE_TASK | IO_BOUND_TASK

  /** `description` is the whole character array, terminator and padding included. */
  datatype SharedTask = SharedTask(
    id: int,
    priority: int,
    description: seq<char>,
    kind: TaskType,
    completed: bool,
    remainingMs: int)

  /** The ids of a queue, with multiplicity. */
  function Ids(tasks: seq<SharedTask>): multiset<int> {
    if tasks == [] then multiset{} else multiset{tasks[0].id} + Ids(tasks[1..])
  }

  lemma {:induction false} IdsConcat(a: seq<SharedTask>, b: seq<SharedTask>)
    ensures Ids(a + b) == Ids(a) + Ids(b)
  {
    if a == [] {
      assert a + b == b;
    } else {
      assert (a + b)[1..] == a[1..] + b;
      IdsConcat(a[1..], b);
    }
  }

  lemma {:induction false} IdsSize(tasks: seq<SharedTask>)
    ensures |Ids(tasks)| == |tasks|
  {
    if tasks != [] {
      IdsSize(tasks[1..]);
    }
  }
}
