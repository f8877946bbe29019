/** Task objects as values, and their conversion to and from the shared record. */
module Conversion {
  import opened SharedTasks
  import opened Priority

  const NS_PER_MS: nat := 1_000_000
  const TWO_32: nat := 0x1_0000_0000
  const TWO_31: nat := 0x8000_0000

  const CPU_DESCRIPTION := "CPU-Intensive Task"
  const IO_DESCRIPTION := "I/O-Bound Task: output.txt"

  datatype RunState = READY | RUNNING | WAITING | COMPLETED

  /** The fields of a task object. `kind` stands for its class; times are nanoseconds since the
      clock's epoch, work is in milliseconds. */
  datatype TaskValue = TaskValue(
    id: int,
    kind: TaskType,
    description: string,
    arrivalNs: nat,
    staticPriority: int,
    dynamicPriority: int,
    state: RunState,
    completed: bool,
    lastExecutionNs: nat,
    cpuUsage: real,
    totalWorkMs: int,
    remainingWorkMs: int,
    operationsRemaining: int)

  /** A freshly constructed task: never executed, so its last execution is the epoch. */
  function Fresh(id: int, kind: TaskType, description: string, staticPriority: int, nowNs: nat, work: int): TaskValue {
    TaskValue(id, kind, description, nowNs, staticPriority, staticPriority, READY, false, 0, 0.0,
      if kind.CPU_INTENSIVE_TASK? then work else 0,
      if kind.CPU_INTENSIVE_TASK? then work else 0,
      if kind.IO_BOUND_TASK? then work else 0)
  }

  function Adjust(v: TaskValue, nowNs: nat): TaskValue {
    v.(dynamicPriority := Dynamic(v.staticPriority, v.cpuUsage, Starvation(nowNs - v.lastExecutionNs), v.kind.IO_BOUND_TASK?),
       lastExecutionNs := nowNs,
       cpuUsage := 0.0)
  }

  /** An adjustment stores the formula's value for the time since the last one, and starts both anew. */
  lemma AdjustIs(v: TaskValue, nowNs: nat)
    ensures var waited, w := nowNs - v.lastExecutionNs, Adjust(v, nowNs);
      var s := if waited < 0 then 0 else if waited > 10_000_000_000 then 10_000_000_000 else waited;
      && w == v.(dynamicPriority := w.dynamicPriority, lastExecutionNs := nowNs, cpuUsage := 0.0)
      && w.dynamicPriority == Clamp(Truncate(v.staticPriority as real + 14.0 * v.cpuUsage - 6.0 * s as real / 10_000_000_000.0
           - (if v.kind.IO_BOUND_TASK? then 4.0 else 0.0)))
  {
    DynamicIs(v.staticPriority, v.cpuUsage, nowNs - v.lastExecutionNs, v.kind.IO_BOUND_TASK?);
  }

  /** For a task that has used no CPU that is an integer division toward zero: six points for every ten seconds,
      four more if I/O-bound. */
  lemma IdleAdjustIs(v: TaskValue, nowNs: nat)
    requires v.cpuUsage == 0.0 && 0 <= nowNs - v.lastExecutionNs <= 10_000_000_000
    ensures var p := if v.kind.IO_BOUND_TASK? then v.staticPriority - 4 else v.staticPriority;
      var n := 10_000_000_000 * p - 6 * (nowNs - v.lastExecutionNs);
      Adjust(v, nowNs).dynamicPriority == Clamp(if n >= 0 then n / 10_000_000_000 else 0 - (0 - n) / 10_000_000_000)
    ensures v.staticPriority == 0 && !v.kind.IO_BOUND_TASK? ==>
      Adjust(v, nowNs).dynamicPriority == 0 - 6 * (nowNs - v.lastExecutionNs) / 10_000_000_000
  {
    IdleDynamicIs(v.staticPriority, nowNs - v.lastExecutionNs, v.kind.IO_BOUND_TASK?);
  }

  /** CPU usage and waiting are charged once: a second adjustment sees no usage and only the time since
      the first, so it never ends above the static priority. */
  lemma UsageCountsOnce(v: TaskValue, first: nat, second: nat)
    requires InRange(v.staticPriority) && first <= second
    ensures var p := Adjust(Adjust(v, first), second).dynamicPriority;
      && p == Dynamic(v.staticPriority, 0.0, Starvation(second - first), v.kind.IO_BOUND_TASK?)
      && p <= v.staticPriority
  {
    NeverRises(v.staticPriority, Starvation(second - first), v.kind.IO_BOUND_TASK?);
  }

  /** The static value is overwritten before it is validated. */
  function SetStatic(v: TaskValue, priority: int, nowNs: nat): TaskValue {
    if InRange(priority) then Adjust(v.(staticPriority := priority), nowNs) else v.(staticPriority := priority)
  }

  function SetState(v: TaskValue, state: RunState): TaskValue {
    v.(state := state, completed := v.completed || state.COMPLETED?)
  }

  // Descriptions: C strings in a fixed array.

  function CString(chars: seq<char>): string {
    if chars == [] || chars[0] == '\0' then [] else [chars[0]] + CString(chars[1..])
  }

  function Nuls(n: nat): (s: seq<char>)
    ensures |s| == n
    ensures forall i :: 0 <= i < n ==> s[i] == '\0'
  {
    seq(n, _ => '\0')
  }

  function StrNCpy(source: string, n: nat): (s: seq<char>)
    ensures |s| == n
  {
    var c := CString(source);
    if |c| >= n then c[..n] else c + Nuls(n - |c|)
  }

  function Describe(description: string): (s: seq<char>)
    ensures |s| == DESCRIPTION_SIZE
  {
    StrNCpy(description, DESCRIPTION_SIZE - 1) + ['\0']
  }

  /** What survives of a description: the characters up to any NUL, at most 255 of them. */
  function Shorten(description: string): string {
    var c := CString(description);
    if |c| >= DESCRIPTION_SIZE then c[..DESCRIPTION_SIZE - 1] else c
  }

  predicate NulFree(s: string) { forall i :: 0 <= i < |s| ==> s[i] != '\0' }

  lemma {:induction false} CStringIsNulFree(s: string)
    ensures NulFree(CString(s))
    ensures CString(s) <= s
    ensures |CString(s)| < |s| ==> s[|CString(s)|] == '\0'
  {
    if s != [] && s[0] != '\0' {
      CStringIsNulFree(s[1..]);
    }
  }

  lemma {:induction false} CStringStops(s: string, rest: seq<char>)
    requires NulFree(s) && (rest == [] || rest[0] == '\0')
    ensures CString(s + rest) == s
  {
    if s == [] {
      assert s + rest == rest;
    } else {
      assert (s + rest)[1..] == s[1..] + rest;
      CStringStops(s[1..], rest);
    }
  }

  lemma ReadBack(description: string)
    ensures |Describe(description)| == 256 && Describe(description)[255] == '\0'
    ensures CString(Describe(description)) == Shorten(description)
    ensures Shorten(description) == if |CString(description)| <= 255 then CString(description) else CString(description)[..255]
    ensures Shorten(Shorten(description)) == Shorten(description)
  {
    var c := CString(description);
    var kept := Shorten(description);
    CStringIsNulFree(description);
    var rest := if |c| >= DESCRIPTION_SIZE - 1 then ['\0'] else Nuls(DESCRIPTION_SIZE - 1 - |c|) + ['\0'];
    assert Describe(description) == kept + rest;
    CStringStops(kept, rest);
    CStringStops(kept, []);
    assert kept + [] == kept;
  }

  // Remaining time.

  /** A 64-bit value cast to `int`. */
  function ToInt32(x: int): (r: int)
    ensures 0 - TWO_31 <= r < TWO_31
  {
    var m := x % TWO_32;
    if m >= TWO_31 then m - TWO_32 else m
  }

  function RemainingAfter(totalMs: int, elapsedMs: nat): (r: nat)
    ensures r < TWO_31
  {
    var r := ToInt32(totalMs - elapsedMs);
    if r < 0 then 0 else r
  }

  /** The cast wraps for long waits: the stored time shrinks exactly until the elapsed milliseconds
      pass, modulo 2^32, the remaining ones by more than 2^31 (about 25 days). */
  lemma RemainingShrinksIff(remainingMs: nat, elapsedMs: nat)
    requires remainingMs < TWO_31
    ensures RemainingAfter(remainingMs, elapsedMs) <= remainingMs <==> elapsedMs % TWO_32 <= remainingMs + TWO_31
    ensures elapsedMs <= remainingMs + TWO_31 ==>
      RemainingAfter(remainingMs, elapsedMs) == if elapsedMs < remainingMs then remainingMs - elapsedMs else 0
  {
    var m := elapsedMs % TWO_32;
    assert (remainingMs - elapsedMs) % TWO_32 == (remainingMs - m) % TWO_32;
  }

  /** The stored time is what is left of the total, or 0, as long as the difference fits in 32 bits; beyond,
      it repeats with the 32-bit word. */
  lemma RemainingIs(totalMs: int, elapsedMs: nat)
    ensures -2_147_483_648 <= totalMs - elapsedMs < 2_147_483_648 ==>
      RemainingAfter(totalMs, elapsedMs) == if elapsedMs < totalMs then totalMs - elapsedMs else 0
    ensures RemainingAfter(totalMs, elapsedMs + 4_294_967_296) == RemainingAfter(totalMs, elapsedMs)
  {
    assert (totalMs - elapsedMs) % TWO_32 == (totalMs - (elapsedMs + 4_294_967_296)) % TWO_32;
  }

  // The two conversions.

  /** The values the code leaves unset: the kind of a completed task, the total time of a task that is
      not CPU-bound. */
  datatype Unset = Unset(kind: TaskType, totalMs: int)

  function ElapsedMs(fromNs: nat, nowNs: nat): (ms: nat)
    requires fromNs <= nowNs
    ensures ms * 1_000_000 <= nowNs - fromNs < (ms + 1) * 1_000_000
  {
    (nowNs - fromNs) / NS_PER_MS
  }

  function TotalMs(v: TaskValue, unset: Unset): int {
    if v.kind.CPU_INTENSIVE_TASK? then v.totalWorkMs else unset.totalMs
  }

  function ToShared(v: TaskValue, nowNs: nat, unset: Unset): SharedTask
    requires v.arrivalNs <= nowNs
  {
    SharedTask(v.id, v.dynamicPriority, Describe(v.description),
      if v.completed then unset.kind else v.kind,
      v.completed,
      if v.completed then 0 else RemainingAfter(TotalMs(v, unset), ElapsedMs(v.arrivalNs, nowNs)))
  }

  function Description(s: SharedTask): string {
    match s.kind
    case CPU_INTENSIVE_TASK => CPU_DESCRIPTION
    case IO_BOUND_TASK => IO_DESCRIPTION
    case UNIX_TASK => CString(s.description)
  }

  /** The record of a task, field by field: an unfinished CPU task is stored with its total work less the whole
      milliseconds since its arrival. */
  lemma RecordIs(v: TaskValue, nowNs: nat, unset: Unset, ms: nat)
    requires v.arrivalNs <= nowNs && ms * 1_000_000 <= nowNs - v.arrivalNs < (ms + 1) * 1_000_000
    ensures var s := ToShared(v, nowNs, unset);
      && s.id == v.id && s.priority == v.dynamicPriority && s.completed == v.completed
      && CString(s.description) == Shorten(v.description)
      && (v.completed ==> s.remainingMs == 0)
      && (!v.completed ==> s.kind == v.kind)
      && (!v.completed && v.kind.CPU_INTENSIVE_TASK? && -2_147_483_648 <= v.totalWorkMs - ms < 2_147_483_648 ==>
           s.remainingMs == if ms < v.totalWorkMs then v.totalWorkMs - ms else 0)
  {
    ReadBack(v.description);
    assert ElapsedMs(v.arrivalNs, nowNs) == ms;
    RemainingIs(TotalMs(v, unset), ms);
    hide RemainingAfter, Describe, Shorten, CString, ElapsedMs;
  }

  /** What the code leaves unset may come out as anything: the kind of a completed task's record, and the remaining
      time of an unfinished task that is not CPU-bound. */
  lemma UnsetIsFree(v: TaskValue, nowNs: nat, kind: TaskType, remainingMs: nat)
    requires v.arrivalNs <= nowNs && remainingMs < 2_147_483_648
    ensures v.completed ==> exists unset :: ToShared(v, nowNs, unset).kind == kind
    ensures !v.completed && !v.kind.CPU_INTENSIVE_TASK? ==> exists unset :: ToShared(v, nowNs, unset).remainingMs == remainingMs
  {
    var unset := Unset(kind, remainingMs + ElapsedMs(v.arrivalNs, nowNs));
    assert v.completed ==> ToShared(v, nowNs, unset).kind == kind;
    assert !v.completed && !v.kind.CPU_INTENSIVE_TASK? ==> ToShared(v, nowNs, unset).remainingMs == remainingMs;
  }

  /** Construct, set the static priority, mark completed. None is the thrown priority validation. */
  function FromShared(s: SharedTask, createdNs: nat, adjustedNs: nat): Option<TaskValue> {
    if !InRange(s.priority) then None else
    var v := SetStatic(Fresh(s.id, s.kind, Description(s), 0, createdNs, s.remainingMs), s.priority, adjustedNs);
    Some(if s.completed then SetState(v, COMPLETED) else v)
  }

  /** The task rebuilt from a record: it arrived when it was constructed, its stored priority is its static one,
      adjusted as for a task that has waited since the clock's epoch, and the remaining time is its work. */
  lemma RebuiltIs(s: SharedTask, createdNs: nat, adjustedNs: nat)
    requires -20 <= s.priority <= 19
    ensures FromShared(s, createdNs, adjustedNs).Some?
    ensures var v := FromShared(s, createdNs, adjustedNs).value;
      && v.id == s.id && v.kind == s.kind && v.completed == s.completed
      && v.arrivalNs == createdNs && v.lastExecutionNs == adjustedNs && v.cpuUsage == 0.0
      && v.staticPriority == s.priority
      && v.dynamicPriority == Dynamic(s.priority, 0.0, Starvation(adjustedNs), s.kind.IO_BOUND_TASK?)
      && v.state == (if s.completed then COMPLETED else READY)
      && (s.kind.CPU_INTENSIVE_TASK? ==>
           v.description == "CPU-Intensive Task" && v.totalWorkMs == v.remainingWorkMs == s.remainingMs)
      && (s.kind.IO_BOUND_TASK? ==> v.description == "I/O-Bound Task: output.txt" && v.operationsRemaining == s.remainingMs)
      && (s.kind.UNIX_TASK? ==> v.description == CString(s.description))
  {
    hide Dynamic, Starvation, CString;
  }

  /** What identifies a task across conversions. */
  datatype Identity = Identity(id: int, kind: TaskType, description: string, completed: bool)

  function Who(v: TaskValue): Identity { Identity(v.id, v.kind, v.description, v.completed) }

  /** The identity a task has from its first trip through shared memory on. */
  function Canonical(v: TaskValue): Identity {
    Identity(v.id, v.kind,
      match v.kind
      case CPU_INTENSIVE_TASK => CPU_DESCRIPTION
      case IO_BOUND_TASK => IO_DESCRIPTION
      case UNIX_TASK => Shorten(v.description),
      v.completed)
  }

  /** For an incomplete task, to the shared form and back is idempotent on its identity. */
  lemma RoundTrip(v: TaskValue, nowNs: nat, unset: Unset, createdNs: nat, adjustedNs: nat)
    requires v.arrivalNs <= nowNs && !v.completed && InRange(v.dynamicPriority)
    ensures var back := FromShared(ToShared(v, nowNs, unset), createdNs, adjustedNs);
      && back.Some?
      && Who(back.value) == Canonical(v)
      && Canonical(back.value) == Canonical(v)
      && back.value.staticPriority == v.dynamicPriority
  {
    ReadBack(v.description);
  }

  /** Anything a task's owner may do to it before or between submissions. */
  datatype Call =
    | CallSetStatic(priority: int, nowNs: nat)
    | CallAdjust(nowNs: nat)
    | CallSetState(state: RunState)
    | CallSlice(cpuUsage: real, remainingWorkMs: int, operationsRemaining: int, completed: bool)

  function Called(v: TaskValue, calls: seq<Call>): TaskValue {
    if calls == [] then v else
    var w := Called(v, calls[..|calls| - 1]);
    match calls[|calls| - 1]
    case CallSetStatic(p, now) => SetStatic(w, p, now)
    case CallAdjust(now) => Adjust(w, now)
    case CallSetState(s) => SetState(w, s)
    case CallSlice(usage, work, operations, done) =>
      SetState(w.(cpuUsage := usage, remainingWorkMs := work, operationsRemaining := operations),
               if done then COMPLETED else READY)
  }

  /** Whatever is called on a validly constructed task, out-of-range `set_static_priority` included, the
      priority it stores in the ring is valid, so rebuilding it never fails validation. */
  lemma {:induction false} StoredPriorityRebuilds(id: int, kind: TaskType, description: string, priority: int, bornNs: nat,
                                                  work: int, calls: seq<Call>, nowNs: nat, unset: Unset,
                                                  createdNs: nat, adjustedNs: nat)
    requires InRange(priority) && bornNs <= nowNs
    ensures var v := Called(Fresh(id, kind, description, priority, bornNs, work), calls);
      && v.arrivalNs == bornNs
      && InRange(v.dynamicPriority)
      && ToShared(v, nowNs, unset).priority == v.dynamicPriority
      && FromShared(ToShared(v, nowNs, unset), createdNs, adjustedNs).Some?
  {
    if calls != [] {
      StoredPriorityRebuilds(id, kind, description, priority, bornNs, work, calls[..|calls| - 1], nowNs, unset,
        createdNs, adjustedNs);
    }
  }
}
