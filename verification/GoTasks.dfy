/**
 gsyncio: goroutines, two maps under one mutex, and the cancel flags Python and
 Go share. Each section under the mutex, and each read or write of a flag, is one step.
 */
module GoTasks {

  // ----- The two maps -----

  /** The keys of `callbacks`, and `cancellationMap`. */
  datatype Maps = Maps(callbacks: set<int>, cancellation: map<int, bool>)

  function Registered(m: Maps, id: int): Maps {
    Maps(m.callbacks + {id}, m.cancellation[id := false])
  }

  function Unregistered(m: Maps, id: int): Maps {
    Maps(m.callbacks - {id}, m.cancellation - {id})
  }

  function Canceled(m: Maps, id: int): Maps {
    m.(cancellation := m.cancellation[id := true])
  }

  /** _IsCanceled */
  predicate IsCanceled(m: Maps, id: int) {
    id !in m.cancellation || m.cancellation[id]
  }

  // ----- Task ids: a Go int truncated to a C int -----

  const TWO_32: int := 0x1_0000_0000

  function ToCInt(n: int): (r: int)
    ensures -0x8000_0000 <= r < 0x8000_0000
  {
    var low := n % TWO_32;
    if low < 0x8000_0000 then low else low - TWO_32
  }

  lemma AddMultiple(r: int, k: int)
    ensures (TWO_32 * k + r) % TWO_32 == r % TWO_32
  {
    assert TWO_32 * k + r == TWO_32 * (k + r / TWO_32) + r % TWO_32;
  }

  /** Two calls get the same id exactly when a multiple of 2^32 calls lies between them. */
  lemma SameIdIff(a: int, b: int)
    ensures ToCInt(a) == ToCInt(b) <==> (a - b) % TWO_32 == 0
  {
    var qa, qb := a / TWO_32, b / TWO_32;
    assert a == TWO_32 * qa + a % TWO_32 && b == TWO_32 * qb + b % TWO_32;
    var r := a % TWO_32 - b % TWO_32;
    assert a - b == TWO_32 * (qa - qb) + r;
    assert (a - b) % TWO_32 == r % TWO_32 by {
      AddMultiple(r, qa - qb);
    }
  }

  /** So ids are distinct over any 2^32 consecutive calls. */
  lemma IdsDistinct(a: int, b: int)
    requires a < b < a + TWO_32
    ensures ToCInt(a) != ToCInt(b)
  {
    SameIdIff(b, a);
  }

  // ----- The library and the Python module as objects -----

  /** An int32 in memory: Python's flag, Go's constant one, or the zero of an uncancellable task. */
  class CFlag {
    var value: int

    constructor (value: int)
      ensures this.value == value
    {
      this.value := value;
    }
  }

  class CallbackEntry {
    var canceled: CFlag

    constructor (canceled: CFlag)
      ensures this.canceled == canceled
    {
      this.canceled := canceled;
    }
  }

  class GoLibrary {
    var callbacks: map<int, CallbackEntry>
    var cancellationMap: map<int, bool>
    var nextTaskId: int

    ghost function View(): Maps
      reads this
    {
      Maps(callbacks.Keys, cancellationMap)
    }

    constructor ()
      ensures View() == Maps({}, map[]) && nextTaskId == 1
    {
      callbacks, cancellationMap, nextTaskId := map[], map[], 1;
    }

    /** The section of _StartGoTaskWithResult under the mutex; the goroutine keeps `entry`. */
    method StartWithResult(id: int, flag: CFlag) returns (entry: CallbackEntry)
      modifies `callbacks, `cancellationMap
      ensures View() == Registered(old(View()), id)
      ensures fresh(entry) && callbacks == old(callbacks)[id := entry] && entry.canceled == flag
    {
      entry := new CallbackEntry(flag);
      cancellationMap := cancellationMap[id := false];
      callbacks := callbacks[id := entry];
    }

    /** _StartGoTask: the flag is a zero nobody else can reach. */
    method Start(id: int) returns (entry: CallbackEntry)
      modifies `callbacks, `cancellationMap
      ensures View() == Registered(old(View()), id)
      ensures fresh(entry) && callbacks == old(callbacks)[id := entry]
      ensures fresh(entry.canceled) && entry.canceled.value == 0
    {
      var noCancel := new CFlag(0);
      entry := StartWithResult(id, noCancel);
    }

    method GetNextTaskId() returns (id: int)
      modifies `nextTaskId
      ensures id == ToCInt(old(nextTaskId)) && nextTaskId == old(nextTaskId) + 1
    {
      id := ToCInt(nextTaskId);
      nextTaskId := nextTaskId + 1;
    }

    /** _CancelGoTask: a registered entry is pointed at a one; the map remembers any id at all. */
    method Cancel(id: int)
      modifies `cancellationMap, callbacks.Values
      ensures View() == Canceled(old(View()), id)
      ensures id in callbacks ==> fresh(callbacks[id].canceled) && callbacks[id].canceled.value == 1
      ensures forall e :: e in callbacks.Values && (id in callbacks ==> e != callbacks[id]) ==> e.canceled == old(e.canceled)
    {
      if id in callbacks {
        var one := new CFlag(1);
        callbacks[id].canceled := one;
      }
      cancellationMap := cancellationMap[id := true];
    }

    /** The goroutine's deferred section. */
    method Finish(id: int)
      modifies `callbacks, `cancellationMap
      ensures View() == Unregistered(old(View()), id)
    {
      cancellationMap := cancellationMap - {id};
      callbacks := callbacks - {id};
    }
  }

  // ----- Interleaved steps -----

  datatype Where =
    | Prepared     // Python has made the flag, Go has not been told yet
    | Spawned      // registered; the goroutine has not read its flag
    | Passed       // it will call Python
    | Stopped      // it saw the flag and will not
    | Called       // Python was called
    | Cleaned

  /** `flag` is Python's int32; `redirected` says the entry was pointed at Go's one. */
  datatype Task = Task(withResult: bool, flag: bool, redirected: bool, at: Where, runs: nat)

  datatype World = World(tasks: map<int, Task>, maps: Maps)

  datatype Step =
    | Prepare(id: int, withResult: bool)
    | Launch(id: int)         // the Start call
    | Check(id: int)          // the goroutine reads *entry.canceled
    | Call(id: int)
    | CleanUp(id: int)
    | CancelInGo(id: int)     // the first half of CancelGoTask
    | CancelFlag(id: int)     // the second: flag[0] = 1

  predicate At(w: World, id: int, at: Where) {
    id in w.tasks && w.tasks[id].at == at
  }

  /** Ids are not reused. */
  predicate Possible(w: World, e: Step) {
    match e
    case Prepare(id, _) => id !in w.tasks
    case Launch(id) => At(w, id, Prepared)
    case Check(id) => At(w, id, Spawned)
    case Call(id) => At(w, id, Passed)
    case CleanUp(id) => At(w, id, Stopped) || At(w, id, Called)
    case CancelInGo(_) => true
    case CancelFlag(_) => true
  }

  /** What the goroutine reads: a plain task never looks. */
  predicate SeesCancel(t: Task) {
    t.withResult && (t.redirected || t.flag)
  }

  function Next(w: World, e: Step): World
    requires Possible(w, e)
  {
    match e
    case Prepare(id, withResult) => w.(tasks := w.tasks[id := Task(withResult, false, false, Prepared, 0)])
    case Launch(id) => World(w.tasks[id := w.tasks[id].(at := Spawned)], Registered(w.maps, id))
    case Check(id) =>
      var t := w.tasks[id];
      w.(tasks := w.tasks[id := t.(at := if SeesCancel(t) then Stopped else Passed)])
    case Call(id) => w.(tasks := w.tasks[id := w.tasks[id].(at := Called, runs := w.tasks[id].runs + 1)])
    case CleanUp(id) => World(w.tasks[id := w.tasks[id].(at := Cleaned)], Unregistered(w.maps, id))
    case CancelInGo(id) =>
      World(if id in w.maps.callbacks && id in w.tasks then w.tasks[id := w.tasks[id].(redirected := true)] else w.tasks,
            Canceled(w.maps, id))
    case CancelFlag(id) =>
      if id in w.tasks && w.tasks[id].withResult then w.(tasks := w.tasks[id := w.tasks[id].(flag := true)]) else w
  }

  predicate Live(t: Task) {
    t.at == Spawned || t.at == Passed || t.at == Stopped || t.at == Called
  }

  ghost predicate TaskInv(m: Maps, id: int, t: Task) {
    && t.runs == (if t.at == Called then 1 else if t.at == Cleaned then t.runs else 0)
    && t.runs <= 1
    && (id in m.callbacks <==> Live(t))
    && (id in m.callbacks ==> id in m.cancellation && m.cancellation[id] == t.redirected)
    && (t.at == Prepared ==> !t.redirected)
    && (t.at == Cleaned && !t.withResult ==> t.runs == 1)
    && (t.at == Stopped ==> SeesCancel(t))
  }

  ghost predicate Inv(w: World) {
    && (forall id :: id in w.tasks ==> TaskInv(w.maps, id, w.tasks[id]))
    && (forall id :: id in w.maps.callbacks ==> id in w.tasks)
    && (forall id :: id in w.maps.cancellation && id !in w.maps.callbacks ==> w.maps.cancellation[id])
  }

  lemma StepKeeps(w: World, e: Step)
    requires Inv(w) && Possible(w, e)
    ensures Inv(Next(w, e))
  {
    var v := Next(w, e);
    forall id | id in v.tasks
      ensures TaskInv(v.maps, id, v.tasks[id])
    {
      if id in w.tasks {
        assert TaskInv(w.maps, id, w.tasks[id]);
      }
    }
  }

  ghost predicate Reaches(w: World, steps: seq<Step>, v: World) {
    if steps == [] then w == v
    else
      var init, last := steps[..|steps| - 1], steps[|steps| - 1];
      exists mid :: Reaches(w, init, mid) && Possible(mid, last) && v == Next(mid, last)
  }

  const NOTHING: World := World(map[], Maps({}, map[]))

  lemma {:induction false} EveryRun(steps: seq<Step>, w: World)
    requires Reaches(NOTHING, steps, w)
    ensures Inv(w)
  {
    if steps != [] {
      hide Inv, Possible, Next;
      var mid :| Reaches(NOTHING, steps[..|steps| - 1], mid) && Possible(mid, steps[|steps| - 1]) && w == Next(mid, steps[|steps| - 1]);
      EveryRun(steps[..|steps| - 1], mid);
      StepKeeps(mid, steps[|steps| - 1]);
    }
  }

  // ----- What every run guarantees -----

  /**
   The tables: registered ids are in both maps, the rest are remembered as cancelled,
   and a query says false exactly of registered, uncancelled tasks.
   */
  lemma TablesAgree(steps: seq<Step>, w: World, id: int)
    requires Reaches(NOTHING, steps, w)
    ensures w.maps.callbacks <= w.maps.cancellation.Keys
    ensures id in w.maps.cancellation && id !in w.maps.callbacks ==> w.maps.cancellation[id]
    ensures !IsCanceled(w.maps, id) <==> id in w.tasks && Live(w.tasks[id]) && !w.tasks[id].redirected
  {
    hide Reaches, Live;
    EveryRun(steps, w);
    assert forall k :: k in w.maps.callbacks ==> TaskInv(w.maps, k, w.tasks[k]);
    if id in w.tasks {
      assert TaskInv(w.maps, id, w.tasks[id]);
    }
  }

  /** Each callback runs at most once, and a plain task that is over has run, whatever was cancelled. */
  lemma RunsAtMostOnce(steps: seq<Step>, w: World, id: int)
    requires Reaches(NOTHING, steps, w) && id in w.tasks
    ensures w.tasks[id].runs <= 1
    ensures w.tasks[id].at == Cleaned && !w.tasks[id].withResult ==> w.tasks[id].runs == 1
  {
    hide Reaches;
    EveryRun(steps, w);
    assert TaskInv(w.maps, id, w.tasks[id]);
  }

  /** What cannot change any more once a goroutine's fate is sealed. */
  ghost predicate Doomed(w: World, id: int) {
    id in w.tasks && w.tasks[id].runs == 0 && w.tasks[id].withResult &&
    ((w.tasks[id].at == Spawned && SeesCancel(w.tasks[id])) || w.tasks[id].at == Stopped || w.tasks[id].at == Cleaned)
  }

  lemma DoomedStays(w: World, e: Step, id: int)
    requires Doomed(w, id) && Possible(w, e)
    ensures Doomed(Next(w, e), id)
  {
  }

  /** Cancelled, by either half, after the start and before the flag is read: the callback never runs. */
  lemma {:induction false} CancelledNeverRuns(w: World, steps: seq<Step>, v: World, id: int)
    requires Reaches(w, steps, v)
    requires At(w, id, Spawned) && w.tasks[id].withResult && w.tasks[id].runs == 0 && SeesCancel(w.tasks[id])
    ensures Doomed(v, id) && v.tasks[id].runs == 0
  {
    if steps != [] {
      var mid :| Reaches(w, steps[..|steps| - 1], mid) && Possible(mid, steps[|steps| - 1]) && v == Next(mid, steps[|steps| - 1]);
      hide Next, Possible;
      CancelledNeverRuns(w, steps[..|steps| - 1], mid, id);
      DoomedStays(mid, steps[|steps| - 1], id);
    }
  }

  ghost predicate Committed(w: World, id: int) {
    id in w.tasks && ((w.tasks[id].at == Passed && w.tasks[id].runs == 0) ||
                      ((w.tasks[id].at == Called || w.tasks[id].at == Cleaned) && w.tasks[id].runs == 1))
  }

  lemma CommittedStays(w: World, e: Step, id: int)
    requires Committed(w, id) && Possible(w, e)
    ensures Committed(Next(w, e), id)
  {
  }

  /** Past that reading no cancel stops the call: a goroutine that is over has made it. */
  lemma {:induction false} LateCancelDoesNotStop(w: World, steps: seq<Step>, v: World, id: int)
    requires Reaches(w, steps, v) && At(w, id, Passed) && w.tasks[id].runs == 0
    ensures Committed(v, id)
    ensures v.tasks[id].at == Cleaned ==> v.tasks[id].runs == 1
  {
    if steps != [] {
      var mid :| Reaches(w, steps[..|steps| - 1], mid) && Possible(mid, steps[|steps| - 1]) && v == Next(mid, steps[|steps| - 1]);
      hide Next, Possible;
      LateCancelDoesNotStop(w, steps[..|steps| - 1], mid, id);
      CommittedStays(mid, steps[|steps| - 1], id);
    }
  }

  ghost predicate StartedAndCanceled(w: World, id: int) {
    id in w.tasks && w.tasks[id].at != Prepared && IsCanceled(w.maps, id)
  }

  lemma StartedAndCanceledStays(w: World, e: Step, id: int)
    requires Inv(w) && StartedAndCanceled(w, id) && Possible(w, e)
    ensures StartedAndCanceled(Next(w, e), id)
  {
  }

  /** Once a task has started, a query that has said true says true for ever. */
  lemma {:induction false} CanceledStays(w: World, steps: seq<Step>, v: World, id: int)
    requires Inv(w) && Reaches(w, steps, v) && StartedAndCanceled(w, id)
    ensures Inv(v) && StartedAndCanceled(v, id)
  {
    if steps != [] {
      var mid :| Reaches(w, steps[..|steps| - 1], mid) && Possible(mid, steps[|steps| - 1]) && v == Next(mid, steps[|steps| - 1]);
      hide Inv, StartedAndCanceled, Next, Possible;
      CanceledStays(w, steps[..|steps| - 1], mid, id);
      StartedAndCanceledStays(mid, steps[|steps| - 1], id);
      StepKeeps(mid, steps[|steps| - 1]);
    }
  }

  /**
   A cancel between the making of the flag and the start is half remembered: the
   callback will not run, yet `_IsCanceled` says false, because the start overwrites the map.
   */
  lemma CancelBeforeStart(id: int)
    ensures exists w ::
              && Reaches(NOTHING, [Prepare(id, true), CancelInGo(id), CancelFlag(id), Launch(id)], w)
              && At(w, id, Spawned) && SeesCancel(w.tasks[id])
              && !IsCanceled(w.maps, id)
  {
    var s0, s1, s2, s3 := Prepare(id, true), CancelInGo(id), CancelFlag(id), Launch(id);
    var w1 := Next(NOTHING, s0);
    var w2 := Next(w1, s1);
    var w3 := Next(w2, s2);
    var w4 := Next(w3, s3);
    ReachOne(NOTHING, [], NOTHING, s0);
    assert [] + [s0] == [s0];
    ReachOne(NOTHING, [s0], w1, s1);
    assert [s0] + [s1] == [s0, s1];
    ReachOne(NOTHING, [s0, s1], w2, s2);
    assert [s0, s1] + [s2] == [s0, s1, s2];
    ReachOne(NOTHING, [s0, s1, s2], w3, s3);
    assert [s0, s1, s2] + [s3] == [s0, s1, s2, s3];
    assert Reaches(NOTHING, [s0, s1, s2, s3], w4);
  }

  lemma ReachOne(w: World, steps: seq<Step>, mid: World, e: Step)
    requires Reaches(w, steps, mid) && Possible(mid, e)
    ensures Reaches(w, steps + [e], Next(mid, e))
  {
    assert (steps + [e])[..|steps|] == steps;
  }
}
