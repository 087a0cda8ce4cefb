/**
 * The registry's global arrays and the operations on them. Each operation, run
 * by one thread without interruption, is proved to be a run of the step system
 * of WebThreadRegistry, so the results there are about this code.
 */
module WebThreadGlobals {
  import opened Options
  import opened WebThreadRegistry

  class Globals {
    const states: array<Status>
    const taskRunners: array<Option<Thread>>
    var lock: Option<Thread>
    var handed: seq<Handoff>
    var results: map<Task, bool>
    var used: set<Task>

    ghost predicate Valid()
      reads this
    {
      states.Length == ID_COUNT && taskRunners.Length == ID_COUNT
    }

    ghost function EntryOf(id: Id): Entry
      reads this, states, taskRunners
      requires Valid()
    {
      Entry(states[id], taskRunners[id])
    }

    /** The state of the step system, given where the threads are. */
    ghost function View(pcs: map<Thread, Pc>, ioThread: Life): State
      reads this, states, taskRunners
      requires Valid()
    {
      State(EntryOf(UI), EntryOf(IO), lock, pcs, ioThread, true, handed, results, used)
    }

    constructor ()
      ensures Valid() && fresh(states) && fresh(taskRunners)
      ensures View(map[], NotStarted) == Initial(true)
    {
      states := new Status[ID_COUNT](_ => Uninitialized);
      taskRunners := new Option<Thread>[ID_COUNT](_ => None);
      lock, handed, results, used := None, [], map[], {};
    }

    method Acquire(t: Thread)
      requires lock.None?
      modifies `lock
      ensures lock == Some(t)
    {
      lock := Some(t);
    }

    method Release(t: Thread)
      requires lock == Some(t)
      modifies `lock
      ensures lock.None?
    {
      lock := None;
    }

    /** WebThreadImpl's constructor: binds `id` to the runner of its thread. */
    method Register(id: Id, runner: Option<Thread>, ghost pcs: map<Thread, Pc>, ghost ioThread: Life)
      requires Valid() && lock.None? && runner == Some(Owner(id))
      requires Enabled(View(pcs, ioThread), BeginRegister(id))
      modifies this, states, taskRunners
      ensures Legal(old(View(pcs, ioThread)), RegisterTrace(id))
      ensures View(pcs[MAIN := Idle], ioThread) == Run(old(View(pcs, ioThread)), RegisterTrace(id))
      ensures lock.None? && EntryOf(id) == Entry(Running, runner)
      ensures forall other: Id :: other != id ==> EntryOf(other) == old(EntryOf(other))
    {
      RegisterRun(View(pcs, ioThread), id);
      Acquire(MAIN);
      states[id] := Running;
      taskRunners[id] := runner;
      Release(MAIN);
    }

    /** WebThreadImpl's destructor, on the identifier's own thread. */
    method Unregister(id: Id, ghost pcs: map<Thread, Pc>, ghost ioThread: Life)
      requires Valid() && lock.None?
      requires Enabled(View(pcs, ioThread), BeginShutdown(id))
      modifies this, states
      ensures Legal(old(View(pcs, ioThread)), ShutdownTrace(id))
      ensures View(pcs[Owner(id) := Idle], ioThread) == Run(old(View(pcs, ioThread)), ShutdownTrace(id))
      ensures lock.None? && EntryOf(id) == Entry(Shutdown, old(taskRunners[id]))
      ensures forall other: Id :: other != id ==> EntryOf(other) == old(EntryOf(other))
    {
      ShutdownRun(View(pcs, ioThread), id);
      Acquire(Owner(id));
      states[id] := Shutdown;
      Release(Owner(id));
    }

    method IsThreadInitialized(t: Thread, id: Id) returns (initialized: bool)
      requires Valid() && lock.None?
      modifies `lock
      ensures lock.None?
      ensures initialized <==> EntryOf(id).status.Running?
    {
      Acquire(t);
      initialized := states[id].Running?;
      Release(t);
    }

    method CurrentlyOn(t: Thread, id: Id) returns (on: bool)
      requires Valid() && lock.None?
      modifies `lock
      ensures lock.None?
      ensures on <==> EntryOf(id).runner == Some(t)
    {
      Acquire(t);
      on := taskRunners[id].Some? && taskRunners[id].value == t;
      Release(t);
    }

    /** `identifier` is meaningful only when the thread was found. */
    method GetCurrentThreadIdentifier(t: Thread) returns (found: bool, identifier: nat)
      requires Valid() && lock.None?
      modifies `lock
      ensures lock.None?
      ensures found <==> exists i: nat :: i < ID_COUNT && taskRunners[i] == Some(t)
      ensures found ==> identifier < ID_COUNT && taskRunners[identifier] == Some(t)
      ensures found ==> forall i :: 0 <= i < identifier ==> taskRunners[i] != Some(t)
    {
      Acquire(t);
      found, identifier := false, ID_COUNT;
      var i := 0;
      while i < ID_COUNT
        invariant 0 <= i <= ID_COUNT && lock == Some(t)
        invariant forall k :: 0 <= k < i ==> taskRunners[k] != Some(t)
      {
        if taskRunners[i].Some? && taskRunners[i].value == t {
          Release(t);
          return true, i;
        }
        i := i + 1;
      }
      Release(t);
    }

    /** Returns whether the task was handed to the target's runner. */
    method PostTaskHelper(t: Thread, id: Id, task: Task, ghost pcs: map<Thread, Pc>, ghost ioThread: Life)
      returns (acceptingTasks: bool)
      requires Valid() && lock.None?
      requires Enabled(View(pcs, ioThread), BeginPost(t, id, task))
      modifies this
      ensures acceptingTasks <==> old(EntryOf(id)).status.Running?
      ensures handed == old(handed) + (if acceptingTasks then [Handoff(task, id, old(EntryOf(id)))] else [])
      ensures lock.None? && results == old(results)[task := acceptingTasks]
      ensures var s := old(View(pcs, ioThread));
        && Legal(s, LookupTrace(t, id, task))
        && var s' := Run(s, LookupTrace(t, id, task));
           Legal(s', DeliverTrace(s', t, id)) && View(pcs[t := Idle], ioThread) == Run(s', DeliverTrace(s', t, id))
    {
      ghost var s := View(pcs, ioThread);
      LookupRun(s, t, id, task);
      DeliverRun(Run(s, LookupTrace(t, id, task)), t, id, task);
      var found, currentThread := GetCurrentThreadIdentifier(t);
      var targetOutlivesCurrent := found && currentThread >= id;
      if !targetOutlivesCurrent {
        Acquire(t);
      }
      acceptingTasks := states[id].Running?;
      if acceptingTasks {
        handed := handed + [Handoff(task, id, Entry(states[id], taskRunners[id]))];
      }
      if !targetOutlivesCurrent {
        Release(t);
      }
      used, results := used + {task}, results[task := acceptingTasks];
      GotoTwice(s, t, Run(s, LookupTrace(t, id, task)).At(t), Idle);
    }
  }
}
