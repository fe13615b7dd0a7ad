/** `bolt/background.py`: the per-request collector of deferred tasks. */
module Background {
  import opened Wrappers
  import opened Runtime

  /** A task's callable; `isCoroutine` is what `asyncio.iscoroutinefunction` reports. */
  datatype Callable = Callable(id: nat, isCoroutine: bool)

  /** One stored `(func, args, kwargs)` entry. */
  datatype Task = Task(func: Callable, args: seq<Value>, kwargs: map<string, Value>)

  /** How `execute` runs a task: awaited on the loop, or sent to `asyncio.to_thread`. */
  datatype Dispatch = Awaited | Threaded

  /** One task call made by `execute`, with the arguments it was given. */
  datatype TaskRun = TaskRun(func: Callable, args: seq<Value>, kwargs: map<string, Value>, via: Dispatch)

  function DispatchOf(f: Callable): (d: Dispatch)
    ensures d == Awaited <==> f.isCoroutine
  {
    if f.isCoroutine then Awaited else Threaded
  }

  /** Index of the first task whose run raises, or `|tasks|` when none does. */
  function FirstRaise(tasks: seq<Task>, fate: (nat, Task) -> Option<Exc>, from: nat): (k: nat)
    requires from <= |tasks|
    ensures from <= k <= |tasks|
    ensures forall i :: from <= i < k ==> fate(i, tasks[i]).None?
    ensures k < |tasks| ==> fate(k, tasks[k]).Some?
    decreases |tasks| - from
  {
    if from == |tasks| then from
    else if fate(from, tasks[from]).Some? then from
    else FirstRaise(tasks, fate, from + 1)
  }

  class BackgroundTasks {
    var tasks: seq<Task>

    /** A new collector holds no tasks. */
    constructor ()
      ensures tasks == []
    {
      tasks := [];
    }

    /** `add_task` stores one entry at the end and runs nothing. */
    method AddTask(func: Callable, args: seq<Value>, kwargs: map<string, Value>)
      modifies this
      ensures tasks == old(tasks) + [Task(func, args, kwargs)]
    {
      tasks := tasks + [Task(func, args, kwargs)];
    }

    /**
     * `execute`: runs the stored tasks in insertion order, each once with its
     * own arguments, awaiting coroutine functions and threading the rest.
     * `fate(i, t)` is what running the i-th task raises, if anything; there is
     * no try around a task, so the first raise ends the loop and is
     * propagated. The task list itself is not touched.
     */
    method Execute(fate: (nat, Task) -> Option<Exc>) returns (runs: seq<TaskRun>, raised: Option<Exc>)
      ensures var k := FirstRaise(tasks, fate, 0);
        && |runs| == (if k < |tasks| then k + 1 else k)
        && (forall i :: 0 <= i < |runs| ==>
              runs[i] == TaskRun(tasks[i].func, tasks[i].args, tasks[i].kwargs, DispatchOf(tasks[i].func)))
        && raised == (if k < |tasks| then fate(k, tasks[k]) else None)
    {
      runs, raised := [], None;
      var i := 0;
      while i < |tasks|
        invariant 0 <= i <= |tasks| && |runs| == i
        invariant forall j :: 0 <= j < i ==> fate(j, tasks[j]).None?
        invariant forall j :: 0 <= j < i ==>
          runs[j] == TaskRun(tasks[j].func, tasks[j].args, tasks[j].kwargs, DispatchOf(tasks[j].func))
        invariant FirstRaise(tasks, fate, 0) == FirstRaise(tasks, fate, i)
      {
        var t := tasks[i];
        if t.func.isCoroutine {
          runs := runs + [TaskRun(t.func, t.args, t.kwargs, Awaited)];
        } else {
          runs := runs + [TaskRun(t.func, t.args, t.kwargs, Threaded)];
        }
        var outcome := fate(i, t);
        if outcome.Some? {
          raised := outcome;
          return;
        }
        i := i + 1;
      }
    }
  }
}
