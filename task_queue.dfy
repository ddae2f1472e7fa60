/**
 * The task queue of concurrency/additional_synchronization_primitives/example2.go.
 *
 * The source keeps a package-level slice `tasks` of closures. `produce` appends
 * a task at the tail; `worker` waits while the slice is empty, then removes the
 * head, runs it once and returns. Locks and the condition variable are not
 * modelled here: only the sequential effect of each operation on the slice.
 * Tasks are opaque values of a type parameter; running one is recorded by
 * handing it back to the caller.
 */
module TaskQueue {

  class TaskQueue<T> {
    /** The slice of pending tasks, head first. */
    var tasks: seq<T>

    /** The zero value of the package-level slice: no tasks. */
    constructor ()
      ensures tasks == []
    {
      tasks := [];
    }

    /** `produce`: append at the tail; the tasks already queued keep their order. */
    method Produce(task: T)
      modifies this
      ensures tasks == old(tasks) + [task]
      ensures |tasks| == |old(tasks)| + 1
      ensures tasks[..|old(tasks)|] == old(tasks)
    {
      tasks := tasks + [task];
    }

    /**
     * The body of `worker` once its wait loop has ended: the queue is non-empty,
     * exactly the head is removed and returned (to be run), and the new queue is
     * the old `tasks[1:]`. A worker takes one task and returns.
     */
    method Take() returns (task: T)
      requires tasks != []
      modifies this
      ensures task == old(tasks)[0]
      ensures tasks == old(tasks)[1..]
      ensures |tasks| == |old(tasks)| - 1
      ensures old(tasks) == [task] + tasks
    {
      task, tasks := tasks[0], tasks[1..];
    }
  }

  function Min(x: nat, y: nat): nat
  {
    if x <= y then x else y
  }

  /**
   * The `main` scenario: `workers` goroutines are started and park on the
   * empty queue; then the tasks of `produced` are produced one at a time, and
   * after each produce (the source sleeps a second) a parked worker, if any is
   * left, wakes and takes the head. Returns the tasks run, in the order they
   * ran, the tasks left in the queue, and the workers still parked.
   */
  method RunPool<T>(workers: nat, produced: seq<T>)
    returns (executed: seq<T>, remaining: seq<T>, parked: nat)
    ensures |executed| == Min(workers, |produced|)
    ensures executed == produced[..Min(workers, |produced|)]
    ensures remaining == produced[Min(workers, |produced|)..]
    ensures parked == workers - Min(workers, |produced|)
    ensures executed + remaining == produced
  {
    var q := new TaskQueue<T>();
    executed, parked := [], workers;
    var i := 0;
    while i < |produced|
      invariant 0 <= i <= |produced|
      invariant parked == workers - Min(workers, i)
      invariant executed == produced[..Min(workers, i)]
      invariant q.tasks == produced[Min(workers, i)..i]
    {
      q.Produce(produced[i]);
      if parked > 0 {
        var task := q.Take();
        executed := executed + [task];
        parked := parked - 1;
      }
      i := i + 1;
    }
    remaining := q.tasks;
  }

  /**
   * `main` itself: five workers, then the tasks that print "1", "2" and "3".
   * Exactly three takes succeed, in production order, and two workers stay
   * parked on the empty queue.
   */
  method MainScenario() returns (executed: seq<string>, remaining: seq<string>, parked: nat)
    ensures executed == ["1", "2", "3"]
    ensures remaining == []
    ensures parked == 2
  {
    executed, remaining, parked := RunPool(5, ["1", "2", "3"]);
  }
}
