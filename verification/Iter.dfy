// The iterator of src/futures/iter.rs over the list of all tasks, with nobody
// inserting; AllListProtocol has the shared iterator among inserting threads.
module Iters {
  import opened Wrappers
  import opened Tasks
  import opened FuturesUnorderedSets

  class IterPinMut {
    const pool: FuturesUnordered
    var task: Task?
    var len: nat
    ghost var passed: nat

    ghost predicate Valid()
      reads this, pool`all
    {
      passed <= |pool.all| && task == At(pool.all, passed) && len == |pool.all| - passed
    }

    // iter_pin_mut.
    constructor (pool: FuturesUnordered)
      requires pool.Valid()
      ensures Valid() && this.pool == pool && passed == 0
    {
      this.pool, task, passed := pool, pool.headAll, 0;
      len := if pool.headAll == null then 0 else pool.headAll.lenAll;
    }

    // The tasks of the list one after another, each with its future there; `len`
    // counts down and never below zero.
    method Next() returns (item: Option<Task>)
      requires Valid() && pool.Valid()
      modifies this
      ensures Valid()
      ensures if old(passed) == |pool.all| then item == None && passed == old(passed)
        else
          && item == Some(pool.all[old(passed)]) && item.value.future.Some?
          && passed == old(passed) + 1 && len == old(len) - 1
    {
      if task == null {
        return None;
      }
      assert pool.all[passed].nextAll == At(pool.all, passed + 1);
      assert task in pool.all && pool.Owned(task);
      item := Some(task);
      var next := task.nextAll;
      task := next;
      len := len - 1;
      passed := passed + 1;
    }
  }
}
