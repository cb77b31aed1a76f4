// The ready queue of src/futures/ready_to_run_queue.rs as one thread uses it,
// with no enqueue of another thread in flight; MpscQueue is the general case.
module ReadyToRunQueues {
  import opened Wrappers
  import opened Tasks

  datatype Dequeue = Data(task: Task) | Empty | Inconsistent

  // What a dequeue does to what is queued: it takes the head, or there is none.
  ghost predicate Dequeued(before: seq<Task>, r: Dequeue, after: seq<Task>) {
    if before == [] then r == Empty && after == [] else r == Data(before[0]) && after == before[1..]
  }

  // What a wake finds and changes: the registered waker, and the thread cx.
  datatype Bell = Wired(state: bv64, registered: Option<ThreadNotify>, notice: Notice) {
    function Rung(woken: bool): Bell {
      if woken then Wired(state, None, notice.Woken()) else this
    }
  }

  class ReadyToRunQueue {
    const stub: Task
    const waker: AtomicWaker
    var head: Task
    var tail: Task
    ghost var contents: seq<Task>

    // The nodes from tail to head: the stub, when it is in the queue, is first.
    ghost predicate Valid()
      reads this, stub`nextReady, contents`nextReady
    {
      && (forall i :: 0 <= i < |contents| ==> contents[i] != stub)
      && Distinct(contents)
      && (tail != stub ==> contents != [] && tail == contents[0])
      && (tail == stub && contents != [] ==> stub.nextReady == contents[0])
      && head == (if contents == [] then stub else contents[|contents| - 1])
      && head.nextReady == null
      && forall i :: 0 <= i < |contents| - 1 ==> contents[i].nextReady == contents[i + 1]
    }

    constructor ()
      ensures Valid() && contents == [] && fresh(stub) && fresh(waker) && waker.Idle() && waker.waker == None
      ensures stub.future == None && stub.queued
    {
      var s := new Task.Stub();
      stub, head, tail, contents := s, s, s, [];
      waker := new AtomicWaker();
    }

    method Enqueue(task: Task)
      requires Valid() && task !in contents && (task == stub ==> tail != stub)
      modifies this`head, this`contents, task`nextReady, head`nextReady
      ensures head == task && task.nextReady == null && old(head).nextReady == task
      ensures contents == (if task == stub then old(contents) else old(contents) + [task])
      ensures task != stub ==> Valid()
    {
      task.nextReady := null;
      var prev := head;
      head := task;
      prev.nextReady := task;
      if task != stub {
        contents := contents + [task];
      }
    }

    method Dequeue() returns (r: Dequeue)
      requires Valid()
      modifies this, stub`nextReady, head`nextReady
      ensures Valid()
      ensures Dequeued(old(contents), r, contents)
    {
      var t := tail;
      var next := t.nextReady;
      if t == stub {
        if next == null {
          return Empty;
        }
        tail := next;
        t := next;
        next := next.nextReady;
      }
      assert |contents| > 1 ==> contents[0].nextReady == contents[1];
      if next != null {
        tail := next;
        contents := contents[1..];
        return Data(t);
      }
      if head != t {
        return Inconsistent;
      }
      Enqueue(stub);
      next := t.nextReady;
      if next != null {
        tail := next;
        contents := contents[1..];
        return Data(t);
      }
      return Inconsistent;
    }

    // Task::wake_by_ref, which reaches this queue through the task's weak pointer:
    // set the flag and, if it was not set, put the task at the tail and wake the
    // registered waker.
    method WakeTask(task: Task)
      requires Valid() && task != stub && (!task.queued ==> task !in contents) && waker.Idle()
      modifies this`head, this`contents, task`queued, task`nextReady, head`nextReady
      modifies waker, if waker.waker.Some? then {waker.waker.value} else {}
      ensures Valid() && task.queued && waker.Idle()
      ensures contents == (if old(task.queued) then old(contents) else old(contents) + [task])
      ensures head == old(head) || head == task
      ensures old(task.queued) ==> waker.waker == old(waker.waker) && unchanged(waker) && head == old(head)
      ensures !old(task.queued) ==> waker.waker == None
      ensures old(waker.waker).Some? ==> old(waker.waker).value.Told(!old(task.queued))
    {
      var prev := FlagTask(task);
      if !prev {
        waker.Wake();
      }
    }

    // Its first part: set the flag and, if it was not set, enqueue.
    method FlagTask(task: Task) returns (prev: bool)
      requires Valid() && task != stub && (!task.queued ==> task !in contents)
      modifies this`head, this`contents, task`queued, task`nextReady, head`nextReady
      ensures Valid() && task.queued && prev == old(task.queued)
      ensures contents == (if prev then old(contents) else old(contents) + [task])
      ensures head == if prev then old(head) else task
    {
      prev := task.queued;
      task.queued := true;
      if !prev {
        Enqueue(task);
      }
    }

    // The registered waker is cx's, or it has been used up and cx is unparked.
    predicate Serves(cx: ThreadNotify)
      reads waker, cx
    {
      waker.Idle() && (waker.waker == Some(cx) || (waker.waker == None && cx.unparked))
    }

    function Bell(cx: ThreadNotify): Bell
      reads waker, cx
    {
      Wired(waker.state, waker.waker, cx.State())
    }

    // Meanwhile a wake has used up the registered waker and woken cx, or nothing has
    // happened to them.
    twostate predicate Heard(cx: ThreadNotify, woken: bool)
      reads waker, cx
    {
      Bell(cx) == old(Bell(cx)).Rung(woken)
    }

    // A wake while poll_next is registered for cx wakes cx.
    method WakeServed(task: Task, cx: ThreadNotify)
      requires Valid() && task != stub && (!task.queued ==> task !in contents) && Serves(cx)
      modifies this`head, this`contents, task`queued, task`nextReady, head`nextReady, waker, cx
      ensures Valid() && task.queued && Serves(cx)
      ensures contents == (if old(task.queued) then old(contents) else old(contents) + [task])
      ensures head == old(head) || head == task
      ensures Heard(cx, !old(task.queued))
    {
      WakeTask(task);
    }

    // Dequeue, dropping the reference of what comes out.
    method DropNext() returns (r: Dequeue)
      requires Valid()
      requires forall t :: t in contents ==> t.future == None && t.owner == ReadyQueue
      modifies this, stub`nextReady, head`nextReady, (if contents == [] then {} else {contents[0]})`owner
      ensures Valid() && Dequeued(old(contents), r, contents)
      ensures forall t :: t in contents ==> t.future == None && t.owner == ReadyQueue
      ensures r.Data? ==> r.task.owner == Freed
    {
      r := Dequeue();
      if r.Data? {
        r.task.Drop();
      }
    }

    // Empty the queue, dropping one reference per entry.
    method Clear()
      requires Valid()
      requires forall t :: t in contents ==> t.future == None && t.owner == ReadyQueue
      modifies this, stub`nextReady, contents`nextReady, contents`owner
      ensures Valid() && contents == []
      ensures forall t :: t in old(contents) ==> t.owner == Freed
    {
      ghost var todo := contents;
      ghost var k := 0;
      while true
        invariant Valid() && k <= |todo| && contents == todo[k..]
        invariant forall i :: 0 <= i < k ==> todo[i].owner == Freed
        invariant forall t :: t in contents ==> t.future == None && t.owner == ReadyQueue
        decreases |todo| - k
      {
        var r := DropNext();
        match r
        case Empty => break;
        case Inconsistent => assert false;
        case Data(t) =>
          assert t == todo[k] && contents == todo[k + 1..];
          k := k + 1;
      }
    }
  }
}
