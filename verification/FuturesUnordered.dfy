// FuturesUnordered of src/futures/futures_unordered.rs as one thread uses it: the
// doubly linked list of all tasks, the ready queue, and who owns each task.
module FuturesUnorderedSets {
  import opened Wrappers
  import opened Programs
  import opened PollCycle
  import opened Tasks
  import opened ReadyToRunQueues
  import opened Inboxes

  // Run the first operation of a body that is being polled; `pending` if it is an
  // await that is not ready, of which `rest` is what it has become and what follows.
  method RunOp(task: Task, body: Body, id: nat, q: ReadyToRunQueue, inbox: Inbox, cx: ThreadNotify)
      returns (rest: Body, pending: bool)
    requires body != []
    requires q.Valid() && task != q.stub && (!task.queued ==> task !in q.contents) && q.Serves(cx)
    requires inbox.Valid() && inbox.data.Some?
    modifies q`head, q`contents, q.head`nextReady, q.waker, inbox, cx, task`queued, task`nextReady
    ensures q.Valid() && inbox.Valid() && inbox.data.Some? && q.Serves(cx)
    ensures old(task.queued) ==> task.queued
    ensures q.Heard(cx, task.queued != old(task.queued))
    ensures q.contents == (if task.queued != old(task.queued) then old(q.contents) + [task] else old(q.contents))
    ensures q.head == old(q.head) || q.head == task
    ensures !pending ==> rest == body[1..]
    ensures var r := PollBody(id, body, old(inbox.View()));
      if pending then r.rest == Some(rest) && r.env == inbox.View() && (old(task.queued) || r.woken <==> task.queued)
      else
        var r' := PollBody(id, rest, inbox.View());
        r.rest == r'.rest && r.env == r'.env && (old(task.queued) || r.woken <==> task.queued || r'.woken)
  {
    rest, pending := body[1..], false;
    match body[0]
    case Act(update) => inbox.Update(id, update);
    case Spawn(child) => var _ := inbox.RawQueue(child);
    case Sleep(ticks) =>
      if ticks != 0 {
        q.WakeServed(task, cx);
        rest, pending := [Sleep(ticks - 1)] + body[1..], true;
      }
    case Yield(yielded) =>
      if !yielded {
        q.WakeServed(task, cx);
        rest, pending := [Yield(true)] + body[1..], true;
      }
    case Wake => q.WakeServed(task, cx);
    case Suspend(resumed) =>
      if !resumed {
        rest, pending := [Suspend(true)] + body[1..], true;
      }
  }

  // Run a body up to the first await that is not ready.
  method RunBody(task: Task, b: Body, id: nat, q: ReadyToRunQueue, inbox: Inbox, cx: ThreadNotify)
      returns (body: Body, pending: bool)
    requires q.Valid() && task != q.stub && task !in q.contents && !task.queued && q.Serves(cx)
    requires inbox.Valid() && inbox.data.Some?
    modifies q`head, q`contents, q.head`nextReady, q.waker, inbox, cx, task`queued, task`nextReady
    ensures q.Valid() && inbox.Valid() && inbox.data.Some? && q.Serves(cx)
    ensures q.Heard(cx, task.queued)
    ensures q.contents == (if task.queued then old(q.contents) + [task] else old(q.contents))
    ensures var p := PollBody(id, b, old(inbox.View()));
      p.rest == (if pending then Some(body) else None) && p.env == inbox.View() && p.woken == task.queued
  {
    ghost var p := PollBody(id, b, inbox.View());
    body, pending := b, false;
    while |body| > 0 && !pending
      invariant q.Valid() && inbox.Valid() && inbox.data.Some? && q.Serves(cx)
      invariant q.Heard(cx, task.queued)
      invariant q.contents == (if task.queued then old(q.contents) + [task] else old(q.contents))
      invariant q.head == old(q.head) || q.head == task
      invariant if pending then p.rest == Some(body) && p.env == inbox.View() && p.woken == task.queued
        else var r := PollBody(id, body, inbox.View());
          p.rest == r.rest && p.env == r.env && p.woken == (task.queued || r.woken)
      decreases !pending, |body|
    {
      body, pending := RunOp(task, body, id, q, inbox, cx);
    }
  }

  // Poll the future of a task, with the task itself as its waker.
  method PollFuture(task: Task, q: ReadyToRunQueue, inbox: Inbox, cx: ThreadNotify) returns (ready: bool)
    requires q.Valid() && task != q.stub && task !in q.contents && !task.queued && task.future.Some? && q.Serves(cx)
    requires inbox.Valid() && inbox.data.Some?
    modifies q`head, q`contents, q.head`nextReady, q.waker, inbox, cx
    modifies task`future, task`queued, task`nextReady
    ensures q.Valid() && inbox.Valid() && inbox.data.Some? && q.Serves(cx)
    ensures q.Heard(cx, task.queued)
    ensures q.contents == (if task.queued then old(q.contents) + [task] else old(q.contents))
    ensures task.future.Some?
    ensures var p := PollEntry(old(task.future).value, old(inbox.View()));
      && inbox.View() == p.env
      && task.queued == p.woken
      && (ready <==> p.rest == None)
      && (!ready ==> task.future.value == Entry(old(task.future).value.id, p.rest.value))
  {
    var id := task.future.value.id;
    inbox.polls := inbox.polls + [task.future.value];
    var body, pending := RunBody(task, task.future.value.body, id, q, inbox, cx);
    task.future := Some(Entry(id, body));
    if !pending {
      inbox.completed := inbox.completed + 1;
    }
    return !pending;
  }

  // The node at a place of a list, null outside it.
  ghost function At(s: seq<Task>, i: int): Task? {
    if 0 <= i < |s| then s[i] else null
  }

  // A list without one of its members.
  ghost function Without(s: seq<Task>, t: Task): seq<Task> {
    if s == [] then [] else if s[0] == t then s[1..] else [s[0]] + Without(s[1..], t)
  }

  lemma {:induction false} WithoutAt(s: seq<Task>, t: Task, k: nat)
    requires Distinct(s) && k < |s| && s[k] == t
    ensures Without(s, t) == s[..k] + s[k + 1..]
  {
    if k > 0 {
      WithoutAt(s[1..], t, k - 1);
      assert s[1..][..k - 1] == s[1..k] && s[1..][k..] == s[k + 1..];
      assert [s[0]] + s[1..k] == s[..k];
    }
  }

  lemma {:induction false} WithoutMembers(s: seq<Task>, t: Task)
    requires Distinct(s)
    ensures forall u :: u in Without(s, t) <==> u in s && u != t
  {
    if s != [] && s[0] != t {
      WithoutMembers(s[1..], t);
      var w := Without(s, t);
      assert w[1..] == Without(s[1..], t);
      assert forall u :: u in w <==> u == s[0] || u in w[1..];
    }
    assert s != [] ==> forall u :: u in s <==> u == s[0] || u in s[1..];
  }

  class FuturesUnordered {
    const readyQueue: ReadyToRunQueue
    var headAll: Task?
    var pollCounter: nat
    ghost var all: seq<Task>    // the list of all tasks, from the head
    ghost var tasks: set<Task>  // every task ever pushed

    // The list of all tasks: next and prev are inverse to each other, and the head
    // holds the length; the len_all of the other nodes may be out of date.
    ghost predicate ListOk()
      reads this`headAll, this`all, all`nextAll, all`prevAll, all`lenAll
    {
      && Distinct(all)
      && readyQueue.stub !in all
      && headAll == At(all, 0)
      && (forall i {:trigger all[i].nextAll} :: 0 <= i < |all| ==> all[i].nextAll == At(all, i + 1))
      && (forall i {:trigger all[i].prevAll} :: 0 <= i < |all| ==> all[i].prevAll == At(all, i - 1))
      && (all != [] ==> all[0].lenAll == |all|)
    }

    constructor ()
      ensures Valid() && all == [] && readyQueue.contents == [] && pollCounter == 0
      ensures fresh(readyQueue) && fresh(readyQueue.stub) && fresh(readyQueue.waker) && tasks == {}
    {
      readyQueue := new ReadyToRunQueue();
      headAll, pollCounter, all, tasks := null, 0, [], {};
    }

    // One task: linked with its future present, polled in no later cycle than the present
    // one, and queued exactly if its flag says so; or released, its future gone and its
    // flag set for good, owned by the ready queue as long as it is in there and freed
    // after that.
    ghost predicate Owned(t: Task)
      reads this`all, this`pollCounter, readyQueue`contents, t
    {
      OwnedAs(t, t in readyQueue.contents)
    }

    // ... with the task in the ready queue or not.
    ghost predicate OwnedAs(t: Task, enqueued: bool)
      reads this`all, this`pollCounter, t`future, t`owner, t`queued, t`lastPolled, t`nextAll, t`prevAll
    {
      if t in all then
        t.future.Some? && t.owner == AllList && t.lastPolled <= pollCounter && (t.queued <==> enqueued)
      else
        && t.future == None && t.queued && t.nextAll == readyQueue.stub && t.prevAll == null
        && t.owner == (if enqueued then ReadyQueue else Freed)
    }

    // Every task but those in the caller's hands is owned as it should be.
    ghost predicate OwnedBut(hand: set<Task>)
      reads this`all, this`tasks, this`pollCounter, readyQueue`contents, tasks
    {
      && readyQueue.stub !in tasks
      && (forall t :: t in all ==> t in tasks)
      && (forall t :: t in readyQueue.contents ==> t in tasks)
      && forall t :: t in tasks && t !in hand ==> Owned(t)
    }

    ghost predicate Valid()
      reads this, readyQueue, readyQueue.stub, readyQueue.contents, readyQueue.waker, all, tasks
    {
      readyQueue.Valid() && readyQueue.waker.Idle() && ListOk() && OwnedBut({})
    }

    // Insert a task at the head of the list of all tasks.
    method Link(task: Task)
      requires ListOk() && task !in all && task != readyQueue.stub
      requires task.nextAll == readyQueue.stub && task.prevAll == null && task.owner == Caller
      modifies this`headAll, this`all, task`nextAll, task`lenAll, task`owner, all`prevAll
      ensures ListOk() && all == [task] + old(all) && task.owner == AllList
    {
      ghost var was := all;
      var next := headAll;
      headAll := task;
      var newLen;
      if next == null {
        newLen := 1;
      } else {
        assert was[0].nextAll == At(was, 1) != readyQueue.stub;
        newLen := next.lenAll + 1;
      }
      task.lenAll := newLen;
      task.nextAll := next;
      if next != null {
        next.prevAll := task;
      }
      all := [task] + all;
      task.owner := AllList;
      forall i | 0 <= i < |all|
        ensures all[i].nextAll == At(all, i + 1) && all[i].prevAll == At(all, i - 1)
      {
        if i > 0 {
          assert all[i] == was[i - 1];
          assert was[i - 1].nextAll == At(was, i) && old(was[i - 1].prevAll) == At(was, i - 2);
        }
      }
    }

    // Take a task out of the list of all tasks, and its reference with it.
    method Unlink(task: Task)
      requires ListOk() && task in all
      modifies this`headAll, this`all, task`owner, all`nextAll, all`prevAll, all`lenAll
      ensures ListOk() && all == Without(old(all), task)
      ensures forall t :: t in all <==> t in old(all) && t != task
      ensures task.nextAll == readyQueue.stub && task.prevAll == null && task.owner == Caller
    {
      ghost var k :| 0 <= k < |all| && all[k] == task;
      ghost var was: seq<Task> := all;
      assert task.nextAll == At(was, k + 1) && task.prevAll == At(was, k - 1);
      assert k + 1 < |was| ==> was[k + 1] in was;
      assert k > 0 ==> was[k - 1] in was;
      assert was[0] in was;
      Detach(task);
      ghost var front: seq<Task>, back: seq<Task> := was[..k], was[k + 1..];
      all := front + back;
      WithoutAt(was, task, k);
      WithoutMembers(was, task);
      Bridged(was, k);
    }

    // The pointer writes of `unlink`.
    method Detach(task: Task)
      requires headAll != null && task != task.nextAll && task != task.prevAll
      requires (task.prevAll == null <==> task == headAll) && headAll.lenAll > 0
      modifies this`headAll, task`owner, task`nextAll, task`prevAll, headAll`lenAll
      modifies (if task.nextAll != null then {task.nextAll} else {})`prevAll
      modifies (if task.nextAll != null then {task.nextAll} else {})`lenAll
      modifies (if task.prevAll != null then {task.prevAll} else {})`nextAll
      ensures task.nextAll == readyQueue.stub && task.prevAll == null && task.owner == Caller
      ensures headAll == (if old(task.prevAll) == null then old(task.nextAll) else old(headAll))
      ensures headAll != null ==> headAll.lenAll == old(headAll.lenAll) - 1
      ensures old(task.nextAll) != null ==> old(task.nextAll).prevAll == old(task.prevAll)
      ensures old(task.prevAll) != null ==> old(task.prevAll).nextAll == old(task.nextAll)
    {
      var head := headAll;
      var newLen := head.lenAll - 1;
      var next := task.nextAll;
      var prev := task.prevAll;
      task.nextAll := readyQueue.stub;
      task.prevAll := null;
      if next != null {
        next.prevAll := prev;
      }
      if prev != null {
        prev.nextAll := next;
      } else {
        headAll := next;
      }
      if headAll != null {
        headAll.lenAll := newLen;
      }
      task.owner := Caller;
    }

    // Once its neighbours point past it, what is left of the list is a list again.
    lemma Bridged(was: seq<Task>, k: nat)
      requires Distinct(was) && readyQueue.stub !in was && k < |was| && all == was[..k] + was[k + 1..]
      requires headAll == (if k == 0 then At(was, 1) else was[0])
      requires headAll != null ==> headAll.lenAll == |was| - 1
      requires k + 1 < |was| ==> was[k + 1].prevAll == At(was, k - 1)
      requires k > 0 ==> was[k - 1].nextAll == At(was, k + 1)
      requires forall i {:trigger was[i].nextAll} ::
        0 <= i < |was| && i != k && i != k - 1 ==> was[i].nextAll == At(was, i + 1)
      requires forall i {:trigger was[i].prevAll} ::
        0 <= i < |was| && i != k && i != k + 1 ==> was[i].prevAll == At(was, i - 1)
      ensures ListOk() && was[k] !in all
    {
      forall i | 0 <= i < |all|
        ensures all[i].nextAll == At(all, i + 1) && all[i].prevAll == At(all, i - 1)
      {
        var j := if i < k then i else i + 1;
        assert all[i] == was[j] && was[j] != was[k];
        assert was[j].nextAll == (if j == k - 1 then At(was, k + 1) else At(was, j + 1));
        assert was[j].prevAll == (if j == k + 1 then At(was, k - 1) else At(was, j - 1));
      }
    }

    // The task is in nobody's hands but the caller's.
    ghost predicate InHand(t: Task)
      reads this`all, this`pollCounter, readyQueue`contents, t
    {
      && t !in all && t != readyQueue.stub && t.nextAll == readyQueue.stub && t.prevAll == null && t.owner == Caller
      && t.lastPolled <= pollCounter
    }

    // The future is done or given up: set the flag for good, drop the future, and
    // leave the reference to the ready queue if the flag was set: the task is in there,
    // or another thread has set the flag and is about to put it there.
    method ReleaseTask(task: Task)
      requires readyQueue.Valid() && readyQueue.waker.Idle() && ListOk() && OwnedBut({task})
      requires InHand(task) && task in tasks && (task in readyQueue.contents ==> task.queued)
      modifies task`queued, task`future, task`owner
      ensures readyQueue.Valid() && readyQueue.waker.Idle() && ListOk() && OwnedBut({task})
      ensures task.future == None && task.queued && task.owner == if old(task.queued) then ReadyQueue else Freed
      ensures (old(task.queued) <==> task in readyQueue.contents) ==> Valid()
    {
      var prev := task.queued;
      task.queued := true;
      task.future := None;
      if prev {
        task.owner := ReadyQueue;
      } else {
        task.Drop();
      }
    }

    // `link` for a task in the caller's hands: it is owned by the list again.
    method LinkBack(task: Task)
      requires readyQueue.Valid() && readyQueue.waker.Idle() && ListOk() && OwnedBut({task})
      requires InHand(task) && task in tasks && (task.queued <==> task in readyQueue.contents) && task.future.Some?
      modifies this`headAll, this`all, all`prevAll, task`nextAll, task`lenAll, task`owner
      ensures Valid() && all == [task] + old(all)
    {
      Link(task);
    }

    // `enqueue` for a task that is linked and flagged, but not in the queue yet.
    method EnqueueLinked(task: Task)
      requires readyQueue.Valid() && readyQueue.waker.Idle() && ListOk() && OwnedBut({task})
      requires task in all && task in tasks && task.queued && task.future.Some? && task.owner == AllList
      requires task.lastPolled <= pollCounter
      requires task !in readyQueue.contents
      modifies readyQueue`head, readyQueue`contents, readyQueue.head`nextReady, task`nextReady
      ensures Valid() && readyQueue.contents == old(readyQueue.contents) + [task]
    {
      readyQueue.Enqueue(task);
    }

    // Add a future to the set: linked, queued and not yet polled.
    method Push(entry: Entry) returns (task: Task)
      requires Valid()
      modifies this`headAll, this`all, this`tasks, all`prevAll
      modifies readyQueue`head, readyQueue`contents, readyQueue.head`nextReady
      ensures Valid()
      ensures fresh(task) && all == [task] + old(all) && tasks == old(tasks) + {task}
      ensures readyQueue.contents == old(readyQueue.contents) + [task]
      ensures task.future == Some(entry) && task.lastPolled == 0
    {
      task := new Task(entry, readyQueue.stub);
      LinkNew(task);
      EnqueueLinked(task);
    }

    // `link` for a task that the set has not had before.
    method LinkNew(task: Task)
      requires readyQueue.Valid() && readyQueue.waker.Idle() && ListOk() && OwnedBut({})
      requires InHand(task) && task !in tasks && task !in readyQueue.contents && task.future.Some?
      modifies this`headAll, this`all, this`tasks, all`prevAll, task`nextAll, task`lenAll, task`owner
      ensures readyQueue.Valid() && readyQueue.waker.Idle() && ListOk() && OwnedBut({task})
      ensures all == [task] + old(all) && tasks == old(tasks) + {task} && task.owner == AllList
    {
      Link(task);
      tasks := tasks + {task};
    }

    // Put back a task that was already polled in this cycle.
    method Requeue(task: Task)
      requires readyQueue.Valid() && readyQueue.waker.Idle() && ListOk() && OwnedBut({task})
      requires InHand(task) && task in tasks && !task.queued && task !in readyQueue.contents && task.future.Some?
      modifies this`headAll, this`all, all`prevAll, task`queued, task`nextAll, task`lenAll, task`owner
      modifies readyQueue`head, readyQueue`contents, readyQueue.head`nextReady, task`nextReady
      ensures Valid() && task.queued && all == [task] + old(all)
      ensures readyQueue.contents == old(readyQueue.contents) + [task]
    {
      task.queued := true;
      Link(task);
      EnqueueLinked(task);
    }

    // Poll a task taken out of both lists: `release_task` or `link` must follow.
    method PollUnlinked(task: Task, inbox: Inbox, cx: ThreadNotify) returns (pending: bool, ghost p: Polled)
      requires readyQueue.Valid() && readyQueue.Serves(cx) && OwnedBut({task})
      requires InHand(task) && task in tasks && !task.queued && task !in readyQueue.contents && task.future.Some?
      requires inbox.Valid() && inbox.data.Some?
      modifies task`lastPolled, task`future, task`queued, task`nextReady
      modifies readyQueue`head, readyQueue`contents, readyQueue.head`nextReady, readyQueue.waker, inbox, cx
      ensures readyQueue.Valid() && readyQueue.Serves(cx) && OwnedBut({task}) && inbox.Valid() && inbox.data.Some?
      ensures task.lastPolled == pollCounter && task.future.Some?
      ensures p == PollEntry(old(task.future).value, old(inbox.View()))
      ensures readyQueue.Heard(cx, p.woken)
      ensures inbox.View() == p.env && task.queued == p.woken && (pending <==> p.rest.Some?)
      ensures readyQueue.contents == (if p.woken then old(readyQueue.contents) + [task] else old(readyQueue.contents))
      ensures pending ==> task.future.value == Entry(old(task.future).value.id, p.rest.value)
    {
      ghost var ts: seq<Task> := readyQueue.contents;
      p := PollEntry(task.future.value, inbox.View());
      task.lastPolled := pollCounter;
      assert forall t :: t in tasks && t != task ==> OwnedAs(t, t in ts);
      var ready := PollFuture(task, readyQueue, inbox, cx);
      pending := !ready;
      OwnersAfterWake(task, {task}, ts);
    }

    // After a poll: a pending task is linked again, a finished one is released.
    method Settle(task: Task, pending: bool)
      requires readyQueue.Valid() && readyQueue.waker.Idle() && ListOk() && OwnedBut({task})
      requires InHand(task) && task in tasks && (task.queued <==> task in readyQueue.contents) && task.future.Some?
      modifies this`headAll, this`all, all`prevAll
      modifies task`nextAll, task`lenAll, task`owner, task`queued, task`future
      ensures Valid() && task.future == (if pending then old(task.future) else None)
      ensures all == (if pending then [task] + old(all) else old(all)) && (pending ==> task.queued == old(task.queued))
    {
      if pending {
        LinkBack(task);
      } else {
        ReleaseTask(task);
      }
    }

    // ------------------------------------------------ poll_next, on lists

    static ghost function SlotsOf(ts: seq<Task>): (slots: seq<Slot>)
      reads ts`future, ts`lastPolled
      ensures |slots| == |ts|
      ensures forall i :: 0 <= i < |slots| ==> slots[i] == Slot(ts[i], ts[i].future, ts[i].lastPolled)
    {
      if ts == [] then [] else [Slot(ts[0], ts[0].future, ts[0].lastPolled)] + SlotsOf(ts[1..])
    }

    ghost function Slots(): seq<Slot>
      reads readyQueue`contents, readyQueue.contents`future, readyQueue.contents`lastPolled
    {
      SlotsOf(readyQueue.contents)
    }

    // The linked tasks that nobody has woken.
    ghost function Asleep(): Sleepers
      reads this`all, all`queued, all`future
    {
      SleepersOf(all)
    }

    static ghost function SleepersOf(ts: seq<Task>): Sleepers
      reads ts`queued, ts`future
    {
      map t | t in ts && !t.queued :: t.future
    }

    // These tasks were asleep, and those not excepted still are, with what they had.
    ghost predicate Sleeping(before: Sleepers, but: set<Task>)
      reads this`all, all`queued, all`future
    {
      && (forall t :: t in before ==> t in all)
      && forall t :: t in all && t !in but ==> (t in before <==> !t.queued) && (t in before ==> before[t] == t.future)
    }

    lemma AwakeNow(before: Sleepers, task: Task)
      requires Sleeping(before, {task}) && task.queued
      ensures Asleep() == before - {task}
    {
    }

    ghost function View(initial: Task?, inbox: Inbox): Conf
      requires inbox.data.Some?
      reads this`all, this`pollCounter, all`queued, all`future, inbox
      reads readyQueue`contents, readyQueue.contents`future, readyQueue.contents`lastPolled
    {
      Conf(Slots(), Asleep(), if initial == null then None else Some(initial), pollCounter, inbox.View())
    }

    // A dequeued task whose future is gone: drop the queue's reference.
    method DropReleased(task: Task)
      requires readyQueue.Valid() && readyQueue.waker.Idle() && ListOk() && OwnedBut({task})
      requires task in tasks && task !in all && task !in readyQueue.contents && task.owner == ReadyQueue
      requires task.future == None && task.queued && task.nextAll == readyQueue.stub && task.prevAll == null
      modifies task`owner
      ensures Valid()
    {
      task.Drop();
    }

    // `unlink`, with the list's reference to the task now the caller's.
    method UnlinkOwned(task: Task)
      requires ListOk() && OwnedBut({task}) && task in all && task !in readyQueue.contents
      requires task.lastPolled <= pollCounter
      modifies this`headAll, this`all, task`owner, all`nextAll, all`prevAll, all`lenAll
      ensures ListOk() && OwnedBut({task}) && InHand(task) && task in tasks
      ensures forall t :: t in all <==> t in old(all) && t != task
    {
      Unlink(task);
    }

    // A dequeued live task: unlink it and clear its flag.
    method TakeOut(task: Task)
      requires readyQueue.Valid() && readyQueue.waker.Idle() && ListOk() && OwnedBut({task})
      requires task in all && task.queued && task !in readyQueue.contents
      requires task.lastPolled <= pollCounter
      modifies this`headAll, this`all, task`owner, task`queued, all`nextAll, all`prevAll, all`lenAll
      ensures ListOk() && OwnedBut({task}) && InHand(task) && !task.queued
      ensures Asleep() == old(Asleep()) && task in tasks
      ensures forall t :: t in all ==> t in old(all)
    {
      UnlinkOwned(task);
      var prev := task.queued;
      task.queued := false;
      assert prev;
    }

    // The slots of some tasks, as recorded.
    static ghost predicate Records(slots: seq<Slot>, ts: seq<Task>)
      reads ts`future, ts`lastPolled
    {
      |slots| == |ts| && forall i :: 0 <= i < |ts| ==> slots[i] == Slot(ts[i], ts[i].future, ts[i].lastPolled)
    }

    lemma SlotsFrom(slots: seq<Slot>, ts: seq<Task>, back: seq<Task>)
      requires Records(slots, ts) && readyQueue.contents == ts + back && |back| <= 1
      ensures Slots() == slots + (if back == [] then [] else [Slot(back[0], back[0].future, back[0].lastPolled)])
    {
    }

    lemma AsleepFrom(asleep: Sleepers, was: seq<Task>, task: Task)
      requires all == [task] + was && task !in was
      requires asleep == SleepersOf(was)
      ensures Asleep() == if task.queued then asleep else asleep[task := task.future]
    {
    }

    // Requeue, seen as what it does to the queue and to the sleeping tasks.
    method RequeueRound(task: Task)
      requires readyQueue.Valid() && readyQueue.waker.Idle() && ListOk() && OwnedBut({task})
      requires InHand(task) && task in tasks && !task.queued && task !in readyQueue.contents && task.future.Some?
      modifies this`headAll, this`all, all`prevAll, task`queued, task`nextAll, task`lenAll, task`owner
      modifies readyQueue`head, readyQueue`contents, readyQueue.head`nextReady, task`nextReady
      ensures Valid() && Asleep() == old(Asleep())
      ensures Slots() == old(Slots()) + [Slot(task, task.future, task.lastPolled)]
    {
      ghost var slots, ts, asleep, was := Slots(), readyQueue.contents, Asleep(), all;
      Requeue(task);
      SlotsFrom(slots, ts, [task]);
      AsleepFrom(asleep, was, task);
    }

    // Poll a task taken out of both lists, and settle it.
    method PollTask(task: Task, inbox: Inbox, cx: ThreadNotify) returns (pending: bool, ghost p: Polled)
      requires readyQueue.Valid() && readyQueue.Serves(cx) && ListOk() && OwnedBut({task})
      requires InHand(task) && task in tasks && !task.queued && task !in readyQueue.contents && task.future.Some?
      requires inbox.Valid() && inbox.data.Some?
      modifies this`headAll, this`all, all`prevAll, task
      modifies readyQueue`head, readyQueue`contents, readyQueue.head`nextReady, readyQueue.waker, inbox, cx
      ensures Valid() && readyQueue.Serves(cx) && inbox.Valid() && inbox.data.Some?
      ensures p == PollEntry(old(task.future).value, old(inbox.View()))
      ensures readyQueue.Heard(cx, p.woken)
      ensures inbox.View() == p.env && (pending <==> p.rest.Some?) && (pending ==> task.queued == p.woken)
      ensures all == (if pending then [task] + old(all) else old(all))
      ensures task.future == (if pending then Some(Entry(old(task.future).value.id, p.rest.value)) else None)
      ensures task.lastPolled == pollCounter
      ensures readyQueue.contents == (if p.woken then old(readyQueue.contents) + [task] else old(readyQueue.contents))
    {
      pending, p := PollUnlinked(task, inbox, cx);
      Settle(task, pending);
    }

    // PollTask, seen as what it does to the sleeping tasks ...
    method PollSleepers(task: Task, inbox: Inbox, cx: ThreadNotify) returns (pending: bool, ghost p: Polled)
      requires readyQueue.Valid() && readyQueue.Serves(cx) && ListOk() && OwnedBut({task})
      requires InHand(task) && task in tasks && !task.queued && task !in readyQueue.contents && task.future.Some?
      requires inbox.Valid() && inbox.data.Some?
      modifies this`headAll, this`all, all`prevAll, task
      modifies readyQueue`head, readyQueue`contents, readyQueue.head`nextReady, readyQueue.waker, inbox, cx
      ensures Valid() && readyQueue.Serves(cx) && inbox.Valid() && inbox.data.Some?
      ensures p == PollEntry(old(task.future).value, old(inbox.View()))
      ensures readyQueue.Heard(cx, p.woken) && inbox.View() == p.env && (pending <==> p.rest.Some?)
      ensures task.future == (if pending then Some(Entry(old(task.future).value.id, p.rest.value)) else None)
      ensures task.lastPolled == pollCounter
      ensures readyQueue.contents == old(readyQueue.contents) + (if p.woken then [task] else [])
      ensures Asleep() == (if pending && !p.woken then old(Asleep())[task := task.future] else old(Asleep()))
    {
      ghost var asleep, was: seq<Task> := Asleep(), all;
      pending, p := PollTask(task, inbox, cx);
      assert SleepersOf(was) == asleep;
      if pending {
        AsleepFrom(asleep, was, task);
      }
    }

    // ... and to the queue.
    method PollSlots(task: Task, inbox: Inbox, cx: ThreadNotify) returns (pending: bool, ghost p: Polled)
      requires readyQueue.Valid() && readyQueue.Serves(cx) && ListOk() && OwnedBut({task})
      requires InHand(task) && task in tasks && !task.queued && task !in readyQueue.contents && task.future.Some?
      requires inbox.Valid() && inbox.data.Some?
      modifies this`headAll, this`all, all`prevAll, task
      modifies readyQueue`head, readyQueue`contents, readyQueue.head`nextReady, readyQueue.waker, inbox, cx
      ensures Valid() && readyQueue.Serves(cx) && inbox.Valid() && inbox.data.Some?
      ensures p == PollEntry(old(task.future).value, old(inbox.View()))
      ensures readyQueue.Heard(cx, p.woken) && inbox.View() == p.env && (pending <==> p.rest.Some?)
      ensures task.future == (if pending then Some(Entry(old(task.future).value.id, p.rest.value)) else None)
      ensures Slots() == old(Slots()) + (if p.woken then [Slot(task, task.future, pollCounter)] else [])
      ensures Asleep() == (if pending && !p.woken then old(Asleep())[task := task.future] else old(Asleep()))
    {
      ghost var slots, ts: seq<Task> := Slots(), readyQueue.contents;
      assert Records(slots, ts);
      pending, p := PollSleepers(task, inbox, cx);
      SlotsFrom(slots, ts, if p.woken then [task] else []);
    }

    // PollSlots, as the rest of a round.
    method PollRound(initial: Task?, task: Task, inbox: Inbox, cx: ThreadNotify) returns (initial': Task?)
      requires readyQueue.Valid() && readyQueue.Serves(cx) && ListOk() && OwnedBut({task})
      requires InHand(task) && task in tasks && !task.queued && task !in readyQueue.contents && task.future.Some?
      requires inbox.Valid() && inbox.data.Some?
      modifies this`headAll, this`all, all`prevAll, task
      modifies readyQueue`head, readyQueue`contents, readyQueue.head`nextReady, readyQueue.waker, inbox, cx
      ensures Valid() && readyQueue.Serves(cx) && inbox.Valid() && inbox.data.Some?
      ensures var p := PollEntry(old(task.future).value, old(inbox.View()));
        && View(initial', inbox) == AfterPoll(old(View(initial, inbox)), task, old(task.future).value.id, p)
        && readyQueue.Heard(cx, p.woken)
    {
      ghost var c, id := View(initial, inbox), task.future.value.id;
      var pending;
      ghost var p;
      pending, p := PollSlots(task, inbox, cx);
      initial' := initial;
      if pending && initial == null {
        initial' := task;
      }
      AfterPollIs(c, task, id, p, View(initial', inbox));
    }

    lemma AfterPollIs(c: Conf, key: Task, id: nat, p: Polled, c': Conf)
      requires c'.queue == c.queue +
        (if p.woken then [Slot(key, if p.rest == None then None else Some(Entry(id, p.rest.value)), c.counter)] else [])
      requires c'.asleep ==
        (if p.rest.Some? && !p.woken then c.asleep[key := Some(Entry(id, p.rest.value))] else c.asleep)
      requires c'.initial == (if p.rest.Some? && c.initial == None then Some(key) else c.initial)
      requires c'.counter == c.counter && c'.env == p.env
      ensures c' == AfterPoll(c, key, id, p)
    {
    }

    // The view while `task` is in the caller's hands, just taken from the queue.
    ghost function Before(task: Task, initial: Task?, inbox: Inbox): Conf
      requires inbox.data.Some?
      reads this`all, this`pollCounter, all`queued, all`future, inbox, task`future, task`lastPolled
      reads readyQueue`contents, readyQueue.contents`future, readyQueue.contents`lastPolled
    {
      View(initial, inbox).(queue := [Slot(task, task.future, task.lastPolled)] + Slots())
    }

    // Dequeue, seen from the set.
    method Next() returns (next: Task?)
      requires Valid()
      modifies readyQueue, readyQueue.stub`nextReady, readyQueue.head`nextReady
      ensures readyQueue.Valid() && ListOk()
      ensures if old(readyQueue.contents) == [] then next == null && Valid() && readyQueue.contents == []
        else
          && next == old(readyQueue.contents)[0] && readyQueue.contents == old(readyQueue.contents)[1..]
          && OwnedBut({next}) && next in tasks && next.queued && next !in readyQueue.contents
          && (next.future.Some? <==> next in all)
          && (next !in all ==> next.owner == ReadyQueue && next.nextAll == readyQueue.stub && next.prevAll == null)
          && (next in all ==> next.lastPolled <= pollCounter)
    {
      var r := readyQueue.Dequeue();
      match r
      case Empty => next := null;
      case Inconsistent => assert false;
      case Data(task) => next := task;
    }

    // Next, seen as what it does to the queue.
    method NextSlot() returns (next: Task?)
      requires Valid()
      modifies readyQueue, readyQueue.stub`nextReady, readyQueue.head`nextReady
      ensures readyQueue.Valid() && ListOk()
      ensures if old(readyQueue.contents) == [] then next == null && Valid() && readyQueue.contents == []
        else
          && next != null && OwnedBut({next}) && next in tasks && next.queued && next !in readyQueue.contents
          && [Slot(next, next.future, next.lastPolled)] + Slots() == old(Slots())
          && (next.future.Some? <==> next in all)
          && (next !in all ==> next.owner == ReadyQueue && next.nextAll == readyQueue.stub && next.prevAll == null)
          && (next in all ==> next.lastPolled <= pollCounter)
    {
      ghost var slots, ts: seq<Task> := Slots(), readyQueue.contents;
      next := Next();
      assert SlotsOf(ts) == slots;
    }

    // With an empty ready queue, every linked task is asleep.
    lemma NothingQueued(initial: Task?, inbox: Inbox)
      requires OwnedBut({}) && ListOk() && readyQueue.contents == [] && inbox.data.Some?
      ensures var c := View(initial, inbox); Step(c) == Done(c, headAll == null) && !Wakes(c)
    {
      if headAll != null {
        assert all[0] in all && Owned(all[0]);
        assert all[0] in Asleep();
      }
    }

    // A round for a task that was already polled in this cycle, once taken out.
    method PutBack(initial: Task?, task: Task, inbox: Inbox, cx: ThreadNotify) returns (initial': Task?, stop: bool)
      requires readyQueue.Valid() && readyQueue.Serves(cx) && ListOk() && OwnedBut({task})
      requires InHand(task) && task in tasks && !task.queued && task !in readyQueue.contents && task.future.Some?
      requires inbox.data.Some? && task.lastPolled >= pollCounter
      modifies this`headAll, this`all, all`prevAll, task`queued, task`nextAll, task`lenAll, task`owner
      modifies readyQueue`head, readyQueue`contents, readyQueue.head`nextReady, task`nextReady
      ensures Valid() && readyQueue.Serves(cx)
      ensures Step(old(Before(task, initial, inbox)))
        == if stop then Done(View(initial', inbox), false) else More(View(initial', inbox))
      ensures !old(Wakes(Before(task, initial, inbox)))
    {
      ghost var c := Before(task, initial, inbox);
      RequeueRound(task);
      assert c.queue[1..] + [c.queue[0]] == Slots();
      initial', stop := initial, initial == task;
      if initial == null {
        initial' := task;
      }
    }

    // A round for a live task, once taken out.
    method Treat(initial: Task?, task: Task, inbox: Inbox, cx: ThreadNotify) returns (initial': Task?, stop: bool)
      requires readyQueue.Valid() && readyQueue.Serves(cx) && ListOk() && OwnedBut({task})
      requires InHand(task) && task in tasks && !task.queued && task !in readyQueue.contents && task.future.Some?
      requires inbox.Valid() && inbox.data.Some?
      modifies this`headAll, this`all, all`prevAll, task
      modifies readyQueue`head, readyQueue`contents, readyQueue.head`nextReady, readyQueue.waker, inbox, cx
      ensures Valid() && readyQueue.Serves(cx) && inbox.Valid() && inbox.data.Some?
      ensures Step(old(Before(task, initial, inbox)))
        == if stop then Done(View(initial', inbox), false) else More(View(initial', inbox))
      ensures readyQueue.Heard(cx, old(Wakes(Before(task, initial, inbox))))
    {
      stop := false;
      if task.lastPolled >= pollCounter {
        initial', stop := PutBack(initial, task, inbox, cx);
      } else {
        initial' := PollOut(initial, task, inbox, cx);
      }
    }

    // A round for a task not yet polled in this cycle, once taken out.
    method PollOut(initial: Task?, task: Task, inbox: Inbox, cx: ThreadNotify) returns (initial': Task?)
      requires readyQueue.Valid() && readyQueue.Serves(cx) && ListOk() && OwnedBut({task})
      requires InHand(task) && task in tasks && !task.queued && task !in readyQueue.contents && task.future.Some?
      requires inbox.Valid() && inbox.data.Some? && task.lastPolled < pollCounter
      modifies this`headAll, this`all, all`prevAll, task
      modifies readyQueue`head, readyQueue`contents, readyQueue.head`nextReady, readyQueue.waker, inbox, cx
      ensures Valid() && readyQueue.Serves(cx) && inbox.Valid() && inbox.data.Some?
      ensures Step(old(Before(task, initial, inbox))) == More(View(initial', inbox))
      ensures readyQueue.Heard(cx, old(Wakes(Before(task, initial, inbox))))
    {
      assert Before(task, initial, inbox).queue[1..] == Slots();
      initial' := PollRound(initial, task, inbox, cx);
    }

    // TakeOut, seen as no change at all.
    method TakeOutRound(ghost initial: Task?, task: Task, ghost inbox: Inbox)
      requires readyQueue.Valid() && readyQueue.waker.Idle() && ListOk() && OwnedBut({task}) && inbox.data.Some?
      requires task in all && task.queued && task !in readyQueue.contents
      requires task.lastPolled <= pollCounter
      modifies this`headAll, this`all, task`owner, task`queued, all`nextAll, all`prevAll, all`lenAll
      ensures ListOk() && OwnedBut({task}) && InHand(task) && !task.queued && task in tasks
      ensures Before(task, initial, inbox) == old(Before(task, initial, inbox))
      ensures forall t :: t in all ==> t in old(all)
    {
      TakeOut(task);
    }

    // A round for a live task just dequeued.
    method Handle(initial: Task?, task: Task, inbox: Inbox, cx: ThreadNotify) returns (initial': Task?, stop: bool)
      requires readyQueue.Valid() && readyQueue.Serves(cx) && ListOk() && OwnedBut({task})
      requires task in all && task in tasks && task.queued && task !in readyQueue.contents && task.future.Some?
      requires task.lastPolled <= pollCounter
      requires inbox.Valid() && inbox.data.Some?
      modifies this`headAll, this`all, all, readyQueue`head, readyQueue`contents, readyQueue.head`nextReady
      modifies readyQueue.waker, inbox, cx
      ensures Valid() && readyQueue.Serves(cx) && inbox.Valid() && inbox.data.Some?
      ensures Step(old(Before(task, initial, inbox)))
        == if stop then Done(View(initial', inbox), false) else More(View(initial', inbox))
      ensures readyQueue.Heard(cx, old(Wakes(Before(task, initial, inbox))))
    {
      ghost var was: seq<Task>, valid, serves := all, readyQueue.Valid(), readyQueue.Serves(cx);
      TakeOutRound(initial, task, inbox);
      assert readyQueue.Valid() == valid && readyQueue.Serves(cx) == serves;
      assert forall i :: 0 <= i < |all| ==> all[i] in was;
      initial', stop := Treat(initial, task, inbox, cx);
    }

    // A round for a task just dequeued: it is released, or live.
    method Dispatch(initial: Task?, task: Task, inbox: Inbox, cx: ThreadNotify) returns (initial': Task?, stop: bool)
      requires readyQueue.Valid() && readyQueue.Serves(cx) && ListOk() && OwnedBut({task})
      requires task in tasks && task.queued && task !in readyQueue.contents && (task.future.Some? <==> task in all)
      requires task !in all ==> task.owner == ReadyQueue && task.nextAll == readyQueue.stub && task.prevAll == null
      requires task in all ==> task.lastPolled <= pollCounter
      requires inbox.Valid() && inbox.data.Some?
      modifies this`headAll, this`all, all, task`owner, readyQueue`head, readyQueue`contents, readyQueue.head`nextReady
      modifies readyQueue.waker, inbox, cx
      ensures Valid() && readyQueue.Serves(cx) && inbox.Valid() && inbox.data.Some?
      ensures Step(old(Before(task, initial, inbox)))
        == if stop then Done(View(initial', inbox), false) else More(View(initial', inbox))
      ensures readyQueue.Heard(cx, old(Wakes(Before(task, initial, inbox))))
    {
      if task.future == None {
        assert Before(task, initial, inbox).queue[1..] == Slots();
        DropReleased(task);
        initial', stop := initial, false;
      } else {
        initial', stop := Handle(initial, task, inbox, cx);
      }
    }

    // One round of poll_next's loop; `stop` when it returns, with `ready`.
    method Round(initial: Task?, inbox: Inbox, cx: ThreadNotify) returns (initial': Task?, stop: bool, ready: bool)
      requires Valid() && readyQueue.Serves(cx) && inbox.Valid() && inbox.data.Some?
      modifies this`headAll, this`all, tasks, readyQueue, readyQueue.stub`nextReady, readyQueue.waker, inbox, cx
      ensures Valid() && readyQueue.Serves(cx) && inbox.Valid() && inbox.data.Some?
      ensures Step(old(View(initial, inbox)))
        == if stop then Done(View(initial', inbox), ready) else More(View(initial', inbox))
      ensures readyQueue.Heard(cx, old(Wakes(View(initial, inbox))))
    {
      ghost var c := View(initial, inbox);
      var task := NextSlot();
      if task == null {
        NothingQueued(initial, inbox);
        assert View(initial, inbox) == c;
        initial', stop, ready := initial, true, headAll == null;
      } else {
        assert Before(task, initial, inbox) == c;
        initial', stop := Dispatch(initial, task, inbox, cx);
        ready := false;
      }
    }

    // Registering a waker changes nothing else.
    method StartCycle(inbox: Inbox, cx: ThreadNotify)
      requires Valid() && inbox.data.Some?
      modifies readyQueue.waker, cx
      ensures Valid() && readyQueue.waker.waker == Some(cx) && View(null, inbox) == old(View(null, inbox))
      ensures cx.Told(false)
    {
      readyQueue.waker.Register(cx);
    }

    // Round, as a step of the loop that began at c0.
    method NextRound(ghost c0: Conf, initial: Task?, inbox: Inbox, cx: ThreadNotify)
        returns (initial': Task?, stop: bool, ready: bool)
      requires Valid() && readyQueue.Serves(cx) && inbox.Valid() && inbox.data.Some?
      requires Underway(c0, View(initial, inbox))
      modifies this`headAll, this`all, tasks, readyQueue, readyQueue.stub`nextReady, readyQueue.waker, inbox, cx
      ensures Valid() && readyQueue.Serves(cx) && inbox.Valid() && inbox.data.Some?
      ensures readyQueue.Heard(cx, old(Wakes(View(initial, inbox))))
      ensures Wakings(inbox.polls) == old(Wakings(inbox.polls)) + (if old(Wakes(View(initial, inbox))) then 1 else 0)
      ensures stop ==> (View(initial', inbox), ready) == Finish(c0)
      ensures !stop ==> var c, c' := old(View(initial, inbox)), View(initial', inbox);
        && Underway(c0, c')
        && (ToHandle(c') < ToHandle(c) || (ToHandle(c') == ToHandle(c) && ToWalk(c') < ToWalk(c)))
    {
      ghost var c := View(initial, inbox);
      initial', stop, ready := Round(initial, inbox, cx);
      UnderwayRound(c0, c);
      RoundWakings(c);
    }

    // Since it was `was`, cx has been woken if a task polled has called its waker, and is
    // as it was if none has; and it is registered, or has been woken since it was.
    predicate Heeds(cx: ThreadNotify, was: Notice, woken: bool)
      reads readyQueue.waker, cx
    {
      readyQueue.Serves(cx) && cx.State() == if woken then was.Woken() else was
    }

    // The loop of poll_next.
    method Rounds(inbox: Inbox, cx: ThreadNotify) returns (ready: bool)
      requires Valid() && inbox.Valid() && inbox.data.Some? && readyQueue.waker.waker == Some(cx)
      requires Inv(View(null, inbox)) && Stops(View(null, inbox))
      modifies this`headAll, this`all, tasks, readyQueue, readyQueue.stub`nextReady, readyQueue.waker, inbox, cx
      ensures Valid() && inbox.Valid() && inbox.data.Some?
      ensures var (c, r) := Finish(old(View(null, inbox)));
        View(null, inbox) == c.(initial := None) && ready == r
      ensures Wakings(inbox.polls) >= old(Wakings(inbox.polls))
      ensures Heeds(cx, old(cx.State()), Wakings(inbox.polls) > old(Wakings(inbox.polls)))
      ensures readyQueue.waker.waker == if Wakings(inbox.polls) > old(Wakings(inbox.polls)) then None else Some(cx)
    {
      ghost var c0 := View(null, inbox);
      var initial: Task? := null;
      var stop := false;
      ready := false;
      while !stop
        invariant Valid() && inbox.Valid() && inbox.data.Some? && Wakings(inbox.polls) >= old(Wakings(inbox.polls))
        invariant Heeds(cx, old(cx.State()), Wakings(inbox.polls) > old(Wakings(inbox.polls)))
        invariant if stop then (View(initial, inbox), ready) == Finish(c0) else Underway(c0, View(initial, inbox))
        invariant readyQueue.waker.waker == if Wakings(inbox.polls) > old(Wakings(inbox.polls)) then None else Some(cx)
        decreases !stop, ToHandle(View(initial, inbox)), ToWalk(View(initial, inbox))
      {
        initial, stop, ready := NextRound(c0, initial, inbox, cx);
      }
    }

    // poll_next.  It returns if and only if Stops holds (PollCycle.StopsExactly).  If a
    // task polled in it has called its waker, that has used up the registered one and
    // woken cx; if none has, cx is as it was and stays registered.
    method PollNext(inbox: Inbox, cx: ThreadNotify) returns (ready: bool)
      requires Valid() && inbox.Valid() && inbox.data.Some?
      requires Inv(View(null, inbox)) && Stops(View(null, inbox))
      modifies this`headAll, this`all, tasks, readyQueue, readyQueue.stub`nextReady, readyQueue.waker, inbox, cx
      ensures Valid() && inbox.Valid() && inbox.data.Some?
      ensures var (c, r) := Finish(old(View(null, inbox)));
        View(null, inbox) == c.(initial := None) && ready == r
      ensures Wakings(inbox.polls) >= old(Wakings(inbox.polls))
      ensures Heeds(cx, old(cx.State()), Wakings(inbox.polls) > old(Wakings(inbox.polls)))
      ensures readyQueue.waker.waker == if Wakings(inbox.polls) > old(Wakings(inbox.polls)) then None else Some(cx)
    {
      StartCycle(inbox, cx);
      ready := Rounds(inbox, cx);
    }

    method IncrementCounter() returns (counter: nat)
      requires Valid()
      modifies this`pollCounter
      ensures Valid() && Slots() == old(Slots()) && Asleep() == old(Asleep())
      ensures pollCounter == old(pollCounter) + 1 && counter == pollCounter
    {
      pollCounter := pollCounter + 1;
      counter := pollCounter;
    }

    lemma KeysDistinct()
      requires readyQueue.Valid()
      ensures DistinctKeys(Slots())
    {
    }

    // No task is both asleep and in the ready queue.
    lemma SleepersApart()
      requires Valid()
      ensures forall i :: 0 <= i < |Slots()| ==> Slots()[i].key !in Asleep()
    {
      forall i | 0 <= i < |Slots()| ensures Slots()[i].key !in Asleep() {
        assert readyQueue.contents[i] in readyQueue.contents && Owned(readyQueue.contents[i]);
      }
    }

    static ghost function Keys(q: seq<Slot>): (ts: seq<Task>)
      ensures |ts| == |q| && forall i :: 0 <= i < |q| ==> ts[i] == q[i].key
    {
      seq(|q|, i requires 0 <= i < |q| => q[i].key)
    }

    // When no linked task is asleep, the live part of the ready queue holds all
    // linked tasks.
    lemma LiveIsLinked()
      requires Valid() && Asleep() == map[]
      ensures |Live(Slots())| == |all|
    {
      var live := Live(Slots());
      LiveMembers(Slots());
      KeysDistinct();
      LiveDistinct(Slots());
      forall t ensures t in Keys(live) <==> t in all {
        if t in all {
          assert Owned(t) && t !in Asleep();
          var i :| 0 <= i < |readyQueue.contents| && readyQueue.contents[i] == t;
          assert Slots()[i] in live;
          var j :| 0 <= j < |live| && live[j] == Slots()[i];
          assert Keys(live)[j] == t;
        }
        if t in Keys(live) {
          var j :| 0 <= j < |live| && live[j].key == t;
          assert live[j] in Slots();
          assert t in readyQueue.contents && t.future.Some? && Owned(t);
        }
      }
      DistinctLength(Keys(live), all);
    }

    static lemma {:induction false} LiveMembers(q: seq<Slot>)
      ensures forall j :: 0 <= j < |Live(q)| ==> Live(q)[j] in q && Live(q)[j].future.Some?
      ensures forall i :: 0 <= i < |q| && q[i].future.Some? ==> q[i] in Live(q)
    {
      if q != [] {
        LiveMembers(q[1..]);
        var h: seq<Slot> := if q[0].future == None then [] else [q[0]];
        assert Live(q) == h + Live(q[1..]);
        forall j | 0 <= j < |Live(q)| ensures Live(q)[j] in q && Live(q)[j].future.Some? {
          if j >= |h| {
            assert Live(q)[j] == Live(q[1..])[j - |h|];
          }
        }
      }
    }

    static lemma {:induction false} LiveDistinct(q: seq<Slot>)
      requires DistinctKeys(q)
      ensures DistinctKeys(Live(q))
    {
      if q != [] {
        LiveDistinct(q[1..]);
        LiveMembers(q[1..]);
        var rest := Live(q[1..]);
        forall j | 0 <= j < |rest| ensures rest[j].key != q[0].key {
          var i :| 0 <= i < |q[1..]| && q[1..][i] == rest[j];
          assert q[i + 1] == rest[j];
        }
      }
    }

    // ----------------------------------------------- len, wakes, clearing

    // atomic_load_head_and_len_all, with nobody inserting.
    method LoadHeadAndLen() returns (head: Task?, len: nat)
      requires Valid()
      ensures head == At(all, 0) && len == |all|
    {
      head, len := headAll, 0;
      if head != null {
        assert all[0].nextAll == At(all, 1);
        assert head.nextAll != readyQueue.stub;  // spin_next_all returns at once
        len := head.lenAll;
      }
    }

    method Len() returns (len: nat)
      requires Valid()
      ensures len == |all|
    {
      var _, n := LoadHeadAndLen();
      len := n;
    }

    method IsEmpty() returns (empty: bool)
      requires Valid()
      ensures empty <==> all == []
    {
      empty := headAll == null;
    }

    // A waker that somebody kept, used between two calls or, with the tasks of `hand` in
    // poll_next's hands, during one: whatever has become of the task, waking it is safe.
    // A task in the list, or in hand, is put in the ready queue, and the registered thread
    // woken, exactly if the task is not flagged yet; a released one is not.
    method WakeRetained(task: Task, ghost hand: set<Task>)
      requires readyQueue.Valid() && readyQueue.waker.Idle() && ListOk() && OwnedBut(hand) && task in tasks
      requires task in hand && !task.queued ==> task !in readyQueue.contents
      modifies readyQueue`head, readyQueue`contents, task`queued, task`nextReady, readyQueue.head`nextReady
      modifies readyQueue.waker, if readyQueue.waker.waker.Some? then {readyQueue.waker.waker.value} else {}
      ensures readyQueue.Valid() && readyQueue.waker.Idle() && ListOk() && OwnedBut(hand) && task.queued
      ensures readyQueue.contents == old(readyQueue.contents) + (if old(task.queued) then [] else [task])
      ensures task !in hand ==> (old(task.queued) <==> task !in all || task in old(readyQueue.contents))
      ensures readyQueue.waker.waker == if old(task.queued) then old(readyQueue.waker.waker) else None
      ensures old(readyQueue.waker.waker).Some? ==> old(readyQueue.waker.waker).value.Told(!old(task.queued))
    {
      assert task !in hand ==> Owned(task);
      var prev := FlagKnown(task, hand);
      if !prev {
        readyQueue.waker.Wake();
      }
    }

    method FlagKnown(task: Task, ghost hand: set<Task>) returns (prev: bool)
      requires readyQueue.Valid() && ListOk() && OwnedBut(hand) && task in tasks
      requires !task.queued ==> task !in readyQueue.contents && (task in hand || task in all)
      modifies readyQueue`head, readyQueue`contents, task`queued, task`nextReady, readyQueue.head`nextReady
      ensures readyQueue.Valid() && ListOk() && OwnedBut(hand) && task.queued && prev == old(task.queued)
      ensures readyQueue.contents == old(readyQueue.contents) + (if prev then [] else [task])
    {
      ghost var ts: seq<Task> := readyQueue.contents;
      assert forall t :: t in tasks && t !in hand ==> OwnedAs(t, t in ts);
      prev := readyQueue.FlagTask(task);
      OwnersAfterWake(task, hand, ts);
    }

    lemma OwnersAfterWake(task: Task, hand: set<Task>, ts: seq<Task>)
      requires readyQueue.stub !in tasks && (forall t :: t in all ==> t in tasks) && forall t :: t in ts ==> t in tasks
      requires task in tasks && (readyQueue.contents == ts || readyQueue.contents == ts + [task])
      requires forall t :: t in tasks && t !in hand && t != task ==> OwnedAs(t, t in ts)
      requires task in hand || OwnedAs(task, task in readyQueue.contents)
      ensures OwnedBut(hand)
    {
    }

    // WakeRetained between two calls: a sleeper is awake after it, ...
    method RouseSleeper(task: Task)
      requires Valid() && task in tasks
      modifies readyQueue`head, readyQueue`contents, task`queued, task`nextReady, readyQueue.head`nextReady
      modifies readyQueue.waker, if readyQueue.waker.waker.Some? then {readyQueue.waker.waker.value} else {}
      ensures Valid() && Asleep() == old(Asleep()) - {task}
      ensures task in old(Asleep()) ==>
        task.future.Some? && old(Asleep())[task] == task.future && task.lastPolled <= pollCounter
      ensures readyQueue.contents == old(readyQueue.contents) + (if task in old(Asleep()) then [task] else [])
      ensures readyQueue.waker.waker == if task in old(Asleep()) then None else old(readyQueue.waker.waker)
      ensures old(readyQueue.waker.waker).Some? ==> old(readyQueue.waker.waker).value.Told(task in old(Asleep()))
    {
      ghost var before: Sleepers := Asleep();
      assert Owned(task) && (task in before <==> !task.queued);
      assert Sleeping(before, {});
      WakeRetained(task, {});
      assert Sleeping(before, {task});
      AwakeNow(before, task);
    }

    // ... with its slot at the tail; and nothing happens if the task is no sleeper.
    method Rouse(task: Task)
      requires Valid() && task in tasks
      modifies readyQueue`head, readyQueue`contents, task`queued, task`nextReady, readyQueue.head`nextReady
      modifies readyQueue.waker, if readyQueue.waker.waker.Some? then {readyQueue.waker.waker.value} else {}
      ensures Valid() && Asleep() == old(Asleep()) - {task}
      ensures task in old(Asleep()) ==>
        task.future.Some? && old(Asleep())[task] == task.future && task.lastPolled <= pollCounter
      ensures Slots() == old(Slots()) +
        (if task in old(Asleep()) then [Slot(task, task.future, task.lastPolled)] else [])
      ensures readyQueue.waker.waker == if task in old(Asleep()) then None else old(readyQueue.waker.waker)
      ensures old(readyQueue.waker.waker).Some? ==> old(readyQueue.waker.waker).value.Told(task in old(Asleep()))
    {
      ghost var slots, ts: seq<Task>, asleep := Slots(), readyQueue.contents, task in Asleep();
      RouseSleeper(task);
      SlotsFrom(slots, ts, if asleep then [task] else []);
    }

    method ReleaseHead()
      requires Valid() && headAll != null
      modifies this`headAll, this`all, all
      ensures Valid() && all == old(all)[1..]
    {
      var task := headAll;
      Unlink(task);
      ReleaseTask(task);
    }

    // Give up every future.  What is still in the ready queue is owned by it now,
    // the rest is freed.
    method ClearHeadAll()
      requires Valid()
      modifies this`headAll, this`all, all
      ensures Valid() && all == []
    {
      ghost var was: seq<Task> := all;
      while headAll != null
        invariant Valid()
        invariant |all| <= |was| && all == was[|was| - |all|..]
        decreases |all|
      {
        ReleaseHead();
      }
    }

    // The ready queue's `clear`, when every future is gone.
    method ClearReady()
      requires Valid() && all == []
      modifies readyQueue, readyQueue.stub`nextReady, readyQueue.contents`nextReady, readyQueue.contents`owner
      ensures Valid() && readyQueue.contents == []
      ensures forall t :: t in tasks ==> t.future == None && t.owner == Freed
    {
      assert forall t :: t in readyQueue.contents ==> Owned(t);
      readyQueue.Clear();
    }

    // clear: nothing is left, and every task ever pushed has been freed.
    method Clear()
      requires Valid()
      modifies this`headAll, this`all, all, readyQueue, readyQueue.stub`nextReady
      modifies readyQueue.contents`nextReady, readyQueue.contents`owner
      ensures Valid() && all == [] && readyQueue.contents == []
      ensures forall t :: t in tasks ==> t.future == None && t.owner == Freed
    {
      ClearHeadAll();
      ClearReady();
    }

    // Drop: the set gives up every future; wakers that others kept may still be used;
    // at last the ready queue is dropped.  Every task ever pushed has been freed.
    method Drop(woken: seq<Task>)
      requires Valid() && forall t :: t in woken ==> t in tasks
      modifies this`headAll, this`all, tasks, readyQueue, readyQueue.stub`nextReady, readyQueue.waker
      modifies if readyQueue.waker.waker.Some? then {readyQueue.waker.waker.value} else {}
      ensures Valid() && all == [] && readyQueue.contents == []
      ensures forall t :: t in tasks ==> t.future == None && t.owner == Freed
    {
      ClearHeadAll();
      for i := 0 to |woken|
        invariant Valid() && all == []
        invariant readyQueue.waker.waker == None || readyQueue.waker.waker == old(readyQueue.waker.waker)
      {
        WakeRetained(woken[i], {});
      }
      ClearReady();
    }

    // Another future in the place of a linked task's, through an iterator.
    method SetFuture(task: Task, entry: Entry) returns (ghost j: nat)
      requires Valid() && task in all
      modifies task`future
      ensures Valid() && task.future == Some(entry)
      ensures Asleep() == if task.queued then old(Asleep()) else old(Asleep())[task := Some(entry)]
      ensures task in readyQueue.contents ==>
        && j < |old(Slots())| && old(Slots())[j].future == old(task.future) && task.future.Some?
        && Slots() == old(Slots())[j := old(Slots())[j].(future := Some(entry))]
      ensures task !in readyQueue.contents ==> Slots() == old(Slots())
    {
      j := 0;
      assert Owned(task);
      if task in readyQueue.contents {
        j :| 0 <= j < |readyQueue.contents| && readyQueue.contents[j] == task;
      }
      task.future := Some(entry);
      assert Owned(task);
    }

    // Push, seen as what it does to the queue.
    method PushSlot(entry: Entry) returns (task: Task)
      requires Valid()
      modifies this`headAll, this`all, this`tasks, tasks`prevAll, tasks`nextReady
      modifies readyQueue`head, readyQueue`contents, readyQueue.stub`nextReady
      ensures Valid() && forall t :: t in tasks ==> t in old(tasks) || fresh(t)
      ensures Slots() == old(Slots()) + [Slot(task, Some(entry), 0)] && Asleep() == old(Asleep())
    {
      ghost var slots, ts: seq<Task>, asleep, was: seq<Task> := Slots(), readyQueue.contents, Asleep(), all;
      task := Push(entry);
      SlotsFrom(slots, ts, [task]);
      AsleepFrom(asleep, was, task);
    }
  }
}
