// The window in which poll_next puts back a task it has already polled: what a wake
// in it would do, and runs that lead there (src/futures/futures_unordered.rs).
module RequeueWindow {
  import opened Wrappers
  import opened NoLostWakeup

  // Why the requeue must be one action: poll_next clears the flag, sets it again
  // without looking at the old value, and enqueues.  Whenever it dequeues a task
  // it has already polled, a wake of that task that falls between the two writes
  // starts an enqueue, and the executor's own enqueue then finds it still inside.
  lemma RequeueWindowMustBeAtomic(s: State, n: Node, t: Thread)
    requires Reachable(s) && s.exec.Dequeuing? && s.queue.consumer != Q.Idle
    requires Q.ResultOf(s.queue, Q.Consume) == Some(Q.Data(n)) && n in s.live && n in s.polled
    requires t != EXEC && t !in s.wakers && t !in s.waker.threads
    ensures var cleared := s.(queue := Q.Do(s.queue, Q.Consume), queued := s.queued - {n});
      && Enabled(cleared, Wake(t, n))
      && var raced := Do(cleared, Wake(t, n));
         n in raced.queued && !raced.misuse && BeginEnqueue(raced, n).misuse
  {
    ReachableInv(s);
    Q.ConsumeEffect(s.queue);
  }

  // The queue holds task 1 behind the stub, and nobody is at work on it.
  predicate HoldsOne(q: Q.State) {
    q.next == map[Q.STUB := 1] && q.tail == Q.STUB && q.head == 1 && q.chain == [Q.STUB, 1]
    && q.consumer == Q.Idle && q.inflight == map[]
  }

  // The next access of the consumer hands out task 1 and leaves the stub.
  predicate HandsOutOne(q: Q.State) {
    q.next == map[1 := Q.STUB] && q.tail == 1 && q.head == Q.STUB && q.chain == [1, Q.STUB]
    && q.consumer == Q.Recheck && q.inflight == map[]
  }

  lemma ConsumeStep(s: State) returns (s': State)
    requires Reachable(s) && s.exec.Dequeuing? && s.queue.consumer != Q.Idle
    requires Q.ResultOf(s.queue, Q.Consume) == None
    ensures Reachable(s') && s' == s.(queue := Q.ConsumerStep(s.queue).0)
  {
    ReachableStep(s, ExecStep);
    s' := Do(s, ExecStep);
  }

  lemma UpToHandOut(s: State) returns (s': State)
    requires Reachable(s) && s.exec.Dequeuing? && HoldsOne(s.queue)
    ensures Reachable(s') && s' == s.(queue := s'.queue) && HandsOutOne(s'.queue)
  {
    ReachableStep(s, ExecStep);
    var s1 := Do(s, ExecStep);
    assert s1 == s.(queue := s1.queue) && s1.queue.consumer == Q.ReadTail;
    var s2 := ConsumeStep(s1);
    assert s2.queue.consumer == Q.ReadAgain && s2.queue.tail == 1 && s2.queue.chain == [1];
    var s3 := ConsumeStep(s2);
    assert s3.queue.consumer == Q.ReadHead;
    var s4 := ConsumeStep(s3);
    assert s4.queue.consumer == Q.ClearStub;
    var s5 := ConsumeStep(s4);
    assert s5.queue.consumer == Q.SwapStub && s5.queue.next == map[];
    var s6 := ConsumeStep(s5);
    assert s6.queue.consumer == Q.LinkStub(1) && s6.queue.chain == [1, Q.STUB];
    s' := ConsumeStep(s6);
  }

  // The accesses of an enqueue of task 1 into an empty queue.
  lemma EnqueueOne(q: Q.State)
    requires q.chain == [Q.STUB] && q.head == Q.STUB == q.tail && q.consumer == Q.Idle
    requires q.next - {1} == map[] && q.inflight == map[1 := Q.Begun]
    ensures var q1 := EnqueueStep(q, 1);
            var q2 := EnqueueStep(q1, 1);
      1 in q1.inflight && 1 in q2.inflight && HoldsOne(EnqueueStep(q2, 1))
  {
    var q1 := EnqueueStep(q, 1);
    var q2 := EnqueueStep(q1, 1);
    assert q2.inflight == map[1 := Q.Swapped(Q.STUB)] && q2.chain == [Q.STUB, 1];
    assert EnqueueStep(q2, 1).inflight == map[] && EnqueueStep(q2, 1).next == map[Q.STUB := 1];
  }

  // Task 1 is pushed between two calls.
  lemma OnePushed() returns (s: State)
    ensures Reachable(s) && HoldsOne(s.queue)
    ensures s == INITIAL.(queue := s.queue, created := {1}, live := {1}, queued := {1})
  {
    assert Reachable(INITIAL) by {
      assert Allowed(INITIAL, []) && After(INITIAL, []) == INITIAL;
    }
    ReachableStep(INITIAL, Push(1));
    s := Do(INITIAL, Push(1));
    assert s.queue.inflight == map[1 := Q.Begun] && s.queue.next - {1} == map[];
    EnqueueOne(s.queue);
    s := PushAccess(s);
    s := PushAccess(s);
    s := PushAccess(s);
  }

  lemma PushAccess(s: State) returns (s': State)
    requires Reachable(s) && s.exec == PushEnq(1, true)
    ensures Reachable(s') && s'.queue == EnqueueStep(s.queue, 1)
    ensures s' == s.(queue := s'.queue, exec := if 1 in s'.queue.inflight then s.exec else Outside)
  {
    ReachableStep(s, ExecStep);
    s' := Do(s, ExecStep);
  }

  // The next call ...
  lemma CallBegins(s: State) returns (s': State)
    requires Reachable(s) && s.exec == Outside && s.waker == W.INITIAL
    ensures Reachable(s') && s' == s.(exec := Registering, polled := {}, cycleEpoch := 1, waker := s'.waker)
    ensures s'.waker == W.INITIAL.(threads := map[EXEC := W.RegAcquire(EXEC)])
  {
    ReachableStep(s, NextCall);
    var s1 := Do(s, NextCall);
    ReachableStep(s1, ExecStep);
    var s2 := Do(s1, ExecStep);
    ReachableStep(s2, ExecStep);
    s' := Do(s2, ExecStep);
  }

  // ... registers its waker and comes to the loop.
  lemma CallRegisters(s: State) returns (s': State)
    requires Reachable(s) && s.exec == Registering
    requires s.waker == W.INITIAL.(threads := map[EXEC := W.RegAcquire(EXEC)])
    ensures Reachable(s') && s' == s.(exec := Dequeuing(None), waker := s'.waker) && s'.waker.threads == map[]
  {
    var w1 := W.Do(s.waker, W.Step(EXEC));
    assert w1.threads == map[EXEC := W.RegWrite(W.Handle(EXEC, 1))] && w1.bits == W.REGISTERING;
    var w2 := W.Do(w1, W.Step(EXEC));
    assert w2.threads == map[EXEC := W.RegRelease(W.Handle(EXEC, 1))] && w2.bits == W.REGISTERING;
    var w3 := W.Do(w2, W.Step(EXEC));
    assert w3.threads == map[];
    s' := RegisterAccess(s);
    s' := RegisterAccess(s');
    s' := RegisterAccess(s');
  }

  lemma RegisterAccess(s: State) returns (s': State)
    requires Reachable(s) && s.exec == Registering && EXEC in s.waker.threads && !AboutToWake(s.waker, EXEC)
    ensures Reachable(s') && s'.waker == W.Do(s.waker, W.Step(EXEC))
    ensures s' == s.(waker := s'.waker, exec := if EXEC in s'.waker.threads then Registering else Dequeuing(None))
  {
    ReachableStep(s, ExecStep);
    s' := Do(s, ExecStep);
  }

  // While task 1 is polled, thread 2 wakes it.
  lemma OneWoken(s: State) returns (s': State)
    requires Reachable(s) && 1 in s.created && 1 !in s.queued && s.wakers == map[] && s.waker.threads == map[]
    requires s.queue.chain == [Q.STUB] && s.queue.head == Q.STUB == s.queue.tail
    requires s.queue.next - {1} == map[] && s.queue.consumer == Q.Idle && s.queue.inflight == map[]
    ensures Reachable(s') && HoldsOne(s'.queue) && s'.exec == s.exec && s'.live == s.live && s'.polled == s.polled
    ensures s'.wakers == map[] && s'.waker.threads == map[2 := W.TakeSet]
  {
    ReachableStep(s, Wake(2, 1));
    s' := Do(s, Wake(2, 1));
    assert s'.queue.inflight == map[1 := Q.Begun] && s'.wakers == map[2 := 1];
    EnqueueOne(s'.queue);
    s' := WakeAccess(s');
    s' := WakeAccess(s');
    s' := WakeAccess(s');
  }

  lemma WakeAccess(s: State) returns (s': State)
    requires Reachable(s) && s.wakers == map[2 := 1] && s.waker.threads == map[]
    ensures Reachable(s') && s'.queue == EnqueueStep(s.queue, 1)
    ensures s'.exec == s.exec && s'.live == s.live && s'.polled == s.polled
    ensures if 1 in s'.queue.inflight then s'.wakers == s.wakers && s'.waker == s.waker
            else s'.wakers == map[] && s'.waker.threads == map[2 := W.TakeSet]
  {
    ReachableStep(s, WakerStep(2));
    s' := Do(s, WakerStep(2));
  }

  // Task 1 is polled for the first time.
  lemma OnePolled() returns (s: State)
    ensures Reachable(s) && s.exec == Polling(1, None) && s.created == s.live == s.polled == {1} && s.queued == {}
    ensures s.wakers == map[] && s.waker.threads == map[] && !s.unparked && !s.token && s.unparking == 0
    ensures s.queue.chain == [Q.STUB] && s.queue.head == Q.STUB == s.queue.tail
    ensures s.queue.next == map[1 := Q.STUB] && s.queue.consumer == Q.Idle && s.queue.inflight == map[]
  {
    s := OnePushed();
    s := CallBegins(s);
    s := CallRegisters(s);
    s := UpToHandOut(s);
    ReachableStep(s, ExecStep);
    s := Do(s, ExecStep);
    assert s.queue.chain == [Q.STUB];
  }

  // Such a state is reached: a task is pushed, polled, woken meanwhile, returns
  // `Pending`, and is the next to be dequeued.
  lemma PolledTaskComesBack()
    ensures exists s ::
      && Reachable(s) && s.exec.Dequeuing? && s.queue.consumer != Q.Idle
      && Q.ResultOf(s.queue, Q.Consume) == Some(Q.Data(1)) && 1 in s.live && 1 in s.polled
      && 3 !in s.wakers && 3 !in s.waker.threads
  {
    var polling := OnePolled();
    var woken := OneWoken(polling);
    ReachableStep(woken, PollReturns(true));
    var back := Do(woken, PollReturns(true));
    var second := UpToHandOut(back);
    assert Q.ResultOf(second.queue, Q.Consume) == Some(Q.Data(1));
  }

  // The race for which release_task swaps the flag: the task's poll returns `Ready`
  // while another thread has set the flag and has not swapped the task in yet.
  lemma ReleaseMeetsEnqueue()
    ensures exists s ::
      && Reachable(s) && s.exec == Polling(1, None) && 1 in s.queued
      && 1 in s.queue.inflight && s.queue.inflight[1] == Q.Begun && 1 !in s.queue.chain
  {
    var polling := OnePolled();
    ReachableStep(polling, Wake(2, 1));
    var s := Do(polling, Wake(2, 1));
    assert s.queue.inflight == map[1 := Q.Begun] && s.exec == Polling(1, None);
  }
}
