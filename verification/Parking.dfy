// When run_blocking parks, what ends the park, and when it returns, over all runs of
// NoLostWakeup (src/lib.rs, src/futures/task.rs).
module Parking {
  import opened Wrappers
  import opened Runs = NoLostWakeup
  import opened RequeueWindow

  // The action sets `unparked`: a wake has reached the thread.
  predicate Wakens(s: State, a: Action)
    requires Enabled(s, a)
  {
    match a
    case NotifyStep(t) => AboutToWake(s.waker, t)
    case ExecStep =>
      s.exec == WakeSelf || (s.exec == Registering && EXEC in s.waker.threads && AboutToWake(s.waker, EXEC))
    case _ => false
  }

  // No wake reaches the thread in this run, and `park` does not return by itself.
  ghost predicate Undisturbed(s: State, acts: seq<Action>)
    requires Allowed(s, acts)
    decreases |acts|
  {
    acts == [] || (!Wakens(s, acts[0]) && acts[0] != SpuriousReturn && Undisturbed(Do(s, acts[0]), acts[1..]))
  }

  // poll_pool has returned `Pending`, and nothing has come that would let the thread go
  // on: no wakeup since the flag was cleared last, no token and none under way.
  ghost predicate Blocked(s: State) {
    (s.exec == CheckUnparked || s.exec == Park) && !s.unparked && !s.token && s.unparking == 0
  }

  lemma BlockedStep(s: State, a: Action)
    requires Blocked(s) && Enabled(s, a) && !Wakens(s, a) && a != SpuriousReturn
    ensures Blocked(Do(s, a))
  {
  }

  // A blocked thread stays blocked, whatever other threads do and however long, until a
  // wake reaches it or `park` returns by itself.
  lemma {:induction false} StaysBlocked(s: State, acts: seq<Action>)
    requires Blocked(s) && Allowed(s, acts) && Undisturbed(s, acts)
    ensures Blocked(After(s, acts))
    decreases |acts|
  {
    if acts != [] {
      BlockedStep(s, acts[0]);
      StaysBlocked(Do(s, acts[0]), acts[1..]);
    }
  }

  // Nobody acts but the executor, and the threads that have yet to call `unpark`.
  ghost predicate Alone(acts: seq<Action>) {
    forall i :: 0 <= i < |acts| ==> acts[i] == ExecStep || acts[i] == Unpark
  }

  // Back at the loop's top, with the wakeup used up.
  ghost predicate BackToPoll(s: State) {
    s.exec == LoopTop && !s.unparked
  }

  // Between poll_pool's `Pending` and the next poll_pool, the thread can go on without
  // another wake, and then uses up the wakeup it has had, if and only if it is not blocked.
  lemma GoesOnExactly(s: State)
    requires Reachable(s) && (s.exec == CheckUnparked || s.exec == Park)
    ensures (exists acts :: Allowed(s, acts) && Alone(acts) && BackToPoll(After(s, acts))) <==> !Blocked(s)
  {
    if Blocked(s) {
      forall acts | Allowed(s, acts) && Alone(acts) ensures !BackToPoll(After(s, acts)) {
        AloneUndisturbed(s, acts);
        StaysBlocked(s, acts);
      }
    } else {
      ReachableInv(s);
      var acts := GoesOn(s);
    }
  }

  lemma AloneTail(acts: seq<Action>)
    requires acts != [] && Alone(acts)
    ensures Alone(acts[1..])
  {
    assert forall i :: 0 <= i < |acts[1..]| ==> acts[1..][i] == acts[i + 1];
  }

  lemma {:induction false} AloneUndisturbed(s: State, acts: seq<Action>)
    requires Blocked(s) && Allowed(s, acts) && Alone(acts)
    ensures Undisturbed(s, acts)
    decreases |acts|
  {
    if acts != [] {
      assert acts[0] == ExecStep;
      BlockedStep(s, acts[0]);
      AloneTail(acts);
      AloneUndisturbed(Do(s, acts[0]), acts[1..]);
    }
  }

  lemma OneMore(s: State, a: Action, acts: seq<Action>)
    requires Enabled(s, a) && Allowed(Do(s, a), acts)
    ensures Allowed(s, [a] + acts) && After(s, [a] + acts) == After(Do(s, a), acts)
  {
    assert ([a] + acts)[1..] == acts;
  }

  lemma GoesOn(s: State) returns (acts: seq<Action>)
    requires Cover(s) && (s.exec == CheckUnparked || s.exec == Park) && !Blocked(s)
    ensures Allowed(s, acts) && Alone(acts) && BackToPoll(After(s, acts))
  {
    if s.exec == CheckUnparked {
      var s1 := Do(s, ExecStep);
      acts := [];
      if s1.exec == Park {
        acts := Unparks(s1);
      }
      OneMore(s, ExecStep, acts);
      acts := [ExecStep] + acts;
    } else {
      acts := Unparks(s);
    }
  }

  lemma Unparks(s: State) returns (acts: seq<Action>)
    requires s.exec == Park && (s.token || s.unparking > 0)
    ensures Allowed(s, acts) && Alone(acts) && BackToPoll(After(s, acts))
  {
    var s1 := if s.token then s else Do(s, Unpark);
    var s2 := Do(s1, ExecStep);
    OneMore(s2, ExecStep, []);
    OneMore(s1, ExecStep, [ExecStep]);
    acts := [ExecStep, ExecStep];
    assert [ExecStep] + [ExecStep] == acts && [ExecStep] + [] == [ExecStep];
    if !s.token {
      OneMore(s, Unpark, acts);
      acts := [Unpark] + acts;
    }
  }

  // How often `park` returns in a run because of a token, and how often one is given.
  ghost function Spent(s: State, acts: seq<Action>): nat
    requires Allowed(s, acts)
    decreases |acts|
  {
    if acts == [] then 0 else Count(acts[0] == ExecStep && s.exec == Park) + Spent(Do(s, acts[0]), acts[1..])
  }

  ghost function Granted(acts: seq<Action>): nat {
    if acts == [] then 0 else Count(acts[0] == Unpark || acts[0] == UserToken(true)) + Granted(acts[1..])
  }

  // No token lets `park` return twice.
  lemma {:induction false} TokensAreSpent(s: State, acts: seq<Action>)
    requires Allowed(s, acts)
    ensures Spent(s, acts) + Count(After(s, acts).token) <= Granted(acts) + Count(s.token)
    decreases |acts|
  {
    if acts != [] {
      TokenStep(s, acts[0]);
      TokensAreSpent(Do(s, acts[0]), acts[1..]);
    }
  }

  lemma TokenStep(s: State, a: Action)
    requires Enabled(s, a)
    ensures Count(a == ExecStep && s.exec == Park) + Count(Do(s, a).token)
         <= Count(a == Unpark || a == UserToken(true)) + Count(s.token)
  {
    if a == ExecStep {
      ExecToken(s);
    }
  }

  // The executor only takes tokens, by `park`.
  lemma ExecToken(s: State)
    ensures DoExec(s).token == (s.token && s.exec != Park)
  {
    if s.exec.Dequeuing? {
      assert DoDequeue(s, s.exec.initial).token == s.token;
    }
  }

  // ----------------------------------------------------- a wake ends the park

  // A run in which thread t acts alone.
  ghost predicate OnlyBy(t: Thread, acts: seq<Action>) {
    forall i :: 0 <= i < |acts| ==> (acts[i].Wake? || acts[i].WakerStep? || acts[i].NotifyStep?) && acts[i].thread == t
  }

  ghost predicate Leads(s: State, t: Thread, s': State) {
    exists acts :: Allowed(s, acts) && OnlyBy(t, acts) && After(s, acts) == s'
  }

  lemma LeadsOn(s: State, t: Thread, s': State, a: Action)
    requires Leads(s, t, s') && Enabled(s', a) && OnlyBy(t, [a])
    ensures Leads(s, t, Do(s', a))
  {
    var acts :| Allowed(s, acts) && OnlyBy(t, acts) && After(s, acts) == s';
    AfterAppend(s, acts, a);
    assert [a][0] == a;
    assert OnlyBy(t, acts + [a]);
  }

  // The executor is parked, and nobody is in the middle of a wake.
  ghost predicate ParkedQuietly(s: State) {
    s.exec == Park && !s.token && s.wakers == map[] && s.waker.threads == map[] && s.unparking == 0
  }

  // Its waker is in the cell.
  lemma ParkedIsArmed(s: State)
    requires Reachable(s) && ParkedQuietly(s)
    ensures s.waker.bits == W.WAITING && s.waker.cell.Some? && !s.unparked
  {
    ReachableInv(s);
    assert W.Armed(s.waker, s.waker.epoch);
    assert s.waker.epoch !in s.waker.woken;
  }

  // The swap of the flag ...
  lemma WakeBegins(s: State, t: Thread, n: Node) returns (s': State)
    requires Reachable(s) && ParkedQuietly(s) && t != EXEC && n in s.live
    ensures n !in s.queued && Leads(s, t, s') && s' == s.(queue := s'.queue, queued := s'.queued, wakers := map[t := n])
    ensures s'.queue.inflight == map[n := Q.Begun]
  {
    Runs.NoLostWakeup(s);
    ReachableInv(s);
    assert Allowed(s, []) && OnlyBy(t, []) && After(s, []) == s;
    LeadsOn(s, t, s, Wake(t, n));
    s' := Do(s, Wake(t, n));
  }

  // ... and the enqueue.
  lemma WakeEnqueues(s0: State, s: State, t: Thread, n: Node) returns (s': State)
    requires Leads(s0, t, s) && s.wakers == map[t := n] && s.waker.threads == map[]
    requires s.queue.inflight == map[n := Q.Begun]
    ensures Leads(s0, t, s') && Q.Inside(s'.queue, n)
    ensures s' == s.(queue := s'.queue, wakers := map[], waker := s'.waker) && s'.waker == W.Do(s.waker, W.CallTake(t))
  {
    s' := EnqueueAccess(s0, s, t, n);
    s' := EnqueueAccess(s0, s', t, n);
    s' := LastAccess(s0, s', t, n);
  }

  lemma LastAccess(s0: State, s: State, t: Thread, n: Node) returns (s': State)
    requires Leads(s0, t, s) && s.wakers == map[t := n] && s.waker.threads == map[]
    requires n in s.queue.inflight && s.queue.inflight[n].Swapped? && n in s.queue.chain
    ensures Leads(s0, t, s') && Q.Inside(s'.queue, n)
    ensures s' == s.(queue := s'.queue, wakers := map[], waker := s'.waker) && s'.waker == W.Do(s.waker, W.CallTake(t))
  {
    LeadsOn(s0, t, s, WakerStep(t));
    assert s.wakers - {t} == map[];
    s' := Do(s, WakerStep(t));
  }

  lemma EnqueueAccess(s0: State, s: State, t: Thread, n: Node) returns (s': State)
    requires Leads(s0, t, s) && s.wakers == map[t := n] && s.waker.threads == map[]
    requires s.queue.inflight == map[n := Q.Begun] || s.queue.inflight == map[n := Q.Cleared]
    ensures Leads(s0, t, s') && s' == s.(queue := s'.queue)
    ensures if s.queue.inflight[n] == Q.Begun then s'.queue.inflight == map[n := Q.Cleared]
            else s'.queue.inflight == map[n := Q.Swapped(s.queue.head)] && n in s'.queue.chain
  {
    LeadsOn(s0, t, s, WakerStep(t));
    s' := Do(s, WakerStep(t));
  }

  // An access of AtomicWaker::wake, with nobody else inside.
  lemma CellAccess(s0: State, s: State, t: Thread) returns (s': State)
    requires Leads(s0, t, s) && t != EXEC && t in s.waker.threads && !AboutToWake(s.waker, t)
    ensures Leads(s0, t, s') && s' == s.(waker := W.Do(s.waker, W.Step(t)))
  {
    LeadsOn(s0, t, s, NotifyStep(t));
    s' := Do(s, NotifyStep(t));
  }

  lemma TakeAlone(w: W.State, t: Thread)
    requires w.threads == map[t := W.TakeSet] && w.bits == W.WAITING
    ensures W.Do(w, W.Step(t)).threads == map[t := W.TakeCell]
    ensures W.Do(W.Do(w, W.Step(t)), W.Step(t)).threads == map[t := W.TakeClear(w.cell)]
    ensures W.Do(W.Do(W.Do(w, W.Step(t)), W.Step(t)), W.Step(t)).threads == map[t := W.TakeWake(w.cell)]
  {
    W.Bits();
  }

  lemma WakeNotifies(s0: State, s: State, t: Thread) returns (s': State)
    requires Leads(s0, t, s) && t != EXEC && s.waker.threads == map[t := W.TakeSet]
    requires s.waker.bits == W.WAITING && s.waker.cell.Some? && !s.unparked
    ensures Leads(s0, t, s') && s' == s.(waker := s'.waker, unparked := true, unparking := s.unparking + 1)
  {
    TakeAlone(s.waker, t);
    s' := CellAccess(s0, s, t);
    s' := CellAccess(s0, s', t);
    s' := CellAccess(s0, s', t);
    LeadsOn(s0, t, s', NotifyStep(t));
    s' := Do(s', NotifyStep(t));
  }

  // Whatever the past: if the executor is parked and one thread wakes a task of the set,
  // acting alone, then the task is in the ready queue and the executor can go on to poll.
  lemma WakeEndsPark(s: State, t: Thread, n: Node)
    requires Reachable(s) && ParkedQuietly(s) && t != EXEC && n in s.live
    ensures exists s' :: Leads(s, t, s') && s'.exec == Park && !Blocked(s') && Q.Inside(s'.queue, n)
    ensures Blocked(s)
  {
    ParkedIsArmed(s);
    var s1 := WakeBegins(s, t, n);
    var s2 := WakeEnqueues(s, s1, t, n);
    var s3 := WakeNotifies(s, s2, t);
  }

  // ------------------------------------------------ parks and returns happen

  // From the poll's end: the queue is empty.
  lemma RunsEmpty(s: State) returns (s': State)
    requires Reachable(s) && s.exec.Dequeuing? && s.queue.consumer == Q.Idle
    requires s.queue.tail == Q.STUB && Q.STUB !in s.queue.next
    ensures Reachable(s') && s' == s.(queue := s'.queue, exec := Returned(s.live == {}))
  {
    ReachableStep(s, ExecStep);
    var s1 := Do(s, ExecStep);
    ReachableStep(s1, ExecStep);
    s' := Do(s1, ExecStep);
  }

  // Such a park is reached: a task is pushed and polled, and pends without a wake.
  lemma ParkIsReached()
    ensures exists s :: Reachable(s) && ParkedQuietly(s) && !s.unparked && 1 in s.live && 1 !in s.queued
  {
    var s := OnePolled();
    ReachableStep(s, PollReturns(true));
    s := RunsEmpty(Do(s, PollReturns(true)));
    ReachableStep(s, ExecStep);
    s := Do(s, ExecStep);
    ReachableStep(s, ExecStep);
    s := Do(s, ExecStep);
    assert ParkedQuietly(s);
  }

  // `run` comes back, and leaves the task asleep.
  lemma LeaveIsReached()
    ensures exists s :: Reachable(s) && s.exec == Outside && 1 in s.live && 1 !in s.queued && !s.unparked
  {
    var s := OnePolled();
    ReachableStep(s, PollReturns(true));
    s := RunsEmpty(Do(s, PollReturns(true)));
    ReachableStep(s, Leave);
    s := Do(s, Leave);
    assert s.exec == Outside;
  }

  // run_blocking comes back: the task is done at its first poll.
  lemma ReturnIsReached()
    ensures exists s :: Reachable(s) && s.exec == Returned(true) && Do(s, ExecStep).exec == Outside && s.created == {1}
  {
    var s := OnePolled();
    ReachableStep(s, PollReturns(false));
    s := RunsEmpty(Do(s, PollReturns(false)));
    assert Do(s, ExecStep).exec == Outside;
  }

  // -------------------------------------------------- what Ready means

  ghost predicate ReturnsRight(s: State) {
    s.exec.Returned? ==> if s.exec.ready then s.live == {} else s.live != {} || s.unparked
  }

  lemma OthersReturnRight(s: State, a: Action)
    requires Enabled(s, a) && a != ExecStep && ReturnsRight(s)
    ensures ReturnsRight(Do(s, a))
  {
    match a
    case WakerStep(t) => assert DoWakerStep(s, t) == s.(queue := DoWakerStep(s, t).queue,
      wakers := DoWakerStep(s, t).wakers, waker := DoWakerStep(s, t).waker);
    case NotifyStep(t) => NotifyStepReturns(s, t);
    case _ =>
  }

  lemma NotifyStepReturns(s: State, t: Thread)
    requires t in s.waker.threads
    ensures var s' := WakerCellStep(s, t); s'.exec == s.exec && s'.live == s.live && (s.unparked ==> s'.unparked)
  {
  }

  lemma DequeueReturnsRight(s: State)
    requires s.exec.Dequeuing? && ReturnsRight(s)
    ensures ReturnsRight(DoExec(s))
  {
  }

  lemma ExecReturnsRight(s: State)
    requires Inv(s) && Enabled(s, ExecStep) && ReturnsRight(s)
    ensures ReturnsRight(DoExec(s))
  {
    match s.exec
    case Requeue(n, initial) =>
      assert n in s.live;
      assert DoRequeue(s, n, initial).live == s.live;
    case Registering => NotifyStepReturns(s, EXEC);
    case Dequeuing(_) => DequeueReturnsRight(s);
    case _ =>
  }

  lemma StepReturnsRight(s: State, a: Action)
    requires Inv(s) && Enabled(s, a) && ReturnsRight(s)
    ensures ReturnsRight(Do(s, a))
  {
    if a == ExecStep {
      ExecReturnsRight(s);
    } else {
      OthersReturnRight(s, a);
    }
  }

  lemma {:induction false} RunReturnsRight(s: State, acts: seq<Action>)
    requires Inv(s) && Allowed(s, acts) && ReturnsRight(s)
    ensures ReturnsRight(After(s, acts))
    decreases |acts|
  {
    if acts != [] {
      StepInv(s, acts[0]);
      StepReturnsRight(s, acts[0]);
      RunReturnsRight(Do(s, acts[0]), acts[1..]);
    }
  }

  // Over every run: poll_next says Ready, and with it run_blocking returns, only if no
  // task is left; and if it says Pending, a task is left or the thread is told to poll
  // again.
  lemma ReadyMeansNoneLeft(s: State)
    requires Reachable(s) && s.exec.Returned?
    ensures if s.exec.ready then s.live == {} else s.live != {} || s.unparked
  {
    var acts :| Allowed(INITIAL, acts) && After(INITIAL, acts) == s;
    InitialInv();
    RunReturnsRight(INITIAL, acts);
  }

  // ------------------------------------------- one poll for each poll_pool

  // The action starts a poll of n; the action starts a poll_pool, in a new call or
  // because a wakeup, or a return of `park`, has been used up for it.
  predicate StartsPoll(s: State, a: Action, n: Node)
    requires Enabled(s, a)
  {
    a == ExecStep && Do(s, a).exec.Polling? && Do(s, a).exec.node == n
  }

  predicate StartsCycle(s: State, a: Action) {
    a == NextCall || (a == ExecStep && ((s.exec == CheckUnparked && s.unparked) || s.exec == ClearUnparked))
  }

  ghost function Polls(s: State, acts: seq<Action>, n: Node): nat
    requires Allowed(s, acts)
    decreases |acts|
  {
    if acts == [] then 0 else Count(StartsPoll(s, acts[0], n)) + Polls(Do(s, acts[0]), acts[1..], n)
  }

  ghost function Cycles(s: State, acts: seq<Action>): nat
    requires Allowed(s, acts)
    decreases |acts|
  {
    if acts == [] then 0 else Count(StartsCycle(s, acts[0])) + Cycles(Do(s, acts[0]), acts[1..])
  }

  // The present poll_pool, if there is one, may still poll n.
  predicate MayPoll(s: State, n: Node) {
    match s.exec
    case LoopTop => true
    case PushEnq(_, direct) => !direct && n !in s.polled
    case Outside => false
    case CheckUnparked => false
    case Park => false
    case ClearUnparked => false
    case _ => n !in s.polled
  }

  lemma OthersMayPoll(s: State, a: Action, n: Node)
    requires Enabled(s, a) && a != ExecStep
    ensures Count(MayPoll(Do(s, a), n)) <= Count(StartsCycle(s, a)) + Count(MayPoll(s, n))
  {
    match a
    case WakerStep(t) => assert DoWakerStep(s, t).exec == s.exec && DoWakerStep(s, t).polled == s.polled;
    case NotifyStep(t) => assert WakerCellStep(s, t).exec == s.exec && WakerCellStep(s, t).polled == s.polled;
    case _ =>
  }

  lemma DequeueMayPoll(s: State, n: Node)
    requires s.exec.Dequeuing?
    ensures Count(StartsPoll(s, ExecStep, n)) + Count(MayPoll(DoExec(s), n)) <= Count(MayPoll(s, n))
  {
  }

  lemma ExecMayPoll(s: State, n: Node)
    requires Enabled(s, ExecStep)
    ensures Count(StartsPoll(s, ExecStep, n)) + Count(MayPoll(DoExec(s), n))
         <= Count(StartsCycle(s, ExecStep)) + Count(MayPoll(s, n))
  {
    match s.exec
    case Dequeuing(_) => DequeueMayPoll(s, n);
    case Requeue(m, initial) => assert DoRequeue(s, m, initial).polled == s.polled;
    case _ =>
  }

  // Over every run, however often other threads wake a task: it is polled at most once in
  // each poll_pool, and every poll_pool but the first of a call takes a wakeup or a return
  // of `park`.
  lemma {:induction false} PolledOncePerCycle(s: State, acts: seq<Action>, n: Node)
    requires Allowed(s, acts)
    ensures Polls(s, acts, n) + Count(MayPoll(After(s, acts), n)) <= Cycles(s, acts) + Count(MayPoll(s, n))
    decreases |acts|
  {
    if acts != [] {
      if acts[0] == ExecStep {
        ExecMayPoll(s, n);
      } else {
        OthersMayPoll(s, acts[0], n);
      }
      PolledOncePerCycle(Do(s, acts[0]), acts[1..], n);
    }
  }

  // --------------------------------------------------- where poll_next ends

  // poll_next is in its loop.
  predicate InLoop(e: Exec) {
    e.Dequeuing? || e.Polling? || e.Requeue?
  }

  ghost predicate StaysInLoop(s: State, acts: seq<Action>)
    requires Allowed(s, acts)
    decreases |acts|
  {
    InLoop(s.exec) && (acts == [] || StaysInLoop(Do(s, acts[0]), acts[1..]))
  }

  // The task that the action leaves in the set, pending or put back.
  ghost function LeftBehind(s: State, a: Action): Option<Node>
    requires Enabled(s, a)
  {
    if a == PollReturns(true) then Some(s.exec.node)
    else if a == ExecStep && s.exec.Requeue? && !Do(s, a).exec.Requeue? then Some(s.exec.node)
    else None
  }

  // The first such task of a run.
  ghost function FirstLeft(s: State, acts: seq<Action>): Option<Node>
    requires Allowed(s, acts)
    decreases |acts|
  {
    if acts == [] then None
    else if LeftBehind(s, acts[0]).Some? then LeftBehind(s, acts[0])
    else FirstLeft(Do(s, acts[0]), acts[1..])
  }

  lemma LoopStep(s: State, a: Action)
    requires InLoop(s.exec) && Enabled(s, a) && InLoop(Do(s, a).exec)
    ensures var i, left := s.exec.initial, LeftBehind(s, a);
      Do(s, a).exec.initial == if i == None then left else i
  {
    match a
    case WakerStep(t) => assert DoWakerStep(s, t).exec == s.exec;
    case NotifyStep(t) => assert WakerCellStep(s, t).exec == s.exec;
    case ExecStep =>
      if s.exec.Dequeuing? {
        assert DoDequeue(s, s.exec.initial).exec.initial == s.exec.initial;
      }
    case _ =>
  }

  lemma {:induction false} InitialIsFirst(s: State, acts: seq<Action>)
    requires Allowed(s, acts) && StaysInLoop(s, acts)
    ensures var s' := After(s, acts);
      InLoop(s'.exec) && s'.exec.initial == if s.exec.initial == None then FirstLeft(s, acts) else s.exec.initial
    decreases |acts|
  {
    if acts != [] {
      LoopStep(s, acts[0]);
      InitialIsFirst(Do(s, acts[0]), acts[1..]);
    }
  }

  // Whatever other threads do in the course of a poll_next: when a task already polled
  // has been put back, poll_next returns if and only if that task is the first one that
  // this call has left behind; otherwise it goes on.
  lemma PollNextEndsAtFirst(s: State, acts: seq<Action>)
    requires s.exec == Dequeuing(None) && Allowed(s, acts) && StaysInLoop(s, acts)
    requires var s' := After(s, acts);
      s'.exec.Requeue? && Enabled(s', ExecStep) && LeftBehind(s', ExecStep).Some?
    ensures var s' := After(s, acts);
      && Do(s', ExecStep).exec == (if FirstLeft(s, acts) == Some(s'.exec.node) then Returned(false)
                                   else Dequeuing(Some(FirstOf(s, acts, s'.exec.node))))
  {
    InitialIsFirst(s, acts);
  }

  ghost function FirstOf(s: State, acts: seq<Action>, n: Node): Node
    requires Allowed(s, acts)
  {
    if FirstLeft(s, acts).Some? then FirstLeft(s, acts).value else n
  }

  // -------------------------------------------- wakes in a row unpark once

  // How often a run decides to call `unpark`, and how often the executor uses up a wakeup.
  ghost function Unparkings(s: State, acts: seq<Action>): nat
    requires Allowed(s, acts)
    decreases |acts|
  {
    if acts == [] then 0
    else Count(Do(s, acts[0]).unparking > s.unparking) + Unparkings(Do(s, acts[0]), acts[1..])
  }

  ghost function UsedUp(s: State, acts: seq<Action>): nat
    requires Allowed(s, acts)
    decreases |acts|
  {
    if acts == [] then 0
    else Count(s.unparked && !Do(s, acts[0]).unparked) + UsedUp(Do(s, acts[0]), acts[1..])
  }

  lemma UnparkStep(s: State, a: Action)
    requires Enabled(s, a)
    ensures var s' := Do(s, a);
      Count(s'.unparking > s.unparking) + Count(!s'.unparked) <= Count(s.unparked && !s'.unparked) + Count(!s.unparked)
  {
    match a
    case WakerStep(t) => assert DoWakerStep(s, t).unparking == s.unparking && DoWakerStep(s, t).unparked == s.unparked;
    case ExecStep =>
      if s.exec.Dequeuing? {
        assert DoDequeue(s, s.exec.initial).unparking == s.unparking;
        assert DoDequeue(s, s.exec.initial).unparked == s.unparked;
      }
    case _ =>
  }

  // However many wakes come, between two of the executor's swaps `unpark` is called once.
  lemma {:induction false} WakesUnparkOnce(s: State, acts: seq<Action>)
    requires Allowed(s, acts)
    ensures Unparkings(s, acts) + Count(!After(s, acts).unparked) <= UsedUp(s, acts) + Count(!s.unparked)
    decreases |acts|
  {
    if acts != [] {
      UnparkStep(s, acts[0]);
      WakesUnparkOnce(Do(s, acts[0]), acts[1..]);
    }
  }
}
