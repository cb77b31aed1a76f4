// Who owns a task, with any number of waker threads at work: the reference that the
// set holds is handed from the list of all tasks to poll_next, to the ready queue,
// and is dropped exactly once (src/futures/futures_unordered.rs, src/futures/task.rs).
module Ownership {
  import opened Wrappers
  import opened NoLostWakeup

  // Who holds the set's own reference to a task: the list of all tasks, poll_next
  // while it polls the task, or, once the task is released, the ready queue as long as
  // it is in there or on its way there, and then nobody.
  datatype Holder = AllList | Poller | ReadyQueue | Dropped

  ghost function HolderOf(s: State, n: Node): Holder {
    if n in s.live then if s.exec.Polling? && s.exec.node == n then Poller else AllList
    else if Q.Inside(s.queue, n) then ReadyQueue
    else Dropped
  }

  // The access is the release of n.
  predicate Releases(s: State, a: Action, n: Node) {
    a == Release(n) || (a == PollReturns(false) && s.exec.Polling? && s.exec.node == n)
  }

  // The access drops the reference: release_task finds the flag clear, or poll_next
  // dequeues a task whose future is gone.
  predicate Drops(s: State, a: Action, n: Node) {
    (Releases(s, a, n) && n !in s.queued) || (Takes(s, a, n) && n !in s.live)
  }

  // What release_task reads off the flag is whether the ready queue will hand the task
  // out, even when another thread has set the flag and is still enqueueing.
  lemma FlagTellsHolder(s: State, a: Action, n: Node)
    requires Reachable(s) && Enabled(s, a) && Releases(s, a, n)
    ensures n in s.queued <==> Q.Inside(s.queue, n)
    ensures HolderOf(Do(s, a), n) == if n in s.queued then ReadyQueue else Dropped
  {
    ReachableInv(s);
  }

  // An enqueue begins for live tasks only.
  lemma BeginsLive(s: State, a: Action, n: Node)
    requires Flags(s) && Enabled(s, a) && Begins(s, a, n)
    ensures n in Do(s, a).live
  {
    match a
    case WakerStep(t) => SteppedBegins(s.queue, s.wakers[t], n);
    case ExecStep => ExecBeginsLive(s, n);
    case _ =>
  }

  lemma SteppedBegins(q: Q.State, m: Node, n: Node)
    ensures n in EnqueueStep(q, m).inflight ==> n in q.inflight
  {
  }

  lemma ExecBeginsLive(s: State, n: Node)
    requires Enabled(s, ExecStep) && Begins(s, ExecStep, n)
    ensures n in s.live && DoExec(s).live == s.live
  {
    if s.exec.PushEnq? || s.exec.Requeue? {
      SteppedBegins(s.queue, s.exec.node, n);
      EnqueueQueue(s);
    } else if !s.exec.Dequeuing? {
      OtherExecQueue(s);
    } else if s.queue.consumer != Q.Idle {
      Q.ConsumerLeavesInflight(s.queue);
    }
  }

  // Only a push makes a task live, and only its release makes it not live.
  lemma StepLive(s: State, a: Action, n: Node)
    requires Enabled(s, a)
    ensures n in Do(s, a).live <==> a == Push(n) || (n in s.live && !Releases(s, a, n))
    ensures n in Do(s, a).created <==> a == Push(n) || n in s.created
  {
    if a == ExecStep {
      ExecLive(s);
    }
  }

  lemma ExecLive(s: State)
    requires Enabled(s, ExecStep)
    ensures DoExec(s).live == s.live && DoExec(s).created == s.created
  {
    match s.exec
    case Dequeuing(initial) => DequeueLive(s, initial);
    case Registering => if EXEC in s.waker.threads { CellStepLive(s); }
    case _ =>
  }

  lemma DequeueLive(s: State, initial: Option<Node>)
    ensures DoDequeue(s, initial).live == s.live && DoDequeue(s, initial).created == s.created
  {
    if s.queue.consumer != Q.Idle {
      match Q.ResultOf(s.queue, Q.Consume)
      case Some(Data(n)) => BeginLive(s.(queue := Q.Do(s.queue, Q.Consume)), n);
      case _ =>
    }
  }

  lemma BeginLive(s: State, n: Node)
    ensures BeginEnqueue(s, n).live == s.live && BeginEnqueue(s, n).created == s.created
  {
  }

  lemma CellStepLive(s: State)
    requires EXEC in s.waker.threads
    ensures WakerCellStep(s, EXEC).live == s.live && WakerCellStep(s, EXEC).created == s.created
  {
  }

  // Released, and neither in the ready queue nor on its way there.
  ghost predicate Gone(s: State, n: Node) {
    n in s.created && HolderOf(s, n) == Dropped
  }

  lemma StepDrops(s: State, a: Action, n: Node)
    requires Inv(s) && Enabled(s, a) && n != Q.STUB
    ensures Count(Gone(s, n)) + Count(Drops(s, a, n)) == Count(Gone(Do(s, a), n))
  {
    StepInv(s, a);
    StepLive(s, a, n);
    StepBalances(s, a, n);
    if Begins(s, a, n) {
      BeginsLive(s, a, n);
    }
  }

  // How often a run drops the reference.
  ghost function DropsIn(s: State, acts: seq<Action>, n: Node): nat
    requires Allowed(s, acts)
    decreases |acts|
  {
    if acts == [] then 0 else Count(Drops(s, acts[0], n)) + DropsIn(Do(s, acts[0]), acts[1..], n)
  }

  lemma {:induction false} RunDrops(s: State, acts: seq<Action>, n: Node)
    requires Inv(s) && Allowed(s, acts) && n != Q.STUB
    ensures Count(Gone(s, n)) + DropsIn(s, acts, n) == Count(Gone(After(s, acts), n))
    decreases |acts|
  {
    if acts != [] {
      StepInv(s, acts[0]);
      StepDrops(s, acts[0], n);
      RunDrops(Do(s, acts[0]), acts[1..], n);
    }
  }

  // Over every run, with wakes on any number of threads: the set's reference to a task
  // has been dropped once if the task is released and out of the ready queue, and not
  // at all before that.
  lemma DroppedExactlyOnce(acts: seq<Action>, n: Node)
    requires Allowed(INITIAL, acts) && n != Q.STUB
    ensures var s := After(INITIAL, acts);
      DropsIn(INITIAL, acts, n) == if n in s.created && HolderOf(s, n) == Dropped then 1 else 0
  {
    InitialInv();
    RunDrops(INITIAL, acts, n);
  }

  // Where the reference may be after an access.
  ghost function NextHolder(s: State, a: Action, n: Node): set<Holder> {
    match HolderOf(s, n)
    case AllList =>
      if a == Release(n) then {if n in s.queued then ReadyQueue else Dropped}
      else if Takes(s, a, n) then {AllList, Poller}
      else {AllList}
    case Poller =>
      if !a.PollReturns? then {Poller}
      else if a.pending then {AllList}
      else {if n in s.queued then ReadyQueue else Dropped}
    case ReadyQueue => {if Takes(s, a, n) then Dropped else ReadyQueue}
    case Dropped => {Dropped}
  }

  // How the reference goes from hand to hand, whatever the access.
  lemma HolderMoves(s: State, a: Action, n: Node)
    requires Reachable(s) && Enabled(s, a) && n in s.created
    ensures HolderOf(Do(s, a), n) in NextHolder(s, a, n)
  {
    ReachableInv(s);
    if n !in s.live {
      ReleasedMoves(s, a, n);
    } else if Releases(s, a, n) {
      FlagTellsHolder(s, a, n);
    } else {
      LiveMoves(s, a, n);
    }
  }

  lemma ReleasedMoves(s: State, a: Action, n: Node)
    requires Inv(s) && Enabled(s, a) && n in s.created && n !in s.live
    ensures HolderOf(Do(s, a), n) in NextHolder(s, a, n)
  {
    StepLive(s, a, n);
    StepDrops(s, a, n);
  }

  lemma LiveMoves(s: State, a: Action, n: Node)
    requires Flags(s) && Enabled(s, a) && n in s.live && !Releases(s, a, n)
    ensures HolderOf(Do(s, a), n) in NextHolder(s, a, n)
  {
    StepLive(s, a, n);
    PollsFrom(s, a, n);
  }

  lemma PollsFrom(s: State, a: Action, n: Node)
    requires Enabled(s, a)
    ensures s.exec.Polling? && s.exec.node == n && !a.PollReturns? ==> Do(s, a).exec == s.exec
    ensures var e := Do(s, a).exec;
      e.Polling? && e.node == n && !(s.exec.Polling? && s.exec.node == n) ==> Takes(s, a, n)
    ensures a.PollReturns? ==> !Do(s, a).exec.Polling?
  {
  }

  // Once a task is released it stays so, no enqueue of it begins any more, and it is
  // dequeued once more exactly if it was in the ready queue and is not any longer.
  lemma ReleasedForGood(s: State, acts: seq<Action>, n: Node)
    requires Reachable(s) && Allowed(s, acts) && n in s.created && n !in s.live
    ensures var s' := After(s, acts);
      && n in s'.created && n !in s'.live
      && Enqueues(s, acts, n) == 0
      && Dequeues(s, acts, n) + Count(Q.Inside(s'.queue, n)) == Count(Q.Inside(s.queue, n))
  {
    ReachableInv(s);
    StaysReleased(s, acts, n);
    RunBalances(s, acts, n);
  }

  lemma {:induction false} StaysReleased(s: State, acts: seq<Action>, n: Node)
    requires Inv(s) && Allowed(s, acts) && n in s.created && n !in s.live
    ensures n in After(s, acts).created && n !in After(s, acts).live && Enqueues(s, acts, n) == 0
    decreases |acts|
  {
    if acts != [] {
      StepInv(s, acts[0]);
      StepLive(s, acts[0], n);
      if Begins(s, acts[0], n) {
        BeginsLive(s, acts[0], n);
      }
      StaysReleased(Do(s, acts[0]), acts[1..], n);
    }
  }
}
