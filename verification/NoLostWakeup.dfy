// Any number of calls of `run` and `run_blocking`, one after another, against any
// number of waker threads: the ready queue, the `queued` flags, the AtomicWaker and
// the park/unpark handshake put together
// (src/lib.rs, src/futures/task.rs, src/futures/futures_unordered.rs).  One action
// is one shared access of one thread, except that the executor clears and sets
// `queued` again around a requeue in one action.
module NoLostWakeup {
  import opened Wrappers
  import Q = MpscQueue
  import W = AtomicWakerProtocol

  type Node = Q.Node
  type Thread = W.Thread

  // The thread that owns the Cosync.
  const EXEC: Thread := 0

  // Where the executor stands.
  datatype Exec =
    | Outside                                       // between two calls
    | LoopTop                                       // about to call poll_pool
    | Pushing                                       // poll_pool: moving `incoming` into the pool
    | PushEnq(node: Node, direct: bool)             // enqueueing a pushed task; direct: between calls
    | Registering                                   // poll_next: waker.register
    | Dequeuing(initial: Option<Node>)              // poll_next: the loop
    | Polling(node: Node, initial: Option<Node>)    // inside the task's poll
    | Requeue(node: Node, initial: Option<Node>)    // enqueueing a task already polled
    | WakeSelf                                      // after `Inconsistent`
    | Returned(ready: bool)                         // poll_next has returned
    | CheckUnparked                                 // run_blocking: unparked.swap(false)
    | Park                                          // run_blocking: thread::park
    | ClearUnparked                                 // run_blocking: unparked.store(false)

  // `live` are the tasks whose future is present, `queued` those whose flag is
  // set, `polled` those with last_polled == poll_counter.  `wakers` are the calls of
  // Task::wake_by_ref that are still enqueueing; `unparking` counts threads between
  // setting `unparked` and calling `unpark`; `token` is the park token.
  // `cycleEpoch`, the first registration of the current poll_pool, is history;
  // `misuse` records a node enqueued while still inside, or a failed assert!(prev).
  datatype State = State(
    queue: Q.State,
    waker: W.State,
    created: set<Node>,
    live: set<Node>,
    queued: set<Node>,
    polled: set<Node>,
    wakers: map<Thread, Node>,
    exec: Exec,
    unparked: bool,
    token: bool,
    unparking: nat,
    cycleEpoch: nat,
    misuse: bool)

  const INITIAL :=
    State(Q.INITIAL, W.INITIAL, {}, {}, {}, {}, map[], Outside, false, false, 0, 0, false)

  datatype Action =
    | Wake(thread: Thread, node: Node)  // wake_by_ref: queued.swap(true)
    | WakerStep(thread: Thread)         // its enqueue, then the call of AtomicWaker::wake
    | NotifyStep(thread: Thread)        // AtomicWaker::wake, then ThreadNotify::wake_by_ref
    | Unpark                            // thread.unpark()
    | Push(node: Node)                  // the executor pushes a new task, or Cosync::queue does
    | PollReturns(pending: bool)        // the task's poll returns
    | Release(node: Node)               // release_task of clear_head_all: Clear or Drop
    | UserToken(given: bool)            // user code parks or unparks this thread
    | SpuriousReturn                    // park returns without a token
    | PollAgain                         // `incoming` was not empty after poll_next
    | Leave                             // the call was `run`: it returns
    | NextCall                          // another call of `run` or `run_blocking`
    | ExecStep

  predicate Enabled(s: State, a: Action) {
    match a
    case Wake(t, n) => t != EXEC && t !in s.wakers && t !in s.waker.threads && n in s.created
    case WakerStep(t) => t in s.wakers
    case NotifyStep(t) => t in s.waker.threads && t != EXEC
    case Unpark => s.unparking > 0
    case Push(n) => (s.exec == Pushing || s.exec == Outside) && n !in s.created && n != Q.STUB
    case PollReturns(_) => s.exec.Polling?
    case Release(n) => s.exec == Outside && n in s.live
    case UserToken(_) => s.exec.Polling? || s.exec == Outside
    case SpuriousReturn => s.exec == Park
    case PollAgain => s.exec.Returned?
    case Leave => s.exec.Returned?
    case NextCall => s.exec == Outside
    case ExecStep => !s.exec.Polling? && s.exec != Outside && (s.exec == Park ==> s.token)
  }

  function BeginEnqueue(s: State, n: Node): State {
    if Q.Enabled(s.queue, Q.Begin(n)) then s.(queue := Q.Do(s.queue, Q.Begin(n))) else s.(misuse := true)
  }

  // The next access of the enqueue of n.
  function EnqueueStep(q: Q.State, n: Node): Q.State {
    if n !in q.inflight then q
    else match q.inflight[n]
      case Begun => Q.Do(q, Q.Clear(n))
      case Cleared => Q.Do(q, Q.Swap(n))
      case Swapped(_) => Q.Do(q, Q.Link(n))
  }

  // ThreadNotify::wake_by_ref up to the decision to unpark.
  function Notify(s: State): State {
    s.(unparked := true, unparking := if s.unparked then s.unparking else s.unparking + 1)
  }

  function DoWakerStep(s: State, t: Thread): State
    requires t in s.wakers
  {
    var q' := EnqueueStep(s.queue, s.wakers[t]);
    if s.wakers[t] in q'.inflight || t in s.waker.threads then
      s.(queue := q')
    else
      s.(queue := q', wakers := s.wakers - {t}, waker := W.Do(s.waker, W.CallTake(t)))
  }

  predicate AboutToWake(w: W.State, t: Thread)
    requires t in w.threads
  {
    w.threads[t].RegWake? || (w.threads[t].TakeWake? && w.threads[t].got.Some?)
  }

  // One access of thread t inside the AtomicWaker.
  function WakerCellStep(s: State, t: Thread): State
    requires t in s.waker.threads
  {
    var s' := s.(waker := W.Do(s.waker, W.Step(t)));
    if AboutToWake(s.waker, t) then Notify(s') else s'
  }

  function DoDequeue(s: State, initial: Option<Node>): State {
    if s.queue.consumer == Q.Idle then
      s.(queue := Q.Do(s.queue, Q.Start))
    else
      var s' := s.(queue := Q.Do(s.queue, Q.Consume));
      match Q.ResultOf(s.queue, Q.Consume)
      case None => s'
      case Some(Empty) => s'.(exec := Returned(s.live == {}))
      case Some(Inconsistent) => s'.(exec := WakeSelf)
      case Some(Data(n)) =>
        if n !in s.live then s'
        else if n !in s.queued then s'.(misuse := true)
        else if n in s.polled then BeginEnqueue(s', n).(exec := Requeue(n, initial))
        else s'.(queued := s.queued - {n}, polled := s.polled + {n}, exec := Polling(n, initial))
  }

  function DoRequeue(s: State, n: Node, initial: Option<Node>): State {
    var q' := EnqueueStep(s.queue, n);
    s.(queue := q',
       exec := if n in q'.inflight then s.exec
               else if initial == None then Dequeuing(Some(n))
               else if initial == Some(n) then Returned(false)
               else Dequeuing(initial))
  }

  function DoExec(s: State): State {
    match s.exec
    case LoopTop => s.(exec := Pushing, polled := {}, cycleEpoch := s.waker.epoch + 1)
    case Pushing =>
      if EXEC in s.waker.threads then s
      else s.(exec := Registering, waker := W.Do(s.waker, W.CallRegister(EXEC, EXEC)))
    case PushEnq(n, direct) =>
      var q' := EnqueueStep(s.queue, n);
      s.(queue := q', exec := if n in q'.inflight then s.exec else if direct then Outside else Pushing)
    case Registering =>
      if EXEC !in s.waker.threads then s
      else
        var s' := WakerCellStep(s, EXEC);
        if EXEC in s'.waker.threads then s' else s'.(exec := Dequeuing(None))
    case Dequeuing(initial) => DoDequeue(s, initial)
    case Requeue(n, initial) => DoRequeue(s, n, initial)
    case WakeSelf => Notify(s).(exec := Returned(false))
    case Returned(ready) => s.(exec := if ready then Outside else CheckUnparked)
    case CheckUnparked => s.(unparked := false, exec := if s.unparked then LoopTop else Park)
    case Park => s.(token := false, exec := ClearUnparked)
    case ClearUnparked => s.(unparked := false, exec := LoopTop)
    case _ => s
  }

  // release_task after `Ready`: the flag is set for good; the future is gone.
  function DoPollReturns(s: State, pending: bool): State
    requires s.exec.Polling?
  {
    var n, i := s.exec.node, s.exec.initial;
    if pending then s.(exec := Dequeuing(if i == None then Some(n) else i))
    else s.(exec := Dequeuing(i), live := s.live - {n}, queued := s.queued + {n})
  }

  function Do(s: State, a: Action): State
    requires Enabled(s, a)
  {
    match a
    case Wake(t, n) =>
      if n in s.queued then s
      else BeginEnqueue(s, n).(queued := s.queued + {n}, wakers := s.wakers[t := n])
    case WakerStep(t) => DoWakerStep(s, t)
    case NotifyStep(t) => WakerCellStep(s, t)
    case Unpark => s.(unparking := s.unparking - 1, token := true)
    case Push(n) =>
      BeginEnqueue(s, n).(created := s.created + {n}, live := s.live + {n}, queued := s.queued + {n},
                          exec := PushEnq(n, s.exec == Outside))
    case PollReturns(pending) => DoPollReturns(s, pending)
    case Release(n) => s.(live := s.live - {n}, queued := s.queued + {n})
    case UserToken(given) => s.(token := given)
    case SpuriousReturn => s.(exec := ClearUnparked)
    case PollAgain => s.(exec := Pushing)
    case Leave => s.(exec := Outside)
    case NextCall => s.(exec := LoopTop)
    case ExecStep => DoExec(s)
  }

  // ----------------------------------------------------------- invariants

  ghost predicate Parts(s: State) {
    && Q.Inv(s.queue)
    && W.Exclusive(s.waker)
    && W.DeliveryInv(s.waker)
    && W.EpochsBounded(s.waker)
    && !s.misuse
  }

  // The executor's own enqueue, if it is in the middle of one.
  predicate ExecEnqueues(e: Exec, n: Node) {
    (e.PushEnq? || e.Requeue?) && e.node == n
  }

  // Who may be where: the executor is the only registrar and the only consumer,
  // and every enqueue in flight belongs to exactly one call.
  ghost predicate Roles(s: State) {
    && (EXEC in s.waker.threads <==> s.exec == Registering)
    && (forall t :: t in s.waker.threads ==> (t == EXEC <==> W.Registering(s.waker.threads[t])))
    && (forall t :: t in s.wakers ==>
          t != EXEC && t !in s.waker.threads && s.wakers[t] in s.queue.inflight && !ExecEnqueues(s.exec, s.wakers[t]))
    && (forall t, u :: t in s.wakers && u in s.wakers && s.wakers[t] == s.wakers[u] ==> t == u)
    && (s.exec.PushEnq? || s.exec.Requeue? ==> s.exec.node in s.queue.inflight)
    && (forall n :: n in s.queue.inflight ==> ExecEnqueues(s.exec, n) || exists t :: t in s.wakers && s.wakers[t] == n)
    && (s.queue.consumer != Q.Idle ==> s.exec.Dequeuing?)
  }

  // The `queued` flag of a live task says whether the task is inside the queue;
  // the flag of a released one is set for good.
  ghost predicate Flags(s: State) {
    && s.live <= s.created && s.queued <= s.created && s.polled <= s.created && Q.STUB !in s.created
    && (forall n :: Q.Inside(s.queue, n) && n != Q.STUB ==> n in s.queued)
    && (forall n :: n in s.live && n in s.queued ==> Q.Inside(s.queue, n))
    && (forall n :: n in s.created && n !in s.live ==> n in s.queued)
    && (s.exec.Polling? ==> s.exec.node in s.live && s.exec.node in s.polled)
    && (s.exec.Requeue? ==> s.exec.node in s.live && s.exec.node in s.polled && s.exec.node in s.queued)
    && ((s.exec.Dequeuing? || s.exec.Polling? || s.exec.Requeue?) && s.exec.initial.Some? ==>
          s.exec.initial.value in s.polled)
  }

  // Some wake has set a `queued` flag and not yet reached its fetch_or.
  ghost predicate WakeUnderWay(s: State) {
    s.wakers != map[] || exists t :: t in s.waker.threads && s.waker.threads[t] == W.TakeSet
  }

  // Some wake has reached its fetch_or since poll_pool first registered.
  ghost predicate Notified(s: State) {
    exists k :: k in s.waker.notified && k >= s.cycleEpoch
  }

  ghost predicate Covered(s: State) {
    Q.Tasks(s.queue.chain) == [] || WakeUnderWay(s) || Notified(s)
  }

  // The executor is between the start of poll_pool and the end of park.
  predicate InCycle(e: Exec) {
    e != LoopTop && e != ClearUnparked && e != Outside && !(e.PushEnq? && e.direct)
  }

  ghost predicate Cover(s: State) {
    && (InCycle(s.exec) ==> s.cycleEpoch > 0)
    && s.waker.epoch + 1 >= s.cycleEpoch
    && (EXEC in s.waker.threads && !s.waker.threads[EXEC].RegAcquire? ==> s.waker.epoch >= s.cycleEpoch)
    && (s.exec.Dequeuing? || s.exec.Polling? || s.exec.Requeue? || s.exec == WakeSelf || s.exec.Returned?
        || s.exec == CheckUnparked || s.exec == Park || s.polled != {} ==>
          s.waker.epoch >= s.cycleEpoch)
    && ((exists n :: n in s.polled && n in s.queued && n in s.live) ==> WakeUnderWay(s) || Notified(s))
    && (InCycle(s.exec) && (exists k :: k in s.waker.woken && k >= s.cycleEpoch) ==> s.unparked)
    && (s.exec == Returned(false) || s.exec == CheckUnparked ==> Covered(s) || s.unparked)
    && (s.exec == Park ==> Covered(s))
    && (s.exec == Park && s.unparked ==> s.token || s.unparking > 0)
  }

  ghost predicate Inv(s: State) {
    Parts(s) && Roles(s) && Flags(s) && Cover(s)
  }

  // ------------------------------------------------- every step keeps them

  lemma BeginKeepsQueue(s: State, n: Node)
    requires Parts(s) && n != Q.STUB && !Q.Inside(s.queue, n)
    ensures var s' := BeginEnqueue(s, n);
            s' == s.(queue := s.queue.(inflight := s.queue.inflight[n := Q.Begun])) && Parts(s')
  {
    Q.StepInv(s.queue, Q.Begin(n));
  }

  // A wake that sets the flag begins an enqueue.
  ghost predicate BeginsWake(s: State, s': State, t: Thread, n: Node) {
    && n !in s.queue.inflight && t !in s.wakers && t !in s.waker.threads && t != EXEC
    && s' == s.(queue := s.queue.(inflight := s.queue.inflight[n := Q.Begun]),
                queued := s.queued + {n}, wakers := s.wakers[t := n])
  }

  lemma WakeRoles(s: State, s': State, t: Thread, n: Node)
    requires Roles(s) && BeginsWake(s, s', t, n)
    ensures Roles(s')
  {
    assert t in s'.wakers && s'.wakers[t] == n;
    forall m | m in s'.queue.inflight
      ensures ExecEnqueues(s'.exec, m) || exists u :: u in s'.wakers && s'.wakers[u] == m
    {
      if m != n && !ExecEnqueues(s.exec, m) {
        var u :| u in s.wakers && s.wakers[u] == m;
        assert u in s'.wakers && s'.wakers[u] == m;
      }
    }
  }

  lemma WakeFlags(s: State, s': State, t: Thread, n: Node)
    requires Flags(s) && BeginsWake(s, s', t, n) && n in s.created
    ensures Flags(s')
  {
    assert forall m :: Q.Inside(s'.queue, m) <==> Q.Inside(s.queue, m) || m == n;
  }

  lemma WakeCover(s: State, s': State, t: Thread, n: Node)
    requires Cover(s) && BeginsWake(s, s', t, n)
    ensures Cover(s')
  {
    assert t in s'.wakers;
    assert WakeUnderWay(s');
  }

  lemma WakeInv(s: State, t: Thread, n: Node)
    requires Inv(s) && Enabled(s, Wake(t, n))
    ensures Inv(Do(s, Wake(t, n)))
  {
    if n !in s.queued {
      var s' := Do(s, Wake(t, n));
      BeginKeepsQueue(s, n);
      assert BeginsWake(s, s', t, n);
      WakeRoles(s, s', t, n);
      WakeFlags(s, s', t, n);
      WakeCover(s, s', t, n);
    }
  }

  // What an enqueue step does, seen from outside the queue.
  ghost predicate Stepped(q: Q.State, q': Q.State, n: Node) {
    && q'.consumer == q.consumer
    && (forall m :: m != n ==> (m in q'.inflight <==> m in q.inflight) && (m in q'.chain <==> m in q.chain))
    && Q.Inside(q, n) && Q.Inside(q', n)
    && n in q.inflight && (n in q'.inflight || q.inflight[n].Swapped?)
    && (q'.chain == q.chain || q'.chain == q.chain + [n])
  }

  lemma EnqueueStepInv(q: Q.State, n: Node)
    requires Q.Inv(q) && n in q.inflight
    ensures Q.Inv(EnqueueStep(q, n)) && Stepped(q, EnqueueStep(q, n), n)
  {
    match q.inflight[n]
    case Begun => Q.StepInv(q, Q.Clear(n));
    case Cleared => Q.StepInv(q, Q.Swap(n));
    case Swapped(p) => Q.StepInv(q, Q.Link(n)); Q.AdjacentIn(q.chain, p, n);
  }

  lemma CellStep(w: W.State, a: W.Action)
    requires W.Exclusive(w) && W.DeliveryInv(w) && W.EpochsBounded(w) && W.Enabled(w, a)
    requires a.CallRegister? ==> forall t :: t in w.threads ==> !W.Registering(w.threads[t])
    ensures var w' := W.Do(w, a); W.Exclusive(w') && W.DeliveryInv(w') && W.EpochsBounded(w')
  {
    W.StepExclusive(w, a);
    W.StepEpochs(w, a);
    W.OneRegistrarStays(w, a);
    W.StepDelivery(w, a);
  }

  // Flags do not see how far an enqueue has come.
  lemma SteppedFlags(s: State, s': State, n: Node)
    requires Flags(s) && Stepped(s.queue, s'.queue, n)
    requires s'.live == s.live && s'.created == s.created && s'.queued == s.queued && s'.polled == s.polled
    requires s'.exec == s.exec || s'.exec == Pushing || s'.exec == Outside || s'.exec.Returned?
      || (s.exec.Requeue? && s'.exec.Dequeuing?
          && (s'.exec.initial == s.exec.initial || s'.exec.initial == Some(s.exec.node)))
    ensures Flags(s')
  {
  }

  // The executor's own enqueue goes on, or is over.
  lemma SteppedRoles(s: State, s': State)
    requires Roles(s) && (s.exec.PushEnq? || s.exec.Requeue?) && Stepped(s.queue, s'.queue, s.exec.node)
    requires s' == s.(queue := s'.queue, exec := s'.exec)
    requires if s.exec.node in s'.queue.inflight then s'.exec == s.exec
             else s'.exec == Pushing || s'.exec == Outside || s'.exec.Returned? || s'.exec.Dequeuing?
    ensures Roles(s')
  {
  }

  lemma WakerGoesOnRoles(s: State, s': State, t: Thread)
    requires Roles(s) && t in s.wakers && Stepped(s.queue, s'.queue, s.wakers[t])
    requires s' == s.(queue := s'.queue) && s.wakers[t] in s'.queue.inflight
    ensures Roles(s')
  {
  }

  // Its enqueue is over: the thread goes on to AtomicWaker::wake.
  lemma WakerEndsRoles(s: State, s': State, t: Thread)
    requires Roles(s) && t in s.wakers && Stepped(s.queue, s'.queue, s.wakers[t])
    requires s' == s.(queue := s'.queue, wakers := s.wakers - {t},
                      waker := s.waker.(threads := s.waker.threads[t := W.TakeSet]))
    requires s.wakers[t] !in s'.queue.inflight
    ensures Roles(s')
  {
    var w, w' := s.waker.threads, s'.waker.threads;
    assert forall u :: u in w' ==> u == t || (u in w && w'[u] == w[u]);
    assert forall u :: u in s'.wakers ==> u != t && u in s.wakers && s'.wakers[u] == s.wakers[u];
    forall m | m in s'.queue.inflight
      ensures ExecEnqueues(s'.exec, m) || exists u :: u in s'.wakers && s'.wakers[u] == m
    {
      if !ExecEnqueues(s.exec, m) {
        var u :| u in s.wakers && s.wakers[u] == m;
        assert u in s'.wakers && s'.wakers[u] == m;
      }
    }
  }

  lemma WakerStepCover(s: State, s': State, t: Thread)
    requires Cover(s) && t in s.wakers
    requires s' == s.(queue := s'.queue) ||
      s' == s.(queue := s'.queue, wakers := s.wakers - {t},
               waker := s.waker.(threads := s.waker.threads[t := W.TakeSet]))
    requires t != EXEC
    ensures Cover(s')
  {
    assert WakeUnderWay(s') by {
      if t !in s'.wakers {
        assert s'.waker.threads[t] == W.TakeSet;
      }
    }
  }

  lemma WakerStepInv(s: State, t: Thread)
    requires Inv(s) && Enabled(s, WakerStep(t))
    ensures Inv(Do(s, WakerStep(t)))
  {
    var n, s' := s.wakers[t], Do(s, WakerStep(t));
    EnqueueStepInv(s.queue, n);
    if n in s'.queue.inflight {
      WakerGoesOnRoles(s, s', t);
    } else {
      CellStep(s.waker, W.CallTake(t));
      WakerEndsRoles(s, s', t);
    }
    SteppedFlags(s, s', n);
    WakerStepCover(s, s', t);
  }

  // One access of a waker thread inside the AtomicWaker, seen from outside: only
  // its fetch_or ends the enqueueing part of a wake, and that notifies the current
  // epoch; only its last access wakes.
  ghost predicate TakeEffect(w: W.State, w': W.State, t: Thread) {
    && t in w.threads
    && w'.epoch == w.epoch
    && w'.notified == (if w.threads[t] == W.TakeSet then w.notified + {w.epoch} else w.notified)
    && (w'.woken == w.woken || AboutToWake(w, t))
    && (forall u :: u != t ==> (u in w'.threads <==> u in w.threads))
    && (forall u :: u != t && u in w.threads ==> w'.threads[u] == w.threads[u])
    && (t in w'.threads ==> !W.Registering(w'.threads[t]))
  }

  lemma TakeStepEffect(w: W.State, t: Thread)
    requires W.Exclusive(w) && t in w.threads && !W.Registering(w.threads[t])
    ensures TakeEffect(w, W.Do(w, W.Step(t)), t)
  {
  }

  lemma NotifyStepKeepsCovered(s: State, s': State, t: Thread)
    requires TakeEffect(s.waker, s'.waker, t) && s'.wakers == s.wakers && s'.cycleEpoch == s.cycleEpoch
    ensures WakeUnderWay(s) && s.waker.epoch >= s.cycleEpoch ==> WakeUnderWay(s') || Notified(s')
    ensures Notified(s) ==> Notified(s')
  {
    if s.wakers == map[] && WakeUnderWay(s) {
      var u :| u in s.waker.threads && s.waker.threads[u] == W.TakeSet;
      if u == t {
        assert s.waker.epoch in s'.waker.notified;
      } else {
        assert u in s'.waker.threads && s'.waker.threads[u] == W.TakeSet;
      }
    }
  }

  // The rest of the state after such an access.
  ghost predicate Notifies(s: State, s': State, t: Thread) {
    && TakeEffect(s.waker, s'.waker, t)
    && s' == s.(waker := s'.waker, unparked := s'.unparked, unparking := s'.unparking)
    && (s.unparked ==> s'.unparked) && s'.unparking >= s.unparking
    && (s'.unparked && !s.unparked ==> s'.unparking > 0)
    && (s'.waker.woken == s.waker.woken || s'.unparked)
  }

  lemma NotifyShape(s: State, t: Thread)
    requires t in s.waker.threads && TakeEffect(s.waker, W.Do(s.waker, W.Step(t)), t)
    ensures Notifies(s, WakerCellStep(s, t), t)
  {
  }

  lemma NotifyRoles(s: State, s': State, t: Thread)
    requires Roles(s) && Flags(s) && t != EXEC && Notifies(s, s', t)
    ensures Roles(s') && Flags(s')
  {
  }

  lemma NotifyCover(s: State, s': State, t: Thread)
    requires Cover(s) && t != EXEC && Notifies(s, s', t)
    ensures Cover(s')
  {
    NotifyStepKeepsCovered(s, s', t);
  }

  lemma NotifyStepInv(s: State, t: Thread)
    requires Inv(s) && Enabled(s, NotifyStep(t))
    ensures Inv(Do(s, NotifyStep(t)))
  {
    CellStep(s.waker, W.Step(t));
    TakeStepEffect(s.waker, t);
    var s' := Do(s, NotifyStep(t));
    NotifyShape(s, t);
    NotifyRoles(s, s', t);
    NotifyCover(s, s', t);
  }

  lemma PushRoles(s: State, n: Node)
    requires Inv(s) && Enabled(s, Push(n)) && !Q.Inside(s.queue, n)
    ensures Roles(Do(s, Push(n)))
  {
    BeginKeepsQueue(s, n);
    var s' := Do(s, Push(n));
    forall m | m in s'.queue.inflight
      ensures ExecEnqueues(s'.exec, m) || exists u :: u in s'.wakers && s'.wakers[u] == m
    {
      if m != n {
        var u :| u in s.wakers && s.wakers[u] == m;
        assert u in s'.wakers && s'.wakers[u] == m;
      }
    }
  }

  lemma PushInv(s: State, n: Node)
    requires Inv(s) && Enabled(s, Push(n))
    ensures Inv(Do(s, Push(n)))
  {
    BeginKeepsQueue(s, n);
    PushRoles(s, n);
    PushFlags(s, n);
    QuietCover(s, Do(s, Push(n)));
  }

  // A step that changes neither the AtomicWaker, nor the set of wakes under way,
  // and stays away from the end of the cycle.
  lemma QuietCover(s: State, s': State)
    requires Cover(s) && s'.waker == s.waker && s'.wakers == s.wakers && s'.cycleEpoch == s.cycleEpoch
    requires s'.polled == s.polled && s'.unparked == s.unparked
    requires forall n :: n in s'.polled && n in s'.queued && n in s'.live ==> n in s.queued && n in s.live
    requires (InCycle(s'.exec) ==> InCycle(s.exec)) && s'.exec.PushEnq?
    ensures Cover(s')
  {
    assert WakeUnderWay(s) ==> WakeUnderWay(s');
    assert Notified(s) ==> Notified(s');
  }

  lemma PushFlags(s: State, n: Node)
    requires Inv(s) && Enabled(s, Push(n)) && !Q.Inside(s.queue, n)
    ensures Flags(Do(s, Push(n)))
  {
    BeginKeepsQueue(s, n);
  }

  // Actions that touch neither the queue nor the AtomicWaker.
  predicate LocalAction(a: Action) {
    a.Unpark? || a.UserToken? || a.SpuriousReturn? || a.PollAgain? || a.Leave? || a.NextCall?
  }

  predicate LocalMove(e: Exec, e': Exec) {
    || e' == e
    || (e == Park && e' == ClearUnparked)
    || (e.Returned? && (e' == Pushing || e' == Outside))
    || (e == Outside && e' == LoopTop)
  }

  lemma LocalKeeps(s: State, a: Action)
    requires Enabled(s, a) && LocalAction(a)
    ensures var s' := Do(s, a);
      s' == s.(exec := s'.exec, token := s'.token, unparking := s'.unparking)
      && LocalMove(s.exec, s'.exec)
      && (s'.exec == Park ==> s'.token || (s.unparking == s'.unparking && s.token == s'.token))
  {
  }

  lemma LocalRoles(s: State, s': State)
    requires Roles(s) && Flags(s) && s' == s.(exec := s'.exec, token := s'.token, unparking := s'.unparking)
    requires LocalMove(s.exec, s'.exec)
    ensures Roles(s') && Flags(s')
  {
  }

  lemma LocalCover(s: State, s': State)
    requires Cover(s) && s' == s.(exec := s'.exec, token := s'.token, unparking := s'.unparking)
    requires LocalMove(s.exec, s'.exec)
    requires s'.exec == Park ==> s'.token || (s.unparking == s'.unparking && s.token == s'.token)
    ensures Cover(s')
  {
    assert WakeUnderWay(s) ==> WakeUnderWay(s');
    assert Notified(s) ==> Notified(s');
  }

  lemma LocalInv(s: State, a: Action)
    requires Inv(s) && Enabled(s, a) && LocalAction(a)
    ensures Inv(Do(s, a))
  {
    LocalKeeps(s, a);
    LocalRoles(s, Do(s, a));
    LocalCover(s, Do(s, a));
  }

  lemma PollReturnsInv(s: State, pending: bool)
    requires Inv(s) && Enabled(s, PollReturns(pending))
    ensures Inv(Do(s, PollReturns(pending)))
  {
    SameRoles(s, DoPollReturns(s, pending));
    PollReturnsFlags(s, pending);
    PollReturnsCover(s, pending);
  }

  lemma PollReturnsFlags(s: State, pending: bool)
    requires Flags(s) && s.exec.Polling?
    ensures Flags(DoPollReturns(s, pending))
  {
  }

  lemma PollReturnsCover(s: State, pending: bool)
    requires Cover(s) && s.exec.Polling?
    ensures Cover(DoPollReturns(s, pending))
  {
    var s' := DoPollReturns(s, pending);
    assert WakeUnderWay(s) ==> WakeUnderWay(s');
    assert Notified(s) ==> Notified(s');
    assert forall n :: n in s'.polled && n in s'.queued && n in s'.live ==> n in s.queued && n in s.live;
  }

  lemma ReleaseInv(s: State, n: Node)
    requires Inv(s) && Enabled(s, Release(n))
    ensures Inv(Do(s, Release(n)))
  {
    var s' := Do(s, Release(n));
    SameRoles(s, s');
    assert WakeUnderWay(s) ==> WakeUnderWay(s');
    assert Notified(s) ==> Notified(s');
    assert forall m :: m in s'.polled && m in s'.queued && m in s'.live ==> m in s.queued && m in s.live;
  }

  // --------------------------------------------------- the executor's steps

  predicate LocalPc(e: Exec) {
    e == LoopTop || e == WakeSelf || e.Returned? || e == CheckUnparked || e == Park || e == ClearUnparked
  }

  lemma ExecLocalInv(s: State)
    requires Inv(s) && Enabled(s, ExecStep) && LocalPc(s.exec)
    ensures Inv(DoExec(s))
  {
    ExecLocalParts(s);
    ExecLocalRoles(s);
    if s.exec == LoopTop {
      StartCycleCover(s);
    } else {
      ExecLocalCover(s);
    }
  }

  lemma ExecLocalParts(s: State)
    requires Parts(s) && Enabled(s, ExecStep) && LocalPc(s.exec)
    ensures Parts(DoExec(s))
  {
    ExecLocalKeeps(s);
  }

  lemma ExecLocalKeeps(s: State)
    requires Enabled(s, ExecStep) && LocalPc(s.exec)
    ensures var s' := DoExec(s);
      && s'.queue == s.queue && s'.waker == s.waker && s'.wakers == s.wakers && s'.live == s.live
      && s'.created == s.created && s'.queued == s.queued && s'.polled <= s.polled
      && !s'.exec.Dequeuing? && !s'.exec.Polling? && !s'.exec.Requeue? && !s'.exec.PushEnq? && s'.exec != Registering
  {
  }

  lemma ExecLocalRoles(s: State)
    requires Roles(s) && Flags(s) && Enabled(s, ExecStep) && LocalPc(s.exec)
    ensures Roles(DoExec(s)) && Flags(DoExec(s))
  {
    ExecLocalKeeps(s);
    SameRoles(s, DoExec(s));
    SameFlags(s, DoExec(s));
  }

  lemma SameRoles(s: State, s': State)
    requires Roles(s) && !s.exec.Dequeuing? && !s.exec.PushEnq? && !s.exec.Requeue? && s.exec != Registering
    requires s'.queue == s.queue && s'.waker == s.waker && s'.wakers == s.wakers
    requires !s'.exec.PushEnq? && !s'.exec.Requeue? && s'.exec != Registering
    ensures Roles(s')
  {
  }

  lemma SameFlags(s: State, s': State)
    requires Flags(s) && s'.queue == s.queue && s'.live == s.live && s'.created == s.created && s'.queued == s.queued
    requires s'.polled <= s.polled && !s'.exec.Dequeuing? && !s'.exec.Polling? && !s'.exec.Requeue?
    ensures Flags(s')
  {
  }

  lemma StartCycleCover(s: State)
    requires Cover(s) && W.EpochsBounded(s.waker) && s.exec == LoopTop && EXEC !in s.waker.threads
    ensures Cover(DoExec(s))
  {
  }

  lemma ExecLocalCover(s: State)
    requires Cover(s) && Enabled(s, ExecStep) && LocalPc(s.exec) && s.exec != LoopTop
    ensures Cover(DoExec(s))
  {
    var s' := DoExec(s);
    assert s'.waker == s.waker && s'.wakers == s.wakers && s'.cycleEpoch == s.cycleEpoch;
    assert WakeUnderWay(s) ==> WakeUnderWay(s');
    assert Notified(s) ==> Notified(s');
    assert Covered(s) ==> Covered(s');
  }

  lemma StartRegisterRoles(s: State)
    requires Roles(s) && Flags(s) && s.exec == Pushing
    ensures Roles(DoExec(s)) && Flags(DoExec(s))
  {
    var s' := DoExec(s);
    assert s'.exec == Registering && s'.waker.threads == s.waker.threads[EXEC := W.RegAcquire(EXEC)];
  }

  lemma StartRegisterCover(s: State)
    requires Cover(s) && s.exec == Pushing && EXEC !in s.waker.threads
    ensures Cover(DoExec(s))
  {
    var s' := DoExec(s);
    assert WakeUnderWay(s) ==> WakeUnderWay(s') by {
      if u :| u in s.waker.threads && s.waker.threads[u] == W.TakeSet {
        assert s'.waker.threads[u] == W.TakeSet;
      }
    }
    assert Notified(s) ==> Notified(s');
  }

  lemma StartRegisterInv(s: State)
    requires Inv(s) && s.exec == Pushing
    ensures Inv(DoExec(s))
  {
    CellStep(s.waker, W.CallRegister(EXEC, EXEC));
    StartRegisterRoles(s);
    StartRegisterCover(s);
  }

  lemma PushStepInv(s: State)
    requires Inv(s) && s.exec.PushEnq?
    ensures Inv(DoExec(s))
  {
    var n, s' := s.exec.node, DoExec(s);
    EnqueueStepInv(s.queue, n);
    SteppedRoles(s, s');
    SteppedFlags(s, s', n);
    PushStepCover(s);
  }

  lemma PushStepCover(s: State)
    requires Cover(s) && s.exec.PushEnq?
    ensures Cover(DoExec(s))
  {
    var s' := DoExec(s);
    assert WakeUnderWay(s) ==> WakeUnderWay(s');
    assert Notified(s) ==> Notified(s');
  }

  // One access of the executor inside `register`, seen from outside.
  ghost predicate RegisterEffect(w: W.State, w': W.State) {
    && EXEC in w.threads
    && w.epoch <= w'.epoch
    && w'.notified == w.notified
    && (w'.woken == w.woken || AboutToWake(w, EXEC))
    && (forall u :: u != EXEC ==> (u in w'.threads <==> u in w.threads))
    && (forall u :: u != EXEC && u in w.threads ==> w'.threads[u] == w.threads[u])
    && (EXEC in w'.threads ==> W.Registering(w'.threads[EXEC]) && !w'.threads[EXEC].RegAcquire?)
    && (w.threads[EXEC].RegAcquire? ==> w'.epoch == w.epoch + 1)
  }

  lemma RegisterStepEffect(w: W.State)
    requires W.Exclusive(w) && EXEC in w.threads
    requires forall t :: t in w.threads ==> (t == EXEC <==> W.Registering(w.threads[t]))
    ensures RegisterEffect(w, W.Do(w, W.Step(EXEC)))
  {
  }

  lemma RegisterStepShape(s: State, s': State, w': W.State)
    requires Roles(s) && Flags(s) && s.exec == Registering && RegisterEffect(s.waker, w')
    requires var s1 := if AboutToWake(s.waker, EXEC) then Notify(s.(waker := w')) else s.(waker := w');
             s' == if EXEC in w'.threads then s1 else s1.(exec := Dequeuing(None))
    ensures Roles(s') && Flags(s')
  {
  }

  lemma RegisterStepCover(s: State, s': State, w': W.State)
    requires Cover(s) && s.exec == Registering && RegisterEffect(s.waker, w')
    requires W.Registering(s.waker.threads[EXEC])
    requires var s1 := if AboutToWake(s.waker, EXEC) then Notify(s.(waker := w')) else s.(waker := w');
             s' == if EXEC in w'.threads then s1 else s1.(exec := Dequeuing(None))
    ensures Cover(s')
  {
    assert WakeUnderWay(s) ==> WakeUnderWay(s') by {
      if u :| u in s.waker.threads && s.waker.threads[u] == W.TakeSet {
        assert s'.waker.threads[u] == W.TakeSet;
      }
    }
    assert Notified(s) ==> Notified(s');
    assert s'.waker.woken == s.waker.woken || s'.unparked;
  }

  lemma RegisterStepInv(s: State)
    requires Inv(s) && s.exec == Registering
    ensures Inv(DoExec(s))
  {
    CellStep(s.waker, W.Step(EXEC));
    RegisterStepEffect(s.waker);
    RegisterStepShape(s, DoExec(s), W.Do(s.waker, W.Step(EXEC)));
    RegisterStepCover(s, DoExec(s), W.Do(s.waker, W.Step(EXEC)));
  }

  lemma RequeueStepInv(s: State)
    requires Inv(s) && s.exec.Requeue?
    ensures Inv(DoExec(s))
  {
    RequeueShape(s);
    RequeueStepParts(s);
    EnqueueStepInv(s.queue, s.exec.node);
    SteppedRoles(s, DoExec(s));
    SteppedFlags(s, DoExec(s), s.exec.node);
    RequeueStepCover(s);
  }

  // What an access of the executor's own enqueue does, beside the queue's part of it.
  lemma RequeueShape(s: State)
    requires s.exec.Requeue?
    ensures var s', n := DoExec(s), s.exec.node;
      && s' == s.(queue := EnqueueStep(s.queue, n), exec := s'.exec)
      && (n in s'.queue.inflight ==> s'.exec == s.exec)
      && (n !in s'.queue.inflight ==>
            || s'.exec.Returned?
            || (s'.exec.Dequeuing? && (s'.exec.initial == s.exec.initial || s'.exec.initial == Some(n))))
  {
  }

  lemma RequeueStepParts(s: State)
    requires Parts(s) && Roles(s) && s.exec.Requeue?
    ensures Parts(DoExec(s))
  {
    EnqueueStepInv(s.queue, s.exec.node);
  }

  lemma RequeueStepCover(s: State)
    requires Inv(s) && s.exec.Requeue?
    ensures Cover(DoExec(s))
  {
    var s' := DoExec(s);
    assert s'.waker == s.waker && s'.wakers == s.wakers && s'.polled == s.polled;
    assert WakeUnderWay(s) || Notified(s);
    assert WakeUnderWay(s') || Notified(s');
  }

  lemma StartDequeueInv(s: State)
    requires Inv(s) && s.exec.Dequeuing? && s.queue.consumer == Q.Idle
    ensures Inv(DoExec(s))
  {
    Q.StepInv(s.queue, Q.Start);
    DequeueQuietly(s, DoExec(s));
  }

  // A step of the consumer that returns nothing to act on.
  lemma DequeueQuietly(s: State, s': State)
    requires Roles(s) && Flags(s) && Cover(s) && s.exec.Dequeuing?
    requires s' == s.(queue := s'.queue)
    requires s'.queue.inflight == s.queue.inflight
    requires forall m :: m != Q.STUB ==> (m in s'.queue.chain <==> m in s.queue.chain)
    ensures Roles(s') && Flags(s') && Cover(s')
  {
    DequeueQuietFlags(s, s');
    QueueOnlyCover(s, s');
  }

  lemma DequeueQuietFlags(s: State, s': State)
    requires Flags(s) && s' == s.(queue := s'.queue)
    requires s'.queue.inflight == s.queue.inflight
    requires forall m :: m != Q.STUB ==> (m in s'.queue.chain <==> m in s.queue.chain)
    ensures Flags(s')
  {
  }

  lemma DequeueStopsFlags(s: State, s': State)
    requires Parts(s) && Roles(s) && Flags(s) && s.exec.Dequeuing?
    requires s' == s.(queue := s'.queue, exec := s'.exec) && (s'.exec == WakeSelf || s'.exec.Returned?)
    requires s'.queue.inflight == s.queue.inflight && s'.queue.consumer == Q.Idle
    requires forall m :: m != Q.STUB ==> (m in s'.queue.chain <==> m in s.queue.chain)
    ensures Roles(s') && Flags(s')
  {
    LeaveDequeueRoles(s, s');
    DequeueQuietFlags(s, s'.(exec := s.exec));
    SameFlags(s'.(exec := s.exec), s');
  }

  // poll_next returns, or is about to wake its own waker.
  lemma DequeueStopsInv(s: State)
    requires Inv(s) && s.exec.Dequeuing? && s.queue.consumer != Q.Idle
    requires var r := Q.ResultOf(s.queue, Q.Consume); r == Some(Q.Empty) || r == Some(Q.Inconsistent)
    ensures Inv(DoExec(s))
  {
    DequeueStopsShape(s);
    DequeueStopsFlags(s, DoExec(s));
    if DoExec(s).exec.Returned? {
      EmptyIsCovered(s);
    }
    StopCover(s, DoExec(s));
  }

  lemma DequeueStopsShape(s: State)
    requires Q.Inv(s.queue) && s.exec.Dequeuing? && s.queue.consumer != Q.Idle
    requires var r := Q.ResultOf(s.queue, Q.Consume); r == Some(Q.Empty) || r == Some(Q.Inconsistent)
    ensures var s' := DoExec(s);
      && s' == s.(queue := s'.queue, exec := s'.exec)
      && s'.exec == (if Q.ResultOf(s.queue, Q.Consume) == Some(Q.Empty) then Returned(s.live == {}) else WakeSelf)
      && Q.Inv(s'.queue) && s'.queue.inflight == s.queue.inflight && s'.queue.consumer == Q.Idle
      && Q.Tasks(s'.queue.chain) == Q.Tasks(s.queue.chain)
      && forall m :: m != Q.STUB ==> (m in s'.queue.chain <==> m in s.queue.chain)
  {
    Q.ConsumeEffect(s.queue);
  }

  // `Empty` with something in the queue: its oldest enqueue is still in the hands
  // of a waker thread.
  lemma EmptyIsCovered(s: State)
    requires Parts(s) && Roles(s) && s.exec.Dequeuing? && s.queue.consumer != Q.Idle
    requires Q.ResultOf(s.queue, Q.Consume) == Some(Q.Empty)
    ensures Q.Tasks(s.queue.chain) == [] || s.wakers != map[]
  {
    Q.EmptyInGap(s.queue);
  }

  lemma LeaveDequeueRoles(s: State, s': State)
    requires Roles(s) && s.exec.Dequeuing?
    requires s'.waker == s.waker && s'.wakers == s.wakers && s'.queue.inflight == s.queue.inflight
    requires s'.queue.consumer == Q.Idle && !s'.exec.PushEnq? && !s'.exec.Requeue? && s'.exec != Registering
    ensures Roles(s')
  {
  }

  lemma StopCover(s: State, s': State)
    requires Cover(s) && s.exec.Dequeuing? && s' == s.(queue := s'.queue, exec := s'.exec)
    requires s'.exec == WakeSelf || s'.exec == Returned(true) || (s'.exec == Returned(false) && Covered(s'))
    ensures Cover(s')
  {
    assert WakeUnderWay(s) ==> WakeUnderWay(s');
    assert Notified(s) ==> Notified(s');
  }

  // The dequeued task's future is gone: only the queue changes.
  lemma DrainInv(s: State, n: Node)
    requires Inv(s) && s.exec.Dequeuing? && s.queue.consumer != Q.Idle
    requires Q.ResultOf(s.queue, Q.Consume) == Some(Q.Data(n)) && n !in s.live
    ensures Inv(DoExec(s))
  {
    Q.ConsumeEffect(s.queue);
    var s' := s.(queue := Q.Do(s.queue, Q.Consume));
    DequeuedData(s, n);
    LeaveDequeueRoles(s, s');
    DrainFlags(s, s', n);
    QueueOnlyCover(s, s');
  }

  // What the loop does with a task, by its flags.
  lemma DequeuedData(s: State, n: Node)
    requires s.exec.Dequeuing? && s.queue.consumer != Q.Idle
    requires Q.ResultOf(s.queue, Q.Consume) == Some(Q.Data(n)) && (n in s.live ==> n in s.queued)
    ensures var s0 := s.(queue := Q.Do(s.queue, Q.Consume));
      DoExec(s) ==
        if n !in s.live then s0
        else if n in s.polled then BeginEnqueue(s0, n).(exec := Requeue(n, s.exec.initial))
        else s0.(queued := s.queued - {n}, polled := s.polled + {n}, exec := Polling(n, s.exec.initial))
  {
  }

  lemma DrainFlags(s: State, s': State, n: Node)
    requires Flags(s) && s' == s.(queue := s'.queue) && n !in s.live
    requires s'.queue.inflight == s.queue.inflight
    requires forall m :: m != Q.STUB && m != n ==> (m in s'.queue.chain <==> m in s.queue.chain)
    requires !Q.Inside(s'.queue, n)
    ensures Flags(s')
  {
  }

  lemma QueueOnlyCover(s: State, s': State)
    requires Cover(s) && s.exec.Dequeuing? && s' == s.(queue := s'.queue)
    ensures Cover(s')
  {
    assert WakeUnderWay(s) ==> WakeUnderWay(s');
    assert Notified(s) ==> Notified(s');
  }

  // The dequeued task is polled for the first time in this cycle.
  lemma StartPollInv(s: State, n: Node)
    requires Inv(s) && s.exec.Dequeuing? && s.queue.consumer != Q.Idle
    requires Q.ResultOf(s.queue, Q.Consume) == Some(Q.Data(n)) && n in s.live && n !in s.polled
    ensures Inv(DoExec(s))
  {
    Q.ConsumeEffect(s.queue);
    var q' := Q.Do(s.queue, Q.Consume);
    assert n in s.queued;
    var s' := s.(queue := q', queued := s.queued - {n}, polled := s.polled + {n}, exec := Polling(n, s.exec.initial));
    DequeuedData(s, n);
    LeaveDequeueRoles(s, s');
    StartPollFlags(s, s', n);
    StartPollCover(s, s', n);
  }

  lemma StartPollFlags(s: State, s': State, n: Node)
    requires Flags(s) && s.exec.Dequeuing? && n in s.live
    requires s' == s.(queue := s'.queue, queued := s.queued - {n}, polled := s.polled + {n},
                      exec := Polling(n, s.exec.initial))
    requires s'.queue.inflight == s.queue.inflight && !Q.Inside(s'.queue, n)
    requires forall m :: m != Q.STUB && m != n ==> (m in s'.queue.chain <==> m in s.queue.chain)
    ensures Flags(s')
  {
  }

  lemma StartPollCover(s: State, s': State, n: Node)
    requires Cover(s) && s.exec.Dequeuing?
    requires s' == s.(queue := s'.queue, queued := s.queued - {n}, polled := s.polled + {n},
                      exec := Polling(n, s.exec.initial))
    ensures Cover(s')
  {
    assert WakeUnderWay(s) ==> WakeUnderWay(s');
    assert Notified(s) ==> Notified(s');
  }

  // The dequeued task was polled in this cycle: it goes back to the tail.
  lemma StartRequeueInv(s: State, n: Node)
    requires Inv(s) && s.exec.Dequeuing? && s.queue.consumer != Q.Idle
    requires Q.ResultOf(s.queue, Q.Consume) == Some(Q.Data(n)) && n in s.live && n in s.polled
    ensures Inv(DoExec(s))
  {
    Q.ConsumeEffect(s.queue);
    var s0 := s.(queue := Q.Do(s.queue, Q.Consume));
    assert n in s.queued;
    DequeuedData(s, n);
    BeginKeepsQueue(s0, n);
    var s' := BeginEnqueue(s0, n).(exec := Requeue(n, s.exec.initial));
    StartRequeueRoles(s, s', n);
    StartRequeueFlags(s, s', n);
    StartRequeueCover(s, s', n);
  }

  lemma StartRequeueFlags(s: State, s': State, n: Node)
    requires Flags(s) && s.exec.Dequeuing? && n in s.live && n in s.polled && n in s.queued
    requires s' == s.(queue := s'.queue, exec := Requeue(n, s.exec.initial))
    requires s'.queue.inflight == s.queue.inflight[n := Q.Begun]
    requires forall m :: m != Q.STUB && m != n ==> (m in s'.queue.chain <==> m in s.queue.chain)
    ensures Flags(s')
  {
  }

  lemma StartRequeueCover(s: State, s': State, n: Node)
    requires Cover(s) && s.exec.Dequeuing? && s' == s.(queue := s'.queue, exec := Requeue(n, s.exec.initial))
    ensures Cover(s')
  {
    assert WakeUnderWay(s) ==> WakeUnderWay(s');
    assert Notified(s) ==> Notified(s');
  }

  lemma StartRequeueRoles(s: State, s': State, n: Node)
    requires Roles(s) && s.exec.Dequeuing? && n !in s.queue.inflight
    requires s' == s.(queue := s'.queue, exec := Requeue(n, s.exec.initial))
    requires s'.queue.inflight == s.queue.inflight[n := Q.Begun] && s'.queue.consumer == Q.Idle
    ensures Roles(s')
  {
    forall m | m in s'.queue.inflight
      ensures ExecEnqueues(s'.exec, m) || exists u :: u in s'.wakers && s'.wakers[u] == m
    {
      if m != n {
        var u :| u in s.wakers && s.wakers[u] == m;
        assert u in s'.wakers && s'.wakers[u] == m;
      }
    }
  }

  lemma DequeueInv(s: State)
    requires Inv(s) && s.exec.Dequeuing?
    ensures Inv(DoExec(s))
  {
    if s.queue.consumer == Q.Idle {
      StartDequeueInv(s);
    } else {
      match Q.ResultOf(s.queue, Q.Consume)
      case None =>
        Q.ConsumeEffect(s.queue);
        DequeueQuietly(s, DoExec(s));
      case Some(Data(n)) =>
        if n !in s.live {
          DrainInv(s, n);
        } else if n in s.polled {
          StartRequeueInv(s, n);
        } else {
          StartPollInv(s, n);
        }
      case Some(_) => DequeueStopsInv(s);
    }
  }

  lemma StepInv(s: State, a: Action)
    requires Inv(s) && Enabled(s, a)
    ensures Inv(Do(s, a))
  {
    match a
    case Wake(t, n) => WakeInv(s, t, n);
    case WakerStep(t) => WakerStepInv(s, t);
    case NotifyStep(t) => NotifyStepInv(s, t);
    case Push(n) => PushInv(s, n);
    case PollReturns(pending) => PollReturnsInv(s, pending);
    case Release(n) => ReleaseInv(s, n);
    case ExecStep =>
      match s.exec {
        case Pushing => StartRegisterInv(s);
        case PushEnq(_, _) => PushStepInv(s);
        case Registering => RegisterStepInv(s);
        case Dequeuing(_) => DequeueInv(s);
        case Requeue(_, _) => RequeueStepInv(s);
        case _ => ExecLocalInv(s);
      }
    case _ => LocalInv(s, a);
  }

  // ----------------------------------------------------------------- runs

  ghost predicate Allowed(s: State, acts: seq<Action>)
    decreases |acts|
  {
    acts == [] || (Enabled(s, acts[0]) && Allowed(Do(s, acts[0]), acts[1..]))
  }

  ghost function After(s: State, acts: seq<Action>): State
    requires Allowed(s, acts)
    decreases |acts|
  {
    if acts == [] then s else After(Do(s, acts[0]), acts[1..])
  }

  ghost predicate Reachable(s: State) {
    exists acts :: Allowed(INITIAL, acts) && After(INITIAL, acts) == s
  }

  lemma {:induction false} RunInv(s: State, acts: seq<Action>)
    requires Inv(s) && Allowed(s, acts)
    ensures Inv(After(s, acts))
    decreases |acts|
  {
    if acts != [] {
      StepInv(s, acts[0]);
      RunInv(Do(s, acts[0]), acts[1..]);
    }
  }

  lemma ReachableStep(s: State, a: Action)
    requires Reachable(s) && Enabled(s, a)
    ensures Reachable(Do(s, a))
  {
    var acts :| Allowed(INITIAL, acts) && After(INITIAL, acts) == s;
    AfterAppend(INITIAL, acts, a);
  }

  lemma {:induction false} AfterAppend(s: State, acts: seq<Action>, a: Action)
    requires Allowed(s, acts) && Enabled(After(s, acts), a)
    ensures Allowed(s, acts + [a]) && After(s, acts + [a]) == Do(After(s, acts), a)
    decreases |acts|
  {
    if acts == [] {
      assert Allowed(Do(s, a), []);
    } else {
      assert (acts + [a])[1..] == acts[1..] + [a];
      AfterAppend(Do(s, acts[0]), acts[1..], a);
    }
  }

  lemma InitialInv()
    ensures Inv(INITIAL)
  {
    assert Q.Inv(Q.INITIAL) by {
      assert Q.INITIAL.chain[1..] == [];
      assert Q.Tasks(Q.INITIAL.chain) == [];
    }
  }

  lemma ReachableInv(s: State)
    requires Reachable(s)
    ensures Inv(s)
  {
    var acts :| Allowed(INITIAL, acts) && After(INITIAL, acts) == s;
    InitialInv();
    RunInv(INITIAL, acts);
  }

  // No lost wakeup.  After any number of calls of run and run_blocking, whatever the
  // interleaving of any number of waker threads: if the executor is blocked in `park`
  // with no token, and no thread is in the middle of a wake, then the ready queue is
  // empty and no live task is marked as woken.
  lemma NoLostWakeup(s: State)
    requires Reachable(s) && s.exec == Park && !s.token
    requires s.wakers == map[] && s.waker.threads == map[] && s.unparking == 0
    ensures Q.Tasks(s.queue.chain) == [] && s.queue.inflight == map[]
    ensures forall n :: n in s.live ==> n !in s.queued
  {
    ReachableInv(s);
    assert !WakeUnderWay(s);
    assert forall k :: k in s.waker.notified && k > 0 ==> W.Delivered(s.waker, k);
    assert !Notified(s);
    assert s.queue.inflight == map[];
    forall n | n in s.queue.chain && n != Q.STUB ensures false {
      Q.TasksMembers(s.queue.chain, n);
    }
  }

  // Wakes coalesce.  In every run the `queued` flag of a live task is set exactly
  // while the task is inside the queue, or being put there; so no node is ever
  // enqueued twice, and the executor's assert!(prev) never fails.
  lemma WakesCoalesce(s: State)
    requires Reachable(s)
    ensures !s.misuse
    ensures Distinct(s.queue.chain)
    ensures forall n :: n in s.live ==> (n in s.queued <==> Q.Inside(s.queue, n))
    ensures forall n :: n in s.created && n !in s.live ==> n in s.queued
  {
    ReachableInv(s);
  }

  // The action begins an enqueue of n; the action takes n out of the queue.
  predicate Begins(s: State, a: Action, n: Node)
    requires Enabled(s, a)
  {
    n !in s.queue.inflight && n in Do(s, a).queue.inflight
  }

  predicate Takes(s: State, a: Action, n: Node) {
    a == ExecStep && s.exec.Dequeuing? && s.queue.consumer != Q.Idle
    && Q.ResultOf(s.queue, Q.Consume) == Some(Q.Data(n))
  }

  function Count(b: bool): nat {
    if b then 1 else 0
  }

  // How often a run enqueues and dequeues n.
  ghost function Enqueues(s: State, acts: seq<Action>, n: Node): nat
    requires Allowed(s, acts)
    decreases |acts|
  {
    if acts == [] then 0 else Count(Begins(s, acts[0], n)) + Enqueues(Do(s, acts[0]), acts[1..], n)
  }

  ghost function Dequeues(s: State, acts: seq<Action>, n: Node): nat
    requires Allowed(s, acts)
    decreases |acts|
  {
    if acts == [] then 0 else Count(Takes(s, acts[0], n)) + Dequeues(Do(s, acts[0]), acts[1..], n)
  }

  // What begins is outside the queue, and what is taken is inside.
  predicate Balances(q: Q.State, q': Q.State, taken: bool, n: Node) {
    Count(n !in q.inflight && n in q'.inflight) + Count(Q.Inside(q, n)) == Count(taken) + Count(Q.Inside(q', n))
  }

  lemma SteppedBalances(q: Q.State, q': Q.State, m: Node, n: Node)
    requires Stepped(q, q', m)
    ensures Balances(q, q', false, n)
  {
  }

  lemma BegunBalances(q: Q.State, m: Node, n: Node)
    requires !Q.Inside(q, m)
    ensures Balances(q, q.(inflight := q.inflight[m := Q.Begun]), false, n)
  {
  }

  lemma ConsumeBalances(q: Q.State, n: Node)
    requires Q.Inv(q) && q.consumer != Q.Idle && n != Q.STUB
    ensures var (q', r) := Q.ConsumerStep(q);
      q'.inflight == q.inflight && Balances(q, q', r == Some(Q.Data(n)), n)
  {
    Q.ConsumeEffect(q);
  }

  // ... and put back at once: it was inside and is so again.
  lemma RequeueBalances(q: Q.State, m: Node, n: Node)
    requires Q.Inv(q) && q.consumer != Q.Idle && n != Q.STUB && Q.ConsumerStep(q).1 == Some(Q.Data(m))
    ensures var q' := Q.ConsumerStep(q).0;
      Balances(q, q'.(inflight := q'.inflight[m := Q.Begun]), m == n, n)
  {
    Q.ConsumeEffect(q);
  }

  // What a step of the loop does to the queue.
  predicate GoesBack(s: State, r: Option<Q.Result>) {
    r.Some? && r.value.Data? && r.value.node in s.live && r.value.node in s.polled
  }

  lemma DequeueQueue(s: State)
    requires s.exec.Dequeuing? && s.queue.consumer != Q.Idle
    requires var (q, r) := Q.ConsumerStep(s.queue);
      GoesBack(s, r) ==> r.value.node in s.queued && r.value.node != Q.STUB && !Q.Inside(q, r.value.node)
    ensures var (q, r) := Q.ConsumerStep(s.queue);
      DoExec(s).queue == if GoesBack(s, r) then q.(inflight := q.inflight[r.value.node := Q.Begun]) else q
  {
  }

  lemma DequeueBalances(s: State, n: Node)
    requires Q.Inv(s.queue) && Flags(s) && s.exec.Dequeuing? && s.queue.consumer != Q.Idle && n != Q.STUB
    ensures Balances(s.queue, DoExec(s).queue, Takes(s, ExecStep, n), n)
  {
    var (q, r) := Q.ConsumerStep(s.queue);
    if GoesBack(s, r) {
      Q.ConsumeEffect(s.queue);
      RequeueBalances(s.queue, r.value.node, n);
    } else {
      ConsumeBalances(s.queue, n);
    }
    DequeueQueue(s);
  }

  lemma EnqueueBalances(s: State, n: Node)
    requires Q.Inv(s.queue) && (s.exec.PushEnq? || s.exec.Requeue?) && s.exec.node in s.queue.inflight
    ensures Balances(s.queue, DoExec(s).queue, false, n)
  {
    EnqueueQueue(s);
    EnqueueStepInv(s.queue, s.exec.node);
    SteppedBalances(s.queue, EnqueueStep(s.queue, s.exec.node), s.exec.node, n);
  }

  lemma EnqueueQueue(s: State)
    requires s.exec.PushEnq? || s.exec.Requeue?
    ensures DoExec(s).queue == EnqueueStep(s.queue, s.exec.node)
  {
  }

  lemma ExecBalances(s: State, n: Node)
    requires Inv(s) && Enabled(s, ExecStep) && n != Q.STUB
    ensures Balances(s.queue, DoExec(s).queue, Takes(s, ExecStep, n), n)
  {
    if s.exec.Dequeuing? {
      if s.queue.consumer != Q.Idle {
        DequeueBalances(s, n);
      }
    } else if s.exec.PushEnq? || s.exec.Requeue? {
      EnqueueBalances(s, n);
    } else {
      OtherExecQueue(s);
    }
  }

  lemma OtherExecQueue(s: State)
    requires Enabled(s, ExecStep) && !s.exec.Dequeuing? && !s.exec.PushEnq? && !s.exec.Requeue?
    ensures DoExec(s).queue == s.queue
  {
  }

  lemma StepBalances(s: State, a: Action, n: Node)
    requires Inv(s) && Enabled(s, a) && n != Q.STUB
    ensures Balances(s.queue, Do(s, a).queue, Takes(s, a, n), n)
  {
    match a
    case Wake(t, m) =>
      if m !in s.queued {
        BeginKeepsQueue(s, m);
        BegunBalances(s.queue, m, n);
      }
    case WakerStep(t) =>
      EnqueueStepInv(s.queue, s.wakers[t]);
      SteppedBalances(s.queue, EnqueueStep(s.queue, s.wakers[t]), s.wakers[t], n);
    case Push(m) =>
      BeginKeepsQueue(s, m);
      BegunBalances(s.queue, m, n);
    case ExecStep => ExecBalances(s, n);
    case _ => assert Do(s, a).queue == s.queue;
  }

  lemma {:induction false} RunBalances(s: State, acts: seq<Action>, n: Node)
    requires Inv(s) && Allowed(s, acts) && n != Q.STUB
    ensures Enqueues(s, acts, n) + Count(Q.Inside(s.queue, n))
         == Dequeues(s, acts, n) + Count(Q.Inside(After(s, acts).queue, n))
    decreases |acts|
  {
    if acts != [] {
      StepInv(s, acts[0]);
      StepBalances(s, acts[0], n);
      RunBalances(Do(s, acts[0]), acts[1..], n);
    }
  }

  // Conservation.  However many wakes a task gets, over every run it has been
  // enqueued exactly as often as it has been dequeued, and once more if it is in
  // the queue now.
  lemma EnqueuesMatchDequeues(acts: seq<Action>, n: Node)
    requires Allowed(INITIAL, acts) && n != Q.STUB
    ensures Enqueues(INITIAL, acts, n)
         == Dequeues(INITIAL, acts, n) + Count(Q.Inside(After(INITIAL, acts).queue, n))
  {
    InitialInv();
    RunBalances(INITIAL, acts, n);
  }

  // A task that has been woken stays woken, and is not enqueued again, until it is
  // dequeued, whatever wakes come meanwhile.
  lemma WokenUntilDequeued(s: State, acts: seq<Action>, n: Node)
    requires Reachable(s) && n in s.live && n in s.queued && Allowed(s, acts)
    requires Dequeues(s, acts, n) == 0
    ensures Enqueues(s, acts, n) == 0
    ensures n in After(s, acts).queued && Q.Inside(After(s, acts).queue, n)
  {
    ReachableInv(s);
    RunBalances(s, acts, n);
    RunInv(s, acts);
  }
}
