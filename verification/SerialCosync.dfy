// SerialCosync of src/serial.rs: one task at a time, proved to do what
// SerialScheduling says.
module SerialCosyncs {
  import opened Wrappers
  import opened Programs
  import opened PollCycle
  import opened Scheduling
  import opened Sleeping
  import opened SerialScheduling
  import opened PoolCycles
  import opened Tasks
  import opened Inboxes
  import opened FuturesUnorderedSets
  import opened Cosyncs
  import opened Iters

  // At most one task is there, in the ready queue or asleep.
  ghost predicate Alone(c: Conf) {
    && |Entries(c.queue)| <= 1 && (c.asleep != map[] ==> Entries(c.queue) == [])
    && forall t, u :: t in c.asleep && u in c.asleep ==> t == u
  }

  // What a run of the serial scheduler is going to make of it: nothing while the
  // running task is asleep.
  ghost function Aim(c: Conf): Left {
    if c.asleep == map[] then SerialMixed(Abs(c)) else Left(Abs(c), [])
  }

  // With one task at most, one poll_next is one poll.
  lemma OnePolledOn(c: Conf, c1: Conf)
    requires |Entries(c.queue)| <= 1 && PolledOn(c, 0, c1) && DistinctKeys(c.queue)
    requires forall i :: 0 <= i < |c.queue| ==> c.queue[i].key !in c.asleep
    ensures Abs(c1) == Sched(Awake(Entries(c.queue)), PollAll(Entries(c.queue), c.env).env) && AtRest(c1)
    ensures var slept := SweepOf(c).slept;
      Slept(c.asleep, c1.asleep, slept) && Entries(slept) == Dozing(Entries(c.queue)) && |slept| == |Entries(slept)|
  {
    OneSplits(Entries(c.queue), c.env);
    assert c.queue[0..] == c.queue && Entries(c.queue[..0]) == [];
    OneRotated(Awake(Entries(c.queue)));
    SleptFirst(c);
    EntriesAll(SweepOf(c).slept);
  }

  lemma OneRotated(es: seq<Entry>)
    requires |es| <= 1
    ensures RotateLeft([] + es) == es
  {
    assert |es| == 1 ==> es[1..] + [es[0]] == es;
    assert [] + es == es;
  }

  lemma SleptFirst(c: Conf)
    requires DistinctKeys(c.queue) && forall i :: 0 <= i < |c.queue| ==> c.queue[i].key !in c.asleep
    ensures Slept(c.asleep, c.asleep + AsMap(SweepOf(c).slept), SweepOf(c).slept)
  {
    assert c.asleep + AsMap([]) == c.asleep;
    SleptOn(c.asleep, c, []);
    assert [] + SweepOf(c).slept == SweepOf(c).slept;
  }

  // One cycle over a pool that holds at most one task.
  method PollOne(pool: FuturesUnordered, inbox: Inbox, cx: ThreadNotify) returns (ready: bool, ghost slept: seq<Slot>)
    requires pool.Valid() && inbox.Valid() && inbox.data.Some?
    requires AtRest(pool.View(null, inbox)) && |Entries(pool.Slots())| <= 1
    modifies pool`headAll, pool`all, pool`pollCounter, pool.tasks
    modifies pool.readyQueue, pool.readyQueue.stub`nextReady, pool.readyQueue.waker, inbox, cx
    ensures pool.Valid() && inbox.Valid() && inbox.data.Some? && AtRest(pool.View(null, inbox))
    ensures var c, c' := old(pool.View(null, inbox)), pool.View(null, inbox);
      && Abs(c') == Sched(Awake(Entries(c.queue)), PollAll(Entries(c.queue), c.env).env)
      && Slept(c.asleep, c'.asleep, slept) && Entries(slept) == Dozing(Entries(c.queue)) && |slept| == |Entries(slept)|
      && (ready <==> Entries(c'.queue) == [] && c'.asleep == map[])
    ensures Wakings(inbox.polls) >= old(Wakings(inbox.polls))
    ensures pool.Heeds(cx, old(cx.State()), Wakings(inbox.polls) > old(Wakings(inbox.polls)))
  {
    ghost var c := pool.View(null, inbox);
    pool.KeysDistinct();
    pool.SleepersApart();
    NewCycleMeets(c);
    OneSplits(Entries(c.queue), c.env);
    NewCycle(pool, inbox);
    ghost var c0 := pool.View(null, inbox);
    slept := SweepOf(c0).slept;
    ready := PollTurn(pool, inbox, cx, 0);
    OnePolledOn(c0, pool.View(null, inbox));
  }

  // Move the first incoming task into the pool.
  method PopIncoming(pool: FuturesUnordered, inbox: Inbox, ghost cx: ThreadNotify) returns (ghost c': Conf)
    requires pool.Valid() && inbox.Valid() && inbox.data.Some? && AtRest(pool.View(null, inbox))
    requires Entries(pool.Slots()) == [] && inbox.incoming != []
    modifies pool`headAll, pool`all, pool`tasks, pool.tasks`prevAll, pool.tasks`nextReady
    modifies pool.readyQueue`head, pool.readyQueue`contents, pool.readyQueue.stub`nextReady, inbox`incoming
    ensures pool.Valid() && inbox.Valid() && inbox.data.Some? && AtRest(pool.View(null, inbox))
    ensures forall t :: t in pool.tasks ==> t in old(pool.tasks) || fresh(t)
    ensures inbox.polls == old(inbox.polls) && pool.readyQueue.Bell(cx) == old(pool.readyQueue.Bell(cx))
    ensures c' == pool.View(null, inbox) && c'.asleep == old(pool.Asleep())
    ensures var s, s' := old(Abs(pool.View(null, inbox))), Abs(c');
      s' == Sched([s.env.incoming[0]], s.env.(incoming := s.env.incoming[1..]))
  {
    ghost var incoming, env: Env := inbox.incoming, inbox.View().(incoming := inbox.incoming[1..]);
    ghost var valid := pool.Valid();
    var e := inbox.PopFront();
    assert pool.Valid() == valid;
    PushEntry(pool, e);
    assert inbox.View() == env && e == incoming[0];
    c' := pool.View(null, inbox);
    assert [] + [e] == [e];
  }

  // A task that is pending ends the run; so does an empty pool with nothing incoming.
  lemma SerialOver(c: Conf, c': Conf, ready: bool, slept: seq<Slot>)
    requires Alone(c) && AtRest(c')
    requires Abs(c') == Sched(Awake(Entries(c.queue)), PollAll(Entries(c.queue), c.env).env)
    requires Slept(c.asleep, c'.asleep, slept)
    requires Entries(slept) == Dozing(Entries(c.queue)) && |slept| == |Entries(slept)|
    requires ready <==> Entries(c'.queue) == [] && c'.asleep == map[]
    ensures !ready || c'.env.incoming == [] ==> RunOver(c', ready, Aim(c), c.asleep, slept) && Alone(c')
    ensures ready ==> c.asleep == map[] && PollAll(Entries(c.queue), c.env).kept == []
  {
    var es := Entries(c.queue);
    OneSplits(es, c.env);
    AsMapKeys(slept);
    if c.asleep == map[] {
      SerialMixedStep(Abs(c));
      assert slept != [] ==> slept[0].key in c'.asleep;
      assert |slept| == 1 ==> AsMap(slept[1..]) == map[] && AsMap(slept) == map[slept[0].key := slept[0].future];
      assert slept == [] ==> c'.asleep == map[];
    } else {
      assert es == [] && slept == [] && c'.asleep == c.asleep;
      assert PollAll(es, c.env).env == c.env;
    }
  }

  // One pass of poll_pool's loop.
  method SerialTurn(pool: FuturesUnordered, inbox: Inbox, cx: ThreadNotify)
      returns (ready: bool, again: bool, ghost c': Conf, ghost slept: seq<Slot>)
    requires pool.Valid() && inbox.Valid() && inbox.data.Some?
    requires AtRest(pool.View(null, inbox)) && Alone(pool.View(null, inbox))
    modifies pool`headAll, pool`all, pool`tasks, pool`pollCounter, pool.tasks
    modifies pool.readyQueue, pool.readyQueue.stub`nextReady, pool.readyQueue.waker, inbox, cx
    ensures pool.Valid() && inbox.Valid() && inbox.data.Some?
    ensures forall t :: t in pool.tasks ==> t in old(pool.tasks) || fresh(t)
    ensures c' == pool.View(null, inbox) && AtRest(c') && Alone(c')
    ensures Wakings(inbox.polls) >= old(Wakings(inbox.polls))
    ensures pool.Heeds(cx, old(cx.State()), Wakings(inbox.polls) > old(Wakings(inbox.polls)))
    ensures var c := old(pool.View(null, inbox));
      if again then
        && c.asleep == c'.asleep == map[] && Aim(c') == Aim(c)
        && (TotalWeight(Todo(Abs(c'))) < TotalWeight(Todo(Abs(c)))
            || (TotalWeight(Todo(Abs(c'))) == TotalWeight(Todo(Abs(c))) && |c'.env.incoming| < |c.env.incoming|))
      else RunOver(c', ready, Aim(c), c.asleep, slept)
  {
    ghost var c := pool.View(null, inbox);
    ready, slept := PollOne(pool, inbox, cx);
    c' := pool.View(null, inbox);
    SerialOver(c, c', ready, slept);
    SerialRunStep(Abs(c));
    SerialMixedStep(Abs(c));
    again := ready && inbox.incoming != [];
    if again {
      c' := PopIncoming(pool, inbox, cx);
    }
  }

  // SerialCosync::poll_pool, for any tasks, does what SerialMixed says, or nothing if the
  // running task is asleep.
  method SerialPollPool(pool: FuturesUnordered, inbox: Inbox, cx: ThreadNotify)
      returns (ready: bool, ghost slept: seq<Slot>)
    requires pool.Valid() && inbox.Valid() && inbox.data.Some?
    requires AtRest(pool.View(null, inbox)) && Alone(pool.View(null, inbox))
    modifies pool`headAll, pool`all, pool`tasks, pool`pollCounter, pool.tasks
    modifies pool.readyQueue, pool.readyQueue.stub`nextReady, pool.readyQueue.waker, inbox, cx
    ensures pool.Valid() && inbox.Valid() && inbox.data.Some?
    ensures forall t :: t in pool.tasks ==> t in old(pool.tasks) || fresh(t)
    ensures AtRest(pool.View(null, inbox)) && Alone(pool.View(null, inbox))
    ensures var c := old(pool.View(null, inbox)); RunOver(pool.View(null, inbox), ready, Aim(c), c.asleep, slept)
    ensures Wakings(inbox.polls) >= old(Wakings(inbox.polls))
    ensures pool.Heeds(cx, old(cx.State()), Wakings(inbox.polls) > old(Wakings(inbox.polls)))
  {
    ghost var c := pool.View(null, inbox);
    var again;
    ghost var c';
    ready, again, c', slept := SerialTurn(pool, inbox, cx);
    while again
      invariant pool.Valid() && inbox.Valid() && inbox.data.Some?
      invariant forall t :: t in pool.tasks ==> t in old(pool.tasks) || fresh(t)
      invariant AtRest(pool.View(null, inbox)) && Alone(pool.View(null, inbox))
      invariant Wakings(inbox.polls) >= old(Wakings(inbox.polls))
      invariant pool.Heeds(cx, old(cx.State()), Wakings(inbox.polls) > old(Wakings(inbox.polls)))
      invariant c' == pool.View(null, inbox) &&
        if again then c.asleep == c'.asleep == map[] && Aim(c') == Aim(c)
        else RunOver(c', ready, Aim(c), c.asleep, slept)
      decreases again, TotalWeight(Todo(Abs(pool.View(null, inbox)))), |inbox.incoming|
    {
      ready, again, c', slept := SerialTurn(pool, inbox, cx);
    }
  }

  // For tasks that keep the contract a run is SerialRun, and leaves such tasks.
  lemma KeepingSerialRun(c: Conf, c': Conf, ready: bool, slept: seq<Slot>)
    requires Alone(c) && Keeping(c) && RunOver(c', ready, Aim(c), c.asleep, slept)
    ensures Keeping(c') && Abs(c') == SerialRun(Abs(c)) && (ready <==> SerialRun(Abs(c)).pool == [])
  {
    SerialContract(Abs(c));
    EntriesAll(slept);
    assert c.asleep + AsMap([]) == map[];
  }

  // What run_blocking makes of the thread, run by run, without parking.
  ghost function SerialThread(s: Sched, n: Notice): Notice
    requires |s.pool| <= 1
    decreases TotalWeight(Todo(s))
  {
    SerialBlockingStep(s);
    var s' := SerialRun(s);
    if s'.pool == [] then ThreadAfter(s, s', n) else SerialThread(s', ThreadAfter(s, s', n).(unparked := false))
  }

  // run_blocking, begun at s with the thread as n, has come to s' and n'.
  ghost predicate SerialBlockingOn(s: Sched, n: Notice, s': Sched, n': Notice, ready: bool)
    requires |s.pool| <= 1 && |s'.pool| <= 1
  {
    if ready then s' == SerialBlocking(s) && n' == SerialThread(s, n)
    else
      && SerialBlocking(s') == SerialBlocking(s) && n'.unparked
      && SerialThread(s', n'.(unparked := false)) == SerialThread(s, n)
  }

  // One run of it.
  lemma OneSerialRun(s: Sched, n: Notice)
    requires |s.pool| <= 1 && AllWake(Todo(s))
    ensures var s', n' := SerialRun(s), ThreadAfter(s, SerialRun(s), n);
      && |s'.pool| <= 1 && SerialBlockingOn(s, n, s', n', s'.pool == [])
      && (s'.pool != [] ==> TotalWeight(Todo(s')) < TotalWeight(Todo(s)))
  {
    SerialBlockingStep(s);
    SerialContract(s);
    SerialWakings(s);
  }

  // No token gets lost, and none comes but by a wake.
  lemma {:induction false} SerialTokens(s: Sched, n: Notice)
    requires |s.pool| <= 1
    ensures Wakings(s.env.polls) <= Wakings(SerialBlocking(s).env.polls)
    ensures var n' := SerialThread(s, n);
      && (n.token ==> n'.token)
      && (n'.token && !n.token ==> Wakings(s.env.polls) < Wakings(SerialBlocking(s).env.polls))
    decreases TotalWeight(Todo(s))
  {
    SerialBlockingStep(s);
    SerialMixedIsRun(s);
    SerialWakings(s);
    if SerialRun(s).pool != [] {
      SerialTokens(SerialRun(s), ThreadAfter(s, SerialRun(s), n).(unparked := false));
    }
  }

  // poll_pool in the loop of run_blocking.
  method SerialBlockingTurn(pool: FuturesUnordered, inbox: Inbox, cx: ThreadNotify) returns (ready: bool)
    requires pool.Valid() && inbox.Valid() && inbox.data.Some?
    requires var c := pool.View(null, inbox); AtRest(c) && Alone(c) && Keeping(c)
    modifies pool`headAll, pool`all, pool`tasks, pool`pollCounter, pool.tasks
    modifies pool.readyQueue, pool.readyQueue.stub`nextReady, pool.readyQueue.waker, inbox, cx
    ensures pool.Valid() && inbox.Valid() && inbox.data.Some? && pool.readyQueue.Serves(cx)
    ensures forall t :: t in pool.tasks ==> t in old(pool.tasks) || fresh(t)
    ensures var c := pool.View(null, inbox); AtRest(c) && Alone(c) && Keeping(c)
    ensures var s, s' := old(Abs(pool.View(null, inbox))), Abs(pool.View(null, inbox));
      && SerialBlockingOn(s, old(cx.State()), s', cx.State(), ready)
      && (ready || TotalWeight(Todo(s')) < TotalWeight(Todo(s)))
  {
    ghost var c, n := pool.View(null, inbox), cx.State();
    ghost var slept;
    ready, slept := SerialPollPool(pool, inbox, cx);
    ghost var c' := pool.View(null, inbox);
    KeepingSerialRun(c, c', ready, slept);
    OneSerialRun(Abs(c), n);
  }

  // Use up the wakeup that the last poll_pool left behind, and poll again.
  method NextSerialBlockingTurn(pool: FuturesUnordered, inbox: Inbox, cx: ThreadNotify) returns (ready: bool)
    requires pool.Valid() && inbox.Valid() && inbox.data.Some? && cx.unparked
    requires var c := pool.View(null, inbox); AtRest(c) && Alone(c) && Keeping(c)
    modifies pool`headAll, pool`all, pool`tasks, pool`pollCounter, pool.tasks
    modifies pool.readyQueue, pool.readyQueue.stub`nextReady, pool.readyQueue.waker, inbox, cx
    ensures pool.Valid() && inbox.Valid() && inbox.data.Some? && pool.readyQueue.Serves(cx)
    ensures forall t :: t in pool.tasks ==> t in old(pool.tasks) || fresh(t)
    ensures var c := pool.View(null, inbox); AtRest(c) && Alone(c) && Keeping(c)
    ensures var s, s' := old(Abs(pool.View(null, inbox))), Abs(pool.View(null, inbox));
      && SerialBlockingOn(s, old(cx.State()).(unparked := false), s', cx.State(), ready)
      && (ready || TotalWeight(Todo(s')) < TotalWeight(Todo(s)))
  {
    ghost var c, valid := pool.View(null, inbox), pool.Valid();
    var parked := cx.AwaitWakeup();
    assert !parked && pool.View(null, inbox) == c && pool.Valid() == valid;
    ready := SerialBlockingTurn(pool, inbox, cx);
  }

  // The loop of run_blocking.
  method SerialBlockingTurns(pool: FuturesUnordered, inbox: Inbox, cx: ThreadNotify)
    requires pool.Valid() && inbox.Valid() && inbox.data.Some?
    requires var c := pool.View(null, inbox); AtRest(c) && Alone(c) && Keeping(c)
    modifies pool`headAll, pool`all, pool`tasks, pool`pollCounter, pool.tasks
    modifies pool.readyQueue, pool.readyQueue.stub`nextReady, pool.readyQueue.waker, inbox, cx
    ensures pool.Valid() && inbox.Valid() && inbox.data.Some? && pool.readyQueue.Serves(cx)
    ensures forall t :: t in pool.tasks ==> t in old(pool.tasks) || fresh(t)
    ensures var c := pool.View(null, inbox); AtRest(c) && Alone(c) && Keeping(c)
    ensures var s := old(Abs(pool.View(null, inbox)));
      Abs(pool.View(null, inbox)) == SerialBlocking(s) && cx.State() == SerialThread(s, old(cx.State()))
  {
    ghost var s, n := Abs(pool.View(null, inbox)), cx.State();
    var ready := SerialBlockingTurn(pool, inbox, cx);
    while !ready
      invariant pool.Valid() && inbox.Valid() && inbox.data.Some? && pool.readyQueue.Serves(cx)
      invariant forall t :: t in pool.tasks ==> t in old(pool.tasks) || fresh(t)
      invariant var c := pool.View(null, inbox);
        AtRest(c) && Alone(c) && Keeping(c) && SerialBlockingOn(s, n, Abs(c), cx.State(), ready)
      decreases !ready, TotalWeight(Todo(Abs(pool.View(null, inbox))))
    {
      ready := NextSerialBlockingTurn(pool, inbox, cx);
    }
  }

  // One task in the list of all tasks is one task in the ready queue or asleep.
  lemma LinkedAlone(pool: FuturesUnordered, inbox: Inbox)
    requires pool.Valid() && inbox.data.Some?
    ensures |pool.all| <= 1 <==> Alone(pool.View(null, inbox))
  {
    EntriesLive(pool.Slots());
    LiveAreLinked(pool);
    DistinctSubset(FuturesUnordered.Keys(Live(pool.Slots())), pool.all);
    if |pool.all| <= 1 {
      assert forall t, u :: t in pool.all && u in pool.all ==> t == u;
    } else {
      TwoAreNotAlone(pool, inbox);
    }
  }

  lemma TwoAreNotAlone(pool: FuturesUnordered, inbox: Inbox)
    requires pool.Valid() && inbox.data.Some? && |pool.all| >= 2
    ensures !Alone(pool.View(null, inbox))
  {
    EntriesLive(pool.Slots());
    LinkedIsThere(pool, pool.all[0]);
    LinkedIsThere(pool, pool.all[1]);
  }

  // The live slots are those of linked tasks, each once.
  lemma LiveAreLinked(pool: FuturesUnordered)
    requires pool.Valid()
    ensures var live := Live(pool.Slots());
      && (forall i :: 0 <= i < |live| ==> live[i].key in pool.all && live[i].key.queued)
      && Distinct(FuturesUnordered.Keys(live))
      && forall t :: t in FuturesUnordered.Keys(live) ==> t in pool.all && t.queued
  {
    pool.KeysDistinct();
    FuturesUnordered.LiveMembers(pool.Slots());
    FuturesUnordered.LiveDistinct(pool.Slots());
    var live := Live(pool.Slots());
    forall i | 0 <= i < |live| ensures live[i].key in pool.all && live[i].key.queued {
      assert live[i] in pool.Slots();
      var t := live[i].key;
      assert t in pool.readyQueue.contents && t.future.Some? && pool.Owned(t);
    }
  }

  // A linked task is asleep or has a live slot.
  lemma LinkedIsThere(pool: FuturesUnordered, t: Task)
    requires pool.Valid() && t in pool.all
    ensures t in pool.Asleep() || exists i :: 0 <= i < |Live(pool.Slots())| && Live(pool.Slots())[i].key == t
  {
    assert pool.Owned(t);
    if t.queued {
      FuturesUnordered.LiveMembers(pool.Slots());
      var i :| 0 <= i < |pool.readyQueue.contents| && pool.readyQueue.contents[i] == t;
      assert pool.Slots()[i] in Live(pool.Slots());
    }
  }

  // The id of the newest task in the list.
  method FirstId(pool: FuturesUnordered) returns (id: Option<nat>)
    requires pool.Valid()
    ensures if pool.all == [] then id == None
      else pool.all[0].future.Some? && id == Some(pool.all[0].future.value.id)
  {
    var it := new IterPinMut(pool);
    var task := it.Next();
    match task
    case None => id := None;
    case Some(t) => id := Some(t.future.value.id);
  }

  class SerialCosync {
    const cosync: Cosync

    // The scheduler is well formed, and at most one task is running.
    ghost predicate Valid()
      reads cosync.pool, cosync.pool.readyQueue, cosync.pool.readyQueue.stub, cosync.pool.readyQueue.contents
      reads cosync.pool.readyQueue.waker, cosync.pool.all, cosync.pool.tasks, cosync.inbox
    {
      cosync.Valid() && |cosync.pool.all| <= 1
    }

    constructor ()
      ensures Valid() && cosync.Calm() && fresh(cosync.Repr())
      ensures forall p :: cosync.View(p) == Sched([], Env(p, [], [], [], [], 0))
    {
      cosync := new Cosync();
    }

    // When nothing is asleep, the list of all tasks and the pool are equally long.
    lemma AsMany()
      requires cosync.Valid() && cosync.Calm()
      ensures |cosync.Pool()| == |cosync.pool.all|
    {
      cosync.pool.LiveIsLinked();
      EntriesLive(cosync.pool.Slots());
    }

    // Run until a task is pending or none is left: for any tasks, and nothing at all
    // while the running task is asleep.
    method Run(p: Param, cx: ThreadNotify) returns (p': Param, ghost slept: seq<Slot>)
      requires Valid()
      modifies cosync.Repr(), cx
      ensures Valid() && fresh(cosync.Repr() - old(cosync.Repr()))
      ensures |old(cosync.Pool())| <= 1
      ensures var s := old(cosync.View(p));
        var l := if old(cosync.pool.Asleep()) == map[] then SerialMixed(s) else Left(s, []);
        && cosync.View(p') == l.sched
        && Slept(old(cosync.pool.Asleep()), cosync.pool.Asleep(), slept) && Entries(slept) == l.slept
      ensures Wakings(cosync.inbox.polls) >= old(Wakings(cosync.inbox.polls))
      ensures cosync.pool.Heeds(cx, old(cx.State()), Wakings(cosync.inbox.polls) > old(Wakings(cosync.inbox.polls)))
    {
      cosync.Enter(p);
      LinkedAlone(cosync.pool, cosync.inbox);
      var ready;
      ready, slept := SerialPollPool(cosync.pool, cosync.inbox, cx);
      LinkedAlone(cosync.pool, cosync.inbox);
      p' := cosync.Leave();
    }

    // For tasks that keep the waking contract it is SerialRun.
    lemma CalmRun(p: Param)
      requires Valid() && cosync.Calm()
      ensures |cosync.Pool()| <= 1
      ensures SerialMixed(cosync.View(p)) == Left(SerialRun(cosync.View(p)), [])
    {
      AsMany();
      AllWakeConcat(cosync.Pool(), cosync.inbox.incoming);
      SerialContract(cosync.View(p));
    }

    // With nobody outside to wake tasks, it returns for calm schedulers only
    // (SerialReturnsExactly).
    method RunBlocking(p: Param, cx: ThreadNotify) returns (p': Param)
      requires Valid() && cosync.Calm()
      modifies cosync.Repr(), cx
      ensures Valid() && cosync.Calm() && fresh(cosync.Repr() - old(cosync.Repr()))
      ensures |old(cosync.Pool())| <= 1 && cosync.View(p') == SerialBlocking(old(cosync.View(p)))
      ensures cosync.pool.readyQueue.Serves(cx) && cx.State() == SerialThread(old(cosync.View(p)), old(cx.State()))
    {
      AllWakeConcat(cosync.Pool(), cosync.inbox.incoming);
      cosync.Enter(p);
      LinkedAlone(cosync.pool, cosync.inbox);
      SerialBlockingTurns(cosync.pool, cosync.inbox, cx);
      LinkedAlone(cosync.pool, cosync.inbox);
      p' := cosync.Leave();
      AllWakeConcat(cosync.Pool(), cosync.inbox.incoming);
    }

    // queue: into `incoming`, unlike Cosync::queue.
    method Queue(body: Body) returns (id: nat)
      requires Valid()
      modifies cosync.inbox
      ensures Valid() && id == IdOf(|old(cosync.inbox.born)|)
      ensures forall p :: cosync.View(p) == History.QueueByHandle(old(cosync.View(p)), body)
      ensures old(cosync.Calm()) && WakesItself(body, false) ==> cosync.Calm()
    {
      id := cosync.HandleQueue(body);
    }

    method UnqueueTask(id: nat) returns (found: bool)
      requires Valid()
      modifies cosync.inbox
      ensures Valid()
      ensures forall p :: (cosync.View(p), found) == History.UnqueueTask(old(cosync.View(p)), id)
      ensures old(cosync.Calm()) ==> cosync.Calm()
    {
      found := cosync.UnqueueTask(id);
    }

    // Queued tasks, and one more if a task is running: that is, all tasks there are.
    method Len() returns (len: nat)
      requires Valid()
      ensures len == |cosync.pool.all| + |cosync.inbox.incoming|
      ensures cosync.Calm() ==> forall p :: len == |Todo(cosync.View(p))|
    {
      var none := cosync.pool.IsEmpty();
      len := (if none then 0 else 1) + |cosync.inbox.incoming|;
      if cosync.Calm() {
        AsMany();
      }
    }

    // The pool's only task, if there is one, heads the list of all tasks.
    lemma OnlyTask()
      requires Valid() && cosync.Calm()
      ensures cosync.Pool() == [] <==> cosync.pool.all == []
      ensures cosync.Pool() != [] ==> cosync.pool.all[0].future == Some(cosync.Pool()[0])
    {
      AsMany();
      cosync.PoolIsLinked();
      if cosync.pool.all != [] {
        var t := cosync.pool.all[0];
        assert t in cosync.pool.all && t.future.value in cosync.Pool();
      }
    }

    // The running task, if there is one.
    method CurrentTaskId() returns (id: Option<nat>)
      requires Valid()
      ensures if cosync.pool.all == [] then id == None
        else cosync.pool.all[0].future.Some? && id == Some(cosync.pool.all[0].future.value.id)
      ensures cosync.Calm() ==> id == if cosync.Pool() == [] then None else Some(cosync.Pool()[0].id)
    {
      id := FirstId(cosync.pool);
      if cosync.Calm() {
        OnlyTask();
      }
    }

    // Drop the running task; what is queued stays.
    method StopRunningTask()
      requires Valid()
      modifies cosync.pool`headAll, cosync.pool`all, cosync.pool.all
      modifies cosync.pool.readyQueue, cosync.pool.readyQueue.stub`nextReady
      modifies cosync.pool.readyQueue.contents`nextReady, cosync.pool.readyQueue.contents`owner
      ensures Valid() && cosync.pool.all == [] && cosync.pool.Asleep() == map[]
      ensures forall p :: cosync.View(p) == History.PoolCleared(old(cosync.View(p)))
      ensures old(cosync.Calm()) ==> cosync.Calm()
    {
      cosync.ClearRunning();
    }
  }
}
