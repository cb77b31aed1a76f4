// Cosync of src/lib.rs: the pool, the incoming queue, `run` and `run_blocking`,
// proved to do what Scheduling says.
module Cosyncs {
  import opened Wrappers
  import opened Programs
  import opened PollCycle
  import opened Scheduling
  import opened Sleeping
  import opened PoolCycles
  import opened Tasks
  import opened Inboxes
  import opened FuturesUnorderedSets
  import opened Iters
  import History

  // Push some tasks into the pool, in order.
  method PushAll(pool: FuturesUnordered, es: seq<Entry>)
    requires pool.Valid()
    modifies pool`headAll, pool`all, pool`tasks, pool.tasks`prevAll, pool.tasks`nextReady
    modifies pool.readyQueue`head, pool.readyQueue`contents, pool.readyQueue.stub`nextReady
    ensures pool.Valid()
    ensures forall t :: t in pool.tasks ==> t in old(pool.tasks) || fresh(t)
    ensures Extended(old(pool.Slots()), pool.Slots(), es) && pool.Asleep() == old(pool.Asleep())
  {
    ghost var q: seq<Slot> := pool.Slots();
    assert q[|q|..] == [];
    for i := 0 to |es|
      invariant pool.Valid()
      invariant forall t :: t in pool.tasks ==> t in old(pool.tasks) || fresh(t)
      invariant Extended(q, pool.Slots(), es[..i]) && pool.Asleep() == old(pool.Asleep())
    {
      ghost var slots := pool.Slots();
      var task := pool.PushSlot(es[i]);
      ExtendedOnce(q, slots, es[..i], Slot(task, Some(es[i]), 0));
      TakeOneMore(es, i);
    }
    TakeAll(es);
  }

  // Push one task into the pool.
  method PushEntry(pool: FuturesUnordered, entry: Entry)
    requires pool.Valid()
    modifies pool`headAll, pool`all, pool`tasks, pool.tasks`prevAll, pool.tasks`nextReady
    modifies pool.readyQueue`head, pool.readyQueue`contents, pool.readyQueue.stub`nextReady
    ensures pool.Valid()
    ensures forall t :: t in pool.tasks ==> t in old(pool.tasks) || fresh(t)
    ensures Entries(pool.Slots()) == old(Entries(pool.Slots())) + [entry] && pool.Asleep() == old(pool.Asleep())
    ensures NotAhead(old(pool.Slots()), pool.pollCounter) ==> NotAhead(pool.Slots(), pool.pollCounter)
  {
    ghost var slots := pool.Slots();
    var task := pool.PushSlot(entry);
    EntriesConcat(slots, [Slot(task, Some(entry), 0)]);
    assert Entries([Slot(task, Some(entry), 0)][1..]) == [];
  }

  // Push the incoming tasks into the pool.
  method Drain(pool: FuturesUnordered, inbox: Inbox) returns (ghost c': Conf)
    requires pool.Valid() && inbox.Valid() && inbox.data.Some?
    modifies pool`headAll, pool`all, pool`tasks, pool.tasks`prevAll, pool.tasks`nextReady
    modifies pool.readyQueue`head, pool.readyQueue`contents, pool.readyQueue.stub`nextReady, inbox`incoming
    ensures pool.Valid() && inbox.Valid() && inbox.data.Some?
    ensures forall t :: t in pool.tasks ==> t in old(pool.tasks) || fresh(t)
    ensures c' == pool.View(null, inbox) && Pushed(old(pool.View(null, inbox)), c')
  {
    ghost var c: Conf, valid := pool.View(null, inbox), pool.Valid();
    var drained := inbox.incoming;
    inbox.incoming := [];
    assert pool.Valid() == valid;
    PushAll(pool, drained);
    pool.KeysDistinct();
    c' := pool.View(null, inbox);
    assert c'.env == Drained(c.env);
  }

  // poll_next, in the middle of a run.
  method PollTurn(pool: FuturesUnordered, inbox: Inbox, cx: ThreadNotify, ghost k: nat) returns (ready: bool)
    requires pool.Valid() && inbox.Valid() && inbox.data.Some?
    requires var c := pool.View(null, inbox);
      && MidRun(c, k) && (Entries(c.queue[..k]) != [] || ComesBack(Entries(c.queue[k..])))
    modifies pool`headAll, pool`all, pool.tasks
    modifies pool.readyQueue, pool.readyQueue.stub`nextReady, pool.readyQueue.waker, inbox, cx
    ensures pool.Valid() && inbox.Valid() && inbox.data.Some?
    ensures var c, c' := old(pool.View(null, inbox)), pool.View(null, inbox);
      && PolledOn(c, k, c')
      && (ready <==> Entries(c'.queue) == [] && c'.asleep == map[])
    ensures Wakings(inbox.polls) >= old(Wakings(inbox.polls))
    ensures pool.Heeds(cx, old(cx.State()), Wakings(inbox.polls) > old(Wakings(inbox.polls)))
  {
    MidRunPoll(pool.View(null, inbox), k);
    ready := pool.PollNext(inbox, cx);
  }

  // After a poll_next: another drain if something has come in meanwhile, or the end.
  method DrainOn(pool: FuturesUnordered, inbox: Inbox, ghost cx: ThreadNotify, ghost ready: bool,
                 ghost c: Conf, ghost k: nat, ghost l: Left, ghost base: Sleepers, ghost slept: seq<Slot>)
      returns (again: bool, ghost c': Conf, ghost k': nat, ghost slept': seq<Slot>)
    requires pool.Valid() && inbox.Valid() && inbox.data.Some?
    requires InRun(c, k, l, base, slept) && PolledOn(c, k, pool.View(null, inbox))
    requires forall i :: 0 <= i < |c.queue| ==> c.queue[i].key !in c.asleep
    requires ready <==> Entries(pool.Slots()) == [] && pool.Asleep() == map[]
    modifies pool`headAll, pool`all, pool`tasks, pool.tasks`prevAll, pool.tasks`nextReady
    modifies pool.readyQueue`head, pool.readyQueue`contents, pool.readyQueue.stub`nextReady, inbox`incoming
    ensures pool.Valid() && inbox.Valid() && inbox.data.Some?
    ensures forall t :: t in pool.tasks ==> t in old(pool.tasks) || fresh(t)
    ensures inbox.polls == old(inbox.polls) && pool.readyQueue.Bell(cx) == old(pool.readyQueue.Bell(cx))
    ensures c' == pool.View(null, inbox) && Passed(c, k, c', k', again, ready, l, base, slept')
  {
    c' := pool.View(null, inbox);
    again, k', slept' := inbox.incoming != [], |c'.queue|, slept + SweepOf(c).slept;
    if again {
      c' := DrainMore(pool, inbox, cx, c, k, c', l, base, slept);
    } else {
      MidRunEnds(c, k, c', ready, l, base, slept);
    }
  }

  method DrainMore(pool: FuturesUnordered, inbox: Inbox, ghost cx: ThreadNotify, ghost c: Conf, ghost k: nat,
                   ghost c1: Conf, ghost l: Left, ghost base: Sleepers, ghost slept: seq<Slot>)
      returns (ghost c': Conf)
    requires pool.Valid() && inbox.Valid() && inbox.data.Some? && inbox.incoming != []
    requires c1 == pool.View(null, inbox) && InRun(c, k, l, base, slept) && PolledOn(c, k, c1)
    requires forall i :: 0 <= i < |c.queue| ==> c.queue[i].key !in c.asleep
    modifies pool`headAll, pool`all, pool`tasks, pool.tasks`prevAll, pool.tasks`nextReady
    modifies pool.readyQueue`head, pool.readyQueue`contents, pool.readyQueue.stub`nextReady, inbox`incoming
    ensures pool.Valid() && inbox.Valid() && inbox.data.Some?
    ensures forall t :: t in pool.tasks ==> t in old(pool.tasks) || fresh(t)
    ensures inbox.polls == old(inbox.polls) && pool.readyQueue.Bell(cx) == old(pool.readyQueue.Bell(cx))
    ensures c' == pool.View(null, inbox)
    ensures InRun(c', |c1.queue|, l, base, slept + SweepOf(c).slept) && ToPoll(c', |c1.queue|) < ToPoll(c, k)
  {
    c' := Drain(pool, inbox);
    MidRunPush(c, k, c1, c', l, base, slept);
  }

  // poll_next and, if something has come in meanwhile, another drain.
  method Turn(pool: FuturesUnordered, inbox: Inbox, cx: ThreadNotify, ghost k: nat, ghost l: Left,
              ghost base: Sleepers, ghost slept: seq<Slot>)
      returns (ready: bool, again: bool, ghost k': nat, ghost slept': seq<Slot>)
    requires pool.Valid() && inbox.Valid() && inbox.data.Some?
    requires InRun(pool.View(null, inbox), k, l, base, slept)
    modifies pool`headAll, pool`all, pool`tasks, pool.tasks
    modifies pool.readyQueue, pool.readyQueue.stub`nextReady, pool.readyQueue.waker, inbox, cx
    ensures pool.Valid() && inbox.Valid() && inbox.data.Some?
    ensures forall t :: t in pool.tasks ==> t in old(pool.tasks) || fresh(t)
    ensures Passed(old(pool.View(null, inbox)), k, pool.View(null, inbox), k', again, ready, l, base, slept')
    ensures Wakings(inbox.polls) >= old(Wakings(inbox.polls))
    ensures pool.Heeds(cx, old(cx.State()), Wakings(inbox.polls) > old(Wakings(inbox.polls)))
  {
    ghost var c := pool.View(null, inbox);
    pool.SleepersApart();
    ready := PollTurn(pool, inbox, cx, k);
    ghost var c';
    again, c', k', slept' := DrainOn(pool, inbox, cx, ready, c, k, l, base, slept);
  }

  method NewCycle(pool: FuturesUnordered, inbox: Inbox)
    requires pool.Valid() && inbox.data.Some?
    modifies pool`pollCounter
    ensures pool.Valid() && pool.pollCounter == old(pool.pollCounter) + 1
    ensures pool.View(null, inbox) == old(pool.View(null, inbox).(counter := pool.pollCounter + 1))
  {
    var _ := pool.IncrementCounter();
  }

  // The first drain of poll_pool ...
  method BeginRun(pool: FuturesUnordered, inbox: Inbox)
    requires pool.Valid() && inbox.Valid() && inbox.data.Some?
    requires AtRest(pool.View(null, inbox)) && RunReturns(Abs(pool.View(null, inbox)))
    modifies pool`headAll, pool`all, pool`tasks, pool`pollCounter, pool.tasks`prevAll, pool.tasks`nextReady
    modifies pool.readyQueue`head, pool.readyQueue`contents, pool.readyQueue.stub`nextReady, inbox`incoming
    ensures pool.Valid() && inbox.Valid() && inbox.data.Some?
    ensures forall t :: t in pool.tasks ==> t in old(pool.tasks) || fresh(t)
    ensures Begun(old(pool.View(null, inbox)), pool.View(null, inbox))
  {
    ghost var c := pool.View(null, inbox);
    ghost var c1 := Drain(pool, inbox);
    BeginCycle(pool, inbox, c);
  }

  // ... and the new cycle.
  method BeginCycle(pool: FuturesUnordered, inbox: Inbox, ghost c: Conf)
    requires pool.Valid() && inbox.data.Some?
    requires AtRest(c) && RunReturns(Abs(c)) && Pushed(c, pool.View(null, inbox))
    modifies pool`pollCounter
    ensures pool.Valid() && Begun(c, pool.View(null, inbox))
  {
    ghost var c1 := pool.View(null, inbox);
    NewCycle(pool, inbox);
    MidRunStart(c, c1);
  }

  // The loop of poll_pool.
  method Turns(pool: FuturesUnordered, inbox: Inbox, cx: ThreadNotify, ghost l: Left, ghost base: Sleepers)
      returns (ready: bool, ghost slept: seq<Slot>)
    requires pool.Valid() && inbox.Valid() && inbox.data.Some?
    requires InRun(pool.View(null, inbox), 0, l, base, [])
    modifies pool`headAll, pool`all, pool`tasks, pool.tasks
    modifies pool.readyQueue, pool.readyQueue.stub`nextReady, pool.readyQueue.waker, inbox, cx
    ensures pool.Valid() && inbox.Valid() && inbox.data.Some?
    ensures forall t :: t in pool.tasks ==> t in old(pool.tasks) || fresh(t)
    ensures RunOver(pool.View(null, inbox), ready, l, base, slept)
    ensures Wakings(inbox.polls) >= old(Wakings(inbox.polls))
    ensures pool.Heeds(cx, old(cx.State()), Wakings(inbox.polls) > old(Wakings(inbox.polls)))
  {
    ghost var k: nat;
    var again;
    ready, again, k, slept := Turn(pool, inbox, cx, 0, l, base, []);
    while again
      invariant pool.Valid() && inbox.Valid() && inbox.data.Some?
      invariant forall t :: t in pool.tasks ==> t in old(pool.tasks) || fresh(t)
      invariant Wakings(inbox.polls) >= old(Wakings(inbox.polls))
      invariant pool.Heeds(cx, old(cx.State()), Wakings(inbox.polls) > old(Wakings(inbox.polls)))
      invariant if again then InRun(pool.View(null, inbox), k, l, base, slept)
        else RunOver(pool.View(null, inbox), ready, l, base, slept)
      decreases again, ToPoll(pool.View(null, inbox), k)
    {
      ready, again, k, slept := Turn(pool, inbox, cx, k, l, base, slept);
    }
  }

  // Cosync::poll_pool, whenever every poll_next in it returns: it does what MixedRun
  // says.
  method PollPool(pool: FuturesUnordered, inbox: Inbox, cx: ThreadNotify) returns (ready: bool, ghost slept: seq<Slot>)
    requires pool.Valid() && inbox.Valid() && inbox.data.Some?
    requires AtRest(pool.View(null, inbox)) && RunReturns(Abs(pool.View(null, inbox)))
    modifies pool`headAll, pool`all, pool`tasks, pool`pollCounter, pool.tasks
    modifies pool.readyQueue, pool.readyQueue.stub`nextReady, pool.readyQueue.waker, inbox, cx
    ensures pool.Valid() && inbox.Valid() && inbox.data.Some?
    ensures forall t :: t in pool.tasks ==> t in old(pool.tasks) || fresh(t)
    ensures var c := old(pool.View(null, inbox));
      RunOver(pool.View(null, inbox), ready, MixedRun(Abs(c)), c.asleep, slept)
    ensures Wakings(inbox.polls) >= old(Wakings(inbox.polls))
    ensures pool.Heeds(cx, old(cx.State()), Wakings(inbox.polls) > old(Wakings(inbox.polls)))
  {
    ghost var c := pool.View(null, inbox);
    BeginRun(pool, inbox);
    ready, slept := Turns(pool, inbox, cx, MixedRun(Abs(c)), c.asleep);
  }

  // poll_pool in the loop of run_blocking.
  method BlockingTurn(pool: FuturesUnordered, inbox: Inbox, cx: ThreadNotify) returns (ready: bool)
    requires pool.Valid() && inbox.Valid() && inbox.data.Some?
    requires AtRest(pool.View(null, inbox)) && Keeping(pool.View(null, inbox))
    modifies pool`headAll, pool`all, pool`tasks, pool`pollCounter, pool.tasks
    modifies pool.readyQueue, pool.readyQueue.stub`nextReady, pool.readyQueue.waker, inbox, cx
    ensures pool.Valid() && inbox.Valid() && inbox.data.Some? && pool.readyQueue.Serves(cx)
    ensures forall t :: t in pool.tasks ==> t in old(pool.tasks) || fresh(t)
    ensures AtRest(pool.View(null, inbox)) && Keeping(pool.View(null, inbox))
    ensures var s, s' := old(Abs(pool.View(null, inbox))), Abs(pool.View(null, inbox));
      && BlockingOn(s, old(cx.State()), s', cx.State(), ready)
      && (ready || TotalWeight(Todo(s')) < TotalWeight(Todo(s)))
  {
    ghost var c, n := pool.View(null, inbox), cx.State();
    ContractRun(Abs(c));
    ghost var slept;
    ready, slept := PollPool(pool, inbox, cx);
    ghost var c' := pool.View(null, inbox);
    KeepingRun(c, c', ready, slept);
    BlockingRun(Abs(c), n);
  }

  // Use up the wakeup that the last poll_pool left behind, and poll again.
  method NextBlockingTurn(pool: FuturesUnordered, inbox: Inbox, cx: ThreadNotify) returns (ready: bool)
    requires pool.Valid() && inbox.Valid() && inbox.data.Some? && cx.unparked
    requires AtRest(pool.View(null, inbox)) && Keeping(pool.View(null, inbox))
    modifies pool`headAll, pool`all, pool`tasks, pool`pollCounter, pool.tasks
    modifies pool.readyQueue, pool.readyQueue.stub`nextReady, pool.readyQueue.waker, inbox, cx
    ensures pool.Valid() && inbox.Valid() && inbox.data.Some? && pool.readyQueue.Serves(cx)
    ensures AtRest(pool.View(null, inbox)) && Keeping(pool.View(null, inbox))
    ensures forall t :: t in pool.tasks ==> t in old(pool.tasks) || fresh(t)
    ensures var s, s' := old(Abs(pool.View(null, inbox))), Abs(pool.View(null, inbox));
      && BlockingOn(s, old(cx.State()).(unparked := false), s', cx.State(), ready)
      && (ready || TotalWeight(Todo(s')) < TotalWeight(Todo(s)))
  {
    ghost var c, valid := pool.View(null, inbox), pool.Valid();
    var parked := cx.AwaitWakeup();
    assert !parked && pool.View(null, inbox) == c && pool.Valid() == valid;
    ready := BlockingTurn(pool, inbox, cx);
  }

  // The loop of run_blocking.
  method BlockingTurns(pool: FuturesUnordered, inbox: Inbox, cx: ThreadNotify)
    requires pool.Valid() && inbox.Valid() && inbox.data.Some?
    requires AtRest(pool.View(null, inbox)) && Keeping(pool.View(null, inbox))
    modifies pool`headAll, pool`all, pool`tasks, pool`pollCounter, pool.tasks
    modifies pool.readyQueue, pool.readyQueue.stub`nextReady, pool.readyQueue.waker, inbox, cx
    ensures pool.Valid() && inbox.Valid() && inbox.data.Some? && pool.readyQueue.Serves(cx)
    ensures forall t :: t in pool.tasks ==> t in old(pool.tasks) || fresh(t)
    ensures AtRest(pool.View(null, inbox)) && Keeping(pool.View(null, inbox))
    ensures var s := old(Abs(pool.View(null, inbox)));
      Abs(pool.View(null, inbox)) == RunBlocking(s) && cx.State() == BlockingThread(s, old(cx.State()))
  {
    ghost var s, n := Abs(pool.View(null, inbox)), cx.State();
    var ready := BlockingTurn(pool, inbox, cx);
    while !ready
      invariant pool.Valid() && inbox.Valid() && inbox.data.Some? && pool.readyQueue.Serves(cx)
      invariant AtRest(pool.View(null, inbox)) && Keeping(pool.View(null, inbox))
      invariant forall t :: t in pool.tasks ==> t in old(pool.tasks) || fresh(t)
      invariant BlockingOn(s, n, Abs(pool.View(null, inbox)), cx.State(), ready)
      decreases !ready, TotalWeight(Todo(Abs(pool.View(null, inbox))))
    {
      ready := NextBlockingTurn(pool, inbox, cx);
    }
  }

  // The place of the first task of this id, or the end.
  method FindId(es: seq<Entry>, id: nat) returns (i: nat)
    ensures i == History.Position(es, id)
  {
    i := 0;
    while i < |es| && es[i].id != id
      invariant i <= |es| && forall j :: 0 <= j < i ==> es[j].id != id
    {
      i := i + 1;
    }
  }

  // The first task of this id, in the order of the list of all tasks.
  ghost predicate FoundIn(pool: FuturesUnordered, id: nat, found: Option<Task>, place: nat)
    reads pool`all, pool.all`future
  {
    && (if found.Some? then
          && place < |pool.all| && pool.all[place] == found.value
          && found.value.future.Some? && found.value.future.value.id == id
        else place == |pool.all|)
    && forall i :: 0 <= i < place && pool.all[i].future.Some? ==> pool.all[i].future.value.id != id
  }

  method FindTask(pool: FuturesUnordered, id: nat) returns (found: Option<Task>, ghost place: nat)
    requires pool.Valid()
    ensures FoundIn(pool, id, found, place)
  {
    var it := new IterPinMut(pool);
    while true
      invariant it.Valid() && it.pool == pool && pool.Valid()
      invariant forall i :: 0 <= i < it.passed && pool.all[i].future.Some? ==> pool.all[i].future.value.id != id
      decreases |pool.all| - it.passed
    {
      place := it.passed;
      var item := it.Next();
      match item
      case None => return None, place;
      case Some(task) =>
        if task.future.value.id == id {
          return Some(task), place;
        }
    }
  }

  class Cosync {
    const pool: FuturesUnordered
    const inbox: Inbox

    ghost function Repr(): set<object>
      reads pool`tasks
    {
      {pool, inbox, pool.readyQueue, pool.readyQueue.stub, pool.readyQueue.waker} + pool.tasks
    }

    ghost predicate Valid()
      reads pool, pool.readyQueue, pool.readyQueue.stub, pool.readyQueue.contents, pool.readyQueue.waker
      reads pool.all, pool.tasks, inbox
    {
      pool.Valid() && inbox.Valid() && inbox.data == None && NotAhead(pool.Slots(), pool.pollCounter)
    }

    // Every task keeps the waking contract, and none is asleep.
    ghost predicate Calm()
      reads pool, pool.readyQueue, pool.readyQueue.contents, pool.all, inbox
    {
      pool.Asleep() == map[] && AllWake(Pool()) && AllWake(inbox.incoming)
    }

    ghost function Pool(): seq<Entry>
      reads pool.readyQueue`contents, pool.readyQueue.contents`future, pool.readyQueue.contents`lastPolled
    {
      Entries(pool.Slots())
    }

    // The scheduler, with the parameter p.
    ghost function View(p: Param): Sched
      reads pool.readyQueue`contents, pool.readyQueue.contents`future, pool.readyQueue.contents`lastPolled, inbox
    {
      Sched(Pool(), Env(p, inbox.incoming, inbox.born, inbox.polls, inbox.acts, inbox.completed))
    }

    constructor ()
      ensures Valid() && Calm() && fresh(Repr()) && Pool() == [] && pool.all == []
      ensures forall p :: View(p) == Sched([], Env(p, [], [], [], [], 0))
    {
      pool := new FuturesUnordered();
      inbox := new Inbox();
    }

    // Let tasks reach the parameter ...
    method Enter(p: Param)
      requires Valid()
      modifies inbox`data
      ensures pool.Valid() && inbox.Valid() && inbox.data.Some? && AtRest(pool.View(null, inbox))
      ensures Abs(pool.View(null, inbox)) == old(View(p)) && pool.Asleep() == old(pool.Asleep())
    {
      inbox.data := Some(p);
    }

    // ... and no longer.
    method Leave() returns (p: Param)
      requires pool.Valid() && inbox.Valid() && inbox.data.Some? && AtRest(pool.View(null, inbox))
      modifies inbox`data
      ensures Valid() && View(p) == old(Abs(pool.View(null, inbox))) && pool.Asleep() == old(pool.Asleep())
    {
      p := inbox.data.value;
      inbox.data := None;
    }

    // Run until every task in the pool has been polled once, and so has every task that
    // was incoming or spawned meanwhile; whenever every poll_next in it returns, for any
    // tasks and with any asleep.  The parameter comes back changed.
    method Run(p: Param, cx: ThreadNotify) returns (p': Param, ghost slept: seq<Slot>)
      requires Valid() && RunReturns(View(p))
      modifies Repr(), cx
      ensures Valid() && fresh(Repr() - old(Repr()))
      ensures var l := MixedRun(old(View(p)));
        View(p') == l.sched && Slept(old(pool.Asleep()), pool.Asleep(), slept) && Entries(slept) == l.slept
      ensures Wakings(inbox.polls) >= old(Wakings(inbox.polls))
      ensures pool.Heeds(cx, old(cx.State()), Wakings(inbox.polls) > old(Wakings(inbox.polls)))
    {
      Enter(p);
      var ready;
      ready, slept := PollPool(pool, inbox, cx);
      p' := Leave();
    }

    // For tasks that keep the waking contract every run returns, and it is the run of
    // Scheduling.
    lemma CalmRun(p: Param)
      requires Valid() && Calm()
      ensures RunReturns(View(p)) && MixedRun(View(p)) == Left(Scheduling.Run(View(p)), [])
      ensures AllWake(Todo(Scheduling.Run(View(p))))
    {
      AllWakeConcat(Pool(), inbox.incoming);
      ContractRun(View(p));
    }

    // Run until no task is left.  With nobody outside to wake tasks, it returns for calm
    // schedulers only (BlockingReturnsExactly).
    method RunBlocking(p: Param, cx: ThreadNotify) returns (p': Param)
      requires Valid() && Calm()
      modifies Repr(), cx
      ensures Valid() && Calm() && fresh(Repr() - old(Repr()))
      ensures View(p') == Scheduling.RunBlocking(old(View(p)))
      ensures pool.readyQueue.Serves(cx) && cx.State() == BlockingThread(old(View(p)), old(cx.State()))
    {
      AllWakeConcat(Pool(), inbox.incoming);
      Enter(p);
      BlockingTurns(pool, inbox, cx);
      p' := Leave();
      AllWakeConcat(Pool(), inbox.incoming);
    }

    // ------------------------------------------------------ between two runs

    // queue: straight into the pool.
    method Queue(body: Body) returns (id: nat)
      requires Valid()
      modifies pool`headAll, pool`all, pool`tasks, pool.tasks`prevAll, pool.tasks`nextReady
      modifies pool.readyQueue`head, pool.readyQueue`contents, pool.readyQueue.stub`nextReady, inbox
      ensures Valid() && fresh(Repr() - old(Repr())) && id == IdOf(|old(inbox.born)|)
      ensures forall p :: View(p) == History.QueueDirect(old(View(p)), body)
      ensures pool.Asleep() == old(pool.Asleep())
      ensures old(Calm()) && WakesItself(body, false) ==> Calm()
    {
      id := inbox.NextId(body);
      PushTask(Entry(id, body));
    }

    method PushTask(entry: Entry)
      requires Valid()
      modifies pool`headAll, pool`all, pool`tasks, pool.tasks`prevAll, pool.tasks`nextReady
      modifies pool.readyQueue`head, pool.readyQueue`contents, pool.readyQueue.stub`nextReady
      ensures Valid() && fresh(Repr() - old(Repr()))
      ensures Pool() == old(Pool()) + [entry] && pool.Asleep() == old(pool.Asleep())
    {
      PushEntry(pool, entry);
    }

    // CosyncQueueHandle::queue and CosyncInput::queue.
    method HandleQueue(body: Body) returns (id: nat)
      requires Valid()
      modifies inbox
      ensures Valid() && id == IdOf(|old(inbox.born)|)
      ensures forall p :: View(p) == History.QueueByHandle(old(View(p)), body)
      ensures old(Calm()) && WakesItself(body, false) ==> Calm()
    {
      id := inbox.RawQueue(body);
    }

    method UnqueueTask(id: nat) returns (found: bool)
      requires Valid()
      modifies inbox
      ensures Valid()
      ensures forall p :: (View(p), found) == History.UnqueueTask(old(View(p)), id)
      ensures old(Calm()) ==> Calm()
    {
      var i := FindId(inbox.incoming, id);
      if i == |inbox.incoming| {
        return false;
      }
      inbox.incoming := inbox.incoming[..i] + inbox.incoming[i + 1..];
      return true;
    }

    method Len() returns (len: nat)
      requires Valid()
      ensures len == |pool.all| + |inbox.incoming|
      ensures Calm() ==> forall p :: len == |Todo(View(p))|
    {
      var n := pool.Len();
      len := n + |inbox.incoming|;
      if Calm() {
        pool.LiveIsLinked();
        EntriesLive(pool.Slots());
      }
    }

    method IsEmpty() returns (empty: bool)
      requires Valid()
      ensures empty <==> pool.all == [] && inbox.incoming == []
      ensures Calm() ==> forall p :: empty <==> Todo(View(p)) == []
    {
      var none := pool.IsEmpty();
      empty := none && inbox.incoming == [];
      if Calm() {
        pool.LiveIsLinked();
        EntriesLive(pool.Slots());
      }
    }

    // When nothing is asleep, the pool's entries are what its tasks hold.
    lemma PoolIsLinked()
      requires Valid() && Calm()
      ensures forall t :: t in pool.all ==> t.future.Some? && t in pool.readyQueue.contents
      ensures forall t :: t in pool.all ==> t.future.value in Pool()
      ensures forall e :: e in Pool() ==> exists t :: t in pool.all && t.future == Some(e)
    {
      var q := pool.Slots();
      EntriesMembers(q);
      forall t | t in pool.all ensures t.future.Some? && t in pool.readyQueue.contents && t.future.value in Pool() {
        assert pool.Owned(t) && t !in pool.Asleep();
        var i :| 0 <= i < |pool.readyQueue.contents| && pool.readyQueue.contents[i] == t;
        assert q[i].future == t.future;
      }
      forall e | e in Pool() ensures exists t :: t in pool.all && t.future == Some(e) {
        var i :| 0 <= i < |q| && q[i].future == Some(e);
        var t := pool.readyQueue.contents[i];
        assert t in pool.tasks && pool.Owned(t);
        assert t in pool.all && t.future == Some(e);
      }
    }

    method Find(id: nat) returns (found: Option<Task>, ghost place: nat)
      requires Valid()
      ensures Valid() && Pool() == old(Pool()) && pool.Asleep() == old(pool.Asleep())
      ensures FoundIn(pool, id, found, place)
    {
      found, place := FindTask(pool, id);
    }

    method IsRunning(id: nat) returns (running: bool)
      requires Valid()
      ensures running <==> exists t :: t in pool.all && t.future.Some? && t.future.value.id == id
      ensures Calm() ==> (running <==> exists e :: e in Pool() && e.id == id)
    {
      var found;
      ghost var place;
      found, place := Find(id);
      running := found.Some?;
      if running {
        assert found.value in pool.all;
      }
      if Calm() {
        PoolIsLinked();
        if running {
          assert found.value.future.value in Pool();
        }
      }
    }

    // Put the empty body in a task's place: it stays where it is, in the ready queue or
    // asleep.
    method Replace(task: Task, id: nat) returns (ghost index: nat)
      requires Valid() && task in pool.all && task.future.Some? && task.future.value.id == id
      modifies task`future
      ensures Valid() && task.future == Some(Entry(id, []))
      ensures StoppedAs(old(Pool()), old(pool.Asleep()), Pool(), pool.Asleep(), id, task, index)
    {
      ghost var q: seq<Slot> := pool.Slots();
      ghost var j;
      assert pool.Owned(task);
      j := pool.SetFuture(task, Entry(id, []));
      index := 0;
      if task.queued {
        index := EntriesReplace(q, j, Entry(id, []));
        ReplaceKeeps(q, j, Entry(id, []), pool.pollCounter);
      }
    }

    // Task t has been given the empty body, asleep or at its place in the pool, and
    // nothing else has changed.
    static ghost predicate StoppedAs(before: seq<Entry>, asleep: Sleepers, after: seq<Entry>, asleep': Sleepers,
                                     id: nat, t: Task, index: nat) {
      if t in asleep then
        after == before && asleep' == asleep[t := Some(Entry(id, []))]
      else
        && asleep' == asleep && index < |before| && before[index].id == id
        && after == before[index := Entry(id, [])]
    }

    // A task of this id, if there is one, has nothing left to do from now on; no other
    // task is touched, awake or asleep.
    method StopRunningTask(id: nat) returns (found: bool, ghost place: nat, ghost index: nat)
      requires Valid()
      modifies pool.all`future
      ensures Valid()
      ensures if !found then
          forall t :: t in pool.all ==> t.future == old(t.future) && t.future.Some? && t.future.value.id != id
        else
          && place < |pool.all| && pool.all[place].future == Some(Entry(id, []))
          && (forall i :: 0 <= i < place && pool.all[i].future.Some? ==> pool.all[i].future.value.id != id)
          && old(pool.all[place].future.Some? && pool.all[place].future.value.id == id)
          && forall i :: 0 <= i < |pool.all| && i != place ==> pool.all[i].future == old(pool.all[i].future)
      ensures if found then
          StoppedAs(old(Pool()), old(pool.Asleep()), Pool(), pool.Asleep(), id, pool.all[place], index)
        else Pool() == old(Pool()) && pool.Asleep() == old(pool.Asleep())
    {
      var task;
      task, place := Find(id);
      found, index := task.Some?, 0;
      if found {
        index := Replace(task.value, id);
      } else {
        NoneOfThisId(id);
      }
    }

    // For a calm scheduler it is StopTask, and leaves it calm.
    static lemma CalmStop(before: Sched, after: Sched, id: nat, t: Task, index: nat)
      requires AllWake(before.pool) && after.env == before.env
      requires StoppedAs(before.pool, map[], after.pool, map[], id, t, index)
      ensures after == History.StopTask(before, id, index) && AllWake(after.pool)
    {
    }

    lemma NoneOfThisId(id: nat)
      requires Valid()
      requires forall i :: 0 <= i < |pool.all| && pool.all[i].future.Some? ==> pool.all[i].future.value.id != id
      ensures forall t :: t in pool.all ==> t.future.Some? && t.future.value.id != id
    {
      forall t | t in pool.all ensures t.future.Some? && t.future.value.id != id {
        assert pool.Owned(t);
        var i :| 0 <= i < |pool.all| && pool.all[i] == t;
      }
    }

    // A waker that somebody kept, used between two runs: a sleeper goes to the pool's tail,
    // and the thread that polled last is woken; any other task stays what it is.
    method WakeTask(task: Task)
      requires Valid() && task in pool.tasks
      modifies pool.readyQueue`head, pool.readyQueue`contents, pool.readyQueue.head`nextReady
      modifies task`queued, task`nextReady
      modifies pool.readyQueue.waker
      modifies if pool.readyQueue.waker.waker.Some? then {pool.readyQueue.waker.waker.value} else {}
      ensures Valid() && pool.Asleep() == old(pool.Asleep()) - {task}
      ensures task in old(pool.Asleep()) ==> old(pool.Asleep())[task].Some?
      ensures Pool() == old(Pool()) + (if task in old(pool.Asleep()) then [old(pool.Asleep())[task].value] else [])
      ensures pool.readyQueue.waker.waker ==
        if task in old(pool.Asleep()) then None else old(pool.readyQueue.waker.waker)
      ensures old(pool.readyQueue.waker.waker).Some? ==>
        old(pool.readyQueue.waker.waker).value.Told(task in old(pool.Asleep()))
    {
      ghost var slots: seq<Slot>, asleep := pool.Slots(), task in pool.Asleep();
      pool.Rouse(task);
      RousedPool(slots, if asleep then [Slot(task, task.future, task.lastPolled)] else []);
    }

    lemma RousedPool(slots: seq<Slot>, last: seq<Slot>)
      requires pool.Slots() == slots + last
      requires last == [] || (|last| == 1 && last[0].future.Some? && last[0].last <= pool.pollCounter)
      ensures Pool() == Entries(slots) + (if last == [] then [] else [last[0].future.value])
      ensures NotAhead(slots, pool.pollCounter) ==> NotAhead(pool.Slots(), pool.pollCounter)
    {
      EntriesConcat(slots, last);
      assert last != [] ==> Entries(last[1..]) == [];
    }

    method ClearRunning()
      requires Valid()
      modifies pool`headAll, pool`all, pool.all, pool.readyQueue, pool.readyQueue.stub`nextReady
      modifies pool.readyQueue.contents`nextReady, pool.readyQueue.contents`owner
      ensures Valid() && pool.all == [] && pool.Asleep() == map[]
      ensures forall p :: View(p) == History.PoolCleared(old(View(p)))
      ensures forall t :: t in pool.tasks ==> t.future == None && t.owner == Freed
      ensures old(Calm()) ==> Calm()
    {
      pool.Clear();
    }

    method ClearQueue()
      requires Valid()
      modifies inbox`incoming
      ensures Valid() && pool.Asleep() == old(pool.Asleep())
      ensures forall p :: View(p) == History.QueueCleared(old(View(p)))
      ensures old(Calm()) ==> Calm()
    {
      inbox.incoming := [];
    }

    method Clear()
      requires Valid()
      modifies pool`headAll, pool`all, pool.all, pool.readyQueue, pool.readyQueue.stub`nextReady
      modifies pool.readyQueue.contents`nextReady, pool.readyQueue.contents`owner, inbox`incoming
      ensures Valid() && pool.all == [] && pool.Asleep() == map[]
      ensures forall p :: View(p) == History.PoolCleared(History.QueueCleared(old(View(p))))
      ensures forall t :: t in pool.tasks ==> t.future == None && t.owner == Freed
      ensures old(Calm()) ==> Calm()
    {
      pool.Clear();
      inbox.incoming := [];
    }
  }
}
