// One call of poll_next, seen as the part of a run it does: the link between the
// ready queue of PollCycle and the lists of entries of Scheduling.
module PoolCycles {
  import opened Wrappers
  import opened Programs
  import opened PollCycle
  import opened Scheduling
  import opened Sleeping
  import opened Tasks

  // What the live slots of a queue have left to do, in order.
  ghost function Entries(q: seq<Slot>): seq<Entry> {
    if q == [] then []
    else if q[0].future == None then Entries(q[1..])
    else [q[0].future.value] + Entries(q[1..])
  }

  // No live slot has been polled in this cycle.
  ghost predicate Unmet(q: seq<Slot>, counter: nat) {
    forall i :: 0 <= i < |q| && q[i].future.Some? ==> q[i].last < counter
  }

  lemma {:induction false} EntriesConcat(a: seq<Slot>, b: seq<Slot>)
    ensures Entries(a + b) == Entries(a) + Entries(b)
  {
    if a == [] {
      assert a + b == b;
    } else {
      assert (a + b)[1..] == a[1..] + b && (a + b)[0] == a[0];
      EntriesConcat(a[1..], b);
    }
  }

  lemma {:induction false} EntriesLive(q: seq<Slot>)
    ensures Entries(Live(q)) == Entries(q) && |Entries(q)| == |Live(q)|
    ensures forall i :: 0 <= i < |Live(q)| ==> Live(q)[i].future == Some(Entries(q)[i])
  {
    if q != [] {
      EntriesLive(q[1..]);
      if q[0].future.Some? {
        assert Live(q)[1..] == Live(q[1..]) && Live(q)[0] == q[0];
      } else {
        assert Live(q) == Live(q[1..]);
      }
    }
  }

  lemma EntriesRotate(q: seq<Slot>)
    requires forall i :: 0 <= i < |q| ==> q[i].future.Some?
    ensures Entries(RotateLeft(q)) == RotateLeft(Entries(q))
  {
    if q != [] {
      EntriesConcat(q[1..], [q[0]]);
      assert Entries([q[0]][1..]) == [];
    }
  }

  ghost predicate AllLive(q: seq<Slot>) {
    forall i :: 0 <= i < |q| ==> q[i].future.Some?
  }

  lemma {:induction false} SweepLive(q: seq<Slot>, counter: nat, env: Env)
    ensures AllLive(SweepQueue(q, counter, env).kept)
  {
    if q != [] {
      if q[0].future == None || q[0].last >= counter {
        SweepLive(q[1..], counter, env);
      } else {
        SweepLive(q[1..], counter, PollEntry(q[0].future.value, env).env);
      }
    }
  }

  // A pass over tasks none of which has been polled yet polls them all.
  lemma {:induction false} SweepIsPollAll(q: seq<Slot>, counter: nat, env: Env)
    requires Unmet(q, counter)
    ensures var w, es := SweepQueue(q, counter, env), Entries(q);
      && Entries(w.kept) == Awake(es) && Entries(w.slept) == Dozing(es) && w.env == PollAll(es, env).env
      && (w.kept == [] || (w.first.Some? && w.first.value.1) <==> ComesBack(es))
      && (w.kept == [] <==> Awake(es) == [])
  {
    if q != [] {
      if q[0].future == None {
        SweepIsPollAll(q[1..], counter, env);
      } else {
        var e := q[0].future.value;
        assert Entries(q)[1..] == Entries(q[1..]);
        PollEntryRest(e, env);
        PollCalls(e.id, e.body, Logged(env, e));
        var p := PollEntry(e, env);
        SweepIsPollAll(q[1..], counter, p.env);
        if p.rest.Some? {
          var left := [Slot(q[0].key, Some(Entry(e.id, p.rest.value)), counter)];
          EntriesFirst(left[0], SweepQueue(q[1..], counter, p.env).kept);
          EntriesFirst(left[0], SweepQueue(q[1..], counter, p.env).slept);
        }
      }
    }
  }

  lemma EntriesFirst(slot: Slot, q: seq<Slot>)
    requires slot.future.Some?
    ensures Entries([slot] + q) == [slot.future.value] + Entries(q)
  {
    assert ([slot] + q)[1..] == q;
  }

  // The tasks that fall asleep are among those of the queue, each once.
  lemma {:induction false} SweptKeys(q: seq<Slot>, counter: nat, env: Env)
    ensures var slept := SweepQueue(q, counter, env).slept;
      && AllLive(slept)
      && (forall s :: s in slept ==> exists i :: 0 <= i < |q| && q[i].key == s.key)
      && (DistinctKeys(q) ==> DistinctKeys(slept))
  {
    if q != [] {
      var env' := if Settled(q[0], counter) then env else PollEntry(q[0].future.value, env).env;
      SweptKeys(q[1..], counter, env');
      var rest, slept := SweepQueue(q[1..], counter, env').slept, SweepQueue(q, counter, env).slept;
      forall s | s in rest ensures exists i :: 1 <= i < |q| && q[i].key == s.key {
        var i :| 0 <= i < |q[1..]| && q[1..][i].key == s.key;
        assert q[i + 1].key == s.key;
      }
      assert slept == rest || (slept == [slept[0]] + rest && slept[0].key == q[0].key);
      if DistinctKeys(q) && slept != rest {
        assert forall j :: 1 <= j < |slept| ==> slept[j] == rest[j - 1] && slept[j] in rest;
      }
    }
  }

  // poll_next in the middle of a run: `done` has been polled in this cycle, `new` has
  // not.  Every new task is polled once; those awake after that stand behind those
  // carried over, and the whole is rotated; the others fall asleep.
  lemma PollNextIsCycleStep(c: Conf, done: seq<Slot>, new_: seq<Slot>)
    requires c.initial == None && DistinctKeys(c.queue) && c.queue == done + new_
    requires AllSettled(done, c.counter) && Unmet(new_, c.counter)
    requires Entries(done) != [] || ComesBack(Entries(new_))
    ensures Inv(c) && Stops(c)
    ensures var (c', ready) := Finish(c);
      && Entries(c'.queue) == RotateLeft(Entries(done) + Awake(Entries(new_)))
      && AllSettled(c'.queue, c.counter)
      && c'.env == PollAll(Entries(new_), c.env).env && c'.counter == c.counter
      && c'.asleep == c.asleep + AsMap(SweepOf(c).slept) && Entries(SweepOf(c).slept) == Dozing(Entries(new_))
      && (ready <==> Entries(c'.queue) == [] && c'.asleep == map[])
  {
    SweepMidRun(c, done, new_);
    FinishMeaning(c);
    var c', w := Finish(c).0, SweepOf(c);
    SweepLive(c.queue, c.counter, c.env);
    EntriesRotate(w.kept);
    EntriesLive(c'.queue);
  }

  // What a pass keeps, of the tasks polled before and of the new ones, and when the
  // loop stops.
  lemma SweepMidRun(c: Conf, done: seq<Slot>, new_: seq<Slot>)
    requires c.queue == done + new_ && AllSettled(done, c.counter) && Unmet(new_, c.counter) && c.initial == None
    ensures var w, es := SweepOf(c), Entries(new_);
      && Entries(w.kept) == Entries(done) + Awake(es) && Entries(w.slept) == Dozing(es)
      && w.env == PollAll(es, c.env).env
      && (Stops(c) <==> Entries(done) != [] || ComesBack(es))
  {
    SweepSettled(done, c.counter, c.env);
    SweepConcat(done, new_, c.counter, c.env);
    SweepIsPollAll(new_, c.counter, c.env);
    var w := SweepQueue(new_, c.counter, c.env);
    EntriesConcat(Live(done), w.kept);
    EntriesLive(done);
    FirstSettled(done, c.counter, c.env);
    assert [] + w.slept == w.slept;
  }

  // The first live task already polled in this cycle is pending and woken.
  lemma {:induction false} FirstSettled(q: seq<Slot>, counter: nat, env: Env)
    requires AllSettled(q, counter)
    ensures var w := SweepQueue(q, counter, env);
      if Entries(q) == [] then w.first == None && w.kept == [] else w.first.Some? && w.first.value.1
  {
    if q != [] {
      FirstSettled(q[1..], counter, env);
    }
  }

  // Every last_polled is at most poll_counter, and stays so.
  ghost predicate NotAhead(q: seq<Slot>, counter: nat) {
    forall i :: 0 <= i < |q| ==> q[i].last <= counter
  }

  lemma RoundNotAhead(c: Conf)
    requires NotAhead(c.queue, c.counter) && c.queue != [] && Step(c).More?
    ensures NotAhead(Step(c).conf.queue, c.counter) && Step(c).conf.counter == c.counter
  {
    RoundShape(c);
    assert forall s :: s in Appended(c) ==> s.last <= c.counter;
  }

  lemma {:induction false} FinishNotAhead(c: Conf)
    requires Inv(c) && Stops(c) && NotAhead(c.queue, c.counter)
    ensures NotAhead(Finish(c).0.queue, c.counter)
    decreases ToHandle(c), ToWalk(c)
  {
    if Step(c).More? {
      RoundNotAhead(c);
      RoundInv(c);
      RoundKeeps(c);
      RoundDecreases(c);
      FinishNotAhead(Step(c).conf);
    }
  }

  // ------------------------------------------------- poll_pool, on queues

  // Between two calls of poll_next in one run: the first k slots have been polled,
  // the others not.
  ghost predicate MidRun(c: Conf, k: nat) {
    && k <= |c.queue| && c.initial == None && DistinctKeys(c.queue)
    && AllSettled(c.queue[..k], c.counter) && Unmet(c.queue[k..], c.counter) && NotAhead(c.queue, c.counter)
  }

  // Between two runs.
  ghost predicate AtRest(c: Conf) {
    c.initial == None && NotAhead(c.queue, c.counter)
  }

  ghost function Abs(c: Conf): Sched {
    Sched(Entries(c.queue), c.env)
  }

  // What the run is going to make of it ...
  ghost function Outlook(c: Conf, k: nat): Left
    requires k <= |c.queue| && c.env.incoming == []
  {
    MixedCycle(Entries(c.queue[..k]), Entries(c.queue[k..]), c.env)
  }

  // ... if it returns.
  ghost predicate Returning(c: Conf, k: nat)
    requires k <= |c.queue| && c.env.incoming == []
  {
    CycleReturns(Entries(c.queue[..k]), Entries(c.queue[k..]), c.env)
  }

  // Beginning with the sleepers `base`, the tasks `slept` have fallen asleep, in this
  // order.
  ghost predicate Slept(base: Sleepers, asleep: Sleepers, slept: seq<Slot>) {
    && asleep == base + AsMap(slept) && DistinctKeys(slept) && AllLive(slept)
    && forall i :: 0 <= i < |slept| ==> slept[i].key !in base
  }

  // A run that is going to end as l, after `slept` have fallen asleep in it.
  ghost predicate InRun(c: Conf, k: nat, l: Left, base: Sleepers, slept: seq<Slot>) {
    && MidRun(c, k) && c.env.incoming == [] && c.counter > 0 && Returning(c, k)
    && Outlook(c, k).sched == l.sched && Entries(slept) + Outlook(c, k).slept == l.slept
    && Slept(base, c.asleep, slept)
  }

  ghost function ToPoll(c: Conf, k: nat): nat {
    if k <= |c.queue| then TotalWeight(Entries(c.queue[k..])) else 0
  }

  // What poll_next makes of a queue whose first k tasks have been polled.
  ghost predicate PolledOn(c: Conf, k: nat, c1: Conf) {
    k <= |c.queue| &&
    var batch := Entries(c.queue[k..]);
    && MidRun(c1, |c1.queue|) && c1.counter == c.counter && c1.env == PollAll(batch, c.env).env
    && Entries(c1.queue) == RotateLeft(Entries(c.queue[..k]) + Awake(batch))
    && c1.asleep == c.asleep + AsMap(SweepOf(c).slept) && Entries(SweepOf(c).slept) == Dozing(batch)
  }

  // poll_next in the middle of a run.
  lemma MidRunPoll(c: Conf, k: nat)
    requires MidRun(c, k) && (Entries(c.queue[..k]) != [] || ComesBack(Entries(c.queue[k..])))
    ensures Inv(c) && Stops(c)
    ensures var (c1, ready) := Finish(c);
            var c' := c1.(initial := None);
      && PolledOn(c, k, c')
      && (ready <==> Entries(c'.queue) == [] && c'.asleep == map[])
  {
    assert c.queue == c.queue[..k] + c.queue[k..];
    PollNextIsCycleStep(c, c.queue[..k], c.queue[k..]);
    FinishNotAhead(c);
    FinishKeys(c);
    var c' := Finish(c).0;
    assert c'.queue[..|c'.queue|] == c'.queue;
  }

  lemma {:induction false} FinishKeys(c: Conf)
    requires Inv(c) && Stops(c)
    ensures DistinctKeys(Finish(c).0.queue)
    decreases ToHandle(c), ToWalk(c)
  {
    if Step(c).More? {
      RoundInv(c);
      RoundKeeps(c);
      RoundDecreases(c);
      FinishKeys(Step(c).conf);
    }
  }

  // q' is q with some tasks pushed behind it.
  ghost predicate Extended(q: seq<Slot>, q': seq<Slot>, es: seq<Entry>) {
    && |q| <= |q'| && q'[..|q|] == q
    && Entries(q'[|q|..]) == es
    && forall i :: |q| <= i < |q'| ==> q'[i].future.Some? && q'[i].last == 0
  }

  lemma ExtendedOnce(q: seq<Slot>, q': seq<Slot>, es: seq<Entry>, slot: Slot)
    requires Extended(q, q', es) && slot.future.Some? && slot.last == 0
    ensures Extended(q, q' + [slot], es + [slot.future.value])
  {
    var more := q'[|q|..];
    assert (q' + [slot])[|q|..] == more + [slot];
    assert (q' + [slot])[..|q|] == q'[..|q|];
    EntriesConcat(more, [slot]);
    assert Entries([slot][1..]) == [];
  }

  // c' is c with the incoming tasks pushed into the pool.
  ghost predicate Pushed(c: Conf, c': Conf) {
    && Extended(c.queue, c'.queue, c.env.incoming)
    && DistinctKeys(c'.queue)
    && c'.asleep == c.asleep && c'.initial == c.initial && c'.counter == c.counter && c'.env == Drained(c.env)
  }

  lemma PushedNotAhead(c: Conf, c': Conf)
    requires Pushed(c, c')
    ensures NotAhead(c.queue, c.counter) ==> NotAhead(c'.queue, c.counter)
  {
    assert forall i :: 0 <= i < |c.queue| ==> c'.queue[i] == c'.queue[..|c.queue|][i];
  }

  // One pass of poll_pool's loop: the run that ends as l goes on, or is over, and
  // `ready` says whether it leaves no task.
  ghost predicate Passed(c: Conf, k: nat, c': Conf, k': nat, again: bool, ready: bool, l: Left, base: Sleepers,
                         slept: seq<Slot>) {
    if again then InRun(c', k', l, base, slept) && ToPoll(c', k') < ToPoll(c, k)
    else RunOver(c', ready, l, base, slept)
  }

  ghost predicate RunOver(c: Conf, ready: bool, l: Left, base: Sleepers, slept: seq<Slot>) {
    && AtRest(c) && Abs(c) == l.sched && Slept(base, c.asleep, slept) && Entries(slept) == l.slept
    && (ready <==> l.sched.pool == [] && c.asleep == map[])
  }

  // Every task keeps the waking contract, and none is asleep.
  ghost predicate Keeping(c: Conf) {
    c.asleep == map[] && AllWake(Todo(Abs(c)))
  }

  // For such tasks a run is that of Scheduling, and leaves such tasks.
  lemma KeepingRun(c: Conf, c': Conf, ready: bool, slept: seq<Slot>)
    requires Keeping(c) && RunOver(c', ready, MixedRun(Abs(c)), c.asleep, slept)
    ensures Keeping(c') && Abs(c') == Run(Abs(c)) && (ready <==> Run(Abs(c)).pool == [])
  {
    ContractRun(Abs(c));
    MixedRunPolls(Abs(c));
    EntriesAll(slept);
    assert c.asleep + AsMap([]) == map[];
  }

  lemma {:induction false} EntriesAll(q: seq<Slot>)
    requires AllLive(q)
    ensures |Entries(q)| == |q|
  {
    if q != [] {
      assert AllLive(q[1..]) by {
        assert forall i :: 1 <= i < |q| ==> q[i] == q[1..][i - 1];
      }
      EntriesAll(q[1..]);
    }
  }

  // The tasks that fell asleep before and in one more poll_next.
  lemma SleptOn(base: Sleepers, c: Conf, slept: seq<Slot>)
    requires Slept(base, c.asleep, slept) && DistinctKeys(c.queue)
    requires forall i :: 0 <= i < |c.queue| ==> c.queue[i].key !in c.asleep
    ensures var more := SweepOf(c).slept;
      Slept(base, c.asleep + AsMap(more), slept + more) && Entries(slept + more) == Entries(slept) + Entries(more)
  {
    var more := SweepOf(c).slept;
    SweptKeys(c.queue, c.counter, c.env);
    AsMapConcat(slept, more);
    MergeAssociative(base, AsMap(slept), AsMap(more));
    EntriesConcat(slept, more);
    AsMapKeys(slept);
    forall i | 0 <= i < |more| ensures more[i].key !in c.asleep {
      assert more[i] in more;
    }
  }

  lemma {:induction false} AsMapKeys(slept: seq<Slot>)
    ensures forall i :: 0 <= i < |slept| ==> slept[i].key in AsMap(slept)
  {
    if slept != [] {
      AsMapKeys(slept[1..]);
      assert forall i :: 1 <= i < |slept| ==> slept[i] == slept[1..][i - 1];
    }
  }

  // A poll_next after which nothing has come in ends the run.
  lemma MidRunEnds(c: Conf, k: nat, c1: Conf, ready: bool, l: Left, base: Sleepers, slept: seq<Slot>)
    requires InRun(c, k, l, base, slept) && PolledOn(c, k, c1) && c1.env.incoming == []
    requires forall i :: 0 <= i < |c.queue| ==> c.queue[i].key !in c.asleep
    requires ready <==> Entries(c1.queue) == [] && c1.asleep == map[]
    ensures RunOver(c1, ready, l, base, slept + SweepOf(c).slept)
  {
    SleptOn(base, c, slept);
  }

  // A poll_next after which something has come in, and the push that follows it,
  // bring the run forward.
  lemma MidRunPush(c: Conf, k: nat, c1: Conf, c': Conf, l: Left, base: Sleepers, slept: seq<Slot>)
    requires InRun(c, k, l, base, slept) && PolledOn(c, k, c1) && c1.env.incoming != [] && Pushed(c1, c')
    requires forall i :: 0 <= i < |c.queue| ==> c.queue[i].key !in c.asleep
    ensures InRun(c', |c1.queue|, l, base, slept + SweepOf(c).slept) && ToPoll(c', |c1.queue|) < ToPoll(c, k)
  {
    PushedNotAhead(c1, c');
    SleptOn(base, c, slept);
    assert c1.queue[..|c1.queue|] == c1.queue;
    var batch := Entries(c.queue[k..]);
    PollAllUsesWeight(batch, c.env);
    NoTasksNoSpawns(batch, c.env);
    Associative(Entries(slept), Dozing(batch), Outlook(c', |c1.queue|).slept);
  }

  // A new cycle: no task has been polled in it.
  lemma NewCycleMeets(c: Conf)
    requires AtRest(c) && DistinctKeys(c.queue)
    ensures var c' := c.(counter := c.counter + 1); MidRun(c', 0)
    ensures c.queue[0..] == c.queue && c.queue[..0] == []
  {
  }

  ghost predicate Begun(c: Conf, c': Conf) {
    InRun(c', 0, MixedRun(Abs(c)), c.asleep, [])
  }

  // The beginning of a run: what is incoming is pushed and the counter goes up.
  lemma MidRunStart(c: Conf, c1: Conf)
    requires AtRest(c) && RunReturns(Abs(c)) && Pushed(c, c1)
    ensures Begun(c, c1.(counter := c1.counter + 1))
  {
    PushedMeets(c, c1);
    assert [] + MixedRun(Abs(c)).slept == MixedRun(Abs(c)).slept && c.asleep + AsMap([]) == c.asleep;
  }

  lemma PushedMeets(c: Conf, c1: Conf)
    requires AtRest(c) && Pushed(c, c1)
    ensures var c' := c1.(counter := c1.counter + 1);
      && MidRun(c', 0)
      && Entries(c'.queue[..0]) == [] && Entries(c'.queue[0..]) == Todo(Abs(c)) && c'.env == Drained(c.env)
  {
    PushedNotAhead(c, c1);
    assert c1.queue == c.queue + c1.queue[|c.queue|..];
    EntriesConcat(c.queue, c1.queue[|c.queue|..]);
    assert c1.queue[0..] == c1.queue && c1.queue[..0] == [];
  }

  // Another body for one live slot is another body for its entry.
  lemma EntriesReplace(q: seq<Slot>, j: nat, e: Entry) returns (index: nat)
    requires j < |q| && q[j].future.Some?
    ensures index < |Entries(q)| && Entries(q)[index] == q[j].future.value
    ensures Entries(q[j := q[j].(future := Some(e))]) == Entries(q)[index := e]
  {
    var q' := q[j := q[j].(future := Some(e))];
    var front, back := q[..j], q[j + 1..];
    index := |Entries(front)|;
    assert q == front + ([q[j]] + back);
    assert q' == front + ([q'[j]] + back);
    EntriesConcat(front, [q[j]] + back);
    EntriesConcat(front, [q'[j]] + back);
    assert ([q[j]] + back)[1..] == back && ([q'[j]] + back)[1..] == back;
  }

  lemma {:induction false} EntriesMembers(q: seq<Slot>)
    ensures forall i :: 0 <= i < |q| && q[i].future.Some? ==> q[i].future.value in Entries(q)
    ensures forall e :: e in Entries(q) ==> exists i :: 0 <= i < |q| && q[i].future == Some(e)
  {
    if q != [] {
      EntriesMembers(q[1..]);
      var rest := Entries(q[1..]);
      forall i | 0 <= i < |q| && q[i].future.Some? ensures q[i].future.value in Entries(q) {
        if i > 0 {
          assert q[1..][i - 1] == q[i];
          assert q[i].future.value in rest;
        }
      }
      forall e | e in Entries(q) ensures exists i :: 0 <= i < |q| && q[i].future == Some(e) {
        if e in rest {
          var i :| 0 <= i < |q[1..]| && q[1..][i].future == Some(e);
          assert q[i + 1].future == Some(e);
        } else {
          assert q[0].future == Some(e);
        }
      }
    }
  }

  lemma ReplaceKeeps(q: seq<Slot>, j: nat, e: Entry, counter: nat)
    requires j < |q| && q[j].future.Some?
    ensures var q' := q[j := q[j].(future := Some(e))];
      && (NotAhead(q, counter) ==> NotAhead(q', counter))
  {
  }

  // --------------------------------------------------------- the thread

  // What a run makes of the thread: woken, if a task polled in it has called its waker.
  ghost function ThreadAfter(s: Sched, s': Sched, n: Notice): Notice {
    if Wakings(s'.env.polls) > Wakings(s.env.polls) then n.Woken() else n
  }

  // What run_blocking makes of it: the wakeup of each run but the last is used up, and no
  // token is, since the thread never parks.
  ghost function BlockingThread(s: Sched, n: Notice): Notice
    decreases TotalWeight(Todo(s))
  {
    var s' := Run(s);
    if s'.pool == [] then ThreadAfter(s, s', n)
    else
      RunUsesWeight(s);
      BlockingThread(s', ThreadAfter(s, s', n).(unparked := false))
  }

  // run_blocking, begun at s with the thread as n, has come to s' and n': it is over, or
  // goes on, with a wakeup to use up.
  ghost predicate BlockingOn(s: Sched, n: Notice, s': Sched, n': Notice, ready: bool) {
    if ready then s' == RunBlocking(s) && n' == BlockingThread(s, n)
    else
      && RunBlocking(s') == RunBlocking(s) && n'.unparked
      && BlockingThread(s', n'.(unparked := false)) == BlockingThread(s, n)
  }

  // One run of it.
  lemma BlockingRun(s: Sched, n: Notice)
    requires AllWake(Todo(s))
    ensures var s', n' := Run(s), ThreadAfter(s, Run(s), n);
      && BlockingOn(s, n, s', n', s'.pool == [])
      && (s'.pool != [] ==> TotalWeight(Todo(s')) < TotalWeight(Todo(s)))
  {
    RunBlockingStep(s);
    ContractRun(s);
    RunWakings(s);
  }

  // No token gets lost, and none comes but by a wake.
  lemma {:induction false} BlockingTokens(s: Sched, n: Notice)
    ensures Wakings(s.env.polls) <= Wakings(RunBlocking(s).env.polls)
    ensures var n' := BlockingThread(s, n);
      && (n.token ==> n'.token)
      && (n'.token && !n.token ==> Wakings(s.env.polls) < Wakings(RunBlocking(s).env.polls))
    decreases TotalWeight(Todo(s))
  {
    RunBlockingStep(s);
    ExactlyOncePerRun(s);
    WakingsConcat(s.env.polls, Todo(s) + Births(Run(s).env.born, |s.env.born|));
    if Run(s).pool != [] {
      BlockingTokens(Run(s), ThreadAfter(s, Run(s), n).(unparked := false));
    }
  }
}
