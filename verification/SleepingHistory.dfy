// Whole histories in which tasks may break the waking contract, fall asleep in a run,
// be woken or stopped between two runs, and be cleared (src/lib.rs, README.md:89).
module SleepingHistories {
  import opened Wrappers
  import opened Programs
  import opened PollCycle
  import opened Scheduling
  import opened Sleeping
  import opened History

  // The world of History, and the tasks asleep, in the order in which they fell asleep.
  datatype Mixed = Mixed(world: World, asleep: seq<Entry>)

  datatype MixedCall =
    | Between(call: Call)     // any call but a run
    | RunAny(param: Param)
    | WakeUp(k: nat)          // somebody wakes the k-th sleeper
    | StopAsleep(k: nat)      // stop_running_task finds it

  // The call can be made, and returns.
  ghost predicate Possible(m: Mixed, c: MixedCall) {
    match c
    case Between(call) => !call.RunWith? && !call.RunBlockingWith?
    case RunAny(p) => RunReturns(Given(m.world.sched, p))
    case WakeUp(k) => k < |m.asleep|
    case StopAsleep(k) => k < |m.asleep|
  }

  predicate Clears(c: Call) {
    c.ClearRunning? || c.Clear?
  }

  ghost function Make(m: Mixed, c: MixedCall): Mixed
    requires Possible(m, c)
  {
    var s := m.world.sched;
    match c
    case Between(call) =>
      var w := Apply(m.world, call);
      if Clears(call) then Mixed(w.(cleared := w.cleared + |m.asleep|), []) else Mixed(w, m.asleep)
    case RunAny(p) =>
      var l := MixedRun(Given(s, p));
      Mixed(m.world.(sched := l.sched), m.asleep + l.slept)
    case WakeUp(k) =>
      Mixed(m.world.(sched := s.(pool := s.pool + [m.asleep[k]])), m.asleep[..k] + m.asleep[k + 1..])
    case StopAsleep(k) => m.(asleep := m.asleep[k := Entry(m.asleep[k].id, [])])
  }

  ghost predicate AllPossible(m: Mixed, h: seq<MixedCall>)
    decreases |h|
  {
    h == [] || (Possible(m, h[0]) && AllPossible(Make(m, h[0]), h[1..]))
  }

  ghost function MixedAfter(m: Mixed, h: seq<MixedCall>): Mixed
    requires AllPossible(m, h)
    decreases |h|
  {
    if h == [] then m else MixedAfter(Make(m, h[0]), h[1..])
  }

  // ----------------------------------------------------------- accounting

  ghost predicate MixedBalanced(m: Mixed) {
    var s := m.world.sched;
    |s.env.born| == s.env.completed + m.world.unqueued + m.world.cleared + |Todo(s)| + |m.asleep|
  }

  lemma MakeBalanced(m: Mixed, c: MixedCall)
    requires Possible(m, c) && MixedBalanced(m)
    ensures MixedBalanced(Make(m, c)) && m.world.sched.env.born <= Make(m, c).world.sched.env.born
  {
    match c
    case Between(call) => BetweenBalanced(m.world, call);
    case RunAny(p) => MixedRunPolls(Given(m.world.sched, p));
    case _ =>
  }

  // How many ids a world does not account for.
  function Unaccounted(w: World): int {
    |w.sched.env.born| - w.sched.env.completed - w.unqueued - w.cleared - |w.sched.pool| - |w.sched.env.incoming|
  }

  lemma BetweenBalanced(w: World, c: Call)
    requires !c.RunWith? && !c.RunBlockingWith?
    ensures Unaccounted(Apply(w, c)) == Unaccounted(w) && w.sched.env.born <= Apply(w, c).sched.env.born
  {
  }

  // Ids issued = tasks completed + taken back + cleared + in pool and incoming + asleep,
  // over every history.
  lemma {:induction false} SleepersAccountedFor(m: Mixed, h: seq<MixedCall>)
    requires MixedBalanced(m) && AllPossible(m, h)
    ensures MixedBalanced(MixedAfter(m, h)) && m.world.sched.env.born <= MixedAfter(m, h).world.sched.env.born
    decreases |h|
  {
    if h != [] {
      MakeBalanced(m, h[0]);
      SleepersAccountedFor(Make(m, h[0]), h[1..]);
    }
  }

  // ------------------------------------------------------------------ ids

  // Live ids, of tasks asleep or not, are distinct and were issued.
  ghost predicate MixedDistinct(m: Mixed) {
    forall id: nat ::
      IdCount(Todo(m.world.sched), id) + IdCount(m.asleep, id) <= (if id < |m.world.sched.env.born| then 1 else 0)
  }

  lemma {:induction false} SplitIdCount(es: seq<Entry>, id: nat)
    ensures IdCount(Awake(es), id) + IdCount(Dozing(es), id) <= IdCount(es, id)
  {
    if es != [] {
      SplitIdCount(es[1..], id);
      var left := LeftBy(es[0]);
      assert IdCount([], id) == 0 && (left != [] ==> left[1..] == []);
      IdCountConcat(if CallsWaker(es[0].body) then left else [], Awake(es[1..]), id);
      IdCountConcat(if CallsWaker(es[0].body) then [] else left, Dozing(es[1..]), id);
    }
  }

  lemma {:induction false} MixedIdCount(carried: seq<Entry>, batch: seq<Entry>, env: Env, id: nat)
    requires env.incoming == []
    ensures var l := MixedCycle(carried, batch, env);
      && env.born <= l.sched.env.born
      && IdCount(l.sched.pool, id) + IdCount(l.slept, id)
         <= IdCount(carried, id) + IdCount(batch, id) + IdCount(Births(l.sched.env.born, |env.born|), id)
    decreases TotalWeight(batch)
  {
    var r := PollAll(batch, env);
    PollAllSpawns(batch, env);
    SplitIdCount(batch, id);
    IdCountConcat(carried, Awake(batch), id);
    IdCountRotate(carried + Awake(batch), id);
    if r.env.incoming != [] {
      PollAllUsesWeight(batch, env);
      NoTasksNoSpawns(batch, env);
      var pool := RotateLeft(carried + Awake(batch));
      MixedIdCount(pool, r.env.incoming, Drained(r.env), id);
      var later := MixedCycle(pool, r.env.incoming, Drained(r.env));
      BirthsChain(env.born, r.env.born, later.sched.env.born);
      IdCountConcat(r.env.incoming, Births(later.sched.env.born, |r.env.born|), id);
      IdCountConcat(Dozing(batch), later.slept, id);
    }
  }

  lemma MakeIdCount(m: Mixed, c: MixedCall, id: nat)
    requires Possible(m, c)
    requires m.world.sched.env.born <= Make(m, c).world.sched.env.born && |Make(m, c).world.sched.env.born| <= IDS
    ensures var m' := Make(m, c);
            var s, s' := m.world.sched, m'.world.sched;
      IdCount(Todo(s'), id) + IdCount(m'.asleep, id)
      <= IdCount(Todo(s), id) + IdCount(m.asleep, id) + (if |s.env.born| <= id < |s'.env.born| then 1 else 0)
  {
    var s := m.world.sched;
    match c
    case Between(call) => CallIdCount(m.world, call, id);
    case RunAny(p) =>
      var l := MixedRun(Given(s, p));
      MixedIdCount([], Todo(s), Drained(Given(s, p).env), id);
      IdCountBirths(l.sched.env.born, |s.env.born|, id);
      MixedRunPolls(Given(s, p));
      assert Todo(l.sched) == l.sched.pool;
      IdCountConcat(m.asleep, l.slept, id);
    case WakeUp(k) =>
      IdCountRemove(m.asleep, k, id);
      WokenIdCount(s, m.asleep[k], id);
    case StopAsleep(k) => IdCountReplace(m.asleep, k, Entry(m.asleep[k].id, []), id);
  }

  lemma WokenIdCount(s: Sched, e: Entry, id: nat)
    ensures IdCount(Todo(s.(pool := s.pool + [e])), id) == IdCount(Todo(s), id) + (if e.id == id then 1 else 0)
  {
    IdCountConcat(s.pool, s.env.incoming, id);
    IdCountConcat(s.pool + [e], s.env.incoming, id);
    IdCountConcat(s.pool, [e], id);
    assert [e][1..] == [] && IdCount([e][1..], id) == 0;
  }

  lemma MakeDistinct(m: Mixed, c: MixedCall)
    requires Possible(m, c) && MixedBalanced(m) && MixedDistinct(m) && |Make(m, c).world.sched.env.born| <= IDS
    ensures MixedDistinct(Make(m, c))
  {
    MakeBalanced(m, c);
    forall id: nat
      ensures IdCount(Todo(Make(m, c).world.sched), id) + IdCount(Make(m, c).asleep, id)
           <= (if id < |Make(m, c).world.sched.env.born| then 1 else 0)
    {
      MakeIdCount(m, c, id);
    }
  }

  // ----------------------------------------------------- sleepers stay asleep

  // The call leaves the sleepers alone.
  predicate LetsSleep(c: MixedCall) {
    match c
    case Between(call) => !Clears(call)
    case RunAny(_) => true
    case WakeUp(_) => false
    case StopAsleep(_) => false
  }

  lemma SleeperIsNotDue(m: Mixed, e: Entry)
    requires MixedDistinct(m) && e in m.asleep
    ensures e.id < |m.world.sched.env.born| && PollsBy(Todo(m.world.sched), e.id) == []
  {
    PollsByCount(m.asleep, e.id);
    assert e in PollsBy(m.asleep, e.id);
    var s := m.world.sched;
    assert IdCount(Todo(s), e.id) + IdCount(m.asleep, e.id) <= (if e.id < |s.env.born| then 1 else 0);
    PollsByCount(Todo(s), e.id);
  }

  lemma MakeLetsSleep(m: Mixed, c: MixedCall, e: Entry)
    requires Possible(m, c) && LetsSleep(c) && MixedDistinct(m) && |Make(m, c).world.sched.env.born| <= IDS
    requires e in m.asleep
    ensures m.asleep <= Make(m, c).asleep
    ensures PollsBy(Make(m, c).world.sched.env.polls, e.id) == PollsBy(m.world.sched.env.polls, e.id)
  {
    if c.RunAny? {
      SleeperIsNotDue(m, e);
      PolledInOrder(Given(m.world.sched, c.param));
      RunPollsOf(Given(m.world.sched, c.param), e.id);
    }
  }

  // A task that is asleep stays so, as it is and unpolled, over every history in which
  // nobody wakes, stops or clears sleepers, however often it is run: so one that was
  // stopped while asleep does not complete before somebody wakes it.
  lemma {:induction false} SleepersStay(m: Mixed, h: seq<MixedCall>, e: Entry)
    requires MixedBalanced(m) && MixedDistinct(m) && AllPossible(m, h) && e in m.asleep
    requires forall i :: 0 <= i < |h| ==> LetsSleep(h[i])
    requires |MixedAfter(m, h).world.sched.env.born| <= IDS
    ensures m.asleep <= MixedAfter(m, h).asleep
    ensures PollsBy(MixedAfter(m, h).world.sched.env.polls, e.id) == PollsBy(m.world.sched.env.polls, e.id)
    decreases |h|
  {
    if h != [] {
      var m1 := Make(m, h[0]);
      MakeBalanced(m, h[0]);
      SleepersAccountedFor(m1, h[1..]);
      MakeLetsSleep(m, h[0], e);
      MakeDistinct(m, h[0]);
      SleepersStay(m1, h[1..], e);
    }
  }

  // Once it is woken, the next run that returns polls it, once: behind the whole pool and
  // before all that is incoming.
  lemma WokenIsPolled(m: Mixed, k: nat, p: Param)
    requires MixedBalanced(m) && MixedDistinct(m)
    requires Possible(m, WakeUp(k)) && Possible(Make(m, WakeUp(k)), RunAny(p))
    requires |Make(Make(m, WakeUp(k)), RunAny(p)).world.sched.env.born| <= IDS
    ensures var e, s, s' := m.asleep[k], m.world.sched, Make(Make(m, WakeUp(k)), RunAny(p)).world.sched;
      && PollsBy(s'.env.polls, e.id) == PollsBy(s.env.polls, e.id) + [e]
      && s.env.polls + (s.pool + [e] + s.env.incoming) <= s'.env.polls
  {
    var e, m1 := m.asleep[k], Make(m, WakeUp(k));
    var s := Given(m1.world.sched, p);
    PolledInOrder(s);
    MakeBalanced(m, WakeUp(k));
    MakeDistinct(m, WakeUp(k));
    assert IdCount(Todo(m1.world.sched), e.id) + IdCount(m1.asleep, e.id) <= (if e.id < |s.env.born| then 1 else 0);
    assert Todo(s)[|s.pool| - 1] == e;
    OnePoll(Todo(s), e);
    RunPollsOf(s, e.id);
  }

  lemma PolledInOrder(s: Sched)
    ensures s.env.born <= MixedRun(s).sched.env.born && s.env.polls + Todo(s) <= MixedRun(s).sched.env.polls
  {
    MixedRunPolls(s);
    var s' := MixedRun(s).sched;
    Associative(s.env.polls, Todo(s), Births(s'.env.born, |s.env.born|));
  }

  lemma OnePoll(es: seq<Entry>, e: Entry)
    requires e in es && IdCount(es, e.id) <= 1
    ensures PollsBy(es, e.id) == [e] && IdCount(es, e.id) == 1
  {
    PollsByCount(es, e.id);
    assert e in PollsBy(es, e.id);
  }

  // The polls of an id that has been issued, in one run.
  lemma RunPollsOf(s: Sched, id: nat)
    requires id < |s.env.born| <= |MixedRun(s).sched.env.born| <= IDS
    ensures PollsBy(MixedRun(s).sched.env.polls, id) == PollsBy(s.env.polls, id) + PollsBy(Todo(s), id)
  {
    MixedRunPolls(s);
    var births := Births(MixedRun(s).sched.env.born, |s.env.born|);
    PollsByCount(births, id);
    IdCountBirths(MixedRun(s).sched.env.born, |s.env.born|, id);
    PollsByConcat(Todo(s), births, id);
    PollsByConcat(s.env.polls, Todo(s) + births, id);
    assert PollsBy(Todo(s), id) + [] == PollsBy(Todo(s), id);
  }

  // ---------------------------------------------------------- stopped sleepers

  // Nothing that goes by this id has anything left to do.
  ghost predicate AllHollow(m: Mixed, id: nat) {
    Hollow(Todo(m.world.sched), id) && Hollow(m.asleep, id)
  }

  // A run polls what has nothing left to do, and leaves none of it.
  lemma RunEndsHollow(s: Sched, id: nat)
    requires Hollow(Todo(s), id) && id < |s.env.born| <= |MixedRun(s).sched.env.born| <= IDS
    ensures var l := MixedRun(s);
      && (forall e :: e in Todo(l.sched) || e in l.slept ==> e.id != id)
      && OnlyHollowPolls(s, l.sched, id)
  {
    MixedRunPolls(s);
    var l := MixedRun(s);
    assert Todo(l.sched) == l.sched.pool;
    forall e | e in l.sched.pool || e in l.slept ensures e.id != id {
      assert e in multiset(l.sched.pool) + multiset(l.slept);
      LeftIsNotHollow(s, e, id);
    }
    RunPollsOf(s, id);
    PollsByMembers(Todo(s), id);
    var before, after := PollsBy(s.env.polls, id), PollsBy(l.sched.env.polls, id);
    assert after[|before|..] == PollsBy(Todo(s), id);
  }

  lemma LeftIsNotHollow(s: Sched, e: Entry, id: nat)
    requires Hollow(Todo(s), id) && id < |s.env.born| && s.env.born <= MixedRun(s).sched.env.born
    requires |MixedRun(s).sched.env.born| <= IDS
    requires e in multiset(Survivors(Todo(s) + Births(MixedRun(s).sched.env.born, |s.env.born|)))
    ensures e.id != id
  {
    var births := Births(MixedRun(s).sched.env.born, |s.env.born|);
    SurvivorsFrom(Todo(s) + births, e);
    var f :| f in Todo(s) + births && f.id == e.id && Rest(f.body) == Some(e.body);
    IdCountBirths(MixedRun(s).sched.env.born, |s.env.born|, id);
    CountZero(births, id);
  }

  lemma MakeHollow(m: Mixed, c: MixedCall, id: nat)
    requires Possible(m, c) && AllHollow(m, id) && id < |m.world.sched.env.born|
    requires m.world.sched.env.born <= Make(m, c).world.sched.env.born && |Make(m, c).world.sched.env.born| <= IDS
    ensures AllHollow(Make(m, c), id) && OnlyHollowPolls(m.world.sched, Make(m, c).world.sched, id)
  {
    match c
    case Between(call) =>
      ApplyShorter(m.world, call, id, 0);
      ApplyHollow(m.world, call, id);
    case RunAny(p) => RunEndsHollow(Given(m.world.sched, p), id);
    case WakeUp(k) => assert m.asleep[k] in m.asleep;
    case StopAsleep(k) => assert m.asleep[k] in m.asleep;
  }

  lemma {:induction false} StaysHollow(m: Mixed, h: seq<MixedCall>, id: nat)
    requires MixedBalanced(m) && AllPossible(m, h) && AllHollow(m, id) && id < |m.world.sched.env.born|
    requires |MixedAfter(m, h).world.sched.env.born| <= IDS
    ensures OnlyHollowPolls(m.world.sched, MixedAfter(m, h).world.sched, id)
    decreases |h|
  {
    if h != [] {
      var m1 := Make(m, h[0]);
      MakeBalanced(m, h[0]);
      SleepersAccountedFor(m1, h[1..]);
      MakeHollow(m, h[0], id);
      StaysHollow(m1, h[1..], id);
      OnlyHollowTransitive(m.world.sched, m1.world.sched, MixedAfter(m, h).world.sched, id);
    }
  }

  lemma StoppedIsHollow(m: Mixed, k: nat)
    requires MixedDistinct(m) && k < |m.asleep|
    ensures m.asleep[k].id < |m.world.sched.env.born| && AllHollow(Make(m, StopAsleep(k)), m.asleep[k].id)
  {
    var id := m.asleep[k].id;
    var rest := m.asleep[..k] + m.asleep[k + 1..];
    IdCountRemove(m.asleep, k, id);
    assert IdCount(Todo(m.world.sched), id) + IdCount(m.asleep, id) <= (if id < |m.world.sched.env.born| then 1 else 0);
    CountZero(Todo(m.world.sched), id);
    CountZero(rest, id);
    forall i | 0 <= i < |m.asleep| && i != k ensures m.asleep[i].id != id {
      assert rest[if i < k then i else i - 1] == m.asleep[i];
    }
  }

  // A sleeper that is stopped keeps its place with nothing left to do, and so do all
  // other tasks, with what they have; and over every later history, every poll by its id
  // is of the empty body.
  lemma StoppedAsleepNeverPolled(m: Mixed, k: nat, h: seq<MixedCall>)
    requires MixedBalanced(m) && MixedDistinct(m) && k < |m.asleep| && AllPossible(Make(m, StopAsleep(k)), h)
    requires |MixedAfter(Make(m, StopAsleep(k)), h).world.sched.env.born| <= IDS
    ensures var m1, id := Make(m, StopAsleep(k)), m.asleep[k].id;
      && m1.world == m.world && |m1.asleep| == |m.asleep| && m1.asleep[k] == Entry(id, [])
      && (forall i :: 0 <= i < |m.asleep| && i != k ==> m1.asleep[i] == m.asleep[i])
      && OnlyHollowPolls(m.world.sched, MixedAfter(m1, h).world.sched, id)
  {
    StoppedIsHollow(m, k);
    MakeBalanced(m, StopAsleep(k));
    StaysHollow(Make(m, StopAsleep(k)), h, m.asleep[k].id);
  }

  // Once somebody wakes it, the next run that returns completes it, with no update made.
  lemma StoppedAsleepCompletes(m: Mixed, k: nat, p: Param)
    requires MixedBalanced(m) && MixedDistinct(m) && k < |m.asleep|
    requires AllPossible(m, [StopAsleep(k), WakeUp(k), RunAny(p)])
    requires |MixedAfter(m, [StopAsleep(k), WakeUp(k), RunAny(p)]).world.sched.env.born| <= IDS
    ensures var m', id := MixedAfter(m, [StopAsleep(k), WakeUp(k), RunAny(p)]), m.asleep[k].id;
      && PollsBy(m'.world.sched.env.polls, id) == PollsBy(m.world.sched.env.polls, id) + [Entry(id, [])]
      && (forall e :: e in Todo(m'.world.sched) || e in m'.asleep ==> e.id != id)
  {
    var h, id := [StopAsleep(k), WakeUp(k), RunAny(p)], m.asleep[k].id;
    assert h[1..] == [WakeUp(k), RunAny(p)] && h[1..][1..] == [RunAny(p)] && h[1..][1..][1..] == [];
    var m1 := Make(m, StopAsleep(k));
    var m2 := Make(m1, WakeUp(k));
    assert AllPossible(m1, h[1..]) && AllPossible(m2, h[1..][1..]);
    var m3 := Make(m2, RunAny(p));
    assert MixedAfter(m3, []) == m3 && MixedAfter(m2, h[1..][1..]) == m3 && MixedAfter(m1, h[1..]) == m3;
    StoppedIsHollow(m, k);
    MakeBalanced(m, StopAsleep(k));
    MixedRunPolls(Given(m2.world.sched, p));
    MakeDistinct(m, StopAsleep(k));
    WokenIsPolled(m1, k, p);
    WokenCompletes(m1, k, p);
  }

  lemma WokenCompletes(m: Mixed, k: nat, p: Param)
    requires MixedBalanced(m) && MixedDistinct(m) && k < |m.asleep| && AllHollow(m, m.asleep[k].id)
    requires Possible(Make(m, WakeUp(k)), RunAny(p)) && m.asleep[k].id < |m.world.sched.env.born|
    requires |Make(Make(m, WakeUp(k)), RunAny(p)).world.sched.env.born| <= IDS
    ensures var m' := Make(Make(m, WakeUp(k)), RunAny(p));
      forall e :: e in Todo(m'.world.sched) || e in m'.asleep ==> e.id != m.asleep[k].id
  {
    var id, m1 := m.asleep[k].id, Make(m, WakeUp(k));
    MixedRunPolls(Given(m1.world.sched, p));
    MakeHollow(m, WakeUp(k), id);
    RunEndsHollow(Given(m1.world.sched, p), id);
    MakeBalanced(m, WakeUp(k));
    MakeDistinct(m, WakeUp(k));
    var e := m.asleep[k];
    assert Todo(m1.world.sched)[|m1.world.sched.pool| - 1] == e;
    OnePoll(Todo(m1.world.sched), e);
    var issued := |m1.world.sched.env.born|;
    assert IdCount(Todo(m1.world.sched), id) + IdCount(m1.asleep, id) <= (if id < issued then 1 else 0);
    CountZero(m1.asleep, id);
  }

  // --------------------------------------------- gone is gone, asleep or not

  lemma {:induction false} NeverPolledAgain(m: Mixed, h: seq<MixedCall>, id: nat)
    requires MixedBalanced(m) && AllPossible(m, h) && id < |m.world.sched.env.born|
    requires IdCount(Todo(m.world.sched), id) + IdCount(m.asleep, id) == 0
    requires |MixedAfter(m, h).world.sched.env.born| <= IDS
    ensures PollsBy(MixedAfter(m, h).world.sched.env.polls, id) == PollsBy(m.world.sched.env.polls, id)
    decreases |h|
  {
    if h != [] {
      var m1 := Make(m, h[0]);
      MakeBalanced(m, h[0]);
      SleepersAccountedFor(m1, h[1..]);
      MakeIdCount(m, h[0], id);
      if h[0].RunAny? {
        RunPollsOf(Given(m.world.sched, h[0].param), id);
        PollsByCount(Todo(m.world.sched), id);
      }
      NeverPolledAgain(m1, h[1..], id);
    }
  }

  // Clearing the running tasks clears the sleepers too, and none of them is ever polled.
  lemma ClearedAsleepNeverPolled(m: Mixed, c: Call, k: nat, h: seq<MixedCall>)
    requires MixedBalanced(m) && MixedDistinct(m) && Clears(c) && k < |m.asleep|
    requires AllPossible(Make(m, Between(c)), h)
    requires |MixedAfter(Make(m, Between(c)), h).world.sched.env.born| <= IDS
    ensures var m1, id := Make(m, Between(c)), m.asleep[k].id;
      && m1.asleep == []
      && PollsBy(MixedAfter(m1, h).world.sched.env.polls, id) == PollsBy(m.world.sched.env.polls, id)
  {
    var m1, id := Make(m, Between(c)), m.asleep[k].id;
    IdCountRemove(m.asleep, k, id);
    assert IdCount(Todo(m.world.sched), id) + IdCount(m.asleep, id) <= (if id < |m.world.sched.env.born| then 1 else 0);
    IdCountConcat(m.world.sched.pool, m.world.sched.env.incoming, id);
    IdCountConcat(m1.world.sched.pool, m1.world.sched.env.incoming, id);
    MakeBalanced(m, Between(c));
    NeverPolledAgain(m1, h, id);
  }

  // The parameter handed to a run of any tasks has been changed by the updates of that
  // run, one after another, and by nothing else.
  lemma ParamOfRun(m: Mixed, p: Param)
    requires Possible(m, RunAny(p))
    ensures var env, env' := m.world.sched.env, Make(m, RunAny(p)).world.sched.env;
      env.acts <= env'.acts && env'.param == ApplyActs(env'.acts[|env.acts|..], p)
  {
    var s := Given(m.world.sched, p);
    MixedRunPolls(s);
    var s' := MixedRun(s).sched;
    assert s'.env.acts[|s.env.acts|..] == ActsOf(Todo(s) + Births(s'.env.born, |s.env.born|));
  }
}
